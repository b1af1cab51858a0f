/** apps/api-fresh/routes/terminate.ts: `POST /api/terminate` with `{sessionId}`. */
module TerminateRoute {
  import opened Wrappers
  import opened Shared
  import opened Queue
  import opened Http

  const MissingText := "Missing sessionId in request body"
  const InvalidText := "Invalid sessionId format"
  const NotFoundText := "Session not found"
  const FailedText := "Failed to terminate session"
  const RequestedState := "termination_requested"
  const RequestedMessage := "Browser termination request queued"

  /** POST: `body` holds the `sessionId` field (`None` when absent), `fetch` is what the job
      lookup answered and `enqueueError` what `addTerminationJob` threw, if anything. */
  function Post(body: Body<Option<string>>, fetch: Fetch, enqueueError: Option<string>): (h: Handled)
    ensures body.NullBody? ==> h == Handled(ErrorReply(500, FailedText, TerminationFailed, Some(NullFieldMessage("sessionId"))), [])
    ensures !body.NullBody? ==>
              var param := if body.Parsed? then body.fields else None;
              && (!Truthy(param) ==> h == Handled(ErrorReply(400, MissingText, MissingSessionId, None), []))
              && (Truthy(param) && !IsValidSessionId(param.value) ==>
                    h == Handled(ErrorReply(400, InvalidText, InvalidSessionId, None), []))
              && (Truthy(param) && IsValidSessionId(param.value) ==>
                    && |h.calls| >= 1 && h.calls[0] == GetJobStatusCall(param.value)
                    && (fetch.FetchFailed? ==> h == Handled(ErrorReply(500, FailedText, TerminationFailed, Some(fetch.message)), h.calls[..1]))
                    && (fetch.Fetched? && fetch.job.None? ==> h == Handled(ErrorReply(404, NotFoundText, SessionNotFound, None), h.calls[..1]))
                    && (fetch.Fetched? && fetch.job.Some? ==>
                          && h.calls == [GetJobStatusCall(param.value), AddTerminationJobCall(param.value)]
                          && h.reply == if enqueueError.Some?
                                        then ErrorReply(500, FailedText, TerminationFailed, enqueueError)
                                        else Reply(202, SessionJson(param.value, RequestedState, RequestedMessage))))
  {
    if body.NullBody? then Handled(ErrorReply(500, FailedText, TerminationFailed, Some(NullFieldMessage("sessionId"))), [])
    else
      var param := if body.Parsed? then body.fields else None;
      if !Truthy(param) then Handled(ErrorReply(400, MissingText, MissingSessionId, None), [])
      else
        var sessionId := param.value;
        if !IsValidSessionId(sessionId) then Handled(ErrorReply(400, InvalidText, InvalidSessionId, None), [])
        else
          var lookup := [GetJobStatusCall(sessionId)];
          if fetch.FetchFailed? then Handled(ErrorReply(500, FailedText, TerminationFailed, Some(fetch.message)), lookup)
          else if GetJobStatus(sessionId, fetch.job).None? then Handled(ErrorReply(404, NotFoundText, SessionNotFound, None), lookup)
          else
            var calls := lookup + [AddTerminationJobCall(sessionId)];
            if enqueueError.Some? then Handled(ErrorReply(500, FailedText, TerminationFailed, enqueueError), calls)
            else Handled(Reply(202, SessionJson(sessionId, RequestedState, RequestedMessage)), calls)
  }

  /** At most one termination job is ever enqueued, and only for a well-formed id whose job exists. */
  lemma AtMostOneTermination(body: Body<Option<string>>, fetch: Fetch, enqueueError: Option<string>)
    ensures var h := Post(body, fetch, enqueueError);
            && |h.calls| <= 2
            && (forall i :: 0 <= i < |h.calls| && h.calls[i].AddTerminationJobCall? ==>
                  i == 1 && body.Parsed? && Truthy(body.fields) && IsValidSessionId(body.fields.value)
                  && fetch.Fetched? && fetch.job.Some? && h.calls[i].sessionId == body.fields.value)
            && (h.reply.status == 202 ==> AddTerminationJobCall(h.reply.body.sessionId) in h.calls)
            && (h.reply.status == 404 ==> forall c :: c in h.calls ==> !c.AddTerminationJobCall?)
  {
  }
}
