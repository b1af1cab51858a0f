/** apps/api-fresh/routes/status.ts: `GET /api/status?sessionId=…`. */
module StatusRoute {
  import opened Wrappers
  import opened Shared
  import opened Queue
  import opened Http

  const MissingText := "Missing sessionId parameter"
  const InvalidText := "Invalid sessionId format"
  const NotFoundText := "Session not found"
  const FetchFailedText := "Failed to get session status"

  /** GET: `sessionParam` is the query parameter, `fetch` what the job lookup answered. The checks
      run in the order missing, malformed, not found. */
  function Get(sessionParam: Option<string>, fetch: Fetch): (h: Handled)
    ensures !Truthy(sessionParam) ==> h == Handled(ErrorReply(400, MissingText, MissingSessionId, None), [])
    ensures Truthy(sessionParam) && !IsValidSessionId(sessionParam.value) ==>
              h == Handled(ErrorReply(400, InvalidText, InvalidSessionId, None), [])
    ensures Truthy(sessionParam) && IsValidSessionId(sessionParam.value) ==>
              && h.calls == [GetJobStatusCall(sessionParam.value)]
              && h.reply == match fetch
                            case FetchFailed(m) => ErrorReply(500, FetchFailedText, StatusFetchFailed, Some(m))
                            case Fetched(job) =>
                              match GetJobStatus(sessionParam.value, job)
                              case None => ErrorReply(404, NotFoundText, SessionNotFound, None)
                              case Some(r) => Reply(200, StatusJson(r))
  {
    if !Truthy(sessionParam) then Handled(ErrorReply(400, MissingText, MissingSessionId, None), [])
    else
      var sessionId := sessionParam.value;
      if !IsValidSessionId(sessionId) then Handled(ErrorReply(400, InvalidText, InvalidSessionId, None), [])
      else
        var reply := match fetch
          case FetchFailed(m) => ErrorReply(500, FetchFailedText, StatusFetchFailed, Some(m))
          case Fetched(job) =>
            match GetJobStatus(sessionId, job)
            case None => ErrorReply(404, NotFoundText, SessionNotFound, None)
            case Some(r) => Reply(200, StatusJson(r));
        Handled(reply, [GetJobStatusCall(sessionId)])
  }

  /** A 200 carries exactly the merged status record, and is given only for a well-formed id
      whose job exists; a lookup happens exactly when the id is well-formed. */
  lemma StatusLadder(sessionParam: Option<string>, fetch: Fetch)
    ensures var h := Get(sessionParam, fetch);
            && (h.reply.status == 200 <==>
                  Truthy(sessionParam) && IsValidSessionId(sessionParam.value) && fetch.Fetched? && fetch.job.Some?)
            && (h.reply.status == 200 ==> h.reply.body == StatusJson(GetJobStatus(sessionParam.value, fetch.job).value))
            && (|h.calls| > 0 <==> Truthy(sessionParam) && IsValidSessionId(sessionParam.value))
  {
  }
}
