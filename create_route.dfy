/** apps/api-fresh/routes/create.ts: `POST /api/create` fills in the browser settings, mints a
    session id and enqueues one create job. */
module CreateRoute {
  import opened Wrappers
  import opened Shared
  import opened Queue
  import opened Http

  const AcceptedState := "accepted"
  const AcceptedMessage := "Browser creation request queued"
  const CreationFailedText := "Failed to create browser request"

  /** The fields of the request body the route reads. `None` stands for an absent or falsy
      field; `headless` is `Some(b)` only when the field is the boolean `b`. */
  datatype CreateFields = CreateFields(viewport: Option<Viewport>, userAgent: Option<string>, headless: Option<bool>, timeout: Option<int>)

  const NoFields := CreateFields(None, None, None, None)

  /** The job payload built from the body fields. */
  function PayloadFor(f: CreateFields, sessionId: string, nowMs: int): (p: JobData)
    ensures p.sessionId == sessionId && p.createdAt == Some(nowMs) && p.browserConfig.Some?
    ensures p.browserConfig.value.viewport == Some(if f.viewport.Some? then f.viewport.value else DefaultViewport)
    ensures p.browserConfig.value.userAgent == f.userAgent
    ensures p.browserConfig.value.headless == Some(f.headless != Some(false))
    ensures p.timeout == Some(if f.timeout.Some? && f.timeout.value != 0 then f.timeout.value else DefaultTimeout)
  {
    JobData(sessionId,
            Some(BrowserConfig(Some(f.viewport.GetOr(DefaultViewport)), f.userAgent, Some(f.headless != Some(false)))),
            Some(if f.timeout.Some? && f.timeout.value != 0 then f.timeout.value else DefaultTimeout),
            Some(nowMs))
  }

  /** POST: `idMs` and `random36` are what generateSessionId reads of the clock and of
      `Math.random().toString(36)`, `nowMs` the route's own clock reading, and `enqueueError`
      the exception `addBrowserJob` throws, if any. */
  function Post(body: Body<CreateFields>, idMs: int, random36: string, nowMs: int, enqueueError: Option<string>): (h: Handled)
    ensures body.NullBody? ==>
              h == Handled(ErrorReply(500, CreationFailedText, CreationFailed, Some(NullFieldMessage("viewport"))), [])
    ensures !body.NullBody? ==>
              var sid := GenerateSessionId(idMs, random36);
              var fields := if body.Parsed? then body.fields else NoFields;
              && h.calls == [AddBrowserJobCall(PayloadFor(fields, sid, nowMs))]
              && h.reply == if enqueueError.Some?
                            then ErrorReply(500, CreationFailedText, CreationFailed, enqueueError)
                            else Reply(202, SessionJson(sid, AcceptedState, AcceptedMessage))
  {
    if body.NullBody? then Handled(ErrorReply(500, CreationFailedText, CreationFailed, Some(NullFieldMessage("viewport"))), [])
    else
      var fields := if body.Parsed? then body.fields else NoFields;
      var sessionId := GenerateSessionId(idMs, random36);
      var payload := PayloadFor(fields, sessionId, nowMs);
      var reply := match enqueueError
        case Some(e) => ErrorReply(500, CreationFailedText, CreationFailed, Some(e))
        case None => Reply(202, SessionJson(sessionId, AcceptedState, AcceptedMessage));
      Handled(reply, [AddBrowserJobCall(payload)])
  }

  /** The defaults: an unparsable body behaves as an empty one, and an empty body asks for a
      1920x1080 headless browser with a five-minute timeout; a zero timeout is falsy and also
      becomes five minutes. */
  lemma CreateDefaults(idMs: int, random36: string, nowMs: int, t: Option<int>)
    ensures Post(Unparsable, idMs, random36, nowMs, None) == Post(Parsed(NoFields), idMs, random36, nowMs, None)
    ensures var p := PayloadFor(NoFields.(timeout := t), GenerateSessionId(idMs, random36), nowMs);
            && p.browserConfig == Some(BrowserConfig(Some(Viewport(1920, 1080)), None, Some(true)))
            && (t == Some(0) || t.None? ==> p.timeout == Some(300000))
  {
  }

  /** The 202 reply echoes the session id of the job it enqueued, exactly once. */
  lemma AcceptedEchoesJob(body: Body<CreateFields>, idMs: int, random36: string, nowMs: int)
    requires !body.NullBody?
    ensures var h := Post(body, idMs, random36, nowMs, None);
            && h.reply.status == 202 && |h.calls| == 1 && h.calls[0].AddBrowserJobCall?
            && h.reply.body.sessionId == h.calls[0].payload.sessionId
            && h.calls[0].payload.createdAt == Some(nowMs)
  {
  }
}
