/** How the routes fit together around one session id. */
module SessionFlow {
  import opened Wrappers
  import opened Text
  import opened Shared
  import opened Queue
  import opened Http
  import CreateRoute
  import StatusRoute
  import TerminateRoute

  /** The id the create route mints, as its 202 reply echoes it. */
  function MintedId(idMs: int, random36: string): string { GenerateSessionId(idMs, random36) }

  /** A session id minted by the create route is refused as malformed by both the status and the
      terminate route, before any lookup, whatever the queue holds. */
  lemma MintedIdIsRefused(body: Body<CreateRoute.CreateFields>, idMs: int, random36: string, nowMs: int,
                          fetch: Fetch, enqueueError: Option<string>)
    requires !body.NullBody?
    ensures var created := CreateRoute.Post(body, idMs, random36, nowMs, None);
            var sid := created.reply.body.sessionId;
            && sid == MintedId(idMs, random36)
            && StatusRoute.Get(Some(sid), fetch) == Handled(ErrorReply(400, StatusRoute.InvalidText, InvalidSessionId, None), [])
            && TerminateRoute.Post(Parsed(Some(sid)), fetch, enqueueError)
               == Handled(ErrorReply(400, TerminateRoute.InvalidText, InvalidSessionId, None), [])
  {
    GeneratedIdIsRejected(idMs, random36);
  }

  /** With nine random characters kept, the status route would look the session up and report
      the state of its create job. */
  lemma FixedIdIsLookedUp(idMs: int, random36: string, state: string)
    requires idMs >= 0 && |random36| >= 11 && AllLowerAlnum(random36[2..])
    ensures var sid := GenerateSessionIdFixed(idMs, random36);
            var h := StatusRoute.Get(Some(sid), Fetched(Some(JobView(state, NoReturnValue, None))));
            && h.calls == [GetJobStatusCall(sid)]
            && h.reply.status == 200 && h.reply.body.result.sessionId == sid
            && h.reply.body.result.status == MapJobState(state)
  {
    GeneratedFixedIdIsValid(idMs, random36);
  }
}
