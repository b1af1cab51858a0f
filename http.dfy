/** What the API routes share: request bodies as parsed, the replies as (status code, body)
    pairs, and the queue requests a route makes. Headers are not modelled. */
module Http {
  import opened Wrappers
  import opened Queue

  const MissingSessionId := "MISSING_SESSION_ID"
  const InvalidSessionId := "INVALID_SESSION_ID"
  const SessionNotFound := "SESSION_NOT_FOUND"
  const CreationFailed := "CREATION_FAILED"
  const StatusFetchFailed := "STATUS_FETCH_FAILED"
  const TerminationFailed := "TERMINATION_FAILED"

  /** `req.json().catch(() => ({}))`: a body that does not parse becomes `{}`; a body that parses
      to `null` stays `null`, and reading a field of it throws. */
  datatype Body<T> = Unparsable | NullBody | Parsed(fields: T)

  /** The message the JavaScript engine gives when a field of `null` is read. */
  function NullFieldMessage(field: string): string {
    "Cannot read properties of null (reading '" + field + "')"
  }

  /** createErrorResponse's record. */
  datatype ErrorBody = ErrorBody(error: string, code: string, details: Option<string>)

  datatype ReplyBody =
    | ErrorJson(err: ErrorBody)
    | SessionJson(sessionId: string, state: string, message: string)
    | StatusJson(result: ResultPayload)

  datatype Reply = Reply(status: int, body: ReplyBody)

  function ErrorReply(status: int, error: string, code: string, details: Option<string>): (r: Reply)
    ensures r.status == status && r.body.ErrorJson? && r.body.err.code == code && r.body.err.details == details
  {
    Reply(status, ErrorJson(ErrorBody(error, code, details)))
  }

  /** The error code of a reply, if it carries one. */
  function CodeOf(r: Reply): Option<string> {
    if r.body.ErrorJson? then Some(r.body.err.code) else None
  }

  /** A request a route makes to the queue client. */
  datatype QueueCall = AddBrowserJobCall(payload: JobData) | GetJobStatusCall(sessionId: string) | AddTerminationJobCall(sessionId: string)

  /** What `queue.getJob` answered, or the exception it threw. */
  datatype Fetch = Fetched(job: Option<JobView>) | FetchFailed(message: string)

  /** A route's reply and the queue requests made on the way, in order. */
  datatype Handled = Handled(reply: Reply, calls: seq<QueueCall>)

  function Truthy(s: Option<string>): bool { s.Some? && s.value != "" }
}
