/** libs/queue/types.ts and libs/queue/client.ts: job payloads, result records, the status
    mapping, the status merge and the two enqueue operations. */
module Queue {
  import opened Wrappers
  import opened Text
  import opened Shared

  const QueueName := "browser-requests"
  const CreateBrowserJob := "create-browser"
  const TerminateBrowserJob := "terminate-browser"
  const TerminationPriority := 10

  datatype Status = Pending | Running | Completed | Failed | Terminated

  datatype BrowserConfig = BrowserConfig(viewport: Option<Viewport>, userAgent: Option<string>, headless: Option<bool>)

  /** JobPayload. A terminate job's data carries only the session id, so every other field is
      optional here (`None` is an absent key). */
  datatype JobData = JobData(sessionId: string, browserConfig: Option<BrowserConfig>, timeout: Option<int>, createdAt: Option<int>)

  datatype Job = Job(name: string, data: JobData)

  /** ResultPayload. */
  datatype ResultPayload = ResultPayload(
    sessionId: string,
    status: Status,
    browserWssUrl: Option<string>,
    containerId: Option<string>,
    containerPort: Option<int>,
    error: Option<string>,
    startedAt: Option<int>,
    completedAt: Option<int>)

  /** A record that may lack any key: what `job.returnvalue` holds (all `None` when it is null). */
  datatype PartialResult = PartialResult(
    sessionId: Option<string>,
    status: Option<Status>,
    browserWssUrl: Option<string>,
    containerId: Option<string>,
    containerPort: Option<int>,
    error: Option<string>,
    startedAt: Option<int>,
    completedAt: Option<int>)

  const NoReturnValue := PartialResult(None, None, None, None, None, None, None, None)

  /** The stored form of a ResultPayload the worker returned: every key it set is present. */
  function Stored(p: ResultPayload): PartialResult {
    PartialResult(Some(p.sessionId), Some(p.status), p.browserWssUrl, p.containerId, p.containerPort,
                  p.error, p.startedAt, p.completedAt)
  }

  /** mapJobState: the queue's job state name to a session status. */
  function MapJobState(state: string): (s: Status)
    ensures s == Running <==> state == "active"
    ensures s == Completed <==> state == "completed"
    ensures s == Failed <==> state == "failed"
    ensures s == Pending <==> state !in {"active", "completed", "failed"}
    ensures s != Terminated
  {
    match state
    case "waiting" => Pending
    case "delayed" => Pending
    case "active" => Running
    case "completed" => Completed
    case "failed" => Failed
    case _ => Pending
  }

  /** What `queue.getJob(id)` yields: the job's state name, its return value and failure reason. */
  datatype JobView = JobView(state: string, returnvalue: PartialResult, failedReason: Option<string>)

  function Pick<T>(present: Option<T>, fallback: T): T {
    if present.Some? then present.value else fallback
  }

  /** getJobStatus: `{sessionId, status: mapJobState(state), ...returnvalue}`, then a truthy
      `failedReason` replaces `error`. */
  function GetJobStatus(sessionId: string, job: Option<JobView>): (r: Option<ResultPayload>)
    ensures r.None? <==> job.None?
    ensures r.Some? ==> r.value.sessionId == Pick(job.value.returnvalue.sessionId, sessionId)
    ensures r.Some? ==> r.value.status == Pick(job.value.returnvalue.status, MapJobState(job.value.state))
    ensures r.Some? ==> (r.value.error ==
              if job.value.failedReason.Some? && job.value.failedReason.value != ""
              then job.value.failedReason else job.value.returnvalue.error)
    ensures r.Some? ==> (&& r.value.browserWssUrl == job.value.returnvalue.browserWssUrl
                         && r.value.containerId == job.value.returnvalue.containerId
                         && r.value.containerPort == job.value.returnvalue.containerPort
                         && r.value.startedAt == job.value.returnvalue.startedAt
                         && r.value.completedAt == job.value.returnvalue.completedAt)
  {
    match job
    case None => None
    case Some(j) =>
      var rv := j.returnvalue;
      var merged := ResultPayload(
        Pick(rv.sessionId, sessionId), Pick(rv.status, MapJobState(j.state)),
        rv.browserWssUrl, rv.containerId, rv.containerPort, rv.error, rv.startedAt, rv.completedAt);
      if j.failedReason.Some? && j.failedReason.value != "" then Some(merged.(error := j.failedReason))
      else Some(merged)
  }

  /** A finished job reports the status the worker returned, not the queue's state: a create job
      that the worker answered with `failed` reads as failed although the queue says completed,
      and one still without a return value reads as the mapped state (never `terminated`). */
  lemma ReturnValueOverridesState(sessionId: string, state: string, result: ResultPayload)
    ensures GetJobStatus(sessionId, Some(JobView(state, Stored(result), None))) == Some(result)
    ensures GetJobStatus(sessionId, Some(JobView(state, NoReturnValue, None))).value.status != Terminated
  {
  }

  /** Options passed to `queue.add`. */
  datatype JobOptions = JobOptions(jobId: Option<string>, delay: Option<int>, priority: Option<int>)

  /** A job as the queue holds it; `id` is the given `jobId`, or the queue's own counter, written
      in decimal, when none is given. */
  datatype QueuedJob = QueuedJob(id: string, name: string, data: JobData, options: JobOptions)

  /** Every create job is stored under its session id and every terminate job under a counter value. */
  ghost predicate WellFormedJobs(jobs: seq<QueuedJob>) {
    forall i :: 0 <= i < |jobs| ==>
      || (jobs[i].name == CreateBrowserJob && jobs[i].id == jobs[i].data.sessionId
          && jobs[i].options == JobOptions(Some(jobs[i].data.sessionId), Some(0), None))
      || (jobs[i].name == TerminateBrowserJob && |jobs[i].id| > 0 && AllDigits(jobs[i].id)
          && jobs[i].options == JobOptions(None, None, Some(TerminationPriority)))
  }

  /** The status lookup by an id that does not start with a digit can only find a create job:
      terminate jobs sit under numeric ids. Every id the validator accepts starts with
      "session_", and so does every minted one. */
  lemma LookupBySessionIdSeesOnlyCreateJobs(jobs: seq<QueuedJob>, id: string)
    requires WellFormedJobs(jobs)
    ensures (id == [] || !IsDigit(id[0])) ==>
              forall i :: 0 <= i < |jobs| && jobs[i].id == id ==> jobs[i].name == CreateBrowserJob
    ensures IsValidSessionId(id) ==>
              forall i :: 0 <= i < |jobs| && jobs[i].id == id ==> jobs[i].name == CreateBrowserJob
    ensures (exists nowMs: int, random36: string :: id == GenerateSessionId(nowMs, random36)) ==>
              forall i :: 0 <= i < |jobs| && jobs[i].id == id ==> jobs[i].name == CreateBrowserJob
  {
    if exists nowMs: int, random36: string :: id == GenerateSessionId(nowMs, random36) {
      var nowMs: int, random36: string :| id == GenerateSessionId(nowMs, random36);
      assert !IsDigit(id[0]);
    }
  }

  /** The queue client: the jobs added so far, and the counter the queue uses for jobs
      without a `jobId`. */
  class QueueClient {
    var jobs: seq<QueuedJob>
    var counter: nat

    /** The store is well formed, and no terminate job sits under a counter value the queue has
        not handed out yet. */
    ghost predicate Valid() reads this {
      && WellFormedJobs(jobs)
      && forall i, k: nat :: 0 <= i < |jobs| && jobs[i].name == TerminateBrowserJob && k > counter ==>
           jobs[i].id != NatToString(k)
    }

    constructor ()
      ensures Valid() && jobs == [] && counter == 0
    {
      jobs, counter := [], 0;
    }

    /** addBrowserJob: keyed by the session id, no delay. */
    method AddBrowserJob(payload: JobData)
      requires Valid()
      modifies this
      ensures Valid() && counter == old(counter)
      ensures jobs == old(jobs) + [QueuedJob(payload.sessionId, CreateBrowserJob, payload,
                                             JobOptions(Some(payload.sessionId), Some(0), None))]
    {
      jobs := jobs + [QueuedJob(payload.sessionId, CreateBrowserJob, payload,
                                JobOptions(Some(payload.sessionId), Some(0), None))];
    }

    /** addTerminationJob: priority 10 and no `jobId`, so the queue numbers it itself; the new
        id is one no earlier terminate job has. */
    method AddTerminationJob(sessionId: string)
      requires Valid()
      modifies this
      ensures Valid() && counter == old(counter) + 1
      ensures jobs == old(jobs) + [QueuedJob(NatToString(counter), TerminateBrowserJob,
                                             JobData(sessionId, None, None, None),
                                             JobOptions(None, None, Some(TerminationPriority)))]
      ensures forall i :: 0 <= i < |old(jobs)| && old(jobs)[i].name == TerminateBrowserJob ==>
                old(jobs)[i].id != NatToString(counter)
    {
      forall k: nat | k > counter + 1
        ensures NatToString(counter + 1) != NatToString(k)
      {
        if NatToString(counter + 1) == NatToString(k) {
          NatToStringInjective(counter + 1, k);
        }
      }
      counter := counter + 1;
      jobs := jobs + [QueuedJob(NatToString(counter), TerminateBrowserJob, JobData(sessionId, None, None, None),
                                JobOptions(None, None, Some(TerminationPriority)))];
    }
  }
}
