/** apps/worker/processor.ts: the worker that turns queue jobs into browser containers and
    keeps track of the containers it started. Clock readings are parameters: `clock(k)` is what
    the k-th `Date.now()` of one operation returns. */
module Worker {
  import opened Wrappers
  import opened Shared
  import opened Queue
  import opened Docker

  const UnknownJobPrefix := "Unknown job type: "

  /** What the worker remembers about a container it started. */
  datatype Tracked = Tracked(containerId: string, port: int)

  /** A `setTimeout` armed by a successful creation: terminate `sessionId` after `delayMs`. */
  datatype Timer = Timer(sessionId: string, delayMs: int)

  /** A job timeout arms the auto-termination timer only when it is truthy. */
  predicate ArmsTimer(timeout: Option<int>) { timeout.Some? && timeout.value != 0 }

  /** The container configuration the worker asks for; the port is a placeholder the client never reads. */
  function ConfigFor(payload: JobData): (c: ContainerConfig)
    ensures c.sessionId == payload.sessionId && c.port == 0
    ensures payload.browserConfig.None? ==> c.viewport.None? && c.userAgent.None? && c.headless.None?
    ensures payload.browserConfig.Some? ==>
              && c.viewport == payload.browserConfig.value.viewport
              && c.userAgent == payload.browserConfig.value.userAgent
              && c.headless == payload.browserConfig.value.headless
  {
    match payload.browserConfig
    case None => ContainerConfig(payload.sessionId, 0, None, None, None)
    case Some(b) => ContainerConfig(payload.sessionId, 0, b.viewport, b.userAgent, b.headless)
  }

  /** The record createBrowser returns for the container client's answer. */
  function CreationResult(sessionId: string, created: Result<BrowserContainer, string>, clock: nat -> int): (r: ResultPayload)
    ensures r.sessionId == sessionId
    ensures r.status == Completed <==> created.Ok?
    ensures r.status == Failed <==> created.Err?
    ensures created.Ok? ==> && r.browserWssUrl == Some(created.value.wssUrl)
                            && r.containerId == Some(created.value.containerId)
                            && r.containerPort == Some(created.value.port)
                            && r.error.None? && r.startedAt == Some(clock(0)) && r.completedAt == Some(clock(1))
    ensures created.Err? ==> && r.error == Some(created.error)
                             && r.browserWssUrl.None? && r.containerId.None? && r.containerPort.None?
                             && r.startedAt == Some(clock(1)) && r.completedAt == Some(clock(2))
  {
    match created
    case Ok(c) =>
      ResultPayload(sessionId, Completed, Some(c.wssUrl), Some(c.containerId), Some(c.port), None,
                    Some(clock(0)), Some(clock(1)))
    case Err(message) =>
      ResultPayload(sessionId, Failed, None, None, None, Some(message), Some(clock(1)), Some(clock(2)))
  }

  /** The record terminateBrowser returns, whether or not the session was tracked: `terminated`,
      with the completion time and no container, error or start time. */
  function TerminationResult(sessionId: string, completedAt: int): (r: ResultPayload)
    ensures r.sessionId == sessionId && r.status == Terminated && r.completedAt == Some(completedAt)
    ensures r.browserWssUrl.None? && r.containerId.None? && r.containerPort.None? && r.error.None? && r.startedAt.None?
  {
    ResultPayload(sessionId, Terminated, None, None, None, None, None, Some(completedAt))
  }

  /** A result the worker returns for a create job reads back, through the status lookup, as
      exactly that result: once the job has a return value, the queue's own state no longer shows. */
  lemma CreationResultReadsBack(sessionId: string, created: Result<BrowserContainer, string>, clock: nat -> int, state: string)
    ensures var r := CreationResult(sessionId, created, clock);
            GetJobStatus(sessionId, Some(JobView(state, Stored(r), None))) == Some(r)
  {
    ReturnValueOverridesState(sessionId, state, CreationResult(sessionId, created, clock));
  }

  /** The sessions of `order` are distinct and are exactly the keys of `m`. */
  ghost predicate EnumeratesKeys(order: seq<string>, m: map<string, Tracked>) {
    && (forall i, j :: 0 <= i < j < |order| ==> order[i] != order[j])
    && (forall i :: 0 <= i < |order| ==> order[i] in m)
    && (forall s :: s in m ==> s in order)
  }

  function StopsInOrder(m: map<string, Tracked>, order: seq<string>): seq<RuntimeCall>
    requires forall i :: 0 <= i < |order| ==> order[i] in m
  {
    seq(|order|, i requires 0 <= i < |order| => StopContainer(m[order[i]].containerId, StopGraceSeconds))
  }

  /** Stop every container of `tracked`, one after another, in the order returned. */
  method StopTracked(docker: DockerClient, tracked: map<string, Tracked>) returns (order: seq<string>)
    requires docker.Valid()
    modifies docker
    ensures docker.Valid() && docker.usedPorts <= old(docker.usedPorts)
    ensures EnumeratesKeys(order, tracked)
    ensures docker.calls == old(docker.calls) + StopsInOrder(tracked, order)
  {
    var rest := tracked.Keys;
    order := [];
    while rest != {}
      invariant docker.Valid() && docker.usedPorts <= old(docker.usedPorts)
      invariant rest <= tracked.Keys
      invariant forall i :: 0 <= i < |order| ==> order[i] in tracked && order[i] !in rest
      invariant forall i, j :: 0 <= i < j < |order| ==> order[i] != order[j]
      invariant forall s :: s in tracked ==> s in rest || s in order
      invariant docker.calls == old(docker.calls) + StopsInOrder(tracked, order)
      decreases |rest|
    {
      var s :| s in rest;
      docker.TerminateContainer(tracked[s].containerId, Some(tracked[s].port));
      assert StopsInOrder(tracked, order + [s]) == StopsInOrder(tracked, order) + [StopContainer(tracked[s].containerId, StopGraceSeconds)];
      order := order + [s];
      rest := rest - {s};
    }
  }

  class BrowserWorker {
    const docker: DockerClient
    var active: map<string, Tracked>
    var timers: seq<Timer>

    /** Every tracked container holds a port the client has taken, and no two tracked sessions
        share a port. */
    ghost predicate Valid() reads this, docker {
      && docker.Valid()
      && (forall s :: s in active ==> active[s].port in docker.usedPorts)
      && (forall s, t :: s in active && t in active && s != t ==> active[s].port != active[t].port)
    }

    constructor ()
      ensures Valid() && fresh(docker)
      ensures active == map[] && timers == [] && docker.usedPorts == {} && docker.calls == []
    {
      docker := new DockerClient();
      active, timers := map[], [];
    }

    /** What one createBrowser does, between the state before and after it:
        - it completes exactly when a port was free and the runtime created, started and readied
          the container; the runtime saw the requests of a creation on the lowest free port (none
          at all when every port is taken);
        - a completed result carries that port, the runtime's container id and the port's wss
          URL; the port becomes taken, the session is tracked and the timer armed when the job's
          timeout is truthy;
        - a failed result carries the client's error text and changes nothing else. */
    twostate predicate Created(payload: JobData, outcome: RuntimeOutcome, clock: nat -> int, r: ResultPayload)
      reads this, docker
    {
      && r.sessionId == payload.sessionId
      && (r.status == Completed || r.status == Failed)
      && (r.status == Completed <==> !AllPortsUsed(old(docker.usedPorts)) && CreationFailure(outcome).None?)
      && (AllPortsUsed(old(docker.usedPorts)) ==> r.error == Some(NoPortsMessage) && docker.calls == old(docker.calls))
      && (!AllPortsUsed(old(docker.usedPorts)) ==>
            exists port: nat :: && IsLowestFreePort(old(docker.usedPorts), port)
                                && docker.calls == old(docker.calls) + CreationCalls(ConfigFor(payload), port, outcome)
                                && (r.status == Completed ==> r.containerPort == Some(port))
                                && (r.status == Failed ==> r.error == Some(CreateFailedPrefix + CreationFailure(outcome).value)))
      && (r.status == Failed ==>
            && active == old(active) && timers == old(timers) && docker.usedPorts == old(docker.usedPorts)
            && r.error.Some? && r.browserWssUrl.None? && r.containerId.None? && r.containerPort.None?
            && r.startedAt == Some(clock(1)) && r.completedAt == Some(clock(2)))
      && (r.status == Completed ==>
            && r.containerPort.Some? && r.error.None?
            && IsLowestFreePort(old(docker.usedPorts), r.containerPort.value)
            && docker.usedPorts == old(docker.usedPorts) + {r.containerPort.value}
            && outcome.created.Ok? && r.containerId == Some(outcome.created.value)
            && r.browserWssUrl == Some(WssUrl(r.containerPort.value))
            && active == old(active)[payload.sessionId := Tracked(outcome.created.value, r.containerPort.value)]
            && timers == old(timers) + (if ArmsTimer(payload.timeout) then [Timer(payload.sessionId, payload.timeout.value)] else [])
            && r.startedAt == Some(clock(0)) && r.completedAt == Some(clock(1)))
    }

    /** What stopping `sessionId` does: a tracked session's container gets one stop request and
        its port is freed; an untracked session leaves the runtime untouched. Either way the
        session is no longer tracked. */
    twostate predicate Stopped(sessionId: string)
      reads this`active, docker
    {
      && active == old(active) - {sessionId}
      && (sessionId in old(active) ==>
            && docker.calls == old(docker.calls) + [StopContainer(old(active)[sessionId].containerId, StopGraceSeconds)]
            && docker.usedPorts == old(docker.usedPorts) - {old(active)[sessionId].port})
      && (sessionId !in old(active) ==> docker.calls == old(docker.calls) && docker.usedPorts == old(docker.usedPorts))
    }

    /** createBrowser: start a container, track it, and arm the auto-termination timer; a failure
        becomes a `failed` result, never an exception. */
    method CreateBrowser(payload: JobData, outcome: RuntimeOutcome, clock: nat -> int) returns (r: ResultPayload)
      requires Valid()
      modifies this, docker
      ensures Valid()
      ensures Created(payload, outcome, clock, r)
    {
      var created := docker.CreateBrowserContainer(ConfigFor(payload), outcome);
      if created.Ok? {
        var c := created.value;
        active := active[payload.sessionId := Tracked(c.containerId, c.port)];
        if ArmsTimer(payload.timeout) {
          timers := timers + [Timer(payload.sessionId, payload.timeout.value)];
        }
      }
      r := CreationResult(payload.sessionId, created, clock);
    }

    /** Stop and forget the tracked container of `sessionId`, if any. */
    method StopSession(sessionId: string)
      requires Valid()
      modifies this`active, docker
      ensures Valid() && Stopped(sessionId)
    {
      if sessionId in active {
        var info := active[sessionId];
        docker.TerminateContainer(info.containerId, Some(info.port));
        active := active - {sessionId};
      }
    }

    /** terminateBrowser: stop the tracked container, if any, and forget it. It reports
        `terminated` either way, so terminating twice is harmless. */
    method TerminateBrowser(sessionId: string, clock: nat -> int) returns (r: ResultPayload)
      requires Valid()
      modifies this`active, docker
      ensures Valid() && Stopped(sessionId)
      ensures r == TerminationResult(sessionId, clock(0))
    {
      StopSession(sessionId);
      r := TerminationResult(sessionId, clock(0));
    }

    /** The timer armed at index `i` fires: the session is terminated, whatever happened to it
        since; a session already gone makes no runtime request. */
    method FireTimer(i: nat, clock: nat -> int)
      requires Valid() && i < |timers|
      modifies this, docker
      ensures Valid() && Stopped(old(timers)[i].sessionId)
      ensures timers == old(timers)[..i] + old(timers)[i + 1..]
    {
      var t := timers[i];
      var _ := TerminateBrowser(t.sessionId, clock);
      timers := timers[..i] + timers[i + 1..];
    }

    /** processJob: dispatch on the job name. An unknown name stops the session's tracked
        container, if any, and fails the job. */
    method ProcessJob(job: Job, outcome: RuntimeOutcome, clock: nat -> int) returns (r: Result<ResultPayload, string>)
      requires Valid()
      modifies this, docker
      ensures Valid()
      ensures job.name == CreateBrowserJob ==> r.Ok? && Created(job.data, outcome, clock, r.value)
      ensures job.name == TerminateBrowserJob ==> r == Ok(TerminationResult(job.data.sessionId, clock(0)))
      ensures job.name != CreateBrowserJob && job.name != TerminateBrowserJob ==> r == Err(UnknownJobPrefix + job.name)
      ensures job.name != CreateBrowserJob ==> Stopped(job.data.sessionId) && timers == old(timers)
    {
      if job.name == CreateBrowserJob {
        var result := CreateBrowser(job.data, outcome, clock);
        return Ok(result);
      } else if job.name == TerminateBrowserJob {
        var result := TerminateBrowser(job.data.sessionId, clock);
        return Ok(result);
      }
      var message := UnknownJobPrefix + job.name;
      StopSession(job.data.sessionId);
      return Err(message);
    }

    /** cleanup: stop every tracked container (in `order`), forget them all, then let the
        client stop whatever the runtime still lists and free every port. */
    method Cleanup(listing: Option<seq<ContainerInfo>>) returns (order: seq<string>)
      requires Valid()
      modifies this, docker
      ensures Valid() && active == map[] && docker.usedPorts == {} && timers == old(timers)
      ensures EnumeratesKeys(order, old(active))
      ensures docker.calls == old(docker.calls) + StopsInOrder(old(active), order)
                              + [ListContainers(BrowserLabelFilter)]
                              + StopCalls(if listing.Some? then ListEntries(listing.value) else [])
    {
      order := StopTracked(docker, active);
      active := map[];
      docker.Cleanup(listing);
    }
  }
}
