/** apps/worker/docker_client.ts: the container runtime client. The runtime itself is a
    collaborator: its answers are parameters and every request is appended to `calls`. */
module Docker {
  import opened Wrappers
  import opened Text
  import opened Shared

  const DebugPort := 9222
  const ReadinessAttempts := 30
  const ProbeTimeoutMs := 2000
  const ProbePauseMs := 1000
  const StopGraceSeconds := 10
  const BrowserLabelFilter := "browserfactory.type=browser"
  const SessionLabel := "browserfactory.session"
  const CreateFailedPrefix := "Failed to create browser container: "
  const ReadinessTimeoutMessage := "Browser failed to start within timeout period"

  /** BrowserContainerConfig; `port` is carried but never read. */
  datatype ContainerConfig = ContainerConfig(
    sessionId: string, port: int, viewport: Option<Viewport>, userAgent: Option<string>, headless: Option<bool>)

  datatype BrowserContainer = BrowserContainer(containerId: string, port: int, wssUrl: string)

  /** The options given to `docker.createContainer`. */
  datatype ContainerSpec = ContainerSpec(
    image: string, name: string, env: seq<string>, hostPort: string, exposedPort: string,
    memoryBytes: int, cpuShares: int, autoRemove: bool, shmSizeBytes: int, labels: map<string, string>)

  /** The requests this client makes of the runtime, of `fetch` and of the timer. */
  datatype RuntimeCall =
    | CreateContainer(spec: ContainerSpec)
    | StartContainer(containerId: string)
    | Probe(url: string, timeoutMs: int)
    | Pause(ms: int)
    | StopContainer(containerId: string, graceSeconds: int)
    | ListContainers(labelFilter: string)

  /** How the runtime answers one creation: the new container's id or an error message, an
      optional error from `start`, and whether readiness probe number k (1-based) answers OK. */
  datatype RuntimeOutcome = RuntimeOutcome(created: Result<string, string>, startError: Option<string>, probeOk: nat -> bool)

  /** One entry of a listed container's `Ports`. */
  datatype PortEntry = PortEntry(privatePort: int, publicPort: Option<int>)

  /** What `docker.listContainers` reports of one container. */
  datatype ContainerInfo = ContainerInfo(id: string, labels: map<string, string>, ports: Option<seq<PortEntry>>)

  datatype ListedContainer = ListedContainer(id: string, sessionId: string, port: Option<int>)

  // ---------------------------------------------------------------- environment

  /** The environment variables the client may set. */
  datatype EnvKey = ChromeOpts | PrebootChrome | KeepAlive | ViewportWidth | ViewportHeight | UserAgent | Headless

  function KeyName(k: EnvKey): string {
    match k
    case ChromeOpts => "CHROME_OPTS"
    case PrebootChrome => "PREBOOT_CHROME"
    case KeepAlive => "KEEP_ALIVE"
    case ViewportWidth => "DEFAULT_VIEWPORT_WIDTH"
    case ViewportHeight => "DEFAULT_VIEWPORT_HEIGHT"
    case UserAgent => "DEFAULT_USER_AGENT"
    case Headless => "HEADLESS"
  }

  /** `key=value`, one entry of a container environment. */
  function EnvEntry(key: string, value: string): string { key + "=" + value }

  function Entries(pairs: seq<(EnvKey, string)>): (env: seq<string>)
    ensures |env| == |pairs|
  {
    if pairs == [] then [] else [EnvEntry(KeyName(pairs[0].0), pairs[0].1)] + Entries(pairs[1..])
  }

  const FixedPairs := [(ChromeOpts, "--remote-debugging-port=9222"), (PrebootChrome, "true"), (KeepAlive, "true")]

  predicate UserAgentSet(config: ContainerConfig) { config.userAgent.Some? && config.userAgent.value != "" }

  function ViewportPairs(config: ContainerConfig): seq<(EnvKey, string)> {
    if config.viewport.Some?
    then [(ViewportWidth, IntToString(config.viewport.value.width)),
          (ViewportHeight, IntToString(config.viewport.value.height))]
    else []
  }

  function AgentPairs(config: ContainerConfig): seq<(EnvKey, string)> {
    if UserAgentSet(config) then [(UserAgent, config.userAgent.value)] else []
  }

  function HeadlessPairs(config: ContainerConfig): seq<(EnvKey, string)> {
    if config.headless.Some? then [(Headless, BoolToString(config.headless.value))] else []
  }

  /** The `Env` list: the three fixed entries, then the viewport's width and height, the user
      agent when it is a non-empty string, and the headless flag when it is given. */
  function Env(config: ContainerConfig): (env: seq<string>)
    ensures |env| == 3 + (if config.viewport.Some? then 2 else 0)
                       + (if UserAgentSet(config) then 1 else 0)
                       + (if config.headless.Some? then 1 else 0)
  {
    Entries(FixedPairs + ViewportPairs(config) + AgentPairs(config) + HeadlessPairs(config))
  }

  /** How the container reads its environment: the value of the first `KEY=value` entry. */
  function EnvLookup(env: seq<string>, key: string): Option<string> {
    if env == [] then None
    else if |key| < |env[0]| && env[0][..|key|] == key && env[0][|key|] == '='
    then Some(env[0][|key| + 1..])
    else EnvLookup(env[1..], key)
  }

  function PairLookup(pairs: seq<(EnvKey, string)>, key: EnvKey): Option<string> {
    if pairs == [] then None
    else if pairs[0].0 == key then Some(pairs[0].1)
    else PairLookup(pairs[1..], key)
  }

  predicate IsEnvKey(key: string) { forall i :: 0 <= i < |key| ==> key[i] != '=' }

  lemma KeyNames(k: EnvKey, k': EnvKey)
    ensures IsEnvKey(KeyName(k))
    ensures KeyName(k) == KeyName(k') ==> k == k'
  {
    assert |KeyName(k)| == |KeyName(k')| ==> k == k';
  }

  /** An entry is found under its own key and under no other. */
  lemma EntryKey(key: string, other: string, value: string)
    requires IsEnvKey(key) && IsEnvKey(other)
    ensures EnvLookup([EnvEntry(other, value)], key) == if key == other then Some(value) else None
  {
    var e := EnvEntry(other, value);
    assert e[..|other|] == other && e[|other|] == '=' && e[|other| + 1..] == value;
  }

  /** Parsing the rendered entries finds what the pairs say. */
  lemma {:induction false} LookupEntries(pairs: seq<(EnvKey, string)>, key: EnvKey)
    ensures EnvLookup(Entries(pairs), KeyName(key)) == PairLookup(pairs, key)
  {
    if pairs != [] {
      KeyNames(key, pairs[0].0);
      KeyNames(pairs[0].0, key);
      EntryKey(KeyName(key), KeyName(pairs[0].0), pairs[0].1);
      LookupEntries(pairs[1..], key);
      var env := Entries(pairs);
      assert env[0] == EnvEntry(KeyName(pairs[0].0), pairs[0].1) && env[1..] == Entries(pairs[1..]);
    }
  }

  lemma {:induction false} PairLookupAppend(a: seq<(EnvKey, string)>, b: seq<(EnvKey, string)>, key: EnvKey)
    ensures PairLookup(a + b, key) == if PairLookup(a, key).Some? then PairLookup(a, key) else PairLookup(b, key)
  {
    if a != [] {
      assert (a + b)[1..] == a[1..] + b;
      PairLookupAppend(a[1..], b, key);
    } else {
      assert a + b == b;
    }
  }

  lemma {:induction false} EntriesPrefix(pairs: seq<(EnvKey, string)>, n: nat)
    requires n <= |pairs|
    ensures Entries(pairs)[..n] == Entries(pairs[..n])
  {
    if n > 0 {
      EntriesPrefix(pairs[1..], n - 1);
      assert pairs[..n][1..] == pairs[1..][..n - 1];
    }
  }

  /** The fixed entries come first in every environment. */
  lemma EnvStartsFixed(config: ContainerConfig)
    ensures Env(config)[..3] == Entries(FixedPairs)
  {
    var pairs := FixedPairs + ViewportPairs(config) + AgentPairs(config) + HeadlessPairs(config);
    EntriesPrefix(pairs, 3);
    assert pairs[..3] == FixedPairs;
  }

  lemma {:induction false} EntriesAppend(a: seq<(EnvKey, string)>, b: seq<(EnvKey, string)>)
    ensures Entries(a + b) == Entries(a) + Entries(b)
  {
    if a != [] {
      assert (a + b)[1..] == a[1..] + b;
      EntriesAppend(a[1..], b);
    } else {
      assert a + b == b;
    }
  }

  /** The whole list, in the order the entries are pushed: the fixed three, the width and the
      height, the user agent, the headless flag. */
  lemma EnvOrder(config: ContainerConfig)
    ensures Env(config) ==
              [EnvEntry("CHROME_OPTS", "--remote-debugging-port=9222"), EnvEntry("PREBOOT_CHROME", "true"),
               EnvEntry("KEEP_ALIVE", "true")]
              + (if config.viewport.Some?
                 then [EnvEntry("DEFAULT_VIEWPORT_WIDTH", IntToString(config.viewport.value.width)),
                       EnvEntry("DEFAULT_VIEWPORT_HEIGHT", IntToString(config.viewport.value.height))]
                 else [])
              + (if UserAgentSet(config) then [EnvEntry("DEFAULT_USER_AGENT", config.userAgent.value)] else [])
              + (if config.headless.Some? then [EnvEntry("HEADLESS", BoolToString(config.headless.value))] else [])
  {
    var f, v, a, h := FixedPairs, ViewportPairs(config), AgentPairs(config), HeadlessPairs(config);
    EntriesAppend(f + v + a, h);
    EntriesAppend(f + v, a);
    EntriesAppend(f, v);
    assert f[1..][1..][1..] == [];
    if config.viewport.Some? {
      assert v[1..][1..] == [];
    }
  }

  function GroupLookup(config: ContainerConfig, k: EnvKey): Option<string> {
    var f, v, a, h := FixedPairs, ViewportPairs(config), AgentPairs(config), HeadlessPairs(config);
    if PairLookup(f, k).Some? then PairLookup(f, k)
    else if PairLookup(v, k).Some? then PairLookup(v, k)
    else if PairLookup(a, k).Some? then PairLookup(a, k)
    else PairLookup(h, k)
  }

  lemma EnvByGroup(config: ContainerConfig, k: EnvKey)
    ensures EnvLookup(Env(config), KeyName(k)) == GroupLookup(config, k)
  {
    var f, v, a, h := FixedPairs, ViewportPairs(config), AgentPairs(config), HeadlessPairs(config);
    LookupEntries(f + v + a + h, k);
    PairLookupAppend(f + v + a, h, k);
    PairLookupAppend(f + v, a, k);
    PairLookupAppend(f, v, k);
  }

  lemma FixedLookup(k: EnvKey)
    ensures PairLookup(FixedPairs, k) ==
      match k
      case ChromeOpts => Some("--remote-debugging-port=9222")
      case PrebootChrome => Some("true")
      case KeepAlive => Some("true")
      case _ => None
  {
    var f := FixedPairs;
    assert PairLookup(f[3..], k) == None;
  }

  /** Reading the environment back gives each setting exactly when it was configured, the three
      fixed ones always. */
  lemma EnvReadBack(config: ContainerConfig, k: EnvKey)
    ensures EnvLookup(Env(config), KeyName(k)) ==
      match k
      case ChromeOpts => Some("--remote-debugging-port=9222")
      case PrebootChrome => Some("true")
      case KeepAlive => Some("true")
      case ViewportWidth => if config.viewport.Some? then Some(IntToString(config.viewport.value.width)) else None
      case ViewportHeight => if config.viewport.Some? then Some(IntToString(config.viewport.value.height)) else None
      case UserAgent => if UserAgentSet(config) then config.userAgent else None
      case Headless => if config.headless.Some? then Some(BoolToString(config.headless.value)) else None
  {
    EnvByGroup(config, k);
    FixedLookup(k);
    var v, a, h := ViewportPairs(config), AgentPairs(config), HeadlessPairs(config);
    if v != [] {
      assert PairLookup(v[2..], k) == None;
      assert PairLookup(v[1..], k) == if k == ViewportHeight then Some(v[1].1) else None;
    }
    assert PairLookup(v, k) == if v != [] && k == ViewportWidth then Some(v[0].1)
                               else if v != [] && k == ViewportHeight then Some(v[1].1) else None;
    if a != [] { assert PairLookup(a[1..], k) == None; }
    assert PairLookup(a, k) == if a != [] && k == UserAgent then Some(a[0].1) else None;
    if h != [] { assert PairLookup(h[1..], k) == None; }
    assert PairLookup(h, k) == if h != [] && k == Headless then Some(h[0].1) else None;
  }

  // ---------------------------------------------------------------- readiness

  function WssUrl(port: nat): string { "ws://localhost:" + NatToString(port) }

  /** waitForBrowserReady's probe address: `ws://` becomes `http://`, then the first `/` and the
      rest of its line become `/json/version`. */
  function ReadinessUrl(wssUrl: string): string {
    ReplaceSlashToLineEnd(ReplaceFirst(wssUrl, "ws://", "http://"), "/json/version")
  }

  /** Every `ws://` address of one line is probed at `http:/json/version`: the first `/` the
      rewrite finds is the one inside the scheme, so the host and port are cut away. */
  lemma ReadinessUrlCollapses(rest: string)
    requires NoLineTerminators(rest)
    ensures ReadinessUrl("ws://" + rest) == "http:/json/version"
  {
    var h := "http://" + rest;
    IndexOfPrefix("ws://" + rest, "ws://", rest);
    assert ReplaceFirst("ws://" + rest, "ws://", "http://") == h;
    IndexOfFirstChar(h, '/', 5);
    assert h[6..] == "/" + rest;
    LineLengthOfLine(h[6..]);
  }

  /** "localhost:" followed by a decimal port holds no line terminator and no `/`. */
  lemma LocalAuthority(port: nat)
    ensures NoLineTerminators("localhost:" + NatToString(port))
    ensures Lacks("localhost:" + NatToString(port), '/')
  {
    var d := NatToString(port);
    var rest := "localhost:" + d;
    forall i | 0 <= i < |rest| ensures !IsLineTerminator(rest[i]) && rest[i] != '/' {
      if i >= 10 { assert rest[i] == d[i - 10]; }
    }
  }

  /** In particular for the address the client builds for every container. */
  lemma ContainerReadinessUrl(port: nat)
    ensures ReadinessUrl(WssUrl(port)) == "http:/json/version"
  {
    var rest := "localhost:" + NatToString(port);
    assert WssUrl(port) == "ws://" + rest;
    LocalAuthority(port);
    ReadinessUrlCollapses(rest);
  }

  /** What the probe address was evidently meant to be: the container's own host and port,
      with the path `/json/version`. */
  function ReadinessUrlFixed(wssUrl: string): string {
    var h := ReplaceFirst(wssUrl, "ws://", "http://");
    if |h| >= 7 && h[..7] == "http://" then
      var rest := h[7..];
      var authority := match IndexOf(rest, "/") case None => rest case Some(i) => rest[..i];
      "http://" + authority + "/json/version"
    else h
  }

  lemma ContainerReadinessUrlFixed(port: nat)
    ensures ReadinessUrlFixed(WssUrl(port)) == "http://localhost:" + NatToString(port) + "/json/version"
  {
    var rest := "localhost:" + NatToString(port);
    assert WssUrl(port) == "ws://" + rest;
    IndexOfPrefix("ws://" + rest, "ws://", rest);
    var h := "http://" + rest;
    assert ReplaceFirst(WssUrl(port), "ws://", "http://") == h;
    assert h[..7] == "http://" && h[7..] == rest;
    LocalAuthority(port);
    IndexOfMissingChar(rest, '/');
  }

  /** The probe number at which the loop stops, counting from `k`: the first that answers OK,
      or the last one allowed. */
  function StopAt(probeOk: nat -> bool, k: nat, maxAttempts: int): (n: nat)
    requires 1 <= k <= maxAttempts
    ensures k <= n <= maxAttempts
    ensures forall j :: k <= j < n ==> !probeOk(j)
    ensures probeOk(n) || n == maxAttempts
    decreases maxAttempts - k
  {
    if probeOk(k) || k == maxAttempts then k else StopAt(probeOk, k + 1, maxAttempts)
  }

  /** How many probes waitForBrowserReady makes. */
  function ProbeCount(probeOk: nat -> bool, maxAttempts: int): nat {
    if maxAttempts < 1 then 0 else StopAt(probeOk, 1, maxAttempts)
  }

  /** waitForBrowserReady returns normally: some allowed probe answered OK (or none was allowed). */
  predicate BecomesReady(probeOk: nat -> bool, maxAttempts: int) {
    maxAttempts < 1 || probeOk(ProbeCount(probeOk, maxAttempts))
  }

  /** Readiness is "some probe within the limit answered OK", and the count is the first such
      probe, or the limit when none did. */
  lemma ProbeCountIsFirstSuccess(probeOk: nat -> bool, maxAttempts: int)
    requires maxAttempts >= 1
    ensures BecomesReady(probeOk, maxAttempts) <==> exists k :: 1 <= k <= maxAttempts && probeOk(k)
    ensures 1 <= ProbeCount(probeOk, maxAttempts) <= maxAttempts
    ensures forall k :: 1 <= k < ProbeCount(probeOk, maxAttempts) ==> !probeOk(k)
    ensures !BecomesReady(probeOk, maxAttempts) ==> ProbeCount(probeOk, maxAttempts) == maxAttempts
  {
  }

  /** `m` probes each followed by a pause. */
  function ProbeRounds(url: string, m: nat): seq<RuntimeCall> {
    if m == 0 then [] else ProbeRounds(url, m - 1) + [Probe(url, ProbeTimeoutMs), Pause(ProbePauseMs)]
  }

  /** `n` probes with a pause between two consecutive ones and none after the last. */
  function ProbeTrace(url: string, n: nat): seq<RuntimeCall> {
    if n == 0 then [] else ProbeRounds(url, n - 1) + [Probe(url, ProbeTimeoutMs)]
  }

  lemma {:induction false} ProbeRoundsShape(url: string, m: nat)
    ensures |ProbeRounds(url, m)| == 2 * m
    ensures forall i :: 0 <= i < 2 * m ==>
              ProbeRounds(url, m)[i] == if i % 2 == 0 then Probe(url, ProbeTimeoutMs) else Pause(ProbePauseMs)
  {
    if m > 0 { ProbeRoundsShape(url, m - 1); }
  }

  /** The trace alternates probe and pause, starts and ends with a probe, and holds `n` probes. */
  lemma ProbeTraceShape(url: string, n: nat)
    requires n >= 1
    ensures |ProbeTrace(url, n)| == 2 * n - 1
    ensures forall i :: 0 <= i < 2 * n - 1 ==>
              ProbeTrace(url, n)[i] == if i % 2 == 0 then Probe(url, ProbeTimeoutMs) else Pause(ProbePauseMs)
  {
    ProbeRoundsShape(url, n - 1);
  }

  /** waitForBrowserReady: probe the readiness address up to `maxAttempts` times, one second apart,
      and report whether a probe answered OK. */
  method WaitForBrowserReady(wssUrl: string, maxAttempts: int, probeOk: nat -> bool)
    returns (ready: bool, attempts: nat, trace: seq<RuntimeCall>)
    ensures ready <==> BecomesReady(probeOk, maxAttempts)
    ensures attempts == ProbeCount(probeOk, maxAttempts)
    ensures ready && attempts > 0 ==> probeOk(attempts)
    ensures forall k :: 1 <= k < attempts ==> !probeOk(k)
    ensures !ready ==> attempts == maxAttempts
    ensures trace == ProbeTrace(ReadinessUrl(wssUrl), attempts)
  {
    var url := ReadinessUrl(wssUrl);
    trace := [];
    var attempt := 1;
    while attempt <= maxAttempts
      invariant 1 <= attempt && (maxAttempts >= 1 ==> attempt <= maxAttempts)
      invariant maxAttempts < 1 ==> attempt == 1
      invariant forall k :: 1 <= k < attempt ==> !probeOk(k)
      invariant maxAttempts >= 1 ==> ProbeCount(probeOk, maxAttempts) == StopAt(probeOk, attempt, maxAttempts)
      invariant trace == ProbeRounds(url, attempt - 1)
    {
      trace := trace + [Probe(url, ProbeTimeoutMs)];
      if probeOk(attempt) {
        return true, attempt, trace;
      }
      if attempt == maxAttempts {
        return false, attempt, trace;
      }
      trace := trace + [Pause(ProbePauseMs)];
      attempt := attempt + 1;
    }
    return true, 0, trace;
  }

  // ---------------------------------------------------------------- listing

  /** The index of the first `Ports` entry whose private port is the debugging port. */
  function FirstDebugEntry(ports: seq<PortEntry>): (r: Option<nat>)
    ensures r.Some? ==> r.value < |ports| && ports[r.value].privatePort == DebugPort
    ensures r.Some? ==> forall j :: 0 <= j < r.value ==> ports[j].privatePort != DebugPort
    ensures r.None? ==> forall j :: 0 <= j < |ports| ==> ports[j].privatePort != DebugPort
  {
    if ports == [] then None
    else if ports[0].privatePort == DebugPort then Some(0)
    else match FirstDebugEntry(ports[1..])
      case None => None
      case Some(i) => Some(i + 1)
  }

  /** extractPortFromContainer: the public port of the first entry bound to 9222, and absent
      when no entry is. */
  function ExtractPort(c: ContainerInfo): (port: Option<int>)
    ensures forall i :: c.ports.Some? && 0 <= i < |c.ports.value| && c.ports.value[i].privatePort == DebugPort
                        && (forall j :: 0 <= j < i ==> c.ports.value[j].privatePort != DebugPort)
                        ==> port == c.ports.value[i].publicPort
    ensures (c.ports.None? || forall j :: 0 <= j < |c.ports.value| ==> c.ports.value[j].privatePort != DebugPort)
            ==> port == None
  {
    match c.ports
    case None => None
    case Some(ps) =>
      if |ps| == 0 then None
      else match FirstDebugEntry(ps)
        case None => None
        case Some(i) => ps[i].publicPort
  }

  /** The session label, or "unknown" when it is missing or empty. */
  function SessionOf(c: ContainerInfo): string {
    if SessionLabel in c.labels && c.labels[SessionLabel] != "" then c.labels[SessionLabel] else "unknown"
  }

  function Listed(c: ContainerInfo): ListedContainer {
    ListedContainer(c.id, SessionOf(c), ExtractPort(c))
  }

  function ListEntries(cs: seq<ContainerInfo>): (r: seq<ListedContainer>) {
    seq(|cs|, i requires 0 <= i < |cs| => Listed(cs[i]))
  }

  function StopCalls(cs: seq<ListedContainer>): (r: seq<RuntimeCall>) {
    seq(|cs|, i requires 0 <= i < |cs| => StopContainer(cs[i].id, StopGraceSeconds))
  }

  // ---------------------------------------------------------------- the client

  function ContainerSpecFor(sessionId: string, env: seq<string>, port: nat): ContainerSpec {
    ContainerSpec(BrowserImage, "browser-" + sessionId, env, NatToString(port), "9222/tcp",
                  1024 * 1024 * 1024, 1024, true, 2147483648,
                  map[SessionLabel := sessionId, "browserfactory.type" := "browser"])
  }

  /** The cause of a failed creation once a port was taken, if any. */
  function CreationFailure(outcome: RuntimeOutcome): Option<string> {
    if outcome.created.Err? then Some(outcome.created.error)
    else if outcome.startError.Some? then outcome.startError
    else if !BecomesReady(outcome.probeOk, ReadinessAttempts) then Some(ReadinessTimeoutMessage)
    else None
  }

  /** The runtime requests of one creation on `port`. */
  function CreationCalls(config: ContainerConfig, port: nat, outcome: RuntimeOutcome): seq<RuntimeCall> {
    [CreateContainer(ContainerSpecFor(config.sessionId, Env(config), port))]
    + (if outcome.created.Err? then []
       else [StartContainer(outcome.created.value)]
            + (if outcome.startError.Some? then []
               else ProbeTrace(ReadinessUrl(WssUrl(port)), ProbeCount(outcome.probeOk, ReadinessAttempts))))
  }

  class DockerClient {
    var usedPorts: set<int>
    var calls: seq<RuntimeCall>

    ghost predicate Valid() reads this {
      forall p :: p in usedPorts ==> InPortRange(p)
    }

    constructor ()
      ensures Valid() && usedPorts == {} && calls == []
    {
      usedPorts, calls := {}, [];
    }

    /** The runtime part of createBrowserContainer once `port` is taken: create, start, wait. */
    static method Provision(config: ContainerConfig, port: nat, outcome: RuntimeOutcome)
      returns (failure: Option<string>, requests: seq<RuntimeCall>)
      ensures failure == CreationFailure(outcome)
      ensures requests == CreationCalls(config, port, outcome)
    {
      requests := [CreateContainer(ContainerSpecFor(config.sessionId, Env(config), port))];
      if outcome.created.Err? {
        return Some(outcome.created.error), requests;
      }
      requests := requests + [StartContainer(outcome.created.value)];
      if outcome.startError.Some? {
        return outcome.startError, requests;
      }
      var ready, attempts, trace := WaitForBrowserReady(WssUrl(port), ReadinessAttempts, outcome.probeOk);
      requests := requests + trace;
      failure := if ready then None else Some(ReadinessTimeoutMessage);
    }

    /** createBrowserContainer: take the lowest free port, create and start the container, wait
        until it answers; on any failure after the port was taken, give the port back. */
    method CreateBrowserContainer(config: ContainerConfig, outcome: RuntimeOutcome) returns (r: Result<BrowserContainer, string>)
      requires Valid()
      modifies this
      ensures Valid()
      ensures AllPortsUsed(old(usedPorts)) ==>
                r == Err(NoPortsMessage) && usedPorts == old(usedPorts) && calls == old(calls)
      ensures r.Ok? ==> && IsLowestFreePort(old(usedPorts), r.value.port)
                        && usedPorts == old(usedPorts) + {r.value.port}
                        && r.value.wssUrl == WssUrl(r.value.port)
                        && outcome.created.Ok? && r.value.containerId == outcome.created.value
      ensures r.Err? ==> usedPorts == old(usedPorts)
      ensures !AllPortsUsed(old(usedPorts)) ==>
                exists port: nat :: && IsLowestFreePort(old(usedPorts), port)
                                    && calls == old(calls) + CreationCalls(config, port, outcome)
                                    && r == match CreationFailure(outcome)
                                            case Some(cause) => Err(CreateFailedPrefix + cause)
                                            case None => Ok(BrowserContainer(outcome.created.value, port, WssUrl(port)))
    {
      var found := FindAvailablePort(usedPorts);
      if found.Err? {
        return Err(found.error);
      }
      var port: nat := found.value;
      usedPorts := usedPorts + {port};
      var failure, requests := Provision(config, port, outcome);
      calls := calls + requests;
      if failure.Some? {
        usedPorts := usedPorts - {port};
        r := Err(CreateFailedPrefix + failure.value);
      } else {
        r := Ok(BrowserContainer(outcome.created.value, port, WssUrl(port)));
      }
      assert IsLowestFreePort(old(usedPorts), port);
    }

    /** terminateContainer: ask the runtime to stop the container and give the port back, whether
        or not the stop succeeded; it never fails, so the stop's answer does not appear here. */
    method TerminateContainer(containerId: string, port: Option<int>)
      requires Valid()
      modifies this
      ensures Valid()
      ensures usedPorts == if port.Some? && port.value != 0 then old(usedPorts) - {port.value} else old(usedPorts)
      ensures calls == old(calls) + [StopContainer(containerId, StopGraceSeconds)]
    {
      calls := calls + [StopContainer(containerId, StopGraceSeconds)];
      if port.Some? && port.value != 0 {
        usedPorts := usedPorts - {port.value};
      }
    }

    /** listBrowserContainers; `listing` is the runtime's answer, `None` when the call failed. */
    method ListBrowserContainers(listing: Option<seq<ContainerInfo>>) returns (r: seq<ListedContainer>)
      modifies this`calls
      ensures calls == old(calls) + [ListContainers(BrowserLabelFilter)]
      ensures r == if listing.Some? then ListEntries(listing.value) else []
    {
      calls := calls + [ListContainers(BrowserLabelFilter)];
      if listing.None? {
        return [];
      }
      return ListEntries(listing.value);
    }

    /** cleanup: stop every labelled container, then forget every port. */
    method Cleanup(listing: Option<seq<ContainerInfo>>)
      requires Valid()
      modifies this
      ensures Valid() && usedPorts == {}
      ensures calls == old(calls) + [ListContainers(BrowserLabelFilter)]
                       + StopCalls(if listing.Some? then ListEntries(listing.value) else [])
    {
      var containers := ListBrowserContainers(listing);
      ghost var listed := calls;
      for i := 0 to |containers|
        invariant Valid()
        invariant calls == listed + StopCalls(containers[..i])
      {
        TerminateContainer(containers[i].id, containers[i].port);
        assert StopCalls(containers[..i + 1]) == StopCalls(containers[..i]) + [StopContainer(containers[i].id, StopGraceSeconds)];
      }
      assert containers[..|containers|] == containers;
      usedPorts := {};
    }
  }
}
