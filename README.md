# browserfactory session orchestration, in Dafny

This project models how browserfactory hands out and tears down remote browser sessions.

- **API routes.**
  - `POST /api/create` mints a session id and enqueues a create job.
  - `GET /api/status` looks the job up and merges its state with the record the worker returned.
  - `POST /api/terminate` enqueues a termination job for a known session.
- **Worker.** It turns create and terminate jobs into container starts and stops. It keeps a map from session to container.
- **Docker client.** It hands out host ports from 9222..9322 and builds the container settings. It polls the browser's DevTools endpoint until the browser answers.
- **WebSocket bridge.** It relays DevTools frames between an external client and the container.
- **Config sync.** A small script lays the shared sections of the root `deno.json` over each app's base template.

Each core source file is one Dafny module. `Wrappers` and `Text` add `Option`/`Result`, decimal rendering and the few string operations the code relies on.

| module | file | models |
|---|---|---|
| `Shared` | `shared.dfy` | `libs/shared.ts`: port scan, session ids, `retry` |
| `Queue` | `queue.dfy` | `libs/queue/types.ts` records, `libs/queue/client.ts` |
| `Docker` | `docker_client.dfy` | `apps/worker/docker_client.ts` |
| `Worker` | `processor.dfy` | `apps/worker/processor.ts` |
| `Bridge` | `ws_bridge.dfy` | `apps/api-fresh/ws_bridge.ts` |
| `Http`, `CreateRoute`, `StatusRoute`, `TerminateRoute` | `http.dfy`, `create_route.dfy`, `status_route.dfy`, `terminate_route.dfy` | `apps/api-fresh/routes/*.ts` |
| `SessionFlow` | `session_flow.dfy` | how the routes interact around one session id |
| `SyncConfig` | `sync_config.dfy` | `scripts/sync-config.ts` |

Model choices:

- **Collaborators are parameters.**
  - Docker's answers are a `RuntimeOutcome`: the create result, a start error, and which probes answer OK.
  - Each clock reading is a `nat -> int`, indexed by the order of the `Date.now()` calls.
  - `Math.random().toString(36)` is a string.
  - What the queue returns and what the queue throws are each a parameter.
  - Whether a socket send throws is a parameter.
- **Effects are logs.**
  - What the code asks of the runtime goes into `DockerClient.calls`: create, start, each probe and pause, stop, list.
  - Socket sends and closes go into `Socket.sent` and `Socket.closeCalls`.
  - The routes return the queue requests they make.
- **The classes follow the source.** The objects whose fields the code reassigns are classes: `DockerClient`, `BrowserWorker`, `QueueClient`, `WSBridge`, `Socket`. The routes and `mergeImports` are functions.

The model keeps four facts of the code as written:

- **Minted ids are malformed.** The generator keeps characters 2..8 of the base-36 string, at most seven. The validator wants exactly nine. So every minted id is refused as malformed by the status and terminate routes (`SessionFlow.MintedIdIsRefused`).
- **The probe address collapses.** The readiness rewrite replaces everything from the first `/`, which is the one in `http://`. Every container is probed at `http:/json/version` (`Docker.ContainerReadinessUrl`). A URL parser reads that address as host `json` and path `/version`, so the probe never reaches the container. The probe answers are a parameter, so the model's success path assumes an OK answer that this address would not get.
- **The stored record wins.** A job's stored return value overrides the queue's state in the status lookup (`Queue.ReturnValueOverridesState`).
- **Termination jobs are invisible to status.** They get numeric ids. So a lookup by any id that does not start with a digit sees only create jobs, and every valid or minted session id starts with `s` (`Queue.LookupBySessionIdSeesOnlyCreateJobs`).

The first two look like slips. Their evident intent is proved beside them, but nothing else in the model uses it:

- `Shared.GenerateSessionIdFixed` keeps nine characters, and its ids validate (`Shared.GeneratedFixedIdIsValid`, `SessionFlow.FixedIdIsLookedUp`).
- `Docker.ReadinessUrlFixed` keeps the host and port (`Docker.ContainerReadinessUrlFixed`).

### Behaviour worth knowing

- **Timer.** The worker's auto-termination timer is never disarmed. It always fires, and the termination it triggers is a no-op that still reports `terminated` once the session is gone.
- **Send errors.** A send that throws while forwarding is swallowed. It does not tear the bridge down.
- **Target close before open.** Closing the browser socket before it opened only cleans up. It does not reject the connect promise.
- **404 for unknown and not ready alike.** The upgrade handler gives the same 404 for an unknown session and for one without an address. It does not check the session's status; the address resolver decides.

## Model

| member | source | states |
|---|---|---|
| Shared.FindAvailablePort | libs/shared.ts:27-38 | returns the smallest port of 9222..9322 not in use, and fails with "No available ports in the configured range" exactly when all are in use |
| Shared.LowestFreePortUnique | libs/shared.ts:28-35 | the lowest free port is unique, so the scan's answer is determined by the used set |
| Shared.AllocationFailsOnlyWhenFull | libs/shared.ts:5-8 | exhaustion needs at least 101 used ports, one per port of the inclusive range |
| Shared.IsValidSessionId | libs/shared.ts:43-45 | an accepted id starts with `s`, so it never collides with a numeric job id; the full grammar is `Shared.ValidSessionIdIffPattern` |
| Shared.ValidSessionIdIffPattern | libs/shared.ts:43-45 | the validator accepts exactly "session_" + one or more digits + "_" + nine characters of [a-z0-9] |
| Shared.GenerateSessionId | libs/shared.ts:20-22 | a minted id starts with "session_" |
| Shared.GeneratedIdIsRejected | libs/shared.ts:20-45 | no minted id passes the validator, for any clock reading and random string |
| Shared.GeneratedFixedIdIsValid | libs/shared.ts:20-45 | keeping characters 2..10 instead makes every minted id valid (for a non-negative clock and a base-36 fraction of at least nine digits) |
| Shared.Retry | libs/shared.ts:76-104 | calls `fn` at most `maxAttempts` (default 3) times; returns the first success; otherwise rethrows the last attempt's error (undefined when no attempt is allowed); the sleeps are exactly the back-off schedule, none after the last attempt |
| Shared.BackoffBoundedAndMonotone | libs/shared.ts:94-99 | each sleep is at most `maxDelay` and no sleep is shorter than the one before |
| Shared.DefaultSchedule | libs/shared.ts:84-99 | with the defaults, the sleeps between three failures are 1000 and 2000 ms |
| Queue.MapJobState | libs/queue/client.ts:75-89 | active → running, completed → completed, failed → failed, every other state → pending; never terminated |
| Queue.GetJobStatus | libs/queue/client.ts:47-62 | null exactly when there is no job; each field of the stored return value overrides the argument id and the mapped state; a non-empty failure reason replaces `error` |
| Queue.ReturnValueOverridesState | libs/queue/client.ts:51-55 | a stored result reads back unchanged whatever the queue state; without one the status is the mapped state, never terminated |
| Queue.LookupBySessionIdSeesOnlyCreateJobs | libs/queue/client.ts:28-48 | in a store of create jobs keyed by session id and terminate jobs keyed by counter value, a job stored under an id that does not start with a digit is a create job; in particular under any id the validator accepts and under any minted id |
| Queue.QueueClient.AddBrowserJob | libs/queue/client.ts:28-35 | appends one create job keyed by the session id with delay 0 and keeps the store well formed |
| Queue.QueueClient.AddTerminationJob | libs/queue/client.ts:37-45 | appends one terminate job with priority 10 under the queue's next numeric id, which no earlier terminate job has |
| Docker.Env | apps/worker/docker_client.ts:40-57 | the setting list has three fixed entries and then 0–2 viewport, 0–1 user-agent and 0–1 headless entries |
| Docker.EnvOrder | apps/worker/docker_client.ts:40-57 | the whole list in push order: the three fixed entries, `DEFAULT_VIEWPORT_WIDTH` and `DEFAULT_VIEWPORT_HEIGHT` when a viewport is given, `DEFAULT_USER_AGENT` when the agent is a non-empty string, `HEADLESS` when the flag is given |
| Docker.EnvStartsFixed | apps/worker/docker_client.ts:40-44 | every setting list begins with the three fixed entries |
| Docker.EnvReadBack | apps/worker/docker_client.ts:40-57 | looking a setting up in the list yields the fixed value, the configured width, height, user agent or headless flag, and nothing for each optional setting that was not given or was falsy |
| Docker.ReadinessUrl | apps/worker/docker_client.ts:183-185 | the two-step rewrite; what it gives for every container address is stated by `Docker.ReadinessUrlCollapses` and `Docker.ContainerReadinessUrl` |
| Docker.ReadinessUrlCollapses | apps/worker/docker_client.ts:183-185 | every one-line `ws://` address is probed at `http:/json/version` |
| Docker.ContainerReadinessUrl | apps/worker/docker_client.ts:183-185 | in particular, each container's `ws://localhost:<port>` |
| Docker.ContainerReadinessUrlFixed | apps/worker/docker_client.ts:183-185 | the corrected rewrite probes `http://localhost:<port>/json/version` |
| Docker.ProbeCountIsFirstSuccess | apps/worker/docker_client.ts:187-205 | becoming ready means some probe within the limit answered OK, and the probe count is the first such probe, or the limit when none did |
| Docker.ProbeTraceShape | apps/worker/docker_client.ts:187-205 | the probes alternate with 1000 ms pauses, with no pause after the last probe |
| Docker.WaitForBrowserReady | apps/worker/docker_client.ts:179-206 | returns on the first OK probe; fails after exactly `maxAttempts` failed probes; its runtime requests are that probe trace |
| Docker.FirstDebugEntry | apps/worker/docker_client.ts:211-222 | finds the first port entry whose private port is 9222, or reports that there is none |
| Docker.ExtractPort | apps/worker/docker_client.ts:211-222 | the extracted port is the public port of the first 9222 binding, and absent when there is no binding |
| Docker.DockerClient.Provision | apps/worker/docker_client.ts:59-88 | the create, start and probe requests of one creation, and its first failure cause |
| Docker.DockerClient.CreateBrowserContainer | apps/worker/docker_client.ts:32-101 | takes the lowest free port; success adds exactly that port and returns `ws://localhost:<port>`; any later failure gives the port back and prefixes the cause; exhaustion fails unprefixed and changes nothing |
| Docker.DockerClient.TerminateContainer | apps/worker/docker_client.ts:106-131 | records one stop with a 10 s grace and frees the given non-zero port, whatever the stop did; other ports are untouched |
| Docker.DockerClient.ListBrowserContainers | apps/worker/docker_client.ts:136-156 | lists the labelled containers with session label (or "unknown") and extracted port; a failing listing yields none |
| Docker.DockerClient.Cleanup | apps/worker/docker_client.ts:161-174 | stops every listed container in order and leaves no port in use |
| Worker.ConfigFor | apps/worker/processor.ts:109-115 | the container request carries the job's session id and browser settings, with a placeholder port |
| Worker.CreationResult | apps/worker/processor.ts:131-159 | completed exactly on success, with the container's address, id and port; failed otherwise, with the error message; the timestamps that apply on each path |
| Worker.TerminationResult | apps/worker/processor.ts:178-182 | the termination record is `terminated` for that session with the completion time, and carries no container, error or start time |
| Worker.CreationResultReadsBack | apps/worker/processor.ts:131-159 | whatever the worker returns for a create job, the status lookup reports it unchanged |
| Worker.StopTracked | apps/worker/processor.ts:202-212 | stops every tracked container exactly once, in the returned order |
| Worker.BrowserWorker.CreateBrowser | apps/worker/processor.ts:95-161 | completes exactly when a port is free and the runtime creates, starts and readies the container; the runtime sees the requests of a creation on the lowest free port, or none when all ports are taken; success takes only that port, returns it with the runtime's container id and its wss URL, tracks the session and arms a timer exactly when the timeout is truthy; failure returns failed with the client's error text ("No available ports…" or "Failed to create browser container: " + cause), changes no tracking and never throws; no two sessions share a port |
| Worker.BrowserWorker.StopSession | apps/worker/processor.ts:82-89 | a tracked session gets one stop with its stored id and grace period, its port is freed and it is forgotten; an untracked one leaves the runtime untouched |
| Worker.BrowserWorker.TerminateBrowser | apps/worker/processor.ts:163-196 | that stop, then a terminated record, whether or not the session was tracked |
| Worker.BrowserWorker.FireTimer | apps/worker/processor.ts:124-129 | a fired timer stops its session's container and frees its port; when the session is already gone it makes no runtime request |
| Worker.BrowserWorker.ProcessJob | apps/worker/processor.ts:61-93 | a create job has exactly createBrowser's effect and result; a terminate job and any other name stop the session's tracked container and free its port (no runtime request when untracked); the first reports terminated, the second fails with "Unknown job type: " + name; timers are untouched |
| Worker.BrowserWorker.Cleanup | apps/worker/processor.ts:198-217 | stops every tracked container, forgets them all, then runs the client's cleanup, leaving no port in use |
| Bridge.SettlesOnce | apps/api-fresh/ws_bridge.ts:25-55 | the connect promise settles once; later resolves and rejects change nothing |
| Bridge.ConnectTimeout | apps/api-fresh/ws_bridge.ts:26-29 | the connect timer is the configured timeout when truthy, else 30000 ms |
| Bridge.WSBridge.Connect | apps/api-fresh/ws_bridge.ts:22-56 | holds the client, arms the timer, opens a fresh browser socket; a socket that cannot be built clears the timer and rejects with its error |
| Bridge.WSBridge.TargetOpened | apps/api-fresh/ws_bridge.ts:35-40 | clears the timer, marks connected, attaches forwarding when both references are held, resolves |
| Bridge.WSBridge.TargetErrored | apps/api-fresh/ws_bridge.ts:42-46 | clears the timer and rejects with "Failed to connect to target browser" |
| Bridge.WSBridge.TargetClosed | apps/api-fresh/ws_bridge.ts:48-50 | the browser socket closing cleans up: the client socket, if still referenced and open, gets one plain close; both references are dropped and the bridge is disconnected |
| Bridge.WSBridge.ClientClosed | apps/api-fresh/ws_bridge.ts:87-89 | once forwarding is attached, the client closing cleans up: the browser socket, if still referenced and open, gets one plain close, and both references are dropped; before that it changes nothing else |
| Bridge.WSBridge.TimerFired | apps/api-fresh/ws_bridge.ts:26-29 | the timer cleans up first, giving each referenced open socket one plain close and dropping both references, then rejects with "Connection timeout" |
| Bridge.WSBridge.FrameFromClient | apps/api-fresh/ws_bridge.ts:65-73 | a client frame reaches the browser unchanged exactly when forwarding is attached and the browser reference is held and open; a throwing send changes nothing |
| Bridge.WSBridge.FrameFromTarget | apps/api-fresh/ws_bridge.ts:76-84 | the same guard and rule from browser to client |
| Bridge.WSBridge.Cleanup | apps/api-fresh/ws_bridge.ts:111-135 | marks disconnected, drops both references, and closes only the referenced sockets that are open |
| Bridge.WSBridge.CleanupTwice | apps/api-fresh/ws_bridge.ts:111-135 | two cleanups leave the state one leaves: each socket closed at most once, references dropped, disconnected, with `bridged`, the timer and the promise unchanged |
| Bridge.HandleUpgrade | apps/api-fresh/ws_bridge.ts:143-177 | 400 without a lookup when the session parameter is missing or empty; the handler rejects when the lookup rejects; 404 when the lookup yields nothing; the handler rejects when the request cannot be upgraded; otherwise an upgrade to the looked-up address with a 30000 ms timeout |
| Bridge.HandlerGating | apps/api-fresh/ws_bridge.ts:147-161 | an upgrade exactly for a present parameter whose lookup answers an address and whose request can be upgraded; 404 exactly when the lookup answers nothing; 400 exactly when no lookup was made |
| Bridge.NewBridge | apps/api-fresh/ws_bridge.ts:158-162 | the upgraded request gets a fresh bridge for that address and session |
| Bridge.AfterConnect | apps/api-fresh/ws_bridge.ts:164-174 | a rejected connect closes the client with 1011 "Failed to connect to browser" |
| CreateRoute.PayloadFor | apps/api-fresh/routes/create.ts:16-25 | a falsy viewport becomes 1920x1080; the user agent passes through; headless unless exactly false; a falsy timeout becomes 300000; createdAt is the route's clock |
| CreateRoute.Post | apps/api-fresh/routes/create.ts:9-64 | one create job with the minted id, then 202 accepted echoing that id, or 500 CREATION_FAILED when the enqueue or a field read throws |
| CreateRoute.CreateDefaults | apps/api-fresh/routes/create.ts:11-23 | an unparsable body acts as `{}`, whose payload is a 1920x1080 headless browser with a 300000 ms timeout, also for timeout 0 |
| CreateRoute.AcceptedEchoesJob | apps/api-fresh/routes/create.ts:13-34 | the 202 reply names the session of the only job enqueued |
| StatusRoute.Get | apps/api-fresh/routes/status.ts:12-99 | missing → 400 MISSING_SESSION_ID, malformed → 400 INVALID_SESSION_ID (both without a lookup), lookup throws → 500 STATUS_FETCH_FAILED, unknown → 404 SESSION_NOT_FOUND, else 200 with the status record |
| StatusRoute.StatusLadder | apps/api-fresh/routes/status.ts:35-70 | 200 exactly for a well-formed id whose job exists, with exactly the merged record; a lookup happens exactly for a well-formed id |
| TerminateRoute.Post | apps/api-fresh/routes/terminate.ts:8-105 | the missing, malformed, not found, ok ladder; one termination job only after a successful lookup; 202 termination_requested; 500 TERMINATION_FAILED when the lookup, the enqueue or a field read throws |
| TerminateRoute.AtMostOneTermination | apps/api-fresh/routes/terminate.ts:50-84 | at most one termination job, only for a well-formed id whose job exists; a 202 always enqueued one; a 404 never did |
| SessionFlow.MintedIdIsRefused | apps/api-fresh/routes/create.ts:13-34 | the id returned by create is refused with 400 INVALID_SESSION_ID by status and by terminate, with no lookup |
| SessionFlow.FixedIdIsLookedUp | apps/api-fresh/routes/status.ts:35-70 | with the corrected generator, status looks the session up and reports its create job's state |
| SyncConfig.MergeImports | scripts/sync-config.ts:13-18 | the merged map has the keys of both sides, the base value wins on shared keys, and an absent side counts as empty |
| SyncConfig.MergeWithAbsent | scripts/sync-config.ts:13-18 | merging with an absent side returns the other side |
| SyncConfig.AppConfig | scripts/sync-config.ts:47-62 | a shared section comes from the root when truthy there, else stays as in the base; imports are merged when either side has truthy imports; every other base key survives and no other root key is copied |
| SyncConfig.ComposeAppConfig | scripts/sync-config.ts:47-62 | the section loop builds exactly that final config |
| SyncConfig.MissingSharedSections | scripts/sync-config.ts:25-26 | the report holds exactly the shared sections the root lacks or has falsy |
| SyncConfig.MissingSectionsOrder | scripts/sync-config.ts:25-26 | a complete root reports nothing; a root lacking all three reports fmt, lint, compilerOptions in that order |
| SyncConfig.MissingAmongAppend | scripts/sync-config.ts:26 | the report filters the section list in order |
| SyncConfig.SyncSharedConfig | scripts/sync-config.ts:20-74 | the warning list and one output per app whose base could be read, in app order |
| SyncConfig.OutputsFacts | scripts/sync-config.ts:39-74 | never more outputs than apps; when every base is readable, app i's `deno.json` is the merge of its base |

## Left out

- Worker.BrowserWorker.Cleanup: the order of the stops is any enumeration of the tracked sessions, not the `Map`'s insertion order; the map is emptied after the loop, as in the code.
- Worker.BrowserWorker.FireTimer: time is not modelled. An armed timer may fire at any point after it is armed, and it is never cancelled, as in the code.
- Shared.Retry: the sleeps are returned as a list of delays, not waited for.
- Docker.DockerClient.CreateBrowserContainer: the container settings are recorded as one request value. The Docker API's own validation and defaults are not modelled.
- Docker.ExtractPort: `Ports` is a list or absent. The try/catch around a malformed `Ports` value is not modelled.
- SyncConfig.ImportsOf: an `imports` value that is not an object (an array or a string, which spreads into index keys) is treated as absent.
- SyncConfig.AppConfig: JSON key order and the pretty-printed file text are not modelled. A config is a map.
- CreateRoute.Post: body fields are reduced to what the route reads. A viewport is a `Viewport` or falsy, a `headless` that is not a boolean counts as "not false", and a timeout is an integer or falsy.
- Http.NullFieldMessage: the text of the engine's error for reading a field of `null` is written in V8's form.
- Worker.BrowserWorker.TerminateBrowser: the `catch` branch that reports "Termination failed" is not modelled. `terminateContainer` never throws, so it cannot be reached.
- Bridge.WSBridge.Cleanup: `close()` is modelled as never throwing, so the logged catch is not modelled.
- Bridge.WSBridge.Connect: the handler calls it from the client socket's open event. The model leaves that wiring to the caller, which calls `Connect` and then `AfterConnect`.
- Bridge.HandleUpgrade: what the server does with a rejected handler (its error response) is not modelled. The reply only records the cause.
- TerminateRoute.Post: `sessionId` is a string or absent. A truthy non-string value (a number, an array) reaches the validator's regex test and the queue lookup after JavaScript string coercion. The model does not cover that case.
- The queue's internals: retries, back-off, `removeOnComplete`, jobId de-duplication, job ids, the worker's concurrency of 5, and `createWorker`/`close` are third-party behaviour.
- There is no interleaving of parallel jobs or events. Each operation runs to completion.
- Process wiring (console logging, `start()` event hooks, SIGINT/SIGTERM handlers, `getRequiredEnvVar`/`getEnvVar`) is plumbing with no logic of its own.
- HTTP headers, CORS, OPTIONS handlers and JSON serialisation are left out. Replies are a status code and a body value.
- sync-config's file reads and writes and its console report are left out. The root config and the base reader are parameters.
- `libs/cdp/captcha.ts`, `scripts/setup-dev.ts`, `libs/di/*`, `libs/logger/*` and `libs/config/config.ts` are not part of this model. They are page automation through remote calls, a subprocess runner, and dependency-injection and logging wiring.
- `libs/queue/types.ts` is carried over as datatypes only. `MAX_CONCURRENT_BROWSERS` is never read by the code.
