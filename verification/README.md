# kubernetes-health lifecycle and drain model

A Dafny model of the two state machines of `kubernetes-health`. The first is
`Health`, which tracks liveness and readiness for an orchestrator and runs the
shutdown sequence. The second is the graceful HTTP drain task, which stops an
HTTP(S) server without cutting off responses that are still in flight.

Both are modelled as classes whose fields are the source's mutable state.
Each asynchronous event of the source is a method call:

- a startup or readiness task's promise fulfils or rejects;
- the shutdown delay elapses;
- the termination-hook list settles;
- a connection arrives, closes, or receives a request;
- the drain grace period elapses;
- `server.close` calls back.

Files:

- `optional.dfy`: `Option`.
- `jsarray.dfy`: the JavaScript `indexOf` and `splice(i, 1)` behaviour behind every removal in `Health`. This includes the case where `indexOf` returns -1, which makes `splice` remove the last element. The class invariants prove that case never arises.
- `lifecycle.dfy`: class `Health`. Its getters are functions. Its mutators are methods. `shutdown` is the phase machine `Idle → Delaying → WaitingPending → Hooks → Done`. Ghost multisets count the task invocations still running and those that rejected.
- `graceful.dfy`: class `Terminator`, the closure state of `gracefulHttpTerminatorTask`. Sockets are values with an id and a TLS bit. `inFlight` holds each socket's current response. `destroyed` records the `destroy()` calls.
- `scenarios.dfy`: event sequences proved from the contracts alone.

Three behaviours of the code as written are easy to miss:

- **Rejected tasks are not removed.** A startup or readiness task leaves its list only when its promise fulfils (`src/Health.ts:117-119`, `129-131` have no rejection branch). A rejected task stays listed for good. `LiveTaskRejected` proves that the instance is then not live.
- **Termination hooks are never called.** `Promise.allSettled` receives the hook functions themselves, not their promises (`src/Health.ts:210`). So the hooks are never invoked and the wait settles without depending on them. `HooksSettled` has no precondition about the hooks and leaves them untouched. This is at odds with the doc comment of `shutdown` (`src/Health.ts:179`), which says it triggers all shutdown handlers.
- **HTTPS servers track raw sockets too.** On an HTTPS server the `connection` listener tracks the raw socket under each TLS connection. The sweep skips those raw sockets, but they are counted by the "anything left?" test and destroyed after the grace period. So an HTTPS drain with any live connection always waits (`DrainHttps`).

## Model

| member | source | states |
|---|---|---|
| JsArray.IndexOf | src/Health.ts:118 | the result is -1 exactly when the element is absent, and otherwise the index of its first occurrence |
| JsArray.SpliceOneSpec | src/Health.ts:118 | `splice(start, 1)` at the start position (negative counts back from the end, clamped at 0): one element fewer when that position is inside the list, the others kept in order, and the multiset loses exactly the element at that position; otherwise nothing changes |
| JsArray.RemoveFirst | src/Health.ts:118 | `splice(indexOf(x), 1)` removes exactly the first occurrence of a present element and keeps the order of the rest; an absent element makes it drop the last element |
| JsArray.RemoveFirstIncreasing | src/Health.ts:154 | removing a handle from the creation-ordered pending list keeps it ordered with no repeats |
| JsArray.RemoveFirstMembers | src/Health.ts:154 | after the removal the pending list holds exactly the other handles |
| Lifecycle.MergeOptions | src/Health.ts:46-51 | each option the caller gives overrides the default; each one left out takes its default (delay 5 s, signals SIGTERM/SIGHUP/SIGINT, grace period 30 s) |
| Lifecycle.FulfilledKeepsAccount | src/Health.ts:117-119 | removing a fulfilled task keeps the list equal, as a multiset, to the invocations still running plus those that rejected |
| Lifecycle.CreateKeepsPendingExactly | src/Health.ts:158 | appending the next handle keeps the pending list ordered and equal to the incomplete handles |
| Lifecycle.CompleteKeepsPendingExactly | src/Health.ts:153-154 | completing an incomplete handle finds it listed, and its removal keeps the pending list exact |
| Lifecycle.ScheduledTimers | src/Health.ts:187-191 | no timer before shutdown; with a non-positive grace period nothing is scheduled until the sequence is done; once done the 1000 ms fallback is last; every delay is positive |
| Lifecycle.ScheduledTimersShape | src/Health.ts:187-191 | exactly the timers scheduled: first the grace timer of period × 1000 ms, once shutdown has begun and only when the period is positive; then the 1000 ms fallback, only when the sequence is done; no other |
| Lifecycle.Health.constructor | src/Health.ts:100-108 | the options are the defaults overridden by the caller's; a new instance is not ready, not terminating, has empty lists and has scheduled no timer |
| Lifecycle.Health.IsLive | src/Health.ts:72-74 | live exactly when not terminating and every startup invocation has fulfilled, with none running or rejected |
| Lifecycle.Health.IsReady | src/Health.ts:79-81 | ready exactly when the flag is set and every readiness invocation has fulfilled; terminating plays no part |
| Lifecycle.Health.Status | src/Health.ts:92-98 | the priority Terminating > Pending > Live > Ready > NotReady, each stated as an iff; Ready iff live and ready |
| Lifecycle.Health.BeforeLive | src/Health.ts:115-117 | appends the task once and starts one invocation; nothing else changes |
| Lifecycle.Health.LiveTaskFulfilled | src/Health.ts:117-119 | removes exactly the first listed occurrence of the task; the other lists, the flags and the phase are unchanged |
| Lifecycle.Health.LiveTaskRejected | src/Health.ts:117-119 | the list is unchanged, the invocation counts as rejected, and the instance is not live |
| Lifecycle.Health.BeforeReady | src/Health.ts:127-129 | appends the task once and starts one invocation; nothing else changes |
| Lifecycle.Health.ReadyTaskFulfilled | src/Health.ts:129-131 | removes exactly the first listed occurrence of the task; the other lists, the flags and the phase are unchanged |
| Lifecycle.Health.ReadyTaskRejected | src/Health.ts:129-131 | the list is unchanged and the instance is not ready |
| Lifecycle.Health.BeforeTermination | src/Health.ts:139-141 | appends the hook and does not invoke it |
| Lifecycle.Health.CreatePendingTask | src/Health.ts:148-160 | appends one fresh, incomplete handle; the invariant that the list holds exactly the incomplete handles is kept |
| Lifecycle.Health.MarkComplete | src/Health.ts:151-156 | the first call removes the handle and emits once; later calls change nothing and do not emit; a waiting shutdown moves on only when the list becomes empty |
| Lifecycle.Health.Complete | src/Health.ts:153-155 | marks the handle complete and removes exactly it, keeping the pending list exact; a waiting shutdown moves to the hooks exactly when the list is now empty |
| Lifecycle.Health.MarkReady | src/Health.ts:165-168 | sets the flag when not terminating; changes nothing once terminating |
| Lifecycle.Health.MarkNotReady | src/Health.ts:173-176 | clears the flag when not terminating, so the instance is not ready at once; changes nothing once terminating |
| Lifecycle.Health.AwaitPending | src/Health.ts:197-208 | waits only when work is pending; an empty list proceeds at once to the hooks |
| Lifecycle.Health.Shutdown | src/Health.ts:183-208 | the first call sets terminating, schedules the grace timer only when its period is positive, and stops at the delay, the pending wait or the hooks; later calls change nothing |
| Lifecycle.Health.DelayElapsed | src/Health.ts:193-208 | after the delay the sequence waits for pending work only if there is some |
| Lifecycle.Health.HooksSettled | src/Health.ts:210-214 | settles regardless of the hooks; schedules the one-second fallback only now |
| Graceful.WithConnectionClose | src/graceful.ts:49 | `connection: close` is added exactly to the targeted responses whose headers are unsent; no other response changes |
| Graceful.Terminator.constructor | src/graceful.ts:8-15 | the grace period defaults to one second; nothing is tracked or destroyed |
| Graceful.Terminator.OnConnection | src/graceful.ts:17-27 | plain and TLS connections alike: tracked when not draining; destroyed and never tracked when draining |
| Graceful.Terminator.OnClose | src/graceful.ts:20 | removes the socket from the tracked set, harmlessly if absent, and changes nothing else |
| Graceful.Terminator.OnRequest | src/graceful.ts:38-42 | once draining, a new response with unsent headers gets `connection: close` |
| Graceful.Terminator.HttpMessageChanged | src/graceful.ts:47 | the response the sweep reads is whatever the HTTP layer last attached to the socket |
| Graceful.Terminator.DestroySocket | src/graceful.ts:29-32 | the socket is destroyed and untracked |
| Graceful.Terminator.Sweep | src/graceful.ts:44-50 | idle swept sockets are destroyed and untracked; unsent swept responses get `connection: close` and stay tracked; sent ones and skipped sockets are untouched |
| Graceful.Terminator.Drain | src/graceful.ts:34-56 | the first call starts draining and sweeps, then waits only if a socket is still tracked; every socket left is skipped or busy; later calls change nothing |
| Graceful.Terminator.DestroyTracked | src/graceful.ts:54 | every tracked socket is destroyed and the tracked set is empty |
| Graceful.Terminator.GraceElapsed | src/graceful.ts:52-55 | after the grace period nothing is tracked and every socket still tracked was destroyed |
| Graceful.Terminator.ServerClosed | src/graceful.ts:57-62 | the drain resolves iff the server closes without error, and rejects with that error otherwise |
| Scenarios.StartupGatesLiveness | src/Health.ts:72-120 | not live while a startup task runs; live once all fulfil, and then Ready once marked ready |
| Scenarios.RejectedStartupTask | src/Health.ts:72-120 | a startup task that rejects stays listed: never live, status Pending |
| Scenarios.ReadinessFlag | src/Health.ts:165-176 | readiness waits for readiness tasks; not-ready is immediate; after shutdown `markNotReady` leaves a set flag set and `markReady` leaves a cleared flag cleared, and the status stays Terminating |
| Scenarios.PendingWorkHoldsBackHooks | src/Health.ts:148-214 | with no delay the hooks wait for `markComplete`; a second shutdown and a second `markComplete` are no-ops; a grace period of 0 leaves only the fallback timer |
| Scenarios.DefaultShutdown | src/Health.ts:183-214 | default options: a 30000 ms grace timer, the delay taken, then the 1000 ms fallback |
| Scenarios.StartBusyDrain | src/graceful.ts:17-56 | three busy sockets: the sweep destroys none, all stay tracked and the grace wait begins |
| Scenarios.DrainThreeSockets | src/graceful.ts:17-62 | three busy sockets, one closes itself: exactly the other two are force-destroyed, a late connection is refused, and the drain resolves |
| Scenarios.DrainHttps | src/graceful.ts:12-62 | HTTPS: the sweep destroys exactly the idle TLS socket, the raw socket is skipped and forces the wait, a second drain is a no-op, and a close error rejects |

## Left out

- src/probes.ts, the probe HTTP server, is not part of this model. It only renders `isLive` and `isReady` as 200/500 responses.
- Wall-clock time: `sleep`, `setTimeout`, `unref`. The shutdown delay, the drain grace period and timer scheduling are phase transitions and a list of scheduled delays. Timers firing, `forciblyTerminate` and `process.exit` are not modelled.
- Signal handlers (`process.on`, src/Health.ts:103-107): a delivered signal is a call of `Shutdown`. The constructor registers nothing.
- The `EventEmitter` mechanics: the `taskComplete` listener of a waiting shutdown is folded into `MarkComplete`.
- Promise scheduling and microtask interleaving: each callback is one atomic method call.
- Seconds are exact reals. JavaScript floating-point rounding of `seconds * 1000` is not modelled.
- An option passed explicitly as `undefined` is not modelled. The spread would copy it over the default. `PartialOptions` only distinguishes given from left out.
- A task function that throws synchronously, and Node's process-level handling of the unhandled rejection of a startup or readiness task, are not modelled. In the model such a task simply stays listed.
- Sockets, servers, `_httpMessage` and `setHeader` are abstract records. The `close` event after a `destroy()` is an `OnClose` call the environment may make. What `destroy()` does to the network is not modelled.
- `server.close` errors are plain strings.
