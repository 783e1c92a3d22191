# qkbox, modelled and proved

qkbox is a desktop proxy manager. A daemon keeps profiles, runs one proxy engine and sets the system
proxy; a privileged provider process hosts the engine when it takes over the network of the whole machine.
This project models the parts of both in which an order of steps, a failure or a crash decides whether the
user keeps a working network, and proves what every run of them keeps.

Run `dafny verify dfyconfig.toml` in this directory.

## What is here

| files | subject |
|---|---|
| `Lease`, `LeaseSafety`, `LeaseRecovery`, `LeaseLiveness`, `LeaseController`, `LeaseClient` | the machine-network lease: owner record, owner file, adapter, heartbeat monitors, repair, restart, and its client |
| `Engine`, `EnginePublication`, `EngineThreads` | the engine controller under any number of threads, and the order of what it publishes |
| `ProxyState`, `ProxyService`, `ProxySessions` | system-proxy ownership, engine start and stop, activation with rollback, crash repair, whole sessions |
| `EventQueues`, `EventHub` | log buffer, replay, bounded lossy queues |
| `UriImport`, `ConfigBuild`, `Base64`, `Text` | import of URI lists, tags, configuration, the flexible decoder |
| `Gsettings`, `Frames` | string quoting for gsettings, length-prefixed frames |
| `Connections`, `Traffic` | the connection table and the traffic samples of the adapter |

The lease, the engine and the connection table are concurrent. Each is given twice: once as a state machine
whose events are the critical sections of the code and the calls it makes between two of them, so that a run
is an interleaving, and once as a class whose methods are the code's methods section by section, with a
method `Interfere` that lets the other threads take any enabled steps in between. The class carries the
trace of what happened as a ghost and every method is proved to extend it by events of the machine; what is
proved of all runs therefore holds of the code. The event hub, which takes one lock for each of its
operations, is a machine and a class whose methods each refine one event. Outcomes that the code does not
control (a save, a call to the operating system) are chosen arbitrarily. The services that switch the proxy
and the engine work in a weather, which says of each of their fifteen kinds of calls that it works, that it
fails, or nothing. What an operation does when nothing fails is stated on the state before and after it, apart
from the code that does it, and holds of every success as well.

### What turned out to be false, and exactly when it holds

- **Exclusion of the lease** fails in one family of interleavings. The stale mark that a heartbeat monitor
  sets after its own stop has failed is not tied to the owner that it tried to stop
  (`internal/providerruntime/controller.go:484-486`). If it lands on a later start that is still in flight,
  a clear-owner repair is accepted, and a second adapter can be started. `LateMarkBreaksExclusion` builds
  that run from any fresh provider; `SafeExactly` proves that a run is safe throughout if and only if no
  successful repair meets a start in flight; `TimelyMarksAreSafe` proves that there is none when a monitor's
  stop and its mark are one step.
- **No owner in memory, so no owner file** is false. `FileFollowsOwnerExactly` proves over every run that the
  file goes with its owner if and only if none of four things happens: a saved heartbeat or a saved stale
  mark for an owner that is about to be forgotten, a failed deletion after a failed start, a restart that
  cannot read the file. `HeartbeatRevivesFile` and `FailedStartLeavesFile` are two of the runs.
- **An enabled proxy points at the running engine** fails when the repair at start-up failed and the next
  runtime listens elsewhere: the enable finds the proxy as its record says and succeeds without touching it.
  `PlatformSetSystemProxyEnabled` states exactly when (`PinnedElsewhere`); `DeadProxyArises` gets there from
  a new service.
- **A shutdown passes through a dead proxy** exactly when it stops an engine while a proxy of qkbox is on
  (`Close`): the engine goes first, the proxy second. No other operation does, at any point inside it.
- **Statuses are published in the order they were taken on** if and only if no publication overtakes an older
  one that another thread still has to make (`PublishedInOrderExactly`). Serialised operations never do
  (`SerialisedNeverOvertakes`); `OverlapMisleads` shows a start and a stop that leave an idle engine last
  published as started. `Close` does not take the mutex that serialises the others.
- **A closed connection closes what is underneath** exactly when its wrapper is complete at the moment the
  close looks for the function to call (`CloseReachesUnderneathExactly`): a connection is listed before that
  function is set (`internal/singboxadapter/observability.go:74-78`).
- **Rates never report more than was moved** holds up to the first stop of an adapter, and from a stop on
  exactly when nothing had moved before, however late the samples come (`RateBoundAfterStopExactly`): the
  totals survive a stop, the last sample does not. Both owners of an adapter make a new one for every start,
  so they stay in the first case.
- **Tags of a built configuration are distinct** exactly when no node is tagged "proxy".

Two conditions are exact for the code and never fail in this program. A written frame can be read exactly
when its payload is not empty (`FrameRoundTripExactly`), and JSON never is. A client is silent about a runtime
it has given up exactly when no heartbeat goroutine whose context was replaced by a second start has ticked
while the last runtime was given up (`PerformAll`, `StrayBeatsOn`), and the engine makes a new owner for every
start.

## Model

Sections of an operation, and the calls to the operating system and the database, are helpers of the
operation that contains them and have no row.

| member | source | states |
|---|---|---|
| `LeaseSafety.StepKeepsInv` | internal/providerruntime/controller.go:102-240 | every critical section, adapter call, file write, repair, tick, stale mark and restart keeps the lease invariant, if and only if it is not a successful repair that meets a start in flight |
| `LeaseSafety.InvIsSafe` | internal/providerruntime/controller.go:147-152 | under the invariant at most one adapter exists, it belongs to the owner in memory, and its owner file is on disk |
| `LeaseSafety.SafeExactly` | internal/providerruntime/controller.go:102-504 | over all runs: exclusion and write-ahead hold at every point if and only if no successful repair meets a start in flight |
| `LeaseSafety.TimelyMarksAreSafe` | internal/providerruntime/controller.go:480-486 | when no monitor marks an owner stale during a start, every run is safe and no repair meets a start |
| `LeaseSafety.RepairDuringStartIsUnsafe` | internal/providerruntime/controller.go:389-409 | the failing step itself leaves an adapter without an owner file |
| `LeaseSafety.LateMarkBreaksExclusion` | internal/providerruntime/controller.go:484-486 | from any fresh provider a late mark, a repair and a second start end with two adapters running |
| `LeaseRecovery.CrashIsNoticed` | internal/providerruntime/controller.go:45-65 | a crash at any point where an adapter runs or may run leaves the next provider blocked, exactly if it can read the file |
| `LeaseRecovery.BlockedExactly` | internal/providerruntime/controller.go:389-409 | through any number of restarts, stops, heartbeats and failed repairs it stays blocked, until a repair succeeds or a restart cannot read the file, and not longer |
| `LeaseRecovery.CrashRefusesStarts` | internal/providerruntime/controller.go:45-65 | write-ahead end to end: crash anywhere in a safe run with an adapter up, restart, any further run without such a repair: every start is refused |
| `LeaseRecovery.StepKeepsFile` | internal/providerruntime/controller.go:156-157 | a step leaves an owner file behind exactly when it is one of the four kinds |
| `LeaseRecovery.FileFollowsOwnerExactly` | internal/providerruntime/controller.go:216-253 | over every run, safe or not: no file without an owner, nor under one about to be forgotten, if and only if no step is of the four kinds |
| `LeaseRecovery.HeartbeatRevivesFile` | internal/providerruntime/controller.go:223-249 | a run in which a heartbeat between deletion and clearing leaves a file without an owner |
| `LeaseRecovery.FailedStartLeavesFile` | internal/providerruntime/controller.go:155-165 | a run in which a failed start whose file cannot be deleted does |
| `LeaseRecovery.RunsAreWatched` | internal/providerruntime/controller.go:450-491 | in every safe run a live, non-stale runtime has its own uncancelled monitor, on time or already stopping it |
| `LeaseRecovery.OrphanIsNoticed` | internal/providerruntime/controller.go:467-483 | once that monitor has looked at the clock after the last accepted heartbeat plus the timeout, it is on its way to stop the runtime |
| `LeaseRecovery.MonitorStopReclaims` | internal/providerruntime/controller.go:480-483 | the stop a monitor asks for is accepted if its runtime is live; and after it, however it is answered, the runtime is stopped or its owner stale whenever no operation is in progress, for ever |
| `LeaseRecovery.OrphanIsReclaimed` | internal/providerruntime/controller.go:450-491 | the bound end to end: no heartbeat after h, a look at the clock after h plus the timeout, and anything afterwards: stopped or stale at every quiet point, unless the monitor still has to ask |
| `LeaseRecovery.ReclaimFinishes` | internal/providerruntime/controller.go:216-239 | once any stop has begun, the runtime is stopped or its owner stale whenever no operation is in progress, for ever |
| `LeaseLiveness.OnlyTheSilentAreStopped` | internal/providerruntime/controller.go:464-491 | in every run, whatever else happens: a monitor goes on to stop the runtime exactly when, as it read the owner, the last accepted heartbeat or start of the run lay more than the timeout before its look at the clock |
| `LeaseLiveness.RecordTellsLastSign` | internal/providerruntime/controller.go:242-253 | after every run the owner's record holds the time of the last start or accepted heartbeat |
| `LeaseLiveness.RunsKeepOneMonitor` | internal/providerruntime/controller.go:450-458 | in every run at most one monitor has not been told to go: the one whose context the controller holds |
| `LeaseLiveness.NoMonitorOutlivesItsRuntime` | internal/providerruntime/controller.go:209-214 | in a safe run, at rest, that monitor's own adapter runs |
| `LeaseLiveness.MonitorsAskOnce` | internal/providerruntime/controller.go:480-488 | in every run a monitor asks for at most one stop, however it is answered |
| `LeaseLiveness.RunsKeepFileTellsOwner` | internal/providerruntime/owner_store.go:49-58 | in every run file and memory hold one record, with one session, runtime, profile and start time, or records of two owners |
| `LeaseController.Controller.constructor` | internal/providerruntime/controller.go:45-65 | a new controller is the restart event of the machine applied to whatever owner file it finds |
| `LeaseController.Controller.Interfere` | internal/providerruntime/controller.go:242-253 | other threads leave the holder's adapter, operation and record identity alone; they may refresh, mark stale or clear the owner |
| `LeaseController.Controller.RuntimeStart` | internal/providerruntime/controller.go:102-178 | the answer to every request: on a live owner done for its own session and runtime, refused to any other, and refused on a stale one, without effect; a success has run the whole protocol in order and, in a safe run, leaves this session's runtime live, with a monitor of the requested timeout; a failure leaves no owner and, in a safe run, nothing running |
| `LeaseController.Controller.RuntimeStop` | internal/providerruntime/controller.go:180-240 | the answer to every request; each way an accepted stop can end, with its protocol in order and the monitor that asked for it gone or about to mark; in a safe run it leaves the runtime stopped or its owner stale |
| `LeaseController.Controller.RuntimeHeartbeat` | internal/providerruntime/controller.go:242-253 | the answer to every request; an accepted heartbeat renews the owner's time, and the file when it can be saved; a refused one changes nothing |
| `LeaseController.Controller.RunRepairAction` | internal/providerruntime/controller.go:389-409 | succeeds exactly on a stale owner without a handle whose file can be deleted; anything else changes nothing |
| `LeaseController.Controller.MonitorRead` | internal/providerruntime/controller.go:467-476 | what a tick takes from the owner while it holds the lock: its session, its runtime and its last heartbeat |
| `LeaseController.Controller.MonitorDecideSection` | internal/providerruntime/controller.go:477-483 | goes on to stop the runtime exactly when the heartbeat it read is older than the timeout by the time it looks |
| `LeaseController.Controller.MarkStaleLate` | internal/providerruntime/controller.go:484-486 | the mark hits whatever owner there is at that moment |
| `LeaseController.ControllerIsSafe` | internal/providerruntime/controller.go:102-504 | the iff of all runs, for every state the controller's code can reach |
| `LeaseClient.ProviderRuntimeOwner.Start` | core/qkboxd/provider_runtime_owner.go:41-88 | what is sent and kept after a lost, an unbridged and a successful start, also of an owner that is started already |
| `LeaseClient.ProviderRuntimeOwner.Stop` | core/qkboxd/provider_runtime_owner.go:90-110 | at most one stop request for a runtime; afterwards the owner is idle whatever the answer |
| `LeaseClient.ProviderRuntimeOwner.HeartbeatTick` | core/qkboxd/provider_runtime_owner.go:231-251 | a beat only while the goroutine runs, and none after the first error |
| `LeaseClient.RetriedStop` | core/qkboxd/provider_runtime_owner.go:102-104 | a retried stop reports success and asks the provider for nothing |
| `LeaseClient.StrayBeatsOn` | core/qkboxd/provider_runtime_owner.go:64-68 | started twice without a stop, an owner beats on for a runtime it has stopped |
| `LeaseClient.PerformAll` | core/qkboxd/provider_runtime_owner.go:41-110 | any calls in any order, later starts included: no request mentions a runtime after it was stopped, lost or replaced, exactly when no stray goroutine has ticked while the last runtime was given up, and there is none unless a start replaced a running one |
| `LeaseClient.GivenUpIsSilent` | core/qkboxd/provider_runtime_owner.go:231-251 | if only what the client has sent since then reaches the provider, the provider's run is silent about the runtime |
| `LeaseClient.AbandonedRuntimeIsReclaimed` | core/qkboxd/provider_runtime_owner.go:90-110 | client and provider together: a runtime whose stop was lost or retried, or whose start was lost, is stopped or stale in the end |
| `Engine.StepKeepsInv` | core/qkboxd/engine.go:41-200 | every section of every thread keeps owner, live set and state in agreement, with at most one thread inside a start or stop |
| `Engine.EngineInvariant` | core/qkboxd/engine.go:41-200 | over all interleavings of any number of threads: no owner in Idle and Starting, one in Started, Stopping and Fatal, never two live |
| `Engine.EngineMovesAlongGraph` | core/qkboxd/engine.go:155-200 | every step stays in a state or takes one edge of the transition graph |
| `Engine.VerdictsByState` | core/qkboxd/engine.go:155-187 | which state answers a start and a stop with what: a Fatal engine can be stopped and not started |
| `Engine.FatalCanBeStopped` | core/qkboxd/engine.go:173-187 | a run that takes a Fatal engine back to Idle with nothing left |
| `Engine.OverlapMisleads` | core/qkboxd/engine.go:63-69 | without serialisation a stop can finish while Started is published last |
| `EnginePublication.StepStaysInOrder` | core/qkboxd/engine.go:333-337 | one publication is the next of the statuses taken on exactly when it overtakes no older one |
| `EnginePublication.PublishedInOrderExactly` | core/qkboxd/engine.go:41-153 | over all interleavings: published in order throughout if and only if no publication overtakes another |
| `EnginePublication.OrderMeansAgreement` | core/qkboxd/engine.go:333-337 | in order, the publications are a first part of the statuses taken on, a walk in the graph, and end with the engine's status whenever nothing is in progress |
| `EnginePublication.SerialisedNeverOvertakes` | core/qkboxd/runtime_service.go:21-23 | operations that hold the services' mutex never overtake |
| `EnginePublication.StatusAgreement` | core/qkboxd/engine.go:333-337 | with serialised operations the publications are a walk in the graph and, whenever no operation is in progress, end with the engine's status |
| `EngineThreads.EngineController.constructor` | core/qkboxd/engine.go:22-33 | a new engine is idle and has published it |
| `EngineThreads.EngineController.Interfere` | core/qkboxd/engine.go:41-141 | other threads cannot touch status, owner or live set while this one is inside a start or stop |
| `EngineThreads.EngineController.InvHolds` | core/qkboxd/engine.go:41-200 | the invariant of all interleavings, for every state the controller's code can reach |
| `EngineThreads.EngineController.Start` | core/qkboxd/engine.go:41-72 | the answer in each of the five states, the final status and the exact sequence of this thread's sections, whatever the other threads do |
| `EngineThreads.EngineController.Stop` | core/qkboxd/engine.go:89-113 | accepted in Started and in Fatal and in no other state; the final status and the exact sequence of this thread's sections |
| `EngineThreads.EngineController.Shutdown` | core/qkboxd/engine.go:115-141 | as a stop, also of a Fatal engine, but an engine that is not running is no error |
| `ProxyService.Service.EnableProxy` | core/qkboxd/platform_service.go:298-359 | exactly when the proxy then points at the first listener; the snapshot kept is that of the first enable; a failure leaves the settings as they were and takes no ownership, unless the undo fails too |
| `ProxyService.Service.ReapplyOwnedProxy` | core/qkboxd/platform_service.go:315-333 | a proxy that shows what the record says is left alone, any other is replaced with the old snapshot kept |
| `ProxyService.Service.TakeOwnership` | core/qkboxd/platform_service.go:335-358 | the record is on disk before the proxy is set, so every crash point in between can be repaired; when the settings cannot be applied, neither they nor the record remain, unless the undo fails too |
| `ProxyService.Service.RestoreIfMine` | core/qkboxd/platform_service.go:361-416 | settings that are not qkbox's are never overwritten; its own are replaced by the captured ones; either way nothing is owned any more unless the deletion fails |
| `ProxyService.Service.PlatformSetSystemProxyEnabled` | core/qkboxd/platform_service.go:283-296 | both requests: the reply and the state after each when nothing fails, and the same of every success; what a failure leaves |
| `ProxyService.Service.LoadTarget` | core/qkboxd/runtime_service.go:58-85 | succeeds exactly on an existing profile with content that is valid, and says which of these is missing |
| `ProxyService.Service.EngineStart` | core/qkboxd/runtime_service.go:21-56 | the reply in every state when nothing fails; a success runs the active profile |
| `ProxyService.Service.EngineStop` | core/qkboxd/runtime_service.go:87-98 | the proxy comes off before the engine goes, so at no point is it dead; a proxy that cannot come off keeps the engine running |
| `ProxyService.Service.CaptureOwnedProxy` | core/qkboxd/platform_service.go:418-442 | captures exactly a record that the settings still show; one that they no longer show is forgotten, unless its deletion fails |
| `ProxyService.Service.BindCapturedProxyToRuntime` | core/qkboxd/platform_service.go:455-485 | the proxy is on the new runtime's first listener with the same baseline, or the baseline is back and the record gone, unless the undo fails too |
| `ProxyService.Service.RollbackActivation` | core/qkboxd/activation_service.go:95-119 | for each rollback stage, and for none, the state it leaves; a captured proxy that was put back leaves no record |
| `ProxyService.Service.ActivateProfile` | core/qkboxd/activation_service.go:17-93 | activation is all or reported, over every combination of failures; the reply and the state when nothing fails; no ownership survives the settings of another program that it meets, nor a failure past the old runtime, unless an undo fails too |
| `ProxyService.Service.Close` | core/qkboxd/service.go:72-76 | the engine is down, if nothing fails the captured settings are back and nothing is owned, and a dead proxy is passed exactly when one was on |
| `ProxyService.Service.RepairStaleProxy` | core/qkboxd/daemon.go:133-160 | the user's settings are back and the record gone, or nothing has changed |
| `ProxyService.Service.CrashAndRestart` | core/qkboxd/daemon.go:133-160 | a crash at any point of a request, its database included, then a successful repair: the settings captured when ownership was first taken are back and no proxy is dead |
| `ProxyService.Handle` | core/qkboxd/platform_service.go:283-485 | each of the five requests does what it says when nothing fails and whenever it succeeds; no request but an explicit enable overwrites settings of others that differ from the record, at any point of it, and none leaves or passes a dead proxy |
| `ProxyService.Session` | core/qkboxd/service.go:46-76 | any sequence of requests, crashes at any point of one, repairs, shutdowns, foreign writes and failures: from the start or any repaired restart on, and across every later one that repairs, no step but a shutdown passes a dead proxy before its process ends; without an enable the settings are those last written by others; and every step is one that the theorems on stretches of ownership speak of |
| `ProxySessions.DisableGoesBack` | core/qkboxd/platform_service.go:335-386 | in any session: a stretch of ownership that a disable ends leaves exactly the settings from before the step that began it, whatever happened in between |
| `ProxySessions.ForeignSettingsEndOwnership` | core/qkboxd/platform_service.go:437-440 | a disable, stop, activation or shutdown that meets settings of another program leaves them and ends the ownership |
| `ProxySessions.ForeignSettingsComeBack` | core/qkboxd/platform_service.go:315-386 | so what others last wrote, from such a meeting to the next enable, is what the disable after that puts back |
| `ProxySessions.UnownedIsForeign` | core/qkboxd/platform_service.go:361-416 | without ownership and without an enable the settings are those last written by others |
| `ProxyService.Perform` | core/qkboxd/service.go:72-76 | from a repaired state a step passes a dead proxy exactly when it is a shutdown that stops an engine while a proxy of qkbox is on |
| `ProxyService.EnableKeepsDeadProxy` | core/qkboxd/platform_service.go:315-322 | an enable that meets no failure succeeds and leaves the proxy on a dead address |
| `ProxyService.DeadProxyArises` | core/qkboxd/daemon.go:137-140 | the same, reached from a new service through a crash, a repair that failed and a start |
| `EventHub.ArrivalSeesWindow` | internal/eventhub/eventhub.go:84-94 | a new log subscriber is sent exactly the last min(n, 512) entries, none lost |
| `EventHub.RunsKeepInv` | internal/eventhub/eventhub.go:30-127 | over all runs: entries numbered without gaps, and every queue consistent with the history from its first entry on |
| `EventHub.LogStreamIsSeamless` | internal/eventhub/eventhub.go:84-127 | what a log subscriber accepts is increasing, duplicate-free and, unless an event was lost, the whole history from the replayed entry on |
| `EventHub.LossMeansFull` | internal/eventhub/eventhub.go:122-127 | an event is lost for a subscriber exactly when its queue is full at that publication |
| `EventHub.LogStreamBeginsAtWindow` | internal/eventhub/eventhub.go:84-94 | over all runs: what a log subscriber has accepted begins with the entries buffered when it subscribed |
| `EventHub.StatusStreamBeginsWithCurrent` | internal/eventhub/eventhub.go:72-82 | over all runs: what a status subscriber has accepted begins with the status that was current when it subscribed |
| `EventHub.StatusStreamIsWalk` | internal/eventhub/eventhub.go:72-82 | a status subscriber sees the status current at subscription, then a subsequence of the walk |
| `EventHub.HubAgreesWithEngine` | internal/eventhub/eventhub.go:30-38 | fed by an engine with serialised operations, whenever none is in progress the hub's last status is the engine's |
| `EventHub.Hub.ShiftDown` | internal/eventhub/eventhub.go:54-56 | the buffer loses its oldest entry and gains the new one, in place |
| `EventHub.Hub.Append` | internal/eventhub/eventhub.go:46-59 | the buffer stays the window of the history |
| `EventHub.Hub.Broadcast` | internal/eventhub/eventhub.go:116-120 | every subscriber is offered the event once, in any order of subscribers, and accepts it unless 528 events wait for its reader |
| `EventHub.Hub.PublishRuntimeLog` | internal/eventhub/eventhub.go:40-61 | the next entry of the unbounded history, with the next number, goes to every log subscriber |
| `EventHub.Hub.PublishBridgeError` | internal/eventhub/eventhub.go:63-70 | goes to every log subscriber and is no entry of the history |
| `EventHub.Hub.PublishStatus` | internal/eventhub/eventhub.go:30-38 | remembered and sent to every status subscriber |
| `EventHub.Hub.SubscribeLogs` | internal/eventhub/eventhub.go:84-94 | the new subscriber has accepted the last min(n, 512) entries, in order, and lost nothing; no other subscriber is touched |
| `EventHub.Hub.SubscribeStatus` | internal/eventhub/eventhub.go:72-82 | the new subscriber has accepted the last status, if there was one, and nothing else |
| `EventHub.Hub.Unsubscribe` | internal/eventhub/eventhub.go:107-114 | the subscriber is offered nothing any more |
| `EventHub.PerformAll` | internal/eventhub/eventhub.go:23-127 | a hub object after any calls in any order: its buffer is the window of all that was published, every subscriber's stream begins with what the hub held when it subscribed, and every log subscriber is served in order and without gaps unless it lost an event |
| `EventQueues.OfferIsSound` | internal/eventhub/eventhub.go:122-127 | a queue never holds more than 528 events and drops exactly when full |
| `EventQueues.LogSubscriberSees` | internal/eventhub/eventhub.go:84-127 | order, no duplicates, and no gap without a loss |
| `EventQueues.StatusSubscriberSees` | internal/eventhub/eventhub.go:72-82 | the first status and the order of the later ones |
| `UriImport.FirstFreeIsUnique` | internal/uriparse/parse.go:374-393 | the least free suffix is one tag, and it is free |
| `UriImport.TagRegister.UniqueTag` | internal/uriparse/parse.go:374-393 | terminates; returns the result of a search from scratch that starts from the trimmed tag, or from "outbound", never one returned before, never an empty one |
| `UriImport.RetaggedIsDistinct` | internal/uriparse/parse.go:38-43 | tags that are each the first free one are pairwise distinct |
| `UriImport.SchemeDecidesType` | internal/uriparse/parse.go:47-62 | exactly five schemes are known, each for one type |
| `UriImport.Retag` | internal/uriparse/parse.go:38-43 | order, types and fields stay; every tag is the first free one after those before it |
| `UriImport.Collect` | internal/uriparse/parse.go:21-33 | all outbounds in order, or the first line that is not accepted |
| `UriImport.Parse` | internal/uriparse/parse.go:20-45 | the result of every text; tags of an accepted one are distinct and not empty |
| `Text.DecimalIsInjective` | internal/uriparse/parse.go:386 | two suffixes are never printed alike |
| `Text.DecimalReadsBack` | internal/uriparse/parse.go:386 | a printed suffix is read back as the number, in digits, with no zero in front |
| `Text.TrimSpaceCuts` | internal/uriparse/parse.go:375 | trimming cuts off space only, and leaves none at either end |
| `Text.SplitThenJoin` | internal/uriparse/parse.go:21 | the lines joined again are the text |
| `Base64.OwnRoundTrip` | internal/uriparse/parse.go:359-364 | each of the four decoders inverts its encoder |
| `Base64.GroupIsOneNumber` | internal/uriparse/parse.go:359-364 | four characters and the three bytes they stand for are one number, first byte first |
| `Base64.DecodersAgree` | internal/uriparse/parse.go:365-370 | two decoders that accept one text read the same bytes |
| `Base64.CascadeOrderIsIrrelevant` | internal/uriparse/parse.go:365-370 | for every text and every decoder that accepts it, the cascade gives what that decoder gives |
| `Base64.FlexibleRoundTrip` | internal/uriparse/parse.go:357-372 | for all bytes and all four encodings, decoding the encoding gives the bytes |
| `Base64.WrappedRoundTrip` | internal/uriparse/parse.go:357-372 | the same for an encoding with line breaks put in anywhere |
| `ConfigBuild.AssembledIsClosed` | internal/configbuild/build.go:116-141 | the route's final tag, every member and every default name an outbound of the list |
| `ConfigBuild.AssembledIsDistinct` | internal/configbuild/build.go:116-133 | tags are pairwise distinct exactly when no node is tagged "proxy" |
| `ConfigBuild.NodesAreCarriedOver` | internal/configbuild/build.go:99-110 | every node is in the list in its place, with its own tag and type whatever its fields said, and its other fields unchanged |
| `ConfigBuild.CopyNodes` | internal/configbuild/build.go:94-114 | accepts exactly nodes with distinct, non-empty tags and types; else names the first fault |
| `ConfigBuild.BuildOutbounds` | internal/configbuild/build.go:94-134 | selector, nodes, direct and block, the latter two unless a node has taken the tag |
| `ConfigBuild.Build` | internal/configbuild/build.go:33-69 | succeeds exactly for a valid mode or none and importable nodes; closed references; the final tag of each mode; listen address and port, with 127.0.0.1 and 7890 where none is given |
| `ConfigBuild.Import` | internal/uriparse/parse.go:20-45 | whatever Parse accepts, Build accepts in every valid mode |
| `Gsettings.EscapedIsTokens` | platform/capability/proxy_linux.go:272-276 | the two escaping passes together work character by character |
| `Gsettings.LiteralIsRead` | platform/capability/proxy_linux.go:272-276 | a reader that takes quoted text in one pass reads the string from the literal |
| `Gsettings.QuotesFirst` | platform/capability/proxy_linux.go:283 | the first unescaping pass undoes the quotes and leaves every backslash run even |
| `Gsettings.BackslashesSecond` | platform/capability/proxy_linux.go:284 | the second pass undoes the backslashes |
| `Gsettings.LiteralRoundTrip` | platform/capability/proxy_linux.go:272-286 | unquoting a quoted string gives the string, for every string |
| `Gsettings.SurroundedLiteral` | platform/capability/proxy_linux.go:278-282 | also with white space around it, as commands print it |
| `Frames.SizeInvertsHeader` | internal/ipcframework/frame.go:22-23 | the reader gets the size the writer put in, and the four bytes are that size, high byte first |
| `Frames.HeaderInvertsSize` | internal/ipcframework/frame.go:36 | and no two headers mean one size |
| `Frames.FrameRoundTripExactly` | internal/ipcframework/frame.go:14-43 | a written payload is read back, with the rest of the stream untouched, exactly when it is not empty |
| `Frames.AcceptedExactly` | internal/ipcframework/frame.go:31-43 | the reader accepts exactly the streams that start with the frame of a payload of size 1 to 2^20 |
| `Frames.StreamRoundTrip` | internal/ipcframework/frame.go:31-43 | reading k frames gives k payloads and a rest exactly when the stream is their frames followed by that rest |
| `Frames.TruncatedFrameIsRefused` | internal/ipcframework/frame.go:32-42 | every strict prefix of a frame is refused |
| `Frames.TruncatedStreamIsRefused` | internal/ipcframework/frame.go:31-43 | a stream of k frames cut anywhere does not give k frames |
| `Frames.WriteFrame` | internal/ipcframework/frame.go:14-29 | writes the frame whole, or reports an error after a strict prefix of it, or nothing when the payload is too big |
| `Frames.ReadFrame` | internal/ipcframework/frame.go:31-43 | what it returns and what it leaves of the stream, for every stream; what it returns is a payload of 1 to 2^20 bytes whose frame the stream began with |
| `Connections.ConnectionIdsDiffer` | internal/singboxadapter/observability.go:88-89 | no two connections have one id |
| `Connections.RunsConserve` | internal/singboxadapter/observability.go:88-216 | over all runs: totals are the sums over all connections ever added, the table lists exactly those no one has begun to close, none is closed twice |
| `Connections.RunsCountBytes` | internal/singboxadapter/observability.go:109-125 | over all runs: the totals grow by exactly the positive sizes that were reported |
| `Connections.RunsCountBytesOf` | internal/singboxadapter/observability.go:109-125 | and those of each connection by exactly the sizes reported of it |
| `Connections.CloseReachesUnderneathExactly` | internal/singboxadapter/observability.go:207-218 | a close reaches the connection underneath, then or ever, exactly when the wrapper is complete at the moment it reads the function to call |
| `Connections.WrapInTime` | internal/singboxadapter/observability.go:74-78 | a wrap that lands after the table entry is gone and before that read is still in time |
| `Connections.Tracker.TrackerIsSound` | internal/singboxadapter/observability.go:88-216 | the same of every tracker the code can reach |
| `Connections.Tracker.AddConnection` | internal/singboxadapter/observability.go:88-107 | a new connection is listed under a new id, before it can be closed underneath |
| `Connections.Tracker.AddUpload` | internal/singboxadapter/observability.go:109-116 | adds a positive size to the connection and to the total alike, and nothing otherwise |
| `Connections.Tracker.AddDownload` | internal/singboxadapter/observability.go:118-125 | adds a positive size to the connection and to the total alike, and nothing otherwise |
| `Connections.Tracker.EnterClose` | internal/singboxadapter/observability.go:209-212 | the first to close takes the connection off the table, later ones do nothing |
| `Connections.Tracker.FinishClose` | internal/singboxadapter/observability.go:213-215 | closes underneath once, if there is a function to call |
| `Connections.Tracker.CloseTracked` | internal/singboxadapter/observability.go:207-218 | with other threads at work in between, the connection is closed when it returns |
| `Connections.Tracker.CloseConnection` | internal/singboxadapter/observability.go:184-193 | found exactly when listed, and then closed and off the table |
| `Connections.Tracker.CloseAll` | internal/singboxadapter/observability.go:195-205 | whatever other threads add, wrap or close meanwhile, everything listed at the start is closed and off the table |
| `Traffic.RateBound` | internal/singboxadapter/observability.go:133-151 | up to the first stop, rates times times are at most a thousandfold the bytes moved, and short of the bytes sampled by less than each sample's time |
| `Traffic.SegmentBound` | internal/singboxadapter/runtime_api.go:18-27 | between two stops, in both directions and from both sides: what the rates report is the growth since the sample they start from, but for lost bytes and slack |
| `Traffic.RateBoundAfterStopExactly` | internal/singboxadapter/adapter.go:173-176 | from a stop on, for samples no earlier than any given time, the bound holds for all runs exactly when nothing had moved before |
| `Traffic.RunsKeepInv` | internal/singboxadapter/observability.go:133-151 | both bounds on the rates that the samples carry, with stops counted in: lost, slack and repeated bytes account for the difference |
| `Traffic.Adapter.CountUpload` | internal/singboxadapter/observability.go:226-230 | positive sizes read are counted, and the adapter's books stay balanced |
| `Traffic.Adapter.TrafficSnapshot` | internal/singboxadapter/runtime_api.go:18-27 | the sample holds the totals and, for either direction, the bytes a second since the last one, rounded down, or 0 when no time has passed; it replaces the remembered one, and the books balance |
| `Traffic.Adapter.StopBox` | internal/singboxadapter/adapter.go:162-178 | every listed connection is closed first, while traffic goes on; the last sample is forgotten only when the box has closed |

## Left out

- sing-box, the validation of configurations and the extraction of required capabilities: an adapter that starts or fails, and a validity flag of a profile.
- IPC servers and clients, sockets, HTTP fetching, bundles, the user interface and capability reports.
- The platform commands behind the system proxy: reading, setting and restoring either take full effect or fail without one.
- SQLite: a settings row that is written whole or not at all. Edits of profiles happen between operations.
- The NetworkExtension runtime owner, which has the shape of the provider's.
- Owner files that exist but cannot be parsed are modelled as a load that fails; writes of the file are atomic.
- Reasons, repair-action lists, error messages and the enabled_at time of records.
- A heartbeat of the client that is already under way when its context is cancelled.
- Controller.Close, RuntimeGetStatus and the observation calls of the provider, which only read or call RuntimeStop.
- Clocks: the provider's and the engine's clocks are positive and do not run backwards; the traffic samples take any clock.
- Random runtime ids: assumed new each time.
- URI bodies: what a line's body yields is an arbitrary function; only its tag and type matter here.
- JSON: configurations and frames stop at the values before encoding. Invalid UTF-8 in base64 payloads and in settings strings.
- Integer widths: totals, sequence numbers and rates are unbounded; a product of total and 1000 beyond 63 bits is not modelled.
- The sorted connection list of the tracker, and a tracker that is nil.
- Two atomic counters are one step in AddUpload and AddDownload; in between a reader can see one without the other.
- A provider that is not configured, on the client side: its starts fail before anything is sent.
- `LeaseController.Controller.StartAdapter`: a failed start is taken to leave nothing running, as the adapter closes its box.
- `ProxyService.Service.RestoreIfMine`: one method stands for four functions that differ only in when they ask for availability and in what they do with an error.
- `ProxyService.Service.ListenerInfo`: may fail for any reason while the engine runs, since the owner may be remote.
- `LeaseRecovery.OrphanIsReclaimed`: promises nothing about how long a monitor takes between its look at the clock and its stop, which waits for the mutex.
- `Engine.EngineInvariant`: speaks of runtime owners. A provider-hosted runtime whose stop was answered by a retry may run on after its owner has reported success, until the lease reclaims it.
- `ProxyService.Service.Close`: runs after the requests. The code takes no mutex there, so a start or stop that the tray menu asks for (`cmd/qkbox/tray.go:99-101`) may overlap with it; that interleaving is not modelled.
