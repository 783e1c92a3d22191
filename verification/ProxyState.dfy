/**
  The state the services act on: the proxy settings of the operating system, the ownership record in the
  database, the stored profiles and the engine as seen by operations that hold the services' mutex.
 */
module ProxyState {
  import opened Options

  datatype Listener = Listener(addr: string, port: nat)

  /** The OS proxy settings: what CurrentState shows, and everything else a snapshot captures. */
  datatype OsProxy = OsProxy(enabled: bool, addr: string, port: nat, rest: int)

  datatype ProxyRecord = ProxyRecord(qkboxOwned: bool, snapshot: OsProxy, addr: string, port: nat)

  /** Who wrote the OS proxy last. */
  datatype Writer = Foreign | Applied(addr: string, port: nat) | Restored

  datatype Profile = Profile(content: string, valid: bool, listeners: seq<Listener>)

  datatype Runtime = Runtime(profile: string, listeners: seq<Listener>)

  /** The engine between two operations; module Engine shows that these are its only states there. */
  datatype EngineView = Idle | Started(runtime: Runtime) | Fatal(runtime: Runtime)

  datatype ErrorCode =
    | ProfileNotFound | ProfileContentEmpty | ConfigValidationFailed | EngineBusy | EngineAlreadyStarted
    | EngineNotStarted | EngineNoActiveProfile | RuntimeStartFailed | RuntimeStopFailed | PrepareFailed
    | PlatformProxyFailed | PlatformProxyNoListener | PlatformProxyUnsupported | Internal

  datatype RollbackStage = RestoreProxy | StopNewRuntime | LoadOldProfile | PrepareOldProfile | StartOldRuntime

  datatype ServiceError = ServiceError(code: ErrorCode, stage: Option<RollbackStage>)

  datatype Result = Success | Failure(error: ServiceError)

  function Error(code: ErrorCode): Result {
    Failure(ServiceError(code, None))
  }

  /** attachRollbackError: the original code stays, the stage that failed is added. */
  function AttachRollbackError(original: ErrorCode, stage: RollbackStage): Result {
    Failure(ServiceError(original, Some(stage)))
  }

  /** proxyOwnerMatches. */
  predicate Matches(os: OsProxy, record: ProxyRecord) {
    os.enabled && os.addr == record.addr && os.port == record.port
  }

  predicate PointsAt(os: OsProxy, l: Listener) {
    os.enabled && os.addr == l.addr && os.port == l.port
  }

  /** loadRuntimeStartTargetByID without its database errors. */
  predicate Usable(profiles: map<string, Profile>, id: string) {
    id in profiles && profiles[id].content != "" && profiles[id].valid
  }

  /** What a crash would leave behind for the next start: the settings, the database, and their history. */
  datatype CrashPoint = CrashPoint(
    os: OsProxy, record: Option<ProxyRecord>, activeProfileID: string, profiles: map<string, Profile>,
    writer: Writer, baseline: OsProxy)

  // ----- What can fail -----

  /** The calls to the database, the operating system and the engine. */
  datatype Call =
    | LoadOwner | SaveOwner | DeleteOwner | LoadProfile | LoadActiveID | StoreActiveID
    | AskPlatform | TakeSnapshot | ReadSettings | ApplySettings | PutBack
    | Prepare | StartRuntime | StopRuntime | AskListeners

  /** What is known of them: a call mapped to true works, one mapped to false fails, any other may do either. */
  type Weather = map<Call, bool>

  predicate Works(weather: Weather, call: Call) {
    call in weather && weather[call]
  }

  predicate Down(weather: Weather, call: Call) {
    call in weather && !weather[call]
  }

  /** The calls that take a proxy off again. */
  predicate UndoWorks(weather: Weather) {
    Works(weather, PutBack) && Works(weather, DeleteOwner)
  }

  ghost predicate Calm(weather: Weather) {
    forall call: Call :: Works(weather, call)
  }

  ghost predicate Outage(weather: Weather) {
    forall call: Call :: Down(weather, call)
  }

  const CALLS: set<Call> := {
    LoadOwner, SaveOwner, DeleteOwner, LoadProfile, LoadActiveID, StoreActiveID,
    AskPlatform, TakeSnapshot, ReadSettings, ApplySettings, PutBack,
    Prepare, StartRuntime, StopRuntime, AskListeners
  }

  function AllCalls(work: bool): Weather {
    map call | call in CALLS :: work
  }

  lemma AllCallsAgree(work: bool)
    ensures if work then Calm(AllCalls(work)) else Outage(AllCalls(work))
  {
    forall call: Call
      ensures call in CALLS
    {
      match call {
        case LoadOwner => case SaveOwner => case DeleteOwner => case LoadProfile => case LoadActiveID =>
        case StoreActiveID => case AskPlatform => case TakeSnapshot => case ReadSettings => case ApplySettings =>
        case PutBack => case Prepare => case StartRuntime => case StopRuntime => case AskListeners =>
      }
    }
  }

  // ----- What a crash leaves -----

  predicate Owned(record: Option<ProxyRecord>) {
    record.Some? && record.value.qkboxOwned
  }

  /**
    If qkbox wrote the OS proxy last, the database says so and holds the settings that were there when
    ownership was first taken.
   */
  predicate CrashSafe(p: CrashPoint) {
    && (p.writer.Applied? ==>
          && Owned(p.record)
          && p.os.enabled && p.os.addr == p.writer.addr && p.os.port == p.writer.port
          && p.record.value.addr == p.writer.addr && p.record.value.port == p.writer.port)
    && (Owned(p.record) ==> p.record.value.snapshot == p.baseline)
  }

  /** These points know of no ownership, and show these settings. */
  ghost predicate Undisturbed(points: seq<CrashPoint>, os: OsProxy) {
    forall p <- points :: !Owned(p.record) && p.os == os
  }
}
