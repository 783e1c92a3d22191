/**
  The machine-network lease of the privileged provider, as a state machine.

  Every event is one critical section of `mu`, or one call out of the program (adapter, owner file)
  made between two sections. `opMu` is held by the operation recorded in `op`, so an event of a start
  or a stop is enabled only when that operation has reached it; heartbeats, repairs, monitor ticks and
  late stale marks take `mu` alone and are enabled in between.
 */
module Lease {
  import opened Options

  const MACHINE_NETWORK := "machine_network"
  const DEFAULT_HEARTBEAT_TIMEOUT: nat := 8000

  /** `gen` is the identity of the record object: the program compares owner pointers. */
  datatype OwnerRecord = OwnerRecord(
    gen: nat, session: string, runtime: string, profile: string,
    startedAt: nat, lastHeartbeat: nat, stale: bool)

  datatype StartRequest = StartRequest(
    session: string, runtime: string, profile: string, mode: string, timeoutMS: int)

  datatype Caller = Client | Monitor(id: nat)

  /** The holder of `opMu` and the section or call it does next. */
  datatype Operation =
    | NoOperation
    | AdapterStarting(gen: nat, timeout: nat)
    | AdapterStarted(gen: nat, timeout: nat)
    | Arming(gen: nat, timeout: nat)
    | StartFailed(gen: nat)
    | StartUndoing(gen: nat)
    | AdapterStopping(caller: Caller, handle: Option<nat>)
    | StopFailed(caller: Caller)
    | FileDeleting(caller: Caller)
    | DeleteFailed(caller: Caller)
    | Clearing(caller: Caller)

  /**
    One heartbeat goroutine, named after the record whose start armed it. A tick reads the owner under `mu`
    and looks at the clock afterwards: `lastTick` is the time of the last look, 0 before the first.
   */
  datatype MonitorPhase =
    | Watching
    | Deciding(session: string, runtime: string, heartbeat: nat)
    | Calling(session: string, runtime: string)
    | Marking
  datatype HeartbeatMonitor = HeartbeatMonitor(timeout: nat, cancelled: bool, phase: MonitorPhase, lastTick: nat)

  datatype State = State(
    available: bool, now: nat, nextGen: nat,
    owner: Option<OwnerRecord>, adapter: Option<nat>, heartbeatCancel: Option<nat>,
    file: Option<OwnerRecord>,
    running: set<nat>,
    op: Operation,
    monitors: map<nat, HeartbeatMonitor>)

  datatype Event =
    | Advance(delta: nat)
    | Reserve(req: StartRequest, saved: bool)
    | AdapterStart(started: bool)
    | Publish
    | Arm
    | UndoFile(deleted: bool)
    | UndoMemory
    | StopBegin(caller: Caller, session: string, runtime: string)
    | AdapterStop(stopped: bool)
    | StopMark(saved: bool)
    | StopDelete(deleted: bool)
    | StopKeepStale
    | StopClear
    | Heartbeat(session: string, runtime: string, saved: bool)
    | Repair(deleted: bool)
    | MonitorTick(id: nat)
    | MonitorDecide(id: nat)
    | MonitorExit(id: nat)
    | LateMark(id: nat, saved: bool)
    | Restart(loaded: bool, saved: bool)

  // ----- Replies -----

  datatype StartVerdict =
    | StartUnsupported | StartInvalid | StartRefusedStale | StartAlreadyOwned | StartOwnedByOther | StartAccepted

  function StartCheck(s: State, req: StartRequest): StartVerdict {
    if !s.available then StartUnsupported
    else if req.session == "" || req.runtime == "" || req.profile == "" then StartInvalid
    else if req.mode != MACHINE_NETWORK then StartUnsupported
    else match s.owner
      case None => StartAccepted
      case Some(r) =>
        if r.stale then StartRefusedStale
        else if r.session == req.session && r.runtime == req.runtime then StartAlreadyOwned
        else StartOwnedByOther
  }

  datatype StopVerdict = StopNothing | StopInvalid | StopOwnedByOther | StopRefusedStale | StopAccepted

  function StopCheck(s: State, session: string, runtime: string): StopVerdict {
    match s.owner
    case None => StopNothing
    case Some(r) =>
      if session == "" || runtime == "" then StopInvalid
      else if r.session != session || r.runtime != runtime then StopOwnedByOther
      else if r.stale && s.adapter.None? then StopRefusedStale
      else StopAccepted
  }

  /** validateRunningOwnerLocked. */
  predicate HeartbeatAccepted(s: State, session: string, runtime: string) {
    && session != "" && runtime != ""
    && s.owner.Some? && !s.owner.value.stale
    && s.owner.value.session == session && s.owner.value.runtime == runtime
    && s.adapter.Some?
  }

  predicate RepairAccepted(s: State) {
    s.adapter.None? && s.owner.Some? && s.owner.value.stale
  }

  function TimeoutOf(timeoutMS: int): nat {
    if timeoutMS <= 0 then DEFAULT_HEARTBEAT_TIMEOUT else timeoutMS
  }

  // ----- Transitions -----

  predicate Enabled(s: State, e: Event) {
    match e
    case Advance(_) => true
    case Reserve(_, _) => s.op.NoOperation?
    case AdapterStart(_) => s.op.AdapterStarting?
    case Publish => s.op.AdapterStarted?
    case Arm => s.op.Arming?
    case UndoFile(_) => s.op.StartFailed?
    case UndoMemory => s.op.StartUndoing?
    case StopBegin(caller, session, runtime) =>
      && s.op.NoOperation?
      && (caller.Monitor? ==> caller.id in s.monitors && s.monitors[caller.id].phase == Calling(session, runtime))
    case AdapterStop(_) => s.op.AdapterStopping?
    case StopMark(_) => s.op.StopFailed?
    case StopDelete(_) => s.op.FileDeleting?
    case StopKeepStale => s.op.DeleteFailed?
    case StopClear => s.op.Clearing?
    case Heartbeat(_, _, _) => true
    case Repair(_) => true
    case MonitorTick(id) => id in s.monitors && s.monitors[id].phase.Watching?
    case MonitorDecide(id) => id in s.monitors && s.monitors[id].phase.Deciding?
    case MonitorExit(id) => id in s.monitors && s.monitors[id].phase.Watching? && s.monitors[id].cancelled
    case LateMark(id, _) => id in s.monitors && s.monitors[id].phase.Marking?
    case Restart(_, _) => true
  }

  function Stale(owner: Option<OwnerRecord>): Option<OwnerRecord> {
    match owner
    case None => None
    case Some(r) => Some(r.(stale := true))
  }

  /** markStale: the flag in memory, and the file when the save succeeds. */
  function MarkStale(s: State, saved: bool): State {
    if s.owner.None? then s
    else s.(owner := Stale(s.owner), file := if saved then Stale(s.owner) else s.file)
  }

  /** The stop has returned to the monitor that asked for it: an error makes it mark, success ends it. */
  function Returned(monitors: map<nat, HeartbeatMonitor>, caller: Caller, failed: bool): map<nat, HeartbeatMonitor> {
    match caller
    case Client => monitors
    case Monitor(id) =>
      if id !in monitors then monitors
      else if failed then monitors[id := monitors[id].(phase := Marking)]
      else monitors - {id}
  }

  function Cancelled(monitors: map<nat, HeartbeatMonitor>, cancel: Option<nat>): map<nat, HeartbeatMonitor> {
    if cancel.Some? && cancel.value in monitors
    then monitors[cancel.value := monitors[cancel.value].(cancelled := true)]
    else monitors
  }

  function ApplyReserve(s: State, req: StartRequest, saved: bool): State {
    if !StartCheck(s, req).StartAccepted? || !saved then s
    else
      var record := OwnerRecord(s.nextGen, req.session, req.runtime, req.profile, s.now, s.now, false);
      s.(owner := Some(record), file := Some(record), nextGen := s.nextGen + 1,
         op := AdapterStarting(record.gen, TimeoutOf(req.timeoutMS)))
  }

  function ApplyStopBegin(s: State, caller: Caller, session: string, runtime: string): State {
    match StopCheck(s, session, runtime)
    case StopAccepted =>
      s.(op := AdapterStopping(caller, s.adapter), heartbeatCancel := None,
         monitors := Cancelled(s.monitors, s.heartbeatCancel))
    case StopNothing => s.(monitors := Returned(s.monitors, caller, false))
    case _ => s.(monitors := Returned(s.monitors, caller, true))
  }

  function ApplyAdapterStop(s: State, stopped: bool): State
    requires s.op.AdapterStopping?
  {
    if s.op.handle.None? then s.(op := FileDeleting(s.op.caller))
    else if stopped then s.(running := s.running - {s.op.handle.value}, op := FileDeleting(s.op.caller))
    else s.(op := StopFailed(s.op.caller))
  }

  function ApplyHeartbeat(s: State, session: string, runtime: string, saved: bool): State {
    if !HeartbeatAccepted(s, session, runtime) then s
    else
      var beaten := Some(s.owner.value.(lastHeartbeat := s.now));
      s.(owner := beaten, file := if saved then beaten else s.file)
  }

  function ApplyTick(s: State, id: nat): State
    requires id in s.monitors
  {
    if s.owner.None? || s.owner.value.lastHeartbeat == 0 then s
    else
      var r := s.owner.value;
      s.(monitors := s.monitors[id := s.monitors[id].(phase := Deciding(r.session, r.runtime, r.lastHeartbeat))])
  }

  function ApplyDecide(s: State, id: nat): State
    requires id in s.monitors && s.monitors[id].phase.Deciding?
  {
    var m := s.monitors[id].(lastTick := s.now);
    if s.now - m.phase.heartbeat <= m.timeout
    then s.(monitors := s.monitors[id := m.(phase := Watching)])
    else s.(monitors := s.monitors[id := m.(phase := Calling(m.phase.session, m.phase.runtime))])
  }

  /** The process dies, taking its adapter with it, and NewController reads the owner file. */
  function ApplyRestart(s: State, loaded: bool, saved: bool): State {
    var record := if loaded then Stale(s.file) else None;
    s.(owner := record, adapter := None, heartbeatCancel := None, running := {}, op := NoOperation,
       monitors := map[], file := if record.Some? && saved then record else s.file)
  }

  function Apply(s: State, e: Event): State
    requires Enabled(s, e)
  {
    match e
    case Advance(delta) => s.(now := s.now + delta)
    case Reserve(req, saved) => ApplyReserve(s, req, saved)
    case AdapterStart(started) =>
      if started
      then s.(running := s.running + {s.op.gen}, op := AdapterStarted(s.op.gen, s.op.timeout))
      else s.(op := StartFailed(s.op.gen))
    case Publish =>
      var mine := s.owner.Some? && s.owner.value.gen == s.op.gen;
      s.(adapter := if mine then Some(s.op.gen) else s.adapter, op := Arming(s.op.gen, s.op.timeout))
    case Arm =>
      s.(op := NoOperation, heartbeatCancel := Some(s.op.gen),
         monitors := Cancelled(s.monitors, s.heartbeatCancel)
                       [s.op.gen := HeartbeatMonitor(s.op.timeout, false, Watching, 0)])
    case UndoFile(deleted) =>
      s.(file := if deleted then None else s.file, op := StartUndoing(s.op.gen))
    case UndoMemory =>
      var mine := s.owner.Some? && s.owner.value.gen == s.op.gen;
      s.(owner := if mine then None else s.owner,
         adapter := if s.adapter == Some(s.op.gen) then None else s.adapter, op := NoOperation)
    case StopBegin(caller, session, runtime) => ApplyStopBegin(s, caller, session, runtime)
    case AdapterStop(stopped) => ApplyAdapterStop(s, stopped)
    case StopMark(saved) =>
      MarkStale(s, saved).(op := NoOperation, monitors := Returned(s.monitors, s.op.caller, true))
    case StopDelete(deleted) =>
      if deleted then s.(file := None, op := Clearing(s.op.caller)) else s.(op := DeleteFailed(s.op.caller))
    case StopKeepStale =>
      s.(adapter := None, owner := Stale(s.owner), op := NoOperation,
         monitors := Returned(s.monitors, s.op.caller, true))
    case StopClear =>
      s.(adapter := None, owner := None, op := NoOperation,
         monitors := Returned(s.monitors, s.op.caller, false))
    case Heartbeat(session, runtime, saved) => ApplyHeartbeat(s, session, runtime, saved)
    case Repair(deleted) => if RepairAccepted(s) && deleted then s.(owner := None, file := None) else s
    case MonitorTick(id) => ApplyTick(s, id)
    case MonitorDecide(id) => ApplyDecide(s, id)
    case MonitorExit(id) => s.(monitors := s.monitors - {id})
    case LateMark(id, saved) => MarkStale(s, saved).(monitors := s.monitors - {id})
    case Restart(loaded, saved) => ApplyRestart(s, loaded, saved)
  }

  // ----- Runs -----

  ghost predicate Legal(s: State, run: seq<Event>)
    decreases |run|
  {
    run == [] || (Enabled(s, run[0]) && Legal(Apply(s, run[0]), run[1..]))
  }

  ghost function After(s: State, run: seq<Event>): State
    requires Legal(s, run)
    decreases |run|
  {
    if run == [] then s else After(Apply(s, run[0]), run[1..])
  }

  /** A provider that has just been installed: nothing in memory, nothing running, no owner file. */
  predicate Fresh(s: State) {
    && s.now > 0 && s.owner.None? && s.adapter.None? && s.heartbeatCancel.None? && s.file.None?
    && s.running == {} && s.op.NoOperation? && s.monitors == map[]
  }

  lemma {:induction false} AfterSplit(s: State, run: seq<Event>, more: seq<Event>)
    requires Legal(s, run) && Legal(After(s, run), more)
    ensures Legal(s, run + more) && After(s, run + more) == After(After(s, run), more)
    decreases |run|
  {
    if run == [] {
      assert run + more == more;
    } else {
      AfterSplit(Apply(s, run[0]), run[1..], more);
      assert (run + more)[1..] == run[1..] + more;
    }
  }

  /** One more event at the end of a run. */
  lemma Then(s: State, run: seq<Event>, t: State, e: Event) returns (run': seq<Event>, t': State)
    requires Legal(s, run) && After(s, run) == t && Enabled(t, e)
    ensures run' == run + [e] && t' == Apply(t, e)
    ensures Legal(s, run') && After(s, run') == t'
  {
    run', t' := run + [e], Apply(t, e);
    assert Legal(t', []) && After(t', []) == t';
    assert [e][1..] == [];
    assert Legal(t, [e]);
    AfterSplit(s, run, [e]);
  }

  /** `p` holds in every state of the run, the first and the last included. */
  ghost predicate Always(s: State, run: seq<Event>, p: State -> bool)
    requires Legal(s, run)
    decreases |run|
  {
    p(s) && (run == [] || Always(Apply(s, run[0]), run[1..], p))
  }

  /** No event of the run is a `bad` one in the state it happens in. */
  ghost predicate Never(s: State, run: seq<Event>, bad: (State, Event) -> bool)
    requires Legal(s, run)
    decreases |run|
  {
    run == [] || (!bad(s, run[0]) && Never(Apply(s, run[0]), run[1..], bad))
  }
}
