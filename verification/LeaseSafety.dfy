/**
  What every interleaving of the lease keeps: at most one adapter, tied to the owner in memory, and an
  owner file on disk for as long as an adapter runs. One interleaving breaks it, and exactly that one.
 */
module LeaseSafety {
  import opened Options
  import opened Lease

  /** The adapters that run, with the one whose Start has been called and has not returned. */
  function MaybeLive(s: State): set<nat> {
    s.running + if s.op.AdapterStarting? then {s.op.gen} else {}
  }

  /** At most one adapter, and it belongs to the owner in memory. */
  ghost predicate Exclusive(s: State) {
    && (forall g <- MaybeLive(s) :: s.owner.Some? && s.owner.value.gen == g)
    && (s.adapter.Some? ==> s.owner.Some? && s.owner.value.gen == s.adapter.value)
  }

  /** A crash at this point leaves the owner file of the adapter behind. */
  ghost predicate WrittenAhead(s: State) {
    forall g <- MaybeLive(s) :: s.file.Some? && s.file.value.gen == g
  }

  ghost predicate Safe(s: State) {
    Exclusive(s) && WrittenAhead(s)
  }

  /** A repair clears the owner of a start that is still in flight. */
  predicate RepairsDuringStart(s: State, e: Event) {
    && e.Repair? && e.deleted && RepairAccepted(s)
    && (s.op.AdapterStarting? || s.op.AdapterStarted?)
  }

  predicate StartInFlight(s: State) {
    s.op.AdapterStarting? || s.op.AdapterStarted?
  }

  // ----- The invariant -----

  /** Records carry the names of earlier objects; one that is not stale was written by a start of this process. */
  predicate RecordsBounded(s: State) {
    && s.now > 0
    && (s.owner.Some? ==>
          && s.owner.value.gen < s.nextGen
          && (!s.owner.value.stale ==>
                && s.owner.value.session != "" && s.owner.value.runtime != ""
                && 0 < s.owner.value.lastHeartbeat <= s.now))
    && (s.file.Some? ==> s.file.value.gen < s.nextGen)
  }

  ghost predicate MonitorsBounded(s: State) {
    forall id <- s.monitors :: id < s.nextGen && s.monitors[id].lastTick <= s.now
  }

  predicate Owns(s: State, g: nat) {
    s.owner.Some? && s.owner.value.gen == g
  }

  predicate OnFile(s: State, g: nat) {
    s.file.Some? && s.file.value.gen == g
  }

  /** The adapter in memory runs and is on file. */
  predicate Serving(s: State) {
    && s.adapter.Some? && Owns(s, s.adapter.value) && OnFile(s, s.adapter.value)
    && s.running == {s.adapter.value}
  }

  /** The adapter in memory has stopped and its handle is still there. */
  predicate Drained(s: State) {
    s.adapter.Some? && Owns(s, s.adapter.value) && s.running == {}
  }

  predicate Phased(s: State) {
    match s.op
    case NoOperation =>
      Serving(s) || (s.adapter.None? && s.running == {} && (s.owner.Some? ==> s.owner.value.stale))
    case AdapterStarting(g, _) =>
      s.adapter.None? && s.running == {} && Owns(s, g) && OnFile(s, g) && g !in s.monitors
    case AdapterStarted(g, _) =>
      s.adapter.None? && s.running == {g} && Owns(s, g) && OnFile(s, g) && g !in s.monitors
    case Arming(g, _) => Serving(s) && s.adapter == Some(g) && g !in s.monitors
    case StartFailed(g) => s.adapter.None? && s.running == {} && (s.owner.Some? ==> Owns(s, g))
    case StartUndoing(g) => s.adapter.None? && s.running == {} && (s.owner.Some? ==> Owns(s, g))
    case AdapterStopping(_, h) => Serving(s) && h == s.adapter
    case StopFailed(_) => Serving(s)
    case FileDeleting(_) => Drained(s)
    case DeleteFailed(_) => Drained(s)
    case Clearing(_) => Drained(s)
  }

  ghost predicate Inv(s: State) {
    RecordsBounded(s) && MonitorsBounded(s) && Phased(s)
  }

  /** A process that has just started, with a stale owner or none. */
  predicate Restarted(s: State) {
    && s.op.NoOperation? && s.adapter.None? && s.running == {} && s.monitors == map[]
    && (s.owner.Some? ==> s.owner.value.stale) && RecordsBounded(s)
  }

  lemma InvIsSafe(s: State)
    requires Inv(s)
    ensures Safe(s)
  {
  }

  /** The events that take `mu` without holding `opMu`, and those of the world outside. */
  predicate Outside(e: Event) {
    || e.Advance? || e.Heartbeat? || e.Repair? || e.Restart?
    || e.MonitorTick? || e.MonitorDecide? || e.MonitorExit? || e.LateMark?
  }

  lemma OutsideKeepsRecords(s: State, e: Event)
    requires Enabled(s, e) && Inv(s) && Outside(e)
    ensures RecordsBounded(Apply(s, e))
  {
  }

  lemma OperationKeepsRecords(s: State, e: Event)
    requires Enabled(s, e) && Inv(s) && !Outside(e)
    ensures RecordsBounded(Apply(s, e))
  {
  }

  lemma StepKeepsMonitors(s: State, e: Event)
    requires Enabled(s, e) && Inv(s)
    ensures MonitorsBounded(Apply(s, e))
  {
  }

  lemma OutsideKeepsPhase(s: State, e: Event)
    requires Enabled(s, e) && Inv(s) && Outside(e) && !RepairsDuringStart(s, e)
    ensures Phased(Apply(s, e))
  {
  }

  lemma OperationKeepsPhase(s: State, e: Event)
    requires Enabled(s, e) && Inv(s) && !Outside(e)
    ensures Phased(Apply(s, e))
  {
  }

  lemma RepairDuringStartIsUnsafe(s: State, e: Event)
    requires Enabled(s, e) && Inv(s) && RepairsDuringStart(s, e)
    ensures !WrittenAhead(Apply(s, e)) && !Phased(Apply(s, e))
  {
    assert s.op.gen in MaybeLive(Apply(s, e));
  }

  lemma StepKeepsInv(s: State, e: Event)
    requires Enabled(s, e) && Inv(s)
    ensures Inv(Apply(s, e)) <==> !RepairsDuringStart(s, e)
    ensures RepairsDuringStart(s, e) ==> !Safe(Apply(s, e))
  {
    if RepairsDuringStart(s, e) {
      RepairDuringStartIsUnsafe(s, e);
    } else {
      StepKeepsMonitors(s, e);
      if Outside(e) {
        OutsideKeepsRecords(s, e);
        OutsideKeepsPhase(s, e);
      } else {
        OperationKeepsRecords(s, e);
        OperationKeepsPhase(s, e);
      }
    }
  }

  /**
    A run of the lease is safe at every point exactly when no repair clears the owner of a start in
    flight: the whole of the failing family, and nothing else.
   */
  lemma {:induction false} SafeExactly(s: State, run: seq<Event>)
    requires Inv(s) && Legal(s, run)
    ensures Always(s, run, Safe) <==> Never(s, run, RepairsDuringStart)
    ensures Never(s, run, RepairsDuringStart) ==> Inv(After(s, run))
    decreases |run|
  {
    InvIsSafe(s);
    if run != [] {
      StepKeepsInv(s, run[0]);
      if RepairsDuringStart(s, run[0]) {
        assert !Always(Apply(s, run[0]), run[1..], Safe);
      } else {
        SafeExactly(Apply(s, run[0]), run[1..]);
      }
    }
  }

  // ----- Where the repair of a live start comes from -----

  /** The stale mark a monitor sets after its stop has returned, landing on another start. */
  predicate MarksDuringStart(s: State, e: Event) {
    e.LateMark? && StartInFlight(s)
  }

  ghost predicate StartsUnmarked(s: State) {
    StartInFlight(s) ==> s.owner.Some? && !s.owner.value.stale
  }

  /** When the stop and the mark of a monitor are one step, as its caller reads them, every run is safe. */
  lemma {:induction false} TimelyMarksAreSafe(s: State, run: seq<Event>)
    requires Inv(s) && StartsUnmarked(s) && Legal(s, run)
    requires Never(s, run, MarksDuringStart)
    ensures Always(s, run, Safe) && Never(s, run, RepairsDuringStart)
    decreases |run|
  {
    InvIsSafe(s);
    if run != [] {
      StepKeepsInv(s, run[0]);
      TimelyMarksAreSafe(Apply(s, run[0]), run[1..]);
    }
  }

  /** A start, as far as the section that publishes its adapter and the one that arms its monitor. */
  lemma StartRun(s: State, run: seq<Event>, t: State, req: StartRequest)
    returns (run': seq<Event>, t': State)
    requires Legal(s, run) && After(s, run) == t
    requires t.op.NoOperation? && StartCheck(t, req).StartAccepted? && t.heartbeatCancel.None?
    ensures run' == run + [Reserve(req, true), AdapterStart(true), Publish, Arm]
    ensures Legal(s, run') && After(s, run') == t'
    ensures t' == t.(
      owner := Some(OwnerRecord(t.nextGen, req.session, req.runtime, req.profile, t.now, t.now, false)),
      file := t'.owner, adapter := Some(t.nextGen), heartbeatCancel := t'.adapter,
      running := t.running + {t.nextGen}, nextGen := t.nextGen + 1,
      monitors := t.monitors[t.nextGen := HeartbeatMonitor(TimeoutOf(req.timeoutMS), false, Watching, 0)])
  {
    run', t' := Then(s, run, t, Reserve(req, true));
    run', t' := Then(s, run', t', AdapterStart(true));
    run', t' := Then(s, run', t', Publish);
    run', t' := Then(s, run', t', Arm);
  }

  /** The heartbeats stop, and the monitor is about to stop the runtime. */
  lemma MonitorExpires(s: State, req: StartRequest) returns (run: seq<Event>, t: State)
    requires Fresh(s) && StartCheck(s, req).StartAccepted?
    ensures Legal(s, run) && After(s, run) == t
    ensures t.op.NoOperation? && t.adapter == Some(s.nextGen) && t.running == {s.nextGen}
    ensures t.owner.Some? && t.owner.value.session == req.session && t.owner.value.runtime == req.runtime
    ensures !t.owner.value.stale && t.heartbeatCancel == Some(s.nextGen)
    ensures t.available == s.available && t.nextGen == s.nextGen + 1
    ensures s.nextGen in t.monitors && t.monitors[s.nextGen].phase == Calling(req.session, req.runtime)
  {
    var id := s.nextGen;
    run, t := StartRun(s, [], s, req);
    run, t := Then(s, run, t, Advance(TimeoutOf(req.timeoutMS) + 1));
    run, t := Then(s, run, t, MonitorTick(id));
    run, t := Then(s, run, t, MonitorDecide(id));
  }

  /** The heartbeats stop, the monitor's own stop fails, and its mark is still to come. */
  lemma ReclaimFails(s: State, req: StartRequest) returns (run: seq<Event>, t: State)
    requires Fresh(s) && StartCheck(s, req).StartAccepted?
    ensures Legal(s, run) && After(s, run) == t
    ensures t.op.NoOperation? && t.adapter == Some(s.nextGen) && t.running == {s.nextGen}
    ensures t.owner.Some? && t.owner.value.session == req.session && t.owner.value.runtime == req.runtime
    ensures t.heartbeatCancel.None? && t.available && t.nextGen == s.nextGen + 1
    ensures s.nextGen in t.monitors && t.monitors[s.nextGen].phase.Marking?
  {
    run, t := MonitorExpires(s, req);
    run, t := Then(s, run, t, StopBegin(Monitor(s.nextGen), req.session, req.runtime));
    run, t := Then(s, run, t, AdapterStop(false));
    run, t := Then(s, run, t, StopMark(true));
  }

  /** The session's own retry then succeeds, and the mark is still to come. */
  lemma MarkOutlivesItsOwner(s: State, req: StartRequest) returns (run: seq<Event>, t: State)
    requires Fresh(s) && StartCheck(s, req).StartAccepted?
    ensures Legal(s, run) && After(s, run) == t
    ensures t.op.NoOperation? && t.owner.None? && t.adapter.None? && t.running == {} && t.heartbeatCancel.None?
    ensures t.available && t.nextGen == s.nextGen + 1
    ensures s.nextGen in t.monitors && t.monitors[s.nextGen].phase.Marking?
  {
    run, t := ReclaimFails(s, req);
    run, t := Then(s, run, t, StopBegin(Client, req.session, req.runtime));
    run, t := Then(s, run, t, AdapterStop(true));
    run, t := Then(s, run, t, StopDelete(true));
    run, t := Then(s, run, t, StopClear);
  }

  /** From any fresh provider there is a run that ends with two adapters on the network. */
  lemma LateMarkBreaksExclusion(s: State, a: StartRequest, b: StartRequest, c: StartRequest)
    returns (run: seq<Event>)
    requires Fresh(s)
    requires StartCheck(s, a).StartAccepted? && StartCheck(s, b).StartAccepted? && StartCheck(s, c).StartAccepted?
    ensures Legal(s, run)
    ensures After(s, run).running == {s.nextGen + 1, s.nextGen + 2}
  {
    var t: State;
    run, t := MarkOutlivesItsOwner(s, a);
    run, t := Then(s, run, t, Reserve(b, true));
    run, t := Then(s, run, t, LateMark(s.nextGen, true));
    run, t := Then(s, run, t, Repair(true));
    run, t := Then(s, run, t, AdapterStart(true));
    run, t := Then(s, run, t, Publish);
    run, t := Then(s, run, t, Arm);
    run, t := Then(s, run, t, Reserve(c, true));
    run, t := Then(s, run, t, AdapterStart(true));
  }
}
