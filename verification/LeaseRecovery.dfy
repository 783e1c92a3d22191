/**
  What the lease promises after something has gone wrong: a crash of the provider is noticed by the next
  start, and a runtime whose client has gone away is reclaimed.
 */
module LeaseRecovery {
  import opened Options
  import opened Lease
  import opened LeaseSafety

  // ----- After a crash -----

  /** The owner left by a crash: nothing runs for it and no start is accepted. */
  predicate Blocked(s: State) {
    && s.op.NoOperation? && s.adapter.None? && s.file.Some?
    && s.owner.Some? && s.owner.value.stale
  }

  /** What lets starts in again: a repair that succeeds, or a restart that cannot read the owner file. */
  predicate Unblocks(s: State, e: Event) {
    (e.Repair? && e.deleted) || (e.Restart? && !e.loaded)
  }

  lemma CrashBlocksExactly(s: State, loaded: bool, saved: bool)
    ensures Blocked(Apply(s, Restart(loaded, saved))) <==> loaded && s.file.Some?
  {
  }

  /** A crash while an adapter runs, or may have started, is found by the next provider that reads the file. */
  lemma CrashIsNoticed(s: State, loaded: bool, saved: bool)
    requires Inv(s) && MaybeLive(s) != {}
    ensures Blocked(Apply(s, Restart(loaded, saved))) <==> loaded
  {
    InvIsSafe(s);
    CrashBlocksExactly(s, loaded, saved);
    var g :| g in MaybeLive(s);
    assert s.file.Some?;
  }

  /** Through any number of restarts, stops, heartbeats and failed repairs. */
  lemma {:induction false} BlockedExactly(s: State, run: seq<Event>)
    requires Blocked(s) && Legal(s, run)
    ensures Always(s, run, Blocked) <==> Never(s, run, Unblocks)
    decreases |run|
  {
    if run != [] {
      if Unblocks(s, run[0]) {
        assert !Always(Apply(s, run[0]), run[1..], Blocked);
      } else {
        BlockedExactly(Apply(s, run[0]), run[1..]);
      }
    }
  }

  lemma {:induction false} AlwaysAtEnd(s: State, run: seq<Event>, p: State -> bool)
    requires Legal(s, run) && Always(s, run, p)
    ensures p(After(s, run))
    decreases |run|
  {
    if run != [] {
      AlwaysAtEnd(Apply(s, run[0]), run[1..], p);
    }
  }

  /**
    Write-ahead, end to end: crash at any point of any safe run at which an adapter may be up, let the
    next provider read the file, and no start is accepted until something unblocks it.
   */
  lemma CrashRefusesStarts(s: State, run: seq<Event>, saved: bool, later: seq<Event>, req: StartRequest)
    requires Fresh(s) && Legal(s, run) && Never(s, run, RepairsDuringStart)
    requires MaybeLive(After(s, run)) != {}
    requires Legal(Apply(After(s, run), Restart(true, saved)), later)
    requires Never(Apply(After(s, run), Restart(true, saved)), later, Unblocks)
    ensures !StartCheck(After(Apply(After(s, run), Restart(true, saved)), later), req).StartAccepted?
  {
    SafeExactly(s, run);
    CrashIsNoticed(After(s, run), true, saved);
    var restarted := Apply(After(s, run), Restart(true, saved));
    BlockedExactly(restarted, later);
    AlwaysAtEnd(restarted, later, Blocked);
  }

  // ----- The owner file after its owner -----

  /** No file without an owner, and none under an owner that is about to be forgotten. */
  predicate FileFollowsOwner(s: State) {
    (s.owner.None? || s.op.Clearing? || s.op.StartUndoing?) ==> s.file.None?
  }

  predicate Forgetting(s: State) {
    s.op.Clearing? || s.op.StartUndoing?
  }

  /**
    What leaves a file behind: writing it again for an owner that is about to be forgotten, failing to
    delete it after a failed start, and a new process that cannot read it.
   */
  predicate LeavesFile(s: State, e: Event) {
    match e
    case Heartbeat(session, runtime, saved) => Forgetting(s) && saved && HeartbeatAccepted(s, session, runtime)
    case LateMark(_, saved) => Forgetting(s) && saved && s.owner.Some?
    case UndoFile(deleted) => !deleted && s.file.Some?
    case Restart(loaded, _) => !loaded && s.file.Some?
    case _ => false
  }

  lemma StepKeepsFile(s: State, e: Event)
    requires Enabled(s, e) && FileFollowsOwner(s)
    ensures FileFollowsOwner(Apply(s, e)) <==> !LeavesFile(s, e)
  {
  }

  /** Over every run, safe or not: the file goes with its owner exactly when nothing leaves it behind. */
  lemma {:induction false} FileFollowsOwnerExactly(s: State, run: seq<Event>)
    requires FileFollowsOwner(s) && Legal(s, run)
    ensures Always(s, run, FileFollowsOwner) <==> Never(s, run, LeavesFile)
    decreases |run|
  {
    if run != [] {
      StepKeepsFile(s, run[0]);
      if LeavesFile(s, run[0]) {
        assert !Always(Apply(s, run[0]), run[1..], FileFollowsOwner);
      } else {
        FileFollowsOwnerExactly(Apply(s, run[0]), run[1..]);
      }
    }
  }

  /** The file of a failed start that cannot be deleted. */
  lemma FailedStartLeavesFile(s: State, req: StartRequest) returns (run: seq<Event>, t: State)
    requires Fresh(s) && StartCheck(s, req).StartAccepted?
    ensures Legal(s, run) && After(s, run) == t
    ensures t.op.NoOperation? && t.owner.None? && t.adapter.None? && t.running == {} && t.file.Some?
  {
    assert Legal(s, []) && After(s, []) == s;
    run, t := Then(s, [], s, Reserve(req, true));
    run, t := Then(s, run, t, AdapterStart(false));
    run, t := Then(s, run, t, UndoFile(false));
    run, t := Then(s, run, t, UndoMemory);
  }

  /**
    The file may outlive the owner: a heartbeat lands between the deletion of the file and the clearing of
    the owner and writes the file again.
   */
  lemma HeartbeatRevivesFile(s: State, req: StartRequest) returns (run: seq<Event>, t: State)
    requires Fresh(s) && StartCheck(s, req).StartAccepted?
    ensures Legal(s, run) && After(s, run) == t
    ensures t.op.NoOperation? && t.owner.None? && t.adapter.None? && t.running == {} && t.file.Some?
  {
    run, t := StartRun(s, [], s, req);
    run, t := Then(s, run, t, StopBegin(Client, req.session, req.runtime));
    run, t := Then(s, run, t, AdapterStop(true));
    run, t := Then(s, run, t, StopDelete(true));
    run, t := Then(s, run, t, Heartbeat(req.session, req.runtime, true));
    run, t := Then(s, run, t, StopClear);
  }

  // ----- After a client has gone away -----

  /** The monitor of the live owner: on time, or already on its way to stop it. */
  predicate Armed(s: State, r: OwnerRecord) {
    && s.heartbeatCancel == Some(r.gen) && r.gen in s.monitors
    && var m := s.monitors[r.gen];
    && !m.cancelled
    && (m.phase == Calling(r.session, r.runtime)
        || (m.phase.Watching? && m.lastTick <= r.lastHeartbeat + m.timeout)
        || (m.phase.Deciding? && m.lastTick <= r.lastHeartbeat + m.timeout
            && m.phase == Deciding(r.session, r.runtime, m.phase.heartbeat) && m.phase.heartbeat <= r.lastHeartbeat))
  }

  /** Between operations, a live runtime whose owner is not stale has its monitor. */
  predicate Watched(s: State) {
    s.op.NoOperation? && Serving(s) && !s.owner.value.stale ==> Armed(s, s.owner.value)
  }

  lemma StepKeepsWatch(s: State, e: Event)
    requires Enabled(s, e) && Inv(s) && Watched(s) && !RepairsDuringStart(s, e)
    ensures Watched(Apply(s, e))
  {
  }

  lemma {:induction false} RunsAreWatched(s: State, run: seq<Event>)
    requires Inv(s) && Watched(s) && Legal(s, run) && Never(s, run, RepairsDuringStart)
    ensures Inv(After(s, run)) && Watched(After(s, run))
    decreases |run|
  {
    if run != [] {
      StepKeepsInv(s, run[0]);
      StepKeepsWatch(s, run[0]);
      RunsAreWatched(Apply(s, run[0]), run[1..]);
    }
  }

  /**
    The bound. Let h be the last heartbeat accepted for a runtime that still runs under an owner that is
    not stale. If its monitor has ticked after h + timeout, that monitor is on its way to stop it.
   */
  lemma OrphanIsNoticed(s: State, run: seq<Event>)
    requires Fresh(s) && Legal(s, run) && Never(s, run, RepairsDuringStart)
    requires var t := After(s, run);
             t.op.NoOperation? && t.running != {} && t.owner.Some? && !t.owner.value.stale
    ensures var t := After(s, run); var r := t.owner.value;
            && t.running == {r.gen} && r.gen in t.monitors && !t.monitors[r.gen].cancelled
            && (t.monitors[r.gen].lastTick > r.lastHeartbeat + t.monitors[r.gen].timeout
                ==> t.monitors[r.gen].phase == Calling(r.session, r.runtime))
  {
    RunsAreWatched(s, run);
  }

  /** No client asks to keep this runtime alive. */
  predicate Silent(run: seq<Event>, session: string, runtime: string) {
    forall e <- run :: !(e.Heartbeat? && e.session == session && e.runtime == runtime)
  }

  /** As long as record `r` owns the network and is not stale, it belongs to the same client. */
  predicate SameNames(s: State, r: OwnerRecord) {
    && r.gen < s.nextGen
    && (Owns(s, r.gen) && !s.owner.value.stale ==>
          s.owner.value.session == r.session && s.owner.value.runtime == r.runtime)
  }

  lemma {:induction false} RunsKeepNames(s: State, run: seq<Event>, r: OwnerRecord)
    requires SameNames(s, r) && Legal(s, run)
    ensures SameNames(After(s, run), r)
    decreases |run|
  {
    if run != [] {
      RunsKeepNames(Apply(s, run[0]), run[1..], r);
    }
  }

  /** As long as record `r` owns the network and is not stale, its last heartbeat is the one it had. */
  predicate Unbeaten(s: State, r: OwnerRecord) {
    SameNames(s, r) && (Owns(s, r.gen) && !s.owner.value.stale ==> s.owner.value.lastHeartbeat == r.lastHeartbeat)
  }

  lemma {:induction false} SilenceKeepsHeartbeat(s: State, run: seq<Event>, r: OwnerRecord)
    requires Unbeaten(s, r) && Legal(s, run) && Silent(run, r.session, r.runtime)
    ensures Unbeaten(After(s, run), r)
    decreases |run|
  {
    if run != [] {
      assert run[0] in run && Silent(run[1..], r.session, r.runtime);
      SilenceKeepsHeartbeat(Apply(s, run[0]), run[1..], r);
    }
  }

  /**
    A client whose stop was lost, whose retried stop asked for nothing, or whose start timed out, sends no
    heartbeat any more. Once the monitor of its runtime has ticked more than the timeout after the last
    one, the runtime has stopped, or its owner is stale, or that monitor is on its way to stop it.
   */
  lemma SilentClientIsNoticed(s: State, run: seq<Event>, r: OwnerRecord, later: seq<Event>)
    requires Fresh(s) && Legal(s, run) && Never(s, run, RepairsDuringStart)
    requires After(s, run).owner == Some(r) && Legal(After(s, run), later)
    requires Silent(later, r.session, r.runtime) && Never(After(s, run), later, RepairsDuringStart)
    requires var t := After(After(s, run), later); t.op.NoOperation? && r.gen in t.running
    ensures var t := After(After(s, run), later);
            && Owns(t, r.gen)
            && (t.owner.value.stale
                || (r.gen in t.monitors
                    && (t.monitors[r.gen].lastTick > r.lastHeartbeat + t.monitors[r.gen].timeout
                        ==> t.monitors[r.gen].phase == Calling(r.session, r.runtime))))
  {
    RunsAreWatched(s, run);
    RunsAreWatched(After(s, run), later);
    SilenceKeepsHeartbeat(After(s, run), later, r);
  }

  /** Runtime `g` has stopped, or its owner is stale, or an operation is stopping it. */
  predicate BeingReclaimed(s: State, g: nat) {
    && g < s.nextGen
    && (g !in MaybeLive(s)
        || (Owns(s, g) && s.owner.value.stale)
        || s.op.AdapterStopping? || s.op.StopFailed?)
  }

  /** The stop of the monitor is accepted, whoever else has been there meanwhile. */
  lemma ReclaimStarts(s: State, g: nat)
    requires Inv(s) && Watched(s) && s.op.NoOperation? && g in s.running && !s.owner.value.stale
    requires g in s.monitors && s.monitors[g].phase.Calling?
    ensures var m := s.monitors[g].phase; var e := StopBegin(Monitor(g), m.session, m.runtime);
            Enabled(s, e) && Apply(s, e).op == AdapterStopping(Monitor(g), Some(g)) && BeingReclaimed(Apply(s, e), g)
  {
  }

  lemma StepKeepsReclaim(s: State, e: Event, g: nat)
    requires Enabled(s, e) && Inv(s) && !RepairsDuringStart(s, e) && BeingReclaimed(s, g)
    ensures BeingReclaimed(Apply(s, e), g)
  {
  }

  /** Runtime `g` is being reclaimed, or its own monitor is about to ask for its stop. */
  predicate OnItsWay(s: State, g: nat) {
    || BeingReclaimed(s, g)
    || (g < s.nextGen && Owns(s, g) && g in s.monitors
        && s.monitors[g].phase == Calling(s.owner.value.session, s.owner.value.runtime))
  }

  lemma StepKeepsOnItsWay(s: State, e: Event, g: nat)
    requires Enabled(s, e) && Inv(s) && !RepairsDuringStart(s, e) && OnItsWay(s, g)
    ensures OnItsWay(Apply(s, e), g)
    ensures e.StopBegin? && e.caller == Monitor(g) ==> BeingReclaimed(Apply(s, e), g)
  {
    if BeingReclaimed(s, g) {
      StepKeepsReclaim(s, e, g);
    } else {
      InvIsSafe(s);
    }
  }

  lemma {:induction false} RunsKeepOnItsWay(s: State, run: seq<Event>, g: nat)
    requires Inv(s) && OnItsWay(s, g) && Legal(s, run) && Never(s, run, RepairsDuringStart)
    ensures Inv(After(s, run)) && OnItsWay(After(s, run), g)
    decreases |run|
  {
    if run != [] {
      StepKeepsInv(s, run[0]);
      StepKeepsOnItsWay(s, run[0], g);
      RunsKeepOnItsWay(Apply(s, run[0]), run[1..], g);
    }
  }

  /** Once a stop of it has begun, runtime `g` is stopped or stale whenever no operation is in progress. */
  lemma {:induction false} ReclaimFinishes(s: State, run: seq<Event>, g: nat)
    requires Inv(s) && BeingReclaimed(s, g) && Legal(s, run) && Never(s, run, RepairsDuringStart)
    ensures BeingReclaimed(After(s, run), g)
    ensures After(s, run).op.NoOperation? ==>
              g !in After(s, run).running || (Owns(After(s, run), g) && After(s, run).owner.value.stale)
    decreases |run|
  {
    if run != [] {
      StepKeepsInv(s, run[0]);
      StepKeepsReclaim(s, run[0], g);
      ReclaimFinishes(Apply(s, run[0]), run[1..], g);
    }
  }

  predicate Reclaimed(s: State, g: nat) {
    g !in s.running || (Owns(s, g) && s.owner.value.stale)
  }

  /**
    The stop that a monitor asks for is accepted if its runtime is live; and however it is answered, after
    it the runtime is stopped or its owner is stale whenever no operation is in progress, for ever.
   */
  lemma MonitorStopReclaims(s: State, run: seq<Event>, g: nat, session: string, runtime: string, later: seq<Event>)
    requires Fresh(s) && Legal(s, run) && Never(s, run, RepairsDuringStart)
    requires Enabled(After(s, run), StopBegin(Monitor(g), session, runtime))
    requires var t := Apply(After(s, run), StopBegin(Monitor(g), session, runtime));
             Legal(t, later) && Never(t, later, RepairsDuringStart)
    ensures var t := Apply(After(s, run), StopBegin(Monitor(g), session, runtime));
            && (g in After(s, run).running ==> After(s, run).owner.Some?)
            && (g in After(s, run).running && !After(s, run).owner.value.stale
                ==> t.op == AdapterStopping(Monitor(g), Some(g)))
            && (After(t, later).op.NoOperation? ==> Reclaimed(After(t, later), g))
  {
    RunsAreWatched(s, run);
    var e := StopBegin(Monitor(g), session, runtime);
    InvIsSafe(After(s, run));
    assert OnItsWay(After(s, run), g);
    if g in After(s, run).running && !After(s, run).owner.value.stale {
      ReclaimStarts(After(s, run), g);
    }
    StepKeepsInv(After(s, run), e);
    StepKeepsOnItsWay(After(s, run), e, g);
    ReclaimFinishes(Apply(After(s, run), e), later, g);
  }

  /**
    The orphan bound, end to end. A runtime has had its last heartbeat at r.lastHeartbeat and its client is
    silent from then on; its monitor looks at the clock more than the timeout later. Then, whatever comes
    after, the runtime is stopped or its owner is stale whenever no operation is in progress, or that
    monitor still has to ask for the stop.
   */
  lemma OrphanIsReclaimed(s: State, run: seq<Event>, r: OwnerRecord, silence: seq<Event>, later: seq<Event>)
    requires Fresh(s) && Legal(s, run) && Never(s, run, RepairsDuringStart)
    requires After(s, run).owner == Some(r) && Legal(After(s, run), silence)
    requires Silent(silence, r.session, r.runtime) && Never(After(s, run), silence, RepairsDuringStart)
    requires var t := After(After(s, run), silence);
             && t.op.NoOperation? && r.gen in t.monitors
             && t.monitors[r.gen].lastTick > r.lastHeartbeat + t.monitors[r.gen].timeout
             && Legal(t, later) && Never(t, later, RepairsDuringStart)
    ensures var u := After(After(After(s, run), silence), later);
            u.op.NoOperation? ==>
              || Reclaimed(u, r.gen)
              || (r.gen in u.monitors && u.monitors[r.gen].phase == Calling(r.session, r.runtime))
  {
    var t := After(After(s, run), silence);
    RunsAreWatched(s, run);
    RunsAreWatched(After(s, run), silence);
    if r.gen in t.running {
      SilentClientIsNoticed(s, run, r, silence);
    }
    SilenceKeepsHeartbeat(After(s, run), silence, r);
    InvIsSafe(t);
    assert OnItsWay(t, r.gen);
    RunsKeepOnItsWay(t, later, r.gen);
    RunsKeepNames(t, later, r);
  }
}
