/**
  The other half of the lease: a runtime whose client keeps beating is not stopped by its monitor, and a
  provider never has two monitors at work.
 */
module LeaseLiveness {
  import opened Options
  import opened Lease
  import opened LeaseSafety

  // ----- Signs of life -----

  /** The event starts the owner that is in memory after it, or is an accepted heartbeat of it. */
  predicate SignOfLife(s: State, e: Event) {
    match e
    case Reserve(req, saved) =>
      && saved && s.owner.None? && s.available && req.mode == "machine_network"
      && req.session != "" && req.runtime != "" && req.profile != ""
    case Heartbeat(session, runtime, _) =>
      && s.owner.Some? && s.adapter.Some? && !s.owner.value.stale && session != "" && runtime != ""
      && s.owner.value.session == session && s.owner.value.runtime == runtime
    case _ => false
  }

  /** When the last sign of life came in this run; nothing when none has since the last restart. */
  ghost function LastSign(s: State, run: seq<Event>, before: Option<nat>): Option<nat>
    requires Legal(s, run)
    decreases |run|
  {
    if run == [] then before
    else
      LastSign(Apply(s, run[0]), run[1..],
               if SignOfLife(s, run[0]) then Some(s.now) else if run[0].Restart? then None else before)
  }

  /** The owner's record says when the last sign came; without one there is nothing to watch. */
  predicate Signed(s: State, sign: Option<nat>) {
    match sign
    case Some(at) => 0 < at <= s.now && (s.owner.Some? ==> s.owner.value.lastHeartbeat == at)
    case None =>
      && s.monitors == map[] && s.op.NoOperation? && s.adapter.None?
      && (s.owner.Some? ==> s.owner.value.stale)
  }

  lemma StepKeepsSigned(s: State, e: Event, sign: Option<nat>)
    requires Enabled(s, e) && s.now > 0 && Signed(s, sign)
    ensures Apply(s, e).now > 0
    ensures Signed(Apply(s, e), if SignOfLife(s, e) then Some(s.now) else if e.Restart? then None else sign)
  {
  }

  lemma {:induction false} RecordTellsLastSign(s: State, run: seq<Event>, sign: Option<nat>)
    requires s.now > 0 && Signed(s, sign) && Legal(s, run)
    ensures After(s, run).now > 0 && Signed(After(s, run), LastSign(s, run, sign))
    decreases |run|
  {
    if run != [] {
      StepKeepsSigned(s, run[0], sign);
      RecordTellsLastSign(Apply(s, run[0]), run[1..],
                          if SignOfLife(s, run[0]) then Some(s.now) else if run[0].Restart? then None else sign);
    }
  }

  // ----- From the tick of a monitor to its decision -----

  /** A stop is at work for monitor `id`. */
  predicate StopsFor(op: Operation, id: nat) {
    && (op.AdapterStopping? || op.StopFailed? || op.FileDeleting? || op.DeleteFailed? || op.Clearing?)
    && op.caller == Monitor(id)
  }

  /** A monitor's name is never given out again while it is there, and a stop for it finds it waiting. */
  predicate Apart(s: State) {
    && (forall id <- s.monitors :: id < s.nextGen && (StopsFor(s.op, id) ==> s.monitors[id].phase.Calling?))
    && (s.op.AdapterStarting? || s.op.AdapterStarted? || s.op.Arming? ==>
          s.op.gen < s.nextGen && s.op.gen !in s.monitors)
  }

  lemma StepKeepsApart(s: State, e: Event)
    requires Enabled(s, e) && Apart(s)
    ensures Apart(Apply(s, e))
  {
  }

  lemma {:induction false} RunsKeepApart(s: State, run: seq<Event>)
    requires Apart(s) && Legal(s, run)
    ensures Apart(After(s, run))
    decreases |run|
  {
    if run != [] {
      StepKeepsApart(s, run[0]);
      RunsKeepApart(Apply(s, run[0]), run[1..]);
    }
  }

  /** Monitor `id` is about to decide on what it read, or is gone for good. */
  predicate Holds(s: State, id: nat, read: MonitorPhase, timeout: nat) {
    && Apart(s) && id < s.nextGen
    && (s.op.AdapterStarting? || s.op.AdapterStarted? || s.op.Arming? ==> s.op.gen != id)
    && (id in s.monitors ==> s.monitors[id].phase == read && s.monitors[id].timeout == timeout)
  }

  lemma {:induction false} HoldsUntilDecision(s: State, run: seq<Event>, id: nat, read: MonitorPhase, timeout: nat)
    requires read.Deciding? && Holds(s, id, read, timeout) && Legal(s, run) && MonitorDecide(id) !in run
    ensures Holds(After(s, run), id, read, timeout)
    decreases |run|
  {
    if run != [] {
      assert run[0] in run;
      StepKeepsApart(s, run[0]);
      HoldsUntilDecision(Apply(s, run[0]), run[1..], id, read, timeout);
    }
  }

  /**
    A monitor goes on to stop the runtime exactly when, as it read the owner, the last sign of life of this
    run lay more than the timeout before its look at the clock. So a client whose heartbeats are accepted in
    time keeps its runtime, in every run, whatever else happens.
   */
  lemma OnlyTheSilentAreStopped(s: State, before: seq<Event>, id: nat, between: seq<Event>)
    requires Fresh(s) && Legal(s, before) && Enabled(After(s, before), MonitorTick(id))
    requires var read := Apply(After(s, before), MonitorTick(id));
             && read.monitors[id].phase.Deciding?
             && Legal(read, between) && MonitorDecide(id) !in between
             && Enabled(After(read, between), MonitorDecide(id))
    ensures var read := Apply(After(s, before), MonitorTick(id));
            var looks := After(read, between);
            var sign := LastSign(s, before, None);
            && sign.Some?
            && (Apply(looks, MonitorDecide(id)).monitors[id].phase.Calling?
                <==> looks.now > sign.value + After(s, before).monitors[id].timeout)
  {
    var t := After(s, before);
    RecordTellsLastSign(s, before, None);
    RunsKeepApart(s, before);
    var read := Apply(t, MonitorTick(id));
    HoldsUntilDecision(read, between, id, read.monitors[id].phase, t.monitors[id].timeout);
  }

  // ----- One monitor at a time -----

  /** The only monitor that has not been told to go is the one whose context the controller holds. */
  ghost predicate OneMonitor(s: State) {
    forall id <- s.monitors :: !s.monitors[id].cancelled ==> s.heartbeatCancel == Some(id)
  }

  lemma StepKeepsOneMonitor(s: State, e: Event)
    requires Enabled(s, e) && OneMonitor(s)
    ensures OneMonitor(Apply(s, e))
  {
  }

  /** In every run. */
  lemma {:induction false} RunsKeepOneMonitor(s: State, run: seq<Event>)
    requires OneMonitor(s) && Legal(s, run)
    ensures OneMonitor(After(s, run))
    decreases |run|
  {
    if run != [] {
      StepKeepsOneMonitor(s, run[0]);
      RunsKeepOneMonitor(Apply(s, run[0]), run[1..]);
    }
  }

  /** The context that the controller holds is that of the adapter's monitor, from arming to the next stop. */
  predicate CancelFollowsAdapter(s: State) {
    match s.op
    case NoOperation => s.heartbeatCancel.Some? ==> s.heartbeatCancel == s.adapter
    case _ => s.heartbeatCancel.None?
  }

  lemma StepKeepsCancel(s: State, e: Event)
    requires Enabled(s, e) && Inv(s) && CancelFollowsAdapter(s)
    ensures CancelFollowsAdapter(Apply(s, e))
  {
  }

  lemma {:induction false} RunsKeepCancel(s: State, run: seq<Event>)
    requires Inv(s) && CancelFollowsAdapter(s) && Legal(s, run) && Never(s, run, RepairsDuringStart)
    ensures Inv(After(s, run)) && CancelFollowsAdapter(After(s, run))
    decreases |run|
  {
    if run != [] {
      StepKeepsInv(s, run[0]);
      StepKeepsCancel(s, run[0]);
      RunsKeepCancel(Apply(s, run[0]), run[1..]);
    }
  }

  /** No monitor outlives its runtime: at rest, one that has not been told to go has its own adapter running. */
  lemma NoMonitorOutlivesItsRuntime(s: State, run: seq<Event>)
    requires Fresh(s) && Legal(s, run) && Never(s, run, RepairsDuringStart) && After(s, run).op.NoOperation?
    ensures var t := After(s, run);
            forall id <- t.monitors | !t.monitors[id].cancelled :: t.adapter == Some(id) && t.running == {id}
  {
    RunsKeepOneMonitor(s, run);
    RunsKeepCancel(s, run);
  }

  // ----- A monitor asks for one stop -----

  /** The stop requests of monitor `id`. */
  function Asks(run: seq<Event>, id: nat): nat {
    if run == [] then 0
    else (if run[0].StopBegin? && run[0].caller == Monitor(id) then 1 else 0) + Asks(run[1..], id)
  }

  /** Monitor `id` has asked: it waits for the answer, is about to mark, or is gone for good. */
  predicate HasAsked(s: State, id: nat) {
    && Apart(s) && id < s.nextGen
    && (s.op.AdapterStarting? || s.op.AdapterStarted? || s.op.Arming? ==> s.op.gen != id)
    && (id in s.monitors ==> s.monitors[id].phase.Marking? || StopsFor(s.op, id))
  }

  lemma StepKeepsAsked(s: State, e: Event, id: nat)
    requires HasAsked(s, id) && Enabled(s, e) && Apart(Apply(s, e))
    ensures HasAsked(Apply(s, e), id) && !(e.StopBegin? && e.caller == Monitor(id))
  {
  }

  lemma {:induction false} NeverAsksAgain(s: State, run: seq<Event>, id: nat)
    requires HasAsked(s, id) && Legal(s, run)
    ensures Asks(run, id) == 0
    decreases |run|
  {
    if run != [] {
      StepKeepsApart(s, run[0]);
      StepKeepsAsked(s, run[0], id);
      NeverAsksAgain(Apply(s, run[0]), run[1..], id);
    }
  }

  /** However its stop is answered, a monitor does not ask for another. */
  lemma {:induction false} MonitorsAskOnce(s: State, run: seq<Event>, id: nat)
    requires Apart(s) && Legal(s, run)
    ensures Asks(run, id) <= 1
    decreases |run|
  {
    if run != [] {
      StepKeepsApart(s, run[0]);
      if run[0].StopBegin? && run[0].caller == Monitor(id) {
        NeverAsksAgain(Apply(s, run[0]), run[1..], id);
      } else {
        MonitorsAskOnce(Apply(s, run[0]), run[1..], id);
      }
    }
  }

  // ----- The file tells who the owner is -----

  /** File and memory hold one record, or records of two owners. */
  predicate FileTellsOwner(s: State) {
    && (s.owner.Some? ==> s.owner.value.gen < s.nextGen) && (s.file.Some? ==> s.file.value.gen < s.nextGen)
    && (s.owner.Some? && s.file.Some? && s.owner.value.gen == s.file.value.gen ==>
          && s.file.value.session == s.owner.value.session && s.file.value.runtime == s.owner.value.runtime
          && s.file.value.profile == s.owner.value.profile && s.file.value.startedAt == s.owner.value.startedAt)
  }

  lemma StepKeepsFileTellsOwner(s: State, e: Event)
    requires Enabled(s, e) && FileTellsOwner(s)
    ensures FileTellsOwner(Apply(s, e))
  {
  }

  /** In every run, so a restart finds the session, runtime and profile that were running. */
  lemma {:induction false} RunsKeepFileTellsOwner(s: State, run: seq<Event>)
    requires FileTellsOwner(s) && Legal(s, run)
    ensures FileTellsOwner(After(s, run))
    decreases |run|
  {
    if run != [] {
      StepKeepsFileTellsOwner(s, run[0]);
      RunsKeepFileTellsOwner(Apply(s, run[0]), run[1..]);
    }
  }
}
