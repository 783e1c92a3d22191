/**
  The provider's Controller: its fields, its operations section by section, and the other threads that
  run between two sections. Every operation is proved to be a run of the machine of module Lease, so
  what is proved of all runs holds of the code.
 */
module LeaseController {
  import opened Options
  import opened Lease
  import opened LeaseSafety

  datatype ProviderError =
    | PlatformFeatureUnsupported | IPCInvalidRequest | ProviderRuntimeStale | NetworkModeOwnedByAnotherSession
    | Internal | ProviderRuntimeStartFailed | ProviderRuntimeStopFailed | ProviderRuntimeUnavailable
    | PlatformRepairFailed

  datatype Reply = Done | Noop | Failed(error: ProviderError)

  /** The events of the operation that holds `opMu`. */
  predicate OfOperation(e: Event) {
    match e
    case Reserve(_, _) => true
    case AdapterStart(_) => true
    case Publish => true
    case Arm => true
    case UndoFile(_) => true
    case UndoMemory => true
    case StopBegin(_, _, _) => true
    case AdapterStop(_) => true
    case StopMark(_) => true
    case StopDelete(_) => true
    case StopKeepStale => true
    case StopClear => true
    case _ => false
  }

  /** The other threads: time, heartbeats, repairs and monitors, but not another holder of `opMu`. */
  predicate OfOthers(e: Event) {
    !OfOperation(e) && !e.Restart?
  }

  ghost function OperationEvents(run: seq<Event>): seq<Event> {
    if run == [] then []
    else
      var last := |run| - 1;
      OperationEvents(run[..last]) + if OfOperation(run[last]) then [run[last]] else []
  }

  lemma OperationEventsThen(run: seq<Event>, e: Event)
    ensures OperationEvents(run + [e]) == OperationEvents(run) + if OfOperation(e) then [e] else []
  {
    assert (run + [e])[..|run|] == run;
  }

  /** One record object, whatever heartbeats and stale marks have done to it. */
  predicate SameRecord(a: OwnerRecord, b: OwnerRecord) {
    a == b.(lastHeartbeat := a.lastHeartbeat, stale := a.stale)
  }

  /** What the other threads may do to the state while an operation is between two of its sections. */
  ghost predicate Rely(s: State, t: State) {
    && t.available == s.available && t.op == s.op && t.nextGen == s.nextGen
    && t.running == s.running && t.adapter == s.adapter && t.heartbeatCancel == s.heartbeatCancel
    && s.now <= t.now
    && (t.owner.Some? ==>
          && s.owner.Some?
          && SameRecord(t.owner.value, s.owner.value)
          && (s.owner.value.stale ==> t.owner.value.stale))
  }

  lemma OthersKeepRely(s: State, t: State, e: Event)
    requires Rely(s, t) && OfOthers(e) && Enabled(t, e)
    ensures Rely(s, Apply(t, e))
  {
  }

  lemma OthersKeepAvailable(s: State, e: Event)
    requires OfOthers(e) && Enabled(s, e)
    ensures Apply(s, e).available == s.available
  {
  }

  class Controller {
    const available: bool
    var owner: Option<OwnerRecord>
    var adapter: Option<nat>
    var heartbeatCancel: Option<nat>
    // The world the controller acts on, and the program points of the threads.
    var file: Option<OwnerRecord>
    var now: nat
    var nextGen: nat
    var running: set<nat>
    var op: Operation
    var monitors: map<nat, HeartbeatMonitor>
    ghost const initial: State
    ghost var trace: seq<Event>
    /** The events of `trace` that belong to holders of `opMu`: what the operations did, in order. */
    ghost var own: seq<Event>

    function View(): State
      reads this
    {
      State(available, now, nextGen, owner, adapter, heartbeatCancel, file, running, op, monitors)
    }

    ghost predicate Valid()
      reads this
    {
      Restarted(initial) && Legal(initial, trace) && After(initial, trace) == View()
      && own == OperationEvents(trace)
    }

    /** NewController: `found` is the owner file, which may fail to load or to be saved again. */
    constructor (available: bool, now: nat, found: Option<OwnerRecord>, loaded: bool, saved: bool)
      requires now > 0
      ensures Valid() && op.NoOperation? && (found.Some? ==> found.value.gen < nextGen)
      ensures View() == Apply(State(available, now, nextGen, None, None, None, found, {}, NoOperation, map[]),
                              Restart(loaded, saved))
    {
      this.available := available;
      var nextGen := if found.Some? then found.value.gen + 1 else 0;
      this.now, this.nextGen := now, nextGen;
      adapter, heartbeatCancel, running, op, monitors := None, None, {}, NoOperation, map[];
      owner, file := None, found;
      if loaded && found.Some? {
        owner := Some(found.value.(stale := true));
        if saved {
          file := Some(found.value.(stale := true));
        }
      }
      var dead := State(available, now, nextGen, None, None, None, found, {}, NoOperation, map[]);
      initial := Apply(dead, Restart(loaded, saved));
      trace, own := [], [];
    }

    ghost method Record(e: Event, before: State)
      requires Restarted(initial) && Legal(initial, trace) && After(initial, trace) == before
      requires own == OperationEvents(trace)
      requires Enabled(before, e) && View() == Apply(before, e)
      modifies this`trace, this`own
      ensures Valid() && trace == old(trace) + [e]
      ensures own == if OfOperation(e) then old(own) + [e] else old(own)
    {
      var run, t := Then(initial, trace, before, e);
      OperationEventsThen(trace, e);
      trace := run;
      own := if OfOperation(e) then own + [e] else own;
    }

    /** One section or call of another thread. */
    method OtherStep(e: Event)
      requires Valid() && OfOthers(e) && Enabled(View(), e)
      modifies this
      ensures Valid() && View() == Apply(old(View()), e)
      ensures trace == old(trace) + [e] && own == old(own)
    {
      ghost var before := View();
      var s := Apply(View(), e);
      owner, adapter, heartbeatCancel, file := s.owner, s.adapter, s.heartbeatCancel, s.file;
      now, nextGen, running, op, monitors := s.now, s.nextGen, s.running, s.op, s.monitors;
      OthersKeepAvailable(before, e);
      Record(e, before);
    }

    /** Other threads run for a while: any enabled events of theirs, in any order. */
    method Interfere()
      requires Valid()
      modifies this
      ensures Valid() && old(trace) <= trace && Rely(old(View()), View()) && own == old(own)
    {
      var n: nat := *;
      while n > 0
        invariant Valid() && old(trace) <= trace && Rely(old(View()), View()) && own == old(own)
      {
        var e: Event := *;
        if OfOthers(e) && Enabled(View(), e) {
          OthersKeepRely(old(View()), View(), e);
          OtherStep(e);
        }
        n := n - 1;
      }
    }

    // ----- RuntimeStart, section by section -----

    predicate WellFormed(req: StartRequest) {
      available && req.session != "" && req.runtime != "" && req.profile != "" && req.mode == "machine_network"
    }

    method ReserveSection(req: StartRequest) returns (verdict: StartVerdict, saved: bool)
      requires Valid() && op.NoOperation?
      modifies this
      ensures Valid() && verdict == StartCheck(old(View()), req)
      ensures trace == old(trace) + [Reserve(req, saved)] && own == old(own) + [Reserve(req, saved)]
      ensures View() == Apply(old(View()), Reserve(req, saved))
    {
      ghost var before := View();
      saved := *;
      if !available {
        verdict := StartUnsupported;
      } else if req.session == "" || req.runtime == "" || req.profile == "" {
        verdict := StartInvalid;
      } else if req.mode != MACHINE_NETWORK {
        verdict := StartUnsupported;
      } else if owner.Some? {
        if owner.value.stale {
          verdict := StartRefusedStale;
        } else if owner.value.session == req.session && owner.value.runtime == req.runtime {
          verdict := StartAlreadyOwned;
        } else {
          verdict := StartOwnedByOther;
        }
      } else {
        verdict := StartAccepted;
        var record := OwnerRecord(nextGen, req.session, req.runtime, req.profile, now, now, false);
        if saved {
          file := Some(record);
          nextGen := nextGen + 1;
          owner := Some(record);
          op := AdapterStarting(record.gen, TimeoutOf(req.timeoutMS));
        }
      }
      Record(Reserve(req, saved), before);
    }

    method StartAdapter() returns (started: bool)
      requires Valid() && op.AdapterStarting?
      modifies this
      ensures Valid() && View() == Apply(old(View()), AdapterStart(started))
      ensures trace == old(trace) + [AdapterStart(started)] && own == old(own) + [AdapterStart(started)]
    {
      ghost var before := View();
      started := *;
      if started {
        running := running + {op.gen};
        op := AdapterStarted(op.gen, op.timeout);
      } else {
        op := StartFailed(op.gen);
      }
      Record(AdapterStart(started), before);
    }

    method PublishSection()
      requires Valid() && op.AdapterStarted?
      modifies this
      ensures Valid() && View() == Apply(old(View()), Publish)
      ensures trace == old(trace) + [Publish] && own == old(own) + [Publish]
    {
      ghost var before := View();
      if owner.Some? && owner.value.gen == op.gen {
        adapter := Some(op.gen);
      }
      op := Arming(op.gen, op.timeout);
      Record(Publish, before);
    }

    method StartHeartbeatMonitor()
      requires Valid() && op.Arming?
      modifies this
      ensures Valid() && View() == Apply(old(View()), Arm)
      ensures trace == old(trace) + [Arm] && own == old(own) + [Arm]
    {
      ghost var before := View();
      if heartbeatCancel.Some? {
        monitors := Cancelled(monitors, heartbeatCancel);
      }
      heartbeatCancel := Some(op.gen);
      monitors := monitors[op.gen := HeartbeatMonitor(op.timeout, false, Watching, 0)];
      op := NoOperation;
      Record(Arm, before);
    }

    method DeleteFileAfterFailedStart() returns (deleted: bool)
      requires Valid() && op.StartFailed?
      modifies this
      ensures Valid() && View() == Apply(old(View()), UndoFile(deleted))
      ensures trace == old(trace) + [UndoFile(deleted)] && own == old(own) + [UndoFile(deleted)]
    {
      ghost var before := View();
      deleted := *;
      if deleted {
        file := None;
      }
      op := StartUndoing(op.gen);
      Record(UndoFile(deleted), before);
    }

    method ForgetFailedStart()
      requires Valid() && op.StartUndoing?
      modifies this
      ensures Valid() && View() == Apply(old(View()), UndoMemory)
      ensures trace == old(trace) + [UndoMemory] && own == old(own) + [UndoMemory]
    {
      ghost var before := View();
      if owner.Some? && owner.value.gen == op.gen {
        owner := None;
      }
      if adapter == Some(op.gen) {
        adapter := None;
      }
      op := NoOperation;
      Record(UndoMemory, before);
    }

    method AbandonStart()
      requires Valid() && op.StartFailed? && (owner.Some? ==> owner.value.gen == op.gen)
      modifies this
      ensures Valid() && op.NoOperation? && old(trace) <= trace
      ensures owner.None? && running == old(running)
      ensures exists d :: own == old(own) + [UndoFile(d), UndoMemory]
    {
      var deleted := DeleteFileAfterFailedStart();
      Interfere();
      ForgetFailedStart();
      assert own == old(own) + [UndoFile(deleted), UndoMemory];
    }

    method FinishStart()
      requires Valid() && op.AdapterStarted? && op.gen in running
      modifies this
      ensures Valid() && op.NoOperation? && old(trace) <= trace
      ensures own == old(own) + [Publish, Arm]
      ensures Never(initial, trace, RepairsDuringStart) ==>
                && Serving(View()) && adapter == Some(old(op.gen)) && heartbeatCancel == adapter
                && old(owner).Some? && SameRecord(owner.value, old(owner).value)
      ensures old(op.gen) in monitors && monitors[old(op.gen)] == HeartbeatMonitor(old(op.timeout), false, Watching, 0)
    {
      PublishSection();
      Interfere();
      ghost var gen := op.gen;
      StartHeartbeatMonitor();
      SafeExactly(initial, trace);
      assert gen in running;
    }

    /** What is left of a start once its owner is reserved: the adapter, then its bookkeeping. */
    method RunReservedStart() returns (started: bool)
      requires Valid() && op.AdapterStarting? && owner.Some? && owner.value.gen == op.gen
      modifies this
      ensures Valid() && op.NoOperation? && old(trace) <= trace
      ensures started ==> own == old(own) + [AdapterStart(true), Publish, Arm]
      ensures !started ==> owner.None? && running == old(running)
      ensures !started && Never(initial, trace, RepairsDuringStart) ==> running == {}
      ensures !started ==> exists d :: own == old(own) + [AdapterStart(false), UndoFile(d), UndoMemory]
      ensures started && Never(initial, trace, RepairsDuringStart) ==>
                && Serving(View()) && adapter == Some(old(op.gen)) && heartbeatCancel == adapter
                && SameRecord(owner.value, old(owner).value)
      ensures started ==>
                && old(op.gen) in monitors
                && monitors[old(op.gen)] == HeartbeatMonitor(old(op.timeout), false, Watching, 0)
    {
      Interfere();
      started := StartAdapter();
      Interfere();
      if started {
        FinishStart();
      } else {
        AbandonStart();
        ghost var d :| own == old(own) + [AdapterStart(false)] + [UndoFile(d), UndoMemory];
        assert own == old(own) + [AdapterStart(false), UndoFile(d), UndoMemory];
        SafeExactly(initial, trace);
      }
    }

    method RuntimeStart(req: StartRequest) returns (reply: Reply)
      requires Valid() && op.NoOperation?
      modifies this
      ensures Valid() && op.NoOperation? && old(trace) <= trace
      // Who is refused, and why. The owner's own request is answered again, that of another session is not.
      ensures !available ==> reply == Failed(PlatformFeatureUnsupported)
      ensures available && (req.session == "" || req.runtime == "" || req.profile == "") ==>
                reply == Failed(IPCInvalidRequest)
      ensures available && req.session != "" && req.runtime != "" && req.profile != "" ==>
                (req.mode != "machine_network" ==> reply == Failed(PlatformFeatureUnsupported))
      ensures WellFormed(req) && old(owner).Some? ==>
                var r := old(owner).value;
                reply == if r.stale then Failed(ProviderRuntimeStale)
                         else if r.session == req.session && r.runtime == req.runtime then Done
                         else Failed(NetworkModeOwnedByAnotherSession)
      ensures WellFormed(req) && old(owner).None? ==>
                reply in [Done, Failed(Internal), Failed(ProviderRuntimeStartFailed)]
      ensures !WellFormed(req) || old(owner).Some? ==> View() == old(View())
      ensures reply == Failed(Internal) ==> View() == old(View())
      ensures reply == Failed(ProviderRuntimeStartFailed) ==>
                && owner.None? && running == old(running)
                && (Never(initial, trace, RepairsDuringStart) ==> running == {})
                && exists d :: own == old(own) + [Reserve(req, true), AdapterStart(false), UndoFile(d), UndoMemory]
      ensures reply.Done? && old(owner).None? ==>
                && own == old(own) + [Reserve(req, true), AdapterStart(true), Publish, Arm]
                && (Never(initial, trace, RepairsDuringStart) ==>
                      && Serving(View()) && adapter == Some(old(nextGen)) && heartbeatCancel == adapter
                      && owner.value.profile == req.profile && owner.value.startedAt == old(now))
      ensures reply.Done? && old(owner).None? ==>
                && old(nextGen) in monitors
                && monitors[old(nextGen)] ==
                     HeartbeatMonitor(if req.timeoutMS <= 0 then 8000 else req.timeoutMS, false, Watching, 0)
      // Whoever is told that the runtime is theirs, owns it.
      ensures reply.Done? && (Never(initial, trace, RepairsDuringStart) || old(owner).Some?) ==>
                owner.Some? && owner.value.session == req.session && owner.value.runtime == req.runtime
    {
      var verdict, saved := ReserveSection(req);
      match verdict {
        case StartUnsupported => return Failed(PlatformFeatureUnsupported);
        case StartInvalid => return Failed(IPCInvalidRequest);
        case StartRefusedStale => return Failed(ProviderRuntimeStale);
        case StartOwnedByOther => return Failed(NetworkModeOwnedByAnotherSession);
        case StartAlreadyOwned => return Done;
        case StartAccepted =>
          if !saved {
            return Failed(Internal);
          }
          var started := RunReservedStart();
          if started {
            return Done;
          }
          ghost var d :| own == old(own) + [Reserve(req, true)] + [AdapterStart(false), UndoFile(d), UndoMemory];
          assert own == old(own) + [Reserve(req, true), AdapterStart(false), UndoFile(d), UndoMemory];
          return Failed(ProviderRuntimeStartFailed);
      }
    }

    // ----- RuntimeStop -----

    method StopSection(caller: Caller, session: string, runtime: string) returns (verdict: StopVerdict)
      requires Valid() && Enabled(View(), StopBegin(caller, session, runtime))
      modifies this
      ensures Valid() && verdict == StopCheck(old(View()), session, runtime)
      ensures View() == Apply(old(View()), StopBegin(caller, session, runtime))
      ensures trace == old(trace) + [StopBegin(caller, session, runtime)]
      ensures own == old(own) + [StopBegin(caller, session, runtime)]
    {
      ghost var before := View();
      if owner.None? {
        verdict := StopNothing;
        monitors := Returned(monitors, caller, false);
      } else if session == "" || runtime == "" {
        verdict := StopInvalid;
        monitors := Returned(monitors, caller, true);
      } else if owner.value.session != session || owner.value.runtime != runtime {
        verdict := StopOwnedByOther;
        monitors := Returned(monitors, caller, true);
      } else if owner.value.stale && adapter.None? {
        verdict := StopRefusedStale;
        monitors := Returned(monitors, caller, true);
      } else {
        verdict := StopAccepted;
        var cancel := heartbeatCancel;
        heartbeatCancel := None;
        monitors := Cancelled(monitors, cancel);
        op := AdapterStopping(caller, adapter);
      }
      Record(StopBegin(caller, session, runtime), before);
    }

    method StopAdapter() returns (stopped: bool)
      requires Valid() && op.AdapterStopping?
      modifies this
      ensures Valid() && View() == Apply(old(View()), AdapterStop(stopped))
      ensures trace == old(trace) + [AdapterStop(stopped)] && own == old(own) + [AdapterStop(stopped)]
      ensures old(op).handle.None? ==> stopped
    {
      ghost var before := View();
      stopped := true;
      if op.handle.Some? {
        stopped := *;
      }
      if stopped {
        running := if op.handle.Some? then running - {op.handle.value} else running;
        op := FileDeleting(op.caller);
      } else {
        op := StopFailed(op.caller);
      }
      Record(AdapterStop(stopped), before);
    }

    method MarkStaleAfterStop() returns (saved: bool)
      requires Valid() && op.StopFailed?
      modifies this
      ensures Valid() && View() == Apply(old(View()), StopMark(saved))
      ensures trace == old(trace) + [StopMark(saved)] && own == old(own) + [StopMark(saved)]
    {
      ghost var before := View();
      saved := *;
      if owner.Some? {
        owner := Some(owner.value.(stale := true));
        if saved {
          file := owner;
        }
      }
      monitors := Returned(monitors, op.caller, true);
      op := NoOperation;
      Record(StopMark(saved), before);
    }

    method DeleteFileAfterStop() returns (deleted: bool)
      requires Valid() && op.FileDeleting?
      modifies this
      ensures Valid() && View() == Apply(old(View()), StopDelete(deleted))
      ensures trace == old(trace) + [StopDelete(deleted)] && own == old(own) + [StopDelete(deleted)]
    {
      ghost var before := View();
      deleted := *;
      if deleted {
        file := None;
        op := Clearing(op.caller);
      } else {
        op := DeleteFailed(op.caller);
      }
      Record(StopDelete(deleted), before);
    }

    method KeepStaleSection()
      requires Valid() && op.DeleteFailed?
      modifies this
      ensures Valid() && View() == Apply(old(View()), StopKeepStale)
      ensures trace == old(trace) + [StopKeepStale] && own == old(own) + [StopKeepStale]
    {
      ghost var before := View();
      adapter := None;
      if owner.Some? {
        owner := Some(owner.value.(stale := true));
      }
      monitors := Returned(monitors, op.caller, true);
      op := NoOperation;
      Record(StopKeepStale, before);
    }

    method ClearSection()
      requires Valid() && op.Clearing?
      modifies this
      ensures Valid() && View() == Apply(old(View()), StopClear)
      ensures trace == old(trace) + [StopClear] && own == old(own) + [StopClear]
    {
      ghost var before := View();
      adapter := None;
      owner := None;
      monitors := Returned(monitors, op.caller, false);
      op := NoOperation;
      Record(StopClear, before);
    }

    /** A monitor whose stop has ended is gone, or is about to mark the owner when the stop failed. */
    predicate Answered(caller: Caller, failed: bool)
      reads this
    {
      caller.Monitor? && caller.id in monitors ==> failed && monitors[caller.id].phase == Marking
    }

    /** What is left of a stop once its adapter has stopped. */
    method FinishStop() returns (cleared: bool)
      requires Valid() && op.FileDeleting?
      modifies this
      ensures Valid() && op.NoOperation? && old(trace) <= trace
      ensures adapter.None? && running == old(running) && Answered(old(op).caller, !cleared)
      ensures cleared ==> owner.None? && own == old(own) + [StopDelete(true), StopClear]
      ensures !cleared ==> (owner.Some? ==> owner.value.stale) && own == old(own) + [StopDelete(false), StopKeepStale]
    {
      Interfere();
      cleared := DeleteFileAfterStop();
      Interfere();
      if cleared {
        ClearSection();
      } else {
        KeepStaleSection();
      }
    }

    predicate OwnedBy(session: string, runtime: string)
      reads this
    {
      owner.Some? && owner.value.session == session && owner.value.runtime == runtime
    }

    /** A stop goes ahead for the owner's own session and runtime, unless it is stale with no adapter to stop. */
    predicate MayStop(session: string, runtime: string)
      reads this
    {
      session != "" && runtime != "" && OwnedBy(session, runtime) && !(owner.value.stale && adapter.None?)
    }

    method RunAcceptedStop() returns (reply: Reply)
      requires Valid() && op.AdapterStopping?
      modifies this
      ensures Valid() && op.NoOperation? && old(trace) <= trace
      ensures reply in [Done, Failed(ProviderRuntimeStopFailed), Failed(Internal)]
      ensures Answered(old(op).caller, reply.Failed?)
      ensures reply == Done ==>
                owner.None? && adapter.None? && own == old(own) + [AdapterStop(true), StopDelete(true), StopClear]
      ensures reply == Failed(Internal) ==>
                && adapter.None? && (owner.Some? ==> owner.value.stale)
                && own == old(own) + [AdapterStop(true), StopDelete(false), StopKeepStale]
      ensures reply == Failed(ProviderRuntimeStopFailed) ==>
                && running == old(running) && adapter == old(adapter) && (owner.Some? ==> owner.value.stale)
                && exists saved :: own == old(own) + [AdapterStop(false), StopMark(saved)]
      ensures Never(initial, trace, RepairsDuringStart) ==> running == {} || (owner.Some? && owner.value.stale)
    {
      Interfere();
      var stopped := StopAdapter();
      if stopped {
        var cleared := FinishStop();
        reply := if cleared then Done else Failed(Internal);
      } else {
        var saved := RecordFailedStop();
        reply := Failed(ProviderRuntimeStopFailed);
        assert own == old(own) + [AdapterStop(false), StopMark(saved)];
      }
      StoppedOrStale();
    }

    method RecordFailedStop() returns (saved: bool)
      requires Valid() && op.StopFailed?
      modifies this
      ensures Valid() && op.NoOperation? && old(trace) <= trace
      ensures own == old(own) + [StopMark(saved)] && Answered(old(op).caller, true)
      ensures running == old(running) && adapter == old(adapter) && (owner.Some? ==> owner.value.stale)
    {
      Interfere();
      saved := MarkStaleAfterStop();
    }

    /** In a safe run, a controller at rest whose owner is not fresh, or that has no adapter, runs nothing fresh. */
    lemma StoppedOrStale()
      requires Valid() && op.NoOperation? && (adapter.None? || (owner.Some? ==> owner.value.stale))
      ensures Never(initial, trace, RepairsDuringStart) ==> running == {} || (owner.Some? && owner.value.stale)
    {
      SafeExactly(initial, trace);
    }

    method RuntimeStop(caller: Caller, session: string, runtime: string) returns (reply: Reply)
      requires Valid() && Enabled(View(), StopBegin(caller, session, runtime))
      modifies this
      ensures Valid() && op.NoOperation? && old(trace) <= trace
      ensures old(owner).None? ==> reply == Done
      ensures old(owner).Some? && (session == "" || runtime == "") ==> reply == Failed(IPCInvalidRequest)
      ensures old(owner).Some? && session != "" && runtime != "" && !old(OwnedBy(session, runtime)) ==>
                reply == Failed(NetworkModeOwnedByAnotherSession)
      ensures session != "" && runtime != "" && old(OwnedBy(session, runtime)) ==>
                if old(owner).value.stale && old(adapter).None? then reply == Failed(ProviderRuntimeStale)
                else reply in [Done, Failed(ProviderRuntimeStopFailed), Failed(Internal)]
      ensures !old(MayStop(session, runtime)) ==>
                && View() == old(View()).(monitors := monitors)
                && own == old(own) + [StopBegin(caller, session, runtime)]
      ensures old(MayStop(session, runtime)) ==>
                && (reply == Done ==>
                      && owner.None? && adapter.None?
                      && own == old(own)
                           + [StopBegin(caller, session, runtime), AdapterStop(true), StopDelete(true), StopClear])
                && (reply == Failed(Internal) ==>
                      && adapter.None? && (owner.Some? ==> owner.value.stale)
                      && own == old(own)
                           + [StopBegin(caller, session, runtime), AdapterStop(true), StopDelete(false), StopKeepStale])
                && (reply == Failed(ProviderRuntimeStopFailed) ==>
                      && running == old(running) && adapter == old(adapter)
                      && (owner.Some? ==> owner.value.stale)
                      && exists saved :: own == old(own)
                           + [StopBegin(caller, session, runtime), AdapterStop(false), StopMark(saved)])
      ensures Answered(caller, reply.Failed?)
      // However it ends, an accepted stop leaves the runtime stopped or its owner stale.
      ensures old(MayStop(session, runtime)) ==>
                Never(initial, trace, RepairsDuringStart) ==>
                running == {} || (owner.Some? && owner.value.stale)
    {
      var verdict := StopSection(caller, session, runtime);
      match verdict {
        case StopNothing => return Done;
        case StopInvalid => return Failed(IPCInvalidRequest);
        case StopOwnedByOther => return Failed(NetworkModeOwnedByAnotherSession);
        case StopRefusedStale => return Failed(ProviderRuntimeStale);
        case StopAccepted =>
      }
      reply := RunAcceptedStop();
    }

    // ----- Operations of one section -----

    method RuntimeHeartbeat(session: string, runtime: string) returns (reply: Reply, saved: bool)
      requires Valid()
      modifies this
      ensures Valid() && View() == Apply(old(View()), Heartbeat(session, runtime, saved))
      ensures trace == old(trace) + [Heartbeat(session, runtime, saved)] && own == old(own)
      ensures session == "" || runtime == "" ==> reply == Failed(IPCInvalidRequest)
      ensures session != "" && runtime != "" && old(owner).None? ==> reply == Failed(ProviderRuntimeUnavailable)
      ensures session != "" && runtime != "" && old(owner).Some? ==>
                if old(owner).value.stale then reply == Failed(ProviderRuntimeStale)
                else if !old(OwnedBy(session, runtime)) then reply == Failed(NetworkModeOwnedByAnotherSession)
                else if old(adapter).None? then reply == Failed(ProviderRuntimeUnavailable)
                else reply == if saved then Done else Failed(Internal)
      // Accepted, it renews the owner at this time, and the file when it can be saved.
      ensures reply.Done? || reply == Failed(Internal) ==>
                && old(owner).Some? && owner == Some(old(owner).value.(lastHeartbeat := now))
                && file == if reply.Done? then owner else old(file)
      ensures reply.Failed? && reply.error != Internal ==> View() == old(View())
    {
      ghost var before := View();
      saved := true;
      if session == "" || runtime == "" {
        reply := Failed(IPCInvalidRequest);
      } else if owner.None? {
        reply := Failed(ProviderRuntimeUnavailable);
      } else if owner.value.stale {
        reply := Failed(ProviderRuntimeStale);
      } else if owner.value.session != session || owner.value.runtime != runtime {
        reply := Failed(NetworkModeOwnedByAnotherSession);
      } else if adapter.None? {
        reply := Failed(ProviderRuntimeUnavailable);
      } else {
        owner := Some(owner.value.(lastHeartbeat := now));
        saved := *;
        if saved {
          file := owner;
        }
        reply := if saved then Done else Failed(Internal);
      }
      Record(Heartbeat(session, runtime, saved), before);
    }

    /** The clear-owner repair. */
    method RunRepairAction() returns (reply: Reply, deleted: bool)
      requires Valid()
      modifies this
      ensures Valid() && View() == Apply(old(View()), Repair(deleted))
      ensures trace == old(trace) + [Repair(deleted)] && own == old(own)
      ensures reply == Done <==> old(adapter).None? && old(owner).Some? && old(owner).value.stale && deleted
      ensures reply == Done ==> owner.None? && file.None?
      ensures reply != Done ==> View() == old(View())
      ensures reply == Noop <==> old(adapter).None? && old(owner).None?
    {
      ghost var before := View();
      deleted := true;
      if adapter.Some? {
        reply := Failed(PlatformRepairFailed);
      } else if owner.None? {
        reply := Noop;
      } else if !owner.value.stale {
        reply := Failed(PlatformRepairFailed);
      } else {
        deleted := *;
        if deleted {
          file := None;
          owner := None;
        }
        reply := if deleted then Done else Failed(PlatformRepairFailed);
      }
      Record(Repair(deleted), before);
    }

    /** A tick of the heartbeat goroutine as far as `mu` is held; `going` says that it looks at the clock. */
    method MonitorRead(id: nat) returns (going: bool)
      requires Valid() && id in monitors && monitors[id].phase.Watching?
      modifies this
      ensures Valid() && View() == Apply(old(View()), MonitorTick(id))
      ensures trace == old(trace) + [MonitorTick(id)] && own == old(own)
      ensures going <==> old(owner).Some? && old(owner).value.lastHeartbeat != 0
      ensures monitors[id] == old(monitors)[id].(phase :=
                if going then Deciding(owner.value.session, owner.value.runtime, owner.value.lastHeartbeat)
                else Watching)
    {
      ghost var before := View();
      going := owner.Some? && owner.value.lastHeartbeat != 0;
      if going {
        var r := owner.value;
        monitors := monitors[id := monitors[id].(phase := Deciding(r.session, r.runtime, r.lastHeartbeat))];
      }
      Record(MonitorTick(id), before);
    }

    /** The look at the clock; `expired` says that the goroutine goes on to stop the runtime. */
    method MonitorDecideSection(id: nat) returns (expired: bool)
      requires Valid() && id in monitors && monitors[id].phase.Deciding?
      modifies this
      ensures Valid() && View() == Apply(old(View()), MonitorDecide(id))
      ensures trace == old(trace) + [MonitorDecide(id)] && own == old(own)
      ensures expired <==> now > old(monitors)[id].phase.heartbeat + old(monitors)[id].timeout
      ensures var was := old(monitors)[id];
              monitors[id] == was.(lastTick := now,
                phase := if expired then Calling(was.phase.session, was.phase.runtime) else Watching)
    {
      ghost var before := View();
      var m := monitors[id].(lastTick := now);
      expired := now - m.phase.heartbeat > m.timeout;
      if expired {
        m := m.(phase := Calling(m.phase.session, m.phase.runtime));
      } else {
        m := m.(phase := Watching);
      }
      monitors := monitors[id := m];
      Record(MonitorDecide(id), before);
    }

    /** markStale as a monitor runs it, after the stop it asked for has failed and let go of `opMu`. */
    method MarkStaleLate(id: nat) returns (saved: bool)
      requires Valid() && id in monitors && monitors[id].phase.Marking?
      modifies this
      ensures Valid() && View() == Apply(old(View()), LateMark(id, saved))
      ensures trace == old(trace) + [LateMark(id, saved)] && own == old(own)
      ensures owner == if old(owner).Some? then Some(old(owner).value.(stale := true)) else None
      ensures file == if saved && owner.Some? then owner else old(file)
    {
      ghost var before := View();
      saved := *;
      if owner.Some? {
        owner := Some(owner.value.(stale := true));
        if saved {
          file := owner;
        }
      }
      monitors := monitors - {id};
      Record(LateMark(id, saved), before);
    }
  }

  /** What holds of all runs holds of the code: it is safe throughout exactly when no repair meets a start. */
  lemma ControllerIsSafe(c: Controller)
    requires c.Valid()
    ensures Always(c.initial, c.trace, Safe) <==> Never(c.initial, c.trace, RepairsDuringStart)
    ensures Never(c.initial, c.trace, RepairsDuringStart) ==> Safe(c.View())
  {
    SafeExactly(c.initial, c.trace);
    if Never(c.initial, c.trace, RepairsDuringStart) {
      InvIsSafe(c.View());
    }
  }
}
