/**
  The client half of the lease: the runtime owner that starts a provider-hosted runtime, keeps it alive
  with heartbeats and stops it. Requests travel over IPC, so each answer is a parameter: `false` stands
  for a refusal, a lost request and an answer that came too late alike.
 */
module LeaseClient {
  import opened Options
  import opened Lease
  import opened LeaseSafety
  import opened LeaseRecovery

  datatype Request =
    | StartRuntime(runtime: string)
    | SubscribeEvents(runtime: string)
    | StopRuntime(runtime: string)
    | Beat(runtime: string)

  // ----- What has been sent -----

  ghost predicate Unmentioned(requests: seq<Request>, id: string) {
    forall r <- requests :: r.runtime != id
  }

  /**
    No request mentions a runtime any more once the client has given it up. `gaveUpAt` says how much had
    been sent by then.
   */
  ghost predicate SilentOnceGivenUp(sent: seq<Request>, gaveUpAt: map<string, nat>) {
    forall id <- gaveUpAt :: gaveUpAt[id] <= |sent| && Unmentioned(sent[gaveUpAt[id]..], id)
  }

  /** The client is silent exactly when no stray heartbeat has gone out. */
  ghost predicate Kept(sent: seq<Request>, gaveUpAt: map<string, nat>, strayBeat: bool) {
    && (forall id <- gaveUpAt :: gaveUpAt[id] <= |sent|)
    && (SilentOnceGivenUp(sent, gaveUpAt) <==> !strayBeat)
  }

  lemma MentionedLater(requests: seq<Request>, r: Request, id: string)
    ensures Unmentioned(requests + [r], id) <==> Unmentioned(requests, id) && r.runtime != id
  {
    assert forall q <- requests :: q in requests + [r];
    assert (requests + [r])[|requests|] == r;
  }

  lemma SendKeeps(sent: seq<Request>, gaveUpAt: map<string, nat>, strayBeat: bool, r: Request)
    requires Kept(sent, gaveUpAt, strayBeat) && r.runtime !in gaveUpAt
    ensures Kept(sent + [r], gaveUpAt, strayBeat)
  {
    forall id <- gaveUpAt
      ensures Unmentioned((sent + [r])[gaveUpAt[id]..], id) <==> Unmentioned(sent[gaveUpAt[id]..], id)
    {
      MentionedLater(sent[gaveUpAt[id]..], r, id);
      assert (sent + [r])[gaveUpAt[id]..] == sent[gaveUpAt[id]..] + [r];
    }
  }

  lemma GiveUpKeeps(sent: seq<Request>, gaveUpAt: map<string, nat>, strayBeat: bool, id: string)
    requires Kept(sent, gaveUpAt, strayBeat) && id !in gaveUpAt
    ensures Kept(sent, gaveUpAt[id := |sent|], strayBeat)
  {
    var more := gaveUpAt[id := |sent|];
    assert Unmentioned(sent[more[id]..], id);
    assert forall other <- gaveUpAt :: more[other] == gaveUpAt[other];
  }

  /** A heartbeat for a runtime that is given up. */
  lemma BeatAgainBreaks(sent: seq<Request>, gaveUpAt: map<string, nat>, strayBeat: bool, id: string)
    requires Kept(sent, gaveUpAt, strayBeat) && id in gaveUpAt
    ensures Kept(sent + [Beat(id)], gaveUpAt, true)
  {
    MentionedLater(sent[gaveUpAt[id]..], Beat(id), id);
    assert (sent + [Beat(id)])[gaveUpAt[id]..] == sent[gaveUpAt[id]..] + [Beat(id)];
  }

  // ----- The owner -----

  class ProviderRuntimeOwner {
    var runtimeID: string
    var started: bool
    var cancel: bool       // a context is held
    var beating: bool      // and its heartbeat goroutine runs
    var stray: nat         // heartbeat goroutines whose context is held no more
    ghost var sent: seq<Request>
    ghost var ids: set<string>
    /** For each runtime that was stopped, lost or replaced: how much had been sent by then. */
    ghost var gaveUpAt: map<string, nat>
    /** Some start has replaced a context whose goroutine was running. */
    ghost var overlapped: bool
    /** A stray goroutine has ticked while the last runtime was given up. */
    ghost var strayBeat: bool

    ghost predicate Valid()
      reads this
    {
      && (beating ==> cancel) && (cancel ==> started)
      && (started ==> runtimeID != "" && runtimeID !in gaveUpAt)
      && "" !in ids && gaveUpAt.Keys <= ids && (runtimeID == "" || runtimeID in ids)
      && (!overlapped ==> stray == 0)
    }

    /** The client's silence, and what alone breaks it. */
    ghost predicate Honest()
      reads this
    {
      Kept(sent, gaveUpAt, strayBeat)
    }

    constructor ()
      ensures Valid() && Honest() && !started && !cancel && !beating && stray == 0 && !overlapped && !strayBeat
      ensures sent == [] && ids == {} && gaveUpAt == map[]
    {
      runtimeID, started, cancel, beating, stray := "", false, false, false, 0;
      sent, ids, gaveUpAt, overlapped, strayBeat := [], {}, map[], false, false;
    }

    /** The random id is a new one. A start of a started owner forgets the earlier runtime, not its goroutine. */
    method Start(newID: string, accepted: bool, bridged: bool) returns (ok: bool)
      requires Valid() && newID != "" && newID !in ids
      modifies this
      ensures Valid() && ok == (accepted && bridged) && ids == old(ids) + {newID} && strayBeat == old(strayBeat)
      ensures stray == old(stray) + if accepted && old(beating) then 1 else 0
      ensures overlapped == (old(overlapped) || (accepted && old(beating)))
      // A start that timed out may have been carried out: the client forgets it and never beats for it.
      ensures !accepted ==>
                && sent == old(sent) + [StartRuntime(newID)] && gaveUpAt == old(gaveUpAt)[newID := |sent|]
                && started == old(started) && beating == old(beating) && runtimeID == old(runtimeID)
      ensures ok ==>
                && started && cancel && beating && runtimeID == newID
                && sent == old(sent) + [StartRuntime(newID)] + [SubscribeEvents(newID)]
                && gaveUpAt == old(Replaced(|sent| + 1))
      ensures accepted && !bridged ==>
                && !started && !cancel && !beating && runtimeID == ""
                && sent == old(sent) + [StartRuntime(newID)] + [SubscribeEvents(newID)] + [StopRuntime(newID)]
                && gaveUpAt == old(Replaced(|sent| + 1))[newID := |sent|]
    {
      ids := ids + {newID};
      sent := sent + [StartRuntime(newID)];
      if !accepted {
        gaveUpAt := gaveUpAt[newID := |sent|];
        return false;
      }
      Adopt(newID);
      Bridge(bridged);
      return bridged;
    }

    /** The section of a start that stores the runtime and its context. */
    method Adopt(newID: string)
      requires Valid() && newID in ids && newID !in gaveUpAt && newID != runtimeID
      modifies this`runtimeID, this`started, this`cancel, this`beating, this`stray, this`overlapped, this`gaveUpAt
      ensures Valid() && started && cancel && !beating && runtimeID == newID
      ensures overlapped == (old(overlapped) || old(beating)) && stray == old(stray) + if old(beating) then 1 else 0
      ensures gaveUpAt == old(Replaced(|sent|))
    {
      gaveUpAt := Replaced(|sent|);
      if beating {
        stray, overlapped := stray + 1, true;
      }
      runtimeID, started, cancel, beating := newID, true, true, false;
    }

    /** What follows in a start: the event bridge, and the heartbeats or the stop that undoes it all. */
    method Bridge(bridged: bool)
      requires Valid() && started && cancel && !beating
      modifies this`runtimeID, this`started, this`cancel, this`beating, this`sent, this`gaveUpAt
      ensures Valid() && started == cancel == beating == bridged
      ensures bridged ==>
                && runtimeID == old(runtimeID) && gaveUpAt == old(gaveUpAt)
                && sent == old(sent) + [SubscribeEvents(runtimeID)]
      ensures !bridged ==>
                && sent == old(sent) + [SubscribeEvents(old(runtimeID))] + [StopRuntime(old(runtimeID))]
                && gaveUpAt == old(gaveUpAt)[old(runtimeID) := |sent|] && runtimeID == ""
    {
      sent := sent + [SubscribeEvents(runtimeID)];
      if !bridged {
        sent := sent + [StopRuntime(runtimeID)];
        gaveUpAt := gaveUpAt[runtimeID := |sent|];
        runtimeID, started, cancel := "", false, false;
        return;
      }
      beating := true;
    }

    /** A runtime that is started is given up when another takes its place. */
    ghost function Replaced(at: nat): map<string, nat>
      reads this
    {
      if started then gaveUpAt[runtimeID := at] else gaveUpAt
    }

    method Stop(answered: bool) returns (ok: bool)
      requires Valid()
      modifies this
      ensures Valid() && !started && !cancel && !beating && stray == old(stray) && overlapped == old(overlapped)
      ensures ids == old(ids) && runtimeID == old(runtimeID) && strayBeat == old(strayBeat)
      ensures old(started) ==>
                && ok == answered && sent == old(sent) + [StopRuntime(runtimeID)]
                && gaveUpAt == old(gaveUpAt)[runtimeID := |sent|]
      ensures !old(started) ==> ok && sent == old(sent) && gaveUpAt == old(gaveUpAt)
    {
      var runtime, wasStarted := runtimeID, started;
      cancel, started, beating := false, false, false;
      if !wasStarted {
        return true;
      }
      sent := sent + [StopRuntime(runtime)];
      gaveUpAt := gaveUpAt[runtime := |sent|];
      return answered;
    }

    /** One tick of the heartbeat goroutine; an error ends it. */
    method HeartbeatTick(answered: bool)
      requires Valid()
      modifies this`sent, this`beating
      ensures Valid()
      ensures old(beating) ==> sent == old(sent) + [Beat(runtimeID)] && beating == answered
      ensures !old(beating) ==> sent == old(sent) && !beating
    {
      if beating {
        sent := sent + [Beat(runtimeID)];
        beating := answered;
      }
    }

    /** One tick of a goroutine whose context is held no more: it beats for whatever the runtime is now. */
    method StrayTick(answered: bool)
      requires Valid()
      modifies this`sent, this`stray, this`strayBeat
      ensures Valid()
      ensures old(stray) > 0 ==>
                sent == old(sent) + [Beat(runtimeID)] && stray == old(stray) - if answered then 0 else 1
      ensures old(stray) == 0 ==> sent == old(sent) && stray == 0
      ensures strayBeat == (old(strayBeat) || (old(stray) > 0 && runtimeID in gaveUpAt))
    {
      if stray > 0 {
        strayBeat := strayBeat || runtimeID in gaveUpAt;
        sent := sent + [Beat(runtimeID)];
        stray := if answered then stray else stray - 1;
      }
    }
  }

  /**
    A stop whose answer is lost, and its retry: the retry reports success without asking the provider
    anything. From here on it is the lease that reclaims the runtime.
   */
  method RetriedStop(o: ProviderRuntimeOwner) returns (first: bool, second: bool)
    requires o.Valid() && o.started
    modifies o
    ensures !first && second && o.Valid()
    ensures o.sent == old(o.sent) + [StopRuntime(old(o.runtimeID))]
    ensures old(o.runtimeID) in o.gaveUpAt && o.gaveUpAt[old(o.runtimeID)] == |o.sent|
  {
    first := o.Stop(false);
    second := o.Stop(true);
  }

  /**
    An owner that is started twice without a stop beats on for its second runtime after that was stopped.
    The engine makes a new owner for every start, so this program never does that.
   */
  method StrayBeatsOn(o: ProviderRuntimeOwner, a: string, b: string)
    requires o.Valid() && !o.started && a != "" && b != "" && a != b && a !in o.ids && b !in o.ids
    modifies o
    ensures o.Valid() && o.strayBeat && |o.sent| >= 2
    ensures o.sent[|o.sent| - 2..] == [StopRuntime(b), Beat(b)]
  {
    var _ := o.Start(a, true, true);
    var _ := o.Start(b, true, true);
    var _ := o.Stop(true);
    o.StrayTick(true);
  }

  // ----- Any use of the owner -----

  datatype Call =
    | CallStart(newID: string, accepted: bool, bridged: bool)
    | CallStop(answered: bool)
    | CallTick(answered: bool)
    | CallStrayTick(answered: bool)

  function StartedIn(calls: seq<Call>): set<string> {
    set k | 0 <= k < |calls| && calls[k].CallStart? :: calls[k].newID
  }

  ghost predicate NewIDs(calls: seq<Call>, ids: set<string>) {
    && (forall k | 0 <= k < |calls| && calls[k].CallStart? :: calls[k].newID != "" && calls[k].newID !in ids)
    && (forall j, k | 0 <= j < k < |calls| && calls[j].CallStart? && calls[k].CallStart? ::
          calls[j].newID != calls[k].newID)
  }

  /** What a start sends and gives up, one after the other. */
  lemma StartKeeps(sent: seq<Request>, gaveUpAt: map<string, nat>, strayBeat: bool, newID: string,
                   was: Option<string>, accepted: bool, bridged: bool)
    requires Kept(sent, gaveUpAt, strayBeat) && newID !in gaveUpAt
    requires was.Some? ==> was.value !in gaveUpAt && was.value != newID
    ensures var s := sent + [StartRuntime(newID)];
            var t := s + [SubscribeEvents(newID)];
            var u := t + [StopRuntime(newID)];
            var g := if was.Some? then gaveUpAt[was.value := |s|] else gaveUpAt;
            && (!accepted ==> Kept(s, gaveUpAt[newID := |s|], strayBeat))
            && (accepted && bridged ==> Kept(t, g, strayBeat))
            && (accepted && !bridged ==> Kept(u, g[newID := |u|], strayBeat))
  {
    var s := sent + [StartRuntime(newID)];
    var t := s + [SubscribeEvents(newID)];
    var u := t + [StopRuntime(newID)];
    SendKeeps(sent, gaveUpAt, strayBeat, StartRuntime(newID));
    if !accepted {
      GiveUpKeeps(s, gaveUpAt, strayBeat, newID);
    } else {
      var g := if was.Some? then gaveUpAt[was.value := |s|] else gaveUpAt;
      if was.Some? {
        GiveUpKeeps(s, gaveUpAt, strayBeat, was.value);
      }
      SendKeeps(s, g, strayBeat, SubscribeEvents(newID));
      if !bridged {
        SendKeeps(t, g, strayBeat, StopRuntime(newID));
        GiveUpKeeps(u, g, strayBeat, newID);
      }
    }
  }

  method PerformStart(o: ProviderRuntimeOwner, newID: string, accepted: bool, bridged: bool)
    requires o.Valid() && o.Honest() && newID != "" && newID !in o.ids
    modifies o
    ensures o.Valid() && o.Honest() && old(o.sent) <= o.sent && o.ids == old(o.ids) + {newID}
    ensures forall id <- old(o.gaveUpAt) :: id in o.gaveUpAt && o.gaveUpAt[id] == old(o.gaveUpAt)[id]
    ensures o.strayBeat == old(o.strayBeat) && o.overlapped == (old(o.overlapped) || (accepted && old(o.beating)))
  {
    ghost var was := if o.started then Some(o.runtimeID) else None;
    StartKeeps(o.sent, o.gaveUpAt, o.strayBeat, newID, was, accepted, bridged);
    var _ := o.Start(newID, accepted, bridged);
  }

  method PerformStop(o: ProviderRuntimeOwner, answered: bool)
    requires o.Valid() && o.Honest()
    modifies o
    ensures o.Valid() && o.Honest() && old(o.sent) <= o.sent && o.ids == old(o.ids)
    ensures forall id <- old(o.gaveUpAt) :: id in o.gaveUpAt && o.gaveUpAt[id] == old(o.gaveUpAt)[id]
    ensures o.strayBeat == old(o.strayBeat) && o.overlapped == old(o.overlapped)
  {
    if o.started {
      var stop := StopRuntime(o.runtimeID);
      SendKeeps(o.sent, o.gaveUpAt, o.strayBeat, stop);
      GiveUpKeeps(o.sent + [stop], o.gaveUpAt, o.strayBeat, o.runtimeID);
    }
    var _ := o.Stop(answered);
  }

  method PerformTick(o: ProviderRuntimeOwner, answered: bool)
    requires o.Valid() && o.Honest()
    modifies o`sent, o`beating
    ensures o.Valid() && o.Honest() && old(o.sent) <= o.sent
  {
    if o.beating {
      SendKeeps(o.sent, o.gaveUpAt, o.strayBeat, Beat(o.runtimeID));
    }
    o.HeartbeatTick(answered);
  }

  method PerformStrayTick(o: ProviderRuntimeOwner, answered: bool)
    requires o.Valid() && o.Honest()
    modifies o`sent, o`stray, o`strayBeat
    ensures o.Valid() && o.Honest() && old(o.sent) <= o.sent
    ensures o.strayBeat == (old(o.strayBeat) || (old(o.stray) > 0 && o.runtimeID in o.gaveUpAt))
  {
    if o.stray > 0 {
      if o.runtimeID in o.gaveUpAt {
        BeatAgainBreaks(o.sent, o.gaveUpAt, o.strayBeat, o.runtimeID);
      } else {
        SendKeeps(o.sent, o.gaveUpAt, o.strayBeat, Beat(o.runtimeID));
      }
    }
    o.StrayTick(answered);
  }

  /** `late` says that a stray goroutine has just beaten for a runtime that was given up. */
  method Perform(o: ProviderRuntimeOwner, call: Call) returns (ghost late: bool)
    requires o.Valid() && o.Honest() && (call.CallStart? ==> call.newID != "" && call.newID !in o.ids)
    modifies o
    ensures o.Valid() && o.Honest() && old(o.sent) <= o.sent
    ensures o.ids == old(o.ids) + if call.CallStart? then {call.newID} else {}
    ensures forall id <- old(o.gaveUpAt) :: id in o.gaveUpAt && o.gaveUpAt[id] == old(o.gaveUpAt)[id]
    ensures late <==> call.CallStrayTick? && old(o.stray) > 0 && old(o.runtimeID) in old(o.gaveUpAt)
    ensures o.strayBeat == (old(o.strayBeat) || late) && (late ==> o.overlapped)
    ensures o.overlapped == (old(o.overlapped) || (call.CallStart? && call.accepted && old(o.beating)))
  {
    late := call.CallStrayTick? && o.stray > 0 && o.runtimeID in o.gaveUpAt;
    match call {
      case CallStart(newID, accepted, bridged) => PerformStart(o, newID, accepted, bridged);
      case CallStop(answered) => PerformStop(o, answered);
      case CallTick(answered) => PerformTick(o, answered);
      case CallStrayTick(answered) => PerformStrayTick(o, answered);
    }
  }

  /**
    Any calls, in any order, later starts included: no runtime is mentioned after it was given up, exactly
    when no stray goroutine has ticked while the last runtime was given up. There is no such goroutine
    unless some start replaced one that was running.
   */
  method PerformAll(o: ProviderRuntimeOwner, calls: seq<Call>) returns (ghost late: seq<bool>)
    requires o.Valid() && o.Honest() && NewIDs(calls, o.ids)
    modifies o
    ensures o.Valid() && o.Honest() && old(o.sent) <= o.sent && |late| == |calls|
    ensures forall id <- old(o.gaveUpAt) :: id in o.gaveUpAt && o.gaveUpAt[id] == old(o.gaveUpAt)[id]
    ensures SilentOnceGivenUp(o.sent, o.gaveUpAt) <==> !old(o.strayBeat) && true !in late
    ensures true in late ==> o.overlapped
  {
    late := [];
    for i := 0 to |calls|
      invariant o.Valid() && o.Honest() && old(o.sent) <= o.sent && |late| == i
      invariant o.ids == old(o.ids) + StartedIn(calls[..i])
      invariant forall id <- old(o.gaveUpAt) :: id in o.gaveUpAt && o.gaveUpAt[id] == old(o.gaveUpAt)[id]
      invariant o.strayBeat <==> old(o.strayBeat) || true in late
      invariant true in late ==> o.overlapped
    {
      StartedInGrows(calls, i);
      ghost var now := Perform(o, calls[i]);
      late := late + [now];
    }
  }

  lemma StartedInGrows(calls: seq<Call>, i: nat)
    requires i < |calls|
    ensures StartedIn(calls[..i + 1]) == StartedIn(calls[..i]) + if calls[i].CallStart? then {calls[i].newID} else {}
    ensures forall id <- StartedIn(calls[..i]) :: exists k :: 0 <= k < i && calls[k].CallStart? && calls[k].newID == id
  {
    var all, some := StartedIn(calls[..i + 1]), StartedIn(calls[..i]);
    forall id <- all
      ensures id in some || (calls[i].CallStart? && id == calls[i].newID)
    {
      var k :| 0 <= k <= i && calls[k].CallStart? && calls[k].newID == id;
      assert k < i ==> calls[..i][k] == calls[k];
    }
    forall id <- some
      ensures id in all && exists k :: 0 <= k < i && calls[k].CallStart? && calls[k].newID == id
    {
      var k :| 0 <= k < i && calls[..i][k].CallStart? && calls[..i][k].newID == id;
      assert calls[..i + 1][k] == calls[k];
    }
    assert calls[i].CallStart? ==> calls[..i + 1][i].newID in all;
  }

  // ----- The client and the provider -----

  /** The heartbeats that reach the provider under this session are among these requests. */
  ghost predicate Delivered(run: seq<Event>, requests: seq<Request>, session: string) {
    forall e <- run :: e.Heartbeat? && e.session == session ==> Beat(e.runtime) in requests
  }

  lemma GivenUpIsSilent(o: ProviderRuntimeOwner, run: seq<Event>, session: string, id: string)
    requires o.Honest() && !o.strayBeat && id in o.gaveUpAt
    requires Delivered(run, o.sent[o.gaveUpAt[id]..], session)
    ensures Silent(run, session, id)
  {
    forall e <- run | e.Heartbeat? && e.session == session
      ensures e.runtime != id
    {
      assert Beat(e.runtime) in o.sent[o.gaveUpAt[id]..];
    }
  }

  /**
    Client and provider together. The client has given the runtime up: its stop was sent, answered or not,
    or its start was lost, or a retried stop asked for nothing. From then on only requests that the client
    has sent since reach the provider. Once the monitor has looked at the clock more than the timeout after
    the last heartbeat, the runtime is stopped or its owner is stale whenever no operation is in progress,
    or the monitor still has to ask for the stop.
   */
  lemma AbandonedRuntimeIsReclaimed(o: ProviderRuntimeOwner, s: State, run: seq<Event>, r: OwnerRecord,
                                    silence: seq<Event>, later: seq<Event>)
    requires o.Honest() && !o.strayBeat && r.runtime in o.gaveUpAt
    requires Fresh(s) && Legal(s, run) && Never(s, run, RepairsDuringStart)
    requires After(s, run).owner == Some(r) && Legal(After(s, run), silence)
    requires Delivered(silence, o.sent[o.gaveUpAt[r.runtime]..], r.session)
    requires Never(After(s, run), silence, RepairsDuringStart)
    requires var t := After(After(s, run), silence);
             && t.op.NoOperation? && r.gen in t.monitors
             && t.monitors[r.gen].lastTick > r.lastHeartbeat + t.monitors[r.gen].timeout
             && Legal(t, later) && Never(t, later, RepairsDuringStart)
    ensures var u := After(After(After(s, run), silence), later);
            u.op.NoOperation? ==>
              || Reclaimed(u, r.gen)
              || (r.gen in u.monitors && u.monitors[r.gen].phase == Calling(r.session, r.runtime))
  {
    GivenUpIsSilent(o, silence, r.session, r.runtime);
    OrphanIsReclaimed(s, run, r, silence, later);
  }
}
