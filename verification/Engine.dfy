/**
  EngineController with any number of threads in Start, Stop and Shutdown, one critical section, one
  call to the runtime owner or one status publication at a time. `threads` holds the threads inside an
  operation and the point each has reached.
 */
module Engine {
  import opened Options

  datatype EngineState = Idle | Starting | Started | Stopping | Fatal

  datatype Status = Status(state: EngineState, profile: string, startedAt: nat, errorCode: string)

  datatype Point =
    | AnnounceStarting(profile: string, status: Status)
    | Building(profile: string)
    | AnnounceBuilt(owner: nat, status: Status)
    | OwnerStarting(owner: nat)
    | OwnerStarted(owner: nat)
    | StartFailing(code: string)
    | AnnounceStopping(owner: nat, status: Status)
    | OwnerStopping(owner: nat)
    | OwnerStopped
    | StopFailing(code: string)
    | AnnounceLast(status: Status)

  datatype State = State(
    now: nat, status: Status, owner: Option<nat>,
    live: set<nat>, nextOwner: nat,
    threads: map<nat, Point>,
    published: seq<Status>)

  datatype Event =
    | Advance(delta: nat)
    | BeginStart(thread: nat, profile: string)
    | Build(thread: nat)
    | OwnerStart(thread: nat, ok: bool, code: string)
    | CommitStart(thread: nat)
    | FailStart(thread: nat)
    | BeginStop(thread: nat)
    | OwnerStop(thread: nat, ok: bool, code: string)
    | CommitStop(thread: nat)
    | FailStop(thread: nat)
    | Publish(thread: nat)

  datatype Verdict = Accepted | AlreadyStarted | Busy | NotStarted

  /** beginStartLocked. */
  function StartCheck(s: State): Verdict {
    match s.status.state
    case Started => AlreadyStarted
    case Starting => Busy
    case Stopping => Busy
    case Fatal => if s.owner.Some? then Busy else Accepted
    case Idle => Accepted
  }

  /** beginStopLocked. */
  function StopCheck(s: State): Verdict {
    match s.status.state
    case Starting => Busy
    case Stopping => Busy
    case Idle => NotStarted
    case _ => if s.owner.None? then NotStarted else Accepted
  }

  /** Which state answers what, once the invariant holds: a Fatal engine can be stopped and not started. */
  lemma VerdictsByState(s: State)
    requires Inv(s)
    ensures StartCheck(s) ==
            match s.status.state
            case Idle => Accepted
            case Started => AlreadyStarted
            case _ => Busy
    ensures StopCheck(s) ==
            match s.status.state
            case Idle => NotStarted
            case Started => Accepted
            case Fatal => Accepted
            case _ => Busy
  {
  }

  predicate At(s: State, t: nat) {
    t in s.threads
  }

  predicate Announcing(p: Point) {
    p.AnnounceStarting? || p.AnnounceBuilt? || p.AnnounceStopping? || p.AnnounceLast?
  }

  predicate Enabled(s: State, e: Event) {
    match e
    case Advance(_) => true
    case BeginStart(t, _) => !At(s, t)
    case BeginStop(t) => !At(s, t)
    case Build(t) => At(s, t) && s.threads[t].Building?
    case OwnerStart(t, _, _) => At(s, t) && s.threads[t].OwnerStarting?
    case CommitStart(t) => At(s, t) && s.threads[t].OwnerStarted?
    case FailStart(t) => At(s, t) && s.threads[t].StartFailing?
    case OwnerStop(t, _, _) => At(s, t) && s.threads[t].OwnerStopping?
    case CommitStop(t) => At(s, t) && s.threads[t].OwnerStopped?
    case FailStop(t) => At(s, t) && s.threads[t].StopFailing?
    case Publish(t) => At(s, t) && Announcing(s.threads[t])
  }

  function Reserved(status: Status): Status {
    status.(state := Starting, startedAt := 0, errorCode := "")
  }

  function Stopped(status: Status): Status {
    status.(state := Idle, startedAt := 0, errorCode := "")
  }

  /** The thread's next point once the status it holds is published; a finished thread leaves. */
  function AfterPublish(threads: map<nat, Point>, t: nat): map<nat, Point>
    requires t in threads
  {
    match threads[t]
    case AnnounceStarting(profile, _) => threads[t := Building(profile)]
    case AnnounceBuilt(owner, _) => threads[t := OwnerStarting(owner)]
    case AnnounceStopping(owner, _) => threads[t := OwnerStopping(owner)]
    case _ => threads - {t}
  }

  function Apply(s: State, e: Event): State
    requires Enabled(s, e)
  {
    match e
    case Advance(delta) => s.(now := s.now + delta)
    case BeginStart(t, profile) =>
      if StartCheck(s) != Accepted then s
      else s.(status := Reserved(s.status), threads := s.threads[t := AnnounceStarting(profile, Reserved(s.status))])
    case Build(t) =>
      var status := s.status.(profile := s.threads[t].profile);
      s.(status := status, nextOwner := s.nextOwner + 1, threads := s.threads[t := AnnounceBuilt(s.nextOwner, status)])
    case OwnerStart(t, ok, code) =>
      if ok
      then s.(live := s.live + {s.threads[t].owner}, threads := s.threads[t := OwnerStarted(s.threads[t].owner)])
      else s.(threads := s.threads[t := StartFailing(code)])
    case CommitStart(t) =>
      var status := s.status.(state := Started, startedAt := s.now);
      s.(owner := Some(s.threads[t].owner), status := status, threads := s.threads[t := AnnounceLast(status)])
    case FailStart(t) =>
      var status := s.status.(state := Idle, profile := "", startedAt := 0, errorCode := s.threads[t].code);
      s.(owner := None, status := status, threads := s.threads[t := AnnounceLast(status)])
    case BeginStop(t) =>
      if StopCheck(s) != Accepted then s
      else
        var status := s.status.(state := Stopping);
        s.(status := status, threads := s.threads[t := AnnounceStopping(s.owner.value, status)])
    case OwnerStop(t, ok, code) =>
      if ok
      then s.(live := s.live - {s.threads[t].owner}, threads := s.threads[t := OwnerStopped])
      else s.(threads := s.threads[t := StopFailing(code)])
    case CommitStop(t) =>
      s.(owner := None, status := Stopped(s.status), threads := s.threads[t := AnnounceLast(Stopped(s.status))])
    case FailStop(t) =>
      var status := s.status.(state := Fatal, errorCode := s.threads[t].code);
      s.(status := status, threads := s.threads[t := AnnounceLast(status)])
    case Publish(t) =>
      s.(published := s.published + [s.threads[t].status], threads := AfterPublish(s.threads, t))
  }

  // ----- Runs -----

  ghost predicate Legal(s: State, run: seq<Event>)
    decreases |run|
  {
    run == [] || (Enabled(s, run[0]) && Legal(Apply(s, run[0]), run[1..]))
  }

  ghost function After(s: State, run: seq<Event>): State
    requires Legal(s, run)
    decreases |run|
  {
    if run == [] then s else After(Apply(s, run[0]), run[1..])
  }

  /** NewEngineController, its first status published. */
  predicate Fresh(s: State) {
    && s.status == Status(Idle, "", 0, "") && s.owner.None? && s.live == {} && s.threads == map[]
    && s.published == [s.status]
  }

  /** One more event at the end of a run. */
  lemma {:induction false} Then(s: State, run: seq<Event>, t: State, e: Event)
    returns (run': seq<Event>, t': State)
    requires Legal(s, run) && After(s, run) == t && Enabled(t, e)
    ensures run' == run + [e] && t' == Apply(t, e)
    ensures Legal(s, run') && After(s, run') == t'
    decreases |run|
  {
    run', t' := run + [e], Apply(t, e);
    if run == [] {
      assert [e][1..] == [];
    } else {
      var rest, _ := Then(Apply(s, run[0]), run[1..], t, e);
      assert run'[1..] == rest;
    }
  }

  // ----- The state value is a lock -----

  /** The thread is inside a start or a stop, and holds the engine by its Starting or Stopping state. */
  predicate Holds(p: Point) {
    !p.AnnounceLast?
  }

  predicate Starts(p: Point) {
    p.AnnounceStarting? || p.Building? || p.AnnounceBuilt? || p.OwnerStarting? || p.OwnerStarted? || p.StartFailing?
  }

  /** What is live while a thread is at this point, and the owner it works on. */
  predicate HolderAgrees(s: State, p: Point) {
    if Starts(p) then
      && s.status.state == Starting && s.owner.None?
      && s.live == (if p.OwnerStarted? then {p.owner} else {})
    else
      && s.status.state == Stopping && s.owner.Some?
      && (p.AnnounceStopping? || p.OwnerStopping? ==> p.owner == s.owner.value)
      && s.live == (if p.OwnerStopped? then {} else {s.owner.value})
  }

  ghost predicate OneHolder(s: State) {
    forall t, u :: t in s.threads && u in s.threads && Holds(s.threads[t]) && Holds(s.threads[u]) ==> t == u
  }

  /**
    `live` holds the owners that have started and whose stop has not reported success; an owner may report
    it for a runtime that the provider still runs.
    Idle and Starting without a stored owner, Started, Stopping and Fatal with one, and never more than
    one owner live.
   */
  predicate OwnerMatchesState(s: State) {
    && (s.status.state in {Idle, Starting} <==> s.owner.None?)
    && |s.live| <= 1
    && (s.status.state in {Started, Fatal} ==> s.live == {s.owner.value})
    && (s.status.state == Idle ==> s.live == {})
  }

  ghost predicate Inv(s: State) {
    && OwnerMatchesState(s)
    && OneHolder(s)
    && (forall t <- s.threads :: Holds(s.threads[t]) ==> HolderAgrees(s, s.threads[t]))
    && (s.status.state in {Starting, Stopping} ==> exists t :: t in s.threads && Holds(s.threads[t]))
  }

  lemma StepKeepsOwner(s: State, e: Event)
    requires Enabled(s, e) && Inv(s)
    ensures OwnerMatchesState(Apply(s, e))
  {
  }

  lemma StepKeepsOneHolder(s: State, e: Event)
    requires Enabled(s, e) && Inv(s)
    ensures OneHolder(Apply(s, e))
  {
  }

  lemma StepKeepsAgreement(s: State, e: Event, t: nat)
    requires Enabled(s, e) && Inv(s)
    requires var u := Apply(s, e); t in u.threads && Holds(u.threads[t])
    ensures var u := Apply(s, e); HolderAgrees(u, u.threads[t])
  {
    if !e.Advance? && t != e.thread {
      assert t in s.threads && Holds(s.threads[t]) && HolderAgrees(s, s.threads[t]);
    }
  }

  lemma StepKeepsHeld(s: State, e: Event)
    requires Enabled(s, e) && Inv(s)
    ensures var u := Apply(s, e);
            u.status.state in {Starting, Stopping} ==> exists t :: t in u.threads && Holds(u.threads[t])
  {
    var u := Apply(s, e);
    if u.status.state in {Starting, Stopping} {
      if s.status.state in {Starting, Stopping} {
        var t :| t in s.threads && Holds(s.threads[t]);
        assert t in u.threads && Holds(u.threads[t]);
      } else {
        assert Holds(u.threads[e.thread]);
      }
    }
  }

  lemma StepKeepsInv(s: State, e: Event)
    requires Enabled(s, e) && Inv(s)
    ensures Inv(Apply(s, e))
  {
    StepKeepsOwner(s, e);
    StepKeepsOneHolder(s, e);
    forall t | t in Apply(s, e).threads && Holds(Apply(s, e).threads[t])
      ensures HolderAgrees(Apply(s, e), Apply(s, e).threads[t])
    {
      StepKeepsAgreement(s, e, t);
    }
    StepKeepsHeld(s, e);
  }

  /** Every interleaving of any number of threads. In particular Fatal never lacks its owner. */
  lemma {:induction false} EngineInvariant(s: State, run: seq<Event>)
    requires Inv(s) && Legal(s, run)
    ensures Inv(After(s, run))
    decreases |run|
  {
    if run != [] {
      StepKeepsInv(s, run[0]);
      EngineInvariant(Apply(s, run[0]), run[1..]);
    }
  }

  // ----- Status publication -----

  predicate Moves(a: EngineState, b: EngineState) {
    match a
    case Idle => b == Starting
    case Starting => b == Started || b == Idle
    case Started => b == Stopping
    case Stopping => b == Idle || b == Fatal
    case Fatal => b == Stopping
  }

  /** Consecutive statuses stay in a state or take one edge of the engine's transition graph. */
  ghost predicate Walk(published: seq<Status>) {
    forall i :: 0 < i < |published| ==>
      published[i - 1].state == published[i].state || Moves(published[i - 1].state, published[i].state)
  }

  lemma EngineMovesAlongGraph(s: State, e: Event)
    requires Enabled(s, e) && Inv(s)
    ensures var u := Apply(s, e); u.status.state == s.status.state || Moves(s.status.state, u.status.state)
  {
  }

  /** An operation begins while another thread is still inside one. */
  predicate Overlaps(s: State, e: Event) {
    (e.BeginStart? || e.BeginStop?) && s.threads != map[]
  }

  ghost predicate Serialised(s: State, run: seq<Event>)
    requires Legal(s, run)
    decreases |run|
  {
    run == [] || (!Overlaps(s, run[0]) && Serialised(Apply(s, run[0]), run[1..]))
  }

  predicate LastPublished(s: State, status: Status) {
    s.published != [] && s.published[|s.published| - 1] == status
  }

  /** A start with nothing else going on, up to the publication of its last status. */
  lemma StartAlone(s: State, profile: string, ok: bool, code: string)
    returns (run: seq<Event>, t: State)
    requires s.threads == map[] && StartCheck(s).Accepted?
    ensures Legal(s, run) && After(s, run) == t && 0 in t.threads && t.threads == map[0 := AnnounceLast(t.status)]
    ensures ok ==> t.status == Status(Started, profile, s.now, "") && t.owner == Some(s.nextOwner)
                   && t.live == s.live + {s.nextOwner}
    ensures !ok ==> t.status == Status(Idle, "", 0, code) && t.owner.None? && t.live == s.live
    ensures t.nextOwner == s.nextOwner + 1 && t.now == s.now
  {
    assert Legal(s, []) && After(s, []) == s;
    run, t := Then(s, [], s, BeginStart(0, profile));
    run, t := Then(s, run, t, Publish(0));
    run, t := Then(s, run, t, Build(0));
    run, t := Then(s, run, t, Publish(0));
    run, t := Then(s, run, t, OwnerStart(0, ok, code));
    if ok {
      run, t := Then(s, run, t, CommitStart(0));
    } else {
      run, t := Then(s, run, t, FailStart(0));
    }
  }

  /** A stop that failed can be tried again: from Fatal, with nothing else going on, back to Idle. */
  lemma FatalCanBeStopped(s: State) returns (run: seq<Event>, t: State)
    requires Inv(s) && s.status.state == Fatal && s.threads == map[]
    ensures Legal(s, run) && After(s, run) == t && t.threads == map[]
    ensures t.status == Status(Idle, s.status.profile, 0, "") && t.owner.None? && t.live == {}
  {
    assert Legal(s, []) && After(s, []) == s;
    run, t := Then(s, [], s, BeginStop(0));
    run, t := Then(s, run, t, Publish(0));
    run, t := Then(s, run, t, OwnerStop(0, true, ""));
    run, t := Then(s, run, t, CommitStop(0));
    run, t := Then(s, run, t, Publish(0));
  }

  /**
    Without that mutex the statuses can be published in another order than they were taken on: here a
    start and a stop overlap and leave an idle engine last seen as started.
   */
  lemma OverlapMisleads(s: State, profile: string) returns (run: seq<Event>, t: State)
    requires Fresh(s)
    ensures Legal(s, run) && After(s, run) == t && t.threads == map[]
    ensures t.published != [] && t.status.state == Idle && t.published[|t.published| - 1].state == Started
  {
    run, t := StartAlone(s, profile, true, "");
    run, t := Then(s, run, t, BeginStop(1));
    run, t := Then(s, run, t, Publish(1));
    run, t := Then(s, run, t, OwnerStop(1, true, ""));
    run, t := Then(s, run, t, CommitStop(1));
    run, t := Then(s, run, t, Publish(1));
    run, t := Then(s, run, t, Publish(0));
  }
}
