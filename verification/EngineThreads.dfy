/**
  EngineController as code: Start, Stop and Shutdown written out section by section, with the other
  threads running in between, and proved to be runs of the machine of module Engine.
 */
module EngineThreads {
  import opened Options
  import opened Engine

  predicate ByThread(e: Event, me: nat) {
    !e.Advance? && e.thread == me
  }

  ghost function EventsOf(run: seq<Event>, me: nat): seq<Event> {
    if run == [] then []
    else OneOf(run[0], me) + EventsOf(run[1..], me)
  }

  ghost function OneOf(e: Event, me: nat): seq<Event> {
    if ByThread(e, me) then [e] else []
  }

  lemma {:induction false} EventsOfConcat(a: seq<Event>, b: seq<Event>, me: nat)
    ensures EventsOf(a + b, me) == EventsOf(a, me) + EventsOf(b, me)
  {
    if a == [] {
      assert a + b == b;
    } else {
      var rest, tail := EventsOf(a[1..], me), EventsOf(b, me);
      assert EventsOf(a + b, me) == OneOf(a[0], me) + (rest + tail) by {
        EventsOfConcat(a[1..], b, me);
        assert (a + b)[1..] == a[1..] + b;
      }
      assert OneOf(a[0], me) + (rest + tail) == (OneOf(a[0], me) + rest) + tail;
    }
  }

  /**
    What the other threads may do to the engine between two sections of thread `me`. While `me` is inside
    a start or a stop, the Starting or Stopping state keeps them away from the status and the owner.
   */
  ghost predicate Rely(s: State, t: State, me: nat) {
    && s.now <= t.now && s.nextOwner <= t.nextOwner && s.published <= t.published
    && (me in s.threads <==> me in t.threads)
    && (me in s.threads ==> t.threads[me] == s.threads[me])
    && (me in s.threads && Holds(s.threads[me]) ==>
          t.status == s.status && t.owner == s.owner && t.live == s.live && t.nextOwner == s.nextOwner)
  }

  lemma OthersKeepRely(s: State, t: State, e: Event, me: nat)
    requires Inv(t) && Rely(s, t, me) && Enabled(t, e) && !ByThread(e, me)
    ensures Rely(s, Apply(t, e), me)
  {
  }

  /** The program order of a start after its first section. */
  function Succeeded(me: nat): seq<Event> {
    [Publish(me), Build(me), Publish(me), OwnerStart(me, true, ""), CommitStart(me), Publish(me)]
  }

  function Failed(me: nat, code: string): seq<Event> {
    [Publish(me), Build(me), Publish(me), OwnerStart(me, false, code), FailStart(me), Publish(me)]
  }

  class EngineController {
    var status: Status
    var runtimeOwner: Option<nat>
    // The world the controller acts on, and the program points of the threads.
    var now: nat
    var nextOwner: nat
    var live: set<nat>
    var threads: map<nat, Point>
    var published: seq<Status>
    ghost const initial: State
    ghost var trace: seq<Event>

    function View(): State
      reads this
    {
      State(now, status, runtimeOwner, live, nextOwner, threads, published)
    }

    ghost predicate Valid()
      reads this
    {
      Fresh(initial) && Legal(initial, trace) && After(initial, trace) == View()
    }

    lemma OwnerAgrees()
      requires Valid()
      ensures OwnerMatchesState(View())
    {
      InvHolds();
    }

    lemma VerdictsHold()
      requires Valid()
      ensures StartCheck(View()) ==
              match status.state
              case Idle => Accepted
              case Started => AlreadyStarted
              case _ => Busy
      ensures StopCheck(View()) ==
              match status.state
              case Idle => NotStarted
              case Started => Accepted
              case Fatal => Accepted
              case _ => Busy
    {
      InvHolds();
      VerdictsByState(View());
    }

    /** What every interleaving keeps holds of the controller. */
    lemma InvHolds()
      requires Valid()
      ensures Inv(View())
    {
      EngineInvariant(initial, trace);
    }

    constructor (now: nat)
      ensures Valid() && threads == map[] && published == [status] && status.state == Idle
    {
      this.now, nextOwner, live, threads := now, 0, {}, map[];
      status, runtimeOwner := Status(Idle, "", 0, ""), None;
      published := [Status(Idle, "", 0, "")];
      initial := State(now, Status(Idle, "", 0, ""), None, {}, 0, map[], [Status(Idle, "", 0, "")]);
      trace := [];
    }

    ghost method Record(e: Event, before: State)
      requires Fresh(initial) && Legal(initial, trace) && After(initial, trace) == before
      requires Enabled(before, e) && View() == Apply(before, e)
      modifies this`trace
      ensures Valid() && trace == old(trace) + [e]
      ensures forall me :: EventsOf(trace, me) ==
                           if ByThread(e, me) then EventsOf(old(trace), me) + [e] else EventsOf(old(trace), me)
    {
      var run, t := Then(initial, trace, before, e);
      forall me
        ensures EventsOf(trace + [e], me) ==
                if ByThread(e, me) then EventsOf(trace, me) + [e] else EventsOf(trace, me)
      {
        EventsOfConcat(trace, [e], me);
        assert [e][1..] == [];
      }
      trace := run;
    }

    method Interfere(me: nat)
      requires Valid()
      modifies this
      ensures Valid() && Rely(old(View()), View(), me)
      ensures EventsOf(trace, me) == old(EventsOf(trace, me))
    {
      var n: nat := *;
      while n > 0
        invariant Valid() && Rely(old(View()), View(), me)
        invariant EventsOf(trace, me) == old(EventsOf(trace, me))
      {
        var e: Event := *;
        if !ByThread(e, me) && Enabled(View(), e) {
          ghost var before := View();
          InvHolds();
          OthersKeepRely(old(View()), before, e, me);
          var s := Apply(View(), e);
          now, status, runtimeOwner, live := s.now, s.status, s.owner, s.live;
          nextOwner, threads, published := s.nextOwner, s.threads, s.published;
          Record(e, before);
        }
        n := n - 1;
      }
    }

    method PublishStatus(me: nat)
      requires Valid() && Enabled(View(), Publish(me))
      modifies this
      ensures Valid() && View() == Apply(old(View()), Publish(me))
      ensures EventsOf(trace, me) == old(EventsOf(trace, me)) + [Publish(me)]
    {
      ghost var before := View();
      published := published + [threads[me].status];
      threads := AfterPublish(threads, me);
      Record(Publish(me), before);
    }

    // ----- Start -----

    /** beginStartLocked. */
    method BeginStartSection(me: nat, profile: string) returns (verdict: Verdict)
      requires Valid() && me !in threads
      modifies this
      ensures Valid() && verdict == StartCheck(old(View()))
      ensures View() == Apply(old(View()), BeginStart(me, profile))
      ensures EventsOf(trace, me) == old(EventsOf(trace, me)) + [BeginStart(me, profile)]
    {
      ghost var before := View();
      match status.state {
        case Started => verdict := AlreadyStarted;
        case Starting => verdict := Busy;
        case Stopping => verdict := Busy;
        case Fatal => verdict := if runtimeOwner.Some? then Busy else Accepted;
        case Idle => verdict := Accepted;
      }
      if verdict == Accepted {
        status := status.(state := Starting, startedAt := 0, errorCode := "");
        threads := threads[me := AnnounceStarting(profile, status)];
      }
      Record(BeginStart(me, profile), before);
    }

    method BuildSection(me: nat)
      requires Valid() && Enabled(View(), Build(me))
      modifies this
      ensures Valid() && View() == Apply(old(View()), Build(me))
      ensures EventsOf(trace, me) == old(EventsOf(trace, me)) + [Build(me)]
    {
      ghost var before := View();
      status := status.(profile := threads[me].profile);
      threads := threads[me := AnnounceBuilt(nextOwner, status)];
      nextOwner := nextOwner + 1;
      Record(Build(me), before);
    }

    method StartOwner(me: nat) returns (ok: bool, code: string)
      requires Valid() && me in threads && threads[me].OwnerStarting?
      modifies this
      ensures Valid() && View() == Apply(old(View()), OwnerStart(me, ok, code))
      ensures EventsOf(trace, me) == old(EventsOf(trace, me)) + [OwnerStart(me, ok, code)]
      ensures ok ==> code == ""
    {
      ghost var before := View();
      ok, code := *, "";
      if ok {
        live := live + {threads[me].owner};
        threads := threads[me := OwnerStarted(threads[me].owner)];
      } else {
        code := *;
        threads := threads[me := StartFailing(code)];
      }
      Record(OwnerStart(me, ok, code), before);
    }

    method CommitStartSection(me: nat)
      requires Valid() && Enabled(View(), CommitStart(me))
      modifies this
      ensures Valid() && View() == Apply(old(View()), CommitStart(me))
      ensures EventsOf(trace, me) == old(EventsOf(trace, me)) + [CommitStart(me)]
    {
      ghost var before := View();
      runtimeOwner := Some(threads[me].owner);
      status := status.(state := Started, startedAt := now);
      threads := threads[me := AnnounceLast(status)];
      Record(CommitStart(me), before);
    }

    /** finishStartFailure. */
    method FailStartSection(me: nat)
      requires Valid() && Enabled(View(), FailStart(me))
      modifies this
      ensures Valid() && View() == Apply(old(View()), FailStart(me))
      ensures EventsOf(trace, me) == old(EventsOf(trace, me)) + [FailStart(me)]
    {
      ghost var before := View();
      status := status.(state := Idle, profile := "", startedAt := 0, errorCode := threads[me].code);
      runtimeOwner := None;
      threads := threads[me := AnnounceLast(status)];
      Record(FailStart(me), before);
    }

    method AnnounceStart(me: nat)
      requires Valid() && me in threads && threads[me].AnnounceStarting?
      modifies this
      ensures Valid() && me in threads && threads[me] == Building(old(threads[me].profile))
      ensures old(now) <= now && nextOwner == old(nextOwner)
      ensures status == old(status) && runtimeOwner == old(runtimeOwner) && live == old(live)
      ensures EventsOf(trace, me) == old(EventsOf(trace, me)) + [Publish(me)]
    {
      Interfere(me);
      PublishStatus(me);
      Interfere(me);
    }

    /** From the reservation of the engine to the call of the new owner. */
    method PrepareOwner(me: nat)
      requires Valid() && me in threads && threads[me].AnnounceStarting?
      modifies this
      ensures Valid() && me in threads && threads[me] == OwnerStarting(old(nextOwner))
      ensures old(now) <= now && status == old(status).(profile := old(threads[me].profile))
      ensures runtimeOwner == old(runtimeOwner) && live == old(live)
      ensures EventsOf(trace, me) == old(EventsOf(trace, me)) + [Publish(me), Build(me), Publish(me)]
    {
      AnnounceStart(me);
      BuildSection(me);
      Interfere(me);
      PublishStatus(me);
    }

    /** The call of the new owner, and the section that records how it went. */
    method RunOwner(me: nat) returns (ok: bool, last: Status)
      requires Valid() && me in threads && threads[me].OwnerStarting? && status.errorCode == ""
      modifies this
      ensures Valid() && me in threads && threads[me] == AnnounceLast(last) && status == last
      ensures ok ==>
                && old(now) <= last.startedAt && last == Status(Started, old(status.profile), last.startedAt, "")
                && runtimeOwner == Some(old(threads[me].owner)) && live == {old(threads[me].owner)}
                && EventsOf(trace, me) == old(EventsOf(trace, me)) + [OwnerStart(me, true, ""), CommitStart(me)]
      ensures !ok ==>
                && last == Status(Idle, "", 0, last.errorCode) && runtimeOwner.None? && live == {}
                && EventsOf(trace, me) ==
                     old(EventsOf(trace, me)) + [OwnerStart(me, false, last.errorCode), FailStart(me)]
    {
      Interfere(me);
      var code;
      ok, code := StartOwner(me);
      Interfere(me);
      if ok {
        CommitStartSection(me);
      } else {
        FailStartSection(me);
      }
      OwnerAgrees();
      last := status;
    }

    /** All of a start after its first section. */
    method RunStart(me: nat) returns (ok: bool, last: Status)
      requires Valid() && me in threads && threads[me].AnnounceStarting? && status.errorCode == ""
      modifies this
      ensures Valid() && me !in threads
      ensures ok ==>
                && last == Status(Started, old(threads[me].profile), last.startedAt, "") && old(now) <= last.startedAt
                && EventsOf(trace, me) == old(EventsOf(trace, me)) + Succeeded(me)
      ensures !ok ==>
                && last == Status(Idle, "", 0, last.errorCode)
                && EventsOf(trace, me) == old(EventsOf(trace, me)) + Failed(me, last.errorCode)
    {
      PrepareOwner(me);
      ok, last := RunOwner(me);
      Interfere(me);
      PublishStatus(me);
    }

    method Start(me: nat, profile: string) returns (verdict: Verdict, ok: bool, last: Status)
      requires Valid() && me !in threads
      modifies this
      ensures Valid() && me !in threads
      ensures verdict ==
              match old(status).state
              case Idle => Accepted
              case Started => AlreadyStarted
              case _ => Busy
      ensures verdict != Accepted ==> !ok && View() == old(View())
      ensures ok ==>
                && last == Status(Started, profile, last.startedAt, "") && old(now) <= last.startedAt
                && EventsOf(trace, me) == old(EventsOf(trace, me)) + [BeginStart(me, profile)] + Succeeded(me)
      ensures verdict == Accepted && !ok ==>
                && last == Status(Idle, "", 0, last.errorCode)
                && EventsOf(trace, me) ==
                     old(EventsOf(trace, me)) + [BeginStart(me, profile)] + Failed(me, last.errorCode)
    {
      ok, last := false, status;
      VerdictsHold();
      verdict := BeginStartSection(me, profile);
      if verdict == Accepted {
        ok, last := RunStart(me);
      }
    }

    // ----- Stop and Shutdown -----

    /** beginStopLocked. */
    method BeginStopSection(me: nat) returns (verdict: Verdict)
      requires Valid() && me !in threads
      modifies this
      ensures Valid() && verdict == StopCheck(old(View()))
      ensures View() == Apply(old(View()), BeginStop(me))
      ensures EventsOf(trace, me) == old(EventsOf(trace, me)) + [BeginStop(me)]
    {
      ghost var before := View();
      match status.state {
        case Starting => verdict := Busy;
        case Stopping => verdict := Busy;
        case Idle => verdict := NotStarted;
        case Started => verdict := if runtimeOwner.None? then NotStarted else Accepted;
        case Fatal => verdict := if runtimeOwner.None? then NotStarted else Accepted;
      }
      if verdict == Accepted {
        status := status.(state := Stopping);
        threads := threads[me := AnnounceStopping(runtimeOwner.value, status)];
      }
      Record(BeginStop(me), before);
    }

    method StopOwner(me: nat) returns (ok: bool, code: string)
      requires Valid() && me in threads && threads[me].OwnerStopping?
      modifies this
      ensures Valid() && View() == Apply(old(View()), OwnerStop(me, ok, code))
      ensures EventsOf(trace, me) == old(EventsOf(trace, me)) + [OwnerStop(me, ok, code)]
      ensures ok ==> code == ""
    {
      ghost var before := View();
      ok, code := *, "";
      if ok {
        live := live - {threads[me].owner};
        threads := threads[me := OwnerStopped];
      } else {
        code := *;
        threads := threads[me := StopFailing(code)];
      }
      Record(OwnerStop(me, ok, code), before);
    }

    /** finishStopSuccess. */
    method CommitStopSection(me: nat)
      requires Valid() && Enabled(View(), CommitStop(me))
      modifies this
      ensures Valid() && View() == Apply(old(View()), CommitStop(me))
      ensures EventsOf(trace, me) == old(EventsOf(trace, me)) + [CommitStop(me)]
    {
      ghost var before := View();
      runtimeOwner := None;
      status := status.(state := Idle, startedAt := 0, errorCode := "");
      threads := threads[me := AnnounceLast(status)];
      Record(CommitStop(me), before);
    }

    method FailStopSection(me: nat)
      requires Valid() && Enabled(View(), FailStop(me))
      modifies this
      ensures Valid() && View() == Apply(old(View()), FailStop(me))
      ensures EventsOf(trace, me) == old(EventsOf(trace, me)) + [FailStop(me)]
    {
      ghost var before := View();
      status := status.(state := Fatal, errorCode := threads[me].code);
      threads := threads[me := AnnounceLast(status)];
      Record(FailStop(me), before);
    }

    method AnnounceStop(me: nat)
      requires Valid() && me in threads && threads[me].AnnounceStopping?
      modifies this
      ensures Valid() && me in threads && threads[me] == OwnerStopping(old(threads[me].owner))
      ensures status == old(status) && runtimeOwner == old(runtimeOwner) && live == old(live)
      ensures EventsOf(trace, me) == old(EventsOf(trace, me)) + [Publish(me)]
    {
      Interfere(me);
      PublishStatus(me);
      Interfere(me);
    }

    /** All of a stop after its first section, up to its last status. */
    method RunStop(me: nat) returns (ok: bool, last: Status)
      requires Valid() && me in threads && threads[me].AnnounceStopping? && runtimeOwner.Some?
      modifies this
      ensures Valid() && me in threads && threads[me] == AnnounceLast(last) && status == last
      ensures ok ==>
                && last == Stopped(old(status)) && runtimeOwner.None? && live == {}
                && EventsOf(trace, me) == old(EventsOf(trace, me))
                     + [Publish(me), OwnerStop(me, true, ""), CommitStop(me)]
      ensures !ok ==>
                && last == old(status).(state := Fatal, errorCode := last.errorCode)
                && runtimeOwner == old(runtimeOwner) && live == {old(runtimeOwner).value}
                && EventsOf(trace, me) == old(EventsOf(trace, me))
                     + [Publish(me), OwnerStop(me, false, last.errorCode), FailStop(me)]
    {
      AnnounceStop(me);
      var code;
      ok, code := StopOwner(me);
      Interfere(me);
      if ok {
        CommitStopSection(me);
      } else {
        FailStopSection(me);
      }
      OwnerAgrees();
      last := status;
    }

    method Stop(me: nat) returns (verdict: Verdict, ok: bool, last: Status)
      requires Valid() && me !in threads
      modifies this
      ensures Valid() && me !in threads
      ensures verdict ==
              match old(status).state
              case Idle => NotStarted
              case Started => Accepted
              case Fatal => Accepted
              case _ => Busy
      ensures verdict != Accepted ==> !ok && View() == old(View())
      ensures ok ==>
                && last == Status(Idle, old(status).profile, 0, "")
                && EventsOf(trace, me) == old(EventsOf(trace, me)) + [BeginStop(me)]
                     + [Publish(me), OwnerStop(me, true, ""), CommitStop(me)] + [Publish(me)]
      ensures verdict == Accepted && !ok ==>
                && last == old(status).(state := Fatal, errorCode := last.errorCode)
                && EventsOf(trace, me) == old(EventsOf(trace, me)) + [BeginStop(me)]
                     + [Publish(me), OwnerStop(me, false, last.errorCode), FailStop(me)] + [Publish(me)]
    {
      ok, last := false, status;
      VerdictsHold();
      verdict := BeginStopSection(me);
      if verdict == Accepted {
        ok, last := RunStop(me);
        Interfere(me);
        PublishStatus(me);
      }
    }

    /** As Stop, but an engine that is not running is no error. */
    method Shutdown(me: nat) returns (ok: bool)
      requires Valid() && me !in threads
      modifies this
      ensures Valid() && me !in threads
      ensures old(status).state == Idle ==> ok && View() == old(View())
      ensures old(status).state in {Starting, Stopping} ==> !ok && View() == old(View())
      ensures old(status).state in {Started, Fatal} ==>
                exists code :: EventsOf(trace, me) == old(EventsOf(trace, me)) + [BeginStop(me)]
                     + [Publish(me), OwnerStop(me, ok, code), if ok then CommitStop(me) else FailStop(me)]
                     + [Publish(me)]
    {
      var verdict, last;
      verdict, ok, last := Stop(me);
      if verdict == NotStarted {
        return true;
      }
      ghost var code := if ok then "" else last.errorCode;
      assert verdict == Accepted ==>
          EventsOf(trace, me) == old(EventsOf(trace, me)) + [BeginStop(me)]
            + [Publish(me), OwnerStop(me, ok, code), if ok then CommitStop(me) else FailStop(me)] + [Publish(me)];
    }
  }
}
