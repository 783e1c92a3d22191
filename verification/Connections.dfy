/**
  The connections a running box routes, as the traffic tracker sees them: one step for each section that
  other threads can tell apart. Wrapping a connection takes two, adding it to the table and then naming the
  function that closes it; closing it takes two, taking it off the table and then calling that function.
 */
module Connections {
  import opened Options
  import opened Text

  /** Of the once-guarded close: not entered, past the table, and done. */
  datatype Stage = Open | Closing | Closed

  datatype Connection = Connection(closable: bool, stage: Stage, closes: nat, upload: nat, download: nat)

  datatype State = State(added: seq<Connection>, open: set<string>, upload: nat, download: nat)

  datatype Event =
    | Add
    | Wrap(i: nat)
    | Upload(i: nat, n: int)
    | Download(i: nat, n: int)
    | CloseBegin(i: nat)
    | CloseEnd(i: nat)

  const START := State([], {}, 0, 0)

  function ConnectionId(i: nat): string {
    "conn_" + Decimal(i + 1)
  }

  lemma ConnectionIdsDiffer(i: nat, j: nat)
    requires ConnectionId(i) == ConnectionId(j)
    ensures i == j
  {
    assert ConnectionId(i)[5..] == Decimal(i + 1) && ConnectionId(j)[5..] == Decimal(j + 1);
    DecimalIsInjective(i + 1, j + 1);
  }

  // ----- The tracker -----

  function Positive(n: int): nat {
    if n <= 0 then 0 else n
  }

  /** The function that closes is read, if it is there by now. */
  function ClosedUnderneath(c: Connection): Connection {
    c.(stage := Closed, closes := c.closes + if c.closable then 1 else 0)
  }

  predicate Enabled(s: State, e: Event) {
    e.Add? || (e.i < |s.added| && (e.CloseEnd? ==> s.added[e.i].stage.Closing?))
  }

  function Step(s: State, e: Event): State
    requires Enabled(s, e)
  {
    match e
    case Add =>
      s.(added := s.added + [Connection(false, Open, 0, 0, 0)], open := s.open + {ConnectionId(|s.added|)})
    case Wrap(i) =>
      s.(added := s.added[i := s.added[i].(closable := true)])
    case Upload(i, n) =>
      s.(added := s.added[i := s.added[i].(upload := s.added[i].upload + Positive(n))],
         upload := s.upload + Positive(n))
    case Download(i, n) =>
      s.(added := s.added[i := s.added[i].(download := s.added[i].download + Positive(n))],
         download := s.download + Positive(n))
    case CloseBegin(i) =>
      if !s.added[i].stage.Open? then s
      else s.(added := s.added[i := s.added[i].(stage := Closing)], open := s.open - {ConnectionId(i)})
    case CloseEnd(i) =>
      s.(added := s.added[i := ClosedUnderneath(s.added[i])])
  }

  predicate Legal(s: State, events: seq<Event>)
    decreases |events|
  {
    events == [] || (Enabled(s, events[0]) && Legal(Step(s, events[0]), events[1..]))
  }

  function After(s: State, events: seq<Event>): State
    requires Legal(s, events)
    decreases |events|
  {
    if events == [] then s else After(Step(s, events[0]), events[1..])
  }

  lemma {:induction false} Then(s: State, events: seq<Event>, e: Event)
    requires Legal(s, events) && Enabled(After(s, events), e)
    ensures Legal(s, events + [e]) && After(s, events + [e]) == Step(After(s, events), e)
    decreases |events|
  {
    if events == [] {
      assert [e][1..] == [];
    } else {
      assert (events + [e])[1..] == events[1..] + [e];
      Then(Step(s, events[0]), events[1..], e);
    }
  }

  // ----- What every run keeps -----

  function Uploaded(cs: seq<Connection>): nat {
    if cs == [] then 0 else cs[0].upload + Uploaded(cs[1..])
  }

  function Downloaded(cs: seq<Connection>): nat {
    if cs == [] then 0 else cs[0].download + Downloaded(cs[1..])
  }

  /** The totals cover every connection ever added, closed ones too. */
  predicate Conserved(s: State) {
    s.upload == Uploaded(s.added) && s.download == Downloaded(s.added)
  }

  ghost predicate Named(s: State, id: string) {
    exists i :: 0 <= i < |s.added| && id == ConnectionId(i)
  }

  /** The table lists exactly the connections no one has begun to close, and none was closed twice. */
  ghost predicate Listed(s: State) {
    && (forall i | 0 <= i < |s.added| :: ConnectionId(i) in s.open <==> s.added[i].stage.Open?)
    && (forall id <- s.open :: Named(s, id))
    && (forall c <- s.added :: c.closes <= 1 && (c.closes == 1 ==> c.stage.Closed?))
  }

  ghost predicate Sound(s: State) {
    Conserved(s) && Listed(s)
  }

  lemma {:induction false} SumsOfOneMore(cs: seq<Connection>, c: Connection)
    ensures Uploaded(cs + [c]) == Uploaded(cs) + c.upload
    ensures Downloaded(cs + [c]) == Downloaded(cs) + c.download
  {
    if cs == [] {
      assert cs + [c] == [c];
    } else {
      assert (cs + [c])[1..] == cs[1..] + [c];
      SumsOfOneMore(cs[1..], c);
    }
  }

  lemma {:induction false} SumsOfOneChanged(cs: seq<Connection>, i: nat, c: Connection)
    requires i < |cs|
    ensures Uploaded(cs[i := c]) == Uploaded(cs) - cs[i].upload + c.upload
    ensures Downloaded(cs[i := c]) == Downloaded(cs) - cs[i].download + c.download
  {
    if i == 0 {
      assert cs[i := c][1..] == cs[1..];
    } else {
      assert cs[i := c][1..] == cs[1..][i - 1 := c];
      SumsOfOneChanged(cs[1..], i - 1, c);
    }
  }

  lemma StepConserves(s: State, e: Event)
    requires Enabled(s, e) && Conserved(s)
    ensures Conserved(Step(s, e))
    ensures s.upload <= Step(s, e).upload && s.download <= Step(s, e).download
  {
    var t := Step(s, e);
    if e.Add? {
      SumsOfOneMore(s.added, t.added[|s.added|]);
    } else {
      SumsOfOneChanged(s.added, e.i, t.added[e.i]);
    }
  }

  lemma StepKeepsNames(s: State, e: Event)
    requires Enabled(s, e) && Listed(s)
    ensures forall id <- Step(s, e).open :: Named(Step(s, e), id)
  {
    var t := Step(s, e);
    forall id <- t.open
      ensures Named(t, id)
    {
      if id in s.open {
        assert Named(s, id);
      } else {
        assert id == ConnectionId(|s.added|) && |s.added| < |t.added|;
      }
    }
  }

  lemma StepKeepsListed(s: State, e: Event)
    requires Enabled(s, e) && Listed(s)
    ensures Listed(Step(s, e))
  {
    var t := Step(s, e);
    StepKeepsNames(s, e);
    forall i, j | 0 <= i < |t.added| && 0 <= j < |t.added| && ConnectionId(i) == ConnectionId(j)
      ensures i == j
    {
      ConnectionIdsDiffer(i, j);
    }
    forall i | 0 <= i < |t.added|
      ensures ConnectionId(i) in t.open <==> t.added[i].stage.Open?
      ensures t.added[i].closes <= 1 && (t.added[i].closes == 1 ==> t.added[i].stage.Closed?)
    {
      if i < |s.added| {
        assert s.added[i] in s.added;
      }
    }
  }

  /** Over every run: the totals are the sums, the table lists what is open, no connection closes twice. */
  lemma {:induction false} RunsConserve(s: State, events: seq<Event>)
    requires Legal(s, events) && Sound(s)
    ensures Sound(After(s, events))
    ensures s.upload <= After(s, events).upload && s.download <= After(s, events).download
    decreases |events|
  {
    if events != [] {
      StepConserves(s, events[0]);
      StepKeepsListed(s, events[0]);
      RunsConserve(Step(s, events[0]), events[1..]);
    }
  }

  /** The bytes that the events report, of all connections or of one: what is not positive counts for nothing. */
  function BytesUp(events: seq<Event>, of: Option<nat>): nat {
    if events == [] then 0
    else
      var e := events[0];
      (if e.Upload? && e.n > 0 && (of.None? || of == Some(e.i)) then e.n else 0) + BytesUp(events[1..], of)
  }

  function BytesDown(events: seq<Event>, of: Option<nat>): nat {
    if events == [] then 0
    else
      var e := events[0];
      (if e.Download? && e.n > 0 && (of.None? || of == Some(e.i)) then e.n else 0) + BytesDown(events[1..], of)
  }

  /** Over every run: the totals grow by exactly the bytes that were reported. */
  lemma {:induction false} RunsCountBytes(s: State, events: seq<Event>)
    requires Legal(s, events)
    ensures After(s, events).upload == s.upload + BytesUp(events, None)
    ensures After(s, events).download == s.download + BytesDown(events, None)
    decreases |events|
  {
    if events != [] {
      RunsCountBytes(Step(s, events[0]), events[1..]);
    }
  }

  /** And those of each connection by the bytes that were reported of it. */
  lemma {:induction false} RunsCountBytesOf(s: State, events: seq<Event>, i: nat)
    requires Legal(s, events) && i < |s.added|
    ensures var t := After(s, events);
            && i < |t.added|
            && t.added[i].upload == s.added[i].upload + BytesUp(events, Some(i))
            && t.added[i].download == s.added[i].download + BytesDown(events, Some(i))
    decreases |events|
  {
    if events != [] {
      RunsCountBytesOf(Step(s, events[0]), events[1..], i);
    }
  }

  lemma {:induction false} ClosedStaysClosed(s: State, events: seq<Event>, i: nat)
    requires Legal(s, events) && i < |s.added| && s.added[i].stage.Closed?
    ensures var t := After(s, events);
            i < |t.added| && t.added[i].stage.Closed? && t.added[i].closes == s.added[i].closes
    decreases |events|
  {
    if events != [] {
      ClosedStaysClosed(Step(s, events[0]), events[1..], i);
    }
  }

  /**
    A close reaches the connection underneath, then or ever, exactly when the wrapper is complete at the
    moment the close looks for the function to call: a wrap that comes later never closes it.
   */
  lemma CloseReachesUnderneathExactly(s: State, i: nat, later: seq<Event>)
    requires i < |s.added| && s.added[i].stage.Closing? && s.added[i].closes == 0
    requires Legal(Step(s, CloseEnd(i)), later)
    ensures var t := After(Step(s, CloseEnd(i)), later);
            && i < |t.added| && t.added[i].stage.Closed?
            && (t.added[i].closes == 1 <==> s.added[i].closable)
            && (t.added[i].closes == 0 <==> !s.added[i].closable)
  {
    ClosedStaysClosed(Step(s, CloseEnd(i)), later, i);
  }

  /** A wrap that lands while the close is between the table and the function is still in time. */
  lemma WrapInTime(s: State, i: nat)
    requires i < |s.added| && s.added[i].stage.Open? && s.added[i].closes == 0
    ensures Legal(s, [CloseBegin(i), Wrap(i), CloseEnd(i)])
    ensures var t := After(s, [CloseBegin(i), Wrap(i), CloseEnd(i)]); i < |t.added| && t.added[i].closes == 1
  {
    var a := Step(s, CloseBegin(i));
    var b := Step(a, Wrap(i));
    assert [CloseBegin(i), Wrap(i), CloseEnd(i)][1..] == [Wrap(i), CloseEnd(i)];
    assert [Wrap(i), CloseEnd(i)][1..] == [CloseEnd(i)] && [CloseEnd(i)][1..] == [];
    assert Legal(b, [CloseEnd(i)]) && After(b, [CloseEnd(i)]) == Step(b, CloseEnd(i));
    assert Legal(a, [Wrap(i), CloseEnd(i)]) && After(a, [Wrap(i), CloseEnd(i)]) == Step(b, CloseEnd(i));
  }

  /** Connections are added at the end, totals grow, and a close never goes back. */
  ghost predicate Onward(s: State, t: State) {
    && |s.added| <= |t.added| && s.upload <= t.upload && s.download <= t.download
    && forall i | 0 <= i < |s.added| ::
         && (t.added[i].stage.Open? ==> s.added[i].stage.Open?)
         && (s.added[i].stage.Closed? ==> t.added[i].stage.Closed?)
  }

  lemma OnwardSelf(s: State)
    ensures Onward(s, s)
  {
  }

  lemma StepIsOnward(s: State, e: Event)
    requires Enabled(s, e)
    ensures Onward(s, Step(s, e))
  {
  }

  lemma OnwardAgain(s: State, t: State, u: State)
    requires Onward(s, t) && Onward(t, u)
    ensures Onward(s, u)
  {
    forall i | 0 <= i < |s.added|
      ensures u.added[i].stage.Open? ==> s.added[i].stage.Open?
      ensures s.added[i].stage.Closed? ==> u.added[i].stage.Closed?
    {
      assert t.added[i].stage.Open? ==> s.added[i].stage.Open?;
    }
  }

  // ----- The objects -----

  class TrackedConnection {
    const id: string
    var closable: bool
    var stage: Stage
    var closes: nat
    var upload: nat
    var download: nat

    constructor (id: string)
      ensures this.id == id && View() == Connection(false, Open, 0, 0, 0)
    {
      this.id := id;
      closable, stage, closes, upload, download := false, Open, 0, 0, 0;
    }

    function View(): Connection
      reads this
    {
      Connection(closable, stage, closes, upload, download)
    }
  }

  class Tracker {
    var nextId: nat
    var uploadTotal: nat
    var downloadTotal: nat
    var connections: map<string, TrackedConnection>
    /** Every connection ever added: what the wrappers of the box hold. */
    var all: seq<TrackedConnection>
    ghost var trace: seq<Event>

    ghost function Added(): (cs: seq<Connection>)
      reads this, all
      ensures |cs| == |all| && forall i | 0 <= i < |all| :: cs[i] == all[i].View()
    {
      seq(|all|, i requires 0 <= i < |all| reads this, all => all[i].View())
    }

    ghost function View(): State
      reads this, all
    {
      State(Added(), connections.Keys, uploadTotal, downloadTotal)
    }

    /** The table and the history hold the same objects under the same names. */
    ghost predicate Linked()
      reads this, all
    {
      && nextId == |all|
      && (forall i | 0 <= i < |all| :: all[i].id == ConnectionId(i))
      && (forall id <- connections :: connections[id] in all && connections[id].id == id)
    }

    ghost predicate Valid()
      reads this, all
    {
      Linked() && Legal(START, trace) && After(START, trace) == View()
    }

    /** What every run keeps holds of the tracker. */
    lemma TrackerIsSound()
      requires Valid()
      ensures Sound(View())
    {
      RunsConserve(START, trace);
    }

    constructor ()
      ensures Valid() && View() == START && all == [] && trace == []
    {
      nextId, uploadTotal, downloadTotal, connections, all, trace := 0, 0, 0, map[], [], [];
    }

    /** The connection's place in the order they were added. */
    ghost function Place(c: TrackedConnection): (i: nat)
      reads this, all
      requires Linked() && c in all
      ensures i < |all| && all[i] == c
    {
      var i :| 0 <= i < |all| && all[i] == c;
      i
    }

    /** No connection was added twice. */
    lemma Alone(c: TrackedConnection)
      requires Linked() && c in all
      ensures forall i | 0 <= i < |all| :: all[i] == c <==> i == Place(c)
    {
      forall i | 0 <= i < |all| && all[i] == c
        ensures i == Place(c)
      {
        ConnectionIdsDiffer(i, Place(c));
      }
    }

    ghost method Record(e: Event, before: State)
      requires Linked() && Legal(START, trace) && After(START, trace) == before
      requires Enabled(before, e) && View() == Step(before, e)
      modifies this`trace
      ensures Valid() && trace == old(trace) + [e]
    {
      Then(START, trace, e);
      trace := trace + [e];
    }

    method AddConnection() returns (c: TrackedConnection)
      requires Valid()
      modifies this
      ensures Valid() && fresh(c) && all == old(all) + [c]
      ensures trace == old(trace) + [Add]
      ensures View() == Step(old(View()), Add)
    {
      ghost var before := View();
      nextId := nextId + 1;
      c := new TrackedConnection("conn_" + Decimal(nextId));
      connections := connections[c.id := c];
      all := all + [c];
      assert c.id == ConnectionId(|before.added|) && c.View() == Connection(false, Open, 0, 0, 0);
      assert Added() == before.added + [c.View()];
      assert connections.Keys == before.open + {c.id};
      Record(Add, before);
    }

    /** The second half of wrapping: the connection learns what closes it. */
    method Wrap(c: TrackedConnection)
      requires Valid() && c in all
      modifies this`trace, c
      ensures Valid() && c.stage == old(c.stage)
      ensures trace == old(trace) + [Event.Wrap(old(Place(c)))]
      ensures View() == Step(old(View()), Event.Wrap(old(Place(c))))
    {
      ghost var before, e := View(), Event.Wrap(Place(c));
      Alone(c);
      c.closable := true;
      assert Added() == before.added[e.i := c.View()];
      Record(e, before);
    }

    method AddUpload(c: TrackedConnection, n: int)
      requires Valid() && c in all
      modifies this`uploadTotal, this`trace, c
      ensures Valid() && c.stage == old(c.stage)
      ensures c.upload == old(c.upload) + if n > 0 then n else 0
      ensures uploadTotal == old(uploadTotal) + if n > 0 then n else 0
      ensures trace == old(trace) + [Upload(old(Place(c)), n)]
      ensures View() == Step(old(View()), Upload(old(Place(c)), n))
    {
      ghost var before, e := View(), Upload(Place(c), n);
      Alone(c);
      if n > 0 {
        c.upload := c.upload + n;
        uploadTotal := uploadTotal + n;
      }
      assert Added() == before.added[e.i := c.View()];
      Record(e, before);
    }

    method AddDownload(c: TrackedConnection, n: int)
      requires Valid() && c in all
      modifies this`downloadTotal, this`trace, c
      ensures Valid() && c.stage == old(c.stage)
      ensures c.download == old(c.download) + if n > 0 then n else 0
      ensures downloadTotal == old(downloadTotal) + if n > 0 then n else 0
      ensures trace == old(trace) + [Download(old(Place(c)), n)]
      ensures View() == Step(old(View()), Download(old(Place(c)), n))
    {
      ghost var before, e := View(), Download(Place(c), n);
      Alone(c);
      if n > 0 {
        c.download := c.download + n;
        downloadTotal := downloadTotal + n;
      }
      assert Added() == before.added[e.i := c.View()];
      Record(e, before);
    }

    /** The first half of a close: the one that gets in takes the connection off the table. */
    method EnterClose(c: TrackedConnection) returns (mine: bool)
      requires Valid() && c in all
      modifies this`connections, this`trace, c
      ensures Valid() && mine == old(c.stage).Open? && c.stage == if mine then Closing else old(c.stage)
      ensures trace == old(trace) + [CloseBegin(old(Place(c)))]
      ensures View() == Step(old(View()), CloseBegin(old(Place(c))))
    {
      ghost var before, e := View(), CloseBegin(Place(c));
      Alone(c);
      mine := c.stage.Open?;
      if mine {
        c.stage := Closing;
        connections := connections - {c.id};
      }
      assert Added() == before.added[e.i := c.View()];
      Record(e, before);
    }

    /** The second half, and whether the connection underneath reported an error. */
    method FinishClose(c: TrackedConnection) returns (failed: bool)
      requires Valid() && c in all && c.stage.Closing?
      modifies this`trace, c
      ensures Valid() && c.stage.Closed?
      ensures trace == old(trace) + [CloseEnd(old(Place(c)))]
      ensures View() == Step(old(View()), CloseEnd(old(Place(c))))
      ensures c.closes == old(c.closes) + (if old(c.closable) then 1 else 0) && (failed ==> old(c.closable))
    {
      ghost var before, e := View(), CloseEnd(Place(c));
      Alone(c);
      failed := false;
      if c.closable {
        c.closes := c.closes + 1;
        failed := *;
      }
      c.stage := Closed;
      assert Added() == before.added[e.i := c.View()];
      Record(e, before);
    }

    /** One step of another thread: any event that is enabled. */
    method OtherStep()
      requires Valid()
      modifies this, all
      ensures Valid() && old(trace) <= trace && old(all) <= all
      ensures forall c <- all :: c in old(all) || fresh(c)
      ensures Onward(old(View()), View())
    {
      var what: nat, k: nat, n: int := *, *, *;
      if what == 0 || k >= |all| {
        StepIsOnward(View(), Add);
        var _ := AddConnection();
      } else {
        var c := all[k];
        StepIsOnward(View(), Event.Wrap(Place(c)));
        StepIsOnward(View(), Upload(Place(c), n));
        StepIsOnward(View(), Download(Place(c), n));
        StepIsOnward(View(), CloseBegin(Place(c)));
        if what == 1 {
          Wrap(c);
        } else if what == 2 {
          AddUpload(c, n);
        } else if what == 3 {
          AddDownload(c, n);
        } else if c.stage.Closing? {
          OnwardSelf(View());
          var _ := EndClose(c);
        } else {
          var _ := EnterClose(c);
        }
      }
    }

    /** Other threads run for a while. */
    method Interfere()
      requires Valid()
      modifies this, all
      ensures Valid() && old(trace) <= trace && old(all) <= all
      ensures forall c <- all :: c in old(all) || fresh(c)
      ensures Onward(old(View()), View())
    {
      var n: nat := *;
      OtherSteps(n);
    }

    method OtherSteps(n: nat)
      requires Valid()
      modifies this, all
      ensures Valid() && old(trace) <= trace && old(all) <= all
      ensures forall c <- all :: c in old(all) || fresh(c)
      ensures Onward(old(View()), View())
    {
      if n > 0 {
        ghost var start := View();
        OtherStep();
        ghost var met := View();
        assert forall i | 0 <= i < |all| :: all[i] in old(all) || fresh(all[i]);
        OtherSteps(n - 1);
        OnwardAgain(start, met, View());
      }
    }

    /**
      The once-guarded close, with other threads at work between its two halves. A caller that comes second
      waits until the first is done.
     */
    method CloseTracked(c: TrackedConnection) returns (failed: bool)
      requires Valid() && c in all
      modifies this, all
      ensures Valid() && old(trace) <= trace && old(all) <= all
      ensures forall o <- all :: o in old(all) || fresh(o)
      ensures c.stage.Closed? && Onward(old(View()), View())
      ensures old(c.stage).Closed? ==> !failed
    {
      ghost var start, i := View(), Place(c);
      StepIsOnward(start, CloseBegin(i));
      var mine := EnterClose(c);
      ghost var entered := View();
      assert !entered.added[i].stage.Open?;
      Interfere();
      OnwardAgain(start, entered, View());
      assert View().added[i] == c.View();
      failed := false;
      if c.stage.Closing? {
        failed := EndClose(c);
        failed := failed && mine;
      }
    }

    method EndClose(c: TrackedConnection) returns (failed: bool)
      requires Valid() && c in all && c.stage.Closing?
      modifies this`trace, c
      ensures Valid() && c.stage.Closed? && old(trace) <= trace
      ensures forall s :: Onward(s, old(View())) ==> Onward(s, View())
    {
      ghost var met := View();
      assert met.added[Place(c)].stage.Closing?;
      StepIsOnward(met, CloseEnd(Place(c)));
      failed := FinishClose(c);
      forall s | Onward(s, met)
        ensures Onward(s, View())
      {
        OnwardAgain(s, met, View());
      }
    }

    /** What has been closed, stays closed; what someone has begun to close, is on the table no more. */
    lemma StaysClosed(before: State, c: TrackedConnection, i: nat)
      requires Valid() && Onward(before, View()) && i < |all| && all[i] == c
      ensures i < |before.added| && before.added[i].stage.Closed? ==> c.stage.Closed?
      ensures !c.stage.Open? ==> c.id !in connections
    {
      TrackerIsSound();
      assert View().added[i] == c.View();
    }

    method CloseConnection(id: string) returns (found: bool)
      requires Valid()
      modifies this, all
      ensures Valid() && old(trace) <= trace && found == (id in old(connections))
      ensures found ==> old(connections[id]).stage.Closed? && id !in connections
      ensures !found ==> View() == old(View())
    {
      found := id in connections;
      if found {
        var c := connections[id];
        ghost var i := Place(c);
        var _ := CloseTracked(c);
        OnwardSelf(View());
        StaysClosed(View(), c, i);
      }
    }

    /** The connections in the table, in any order: what CloseAll copies under the lock. */
    method Listing() returns (listed: seq<TrackedConnection>)
      requires Valid()
      ensures forall c <- listed :: c.id in connections && connections[c.id] == c && c in all
      ensures forall id <- connections :: connections[id] in listed
    {
      listed := [];
      var left := connections.Keys;
      while left != {}
        invariant left <= connections.Keys
        invariant forall c <- listed :: c.id in connections && connections[c.id] == c && c in all
        invariant forall id <- connections :: id in left || connections[id] in listed
      {
        var id :| id in left;
        listed := listed + [connections[id]];
        left := left - {id};
      }
    }

    /** CloseAll's loop, a turn and then the rest of it. */
    method CloseEach(copied: seq<TrackedConnection>)
      requires Valid() && forall c <- copied :: c in all
      modifies this, all
      ensures Valid() && old(trace) <= trace && old(all) <= all
      ensures forall o <- all :: o in old(all) || fresh(o)
      ensures Onward(old(View()), View()) && forall c <- copied :: c.stage.Closed?
    {
      OnwardSelf(View());
      if copied != [] {
        var c, rest := copied[0], copied[1..];
        ghost var start, i := View(), Place(c);
        var _ := CloseTracked(c);
        ghost var met := View();
        assert met.added[i] == c.View();
        assert forall k | 0 <= k < |all| :: all[k] in old(all) || fresh(all[k]);
        assert forall k | 0 <= k < |old(all)| :: old(all)[k] == all[k];
        assert forall d <- rest :: d in copied;
        CloseEach(rest);
        OnwardAgain(start, met, View());
        StaysClosed(met, c, i);
        assert forall d <- copied :: d == c || d in rest;
      }
    }

    /**
      Closes what the table lists when it is copied, one connection after the other, while other threads add,
      wrap, move bytes and close: all of it is closed and off the table in the end.
     */
    method CloseAll() returns (ghost listed: seq<TrackedConnection>)
      requires Valid()
      modifies this, all
      ensures Valid() && old(trace) <= trace && Onward(old(View()), View())
      ensures forall id <- old(connections) :: old(connections)[id] in listed
      ensures forall c <- listed :: c.stage.Closed? && c.id !in connections
    {
      var copied := Listing();
      listed := copied;
      CloseEach(copied);
      OnwardSelf(View());
      forall c <- listed
        ensures c.id !in connections
      {
        StaysClosed(View(), c, Place(c));
      }
    }
  }
}
