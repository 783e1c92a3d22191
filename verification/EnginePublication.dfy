/**
  The order in which statuses reach the event hub. A thread takes a status on under the engine's mutex and
  publishes it after releasing it, so publications can overtake each other. The book below keeps, beside a
  run of the engine, every status taken on and the place in that list of what was published when.
 */
module EnginePublication {
  import opened Engine

  datatype Book = Book(taken: seq<Status>, place: map<nat, nat>, order: seq<nat>)

  /** The thread of this event leaves the mutex with a status to publish. */
  predicate Takes(s: State, e: Event)
    requires Enabled(s, e)
  {
    && !e.Advance? && !e.Publish?
    && e.thread in Apply(s, e).threads && Announcing(Apply(s, e).threads[e.thread])
  }

  function Entered(b: Book, s: State, e: Event): Book
    requires Enabled(s, e) && (e.Publish? ==> e.thread in b.place)
  {
    if e.Publish? then b.(place := b.place - {e.thread}, order := b.order + [b.place[e.thread]])
    else if Takes(s, e) then
      b.(taken := b.taken + [Apply(s, e).threads[e.thread].status], place := b.place[e.thread := |b.taken|])
    else b
  }

  /** The book of a fresh engine, whose first status is published. */
  const FIRST_PAGE := Book([Status(Idle, "", 0, "")], map[], [0])

  // ----- What the book says of the engine -----

  /** The threads with something to publish, and what. */
  ghost predicate Pending(s: State, b: Book) {
    Listed(s, b) && forall t <- b.place :: b.place[t] < |b.taken| && b.taken[b.place[t]] == s.threads[t].status
  }

  ghost predicate Listed(s: State, b: Book) {
    forall t :: t in b.place <==> t in s.threads && Announcing(s.threads[t])
  }

  /** Everything taken on is either published, once, or still to be, by one thread. */
  ghost predicate Accounted(b: Book) {
    && (forall i | 0 <= i < |b.taken| :: i in b.order || i in b.place.Values)
    && (forall i <- b.order :: i < |b.taken| && i !in b.place.Values)
    && (forall t, u :: t in b.place && u in b.place && b.place[t] == b.place[u] ==> t == u)
  }

  ghost predicate Published(s: State, b: Book) {
    && |b.order| == |s.published|
    && forall k | 0 <= k < |b.order| :: b.order[k] < |b.taken| && s.published[k] == b.taken[b.order[k]]
  }

  predicate Current(s: State, b: Book) {
    b.taken != [] && b.taken[|b.taken| - 1] == s.status
  }

  ghost predicate Kept(s: State, b: Book) {
    Pending(s, b) && Accounted(b) && Published(s, b) && Current(s, b) && Walk(b.taken)
  }

  /** Each publication has been the next of the statuses taken on. */
  ghost predicate InOrder(b: Book) {
    forall k | 0 <= k < |b.order| :: b.order[k] == k
  }

  /** The publication overtakes an older one that another thread still has to make. */
  ghost predicate Overtakes(b: Book, e: Event) {
    e.Publish? && e.thread in b.place && exists u :: u in b.place && b.place[u] < b.place[e.thread]
  }

  lemma FreshIsKept(s: State)
    requires Fresh(s)
    ensures Inv(s) && Kept(s, FIRST_PAGE) && InOrder(FIRST_PAGE)
  {
  }

  lemma StepKeepsListed(s: State, b: Book, e: Event)
    requires Enabled(s, e) && Listed(s, b)
    ensures Listed(Apply(s, e), Entered(b, s, e))
  {
  }

  lemma StepKeepsPending(s: State, b: Book, e: Event)
    requires Enabled(s, e) && Pending(s, b)
    ensures Pending(Apply(s, e), Entered(b, s, e))
  {
    StepKeepsListed(s, b, e);
    var u, c := Apply(s, e), Entered(b, s, e);
    forall t <- c.place
      ensures c.place[t] < |c.taken| && c.taken[c.place[t]] == u.threads[t].status
    {
      if !e.Advance? && t != e.thread {
        assert t in b.place && u.threads[t] == s.threads[t];
      }
    }
  }

  lemma PublishAccounts(b: Book, t: nat)
    requires Accounted(b) && t in b.place
    requires forall u <- b.place :: b.place[u] < |b.taken|
    ensures Accounted(b.(place := b.place - {t}, order := b.order + [b.place[t]]))
  {
    var c := b.(place := b.place - {t}, order := b.order + [b.place[t]]);
    assert c.order[|b.order|] == b.place[t];
    forall u <- c.place
      ensures c.place[u] !in c.order
    {
      assert c.place[u] in b.place.Values && c.place[u] != b.place[t];
    }
    forall i | 0 <= i < |c.taken|
      ensures i in c.order || i in c.place.Values
    {
      if i in b.order {
        var k :| 0 <= k < |b.order| && b.order[k] == i;
        assert c.order[k] == i;
      } else if i != b.place[t] {
        var u :| u in b.place && b.place[u] == i;
        assert u in c.place && c.place[u] == i;
      }
    }
  }

  lemma TakeAccounts(b: Book, t: nat, status: Status)
    requires Accounted(b) && t !in b.place
    requires forall u <- b.place :: b.place[u] < |b.taken|
    ensures Accounted(b.(taken := b.taken + [status], place := b.place[t := |b.taken|]))
  {
    var c := b.(taken := b.taken + [status], place := b.place[t := |b.taken|]);
    assert t in c.place && c.place[t] == |b.taken|;
    forall i | 0 <= i < |c.taken|
      ensures i in c.order || i in c.place.Values
    {
      if i < |b.taken| && i !in b.order {
        var u :| u in b.place && b.place[u] == i;
        assert u in c.place && c.place[u] == i;
      }
    }
  }

  lemma TakerWasQuiet(s: State, e: Event)
    requires Enabled(s, e) && Takes(s, e)
    ensures e.thread in s.threads ==> !Announcing(s.threads[e.thread])
    ensures Apply(s, e).threads[e.thread].status == Apply(s, e).status
  {
  }

  lemma OthersKeepStatus(s: State, e: Event)
    requires Enabled(s, e) && !Takes(s, e)
    ensures Apply(s, e).status == s.status
  {
  }

  lemma StepKeepsAccounted(s: State, b: Book, e: Event)
    requires Enabled(s, e) && Pending(s, b) && Accounted(b)
    ensures Accounted(Entered(b, s, e))
  {
    if e.Publish? {
      PublishAccounts(b, e.thread);
    } else if Takes(s, e) {
      TakerWasQuiet(s, e);
      TakeAccounts(b, e.thread, Apply(s, e).status);
    }
  }

  lemma StepKeepsPublished(s: State, b: Book, e: Event)
    requires Enabled(s, e) && Pending(s, b) && Published(s, b)
    ensures Published(Apply(s, e), Entered(b, s, e))
  {
  }

  lemma WalkGrows(walk: seq<Status>, next: Status)
    requires Walk(walk) && walk != []
    requires var last := walk[|walk| - 1].state; last == next.state || Moves(last, next.state)
    ensures Walk(walk + [next])
  {
  }

  lemma StepKeepsCurrent(s: State, b: Book, e: Event)
    requires Enabled(s, e) && Inv(s) && Pending(s, b) && Current(s, b) && Walk(b.taken)
    ensures Current(Apply(s, e), Entered(b, s, e)) && Walk(Entered(b, s, e).taken)
  {
    if Takes(s, e) {
      TakerWasQuiet(s, e);
      EngineMovesAlongGraph(s, e);
      WalkGrows(b.taken, Apply(s, e).status);
    } else {
      OthersKeepStatus(s, e);
    }
  }

  lemma StepKeepsKept(s: State, b: Book, e: Event)
    requires Enabled(s, e) && Inv(s) && Kept(s, b)
    ensures Kept(Apply(s, e), Entered(b, s, e))
  {
    StepKeepsPending(s, b, e);
    StepKeepsAccounted(s, b, e);
    StepKeepsPublished(s, b, e);
    StepKeepsCurrent(s, b, e);
  }

  lemma PendingIsLater(b: Book, t: nat)
    requires Accounted(b) && InOrder(b) && t in b.place
    ensures b.place[t] >= |b.order|
  {
    assert b.place[t] in b.place.Values && b.place[t] !in b.order;
    forall i | 0 <= i < |b.order|
      ensures i in b.order
    {
      assert b.order[i] == i;
    }
  }

  lemma StepStaysInOrder(s: State, b: Book, e: Event)
    requires Enabled(s, e) && Kept(s, b) && InOrder(b)
    ensures InOrder(Entered(b, s, e)) <==> !Overtakes(b, e)
  {
    if e.Publish? {
      var next := |b.order|;
      assert Entered(b, s, e).order[next] == b.place[e.thread];
      forall t <- b.place
        ensures b.place[t] >= next
      {
        PendingIsLater(b, t);
      }
      if b.place[e.thread] > next {
        assert next !in b.order;
        var u :| u in b.place && b.place[u] == next;
        assert Overtakes(b, e);
      }
    }
  }

  // ----- Runs -----

  ghost function BookAfter(s: State, b: Book, run: seq<Event>): Book
    requires Legal(s, run) && Inv(s) && Kept(s, b)
    decreases |run|
  {
    if run == [] then b
    else
      StepKeepsInv(s, run[0]);
      StepKeepsKept(s, b, run[0]);
      BookAfter(Apply(s, run[0]), Entered(b, s, run[0]), run[1..])
  }

  ghost predicate AlwaysInOrder(s: State, b: Book, run: seq<Event>)
    requires Legal(s, run) && Inv(s) && Kept(s, b)
    decreases |run|
  {
    && InOrder(b)
    && (run == []
        || (StepKeepsInv(s, run[0]);
            StepKeepsKept(s, b, run[0]);
            AlwaysInOrder(Apply(s, run[0]), Entered(b, s, run[0]), run[1..])))
  }

  ghost predicate NeverOvertakes(s: State, b: Book, run: seq<Event>)
    requires Legal(s, run) && Inv(s) && Kept(s, b)
    decreases |run|
  {
    run == []
    || (!Overtakes(b, run[0])
        && (StepKeepsInv(s, run[0]);
            StepKeepsKept(s, b, run[0]);
            NeverOvertakes(Apply(s, run[0]), Entered(b, s, run[0]), run[1..])))
  }

  /** Over every interleaving: publication in order throughout, exactly when no publication overtakes another. */
  lemma {:induction false} PublishedInOrderExactly(s: State, b: Book, run: seq<Event>)
    requires Legal(s, run) && Inv(s) && Kept(s, b) && InOrder(b)
    ensures AlwaysInOrder(s, b, run) <==> NeverOvertakes(s, b, run)
    decreases |run|
  {
    if run != [] {
      StepKeepsInv(s, run[0]);
      StepKeepsKept(s, b, run[0]);
      StepStaysInOrder(s, b, run[0]);
      if !Overtakes(b, run[0]) {
        PublishedInOrderExactly(Apply(s, run[0]), Entered(b, s, run[0]), run[1..]);
      } else {
        assert !InOrder(Entered(b, s, run[0]));
      }
    }
  }

  lemma {:induction false} RunsKeepBook(s: State, b: Book, run: seq<Event>)
    requires Legal(s, run) && Inv(s) && Kept(s, b)
    ensures Inv(After(s, run)) && Kept(After(s, run), BookAfter(s, b, run))
    ensures AlwaysInOrder(s, b, run) ==> InOrder(BookAfter(s, b, run))
    decreases |run|
  {
    if run != [] {
      StepKeepsInv(s, run[0]);
      StepKeepsKept(s, b, run[0]);
      RunsKeepBook(Apply(s, run[0]), Entered(b, s, run[0]), run[1..]);
    }
  }

  /**
    What order gives: the publications are a first part of the statuses taken on, in particular a walk in
    the transition graph; and all of them, the engine's status last, whenever no operation is in progress.
   */
  lemma OrderMeansAgreement(s: State, b: Book)
    requires Kept(s, b) && InOrder(b)
    ensures s.published <= b.taken && Walk(s.published)
    ensures s.threads == map[] ==> s.published == b.taken && LastPublished(s, s.status)
  {
    forall k | 0 <= k < |b.order|
      ensures k < |b.taken| && s.published[k] == b.taken[k]
    {
      assert b.order[k] == k;
    }
    if b.order != [] {
      assert b.order[|b.order| - 1] == |b.order| - 1;
    }
    assert s.published == b.taken[..|b.order|];
    if s.threads == map[] {
      assert b.place == map[];
      var newest := |b.taken| - 1;
      assert newest in b.order;
      var k :| 0 <= k < |b.order| && b.order[k] == newest;
    }
  }

  // ----- Serialised operations -----

  ghost predicate OneThread(s: State) {
    forall t, u :: t in s.threads && u in s.threads ==> t == u
  }

  lemma SerialStep(s: State, b: Book, e: Event)
    requires Enabled(s, e) && Pending(s, b) && OneThread(s) && !Overlaps(s, e)
    ensures OneThread(Apply(s, e)) && !Overtakes(b, e)
  {
  }

  lemma {:induction false} SerialisedNeverOvertakes(s: State, b: Book, run: seq<Event>)
    requires Legal(s, run) && Inv(s) && Kept(s, b) && Serialised(s, run)
    requires OneThread(s)
    ensures NeverOvertakes(s, b, run)
    decreases |run|
  {
    if run != [] {
      StepKeepsInv(s, run[0]);
      StepKeepsKept(s, b, run[0]);
      SerialStep(s, b, run[0]);
      SerialisedNeverOvertakes(Apply(s, run[0]), Entered(b, s, run[0]), run[1..]);
    }
  }

  /**
    With operations serialised, as the services do with their own mutex: whenever none is in progress the
    last published status is the engine's, and the publications are a walk in its transition graph.
   */
  lemma StatusAgreement(s: State, run: seq<Event>)
    requires Fresh(s) && Legal(s, run) && Serialised(s, run)
    ensures Walk(After(s, run).published)
    ensures After(s, run).threads == map[] ==> LastPublished(After(s, run), After(s, run).status)
  {
    FreshIsKept(s);
    SerialisedNeverOvertakes(s, FIRST_PAGE, run);
    PublishedInOrderExactly(s, FIRST_PAGE, run);
    RunsKeepBook(s, FIRST_PAGE, run);
    OrderMeansAgreement(After(s, run), BookAfter(s, FIRST_PAGE, run));
  }
}
