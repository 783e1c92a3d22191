/**
  The bounded queue of one subscriber of the event hub. Next to the queued events it keeps its history:
  what has been offered to it, what it accepted, and how many of those its reader has taken.
 */
module EventQueues {
  import Engine

  const LOG_RING_LIMIT: nat := 512
  const QUEUE_LIMIT: nat := LOG_RING_LIMIT + 16

  datatype LogEntry = LogEntry(number: nat, timestamp: nat, source: string, level: string, message: string)

  datatype Event =
    | StatusEvent(status: Engine.Status)
    | LogEvent(entry: LogEntry)
    | BridgeErrorEvent(code: string)

  /**
    `first` is the index, in the hub's history, of the first entry that concerns the subscriber. The last
    two count, for every prefix of the offered events, how many were accepted and how many are log entries.
   */
  datatype Queue = Queue(
    first: nat, offered: seq<Event>, accepted: seq<Event>, taken: nat, kept: seq<nat>, logged: seq<nat>)
  {
    function Buffered(): int {
      |accepted| - taken
    }
  }

  function NewQueue(first: nat): Queue {
    Queue(first, [], [], 0, [0], [0])
  }

  /** send: a full queue loses the event. */
  function Offer(q: Queue, e: Event): Queue {
    var logs := if q.logged == [] then 0 else q.logged[|q.logged| - 1];
    var heard := q.(offered := q.offered + [e], logged := q.logged + [if e.LogEvent? then logs + 1 else logs]);
    if q.Buffered() < QUEUE_LIMIT
    then heard.(accepted := q.accepted + [e], kept := q.kept + [|q.accepted| + 1])
    else heard.(kept := q.kept + [|q.accepted|])
  }

  /** What one event does to a queue: it goes in unless 528 are waiting. */
  predicate Heard(before: Queue, after: Queue, e: Event) {
    && after.first == before.first && after.taken == before.taken && after.offered == before.offered + [e]
    && after.accepted == before.accepted + if |before.accepted| - before.taken < 528 then [e] else []
  }

  predicate AllHeard(before: map<nat, Queue>, after: map<nat, Queue>, e: Event) {
    after.Keys == before.Keys && forall id <- before :: Heard(before[id], after[id], e)
  }

  lemma OfferIsHeard(q: Queue, e: Event)
    ensures Heard(q, Offer(q, e), e)
  {
  }

  ghost predicate Subsequence<T>(a: seq<T>, b: seq<T>)
    decreases |b|
  {
    if b == [] then a == []
    else
      || (a != [] && a[|a| - 1] == b[|b| - 1] && Subsequence(a[..|a| - 1], b[..|b| - 1]))
      || Subsequence(a, b[..|b| - 1])
  }

  /** `a` is what is left of `b`: each element of `b` is the next of `a` or is dropped. */
  ghost predicate KeptFrom<T>(a: seq<T>, b: seq<T>, kept: seq<nat>) {
    && |kept| == |b| + 1 && kept[0] == 0 && kept[|b|] == |a|
    && forall k :: 0 <= k < |b| ==>
         || kept[k + 1] == kept[k]
         || (kept[k + 1] == kept[k] + 1 && kept[k] < |a| && a[kept[k]] == b[k])
  }

  ghost predicate Sound(q: Queue) {
    && q.taken <= |q.accepted| <= |q.offered| && q.Buffered() <= QUEUE_LIMIT
    && KeptFrom(q.accepted, q.offered, q.kept)
    && (|q.accepted| == |q.offered| ==> q.accepted == q.offered)
  }

  lemma SubsequenceAppend<T>(a: seq<T>, b: seq<T>, x: T)
    requires Subsequence(a, b)
    ensures Subsequence(a + [x], b + [x]) && Subsequence(a, b + [x])
  {
    assert (a + [x])[..|a|] == a && (b + [x])[..|b|] == b;
  }

  lemma {:induction false} KeptPrefix<T>(a: seq<T>, b: seq<T>, kept: seq<nat>, k: nat)
    requires KeptFrom(a, b, kept) && k <= |b|
    ensures kept[k] <= |a| && Subsequence(a[..kept[k]], b[..k])
  {
    if k > 0 {
      KeptPrefix(a, b, kept, k - 1);
      assert b[..k] == b[..k - 1] + [b[k - 1]];
      SubsequenceAppend(a[..kept[k - 1]], b[..k - 1], b[k - 1]);
      if kept[k] != kept[k - 1] {
        assert a[..kept[k]] == a[..kept[k - 1]] + [a[kept[k - 1]]];
      }
    }
  }

  lemma KeptIsSubsequence<T>(a: seq<T>, b: seq<T>, kept: seq<nat>)
    requires KeptFrom(a, b, kept)
    ensures Subsequence(a, b)
  {
    KeptPrefix(a, b, kept, |b|);
    assert a[..|a|] == a && b[..|b|] == b;
  }

  lemma OfferIsSound(q: Queue, e: Event)
    requires Sound(q)
    ensures Sound(Offer(q, e)) && (Offer(q, e).accepted == q.accepted <==> q.Buffered() == QUEUE_LIMIT)
  {
  }

  // ----- Log entries among the events -----

  function Logs(events: seq<Event>): seq<LogEntry> {
    if events == [] then []
    else
      var last := events[|events| - 1];
      Logs(events[..|events| - 1]) + if last.LogEvent? then [last.entry] else []
  }

  lemma LogsAppend(events: seq<Event>, e: Event)
    ensures Logs(events + [e]) == Logs(events) + if e.LogEvent? then [e.entry] else []
  {
    assert (events + [e])[..|events|] == events;
  }

  ghost predicate Numbered(history: seq<LogEntry>) {
    forall i :: 0 <= i < |history| ==> history[i].number == i + 1
  }

  ghost predicate Increasing(entries: seq<LogEntry>) {
    forall i, j :: 0 <= i < j < |entries| ==> entries[i].number < entries[j].number
  }

  lemma {:induction false} SubsequenceIn<T>(a: seq<T>, b: seq<T>)
    requires Subsequence(a, b)
    ensures forall x <- a :: x in b
    decreases |b|
  {
    if b != [] {
      if a != [] && a[|a| - 1] == b[|b| - 1] && Subsequence(a[..|a| - 1], b[..|b| - 1]) {
        SubsequenceIn(a[..|a| - 1], b[..|b| - 1]);
        assert a == a[..|a| - 1] + [a[|a| - 1]];
      } else {
        SubsequenceIn(a, b[..|b| - 1]);
      }
    }
  }

  lemma {:induction false} LogsKeepSubsequence(a: seq<Event>, b: seq<Event>)
    requires Subsequence(a, b)
    ensures Subsequence(Logs(a), Logs(b))
    decreases |b|
  {
    if b != [] {
      var b', last := b[..|b| - 1], b[|b| - 1];
      assert b == b' + [last];
      LogsAppend(b', last);
      if a != [] && a[|a| - 1] == last && Subsequence(a[..|a| - 1], b') {
        var a' := a[..|a| - 1];
        assert a == a' + [last];
        LogsAppend(a', last);
        LogsKeepSubsequence(a', b');
        if last.LogEvent? {
          SubsequenceAppend(Logs(a'), Logs(b'), last.entry);
        } else {
          assert Logs(a) == Logs(a') && Logs(b) == Logs(b');
        }
      } else {
        LogsKeepSubsequence(a, b');
        if last.LogEvent? {
          SubsequenceAppend(Logs(a), Logs(b'), last.entry);
        } else {
          assert Logs(b) == Logs(b');
        }
      }
    }
  }

  lemma {:induction false} SubsequenceOfIncreasing(a: seq<LogEntry>, b: seq<LogEntry>)
    requires Subsequence(a, b) && Increasing(b)
    ensures Increasing(a)
    decreases |b|
  {
    if b != [] {
      var b' := b[..|b| - 1];
      if a != [] && a[|a| - 1] == b[|b| - 1] && Subsequence(a[..|a| - 1], b') {
        var a' := a[..|a| - 1];
        SubsequenceOfIncreasing(a', b');
        SubsequenceIn(a', b');
        forall i | 0 <= i < |a'|
          ensures a[i].number < a[|a| - 1].number
        {
          assert a'[i] in b';
        }
      } else {
        SubsequenceOfIncreasing(a, b');
      }
    }
  }

  // ----- What the hub keeps of each queue -----

  /** The log entries among the events are these, in this order. */
  ghost predicate LoggedAt(events: seq<Event>, entries: seq<LogEntry>, logged: seq<nat>) {
    && |logged| == |events| + 1 && logged[0] == 0 && logged[|events|] == |entries|
    && forall k :: 0 <= k < |events| ==>
         if events[k].LogEvent?
         then logged[k + 1] == logged[k] + 1 && logged[k] < |entries| && events[k].entry == entries[logged[k]]
         else logged[k + 1] == logged[k]
  }

  function Grown(entries: seq<LogEntry>, e: Event): seq<LogEntry> {
    if e.LogEvent? then entries + [e.entry] else entries
  }

  lemma LoggedAppend(events: seq<Event>, entries: seq<LogEntry>, logged: seq<nat>, e: Event)
    requires LoggedAt(events, entries, logged)
    ensures LoggedAt(events + [e], Grown(entries, e), logged + [|Grown(entries, e)|])
  {
    var more, longer := events + [e], Grown(entries, e);
    var places := logged + [|longer|];
    assert places[0] == 0 && places[|more|] == |longer|;
    forall k | 0 <= k < |more|
      ensures if more[k].LogEvent?
              then places[k + 1] == places[k] + 1 && places[k] < |longer| && more[k].entry == longer[places[k]]
              else places[k + 1] == places[k]
    {
      if k < |events| {
        assert more[k] == events[k] && places[k] == logged[k] && places[k + 1] == logged[k + 1];
      }
    }
    assert LoggedAt(more, longer, places);
  }

  lemma {:induction false} LoggedPrefix(events: seq<Event>, entries: seq<LogEntry>, logged: seq<nat>, k: nat)
    requires LoggedAt(events, entries, logged) && k <= |events|
    ensures logged[k] <= |entries| && Logs(events[..k]) == entries[..logged[k]]
  {
    if k > 0 {
      LoggedPrefix(events, entries, logged, k - 1);
      assert events[..k] == events[..k - 1] + [events[k - 1]];
      LogsAppend(events[..k - 1], events[k - 1]);
      if events[k - 1].LogEvent? {
        assert entries[..logged[k]] == entries[..logged[k - 1]] + [entries[logged[k - 1]]];
      }
    }
  }

  lemma LoggedAtIsLogs(events: seq<Event>, entries: seq<LogEntry>, logged: seq<nat>)
    requires LoggedAt(events, entries, logged)
    ensures Logs(events) == entries
  {
    LoggedPrefix(events, entries, logged, |events|);
    assert events[..|events|] == events && entries[..|entries|] == entries;
  }

  /** A log subscriber has been offered the history from its first entry on. */
  ghost predicate LogQueueValid(q: Queue, history: seq<LogEntry>) {
    Sound(q) && q.first <= |history| && LoggedAt(q.offered, history[q.first..], q.logged)
  }

  lemma LogOffered(q: Queue, history: seq<LogEntry>, entry: LogEntry)
    requires LogQueueValid(q, history)
    ensures LogQueueValid(Offer(q, LogEvent(entry)), history + [entry])
  {
    OfferIsSound(q, LogEvent(entry));
    LoggedAppend(q.offered, history[q.first..], q.logged, LogEvent(entry));
    assert (history + [entry])[q.first..] == history[q.first..] + [entry];
  }

  lemma BridgeErrorOffered(q: Queue, history: seq<LogEntry>, code: string)
    requires LogQueueValid(q, history)
    ensures LogQueueValid(Offer(q, BridgeErrorEvent(code)), history)
  {
    OfferIsSound(q, BridgeErrorEvent(code));
    LoggedAppend(q.offered, history[q.first..], q.logged, BridgeErrorEvent(code));
  }

  /** A fresh queue that has been sent these entries and has room for all of them. */
  ghost predicate Replayed(q: Queue, entries: seq<LogEntry>) {
    && Sound(q) && q.taken == 0 && q.accepted == q.offered
    && |q.accepted| == |entries| && LoggedAt(q.offered, entries, q.logged)
  }

  lemma ReplayOne(q: Queue, entries: seq<LogEntry>, entry: LogEntry)
    requires Replayed(q, entries) && |entries| < QUEUE_LIMIT
    ensures Replayed(Offer(q, LogEvent(entry)), entries + [entry])
  {
    OfferIsSound(q, LogEvent(entry));
    LoggedAppend(q.offered, entries, q.logged, LogEvent(entry));
  }

  /** A status subscriber has been offered the statuses from the one current at subscription on. */
  ghost predicate StatusQueueValid(q: Queue, statuses: seq<Engine.Status>) {
    && Sound(q) && q.first <= |statuses| && |q.offered| == |statuses| - q.first
    && (forall i :: 0 <= i < |q.offered| ==> q.offered[i] == StatusEvent(statuses[q.first + i]))
    && (q.offered != [] ==> q.accepted != [] && q.accepted[0] == q.offered[0])
  }

  lemma StatusOffered(q: Queue, statuses: seq<Engine.Status>, status: Engine.Status)
    requires StatusQueueValid(q, statuses)
    ensures StatusQueueValid(Offer(q, StatusEvent(status)), statuses + [status])
  {
    OfferIsSound(q, StatusEvent(status));
  }

  // ----- What a subscriber sees -----

  /**
    The log entries a subscriber accepts come in the order of their numbers, none twice, and they are the
    whole history from its first entry on unless an event found its queue full.
   */
  lemma LogSubscriberSees(q: Queue, history: seq<LogEntry>)
    requires LogQueueValid(q, history) && Numbered(history)
    ensures Increasing(Logs(q.accepted)) && Subsequence(Logs(q.accepted), history[q.first..])
    ensures |q.accepted| == |q.offered| ==> Logs(q.accepted) == history[q.first..]
  {
    LoggedAtIsLogs(q.offered, history[q.first..], q.logged);
    KeptIsSubsequence(q.accepted, q.offered, q.kept);
    LogsKeepSubsequence(q.accepted, q.offered);
    assert Increasing(history[q.first..]);
    SubsequenceOfIncreasing(Logs(q.accepted), history[q.first..]);
  }

  function StatusEvents(statuses: seq<Engine.Status>): seq<Event> {
    seq(|statuses|, i requires 0 <= i < |statuses| => StatusEvent(statuses[i]))
  }

  /**
    A status subscriber sees the status current at subscription first, and then a subsequence of what
    is published: of a walk in the engine's transition graph, when that is what the engine publishes.
   */
  lemma StatusSubscriberSees(q: Queue, statuses: seq<Engine.Status>)
    requires StatusQueueValid(q, statuses) && q.first < |statuses| && Engine.Walk(statuses)
    ensures q.accepted != [] && q.accepted[0] == StatusEvent(statuses[q.first])
    ensures Engine.Walk(statuses[q.first..])
    ensures Subsequence(q.accepted, StatusEvents(statuses[q.first..]))
  {
    assert StatusEvents(statuses[q.first..]) == q.offered;
    KeptIsSubsequence(q.accepted, q.offered, q.kept);
    var tail := statuses[q.first..];
    forall i | 0 < i < |tail|
      ensures tail[i - 1].state == tail[i].state || Engine.Moves(tail[i - 1].state, tail[i].state)
    {
      assert tail[i] == statuses[q.first + i] && tail[i - 1] == statuses[q.first + i - 1];
    }
  }
}
