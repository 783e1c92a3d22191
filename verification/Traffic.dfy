/**
  Traffic samples. A sample remembers the totals it saw; the next one reports the rate since then, in bytes
  a second over milliseconds, rounded towards zero. Stopping the runtime forgets the last sample, but not
  the totals.
 */
module Traffic {
  import C = Connections

  datatype Sample = Sample(at: int, upload: int, download: int, uploadRate: int, downloadRate: int)

  const NO_SAMPLE := Sample(0, 0, 0, 0, 0)

  /** Integer division as the program does it: towards zero. */
  function Quotient(a: int, b: int): (q: int)
    requires b > 0
    ensures a >= 0 ==> q >= 0 && q * b <= a < q * b + b
    ensures a <= 0 ==> q <= 0 && q * b - b < a <= q * b
  {
    if a >= 0 then a / b else -((-a) / b)
  }

  function Rate(moved: int, elapsed: int): int {
    if elapsed > 0 then Quotient(moved * 1000, elapsed) else 0
  }

  function NextSample(last: Sample, at: int, upload: nat, download: nat): Sample {
    var elapsed := at - last.at;
    Sample(at, upload, download, Rate(upload - last.upload, elapsed), Rate(download - last.download, elapsed))
  }

  // ----- What the samples of one direction add up to -----

  /**
    reported sums rate times elapsed time; lost sums the bytes of samples that found no time elapsed; slack
    sums the milliseconds but one of the others; again sums the totals that a stop made to be counted anew.
   */
  datatype Ledger = Ledger(reported: int, lost: int, slack: int, again: int)

  const EMPTY := Ledger(0, 0, 0, 0)

  function Booked(l: Ledger, moved: int, elapsed: int, rate: int): Ledger {
    if elapsed > 0
    then l.(reported := l.reported + rate * elapsed, slack := l.slack + elapsed - 1)
    else l.(lost := l.lost + moved)
  }

  /** The rate is the bytes a second that moved in these milliseconds, rounded down. */
  predicate Rates(rate: int, moved: nat, elapsed: int) {
    if elapsed <= 0 then rate == 0
    else rate * elapsed <= 1000 * moved < (rate + 1) * elapsed
  }

  datatype State = State(upload: nat, download: nat, last: Sample, up: Ledger, down: Ledger)

  /** Bytes moved, a sample taken, or the runtime stopped. */
  datatype Event =
    | Move(upload: nat, download: nat)
    | Take(at: int)
    | Stop

  const START := State(0, 0, NO_SAMPLE, EMPTY, EMPTY)

  function Step(s: State, e: Event): State {
    match e
    case Move(u, d) => s.(upload := s.upload + u, download := s.download + d)
    case Take(at) =>
      var sample := NextSample(s.last, at, s.upload, s.download);
      s.(last := sample,
         up := Booked(s.up, s.upload - s.last.upload, at - s.last.at, sample.uploadRate),
         down := Booked(s.down, s.download - s.last.download, at - s.last.at, sample.downloadRate))
    case Stop =>
      s.(last := NO_SAMPLE,
         up := s.up.(again := s.up.again + s.last.upload),
         down := s.down.(again := s.down.again + s.last.download))
  }

  function After(s: State, events: seq<Event>): State
    decreases |events|
  {
    if events == [] then s else After(Step(s, events[0]), events[1..])
  }

  /** Within the slack, the samples reported a thousandfold every byte they saw and did not lose. */
  predicate Balanced(l: Ledger, sampled: int) {
    var seen := 1000 * (sampled + l.again - l.lost);
    l.lost >= 0 && l.slack >= 0 && l.again >= 0 && seen - l.slack <= l.reported <= seen
  }

  predicate Inv(s: State) {
    && 0 <= s.last.upload <= s.upload && 0 <= s.last.download <= s.download
    && Balanced(s.up, s.last.upload) && Balanced(s.down, s.last.download)
  }

  lemma BookedBalances(l: Ledger, sampled: int, total: int, elapsed: int)
    requires sampled <= total && Balanced(l, sampled)
    ensures Balanced(Booked(l, total - sampled, elapsed, Rate(total - sampled, elapsed)), total)
  {
    if elapsed > 0 {
      var moved := (total - sampled) * 1000;
      var q := Quotient(moved, elapsed);
      assert moved - elapsed < q * elapsed <= moved;
    }
  }

  lemma StepKeepsInv(s: State, e: Event)
    requires Inv(s)
    ensures Inv(Step(s, e))
  {
    if e.Take? {
      BookedBalances(s.up, s.last.upload, s.upload, e.at - s.last.at);
      BookedBalances(s.down, s.last.download, s.download, e.at - s.last.at);
    }
  }

  lemma {:induction false} RunsKeepInv(s: State, events: seq<Event>)
    requires Inv(s)
    ensures Inv(After(s, events))
    decreases |events|
  {
    if events != [] {
      StepKeepsInv(s, events[0]);
      RunsKeepInv(Step(s, events[0]), events[1..]);
    }
  }

  function Uploaded(events: seq<Event>): nat {
    if events == [] then 0
    else (if events[0].Move? then events[0].upload else 0) + Uploaded(events[1..])
  }

  function Downloaded(events: seq<Event>): nat {
    if events == [] then 0
    else (if events[0].Move? then events[0].download else 0) + Downloaded(events[1..])
  }

  /** The clock never stands still or runs back from one sample to the next. */
  predicate ClockAdvances(last: int, events: seq<Event>)
    decreases |events|
  {
    if events == [] then true
    else if events[0].Take? then last < events[0].at && ClockAdvances(events[0].at, events[1..])
    else ClockAdvances(last, events[1..])
  }

  lemma {:induction false} UnstoppedLedger(s: State, events: seq<Event>)
    requires Stop !in events
    ensures After(s, events).up.again == s.up.again && After(s, events).down.again == s.down.again
    ensures After(s, events).upload == s.upload + Uploaded(events)
    ensures After(s, events).download == s.download + Downloaded(events)
    ensures ClockAdvances(s.last.at, events) ==>
              After(s, events).up.lost == s.up.lost && After(s, events).down.lost == s.down.lost
    decreases |events|
  {
    if events != [] {
      assert events[0] in events && Stop !in events[1..];
      UnstoppedLedger(Step(s, events[0]), events[1..]);
    }
  }

  /**
    Until the first stop, what the rates report is at most a thousandfold the bytes moved; and if every
    sample found time elapsed, it falls short of the bytes sampled by less than the time of each.
   */
  lemma RateBound(events: seq<Event>)
    requires Stop !in events
    ensures var t := After(START, events);
            && t.up.reported <= 1000 * t.last.upload <= 1000 * Uploaded(events)
            && t.down.reported <= 1000 * t.last.download <= 1000 * Downloaded(events)
            && (ClockAdvances(0, events) ==> t.up.reported >= 1000 * t.last.upload - t.up.slack)
            && (ClockAdvances(0, events) ==> t.down.reported >= 1000 * t.last.download - t.down.slack)
  {
    RunsKeepInv(START, events);
    UnstoppedLedger(START, events);
  }

  /** What a stretch without a stop books: the growth that was sampled, but for what was lost and the slack. */
  predicate Accounts(before: Ledger, after: Ledger, grown: int) {
    var seen := 1000 * (grown - (after.lost - before.lost));
    && before.lost <= after.lost && before.slack <= after.slack && before.again == after.again
    && seen - (after.slack - before.slack) <= after.reported - before.reported <= seen
  }

  lemma BookedAccounts(l: Ledger, moved: int, elapsed: int)
    requires moved >= 0
    ensures Accounts(l, Booked(l, moved, elapsed, Rate(moved, elapsed)), moved)
  {
    if elapsed > 0 {
      var q := Quotient(moved * 1000, elapsed);
      assert moved * 1000 - elapsed < q * elapsed <= moved * 1000;
    }
  }

  /** From one stop to the next, in both directions and from both sides. */
  lemma {:induction false} SegmentBound(s: State, events: seq<Event>)
    requires 0 <= s.last.upload <= s.upload && 0 <= s.last.download <= s.download && Stop !in events
    ensures var t := After(s, events);
            && s.last.upload <= t.last.upload <= t.upload && s.last.download <= t.last.download <= t.download
            && Accounts(s.up, t.up, t.last.upload - s.last.upload)
            && Accounts(s.down, t.down, t.last.download - s.last.download)
    decreases |events|
  {
    if events != [] {
      var e := events[0];
      assert e in events && Stop !in events[1..];
      if e.Take? {
        BookedAccounts(s.up, s.upload - s.last.upload, e.at - s.last.at);
        BookedAccounts(s.down, s.download - s.last.download, e.at - s.last.at);
      }
      SegmentBound(Step(s, e), events[1..]);
    }
  }

  predicate NotBefore(events: seq<Event>, earliest: int) {
    forall e <- events :: e.Take? ==> e.at >= earliest
  }

  /** The rates of this run report no more than it moved, in either direction. */
  predicate WithinMoved(s: State, events: seq<Event>) {
    && After(s, events).up.reported - s.up.reported <= 1000 * Uploaded(events)
    && After(s, events).down.reported - s.down.reported <= 1000 * Downloaded(events)
  }

  lemma Mono(a: int, b: int, factor: nat)
    requires a <= b
    ensures a * factor <= b * factor
  {
    assert (b - a) * factor >= 0;
  }

  lemma ExactQuotient(m: int, n: int)
    requires m >= 0 && n > 0
    ensures m * n >= 0 && Quotient(m * n, n) == m
  {
    Mono(0, m, n);
    var q := Quotient(m * n, n);
    if q < m {
      Mono(q + 1, m, n);
    }
  }

  /** Traffic that makes the total a multiple of the time is reported in full. */
  lemma ExactRate(n: nat, at: int, moved: nat)
    requires at > 0 && n + moved == n * at
    ensures Rate(n + moved, at) * at == 1000 * (n + moved)
  {
    ExactQuotient(1000 * n, at);
    assert (n + moved) * 1000 == 1000 * n * at;
  }

  lemma TwoEvents(s: State, events: seq<Event>)
    requires |events| == 2 && events[0].Move? && events[1].Take?
    ensures After(s, events) == Step(Step(s, events[0]), events[1])
    ensures Uploaded(events) == events[0].upload && Downloaded(events) == events[0].download
  {
    var rest := events[1..];
    assert rest[0] == events[1] && rest[1..] == [];
    assert After(Step(s, events[0]), rest) == Step(Step(s, events[0]), rest[0]);
    assert Uploaded(rest) == 0 && Downloaded(rest) == 0;
  }

  lemma BookedInFull(l: Ledger, n: nat, at: int, moved: nat)
    requires at > 0 && n + moved == n * at
    ensures Booked(l, n + moved, at, Rate(n + moved, at)).reported == l.reported + 1000 * (n + moved)
  {
    ExactRate(n, at, moved);
  }

  lemma SampleBooks(s: State, at: int)
    requires s.last == NO_SAMPLE
    ensures Step(s, Take(at)).up == Booked(s.up, s.upload, at, Rate(s.upload, at))
    ensures Step(s, Take(at)).down == Booked(s.down, s.download, at, Rate(s.download, at))
  {
  }

  lemma Multiple(n: nat, at: int) returns (more: nat)
    requires at > 0
    ensures n + more == n * at
  {
    Mono(1, at, n);
    more := n * at - n;
  }

  /**
    From a stop on, for samples no earlier than any given time: the bound holds whatever happens exactly
    when nothing had moved before. Otherwise one sample, however late, can report the old traffic again.
   */
  lemma RateBoundAfterStopExactly(s: State, earliest: int)
    requires Inv(s) && s.last == NO_SAMPLE
    ensures (forall events | Stop !in events && NotBefore(events, earliest) :: WithinMoved(s, events))
       <==> s.upload == 0 && s.download == 0
  {
    if s.upload == 0 && s.download == 0 {
      forall events | Stop !in events && NotBefore(events, earliest)
        ensures WithinMoved(s, events)
      {
        UnstoppedLedger(s, events);
        SegmentBound(s, events);
      }
    } else {
      var at := if earliest > 1 then earliest else 1;
      var u := Multiple(s.upload, at);
      var d := Multiple(s.download, at);
      var events := [Move(u, d), Take(at)];
      TwoEvents(s, events);
      SampleBooks(Step(s, Move(u, d)), at);
      BookedInFull(s.up, s.upload, at, u);
      BookedInFull(s.down, s.download, at, d);
      assert Stop !in events && NotBefore(events, earliest) && !WithinMoved(s, events);
    }
  }

  // ----- The adapter -----

  /** The tracker's TrafficSnapshot, from the previous sample and the totals. */
  method TakeSample(last: Sample, now: int, upload: nat, download: nat) returns (sample: Sample)
    requires 0 <= last.upload <= upload && 0 <= last.download <= download
    ensures sample == NextSample(last, now, upload, download)
    ensures sample.at == now && sample.upload == upload && sample.download == download
    ensures Rates(sample.uploadRate, upload - last.upload, now - last.at)
    ensures Rates(sample.downloadRate, download - last.download, now - last.at)
  {
    var elapsed := now - last.at;
    var uploadRate, downloadRate := 0, 0;
    if elapsed > 0 {
      uploadRate := Quotient((upload - last.upload) * 1000, elapsed);
      downloadRate := Quotient((download - last.download) * 1000, elapsed);
    }
    sample := Sample(now, upload, download, uploadRate, downloadRate);
  }

  class Adapter {
    const tracker: C.Tracker
    var running: bool
    var lastTraffic: Sample
    ghost var up: Ledger
    ghost var down: Ledger

    ghost function View(): State
      reads this, tracker
    {
      State(tracker.uploadTotal, tracker.downloadTotal, lastTraffic, up, down)
    }

    /** The books of the adapter balance. */
    ghost predicate Valid()
      reads this, tracker, tracker.all
    {
      tracker.Valid() && Inv(View())
    }

    constructor ()
      ensures Valid() && View() == START && !running && fresh(tracker)
      ensures tracker.View() == C.START
    {
      tracker := new C.Tracker();
      running, lastTraffic, up, down := false, NO_SAMPLE, EMPTY, EMPTY;
    }

    /** What a wrapped connection does after it has read n bytes. */
    method CountUpload(c: C.TrackedConnection, n: int)
      requires Valid() && c in tracker.all
      modifies tracker`uploadTotal, tracker`trace, c
      ensures Valid() && View() == Step(old(View()), Move(if n > 0 then n else 0, 0))
    {
      StepKeepsInv(View(), Move(C.Positive(n), 0));
      tracker.AddUpload(c, n);
    }

    /** And before it writes n bytes, or after. */
    method CountDownload(c: C.TrackedConnection, n: int)
      requires Valid() && c in tracker.all
      modifies tracker`downloadTotal, tracker`trace, c
      ensures Valid() && View() == Step(old(View()), Move(0, if n > 0 then n else 0))
    {
      StepKeepsInv(View(), Move(0, C.Positive(n)));
      tracker.AddDownload(c, n);
    }

    method TrafficSnapshot(now: int) returns (snapshot: Sample)
      requires Valid()
      modifies this
      ensures Valid() && View() == Step(old(View()), Take(now)) && snapshot == lastTraffic
      ensures snapshot.at == now && running == old(running)
      ensures snapshot.upload == tracker.uploadTotal && snapshot.download == tracker.downloadTotal
      ensures var last := old(lastTraffic);
              && last.upload <= snapshot.upload && last.download <= snapshot.download
              && Rates(snapshot.uploadRate, snapshot.upload - last.upload, now - last.at)
              && Rates(snapshot.downloadRate, snapshot.download - last.download, now - last.at)
    {
      StepKeepsInv(View(), Take(now));
      ghost var elapsed := now - lastTraffic.at;
      snapshot := TakeSample(lastTraffic, now, tracker.uploadTotal, tracker.downloadTotal);
      up := Booked(up, snapshot.upload - lastTraffic.upload, elapsed, snapshot.uploadRate);
      down := Booked(down, snapshot.download - lastTraffic.download, elapsed, snapshot.downloadRate);
      lastTraffic := snapshot;
    }

    /** What follows when the box starts, or fails to and is closed again. */
    method StartBox() returns (ok: bool)
      modifies this`running
      ensures old(running) ==> !ok
      ensures running == (old(running) || ok)
    {
      ok := *;
      ok := ok && !running;
      running := running || ok;
    }

    /** Closes every connection while traffic goes on. */
    method CloseConnections() returns (ghost move: Event)
      requires Valid()
      modifies tracker, tracker.all
      ensures Valid() && move.Move? && View() == Step(old(View()), move)
      ensures forall id <- old(tracker.connections) ::
                old(tracker.connections)[id].stage.Closed? && id !in tracker.connections
    {
      ghost var u, d, table := tracker.uploadTotal, tracker.downloadTotal, tracker.connections;
      ghost var before := View();
      ghost var listed := tracker.CloseAll();
      move := Move(tracker.uploadTotal - u, tracker.downloadTotal - d);
      StepKeepsInv(before, move);
      forall id <- table
        ensures table[id].stage.Closed? && id !in tracker.connections
      {
        assert table[id] in listed && table[id].id == id;
      }
    }

    /** Only when the box closes is the last sample forgotten. */
    method StopBox() returns (ok: bool, ghost move: Event)
      requires Valid()
      modifies this, tracker, tracker.all
      ensures Valid() && move.Move?
      ensures !old(running) ==> ok && View() == old(View()) && !running
      ensures old(running) && ok ==> View() == Step(Step(old(View()), move), Stop) && !running
      ensures old(running) && !ok ==> View() == Step(old(View()), move) && running
      ensures old(running) ==>
                forall id <- old(tracker.connections) ::
                  old(tracker.connections)[id].stage.Closed? && id !in tracker.connections
    {
      ok, move := true, Move(0, 0);
      if !running {
        return;
      }
      move := CloseConnections();
      ok := *;
      if ok {
        StepKeepsInv(View(), Stop);
        up := up.(again := up.again + lastTraffic.upload);
        down := down.(again := down.again + lastTraffic.download);
        running, lastTraffic := false, NO_SAMPLE;
      }
    }
  }
}
