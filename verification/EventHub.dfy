/**
  The event hub: the last 512 log entries in a buffer that shifts in place, replay to new subscribers,
  and bounded lossy queues. The machine below keeps everything ever published; the class is what runs.
 */
module EventHub {
  import Engine
  import EnginePublication
  import opened Options
  import opened EventQueues

  datatype HubState = HubState(
    history: seq<LogEntry>, statuses: seq<Engine.Status>, lastID: nat,
    logSubscribers: map<nat, Queue>, statusSubscribers: map<nat, Queue>)

  datatype HubEvent =
    | LogPublished(timestamp: nat, source: string, level: string, message: string)
    | BridgeErrorPublished(code: string)
    | StatusPublished(status: Engine.Status)
    | LogsSubscribed
    | StatusSubscribed
    | LogReceived(id: nat)
    | StatusReceived(id: nat)
    | Unsubscribed(id: nat)

  /** The last min(n, 512) entries of the history. */
  function Window(history: seq<LogEntry>): seq<LogEntry> {
    if |history| <= LOG_RING_LIMIT then history else history[|history| - LOG_RING_LIMIT..]
  }

  lemma WindowGrows(history: seq<LogEntry>, entry: LogEntry)
    ensures var window := Window(history);
            Window(history + [entry]) == (if |window| < LOG_RING_LIMIT then window else window[1..]) + [entry]
  {
  }

  function OfferAll(queues: map<nat, Queue>, e: Event): map<nat, Queue> {
    map id | id in queues :: Offer(queues[id], e)
  }

  lemma AllOffered(queues: map<nat, Queue>, e: Event)
    ensures AllHeard(queues, OfferAll(queues, e), e)
  {
    forall id <- queues
      ensures Heard(queues[id], OfferAll(queues, e)[id], e)
    {
      OfferIsHeard(queues[id], e);
    }
  }

  function Replay(q: Queue, entries: seq<LogEntry>): Queue {
    if entries == [] then q
    else Offer(Replay(q, entries[..|entries| - 1]), LogEvent(entries[|entries| - 1]))
  }

  /** A log subscriber that arrives now. */
  function LogArrival(history: seq<LogEntry>): Queue {
    Replay(NewQueue(|history| - |Window(history)|), Window(history))
  }

  /** A status subscriber that arrives now. */
  function StatusArrival(statuses: seq<Engine.Status>): Queue {
    if statuses == [] then NewQueue(0)
    else Offer(NewQueue(|statuses| - 1), StatusEvent(statuses[|statuses| - 1]))
  }

  /** The reader of a subscriber's queue, if there is something to read. */
  predicate CanReceive(queues: map<nat, Queue>, id: nat) {
    id in queues && queues[id].Buffered() > 0
  }

  function Take(q: Queue): Queue {
    q.(taken := q.taken + 1)
  }

  function TakeFrom(queues: map<nat, Queue>, id: nat): map<nat, Queue> {
    if CanReceive(queues, id) then queues[id := Take(queues[id])] else queues
  }

  function Step(h: HubState, e: HubEvent): HubState {
    match e
    case LogPublished(timestamp, source, level, message) =>
      var entry := LogEntry(|h.history| + 1, timestamp, source, level, message);
      h.(history := h.history + [entry], logSubscribers := OfferAll(h.logSubscribers, LogEvent(entry)))
    case BridgeErrorPublished(code) =>
      h.(logSubscribers := OfferAll(h.logSubscribers, BridgeErrorEvent(code)))
    case StatusPublished(status) =>
      h.(statuses := h.statuses + [status], statusSubscribers := OfferAll(h.statusSubscribers, StatusEvent(status)))
    case LogsSubscribed =>
      h.(lastID := h.lastID + 1, logSubscribers := h.logSubscribers[h.lastID + 1 := LogArrival(h.history)])
    case StatusSubscribed =>
      h.(lastID := h.lastID + 1, statusSubscribers := h.statusSubscribers[h.lastID + 1 := StatusArrival(h.statuses)])
    case LogReceived(id) => h.(logSubscribers := TakeFrom(h.logSubscribers, id))
    case StatusReceived(id) => h.(statusSubscribers := TakeFrom(h.statusSubscribers, id))
    case Unsubscribed(id) =>
      h.(logSubscribers := h.logSubscribers - {id}, statusSubscribers := h.statusSubscribers - {id})
  }

  function Run(events: seq<HubEvent>): HubState {
    if events == [] then HubState([], [], 0, map[], map[])
    else Step(Run(events[..|events| - 1]), events[|events| - 1])
  }

  // ----- What every run keeps -----

  ghost predicate Inv(h: HubState) {
    && Numbered(h.history)
    && (forall id <- h.logSubscribers :: id <= h.lastID && LogQueueValid(h.logSubscribers[id], h.history))
    && (forall id <- h.statusSubscribers :: id <= h.lastID && StatusQueueValid(h.statusSubscribers[id], h.statuses))
  }

  /** A replay into a fresh queue loses nothing, since the buffer is smaller than the queue. */
  lemma {:induction false} ReplayLosesNothing(first: nat, entries: seq<LogEntry>)
    requires |entries| <= LOG_RING_LIMIT
    ensures Replayed(Replay(NewQueue(first), entries), entries) && Replay(NewQueue(first), entries).first == first
    decreases |entries|
  {
    if entries != [] {
      var n := |entries| - 1;
      ReplayLosesNothing(first, entries[..n]);
      ReplayOne(Replay(NewQueue(first), entries[..n]), entries[..n], entries[n]);
      assert entries == entries[..n] + [entries[n]];
    }
  }

  /**
    A subscriber is sent, first of all, exactly the last min(n, 512) entries of the n published so far.
   */
  lemma ArrivalSeesWindow(history: seq<LogEntry>)
    ensures var q := LogArrival(history);
            && q.accepted == q.offered && |q.accepted| == |Window(history)| && Logs(q.accepted) == Window(history)
            && LogQueueValid(q, history) && history[q.first..] == Window(history) && JustArrived(q, history)
  {
    ReplayLosesNothing(|history| - |Window(history)|, Window(history));
    var q := LogArrival(history);
    LoggedAtIsLogs(q.offered, Window(history), q.logged);
  }

  /** A queue that has been sent the last 512 entries, or all there are, and nothing else, and has lost none. */
  ghost predicate JustArrived(q: Queue, history: seq<LogEntry>) {
    var first := if |history| > 512 then |history| - 512 else 0;
    && q.first == first && q.taken == 0 && q.offered == q.accepted
    && |q.accepted| == |history| - first && Logs(q.accepted) == history[first..]
  }

  lemma StatusArrivalIsValid(statuses: seq<Engine.Status>)
    ensures StatusQueueValid(StatusArrival(statuses), statuses)
  {
  }

  lemma LogTaken(q: Queue, history: seq<LogEntry>)
    requires LogQueueValid(q, history)
    ensures q.Buffered() > 0 ==> LogQueueValid(Take(q), history)
  {
  }

  lemma StatusTaken(q: Queue, statuses: seq<Engine.Status>)
    requires StatusQueueValid(q, statuses)
    ensures q.Buffered() > 0 ==> StatusQueueValid(Take(q), statuses)
  {
  }

  lemma StepKeepsLogQueues(h: HubState, e: HubEvent)
    requires Inv(h)
    ensures var u := Step(h, e);
            forall id <- u.logSubscribers :: id <= u.lastID && LogQueueValid(u.logSubscribers[id], u.history)
  {
    var u := Step(h, e);
    forall id | id in u.logSubscribers
      ensures id <= u.lastID && LogQueueValid(u.logSubscribers[id], u.history)
    {
      match e
      case LogPublished(_, _, _, _) => LogOffered(h.logSubscribers[id], h.history, u.history[|h.history|]);
      case BridgeErrorPublished(code) => BridgeErrorOffered(h.logSubscribers[id], h.history, code);
      case LogsSubscribed => ArrivalSeesWindow(h.history);
      case LogReceived(_) => LogTaken(h.logSubscribers[id], h.history);
      case _ =>
    }
  }

  lemma StepKeepsStatusQueues(h: HubState, e: HubEvent)
    requires Inv(h)
    ensures var u := Step(h, e);
            forall id <- u.statusSubscribers :: id <= u.lastID && StatusQueueValid(u.statusSubscribers[id], u.statuses)
  {
    var u := Step(h, e);
    forall id | id in u.statusSubscribers
      ensures id <= u.lastID && StatusQueueValid(u.statusSubscribers[id], u.statuses)
    {
      match e
      case StatusPublished(status) => StatusOffered(h.statusSubscribers[id], h.statuses, status);
      case StatusSubscribed => StatusArrivalIsValid(h.statuses);
      case StatusReceived(_) => StatusTaken(h.statusSubscribers[id], h.statuses);
      case _ =>
    }
  }

  lemma {:induction false} RunsKeepInv(events: seq<HubEvent>)
    ensures Inv(Run(events))
    decreases |events|
  {
    if events != [] {
      var before := events[..|events| - 1];
      RunsKeepInv(before);
      StepKeepsLogQueues(Run(before), events[|events| - 1]);
      StepKeepsStatusQueues(Run(before), events[|events| - 1]);
    }
  }

  // ----- Where a stream begins -----

  /**
    Subscriber `id` came with event k: the first thing its queue accepted is what was in the buffer then.
   */
  ghost predicate CameForLogs(events: seq<HubEvent>, k: nat, id: nat, q: Queue)
    requires k < |events|
  {
    var h := Run(events[..k]);
    && events[k].LogsSubscribed? && id == h.lastID + 1
    && q.first == (if |h.history| > 512 then |h.history| - 512 else 0)
    && |h.history| - q.first <= |q.accepted|
    && Logs(q.accepted[..|h.history| - q.first]) == h.history[q.first..]
  }

  /** And of a status subscriber, the status current then. */
  ghost predicate CameForStatus(events: seq<HubEvent>, k: nat, id: nat, q: Queue)
    requires k < |events|
  {
    var h := Run(events[..k]);
    && events[k].StatusSubscribed? && id == h.lastID + 1
    && (h.statuses != [] ==>
          && q.first == |h.statuses| - 1
          && q.accepted != [] && q.accepted[0] == StatusEvent(h.statuses[q.first]))
  }

  /** A queue of the next state has grown out of one of this state, or is that of a new subscriber. */
  lemma LogQueueAfter(h: HubState, e: HubEvent, id: nat)
    requires Inv(h) && id in Step(h, e).logSubscribers
    ensures var q := Step(h, e).logSubscribers[id];
            if id in h.logSubscribers
            then h.logSubscribers[id].first == q.first && h.logSubscribers[id].accepted <= q.accepted
            else e.LogsSubscribed? && id == h.lastID + 1 && JustArrived(q, h.history)
  {
    if e.LogsSubscribed? {
      ArrivalSeesWindow(h.history);
    }
  }

  lemma StatusQueueAfter(h: HubState, e: HubEvent, id: nat)
    requires Inv(h) && id in Step(h, e).statusSubscribers
    ensures var q := Step(h, e).statusSubscribers[id];
            if id in h.statusSubscribers
            then h.statusSubscribers[id].first == q.first && h.statusSubscribers[id].accepted <= q.accepted
            else e.StatusSubscribed? && id == h.lastID + 1 && q == StatusArrival(h.statuses)
  {
  }

  lemma {:induction false} LogStreamBeginsAtWindow(events: seq<HubEvent>, id: nat)
    requires id in Run(events).logSubscribers
    ensures exists k: nat :: k < |events| && CameForLogs(events, k, id, Run(events).logSubscribers[id])
    decreases |events|
  {
    var n := |events| - 1;
    var before := events[..n];
    var h, q := Run(before), Run(events).logSubscribers[id];
    RunsKeepInv(before);
    LogQueueAfter(h, events[n], id);
    if id in h.logSubscribers {
      LogStreamBeginsAtWindow(before, id);
      var k: nat :| k < |before| && CameForLogs(before, k, id, h.logSubscribers[id]);
      LogStreamGrows(events, k, id, h.logSubscribers[id], q);
    } else {
      assert q.accepted[..|q.accepted|] == q.accepted;
      assert CameForLogs(events, n, id, q);
    }
  }

  lemma LogStreamGrows(events: seq<HubEvent>, k: nat, id: nat, p: Queue, q: Queue)
    requires k < |events| - 1 && CameForLogs(events[..|events| - 1], k, id, p)
    requires p.first == q.first && p.accepted <= q.accepted
    ensures CameForLogs(events, k, id, q)
  {
    var before := events[..|events| - 1];
    assert before[..k] == events[..k];
    var m := |Run(events[..k]).history| - p.first;
    assert p.accepted[..m] == q.accepted[..m];
  }

  lemma {:induction false} StatusStreamBeginsWithCurrent(events: seq<HubEvent>, id: nat)
    requires id in Run(events).statusSubscribers
    ensures exists k: nat :: k < |events| && CameForStatus(events, k, id, Run(events).statusSubscribers[id])
    decreases |events|
  {
    var n := |events| - 1;
    var before := events[..n];
    var h, q := Run(before), Run(events).statusSubscribers[id];
    RunsKeepInv(before);
    StatusQueueAfter(h, events[n], id);
    if id in h.statusSubscribers {
      StatusStreamBeginsWithCurrent(before, id);
      var k: nat :| k < |before| && CameForStatus(before, k, id, h.statusSubscribers[id]);
      assert before[..k] == events[..k];
      assert CameForStatus(events, k, id, q);
    } else {
      assert CameForStatus(events, n, id, q);
    }
  }

  /** What one log subscriber has seen is in order, free of duplicates, and free of gaps without a loss. */
  ghost predicate Seamless(q: Queue, history: seq<LogEntry>) {
    && q.first <= |history| && Increasing(Logs(q.accepted))
    && Subsequence(Logs(q.accepted), history[q.first..])
    && (|q.accepted| == |q.offered| ==> Logs(q.accepted) == history[q.first..])
  }

  /**
    What a log subscriber of a reachable hub accepts is in order, free of duplicates, and free of gaps
    unless an event found its queue full.
   */
  lemma LogStreamIsSeamless(h: HubState, id: nat)
    requires Inv(h) && id in h.logSubscribers
    ensures Seamless(h.logSubscribers[id], h.history)
  {
    LogSubscriberSees(h.logSubscribers[id], h.history);
  }

  /** One publication loses an event for a subscriber exactly when its queue is full at that moment. */
  lemma LossMeansFull(h: HubState, e: HubEvent, id: nat)
    requires Inv(h) && id in h.logSubscribers && (e.LogPublished? || e.BridgeErrorPublished?)
    ensures var q := h.logSubscribers[id]; var q' := Step(h, e).logSubscribers[id];
            && |q'.offered| == |q.offered| + 1 && q.Buffered() <= QUEUE_LIMIT
            && (|q'.accepted| == |q.accepted| <==> q.Buffered() == QUEUE_LIMIT)
            && (|q'.accepted| == |q.accepted| + 1 <==> q.Buffered() < QUEUE_LIMIT)
  {
    assert LogQueueValid(h.logSubscribers[id], h.history);
  }

  /**
    When the engine behind the hub publishes a walk in its transition graph, a status subscriber sees the
    status current at its subscription and then a subsequence of that walk.
   */
  lemma StatusStreamIsWalk(h: HubState, id: nat)
    requires Inv(h) && id in h.statusSubscribers && Engine.Walk(h.statuses)
    requires h.statusSubscribers[id].first < |h.statuses|
    ensures var q := h.statusSubscribers[id];
            && q.accepted != [] && q.accepted[0] == StatusEvent(h.statuses[q.first])
            && Engine.Walk(h.statuses[q.first..]) && Subsequence(q.accepted, StatusEvents(h.statuses[q.first..]))
  {
    StatusSubscriberSees(h.statusSubscribers[id], h.statuses);
  }

  /**
    The hub of an engine whose operations are serialised: whenever none is in progress, a new status
    subscriber is sent the engine's status at once, and every older one has seen a part of a walk.
   */
  lemma HubAgreesWithEngine(s: Engine.State, run: seq<Engine.Event>, h: HubState)
    requires Engine.Fresh(s) && Engine.Legal(s, run) && Engine.Serialised(s, run)
    requires Inv(h) && h.statuses == Engine.After(s, run).published && Engine.After(s, run).threads == map[]
    ensures StatusArrival(h.statuses).accepted == [StatusEvent(Engine.After(s, run).status)]
    ensures forall id <- h.statusSubscribers | h.statusSubscribers[id].first < |h.statuses| ::
              var q := h.statusSubscribers[id];
              && q.accepted != [] && q.accepted[0] == StatusEvent(h.statuses[q.first])
              && Engine.Walk(h.statuses[q.first..]) && Subsequence(q.accepted, StatusEvents(h.statuses[q.first..]))
  {
    EnginePublication.StatusAgreement(s, run);
    forall id <- h.statusSubscribers | h.statusSubscribers[id].first < |h.statuses|
      ensures var q := h.statusSubscribers[id];
              && q.accepted != [] && q.accepted[0] == StatusEvent(h.statuses[q.first])
              && Engine.Walk(h.statuses[q.first..]) && Subsequence(q.accepted, StatusEvents(h.statuses[q.first..]))
    {
      StatusStreamIsWalk(h, id);
    }
  }

  // ----- The hub itself -----

  class Hub {
    var nextSubscriberID: nat
    var nextLogSeq: nat
    var lastStatus: Option<Engine.Status>
    var statusSubscribers: map<nat, Queue>
    var logSubscribers: map<nat, Queue>
    const logs: array<LogEntry>
    var count: nat
    ghost var history: seq<LogEntry>
    ghost var statuses: seq<Engine.Status>
    var statusCount: nat

    ghost function View(): HubState
      reads this
    {
      HubState(history, statuses, nextSubscriberID, logSubscribers, statusSubscribers)
    }

    /** The buffer holds the window of the history, the last status the end of the statuses. */
    ghost predicate Valid()
      reads this, logs
    {
      && logs.Length == LOG_RING_LIMIT && count <= LOG_RING_LIMIT
      && nextLogSeq == |history| && count == |Window(history)| && logs[..count] == Window(history)
      && statusCount == |statuses|
      && lastStatus == (if statuses == [] then None else Some(statuses[|statuses| - 1]))
    }

    constructor ()
      ensures Valid() && fresh(logs) && View() == Run([])
    {
      nextSubscriberID, nextLogSeq, lastStatus, count := 0, 0, None, 0;
      statusSubscribers, logSubscribers := map[], map[];
      logs := new LogEntry[LOG_RING_LIMIT](_ => LogEntry(0, 0, "", "", ""));
      history, statuses, statusCount := [], [], 0;
    }

    /** Shifts a full buffer down by one place, in place, and puts the entry last. */
    method ShiftDown(entry: LogEntry)
      requires logs.Length > 0
      modifies logs
      ensures logs[..] == old(logs[..])[1..] + [entry]
    {
      ghost var before := logs[..];
      for i := 0 to logs.Length - 1
        invariant forall k :: 0 <= k < i ==> logs[k] == before[k + 1]
        invariant forall k :: i <= k < logs.Length ==> logs[k] == before[k]
      {
        logs[i] := logs[i + 1];
      }
      logs[logs.Length - 1] := entry;
    }

    method Append(entry: LogEntry)
      requires Valid()
      modifies this`count, this`nextLogSeq, this`history, logs
      ensures Valid() && history == old(history) + [entry]
    {
      ghost var window := Window(history);
      WindowGrows(history, entry);
      if count >= LOG_RING_LIMIT {
        assert logs[..] == window;
        ShiftDown(entry);
      } else {
        logs[count] := entry;
        count := count + 1;
        assert logs[..count] == window + [entry];
      }
      nextLogSeq := nextLogSeq + 1;
      history := history + [entry];
    }

    /** broadcastLocked, over the log subscribers or over the status subscribers. */
    method Broadcast(subscribers: map<nat, Queue>, e: Event) returns (after: map<nat, Queue>)
      ensures after == OfferAll(subscribers, e)
      ensures AllHeard(subscribers, after, e)
    {
      AllOffered(subscribers, e);
      after := subscribers;
      var left := subscribers.Keys;
      while left != {}
        invariant left <= subscribers.Keys && after.Keys == subscribers.Keys
        invariant forall id <- subscribers ::
                    after[id] == if id in left then subscribers[id] else Offer(subscribers[id], e)
      {
        var id :| id in left;
        after := after[id := Offer(after[id], e)];
        left := left - {id};
      }
    }

    method PublishRuntimeLog(timestamp: nat, source: string, level: string, message: string)
      requires Valid()
      modifies this, logs
      ensures Valid() && View() == Step(old(View()), LogPublished(timestamp, source, level, message))
      ensures var entry := LogEntry(|old(history)| + 1, timestamp, source, level, message);
              && history == old(history) + [entry]
              && AllHeard(old(logSubscribers), logSubscribers, LogEvent(entry))
      ensures statusSubscribers == old(statusSubscribers) && statuses == old(statuses)
    {
      var entry := LogEntry(nextLogSeq + 1, timestamp, source, level, message);
      Append(entry);
      logSubscribers := Broadcast(logSubscribers, LogEvent(entry));
    }

    /** A bridge error takes a place in the queues of the log subscribers but is no log entry. */
    method PublishBridgeError(code: string)
      requires Valid()
      modifies this`logSubscribers
      ensures Valid() && View() == Step(old(View()), BridgeErrorPublished(code))
      ensures AllHeard(old(logSubscribers), logSubscribers, BridgeErrorEvent(code))
    {
      logSubscribers := Broadcast(logSubscribers, BridgeErrorEvent(code));
    }

    method PublishStatus(status: Engine.Status)
      requires Valid()
      modifies this`lastStatus, this`statuses, this`statusCount, this`statusSubscribers
      ensures Valid() && View() == Step(old(View()), StatusPublished(status))
      ensures statuses == old(statuses) + [status]
      ensures AllHeard(old(statusSubscribers), statusSubscribers, StatusEvent(status))
    {
      lastStatus := Some(status);
      statuses, statusCount := statuses + [status], statusCount + 1;
      statusSubscribers := Broadcast(statusSubscribers, StatusEvent(status));
    }

    /** The buffered entries, oldest first, sent to a queue that nobody reads yet. */
    method ReplayBuffer(q: Queue) returns (r: Queue)
      requires count <= logs.Length
      ensures r == Replay(q, logs[..count])
    {
      r := q;
      for i := 0 to count
        invariant r == Replay(q, logs[..i])
      {
        r := Offer(r, LogEvent(logs[i]));
        assert logs[..i + 1][..i] == logs[..i];
      }
    }

    /** A queue for a log subscriber that arrives now. */
    method Welcome() returns (q: Queue)
      requires Valid()
      ensures q == LogArrival(history) && JustArrived(q, history)
    {
      q := ReplayBuffer(NewQueue(nextLogSeq - count));
      ArrivalSeesWindow(history);
    }

    method SubscribeLogs() returns (id: nat)
      requires Valid()
      modifies this`nextSubscriberID, this`logSubscribers
      ensures Valid() && View() == Step(old(View()), LogsSubscribed) && id == old(nextSubscriberID) + 1
      // It is sent the entries in the buffer, and nothing is lost.
      ensures id in logSubscribers && logSubscribers == old(logSubscribers)[id := logSubscribers[id]]
      ensures JustArrived(logSubscribers[id], history)
    {
      nextSubscriberID := nextSubscriberID + 1;
      id := nextSubscriberID;
      var q := Welcome();
      logSubscribers := logSubscribers[id := q];
    }

    method SubscribeStatus() returns (id: nat)
      requires Valid()
      modifies this`nextSubscriberID, this`statusSubscribers
      ensures Valid() && View() == Step(old(View()), StatusSubscribed) && id == old(nextSubscriberID) + 1
      ensures id in statusSubscribers && statusSubscribers == old(statusSubscribers)[id := statusSubscribers[id]]
      ensures var q := statusSubscribers[id];
              && q.taken == 0 && q.offered == q.accepted
              && q.accepted == if statuses == [] then [] else [StatusEvent(statuses[|statuses| - 1])]
    {
      nextSubscriberID := nextSubscriberID + 1;
      id := nextSubscriberID;
      var q := NewQueue(if statusCount > 0 then statusCount - 1 else 0);
      if lastStatus.Some? {
        q := Offer(q, StatusEvent(lastStatus.value));
      }
      statusSubscribers := statusSubscribers[id := q];
    }

    /** The reader of a queue takes its next event, in order. */
    method ReceiveLog(id: nat) returns (e: Event)
      requires Valid() && CanReceive(logSubscribers, id)
      modifies this`logSubscribers
      ensures Valid() && View() == Step(old(View()), LogReceived(id))
      ensures var q := old(logSubscribers)[id];
              e == q.accepted[q.taken] && logSubscribers == old(logSubscribers)[id := q.(taken := q.taken + 1)]
    {
      e := logSubscribers[id].accepted[logSubscribers[id].taken];
      logSubscribers := TakeFrom(logSubscribers, id);
    }

    method ReceiveStatus(id: nat) returns (e: Event)
      requires Valid() && CanReceive(statusSubscribers, id)
      modifies this`statusSubscribers
      ensures Valid() && View() == Step(old(View()), StatusReceived(id))
      ensures var q := old(statusSubscribers)[id];
              e == q.accepted[q.taken] && statusSubscribers == old(statusSubscribers)[id := q.(taken := q.taken + 1)]
    {
      e := statusSubscribers[id].accepted[statusSubscribers[id].taken];
      statusSubscribers := TakeFrom(statusSubscribers, id);
    }

    method Unsubscribe(id: nat)
      requires Valid()
      modifies this`logSubscribers, this`statusSubscribers
      ensures Valid() && View() == Step(old(View()), Unsubscribed(id))
      ensures logSubscribers == old(logSubscribers) - {id}
      ensures statusSubscribers == old(statusSubscribers) - {id}
    {
      logSubscribers := logSubscribers - {id};
      statusSubscribers := statusSubscribers - {id};
    }
  }

  /** One call of the hub, or of the reader of one of its queues. */
  method Perform(h: Hub, e: HubEvent)
    requires h.Valid()
    modifies h, h.logs
    ensures h.Valid() && h.View() == Step(old(h.View()), e)
  {
    match e {
      case LogPublished(timestamp, source, level, message) => h.PublishRuntimeLog(timestamp, source, level, message);
      case BridgeErrorPublished(code) => h.PublishBridgeError(code);
      case StatusPublished(status) => h.PublishStatus(status);
      case LogsSubscribed => var _ := h.SubscribeLogs();
      case StatusSubscribed => var _ := h.SubscribeStatus();
      case LogReceived(id) =>
        if CanReceive(h.logSubscribers, id) {
          var _ := h.ReceiveLog(id);
        }
      case StatusReceived(id) =>
        if CanReceive(h.statusSubscribers, id) {
          var _ := h.ReceiveStatus(id);
        }
      case Unsubscribed(id) => h.Unsubscribe(id);
    }
  }

  /** A new hub after any calls in any order: the buffer is the window, and every log subscriber is well served. */
  method PerformAll(events: seq<HubEvent>) returns (h: Hub)
    ensures h.Valid() && h.View() == Run(events) && Inv(h.View())
    ensures h.logs[..h.count] == Window(h.history)
    ensures forall id <- h.logSubscribers :: Seamless(h.logSubscribers[id], h.history)
    ensures forall id <- h.logSubscribers ::
              exists k: nat :: k < |events| && CameForLogs(events, k, id, h.logSubscribers[id])
    ensures forall id <- h.statusSubscribers ::
              exists k: nat :: k < |events| && CameForStatus(events, k, id, h.statusSubscribers[id])
  {
    h := new Hub();
    assert events[..0] == [];
    for i := 0 to |events|
      invariant fresh(h) && fresh(h.logs) && h.Valid() && h.View() == Run(events[..i])
    {
      assert events[..i + 1][..i] == events[..i];
      Perform(h, events[i]);
    }
    assert events[..|events|] == events;
    RunsKeepInv(events);
    forall id <- h.logSubscribers
      ensures Seamless(h.logSubscribers[id], h.history)
    {
      LogStreamIsSeamless(h.View(), id);
    }
    forall id <- h.logSubscribers
      ensures exists k: nat :: k < |events| && CameForLogs(events, k, id, h.logSubscribers[id])
    {
      LogStreamBeginsAtWindow(events, id);
    }
    forall id <- h.statusSubscribers
      ensures exists k: nat :: k < |events| && CameForStatus(events, k, id, h.statusSubscribers[id])
    {
      StatusStreamBeginsWithCurrent(events, id);
    }
  }
}
