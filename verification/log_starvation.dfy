/**
 * How logs starve: without answers that find nothing queued at most one more batch leaves the dispatcher. This
 * gives the exact condition under which all records are dispatched, and a run in which none ever is.
 */
module LogStarvation {
  import opened Wrappers
  import opened LogCodec
  import opened Dispatch
  import opened LogPipeline
  import opened LogLiveness

  // What may still leave

  /** The logs sent, and those of one more batch if the dispatcher is free to send it. */
  function Room(d: Dispatcher): (n: nat) {
    |LogsOf(d.sent)| + if d.canExecute then MAX_QUERY_EXEC else 0
  }

  lemma CheckRoom(d: Dispatcher, after: Dispatcher)
    requires Checked(d, after) && NoInserts(d.queue)
    ensures NoInserts(after.queue) && Room(after) <= Room(d)
    ensures d.canExecute && d.queue != multiset{} ==> Room(after) == |LogsOf(d.sent)|
  {
    hide Checked, Filled, IsHighest, LogsOf, NoInserts;
    CheckConserves(d, after);
    if !d.canExecute {
      NothingSent(d, after);
    } else {
      CheckCases(d, after);
      if d.queue != multiset{} {
        var q :| IsHighest(q, d.queue) && after == Sent(d, q);
        OneQueryLess(d.queue, q);
        OneMoreSent(d.sent, q);
      } else if d.buffer != [] {
        OneMoreSent(d.sent, Insert(d.buffer[..BatchSize(d)]));
      }
    }
  }

  lemma PutRoom(d: Dispatcher, q: Query, after: Dispatcher)
    requires PutAndChecked(d, q, after) && NoInserts(d.queue) && !q.Insert?
    ensures NoInserts(after.queue) && Room(after) <= Room(d)
  {
    hide Checked, LogsOf;
    CheckRoom(Put(d, q), after);
  }

  lemma ReceiveRoom(d: Dispatcher, logs: seq<LogMessage>, after: Dispatcher)
    requires Received(d, logs, after) && NoInserts(d.queue)
    ensures Room(after) <= Room(d)
  {
    hide Checked, PutAndChecked, LogsOf, NoInserts;
    var got := d.(buffer := d.buffer + logs, insertCount := d.insertCount + 1);
    if got.insertCount > INSERT_COUNT_CHECK {
      var mid :| PutAndChecked(got, CheckCount, mid) && Checked(mid.(insertCount := 0), after);
      PutRoom(got, CheckCount, mid);
      CheckRoom(mid.(insertCount := 0), after);
    } else {
      CheckRoom(got, after);
    }
  }

  lemma PingRoom(d: Dispatcher, after: Dispatcher)
    requires Next(d, Ping, after) && NoInserts(d.queue)
    ensures Room(after) <= Room(d)
  {
    hide Checked, LogsOf;
    if d.connected {
      CheckRoom(Pinged(d), after);
    }
  }

  /** Only an answer that finds nothing queued lets another batch go. */
  lemma StepRoom(d: Dispatcher, a: Action, after: Dispatcher)
    requires Next(d, a, after) && NoInserts(d.queue) && IsSteady(a) && !(a == Result(false) && d.queue == multiset{})
    ensures Room(after) <= Room(d)
  {
    hide Checked, PutAndChecked, LogsOf, NoInserts, Received;
    match a {
      case Receive(logs) => ReceiveRoom(d, logs, after);
      case Result(closed) => CheckRoom(d.(results := d.results + 1, canExecute := true), after);
      case Ping => PingRoom(d, after);
      case LifetimeTick(date) => PutRoom(d, CheckLifetime(date), after);
      case NewLimits(date) =>
        var mid :| PutAndChecked(d, CheckCount, mid) && PutAndChecked(mid, CheckLifetime(date), after);
        PutRoom(d, CheckCount, mid);
        PutRoom(mid, CheckLifetime(date), after);
      case Connect(_) =>
    }
  }

  lemma StepRoomIn(s: Sys, ev: Event, after: Sys)
    requires Possible(s, ev) && Moves(s, ev, after) && SteadyEvent(ev) && FlowInv(s)
    requires !(ev == Dispatch(Result(false)) && s.dispatcher.queue == multiset{})
    ensures Room(after.dispatcher) <= Room(s.dispatcher)
  {
    hide Next, Room, NoInserts, Held, Parsed;
    match ev {
      case Deliver => StepRoom(s.dispatcher, Receive(s.reader.batches[0]), after.dispatcher);
      case Dispatch(a) => StepRoom(s.dispatcher, a, after.dispatcher);
      case _ =>
    }
  }

  /** As long as no answer finds nothing queued, at most one more batch leaves. */
  lemma {:induction false} OneMoreBatchAtMost(states: nat -> Sys, events: nat -> Event, start: nat, n: nat, m: nat)
    requires Run(states, events) && Steady(states, events, start) && start <= n <= m
    requires forall k: nat :: n <= k < m ==> !AnswersAt(states, events, k)
    ensures Room(states(m).dispatcher) <= Room(states(n).dispatcher)
    ensures |LogsOf(states(m).dispatcher.sent)| <= |LogsOf(states(n).dispatcher.sent)| + MAX_QUERY_EXEC
  {
    hide Run, Steady, StreamInv, FlowInv, Possible, Moves, LogsOf, ReachedIn;
    if n < m {
      OneMoreBatchAtMost(states, events, start, n, m - 1);
      InvIn(states, events, m - 1);
      StepBy(states, events, m - 1);
      SteadyAt(states, events, start, m - 1);
      assert !AnswersAt(states, events, m - 1);
      StepRoomIn(states(m - 1), events(m - 1), states(m));
    }
  }

  // What must have left

  lemma SentStays(d: Dispatcher, a: Action, after: Dispatcher)
    requires Next(d, a, after)
    ensures LogsOf(d.sent) <= LogsOf(after.sent)
  {
    hide Checked, LogsOf, Received, PutAndChecked;
    if IsSteady(a) {
      StepGoesOn(d, a, after);
    } else if a.Connect? {
      CheckGoesOn(d.(canExecute := a.ok, connected := a.ok), after);
    } else {
      CheckGoesOn(d.(results := d.results + 1, canExecute := false, connected := false), after);
    }
  }

  lemma SentStaysIn(s: Sys, ev: Event, after: Sys)
    requires Possible(s, ev) && Moves(s, ev, after)
    ensures LogsOf(s.dispatcher.sent) <= LogsOf(after.dispatcher.sent)
  {
    hide LogsOf, Next;
    match ev {
      case Deliver => SentStays(s.dispatcher, Receive(s.reader.batches[0]), after.dispatcher);
      case Dispatch(a) => SentStays(s.dispatcher, a, after.dispatcher);
      case _ =>
    }
  }

  lemma {:induction false} LogsStaySent(states: nat -> Sys, events: nat -> Event, n: nat, m: nat)
    requires Run(states, events) && n <= m
    ensures LogsOf(states(n).dispatcher.sent) <= LogsOf(states(m).dispatcher.sent)
  {
    hide Run, LogsOf, Possible, Moves;
    if n < m {
      LogsStaySent(states, events, n, m - 1);
      StepBy(states, events, m - 1);
      SentStaysIn(states(m - 1), events(m - 1), states(m));
    }
  }

  /** A list that holds each of some different entries holds as many records as they do. */
  lemma {:induction false} CoveredCount(handed: seq<Entry>, entries: seq<Entry>)
    requires Covers(handed, entries) && forall i, j :: 0 <= i < j < |entries| ==> entries[i] != entries[j]
    ensures |Parsed(entries)| <= |Parsed(handed)|
    decreases |entries|
  {
    hide ParsedEntry;
    if entries != [] {
      assert entries[0] in handed;
      var p :| 0 <= p < |handed| && handed[p] == entries[0];
      var others := handed[..p] + handed[p + 1..];
      forall e | e in entries[1..] ensures e in others {
        var i :| 1 <= i < |entries| && entries[i] == e;
        assert entries[0] != entries[i] && e in handed;
        assert handed == handed[..p] + [handed[p]] + handed[p + 1..];
      }
      CoveredCount(others, entries[1..]);
      WithoutOne(handed, p);
    }
  }

  lemma WithoutOne(handed: seq<Entry>, p: nat)
    requires p < |handed|
    ensures |Parsed(handed)| == |Parsed(handed[..p] + handed[p + 1..])| + |ParsedEntry(handed[p])|
  {
    hide ParsedEntry;
    var front, behind := handed[..p], handed[p + 1..];
    assert handed == front + handed[p..];
    ParsedConcat(front, handed[p..]);
    ParsedConcat(front, behind);
  }

  lemma DispatchedCount(states: nat -> Sys, events: nat -> Event, n: nat) returns (m: nat)
    requires Run(states, events) && IsDispatched(states, n)
    ensures |Parsed(states(n).appended)| <= |LogsOf(states(m).dispatcher.sent)|
  {
    hide Run, Parsed, LogsOf, Covers, FlowInv, IdsCover, HandedReach, ReachedIn;
    var k: nat, sent: nat :| Covers(states(k).reader.handed, states(n).appended)
                             && Parsed(states(k).reader.handed) <= LogsOf(states(sent).dispatcher.sent);
    InvIn(states, events, n);
    CoveredCount(states(k).reader.handed, states(n).appended);
    m := sent;
  }

  // The exact condition

  /** Step m appends an entry that holds a record. */
  ghost predicate AppendsRecord(states: nat -> Sys, events: nat -> Event, m: nat) {
    events(m).Append? && ParsedEntry(Entry(|states(m).appended|, events(m).value)) != []
  }

  ghost predicate RecordsKeepComing(states: nat -> Sys, events: nat -> Event) {
    forall n: nat :: SomeRecord(states, events, n)
  }

  ghost predicate SomeRecord(states: nat -> Sys, events: nat -> Event, n: nat) {
    exists m: nat :: m >= n && AppendsRecord(states, events, m)
  }

  lemma {:induction false} RecordsGrow(states: nat -> Sys, events: nat -> Event, count: nat) returns (n: nat)
    requires Run(states, events) && RecordsKeepComing(states, events)
    ensures |Parsed(states(n).appended)| >= count
  {
    hide Parsed, ParsedEntry;
    n := 0;
    if count > 0 {
      var before := RecordsGrow(states, events, count - 1);
      assert SomeRecord(states, events, before);
      var m: nat :| m >= before && AppendsRecord(states, events, m);
      AppendedStays(states, events, before, m);
      assert states(m).appended == states(before).appended + states(m).appended[|states(before).appended|..];
      ParsedConcat(states(before).appended, states(m).appended[|states(before).appended|..]);
      RecordIsAppended(states, events, m);
      n := m + 1;
    }
  }

  lemma RecordIsAppended(states: nat -> Sys, events: nat -> Event, m: nat)
    requires Run(states, events) && AppendsRecord(states, events, m)
    ensures |Parsed(states(m + 1).appended)| > |Parsed(states(m).appended)|
  {
    StepBy(states, events, m);
    hide Run, ParsedEntry;
    var e := Entry(|states(m).appended|, events(m).value);
    ParsedConcat(states(m).appended, [e]);
    assert [e][1..] == [];
  }

  /**
   * When all records are dispatched: in a run to which records keep being appended, and in which the database stays
   * connected, requests are served and batches delivered, exactly if answers keep coming that find nothing queued.
   */
  lemma AllDispatchedIff(states: nat -> Sys, events: nat -> Event, start: nat)
    requires Run(states, events) && Steady(states, events, start) && Serviced(states, events, start)
    requires OnRequest(states, events) && RecordsKeepComing(states, events)
    ensures (forall n: nat :: IsDispatched(states, n)) <==> Answered(states, events, start)
  {
    if Answered(states, events, start) {
      hide Run, Steady, Serviced, OnRequest, Answered, IsDispatched;
      forall n: nat ensures IsDispatched(states, n) {
        EveryRecordIsDispatched(states, events, start, n);
      }
    } else {
      var last: nat :| last >= start && !SomeAnswer(states, events, last);
      hide Run, Steady, Serviced, OnRequest, IsDispatched, LogsOf, Parsed, AnswersAt, RecordsKeepComing;
      var n := RecordsGrow(states, events, |LogsOf(states(last).dispatcher.sent)| + MAX_QUERY_EXEC + 1);
      if IsDispatched(states, n) {
        var m := DispatchedCount(states, events, n);
        var late := if m > last then m else last;
        LogsStaySent(states, events, m, late);
        OneMoreBatchAtMost(states, events, start, last, late);
        assert false;
      }
    }
  }

  // A run in which logs starve

  function Entries(lm: LogMessage, n: nat): (r: seq<Entry>) {
    seq(n, i requires 0 <= i => Entry(i, Some(MarshalToString(lm))))
  }

  function Heartbeats(n: nat): (r: seq<Query>) {
    seq(n, _ => Heartbeat)
  }

  /** Busy since the first heartbeat; then a record is handed over and delivered. */
  function Opening(lm: LogMessage, n: nat): (s: Sys) {
    var entries, free := Entries(lm, 1), FRESH.(canExecute := true, connected := true, requests := 1);
    var busy := free.(canExecute := false, requests := 2, sent := [Heartbeat]);
    match n
    case 0 => EMPTY
    case 1 => EMPTY.(dispatcher := free)
    case 2 => EMPTY.(dispatcher := busy)
    case 3 => Sys(entries, Reader(entries, [], [], []), busy)
    case 4 => Sys(entries, Reader(entries, [0], entries, [[lm]]), busy)
    case _ => Sys(entries, Reader(entries, [0], entries, []), busy.(buffer := [lm], insertCount := 1))
  }

  /** Round by round: a ping queues a heartbeat, an answer sends it, and a record is appended. */
  function Round(lm: LogMessage, k: nat, step: nat): (s: Sys) {
    var queue := if step == 1 then multiset{Heartbeat} else multiset{};
    var answers := if step == 2 then k + 1 else k;
    Sys(Entries(lm, k + 1), Reader(Entries(lm, k + 1)[1..], [], Entries(lm, 1), []),
        Dispatcher([lm], queue, false, true, 1, Heartbeats(answers + 1), answers, 2))
  }

  function StarvingState(lm: LogMessage, n: nat): (s: Sys) {
    if n < 6 then Opening(lm, n) else Round(lm, (n - 6) / 3, (n - 6) % 3)
  }

  function StarvingEvent(lm: LogMessage, n: nat): (ev: Event) {
    if n == 0 then Dispatch(Connect(true))
    else if n == 1 then Dispatch(Ping)
    else if n == 3 || n == 5 then Request(Deleted, true, 0)
    else if n == 4 then Deliver
    else if n == 2 || n % 3 == 2 then Append(Some(MarshalToString(lm)))
    else if n % 3 == 0 then Dispatch(Ping)
    else Dispatch(Result(false))
  }

  lemma OneEntry(lm: LogMessage)
    requires HasNoComma(lm)
    ensures Entries(lm, 1) == [Entry(0, Some(MarshalToString(lm)))] && Ids(Entries(lm, 1)) == [0]
    ensures Parsed(Entries(lm, 1)) == [lm] && Parsed([]) == []
  {
    hide MarshalToString, ParsedEntry;
    var e := Entry(0, Some(MarshalToString(lm)));
    assert Entries(lm, 1) == [e] && [e][1..] == [];
    OneRecord(e, lm);
  }

  lemma FreePing(d: Dispatcher)
    requires d.canExecute && d.connected && d.queue == multiset{} && d.buffer == []
    ensures Next(d, Ping, d.(canExecute := false, requests := d.requests + 1, sent := d.sent + [Heartbeat]))
  {
    var pinged := Pinged(d);
    assert IsHighest(Heartbeat, pinged.queue);
    assert Sent(pinged, Heartbeat) == d.(canExecute := false, requests := d.requests + 1, sent := d.sent + [Heartbeat]);
  }

  lemma BusyReceives(d: Dispatcher, logs: seq<LogMessage>)
    requires !d.canExecute && d.insertCount < INSERT_COUNT_CHECK
    ensures Next(d, Receive(logs), d.(buffer := d.buffer + logs, insertCount := d.insertCount + 1))
  {
  }

  lemma OpeningMoves(lm: LogMessage, n: nat)
    requires HasNoComma(lm) && n < 5
    ensures Possible(Opening(lm, n), StarvingEvent(lm, n))
    ensures Moves(Opening(lm, n), StarvingEvent(lm, n), Opening(lm, n + 1))
  {
    hide MarshalToString, Parsed, ParsedEntry, Ids, Next, Requested, Entries;
    OneEntry(lm);
    if n == 0 {
      IdleConnects(FRESH);
    } else if n == 1 {
      FreePing(Opening(lm, 1).dispatcher);
      assert [] + [Heartbeat] == [Heartbeat];
    } else if n == 2 {
      assert [] + Entries(lm, 1) == Entries(lm, 1);
    } else if n == 3 {
      OneEntryIsRead(Opening(lm, 3).reader, Deleted, 0, Entries(lm, 1)[0]);
    } else {
      BusyReceives(Opening(lm, 4).dispatcher, [lm]);
      assert [] + [lm] == [lm];
    }
  }

  lemma OpeningEnds(lm: LogMessage)
    requires HasNoComma(lm)
    ensures Possible(Opening(lm, 5), StarvingEvent(lm, 5))
    ensures Moves(Opening(lm, 5), StarvingEvent(lm, 5), Round(lm, 0, 0))
  {
    hide MarshalToString, Parsed, ParsedEntry, Entries;
    OneEntry(lm);
    var r := Opening(lm, 5).reader;
    assert XDel(r.stream, [0]) == [] by { assert XDel([], [0]) == []; }
    assert r.handed + [] == r.handed;
    assert Heartbeats(1) == [Heartbeat];
  }

  lemma RoundMoves(lm: LogMessage, k: nat, step: nat)
    requires step < 3
    ensures var s, ev := Round(lm, k, step), StarvingEvent(lm, 6 + 3 * k + step);
            && Possible(s, ev)
            && Moves(s, ev, if step < 2 then Round(lm, k, step + 1) else Round(lm, k + 1, 0))
  {
    hide MarshalToString, Next;
    assert (6 + 3 * k + step) % 3 == step;
    var pinged, after := HeartbeatGoesFirst(Round(lm, k, 0).dispatcher);
    assert Heartbeats(k + 1) + [Heartbeat] == Heartbeats(k + 2);
    if step == 2 {
      var e := Entry(k + 1, Some(MarshalToString(lm)));
      assert Entries(lm, k + 1) + [e] == Entries(lm, k + 2);
      assert Entries(lm, k + 1)[1..] + [e] == Entries(lm, k + 2)[1..];
    }
  }

  lemma StarvingRun(lm: LogMessage, n: nat)
    requires HasNoComma(lm)
    ensures Possible(StarvingState(lm, n), StarvingEvent(lm, n))
    ensures Moves(StarvingState(lm, n), StarvingEvent(lm, n), StarvingState(lm, n + 1))
  {
    hide Moves, Possible, Opening, Round, StarvingEvent;
    if n < 5 {
      OpeningMoves(lm, n);
    } else if n == 5 {
      OpeningEnds(lm);
    } else {
      RoundMoves(lm, (n - 6) / 3, (n - 6) % 3);
    }
  }

  lemma {:induction false} HeartbeatsHoldNoLogs(n: nat)
    ensures LogsOf(Heartbeats(n)) == []
  {
    if n > 0 {
      HeartbeatsHoldNoLogs(n - 1);
      assert Heartbeats(n) == Heartbeats(n - 1) + [Heartbeat];
      OneMoreSent(Heartbeats(n - 1), Heartbeat);
    }
  }

  /** Answers keep coming, whatever they find. */
  ghost predicate ResultsKeepComing(events: nat -> Event) {
    forall n: nat :: SomeResult(events, n)
  }

  ghost predicate SomeResult(events: nat -> Event, n: nat) {
    exists m: nat :: m >= n && events(m) == Dispatch(Result(false))
  }

  function StarvingStates(lm: LogMessage): (states: nat -> Sys) {
    (n: nat) => StarvingState(lm, n)
  }

  function StarvingEvents(lm: LogMessage): (events: nat -> Event) {
    (n: nat) => StarvingEvent(lm, n)
  }

  lemma {:induction false} StarvingServed(lm: LogMessage, n: nat)
    ensures Served(StarvingEvents(lm), n) == if n < 4 then 0 else if n < 6 then 1 else 2
  {
    hide MarshalToString;
    if n > 0 {
      StarvingServed(lm, n - 1);
    }
  }

  lemma StarvingIsRun(lm: LogMessage)
    requires HasNoComma(lm)
    ensures Run(StarvingStates(lm), StarvingEvents(lm))
  {
    hide Moves, Possible, StarvingEvent, Round;
    forall n: nat
      ensures Possible(StarvingState(lm, n), StarvingEvent(lm, n))
      ensures Moves(StarvingState(lm, n), StarvingEvent(lm, n), StarvingState(lm, n + 1))
    {
      StarvingRun(lm, n);
    }
  }

  lemma StarvingIsServiced(lm: LogMessage)
    ensures Steady(StarvingStates(lm), StarvingEvents(lm), 1) && Serviced(StarvingStates(lm), StarvingEvents(lm), 1)
    ensures OnRequest(StarvingStates(lm), StarvingEvents(lm))
  {
    hide MarshalToString, Served;
    var states, events := StarvingStates(lm), StarvingEvents(lm);
    assert events(5).Request? && events(4).Deliver?;
    forall n: nat
      ensures Served(events, n) <= states(n).dispatcher.requests
      ensures Served(events, n) < states(n).dispatcher.requests ==> n < 6
      ensures states(n).reader.batches != [] ==> n == 4
    {
      StarvingServed(lm, n);
    }
  }

  lemma StarvingKeepsComing(lm: LogMessage)
    requires HasNoComma(lm)
    ensures RecordsKeepComing(StarvingStates(lm), StarvingEvents(lm)) && ResultsKeepComing(StarvingEvents(lm))
  {
    hide MarshalToString, ParsedEntry, StarvingState;
    var states, events := StarvingStates(lm), StarvingEvents(lm);
    forall n: nat ensures SomeRecord(states, events, n) && SomeResult(events, n) {
      var m := 6 + 3 * n;
      assert events(m + 1) == Dispatch(Result(false));
      assert events(m + 2) == Append(Some(MarshalToString(lm)));
      LoggedRecordIsParsed(|states(m + 2).appended|, lm);
      assert AppendsRecord(states, events, m + 2);
    }
  }

  /**
   * For every record without commas there is a run in which records keep being appended, the database stays connected
   * and answers, requests are served and batches delivered, and no record is ever dispatched: before each answer a
   * ping has queued a heartbeat, which goes first.
   */
  lemma PingsCanStarveLogs(lm: LogMessage) returns (states: nat -> Sys, events: nat -> Event)
    requires HasNoComma(lm)
    ensures Run(states, events) && Steady(states, events, 1) && Serviced(states, events, 1)
    ensures OnRequest(states, events) && RecordsKeepComing(states, events) && ResultsKeepComing(events)
    ensures forall n: nat :: LogsOf(states(n).dispatcher.sent) == []
  {
    states, events := StarvingStates(lm), StarvingEvents(lm);
    hide Run, Steady, Serviced, OnRequest, RecordsKeepComing, ResultsKeepComing, LogsOf, StarvingState;
    StarvingIsRun(lm);
    StarvingIsServiced(lm);
    StarvingKeepsComing(lm);
    forall n: nat ensures LogsOf(states(n).dispatcher.sent) == [] {
      StarvingSendsNoLogs(lm, n);
    }
  }

  lemma StarvingSendsNoLogs(lm: LogMessage, n: nat)
    ensures LogsOf(StarvingState(lm, n).dispatcher.sent) == []
  {
    hide MarshalToString, LogsOf;
    HeartbeatsHoldNoLogs(0);
    HeartbeatsHoldNoLogs(1);
    assert Heartbeats(0) == [] && Heartbeats(1) == [Heartbeat];
    if n >= 6 {
      HeartbeatsHoldNoLogs(|StarvingState(lm, n).dispatcher.sent|);
    }
  }
}
