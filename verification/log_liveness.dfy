/**
 * Progress of the log pipeline: while requests are served, batches delivered and queries answered, every record
 * appended to the stream is dispatched to the database.
 */
module LogLiveness {
  import opened Wrappers
  import opened LogCodec
  import opened Dispatch
  import opened LogPipeline

  // The dispatcher

  /** Logs sent stay sent, requests made stay made, and the connection stands. */
  ghost predicate GoesOn(d: Dispatcher, after: Dispatcher) {
    LogsOf(d.sent) <= LogsOf(after.sent) && d.requests <= after.requests && after.connected == d.connected
  }

  lemma CheckGoesOn(d: Dispatcher, after: Dispatcher)
    requires Checked(d, after)
    ensures GoesOn(d, after)
  {
    hide Checked, Filled, IsHighest, LogsOf, BatchSize;
    if !d.canExecute {
      NothingSent(d, after);
    } else {
      CheckCases(d, after);
      if d.queue != multiset{} {
        var q :| IsHighest(q, d.queue) && after == Sent(d, q);
        OneMoreSent(d.sent, q);
      } else if d.buffer != [] {
        OneMoreSent(d.sent, Insert(d.buffer[..BatchSize(d)]));
      }
    }
  }

  predicate IsSteady(a: Action) {
    !a.Connect? && a != Result(true)
  }

  lemma StepGoesOn(d: Dispatcher, a: Action, after: Dispatcher)
    requires Next(d, a, after) && IsSteady(a)
    ensures GoesOn(d, after)
  {
    hide Checked, PutAndChecked, LogsOf;
    match a {
      case Receive(logs) => ReceiveGoesOn(d, logs, after);
      case Result(closed) => CheckGoesOn(d.(results := d.results + 1, canExecute := true), after);
      case Ping => PingGoesOn(d, after);
      case LifetimeTick(date) => PutGoesOn(d, CheckLifetime(date), after);
      case NewLimits(date) =>
        var mid :| PutAndChecked(d, CheckCount, mid) && PutAndChecked(mid, CheckLifetime(date), after);
        PutGoesOn(d, CheckCount, mid);
        PutGoesOn(mid, CheckLifetime(date), after);
      case _ =>
    }
  }

  lemma PutGoesOn(d: Dispatcher, q: Query, after: Dispatcher)
    requires PutAndChecked(d, q, after)
    ensures GoesOn(d, after)
  {
    hide Checked, LogsOf;
    CheckGoesOn(Put(d, q), after);
  }

  lemma PingGoesOn(d: Dispatcher, after: Dispatcher)
    requires Next(d, Ping, after)
    ensures GoesOn(d, after)
  {
    hide Checked, LogsOf;
    if d.connected {
      CheckGoesOn(Pinged(d), after);
    }
  }

  lemma ReceiveGoesOn(d: Dispatcher, logs: seq<LogMessage>, after: Dispatcher)
    requires Received(d, logs, after)
    ensures GoesOn(d, after)
  {
    hide Checked, PutAndChecked, LogsOf;
    var got := d.(buffer := d.buffer + logs, insertCount := d.insertCount + 1);
    if got.insertCount > INSERT_COUNT_CHECK {
      var mid :| PutAndChecked(got, CheckCount, mid) && Checked(mid.(insertCount := 0), after);
      PutGoesOn(got, CheckCount, mid);
      CheckGoesOn(mid.(insertCount := 0), after);
    } else {
      CheckGoesOn(got, after);
    }
  }

  /** An answer that finds nothing queued sends the next batch, or asks for more logs. */
  lemma AnswerAtEmptyQueue(d: Dispatcher, after: Dispatcher)
    requires d.queue == multiset{} && Next(d, Result(false), after)
    ensures if d.buffer != [] then |LogsOf(after.sent)| > |LogsOf(d.sent)| else after.requests == d.requests + 1
  {
    hide Checked, LogsOf;
    var free := d.(results := d.results + 1, canExecute := true);
    CheckCases(free, after);
    if d.buffer != [] {
      OneMoreSent(d.sent, Insert(d.buffer[..BatchSize(free)]));
    }
  }

  /** An answer after a ping sends the heartbeat, and the logs go on waiting. */
  lemma HeartbeatGoesFirst(d: Dispatcher) returns (pinged: Dispatcher, after: Dispatcher)
    requires d.connected && !d.canExecute && d.queue == multiset{} && d.buffer != []
    ensures pinged == d.(queue := multiset{Heartbeat})
    ensures Next(d, Ping, pinged) && Next(pinged, Result(false), after)
    ensures after == d.(results := d.results + 1, sent := d.sent + [Heartbeat])
  {
    pinged := Put(d, Heartbeat);
    after := d.(results := d.results + 1, sent := d.sent + [Heartbeat]);
    var free := pinged.(results := d.results + 1, canExecute := true);
    assert free.queue == multiset{Heartbeat} && IsHighest(Heartbeat, free.queue);
    assert Sent(free, Heartbeat) == after;
  }

  // Runs of the pipeline

  ghost predicate Run(states: nat -> Sys, events: nat -> Event) {
    && states(0) == EMPTY
    && forall n: nat :: Possible(states(n), events(n)) && Moves(states(n), events(n), states(n + 1))
  }

  /** How many requests were served before step n. */
  ghost function Served(events: nat -> Event, n: nat): (k: nat) {
    if n == 0 then 0 else Served(events, n - 1) + if events(n - 1).Request? then 1 else 0
  }

  /** From step `start` on the database stays connected and requests succeed; reading nothing is a success. */
  ghost predicate Steady(states: nat -> Sys, events: nat -> Event, start: nat) {
    && states(start).dispatcher.connected
    && forall n: nat :: n >= start ==> SteadyEvent(events(n))
  }

  predicate SteadyEvent(ev: Event) {
    match ev
    case Dispatch(a) => IsSteady(a)
    case Request(del, readOk, _) => del != Refused && readOk
    case _ => true
  }

  ghost predicate SomeRequest(events: nat -> Event, n: nat) {
    exists m: nat :: m >= n && events(m).Request?
  }

  ghost predicate SomeDelivery(events: nat -> Event, n: nat) {
    exists m: nat :: m >= n && events(m).Deliver?
  }

  ghost predicate SomeAnswer(states: nat -> Sys, events: nat -> Event, n: nat) {
    exists m: nat :: m >= n && AnswersAt(states, events, m)
  }

  /** Step m is an answer that finds nothing queued. */
  ghost predicate AnswersAt(states: nat -> Sys, events: nat -> Event, m: nat) {
    events(m) == Dispatch(Result(false)) && states(m).dispatcher.queue == multiset{}
  }

  /** Requests are served in the end, and batches delivered. */
  ghost predicate Serviced(states: nat -> Sys, events: nat -> Event, start: nat) {
    forall n: nat :: n >= start ==>
      && (Served(events, n) < states(n).dispatcher.requests ==> SomeRequest(events, n))
      && (states(n).reader.batches != [] ==> SomeDelivery(events, n))
  }

  /** Answers keep coming that find nothing queued. */
  ghost predicate Answered(states: nat -> Sys, events: nat -> Event, start: nat) {
    forall n: nat :: n >= start ==> SomeAnswer(states, events, n)
  }

  ghost predicate Fair(states: nat -> Sys, events: nat -> Event, start: nat) {
    Serviced(states, events, start) && Answered(states, events, start)
  }

  /** No request is served that was not made. */
  ghost predicate OnRequest(states: nat -> Sys, events: nat -> Event) {
    forall n: nat :: Served(events, n) <= states(n).dispatcher.requests
  }

  ghost function ReachedIn(states: nat -> Sys, events: nat -> Event, n: nat): (k: nat) {
    if n == 0 then 0 else ReachedAfter(states(n - 1), ReachedIn(states, events, n - 1), events(n - 1))
  }

  ghost predicate BatchesHold(s: Sys) {
    forall i :: 0 <= i < |s.reader.batches| ==> s.reader.batches[i] != []
  }

  lemma {:induction false} InvIn(states: nat -> Sys, events: nat -> Event, n: nat)
    requires Run(states, events)
    ensures StreamInv(states(n), ReachedIn(states, events, n)) && FlowInv(states(n)) && BatchesHold(states(n))
  {
    hide Moves, Possible, ReachedAfter, StreamInv, FlowInv;
    if n == 0 {
      EmptyIsKept();
    } else {
      InvIn(states, events, n - 1);
      assert Possible(states(n - 1), events(n - 1)) && Moves(states(n - 1), events(n - 1), states(n));
      StepKeeps(states(n - 1), ReachedIn(states, events, n - 1), events(n - 1), states(n));
      BatchesGoOn(states(n - 1), events(n - 1), states(n));
    }
  }

  lemma BatchesGoOn(s: Sys, ev: Event, after: Sys)
    requires BatchesHold(s) && Possible(s, ev) && Moves(s, ev, after)
    ensures BatchesHold(after)
  {
    hide Next, Parsed, XDel, XRead;
  }

  /** What goes on from step to step. */
  ghost predicate Continues(s: Sys, t: Sys) {
    && LogsOf(s.dispatcher.sent) <= LogsOf(t.dispatcher.sent) && s.dispatcher.requests <= t.dispatcher.requests
    && Parsed(s.reader.handed) <= Parsed(t.reader.handed)
    && |Held(s.dispatcher)| <= |Held(t.dispatcher)|
    && t.dispatcher.connected == s.dispatcher.connected
  }

  lemma StepContinues(s: Sys, ev: Event, after: Sys)
    requires Possible(s, ev) && Moves(s, ev, after) && SteadyEvent(ev) && FlowInv(s)
    ensures Continues(s, after)
    ensures !ev.Request? ==> Parsed(after.reader.handed) == Parsed(s.reader.handed)
    ensures ev.Deliver? ==> |Held(after.dispatcher)| == |Held(s.dispatcher)| + |s.reader.batches[0]|
  {
    hide Next, Parsed, LogsOf, Held, XDel, XRead;
    match ev {
      case Request(del, readOk, count) =>
        ParsedConcat(s.reader.handed, XRead(AfterDeletion(s.reader, del).stream, count));
      case Deliver =>
        StepGoesOn(s.dispatcher, Receive(s.reader.batches[0]), after.dispatcher);
        StepConserves(s.dispatcher, Receive(s.reader.batches[0]), after.dispatcher);
      case Dispatch(a) =>
        StepGoesOn(s.dispatcher, a, after.dispatcher);
        StepConserves(s.dispatcher, a, after.dispatcher);
      case Append(_) =>
    }
  }

  lemma {:induction false} RunContinues(states: nat -> Sys, events: nat -> Event, start: nat, n: nat, m: nat)
    requires Run(states, events) && Steady(states, events, start) && start <= n <= m
    ensures Continues(states(n), states(m))
    ensures Served(events, m) == Served(events, n) ==>
              Parsed(states(m).reader.handed) == Parsed(states(n).reader.handed)
    ensures Served(events, n) <= Served(events, m)
  {
    hide Moves, Possible, Parsed, LogsOf, Held, StreamInv, FlowInv;
    if n < m {
      RunContinues(states, events, start, n, m - 1);
      InvIn(states, events, m - 1);
      assert Possible(states(m - 1), events(m - 1)) && Moves(states(m - 1), events(m - 1), states(m));
      StepContinues(states(m - 1), events(m - 1), states(m));
    }
  }

  lemma StepBy(states: nat -> Sys, events: nat -> Event, n: nat)
    requires Run(states, events)
    ensures Possible(states(n), events(n)) && Moves(states(n), events(n), states(n + 1))
  {
  }

  // Every record handed over is dispatched

  /** A record at a position of what was handed over is delivered to the dispatcher in the end. */
  lemma {:induction false} IsDelivered(states: nat -> Sys, events: nat -> Event, start: nat, n: nat, p: nat)
      returns (m: nat)
    requires Run(states, events) && Steady(states, events, start) && Fair(states, events, start) && n >= start
    requires p < |Parsed(states(n).reader.handed)|
    ensures m >= n && p < |Held(states(m).dispatcher)|
    decreases p + 1 - |Held(states(n).dispatcher)|
  {
    hide Parsed, Held, SomeAnswer, Run, Steady, LogsOf;
    if p < |Held(states(n).dispatcher)| {
      m := n;
    } else {
      BatchesAreOnTheWay(states, events, n);
      assert SomeDelivery(events, n);
      var k: nat :| k >= n && events(k).Deliver?;
      HandedGrows(states, events, start, n, k + 1);
      CountsGrow(states, events, start, n, k);
      DeliveryAt(states, events, start, k);
      m := IsDelivered(states, events, start, k + 1, p);
    }
  }

  lemma BatchesAreOnTheWay(states: nat -> Sys, events: nat -> Event, n: nat)
    requires Run(states, events)
    ensures |Held(states(n).dispatcher)| < |Parsed(states(n).reader.handed)| ==> states(n).reader.batches != []
  {
    hide Parsed, Held, Run, StreamInv;
    InvIn(states, events, n);
    assert Concat<LogMessage>([]) == [];
  }

  lemma HandedGrows(states: nat -> Sys, events: nat -> Event, start: nat, n: nat, m: nat)
    requires Run(states, events) && Steady(states, events, start) && start <= n <= m
    ensures Parsed(states(n).reader.handed) <= Parsed(states(m).reader.handed)
    ensures LogsOf(states(n).dispatcher.sent) <= LogsOf(states(m).dispatcher.sent)
  {
    hide LogsOf, Held, Parsed, Run, Steady;
    RunContinues(states, events, start, n, m);
  }

  lemma DeliveryAt(states: nat -> Sys, events: nat -> Event, start: nat, k: nat)
    requires Run(states, events) && Steady(states, events, start) && k >= start && events(k).Deliver?
    ensures |Held(states(k + 1).dispatcher)| > |Held(states(k).dispatcher)|
  {
    hide Moves, Parsed, Held, LogsOf, StreamInv, Run;
    InvIn(states, events, k);
    StepBy(states, events, k);
    StepContinues(states(k), events(k), states(k + 1));
  }

  /** And then sent in a batch. */
  lemma {:induction false} IsSent(states: nat -> Sys, events: nat -> Event, start: nat, n: nat, p: nat)
      returns (m: nat)
    requires Run(states, events) && Steady(states, events, start) && Fair(states, events, start) && n >= start
    requires p < |Held(states(n).dispatcher)|
    ensures m >= n && p < |LogsOf(states(m).dispatcher.sent)|
    decreases p + 1 - |LogsOf(states(n).dispatcher.sent)|
  {
    hide Moves, Possible, Parsed, LogsOf, Held, StreamInv, SomeRequest, SomeDelivery, Run, FlowInv, Steady,
         AnswersAt, Continues;
    if p < |LogsOf(states(n).dispatcher.sent)| {
      m := n;
    } else {
      assert SomeAnswer(states, events, n);
      var k: nat :| k >= n && AnswersAt(states, events, k);
      CountsGrow(states, events, start, n, k);
      CountsGrow(states, events, start, k, k + 1);
      AnswerAt(states, events, k);
      BufferHoldsTheRest(states(k).dispatcher);
      m := IsSent(states, events, start, k + 1, p);
    }
  }

  lemma BufferHoldsTheRest(d: Dispatcher)
    ensures |Held(d)| == |LogsOf(d.sent)| + |d.buffer|
  {
  }

  lemma AnswerAt(states: nat -> Sys, events: nat -> Event, k: nat)
    requires Run(states, events) && AnswersAt(states, events, k)
    ensures var d, after := states(k).dispatcher, states(k + 1).dispatcher;
            if d.buffer != [] then |LogsOf(after.sent)| > |LogsOf(d.sent)| else after.requests == d.requests + 1
  {
    hide LogsOf, Next;
    StepBy(states, events, k);
    AnswerAtEmptyQueue(states(k).dispatcher, states(k + 1).dispatcher);
  }

  /** Numbers that only grow. */
  lemma CountsGrow(states: nat -> Sys, events: nat -> Event, start: nat, n: nat, m: nat)
    requires Run(states, events) && Steady(states, events, start) && start <= n <= m
    ensures |LogsOf(states(n).dispatcher.sent)| <= |LogsOf(states(m).dispatcher.sent)|
    ensures |Held(states(n).dispatcher)| <= |Held(states(m).dispatcher)|
    ensures states(n).dispatcher.requests <= states(m).dispatcher.requests
    ensures Served(events, m) == Served(events, n) ==>
              |Parsed(states(m).reader.handed)| == |Parsed(states(n).reader.handed)|
  {
    hide LogsOf, Held, Parsed, Run, Steady;
    RunContinues(states, events, start, n, m);
  }

  // Every entry is handed over

  /**
   * Requests keep coming: as long as none is served nothing new arrives, so the buffer is sent and then more logs
   * are asked for.
   */
  lemma {:induction false} RequestComes(states: nat -> Sys, events: nat -> Event, start: nat, n: nat) returns (m: nat)
    requires Run(states, events) && Steady(states, events, start) && Fair(states, events, start) && n >= start
    requires Served(events, n) <= states(n).dispatcher.requests
    ensures m >= n && events(m).Request?
    decreases |Parsed(states(n).reader.handed)| - |LogsOf(states(n).dispatcher.sent)|
  {
    hide Moves, Possible, Parsed, LogsOf, Held, StreamInv, SomeDelivery, Run, FlowInv, Steady, AnswersAt, Continues;
    if Served(events, n) < states(n).dispatcher.requests {
      m :| m >= n && events(m).Request?;
    } else {
      assert SomeAnswer(states, events, n);
      var k: nat :| k >= n && AnswersAt(states, events, k);
      if i: nat :| n <= i <= k && events(i).Request? {
        m := i;
      } else {
        NoneServed(events, n, k);
        CountsGrow(states, events, start, n, k);
        CountsGrow(states, events, start, k, k + 1);
        AnswerAt(states, events, k);
        BufferHoldsTheRest(states(k).dispatcher);
        if states(k).dispatcher.buffer == [] {
          assert Served(events, k + 1) < states(k + 1).dispatcher.requests;
          assert SomeRequest(events, k + 1);
          m :| m >= k + 1 && events(m).Request?;
        } else {
          SentIsHandedOver(states, events, k + 1);
          m := RequestComes(states, events, start, k + 1);
        }
      }
    }
  }

  lemma SentIsHandedOver(states: nat -> Sys, events: nat -> Event, n: nat)
    requires Run(states, events)
    ensures |LogsOf(states(n).dispatcher.sent)| <= |Parsed(states(n).reader.handed)|
  {
    hide Run, StreamInv, Parsed, LogsOf, Concat;
    InvIn(states, events, n);
  }

  lemma {:induction false} NoneServed(events: nat -> Event, n: nat, m: nat)
    requires n <= m && forall i: nat :: n <= i <= m ==> !events(i).Request?
    ensures Served(events, m) == Served(events, m + 1) == Served(events, n)
  {
    if n < m {
      NoneServed(events, n, m - 1);
    }
  }

  /** A served request takes the hand-over further, until all is handed over. */
  lemma RequestReaches(s: Sys, reached: nat, ev: Event)
    requires StreamInv(s, reached) && ev.Request? && SteadyEvent(ev)
    ensures ReachedAfter(s, reached, ev) >= reached
    ensures reached < |s.appended| ==> ReachedAfter(s, reached, ev) > reached
  {
    hide XDel;
    DeletionKeeps(s, reached, ev.del);
    hide IdsCover, HandedReach, IdsArePositions;
  }

  lemma StepReaches(states: nat -> Sys, events: nat -> Event, start: nat, n: nat)
    requires Run(states, events) && Steady(states, events, start) && n >= start
    ensures ReachedIn(states, events, n + 1) >= ReachedIn(states, events, n)
    ensures events(n).Request? && ReachedIn(states, events, n) < |states(n).appended| ==>
              ReachedIn(states, events, n + 1) > ReachedIn(states, events, n)
  {
    hide Run, Steady, StreamInv, FlowInv, ReachedAfter;
    InvIn(states, events, n);
    SteadyAt(states, events, start, n);
    var reached := ReachedIn(states, events, n);
    assert ReachedIn(states, events, n + 1) == ReachedAfter(states(n), reached, events(n));
    if events(n).Request? {
      RequestReaches(states(n), reached, events(n));
    } else {
      OnlyRequestsReach(states(n), reached, events(n));
    }
  }

  lemma {:induction false} ReachedGrows(states: nat -> Sys, events: nat -> Event, start: nat, n: nat, m: nat)
    requires Run(states, events) && Steady(states, events, start) && start <= n <= m
    ensures ReachedIn(states, events, n) <= ReachedIn(states, events, m)
  {
    hide Run, Steady, ReachedIn;
    if n < m {
      ReachedGrows(states, events, start, n, m - 1);
      StepReaches(states, events, start, m - 1);
    }
  }

  lemma OnlyRequestsReach(s: Sys, reached: nat, ev: Event)
    requires !ev.Request?
    ensures ReachedAfter(s, reached, ev) == reached
  {
  }

  /** Every entry appended is handed over in the end. */
  lemma {:induction false} IsHandedOver(states: nat -> Sys, events: nat -> Event, start: nat, n: nat, i: nat)
      returns (m: nat)
    requires Run(states, events) && Steady(states, events, start) && Fair(states, events, start) && n >= start
    requires OnRequest(states, events)
    requires i < |states(n).appended|
    ensures m >= n && i < ReachedIn(states, events, m)
    decreases i + 1 - ReachedIn(states, events, n)
  {
    hide Run, Steady, Fair, ReachedIn;
    if i < ReachedIn(states, events, n) {
      m := n;
    } else {
      var k := RequestComes(states, events, start, n);
      ReachedGrows(states, events, start, n, k);
      AppendedStays(states, events, n, k);
      AppendedStays(states, events, n, k + 1);
      StepReaches(states, events, start, k);
      m := IsHandedOver(states, events, start, k + 1, i);
    }
  }

  lemma SteadyAt(states: nat -> Sys, events: nat -> Event, start: nat, n: nat)
    requires Steady(states, events, start) && n >= start
    ensures SteadyEvent(events(n))
  {
  }

  /** Each entry of the first list, and the IDs tell equal records apart, is in the second. */
  ghost predicate Covers(handed: seq<Entry>, appended: seq<Entry>) {
    forall e :: e in appended ==> e in handed
  }

  /**
   * All that is appended by step n is handed over by some step, and the records handed over by then are the first
   * of those dispatched by some step.
   */
  ghost predicate IsDispatched(states: nat -> Sys, n: nat) {
    exists k: nat, m: nat :: Covers(states(k).reader.handed, states(n).appended)
                             && Parsed(states(k).reader.handed) <= LogsOf(states(m).dispatcher.sent)
  }

  /**
   * Every record appended to the stream is dispatched to the database in the end, as long as the database stays
   * connected, requests are served and succeed, batches are delivered, and answers keep coming that find nothing
   * queued.
   */
  lemma EveryRecordIsDispatched(states: nat -> Sys, events: nat -> Event, start: nat, n: nat)
    requires Run(states, events) && Steady(states, events, start) && Fair(states, events, start)
    requires OnRequest(states, events)
    ensures IsDispatched(states, n)
  {
    hide Run, Steady, Fair, LogsOf, Parsed, ReachedIn, Covers;
    var from := if n > start then n else start;
    var k := AllAreHandedOver(states, events, start, from);
    AppendedStays(states, events, n, from);
    assert Covers(states(k).reader.handed, states(n).appended) by {
      CoversLess(states(k).reader.handed, states(n).appended, states(from).appended);
    }
    var m := AllAreSent(states, events, start, k);
  }

  lemma CoversLess(handed: seq<Entry>, less: seq<Entry>, more: seq<Entry>)
    requires less <= more && Covers(handed, more)
    ensures Covers(handed, less)
  {
    forall e | e in less ensures e in more {
      var i :| 0 <= i < |less| && less[i] == e;
      assert more[i] == e;
    }
  }

  lemma AllAreHandedOver(states: nat -> Sys, events: nat -> Event, start: nat, n: nat) returns (k: nat)
    requires Run(states, events) && Steady(states, events, start) && Fair(states, events, start) && n >= start
    requires OnRequest(states, events)
    ensures k >= n && |states(n).appended| <= ReachedIn(states, events, k)
    ensures Covers(states(k).reader.handed, states(n).appended)
  {
    hide Run, Steady, Fair, ReachedIn;
    k := n;
    if states(n).appended != [] {
      k := IsHandedOver(states, events, start, n, |states(n).appended| - 1);
      AppendedStays(states, events, n, k);
      forall e | e in states(n).appended ensures e in states(k).reader.handed {
        var i :| 0 <= i < |states(n).appended| && states(n).appended[i] == e;
        ReachedIsHanded(states, events, k, i);
      }
    }
  }

  lemma AllAreSent(states: nat -> Sys, events: nat -> Event, start: nat, k: nat) returns (m: nat)
    requires Run(states, events) && Steady(states, events, start) && Fair(states, events, start) && k >= start
    ensures m >= k && Parsed(states(k).reader.handed) <= LogsOf(states(m).dispatcher.sent)
  {
    hide Run, Steady, Fair, LogsOf, Parsed;
    m := k;
    var count := |Parsed(states(k).reader.handed)|;
    if count > 0 {
      var j := IsDelivered(states, events, start, k, count - 1);
      m := IsSent(states, events, start, j, count - 1);
    }
    HandedGrows(states, events, start, k, m);
    SentIsPrefix(states, events, m);
  }

  lemma {:induction false} AppendedStays(states: nat -> Sys, events: nat -> Event, n: nat, m: nat)
    requires Run(states, events) && n <= m
    ensures states(n).appended <= states(m).appended
  {
    if n < m {
      hide Possible;
      AppendedStays(states, events, n, m - 1);
      StepBy(states, events, m - 1);
    }
  }

  lemma ReachedIsHanded(states: nat -> Sys, events: nat -> Event, n: nat, i: nat)
    requires Run(states, events) && i < ReachedIn(states, events, n)
    ensures i < |states(n).appended| && states(n).appended[i] in states(n).reader.handed
  {
    hide Run, FlowInv, IdsCover, IdsArePositions;
    InvIn(states, events, n);
  }

  lemma SentIsPrefix(states: nat -> Sys, events: nat -> Event, n: nat)
    requires Run(states, events)
    ensures LogsOf(states(n).dispatcher.sent) <= Parsed(states(n).reader.handed)
  {
    hide Run, StreamInv, Parsed, LogsOf, Concat;
    InvIn(states, events, n);
  }

  /** Without rereading, what was appended is what was handed over, followed by what was not. */
  lemma {:induction false} AccountsIn(states: nat -> Sys, events: nat -> Event, n: nat)
    requires Run(states, events) && forall k: nat :: !Rereads(states(k), events(k))
    ensures Accounted(states(n)) == Parsed(states(n).appended)
  {
    hide Moves, Possible, Rereads, StreamInv, FlowInv, Accounted, Parsed, ReachedIn;
    if n == 0 {
      EmptyIsKept();
    } else {
      AccountsIn(states, events, n - 1);
      InvIn(states, events, n - 1);
      StepBy(states, events, n - 1);
      StepAccounts(states(n - 1), ReachedIn(states, events, n - 1), events(n - 1), states(n));
    }
  }

  lemma HandedInOrder(states: nat -> Sys, events: nat -> Event, n: nat)
    requires Run(states, events) && forall k: nat :: !Rereads(states(k), events(k))
    ensures ReachedIn(states, events, n) <= |states(n).appended|
    ensures Parsed(states(n).reader.handed) == Parsed(states(n).appended[..ReachedIn(states, events, n)])
  {
    hide Run, Rereads, StreamInv, FlowInv, Accounted, Parsed, ReachedIn;
    var s, reached := states(n), ReachedIn(states, events, n);
    InvIn(states, events, n);
    AccountsIn(states, events, n);
    StreamBounds(s, reached);
    AccountedIs(s, reached);
    assert s.appended == s.appended[..reached] + s.appended[reached..];
    ParsedConcat(s.appended[..reached], s.appended[reached..]);
    SameFront(Parsed(s.reader.handed), Parsed(s.appended[..reached]), Parsed(s.appended[reached..]));
  }

  lemma SameFront<T>(a: seq<T>, b: seq<T>, behind: seq<T>)
    requires a + behind == b + behind
    ensures a == b
  {
    assert |a| == |b|;
    assert (a + behind)[..|a|] == a && (b + behind)[..|b|] == b;
  }

  /** If in addition no request rereads, all records appended are dispatched exactly once, in order. */
  lemma RecordsAreDispatchedInOrder(states: nat -> Sys, events: nat -> Event, start: nat, n: nat)
    requires Run(states, events) && Steady(states, events, start) && Fair(states, events, start)
    requires OnRequest(states, events) && forall k: nat :: !Rereads(states(k), events(k))
    ensures exists m: nat :: Parsed(states(n).appended) <= LogsOf(states(m).dispatcher.sent)
  {
    hide Run, Steady, Fair, LogsOf, Parsed, ReachedIn, Covers, Rereads;
    var from := if n > start then n else start;
    AppendedStays(states, events, n, from);
    var k := AllAreHandedOver(states, events, start, from);
    HandedInOrder(states, events, k);
    var m := AllAreSent(states, events, start, k);
    AppendedStays(states, events, from, k);
    var before := states(k).appended[..ReachedIn(states, events, k)];
    assert before == states(n).appended + before[|states(n).appended|..];
    ParsedConcat(states(n).appended, before[|states(n).appended|..]);
  }
}
