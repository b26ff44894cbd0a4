/** The dispatcher of the log writer: one query at a time, logs in batches, checks and heartbeats in between. */
module Dispatch {
  import opened LogCodec

  const INSERT_COUNT_CHECK := 1000
  const MAX_QUERY_EXEC := 100

  datatype Query = Insert(logs: seq<LogMessage>) | CheckCount | CheckLifetime(date: int) | Heartbeat

  function Priority(q: Query): (r: nat) {
    match q
    case Insert(_) => 0
    case CheckCount => 1
    case CheckLifetime(_) => 2
    case Heartbeat => 3
  }

  /**
   * `sent` holds all queries ever handed to the executor, `results` counts its answers, `requests` the requests
   * for more logs.
   */
  datatype Dispatcher = Dispatcher(
    buffer: seq<LogMessage>,
    queue: multiset<Query>,
    canExecute: bool,
    connected: bool,
    insertCount: nat,
    sent: seq<Query>,
    results: nat,
    requests: nat)

  const FRESH := Dispatcher([], multiset{}, false, false, 0, [], 0, 0)

  /** What reaches the dispatcher. A result is `closed` if its error says that the database is gone. */
  datatype Action =
    | Receive(logs: seq<LogMessage>)
    | Result(closed: bool)
    | Ping
    | LifetimeTick(date: int)
    | NewLimits(date: int)
    | Connect(ok: bool)

  // One step

  function Put(d: Dispatcher, q: Query): (r: Dispatcher) {
    d.(queue := d.queue + multiset{q})
  }

  /** With nothing queued the next batch of logs is queued, or more logs are requested. */
  function Filled(d: Dispatcher): (r: Dispatcher) {
    if d.queue != multiset{} then d
    else if d.buffer == [] then d.(requests := d.requests + 1)
    else Put(d.(buffer := d.buffer[BatchSize(d)..]), Insert(d.buffer[..BatchSize(d)]))
  }

  function BatchSize(d: Dispatcher): (n: nat)
    ensures n <= |d.buffer| && n <= MAX_QUERY_EXEC
  {
    if |d.buffer| > MAX_QUERY_EXEC then MAX_QUERY_EXEC else |d.buffer|
  }

  function Sent(d: Dispatcher, q: Query): (r: Dispatcher) {
    d.(queue := d.queue - multiset{q}, canExecute := false, sent := d.sent + [q])
  }

  function BatchSent(d: Dispatcher): (r: Dispatcher) {
    d.(buffer := d.buffer[BatchSize(d)..], canExecute := false, sent := d.sent + [Insert(d.buffer[..BatchSize(d)])])
  }

  ghost predicate IsHighest(q: Query, queue: multiset<Query>) {
    q in queue && forall p :: p in queue ==> Priority(p) <= Priority(q)
  }

  /** The queue is checked: a dispatcher that may execute sends one of the queries of highest priority. */
  ghost predicate Checked(d: Dispatcher, after: Dispatcher) {
    if !d.canExecute then after == d
    else if Filled(d).queue == multiset{} then after == Filled(d)
    else exists q :: IsHighest(q, Filled(d).queue) && after == Sent(Filled(d), q)
  }

  ghost predicate PutAndChecked(d: Dispatcher, q: Query, after: Dispatcher) {
    Checked(Put(d, q), after)
  }

  ghost predicate Received(d: Dispatcher, logs: seq<LogMessage>, after: Dispatcher) {
    var got := d.(buffer := d.buffer + logs, insertCount := d.insertCount + 1);
    if got.insertCount > INSERT_COUNT_CHECK then
      exists mid :: PutAndChecked(got, CheckCount, mid) && Checked(mid.(insertCount := 0), after)
    else Checked(got, after)
  }

  function Pinged(d: Dispatcher): (r: Dispatcher) {
    if d.queue != multiset{} then d
    else Put(if d.buffer == [] then d.(requests := d.requests + 1) else d, Heartbeat)
  }

  predicate Enabled(d: Dispatcher, a: Action) {
    a.Result? ==> Outstanding(d) > 0
  }

  ghost predicate Next(d: Dispatcher, a: Action, after: Dispatcher) {
    match a
    case Receive(logs) => Received(d, logs, after)
    case Result(closed) =>
      var got := d.(results := d.results + 1);
      Checked(if closed then got.(canExecute := false, connected := false) else got.(canExecute := true), after)
    case Ping => if d.connected then Checked(Pinged(d), after) else after == d
    case LifetimeTick(date) => PutAndChecked(d, CheckLifetime(date), after)
    case NewLimits(date) =>
      exists mid :: PutAndChecked(d, CheckCount, mid) && PutAndChecked(mid, CheckLifetime(date), after)
    case Connect(ok) => Checked(d.(canExecute := ok, connected := ok), after)
  }

  // The discipline of one query in flight

  function Outstanding(d: Dispatcher): (r: int) {
    |d.sent| - d.results
  }

  ghost predicate NoInserts(queue: multiset<Query>) {
    forall q :: q in queue ==> !q.Insert?
  }

  ghost predicate SmallBatches(sent: seq<Query>) {
    forall q :: q in sent && q.Insert? ==> 1 <= |q.logs| <= MAX_QUERY_EXEC
  }

  ghost predicate WellQueued(d: Dispatcher) {
    && NoInserts(d.queue) && d.queue[Heartbeat] <= 1
    && d.insertCount <= INSERT_COUNT_CHECK
    && SmallBatches(d.sent)
  }

  ghost predicate OneInFlight(d: Dispatcher) {
    && (d.canExecute ==> d.connected && d.queue == multiset{} && d.buffer == [])
    && Outstanding(d) == if d.connected && !d.canExecute then 1 else 0
  }

  ghost predicate Inv(d: Dispatcher) {
    WellQueued(d) && OneInFlight(d)
  }

  /** What one check of the queue does, whichever query of highest priority it takes. */
  ghost predicate CheckedWell(d: Dispatcher, after: Dispatcher) {
    && NoInserts(after.queue) && after.queue[Heartbeat] <= d.queue[Heartbeat] && SmallBatches(after.sent)
    && after.connected == d.connected && after.results == d.results && after.insertCount == d.insertCount
    && (after.canExecute ==> after.queue == multiset{} && after.buffer == [] && d.canExecute)
    && |after.sent| == |d.sent| + (if d.canExecute && !after.canExecute then 1 else 0)
  }

  /** The three things a check of the queue can do for a dispatcher that may execute. */
  lemma CheckCases(d: Dispatcher, after: Dispatcher)
    requires d.canExecute && Checked(d, after)
    ensures d.queue != multiset{} ==> exists q :: IsHighest(q, d.queue) && after == Sent(d, q)
    ensures d.queue == multiset{} && d.buffer == [] ==> after == d.(requests := d.requests + 1)
    ensures d.queue == multiset{} && d.buffer != [] ==> after == BatchSent(d)
  {
    if d.queue == multiset{} && d.buffer != [] {
      var q :| IsHighest(q, Filled(d).queue) && after == Sent(Filled(d), q);
      assert Filled(d).queue == multiset{Insert(d.buffer[..BatchSize(d)])};
      assert Filled(d).queue - multiset{q} == d.queue;
    }
  }

  lemma OneMoreSmallBatch(sent: seq<Query>, q: Query)
    requires SmallBatches(sent) && (q.Insert? ==> 1 <= |q.logs| <= MAX_QUERY_EXEC)
    ensures SmallBatches(sent + [q])
  {
    forall p | p in sent + [q] && p.Insert? ensures 1 <= |p.logs| <= MAX_QUERY_EXEC {
      if p !in sent {
        assert p == q;
      }
    }
  }

  lemma OneQueryLess(queue: multiset<Query>, q: Query)
    requires NoInserts(queue) && IsHighest(q, queue)
    ensures NoInserts(queue - multiset{q}) && (queue - multiset{q})[Heartbeat] <= queue[Heartbeat] && !q.Insert?
  {
  }

  lemma QueryKeeps(d: Dispatcher, q: Query)
    requires d.canExecute && IsHighest(q, d.queue) && NoInserts(d.queue) && SmallBatches(d.sent)
    ensures CheckedWell(d, Sent(d, q))
  {
    hide SmallBatches;
    OneQueryLess(d.queue, q);
    OneMoreSmallBatch(d.sent, q);
  }

  lemma BatchKeeps(d: Dispatcher)
    requires d.canExecute && d.buffer != [] && NoInserts(d.queue) && SmallBatches(d.sent)
    ensures CheckedWell(d, BatchSent(d))
  {
    hide SmallBatches, NoInserts;
    OneMoreSmallBatch(d.sent, Insert(d.buffer[..BatchSize(d)]));
  }

  lemma CheckKeeps(d: Dispatcher, after: Dispatcher)
    requires Checked(d, after) && NoInserts(d.queue) && SmallBatches(d.sent)
    ensures CheckedWell(d, after)
  {
    hide Checked, Filled, SmallBatches, NoInserts, IsHighest, Sent, BatchSent;
    if !d.canExecute {
      NothingSent(d, after);
    } else {
      CheckCases(d, after);
      if d.queue != multiset{} {
        var q :| IsHighest(q, d.queue) && after == Sent(d, q);
        QueryKeeps(d, q);
      } else if d.buffer != [] {
        BatchKeeps(d);
      }
    }
  }

  lemma NothingSent(d: Dispatcher, after: Dispatcher)
    requires !d.canExecute && Checked(d, after)
    ensures after == d
  {
  }

  lemma PutKeeps(d: Dispatcher, q: Query, after: Dispatcher)
    requires PutAndChecked(d, q, after) && NoInserts(d.queue) && SmallBatches(d.sent) && !q.Insert?
    ensures CheckedWell(Put(d, q), after)
  {
    CheckKeeps(Put(d, q), after);
  }

  /** Exactly when a step keeps the discipline: the database must not be changed while a query is in flight. */
  lemma StepKeepsInvIff(d: Dispatcher, a: Action, after: Dispatcher)
    requires Inv(d) && Enabled(d, a) && Next(d, a, after)
    ensures Inv(after) <==> (a.Connect? ==> Outstanding(d) == 0)
  {
    hide Checked, PutAndChecked, NoInserts, SmallBatches;
    match a {
      case Receive(logs) => ReceiveKeeps(d, logs, after);
      case Result(closed) =>
        var got := d.(results := d.results + 1);
        CheckKeeps(if closed then got.(canExecute := false, connected := false) else got.(canExecute := true), after);
      case Ping => PingKeeps(d, after);
      case LifetimeTick(date) => PutKeeps(d, CheckLifetime(date), after);
      case NewLimits(date) =>
        var mid :| PutAndChecked(d, CheckCount, mid) && PutAndChecked(mid, CheckLifetime(date), after);
        PutKeeps(d, CheckCount, mid);
        PutKeeps(mid, CheckLifetime(date), after);
      case Connect(ok) => CheckKeeps(d.(canExecute := ok, connected := ok), after);
    }
  }

  lemma ReceiveKeeps(d: Dispatcher, logs: seq<LogMessage>, after: Dispatcher)
    requires Inv(d) && Received(d, logs, after)
    ensures Inv(after)
  {
    hide Checked, PutAndChecked, NoInserts, SmallBatches;
    var got := d.(buffer := d.buffer + logs, insertCount := d.insertCount + 1);
    if got.insertCount > INSERT_COUNT_CHECK {
      var mid :| PutAndChecked(got, CheckCount, mid) && Checked(mid.(insertCount := 0), after);
      PutKeeps(got, CheckCount, mid);
      CheckKeeps(mid.(insertCount := 0), after);
    } else {
      CheckKeeps(got, after);
    }
  }

  lemma PingKeeps(d: Dispatcher, after: Dispatcher)
    requires Inv(d) && Next(d, Ping, after)
    ensures Inv(after)
  {
    hide Checked, SmallBatches;
    if d.connected {
      CheckKeeps(Pinged(d), after);
    }
  }

  // Whole runs

  ghost predicate IsRun(states: seq<Dispatcher>, actions: seq<Action>) {
    && |states| == |actions| + 1 && states[0] == FRESH
    && forall i :: 0 <= i < |actions| ==> Enabled(states[i], actions[i]) && Next(states[i], actions[i], states[i + 1])
  }

  /** Over whole runs too: the discipline holds throughout exactly if the database changes only between queries. */
  lemma RunKeepsInvIff(states: seq<Dispatcher>, actions: seq<Action>)
    requires IsRun(states, actions)
    ensures (forall i :: 0 <= i < |states| ==> Inv(states[i]))
       <==> (forall i :: 0 <= i < |actions| && actions[i].Connect? ==> Outstanding(states[i]) == 0)
  {
    hide Next, Inv;
    if forall i :: 0 <= i < |states| ==> Inv(states[i]) {
      forall i | 0 <= i < |actions| && actions[i].Connect? ensures Outstanding(states[i]) == 0 {
        StepKeepsInvIff(states[i], actions[i], states[i + 1]);
      }
    }
    if forall i :: 0 <= i < |actions| && actions[i].Connect? ==> Outstanding(states[i]) == 0 {
      forall i | 0 <= i < |states| ensures Inv(states[i]) {
        InvAt(states, actions, i);
      }
    }
  }

  lemma {:induction false} InvAt(states: seq<Dispatcher>, actions: seq<Action>, i: nat)
    requires IsRun(states, actions) && i < |states|
    requires forall i :: 0 <= i < |actions| && actions[i].Connect? ==> Outstanding(states[i]) == 0
    ensures Inv(states[i])
  {
    hide Next, Enabled;
    if i > 0 {
      InvAt(states, actions, i - 1);
      StepKeepsInvIff(states[i - 1], actions[i - 1], states[i]);
    }
  }

  /** It does occur: a database changed with a query in flight leaves two of them in flight. */
  lemma TwoQueriesInFlight(log: LogMessage) returns (states: seq<Dispatcher>, actions: seq<Action>)
    ensures IsRun(states, actions)
    ensures actions == [Connect(true), Receive([log]), Connect(true), Receive([log])]
    ensures Outstanding(states[4]) == 2
  {
    hide Next;
    var insert := Insert([log]);
    var s1 := FRESH.(canExecute := true, connected := true, requests := 1);
    var s2 := s1.(canExecute := false, insertCount := 1, sent := [insert]);
    var s3 := s2.(canExecute := true, requests := 2);
    var s4 := s3.(canExecute := false, insertCount := 2, sent := [insert, insert]);
    states, actions := [FRESH, s1, s2, s3, s4], [Connect(true), Receive([log]), Connect(true), Receive([log])];
    IdleConnects(FRESH);
    LogIsSent(s1, log);
    IdleConnects(s2);
    LogIsSent(s3, log);
    assert [] + [insert] == [insert] && [insert] + [insert] == [insert, insert];
  }

  lemma IdleConnects(d: Dispatcher)
    requires d.queue == multiset{} && d.buffer == []
    ensures Next(d, Connect(true), d.(canExecute := true, connected := true, requests := d.requests + 1))
  {
  }

  lemma LogIsSent(d: Dispatcher, log: LogMessage)
    requires d.canExecute && d.queue == multiset{} && d.buffer == [] && d.insertCount < INSERT_COUNT_CHECK
    ensures Next(d, Receive([log]), d.(canExecute := false, insertCount := d.insertCount + 1,
                                       sent := d.sent + [Insert([log])]))
  {
    hide Checked;
    var got := d.(buffer := [log], insertCount := d.insertCount + 1);
    assert d.buffer + [log] == [log] && [log][..1] == [log] && [log][1..] == [];
    BatchIsSent(got);
  }

  lemma BatchIsSent(d: Dispatcher)
    requires d.canExecute && d.queue == multiset{} && d.buffer != []
    ensures Checked(d, BatchSent(d))
  {
    var insert := Insert(d.buffer[..BatchSize(d)]);
    assert IsHighest(insert, multiset{insert});
    assert Filled(d).queue == multiset{insert};
    assert multiset{insert} - multiset{insert} == d.queue;
    assert Sent(Filled(d), insert) == BatchSent(d);
  }

  // Conservation and batching

  function LogsOf(sent: seq<Query>): (r: seq<LogMessage>) {
    if sent == [] then []
    else
      var q := sent[|sent| - 1];
      LogsOf(sent[..|sent| - 1]) + if q.Insert? then q.logs else []
  }

  function Inserts(sent: seq<Query>): (r: nat) {
    if sent == [] then 0
    else Inserts(sent[..|sent| - 1]) + if sent[|sent| - 1].Insert? then 1 else 0
  }

  /** All logs received: those sent in batches, then those buffered. */
  function Held(d: Dispatcher): (r: seq<LogMessage>) {
    LogsOf(d.sent) + d.buffer
  }

  /** How many batches `n` logs take. */
  function Batches(n: nat): (r: nat) {
    (n + MAX_QUERY_EXEC - 1) / MAX_QUERY_EXEC
  }

  function BatchCount(d: Dispatcher): (r: nat) {
    Inserts(d.sent) + Batches(|d.buffer|)
  }

  function Gained(a: Action): (r: seq<LogMessage>) {
    if a.Receive? then a.logs else []
  }

  lemma OneMoreSent(sent: seq<Query>, q: Query)
    ensures LogsOf(sent + [q]) == LogsOf(sent) + (if q.Insert? then q.logs else [])
    ensures Inserts(sent + [q]) == Inserts(sent) + if q.Insert? then 1 else 0
  {
    assert (sent + [q])[..|sent|] == sent;
  }

  lemma OneBatchLess(d: Dispatcher)
    requires d.buffer != []
    ensures Batches(|d.buffer|) == 1 + Batches(|d.buffer| - BatchSize(d))
  {
  }

  ghost predicate Conserved(d: Dispatcher, after: Dispatcher) {
    Held(after) == Held(d) && BatchCount(after) == BatchCount(d) && NoInserts(after.queue)
  }

  lemma QueryConserves(d: Dispatcher, q: Query)
    requires IsHighest(q, d.queue) && NoInserts(d.queue)
    ensures Conserved(d, Sent(d, q))
  {
    hide LogsOf, Inserts, Batches;
    OneQueryLess(d.queue, q);
    OneMoreSent(d.sent, q);
  }

  lemma BatchConserves(d: Dispatcher)
    requires d.buffer != [] && NoInserts(d.queue)
    ensures Conserved(d, BatchSent(d))
  {
    hide LogsOf, Inserts, Batches, BatchSize, NoInserts;
    var n := BatchSize(d);
    OneMoreSent(d.sent, Insert(d.buffer[..n]));
    OneBatchLess(d);
    assert LogsOf(d.sent) + d.buffer[..n] + d.buffer[n..] == LogsOf(d.sent) + d.buffer;
  }

  lemma CheckConserves(d: Dispatcher, after: Dispatcher)
    requires Checked(d, after) && NoInserts(d.queue)
    ensures Conserved(d, after)
  {
    hide Checked, Filled, IsHighest, LogsOf, Inserts, Batches, BatchSent, Sent, NoInserts;
    if !d.canExecute {
      NothingSent(d, after);
    } else {
      CheckCases(d, after);
      if d.queue != multiset{} {
        var q :| IsHighest(q, d.queue) && after == Sent(d, q);
        QueryConserves(d, q);
      } else if d.buffer != [] {
        BatchConserves(d);
      }
    }
  }

  /**
   * No step loses, repeats or reorders a log, and without new ones `n` buffered logs leave in `Batches(n)`
   * batches, whatever checks and heartbeats go between.
   */
  lemma StepConserves(d: Dispatcher, a: Action, after: Dispatcher)
    requires NoInserts(d.queue) && Next(d, a, after)
    ensures Held(after) == Held(d) + Gained(a) && NoInserts(after.queue)
    ensures !a.Receive? ==> BatchCount(after) == BatchCount(d)
  {
    hide Checked, PutAndChecked, LogsOf, Inserts, Batches, NoInserts;
    match a {
      case Receive(logs) => ReceiveConserves(d, logs, after);
      case Result(closed) =>
        var got := d.(results := d.results + 1);
        CheckConserves(if closed then got.(canExecute := false, connected := false) else got.(canExecute := true),
                       after);
      case Ping => PingConserves(d, after);
      case LifetimeTick(date) => PutConserves(d, CheckLifetime(date), after);
      case NewLimits(date) =>
        var mid :| PutAndChecked(d, CheckCount, mid) && PutAndChecked(mid, CheckLifetime(date), after);
        PutConserves(d, CheckCount, mid);
        PutConserves(mid, CheckLifetime(date), after);
      case Connect(ok) => CheckConserves(d.(canExecute := ok, connected := ok), after);
    }
  }

  lemma PutConserves(d: Dispatcher, q: Query, after: Dispatcher)
    requires PutAndChecked(d, q, after) && NoInserts(d.queue) && !q.Insert?
    ensures Conserved(d, after)
  {
    hide Checked, LogsOf, Inserts, Batches;
    CheckConserves(Put(d, q), after);
  }

  lemma ReceiveConserves(d: Dispatcher, logs: seq<LogMessage>, after: Dispatcher)
    requires Received(d, logs, after) && NoInserts(d.queue)
    ensures Held(after) == Held(d) + logs && NoInserts(after.queue)
  {
    hide Checked, PutAndChecked, LogsOf, Inserts, Batches, NoInserts;
    var got := d.(buffer := d.buffer + logs, insertCount := d.insertCount + 1);
    assert Held(got) == Held(d) + logs;
    if got.insertCount > INSERT_COUNT_CHECK {
      var mid :| PutAndChecked(got, CheckCount, mid) && Checked(mid.(insertCount := 0), after);
      PutConserves(got, CheckCount, mid);
      CheckConserves(mid.(insertCount := 0), after);
    } else {
      CheckConserves(got, after);
    }
  }

  lemma PingConserves(d: Dispatcher, after: Dispatcher)
    requires Next(d, Ping, after) && NoInserts(d.queue)
    ensures Conserved(d, after)
  {
    hide Checked, LogsOf, Inserts, Batches;
    if d.connected {
      CheckConserves(Pinged(d), after);
    }
  }

  /** Queries still to send for what is queued and buffered. */
  function Pending(d: Dispatcher): (r: nat) {
    |d.queue| + Batches(|d.buffer|)
  }

  lemma ResultSends(d: Dispatcher, after: Dispatcher)
    requires Inv(d) && d.connected && !d.canExecute && Pending(d) > 0 && Next(d, Result(false), after)
    ensures Inv(after) && after.connected && !after.canExecute && Pending(after) == Pending(d) - 1
  {
    StepKeepsInvIff(d, Result(false), after);
    CheckCases(d.(results := d.results + 1, canExecute := true), after);
  }

  /** Answers alone drain the dispatcher: after one for each pending query nothing is queued or buffered. */
  lemma {:induction false} ResultsDrain(states: seq<Dispatcher>)
    requires states != [] && |states| == Pending(states[0]) + 1
    requires Inv(states[0]) && states[0].connected && !states[0].canExecute
    requires forall i :: 0 <= i < |states| - 1 ==> Next(states[i], Result(false), states[i + 1])
    ensures var last := states[|states| - 1];
            && last.queue == multiset{} && last.buffer == []
            && Held(last) == Held(states[0])
            && Inserts(last.sent) == Inserts(states[0].sent) + Batches(|states[0].buffer|)
  {
    hide Next, Held, LogsOf, Inserts;
    if |states| > 1 {
      ResultSends(states[0], states[1]);
      StepConserves(states[0], Result(false), states[1]);
      ResultsDrain(states[1..]);
    }
  }

  // Checks and heartbeats

  /** How often a query is queued or was sent. */
  function Count(d: Dispatcher, q: Query): (r: nat) {
    d.queue[q] + multiset(d.sent)[q]
  }

  /** The checks and heartbeats that a step asks for. */
  function Asked(d: Dispatcher, a: Action): (r: multiset<Query>) {
    match a
    case Receive(_) => if d.insertCount == INSERT_COUNT_CHECK then multiset{CheckCount} else multiset{}
    case Ping => if d.connected && d.queue == multiset{} then multiset{Heartbeat} else multiset{}
    case LifetimeTick(date) => multiset{CheckLifetime(date)}
    case NewLimits(date) => multiset{CheckCount, CheckLifetime(date)}
    case _ => multiset{}
  }

  lemma SentCounts(d: Dispatcher, sent: Query, q: Query)
    requires sent in d.queue
    ensures Count(Sent(d, sent), q) == Count(d, q)
  {
  }

  lemma CheckCounts(d: Dispatcher, after: Dispatcher, q: Query)
    requires Checked(d, after) && !q.Insert?
    ensures Count(after, q) == Count(d, q)
  {
    hide Checked, Filled, Count;
    if !d.canExecute {
      NothingSent(d, after);
    } else {
      CheckCases(d, after);
      if d.queue != multiset{} {
        var sent :| IsHighest(sent, d.queue) && after == Sent(d, sent);
        SentCounts(d, sent, q);
      } else {
        BatchCounts(d, q);
        RequestCounts(d, q);
      }
    }
  }

  lemma BatchCounts(d: Dispatcher, q: Query)
    requires !q.Insert?
    ensures Count(BatchSent(d), q) == Count(d, q)
  {
  }

  lemma RequestCounts(d: Dispatcher, q: Query)
    ensures Count(d.(requests := d.requests + 1), q) == Count(d, q)
  {
  }

  lemma PutCounts(d: Dispatcher, put: Query, after: Dispatcher, q: Query)
    requires PutAndChecked(d, put, after) && !q.Insert?
    ensures Count(after, q) == Count(d, q) + if q == put then 1 else 0
  {
    CheckCounts(Put(d, put), after, q);
    hide Checked;
  }

  /**
   * No check and no heartbeat is lost or made up: each step adds to those queued or sent just the ones it asks
   * for, one count check with every 1001st reception among them.
   */
  lemma StepAsks(d: Dispatcher, a: Action, after: Dispatcher, q: Query)
    requires Inv(d) && Next(d, a, after) && !q.Insert?
    ensures Count(after, q) == Count(d, q) + Asked(d, a)[q]
  {
    hide Checked, PutAndChecked, Inv;
    match a {
      case Receive(logs) => ReceiveAsks(d, logs, after, q);
      case Result(closed) =>
        var got := d.(results := d.results + 1);
        CheckCounts(if closed then got.(canExecute := false, connected := false) else got.(canExecute := true),
                    after, q);
      case Ping => PingAsks(d, after, q);
      case LifetimeTick(date) => PutCounts(d, CheckLifetime(date), after, q);
      case NewLimits(date) => NewLimitsAsk(d, date, after, q);
      case Connect(ok) => CheckCounts(d.(canExecute := ok, connected := ok), after, q);
    }
  }

  lemma ReceiveAsks(d: Dispatcher, logs: seq<LogMessage>, after: Dispatcher, q: Query)
    requires Inv(d) && Received(d, logs, after) && !q.Insert?
    ensures Count(after, q) == Count(d, q) + Asked(d, Receive(logs))[q]
  {
    hide Checked, PutAndChecked;
    var got := d.(buffer := d.buffer + logs, insertCount := d.insertCount + 1);
    if got.insertCount > INSERT_COUNT_CHECK {
      var mid :| PutAndChecked(got, CheckCount, mid) && Checked(mid.(insertCount := 0), after);
      PutCounts(got, CheckCount, mid, q);
      CheckCounts(mid.(insertCount := 0), after, q);
    } else {
      CheckCounts(got, after, q);
    }
  }

  lemma PingAsks(d: Dispatcher, after: Dispatcher, q: Query)
    requires Next(d, Ping, after) && !q.Insert?
    ensures Count(after, q) == Count(d, q) + Asked(d, Ping)[q]
  {
    hide Checked;
    if d.connected {
      CheckCounts(Pinged(d), after, q);
    }
  }

  lemma NewLimitsAsk(d: Dispatcher, date: int, after: Dispatcher, q: Query)
    requires Next(d, NewLimits(date), after) && !q.Insert?
    ensures Count(after, q) == Count(d, q) + Asked(d, NewLimits(date))[q]
  {
    hide Checked, PutAndChecked;
    var mid :| PutAndChecked(d, CheckCount, mid) && PutAndChecked(mid, CheckLifetime(date), after);
    PutCounts(d, CheckCount, mid, q);
    PutCounts(mid, CheckLifetime(date), after, q);
  }

  // What single steps do, in numbers

  /** An answer that says the database is gone disconnects the dispatcher, and nothing is sent. */
  lemma ClosedDisconnects(d: Dispatcher, after: Dispatcher)
    requires Next(d, Result(true), after)
    ensures after == d.(results := d.results + 1, connected := false, canExecute := false)
  {
  }

  lemma FailedConnectDisconnects(d: Dispatcher, after: Dispatcher)
    requires Next(d, Connect(false), after)
    ensures after == d.(connected := false, canExecute := false)
  {
  }

  /** Without a database nothing is sent, whatever comes in, until it is there again. */
  lemma NothingSentDisconnected(d: Dispatcher, a: Action, after: Dispatcher)
    requires Inv(d) && !d.connected && Enabled(d, a) && a != Connect(true) && Next(d, a, after)
    ensures after.sent == d.sent && !after.connected && after.requests == d.requests
  {
    match a {
      case Receive(logs) => BusyStaysBusy(d.(buffer := d.buffer + logs, insertCount := d.insertCount + 1));
      case NewLimits(date) =>
        var mid :| PutAndChecked(d, CheckCount, mid) && PutAndChecked(mid, CheckLifetime(date), after);
      case _ =>
    }
  }

  lemma BusyStaysBusy(d: Dispatcher)
    requires !d.canExecute
    ensures forall q, after :: PutAndChecked(d, q, after) ==> after == Put(d, q)
  {
  }

  /** A connection sends what waits first, or asks for logs if nothing waits. */
  lemma ConnectSends(d: Dispatcher, after: Dispatcher)
    requires Next(d, Connect(true), after)
    ensures after.connected
    ensures if d.queue == multiset{} && d.buffer == [] then
              after.canExecute && after.sent == d.sent && after.requests == d.requests + 1
            else !after.canExecute && |after.sent| == |d.sent| + 1 && after.requests == d.requests
  {
    hide IsHighest;
    CheckCases(d.(canExecute := true, connected := true), after);
  }

  /** With nothing else queued an answer sends the first 100 logs, or all if there are no more. */
  lemma HundredLogsAtOnce(d: Dispatcher, after: Dispatcher)
    requires Next(d, Result(false), after) && d.queue == multiset{} && d.buffer != []
    ensures var n := if |d.buffer| > 100 then 100 else |d.buffer|;
            after.sent == d.sent + [Insert(d.buffer[..n])] && after.buffer == d.buffer[n..] && !after.canExecute
  {
    hide Checked, IsHighest;
    CheckCases(d.(results := d.results + 1, canExecute := true), after);
  }

  /** What may go before what. */
  ghost predicate GoesFirst(q: Query, queue: multiset<Query>) {
    && q in queue
    && (Heartbeat in queue ==> q == Heartbeat)
    && (Heartbeat !in queue && (exists p :: p in queue && p.CheckLifetime?) ==> q.CheckLifetime?)
    && (q == CheckCount ==> forall p :: p in queue ==> p == CheckCount || p.Insert?)
    && (q.Insert? ==> forall p :: p in queue ==> p.Insert?)
  }

  lemma HighestGoesFirst(q: Query, queue: multiset<Query>)
    requires IsHighest(q, queue)
    ensures GoesFirst(q, queue)
  {
  }

  /** In which order what is queued goes: heartbeats, checks of the lifetime, checks of the count, logs. */
  lemma QueriesGoInOrder(d: Dispatcher, after: Dispatcher)
    requires Next(d, Result(false), after) && d.queue != multiset{}
    ensures |after.sent| == |d.sent| + 1 && after.sent[..|d.sent|] == d.sent && after.buffer == d.buffer
    ensures var q := after.sent[|d.sent|];
            GoesFirst(q, d.queue) && after.queue == d.queue - multiset{q}
  {
    CheckCases(d.(results := d.results + 1, canExecute := true), after);
    hide Checked, IsHighest, GoesFirst;
    var q :| IsHighest(q, d.queue) && after == Sent(d.(results := d.results + 1, canExecute := true), q);
    HighestGoesFirst(q, d.queue);
    assert after.sent == d.sent + [q];
  }

  /** A ping of a connected dispatcher asks for logs if it has nothing queued and nothing buffered. */
  lemma PingRequests(d: Dispatcher, after: Dispatcher)
    requires Next(d, Ping, after)
    ensures after.requests
         == d.requests + if d.connected && d.queue == multiset{} && d.buffer == [] then 1 else 0
  {
    if d.connected {
      assert Pinged(d).queue != multiset{};
      if Pinged(d).canExecute {
        CheckCases(Pinged(d), after);
      }
    }
  }

  function Receptions(actions: seq<Action>): (n: nat) {
    if actions == [] then 0
    else Receptions(actions[..|actions| - 1]) + if actions[|actions| - 1].Receive? then 1 else 0
  }

  function LimitChanges(actions: seq<Action>): (n: nat) {
    if actions == [] then 0
    else LimitChanges(actions[..|actions| - 1]) + if actions[|actions| - 1].NewLimits? then 1 else 0
  }

  /**
   * In a run in which the database changes only between queries, one count check is asked for with every 1001st
   * reception, and one with every change of the limits, and none is lost.
   */
  lemma {:induction false} ChecksInNumbers(states: seq<Dispatcher>, actions: seq<Action>)
    requires IsRun(states, actions)
    requires forall i :: 0 <= i < |actions| && actions[i].Connect? ==> Outstanding(states[i]) == 0
    ensures var last := states[|actions|];
            && Count(last, CheckCount) == Receptions(actions) / 1001 + LimitChanges(actions)
            && last.insertCount == Receptions(actions) % 1001
  {
    var n := |actions|;
    if n > 0 {
      ChecksInNumbers(states[..n], actions[..n - 1]);
      InvAt(states, actions, n - 1);
      assert Next(states[n - 1], actions[n - 1], states[n]);
      hide Next, Inv, Count, IsRun;
      StepAsks(states[n - 1], actions[n - 1], states[n], CheckCount);
      StepCounts(states[n - 1], actions[n - 1], states[n]);
    }
  }

  lemma StepCounts(d: Dispatcher, a: Action, after: Dispatcher)
    requires Inv(d) && Next(d, a, after)
    ensures d.insertCount <= 1000
    ensures after.insertCount
         == if !a.Receive? then d.insertCount else if d.insertCount == 1000 then 0 else d.insertCount + 1
    ensures Asked(d, a)[CheckCount]
         == if (a.Receive? && d.insertCount == 1000) || a.NewLimits? then 1 else 0
  {
    hide Checked, PutAndChecked, NoInserts, SmallBatches;
    match a {
      case Receive(logs) =>
        var got := d.(buffer := d.buffer + logs, insertCount := d.insertCount + 1);
        if got.insertCount > INSERT_COUNT_CHECK {
          var mid :| PutAndChecked(got, CheckCount, mid) && Checked(mid.(insertCount := 0), after);
          CheckKeepsCount(mid.(insertCount := 0), after);
        } else {
          CheckKeepsCount(got, after);
        }
      case Result(closed) =>
        var got := d.(results := d.results + 1);
        CheckKeepsCount(if closed then got.(canExecute := false, connected := false) else got.(canExecute := true),
                        after);
      case Ping =>
        if d.connected {
          CheckKeepsCount(Pinged(d), after);
        }
      case LifetimeTick(date) => PutKeepsCount(d, CheckLifetime(date), after);
      case NewLimits(date) =>
        var mid :| PutAndChecked(d, CheckCount, mid) && PutAndChecked(mid, CheckLifetime(date), after);
        PutKeepsCount(d, CheckCount, mid);
        PutKeepsCount(mid, CheckLifetime(date), after);
      case Connect(ok) => CheckKeepsCount(d.(canExecute := ok, connected := ok), after);
    }
  }

  lemma CheckKeepsCount(d: Dispatcher, after: Dispatcher)
    requires Checked(d, after)
    ensures after.insertCount == d.insertCount
  {
    hide IsHighest;
  }

  lemma PutKeepsCount(d: Dispatcher, q: Query, after: Dispatcher)
    requires PutAndChecked(d, q, after)
    ensures after.insertCount == d.insertCount
  {
    CheckKeepsCount(Put(d, q), after);
  }
}
