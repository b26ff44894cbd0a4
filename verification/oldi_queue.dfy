/** The queue of messages for the OLDI provider: appended at the end, taken in bounded batches, dropped when old. */
module OldiQueue {
  import opened Wrappers

  const MSG_VALID_DUR := 30_000 // milliseconds
  const MAX_MSG_TO_SEND := 1000

  /** The receive time is in milliseconds since the epoch; a message may come without one. */
  datatype Msg = Msg(id: string, cid: string, txt: string, rrtime: Option<int>)

  /** A message without a time counts as one of the epoch. */
  function AsTime(m: Msg): (r: int) {
    match m.rrtime
    case Some(t) => t
    case None => 0
  }

  predicate Expired(m: Msg, now: int) {
    AsTime(m) + MSG_VALID_DUR < now
  }

  datatype Fate = Delivered | Dropped(at: int)

  /** `fates` tells what became of the messages appended first; the others are still queued. */
  datatype Queue = Queue(
    items: seq<Msg>,
    appended: seq<Msg>,
    fates: seq<Fate>,
    delivered: seq<seq<Msg>>,
    dropped: seq<Msg>)

  const EMPTY := Queue([], [], [], [], [])

  /** A clean-up reads the clock anew for each message: `clock(i)` is the reading for the i-th. */
  datatype Op = Append(msg: Msg) | Take | Clean(clock: nat -> int)

  function Batch(q: Queue): (n: nat)
    ensures n <= |q.items|
  {
    if |q.items| > MAX_MSG_TO_SEND then MAX_MSG_TO_SEND else |q.items|
  }

  /** How many messages from index `i` on are expired before the first that is not. */
  function ExpiredFrom(items: seq<Msg>, clock: nat -> int, i: nat): (n: nat)
    requires i <= |items|
    ensures i + n <= |items|
    decreases |items| - i
  {
    if i < |items| && Expired(items[i], clock(i)) then 1 + ExpiredFrom(items, clock, i + 1) else 0
  }

  function Next(q: Queue, op: Op): (r: Queue) {
    match op
    case Append(msg) => q.(items := q.items + [msg], appended := q.appended + [msg])
    case Take =>
      q.(items := q.items[Batch(q)..], delivered := q.delivered + [q.items[..Batch(q)]],
         fates := q.fates + seq(Batch(q), i => Delivered))
    case Clean(clock) =>
      var n := ExpiredFrom(q.items, clock, 0);
      q.(items := q.items[n..], dropped := q.dropped + q.items[..n],
         fates := q.fates + seq(n, i requires 0 <= i => Dropped(clock(i))))
  }

  function After(ops: seq<Op>): (r: Queue) {
    if ops == [] then EMPTY else Next(After(ops[..|ops| - 1]), ops[|ops| - 1])
  }

  // What is taken

  /** The queue after `k` takes in a row. */
  function AfterTakes(q: Queue, k: nat): (r: Queue)
    decreases k
  {
    if k == 0 then q else AfterTakes(Next(q, Take), k - 1)
  }

  /** One take: the first 1000 messages, or all if there are no more. */
  lemma TakeGives(q: Queue)
    ensures var n := |q.items|;
            Next(q, Take)
            == q.(items := if n <= 1000 then [] else q.items[1000..],
                  delivered := q.delivered + [if n <= 1000 then q.items else q.items[..1000]],
                  fates := q.fates + seq(if n <= 1000 then n else 1000, i => Delivered))
  {
    assert q.items[..|q.items|] == q.items;
  }

  /** Takes in a row deliver the queue from its front, up to 1000 messages each, in order. */
  lemma {:induction false} TakesDeliver(q: Queue, k: nat)
    ensures var after, n := AfterTakes(q, k), if 1000 * k <= |q.items| then 1000 * k else |q.items|;
            && after.items == q.items[n..]
            && |after.delivered| == |q.delivered| + k && after.delivered[..|q.delivered|] == q.delivered
            && Concat(after.delivered[|q.delivered|..]) == q.items[..n]
            && after.appended == q.appended && after.dropped == q.dropped
    decreases k
  {
    hide Next;
    if k > 0 {
      TakeGives(q);
      var next, d := Next(q, Take), |q.delivered|;
      TakesDeliver(next, k - 1);
      var after := AfterTakes(q, k);
      assert after.delivered[d..] == [next.delivered[d]] + after.delivered[d + 1..];
      assert after.delivered[..d] == after.delivered[..d + 1][..d];
    }
  }

  /** A queue of n messages is empty after k takes exactly if k is at least n / 1000, rounded up. */
  lemma TakesEmptyIff(q: Queue, k: nat)
    ensures AfterTakes(q, k).items == [] <==> k >= (|q.items| + 999) / 1000
    ensures k >= (|q.items| + 999) / 1000 ==>
              |q.delivered| <= |AfterTakes(q, k).delivered|
              && Concat(AfterTakes(q, k).delivered[|q.delivered|..]) == q.items
  {
    hide AfterTakes, Concat;
    TakesDeliver(q, k);
    assert q.items[..|q.items|] == q.items;
  }

  // What a clean-up drops

  /** A clean-up drops exactly the longest expired prefix. */
  lemma {:induction false} CleanDropsExpiredPrefix(items: seq<Msg>, clock: nat -> int, i: nat)
    requires i <= |items|
    ensures var n := ExpiredFrom(items, clock, i);
            && (forall k :: i <= k < i + n ==> Expired(items[k], clock(k)))
            && (i + n < |items| ==> !Expired(items[i + n], clock(i + n)))
    decreases |items| - i
  {
    if i < |items| && Expired(items[i], clock(i)) {
      CleanDropsExpiredPrefix(items, clock, i + 1);
    }
  }

  ghost predicate Stamped(items: seq<Msg>) {
    forall i, j :: 0 <= i < j < |items| ==> AsTime(items[i]) <= AsTime(items[j])
  }

  /** With receive times in order nothing that stays is expired when the scan stops. */
  lemma OrderedTimesAllCleaned(q: Queue, clock: nat -> int, m: Msg)
    requires Stamped(q.items) && m in Next(q, Clean(clock)).items
    ensures !Expired(m, clock(ExpiredFrom(q.items, clock, 0)))
  {
    var n := ExpiredFrom(q.items, clock, 0);
    CleanDropsExpiredPrefix(q.items, clock, 0);
    var k :| n <= k < |q.items| && q.items[k] == m;
    if k > n {
      assert AsTime(q.items[n]) <= AsTime(q.items[k]);
    }
  }

  /**
   * A clean-up in numbers: the messages that leave are at the front, and each is more than 30 seconds old when it is
   * looked at; the first that stays is not. A message without a receive time counts as one of the epoch.
   */
  ghost predicate LeavesYounger(items: seq<Msg>, left: seq<Msg>, clock: nat -> int) {
    && |left| <= |items|
    && var n := |items| - |left|;
    && left == items[n..]
    && (forall i, t :: 0 <= i < n && items[i].rrtime == Some(t) ==> clock(i) - t > 30_000)
    && (forall i :: 0 <= i < n && items[i].rrtime == None ==> clock(i) > 30_000)
    && (left != [] && left[0].rrtime.Some? ==> clock(n) - left[0].rrtime.value <= 30_000)
    && (left != [] && left[0].rrtime.None? ==> clock(n) <= 30_000)
  }

  lemma CleanDropsAfter30Seconds(q: Queue, clock: nat -> int)
    ensures var left := Next(q, Clean(clock)).items;
            LeavesYounger(q.items, left, clock)
            && Next(q, Clean(clock)).dropped == q.dropped + q.items[..|q.items| - |left|]
  {
    hide ExpiredFrom;
    CleanDropsExpiredPrefix(q.items, clock, 0);
    assert forall i :: 0 <= i < ExpiredFrom(q.items, clock, 0) ==> Expired(q.items[i], clock(i));
  }

  /** Messages without a receive time are all dropped by the next clean-up, however recent they are. */
  lemma UnstampedAreAllDropped(q: Queue, clock: nat -> int)
    requires forall i :: 0 <= i < |q.items| ==> q.items[i].rrtime == None
    requires forall i: nat :: clock(i) > MSG_VALID_DUR
    ensures Next(q, Clean(clock)).items == [] && Next(q, Clean(clock)).dropped == q.dropped + q.items
  {
    CleanDropsExpiredPrefix(q.items, clock, 0);
    assert q.items[..|q.items|] == q.items;
  }

  // Conservation

  function Select(appended: seq<Msg>, fates: seq<Fate>, delivered: bool): (r: seq<Msg>)
    requires |fates| <= |appended|
  {
    if fates == [] then []
    else
      var last := |fates| - 1;
      Select(appended, fates[..last], delivered) + if fates[last].Delivered? == delivered then [appended[last]] else []
  }

  ghost predicate Conserved(q: Queue) {
    && |q.fates| <= |q.appended| && q.items == q.appended[|q.fates|..]
    && Concat(q.delivered) == Select(q.appended, q.fates, true)
    && q.dropped == Select(q.appended, q.fates, false)
  }

  ghost predicate Bounded(q: Queue) {
    && |q.fates| <= |q.appended|
    && (forall b :: b in q.delivered ==> |b| <= MAX_MSG_TO_SEND)
    && (forall i :: 0 <= i < |q.fates| && q.fates[i].Dropped? ==> Expired(q.appended[i], q.fates[i].at))
  }

  lemma {:induction false} SelectOfAppended(appended: seq<Msg>, more: seq<Msg>, fates: seq<Fate>, delivered: bool)
    requires |fates| <= |appended|
    ensures Select(appended + more, fates, delivered) == Select(appended, fates, delivered)
  {
    if fates != [] {
      SelectOfAppended(appended, more, fates[..|fates| - 1], delivered);
    }
  }

  lemma {:induction false} SelectOfMore(appended: seq<Msg>, fates: seq<Fate>, more: seq<Fate>, fate: bool,
                                       delivered: bool)
    requires |fates| + |more| <= |appended|
    requires forall i :: 0 <= i < |more| ==> more[i].Delivered? == fate
    ensures Select(appended, fates + more, delivered)
         == Select(appended, fates, delivered)
            + if fate == delivered then appended[|fates|..|fates| + |more|] else []
  {
    hide Select;
    if more == [] {
      assert fates + more == fates;
    } else {
      var last := |more| - 1;
      SelectOfLast(appended, fates + more[..last], more[last], delivered);
      assert fates + more == fates + more[..last] + [more[last]];
      SelectOfMore(appended, fates, more[..last], fate, delivered);
      assert appended[|fates|..|fates| + |more|]
          == appended[|fates|..|fates| + last] + [appended[|fates| + last]];
    }
  }

  lemma SelectOfLast(appended: seq<Msg>, fates: seq<Fate>, f: Fate, delivered: bool)
    requires |fates| < |appended|
    ensures Select(appended, fates + [f], delivered)
         == Select(appended, fates, delivered) + if f.Delivered? == delivered then [appended[|fates|]] else []
  {
    assert (fates + [f])[..|fates|] == fates;
  }

  /** The messages in front leave with the same fate. */
  lemma FrontLeaves(q: Queue, more: seq<Fate>, fate: bool)
    requires Conserved(q) && |more| <= |q.items|
    requires forall i :: 0 <= i < |more| ==> more[i].Delivered? == fate
    ensures var fates := q.fates + more;
            var front := q.items[..|more|];
            && |fates| <= |q.appended| && q.items[|more|..] == q.appended[|fates|..]
            && Select(q.appended, fates, true) == Concat(q.delivered) + (if fate then front else [])
            && Select(q.appended, fates, false) == q.dropped + (if fate then [] else front)
  {
    hide Select, Concat;
    SelectOfMore(q.appended, q.fates, more, fate, true);
    SelectOfMore(q.appended, q.fates, more, fate, false);
    assert q.appended[|q.fates|..|q.fates| + |more|] == q.items[..|more|];
  }

  /** Every message has exactly one fate and all keep their order. */
  lemma StepConserves(q: Queue, op: Op)
    requires Conserved(q) && Bounded(q)
    ensures Conserved(Next(q, op)) && Bounded(Next(q, op))
  {
    match op {
      case Append(msg) =>
        SelectOfAppended(q.appended, [msg], q.fates, true);
        SelectOfAppended(q.appended, [msg], q.fates, false);
      case Take => TakeConserves(q);
      case Clean(clock) => CleanConserves(q, clock);
    }
  }

  lemma TakeConserves(q: Queue)
    requires Conserved(q) && Bounded(q)
    ensures Conserved(Next(q, Take)) && Bounded(Next(q, Take))
  {
    hide Select, Concat;
    var n := Batch(q);
    FrontLeaves(q, seq(n, i => Delivered), true);
    ConcatOneMore(q.delivered, q.items[..n]);
  }

  lemma CleanConserves(q: Queue, clock: nat -> int)
    requires Conserved(q) && Bounded(q)
    ensures Conserved(Next(q, Clean(clock))) && Bounded(Next(q, Clean(clock)))
  {
    hide Select, Concat, Expired;
    CleanDropsExpiredPrefix(q.items, clock, 0);
    FrontLeaves(q, seq(ExpiredFrom(q.items, clock, 0), i requires 0 <= i => Dropped(clock(i))), false);
  }

  /** The messages that calls append, and how many of the calls take. */
  function Submitted(ops: seq<Op>): (r: seq<Msg>) {
    if ops == [] then []
    else Submitted(ops[..|ops| - 1]) + if ops[|ops| - 1].Append? then [ops[|ops| - 1].msg] else []
  }

  function Takes(ops: seq<Op>): (n: nat) {
    if ops == [] then 0 else Takes(ops[..|ops| - 1]) + if ops[|ops| - 1].Take? then 1 else 0
  }

  /** Over any interleaving the messages appended are those submitted, and each take gives one batch. */
  lemma {:induction false} QueueFollowsCalls(ops: seq<Op>)
    ensures After(ops).appended == Submitted(ops) && |After(ops).delivered| == Takes(ops)
  {
    if ops != [] {
      QueueFollowsCalls(ops[..|ops| - 1]);
    }
  }

  /** Over any interleaving of appends, takes and clean-ups. */
  lemma {:induction false} QueueConserves(ops: seq<Op>)
    ensures Conserved(After(ops)) && Bounded(After(ops))
  {
    if ops != [] {
      QueueConserves(ops[..|ops| - 1]);
      StepConserves(After(ops[..|ops| - 1]), ops[|ops| - 1]);
    }
  }
}
