/** The OLDI server's queue as the source has it: a slice over a backing array, proved against module OldiQueue. */
module FmtpGrpcServers {
  import opened Wrappers
  import opened OldiQueue

  /** A slice of messages as the array holds them; `None` is a slot set to nil. */
  function Slots(items: seq<Msg>): (slots: seq<Option<Msg>>)
    ensures |slots| == |items| && forall i :: 0 <= i < |items| ==> slots[i] == Some(items[i])
  {
    seq(|items|, i requires 0 <= i < |items| => Some(items[i]))
  }

  lemma SlotsOfSlice(items: seq<Msg>, a: nat, b: nat)
    requires a <= b <= |items|
    ensures Slots(items)[a..b] == Slots(items[a..b])
  {
  }

  class FmtpGrpcServer {
    var buf: array<Option<Msg>> // the backing array of the slice
    var lo: nat                 // where the slice starts
    var len: nat                // how long it is
    ghost var queue: Queue      // its history

    ghost predicate Valid()
      reads this, buf
    {
      lo + len <= buf.Length && buf[lo..lo + len] == Slots(queue.items)
    }

    constructor ()
      ensures Valid() && queue == EMPTY && fresh(buf)
    {
      buf := new Option<Msg>[0];
      lo, len, queue := 0, 0, EMPTY;
    }

    method AppendMsg(msg: Msg)
      requires Valid()
      modifies this, buf
      ensures Valid() && (buf == old(buf) || fresh(buf))
      ensures queue == Next(old(queue), Append(msg))
      ensures queue.items == old(queue.items) + [msg]
    {
      if lo + len == buf.Length {
        Grow();
      }
      buf[lo + len] := Some(msg);
      len := len + 1;
      queue := Next(queue, Append(msg));
    }

    /** A full backing array is left behind for a larger one that starts with the slice. */
    method Grow()
      requires Valid()
      modifies this
      ensures Valid() && fresh(buf) && lo + len < buf.Length
      ensures len == old(len) && queue == old(queue)
    {
      var bigger := new Option<Msg>[2 * len + 1](_ => None);
      forall i | 0 <= i < len {
        bigger[i] := buf[lo + i];
      }
      buf, lo := bigger, 0;
    }

    method RecvMsg() returns (toSend: array<Option<Msg>>)
      requires Valid()
      modifies this
      ensures Valid() && buf == old(buf) && fresh(toSend)
      ensures queue == Next(old(queue), Take)
      ensures toSend[..] == Slots(queue.delivered[|queue.delivered| - 1])
      ensures |old(queue.items)| <= 1000 ==> toSend[..] == Slots(old(queue.items)) && queue.items == []
      ensures |old(queue.items)| > 1000 ==>
                toSend[..] == Slots(old(queue.items)[..1000]) && queue.items == old(queue.items)[1000..]
    {
      hide Slots;
      TakeGives(queue);
      var n := if len > MAX_MSG_TO_SEND then MAX_MSG_TO_SEND else len;
      toSend := CopyFront(n);
      SlotsOfSlice(queue.items, 0, n);
      SlotsOfSlice(queue.items, n, len);
      if len > MAX_MSG_TO_SEND {
        lo, len := lo + MAX_MSG_TO_SEND, len - MAX_MSG_TO_SEND;
      } else {
        len := 0;
      }
      queue := Next(queue, Take);
    }

    method CopyFront(n: nat) returns (front: array<Option<Msg>>)
      requires n <= len && lo + len <= buf.Length
      ensures fresh(front) && front[..] == buf[lo..lo + len][..n]
    {
      front := new Option<Msg>[n](_ => None);
      forall i | 0 <= i < n {
        front[i] := buf[lo + i];
      }
    }

    method CleanOldMsg(clock: nat -> int)
      requires Valid()
      modifies this, buf
      ensures Valid() && buf == old(buf)
      ensures queue == Next(old(queue), Clean(clock))
      ensures LeavesYounger(old(queue.items), queue.items, clock)
      ensures forall j :: old(lo) <= j < old(lo) + old(len) - len ==> buf[j] == None
    {
      hide Slots, ExpiredFrom, LeavesYounger;
      CleanDropsAfter30Seconds(queue, clock);
      var maxIdx := LastExpired(clock);
      if maxIdx != -1 {
        SlotsOfSlice(queue.items, maxIdx + 1, len);
        DropFront(maxIdx + 1);
      }
      queue := Next(queue, Clean(clock));
    }

    /** The slots in front are cleared and leave the slice. */
    method DropFront(n: nat)
      requires 0 < n <= len && lo + len <= buf.Length
      modifies this`lo, this`len, buf
      ensures lo + len <= buf.Length && len == old(len) - n
      ensures buf[lo..lo + len] == old(buf[lo..lo + len])[n..]
      ensures forall j :: old(lo) <= j < old(lo) + n ==> buf[j] == None
    {
      ClearFront(n);
      if n == len {
        len := 0;
      } else {
        lo, len := lo + n, len - n;
      }
    }

    /** The first `n` slots of the slice are set to nil in place. */
    method ClearFront(n: nat)
      requires n <= len && lo + len <= buf.Length
      modifies buf
      ensures forall j :: lo <= j < lo + n ==> buf[j] == None
      ensures buf[..lo] == old(buf[..lo]) && buf[lo + n..lo + len] == old(buf[lo..lo + len])[n..]
    {
      for idx := 0 to n
        invariant forall j :: 0 <= j < buf.Length ==> buf[j] == if lo <= j < lo + idx then None else old(buf[j])
      {
        buf[lo + idx] := None;
      }
    }

    /** The index of the last message of the expired prefix, -1 if there is none. */
    method LastExpired(clock: nat -> int) returns (maxIdx: int)
      requires Valid()
      ensures -1 <= maxIdx < len && maxIdx + 1 == ExpiredFrom(queue.items, clock, 0)
    {
      maxIdx := -1;
      for idx := 0 to len
        invariant maxIdx == idx - 1
        invariant ExpiredFrom(queue.items, clock, 0) == idx + ExpiredFrom(queue.items, clock, idx)
      {
        var val := buf[lo + idx];
        assert val == buf[lo..lo + len][idx];
        if Expired(val.value, clock(idx)) {
          maxIdx := idx;
        } else {
          break;
        }
      }
    }
  }

  lemma OnlyTakesDeliver(q: Queue, op: Op)
    ensures var after := Next(q, op).delivered;
            && |after| == |q.delivered| + (if op.Take? then 1 else 0)
            && after[..|q.delivered|] == q.delivered
            && forall k :: 0 <= k < |q.delivered| ==> after[k] == q.delivered[k]
  {
  }

  /**
   * A server that serves any sequence of calls: in the end every batch it returned is still what was delivered,
   * however its backing array was reused, grown or cleared since.
   */
  method Serve(ops: seq<Op>) returns (server: FmtpGrpcServer, batches: seq<array<Option<Msg>>>)
    ensures server.Valid() && server.queue == After(ops)
    ensures |batches| == |After(ops).delivered|
    ensures forall k :: 0 <= k < |batches| ==> batches[k][..] == Slots(After(ops).delivered[k])
  {
    hide Slots, Next, LeavesYounger;
    server := new FmtpGrpcServer();
    batches := [];
    assert ops[..0] == [];
    for i := 0 to |ops|
      invariant fresh(server) && fresh(server.buf) && server.Valid() && server.queue == After(ops[..i])
      invariant |batches| == |server.queue.delivered|
      invariant forall k :: 0 <= k < |batches| ==> batches[k] != server.buf && fresh(batches[k])
      invariant forall k :: 0 <= k < |batches| ==> batches[k][..] == Slots(server.queue.delivered[k])
    {
      assert ops[..i + 1][..i] == ops[..i];
      OnlyTakesDeliver(server.queue, ops[i]);
      match ops[i] {
        case Append(msg) => server.AppendMsg(msg);
        case Take =>
          var toSend := server.RecvMsg();
          batches := batches + [toSend];
        case Clean(clock) => server.CleanOldMsg(clock);
      }
    }
    assert ops[..|ops|] == ops;
  }
}
