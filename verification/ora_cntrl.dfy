/** The log writer's controller as the object the source has, proved against module Dispatch. */
module OraControllers {
  import opened LogCodec
  import opened Dispatch

  /** The priority queue: only its contents and the priority of what it gives are relied on. */
  class PriorityQueue {
    var items: seq<Query>

    constructor ()
      ensures Contents() == multiset{}
    {
      items := [];
    }

    ghost function Contents(): (r: multiset<Query>)
      reads this
    {
      multiset(items)
    }

    predicate Empty()
      reads this
      ensures Empty() <==> Contents() == multiset{}
    {
      |items| == 0
    }

    method Put(q: Query)
      modifies this
      ensures Contents() == old(Contents()) + multiset{q}
    {
      items := items + [q];
    }

    method Get() returns (q: Query)
      requires !Empty()
      modifies this
      ensures IsHighest(q, old(Contents())) && Contents() == old(Contents()) - multiset{q}
    {
      var best := 0;
      for i := 0 to |items|
        invariant 0 <= best < |items|
        invariant forall j :: 0 <= j < i ==> Priority(items[j]) <= Priority(items[best])
      {
        if Priority(items[i]) > Priority(items[best]) {
          best := i;
        }
      }
      q := items[best];
      assert items == items[..best] + [q] + items[best + 1..];
      items := items[..best] + items[best + 1..];
    }
  }

  class OraCntrlr {
    var logMsgBuffer: seq<LogMessage>
    const queryQueue: PriorityQueue
    var dbSuccess: bool
    var canExecute: bool
    var curInsertCount: nat
    var execQueries: seq<Query> // all that was sent to the executor
    var execResults: nat        // how many results it gave back
    var requests: nat           // how often more logs were requested

    constructor ()
      ensures Value() == FRESH && fresh(queryQueue)
    {
      logMsgBuffer, dbSuccess, canExecute, curInsertCount := [], false, false, 0;
      execQueries, execResults, requests := [], 0, 0;
      queryQueue := new PriorityQueue();
    }

    ghost function Value(): (r: Dispatcher)
      reads this, queryQueue
    {
      Dispatcher(logMsgBuffer, queryQueue.Contents(), canExecute, dbSuccess, curInsertCount, execQueries, execResults,
                 requests)
    }

    method CheckQueryQueue()
      modifies this, queryQueue
      ensures Checked(old(Value()), Value())
    {
      if canExecute {
        FillQueue();
        assert Value() == Filled(old(Value()));
        if !queryQueue.Empty() {
          var q := queryQueue.Get();
          canExecute := false;
          execQueries := execQueries + [q];
          assert Value() == Sent(Filled(old(Value())), q);
        }
      }
    }

    /** The first half of the check: an empty queue gets the next batch, or logs are requested. */
    method FillQueue()
      modifies this, queryQueue
      ensures Value() == Filled(old(Value()))
    {
      if queryQueue.Empty() {
        if |logMsgBuffer| > 0 {
          var toQuery: seq<LogMessage>;
          if |logMsgBuffer| > MAX_QUERY_EXEC {
            toQuery := logMsgBuffer[..MAX_QUERY_EXEC];
            logMsgBuffer := logMsgBuffer[MAX_QUERY_EXEC..];
          } else {
            toQuery := logMsgBuffer;
            logMsgBuffer := [];
          }
          assert toQuery == old(logMsgBuffer)[..BatchSize(old(Value()))];
          queryQueue.Put(Insert(toQuery));
        } else {
          requests := requests + 1;
        }
      }
    }

    method CheckLogCount()
      modifies this, queryQueue
      ensures PutAndChecked(old(Value()), CheckCount, Value())
    {
      queryQueue.Put(CheckCount);
      CheckQueryQueue();
    }

    method CheckLogLifetime(oldLogDate: int)
      modifies this, queryQueue
      ensures PutAndChecked(old(Value()), CheckLifetime(oldLogDate), Value())
    {
      queryQueue.Put(CheckLifetime(oldLogDate));
      CheckQueryQueue();
    }

    method CheckHeartbeat()
      modifies this, queryQueue
      ensures Checked(Pinged(old(Value())), Value())
    {
      if queryQueue.Empty() {
        if |logMsgBuffer| == 0 {
          requests := requests + 1;
        }
        queryQueue.Put(Heartbeat);
      }
      assert Value() == Pinged(old(Value()));
      CheckQueryQueue();
    }

    method OnReceive(logMsgs: seq<LogMessage>)
      modifies this, queryQueue
      ensures Next(old(Value()), Receive(logMsgs), Value())
    {
      hide Checked, PutAndChecked;
      logMsgBuffer := logMsgBuffer + logMsgs;
      curInsertCount := curInsertCount + 1;
      if curInsertCount > INSERT_COUNT_CHECK {
        CheckLogCount();
        curInsertCount := 0;
      }
      CheckQueryQueue();
    }

    method OnResult(closed: bool)
      modifies this, queryQueue
      ensures Next(old(Value()), Result(closed), Value())
    {
      hide Checked;
      execResults := execResults + 1;
      if closed {
        canExecute := false;
        dbSuccess := false;
      } else {
        canExecute := true;
      }
      label checking:
      CheckQueryQueue();
      assert Checked(old@checking(Value()), Value());
    }

    method OnPing()
      modifies this, queryQueue
      ensures Next(old(Value()), Ping, Value())
    {
      if dbSuccess {
        CheckHeartbeat();
      }
    }

    method OnLifetimeTick(oldLogDate: int)
      modifies this, queryQueue
      ensures Next(old(Value()), LifetimeTick(oldLogDate), Value())
    {
      CheckLogLifetime(oldLogDate);
    }

    method OnNewLimits(oldLogDate: int)
      modifies this, queryQueue
      ensures Next(old(Value()), NewLimits(oldLogDate), Value())
    {
      CheckLogCount();
      CheckLogLifetime(oldLogDate);
    }

    method ConnectToDb(ok: bool)
      modifies this, queryQueue
      ensures Next(old(Value()), Connect(ok), Value())
    {
      canExecute := false;
      dbSuccess := false;
      if ok {
        dbSuccess := true;
        canExecute := true;
        CheckQueryQueue();
      }
    }
  }
}
