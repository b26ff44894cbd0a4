/** The supervisor as the object the source has, proved against module Supervision. */
module ChiefChannelServers {
  import opened Wrappers
  import opened Supervision

  class ChiefChannelServer {
    var channelSetts: seq<Channel>
    var chPort: int
    var channelBinMap: map<int, Process>
    var strays: multiset<Process> // processes that run although their handle was overwritten
    var chStates: map<int, StateTime>

    constructor ()
      ensures Setts() == Settings([], 0) && Processes() == NO_PROCESSES && chStates == map[]
    {
      channelSetts, chPort, channelBinMap, strays, chStates := [], 0, map[], multiset{}, map[];
    }

    ghost function Setts(): (r: Settings)
      reads this
    {
      Settings(channelSetts, chPort)
    }

    ghost function Processes(): (f: Fleet)
      reads this
    {
      Fleet(channelBinMap, strays)
    }

    method InitChannelState(now: int, c: Channel)
      modifies this`chStates
      ensures chStates == old(chStates)[c.id := Initial(c, now)]
    {
      var daemon := if c.isWorking then Error else Stopped;
      chStates := chStates[c.id :=
        StateTime(ChannelState(c.id, c.localATC, c.remoteATC, daemon, "disabled", c.url), now)];
    }

    /** The search of a list by ID, by a loop that stops at the first hit. */
    method FindById(setts: seq<Channel>, id: int) returns (r: Option<Channel>)
      ensures r == Find(setts, id)
    {
      for i := 0 to |setts|
        invariant Find(setts, id) == Find(setts[i..], id)
      {
        if setts[i].id == id {
          return Some(setts[i]);
        }
        assert setts[i..][1..] == setts[i + 1..];
      }
      return None;
    }

    method CollectWorking(setts: seq<Channel>) returns (ids: seq<int>)
      ensures ids == WorkingIds(setts)
    {
      ids := [];
      for i := 0 to |setts|
        invariant WorkingIds(setts) == ids + WorkingIds(setts[i..])
      {
        assert setts[i..][1..] == setts[i + 1..];
        if setts[i].isWorking {
          ids := ids + [setts[i].id];
        }
      }
    }

    /** The new records, in order: what each one stops, starts and initialises. */
    method CompareNew(now: int, newSetts: seq<Channel>) returns (stopIds: seq<int>, startIds: seq<int>)
      modifies this`chStates
      ensures stopIds == ReplacedIds(channelSetts, newSetts) && startIds == NewIds(channelSetts, newSetts)
      ensures chStates == InitAll(old(chStates), now, Changed(channelSetts, newSetts))
    {
      hide InitAll, Changed, NewIds, ReplacedIds, Find, Initial;
      stopIds, startIds := [], [];
      ComparisonStart(channelSetts, newSetts);
      for i := 0 to |newSetts|
        invariant ReplacedIds(channelSetts, newSetts) == stopIds + ReplacedIds(channelSetts, newSetts[i..])
        invariant NewIds(channelSetts, newSetts) == startIds + NewIds(channelSetts, newSetts[i..])
        invariant InitAll(old(chStates), now, Changed(channelSetts, newSetts))
               == InitAll(chStates, now, Changed(channelSetts, newSetts[i..]))
      {
        var newIt := newSetts[i];
        ComparisonStep(channelSetts, newSetts, i);
        var oldIt := FindById(channelSetts, newIt.id);
        InitFirst(chStates, now, newIt, Changed(channelSetts, newSetts[i + 1..]));
        if oldIt.Some? {
          if oldIt.value != newIt {
            if oldIt.value.isWorking {
              Regroup(stopIds, oldIt.value.id, ReplacedIds(channelSetts, newSetts[i + 1..]));
              stopIds := stopIds + [oldIt.value.id];
            }
            if newIt.isWorking {
              Regroup(startIds, newIt.id, NewIds(channelSetts, newSetts[i + 1..]));
              startIds := startIds + [newIt.id];
            }
            InitChannelState(now, newIt);
          }
        } else {
          if newIt.isWorking {
            Regroup(startIds, newIt.id, NewIds(channelSetts, newSetts[i + 1..]));
            startIds := startIds + [newIt.id];
          }
          InitChannelState(now, newIt);
        }
      }
    }

    lemma Regroup(ids: seq<int>, id: int, rest: seq<int>)
      ensures ids + ([id] + rest) == (ids + [id]) + rest
    {
    }

    lemma ComparisonStart(setts: seq<Channel>, newSetts: seq<Channel>)
      ensures newSetts[0..] == newSetts && newSetts[|newSetts|..] == []
      ensures ReplacedIds(setts, []) == [] && NewIds(setts, []) == [] && Changed(setts, []) == []
      ensures forall states, now :: InitAll(states, now, []) == states
    {
    }

    lemma ComparisonStep(setts: seq<Channel>, newSetts: seq<Channel>, i: nat)
      requires i < |newSetts|
      ensures var c, o, rest := newSetts[i], Find(setts, newSetts[i].id), newSetts[i + 1..];
              && ReplacedIds(setts, newSetts[i..])
                 == (if o.Some? && o.value != c && o.value.isWorking then [o.value.id] + ReplacedIds(setts, rest)
                     else ReplacedIds(setts, rest))
              && NewIds(setts, newSetts[i..])
                 == (if c.isWorking && o != Some(c) then [c.id] + NewIds(setts, rest) else NewIds(setts, rest))
              && Changed(setts, newSetts[i..])
                 == if o != Some(c) then [c] + Changed(setts, rest) else Changed(setts, rest)
    {
      assert newSetts[i..][1..] == newSetts[i + 1..];
    }

    lemma RemovalStart(setts: seq<Channel>, newSetts: seq<Channel>)
      ensures setts[0..] == setts && setts[|setts|..] == [] && RemovedIds([], newSetts) == []
    {
    }

    lemma RemovalStep(setts: seq<Channel>, newSetts: seq<Channel>, i: nat)
      requires i < |setts|
      ensures var o, rest := setts[i], setts[i + 1..];
              RemovedIds(setts[i..], newSetts)
              == if Find(newSetts, o.id) == None && o.isWorking then [o.id] + RemovedIds(rest, newSetts)
                 else RemovedIds(rest, newSetts)
    {
      assert setts[i..][1..] == setts[i + 1..];
    }

    method CompareOld(newSetts: seq<Channel>) returns (stopIds: seq<int>)
      ensures stopIds == RemovedIds(channelSetts, newSetts)
    {
      hide RemovedIds, Find;
      stopIds := [];
      RemovalStart(channelSetts, newSetts);
      for i := 0 to |channelSetts|
        invariant RemovedIds(channelSetts, newSetts) == stopIds + RemovedIds(channelSetts[i..], newSetts)
      {
        var oldIt := channelSetts[i];
        RemovalStep(channelSetts, newSetts, i);
        var newIt := FindById(newSetts, oldIt.id);
        if newIt.None? && oldIt.isWorking {
          Regroup(stopIds, oldIt.id, RemovedIds(channelSetts[i + 1..], newSetts));
          stopIds := stopIds + [oldIt.id];
        }
      }
    }

    /** A new port: every new record has its state started anew, the working ones are to start. */
    method InitAllStates(now: int, setts: seq<Channel>) returns (startIds: seq<int>)
      modifies this`chStates
      ensures startIds == WorkingIds(setts) && chStates == InitAll(old(chStates), now, setts)
    {
      hide WorkingIds;
      startIds := [];
      WorkingStart(setts);
      for i := 0 to |setts|
        invariant WorkingIds(setts) == startIds + WorkingIds(setts[i..])
        invariant InitAll(old(chStates), now, setts) == InitAll(chStates, now, setts[i..])
      {
        WorkingStep(setts, i);
        InitChannelState(now, setts[i]);
        if setts[i].isWorking {
          Regroup(startIds, setts[i].id, WorkingIds(setts[i + 1..]));
          startIds := startIds + [setts[i].id];
        }
      }
    }

    lemma WorkingStart(setts: seq<Channel>)
      ensures setts[0..] == setts && setts[|setts|..] == [] && WorkingIds([]) == []
    {
    }

    lemma WorkingStep(setts: seq<Channel>, i: nat)
      requires i < |setts|
      ensures setts[i..][1..] == setts[i + 1..]
      ensures var c, rest := setts[i], WorkingIds(setts[i + 1..]);
              WorkingIds(setts[i..]) == if c.isWorking then [c.id] + rest else rest
    {
      assert setts[i..][1..] == setts[i + 1..];
    }

    /** New settings arrive: the lists of channels to stop and start, the states, and the settings kept. */
    method TakeSettings(now: int, newSetts: seq<Channel>, newPort: int) returns (stopIds: seq<int>, startIds: seq<int>)
      modifies this`chStates, this`channelSetts, this`chPort
      ensures Setts() == Settings(newSetts, newPort)
      ensures stopIds == StopIds(old(Setts()), Setts()) && startIds == StartIds(old(Setts()), Setts())
      ensures chStates == StatesUpdated(old(chStates), now, old(Setts()), Setts())
    {
      stopIds, startIds := [], [];
      if chPort != newPort {
        stopIds := CollectWorking(channelSetts);
        startIds := InitAllStates(now, newSetts);
      } else if channelSetts != newSetts {
        stopIds, startIds := CompareNew(now, newSetts);
        var removed := CompareOld(newSetts);
        stopIds := stopIds + removed;
      }
      channelSetts, chPort := newSetts, newPort;
    }

    method StopChannelsByIDs(ids: seq<int>)
      modifies this`channelBinMap
      ensures Processes() == StopAll(old(Processes()), ids)
    {
      for i := 0 to |ids|
        invariant Processes() == StopAll(old(Processes()), ids[..i])
      {
        if ids[i] in channelBinMap {
          channelBinMap := channelBinMap - {ids[i]};
        }
        assert ids[..i + 1] == ids[..i] + [ids[i]];
      }
      assert ids[..|ids|] == ids;
    }

    /** The handle of a new process takes the place of one that is there; the process of that one goes on. */
    method Launch(id: int, p: Process)
      modifies this`channelBinMap, this`strays
      ensures Processes() == Supervision.Launch(old(Processes()), id, p)
    {
      if id in channelBinMap {
        strays := strays + multiset{channelBinMap[id]};
      }
      channelBinMap := channelBinMap[id := p];
    }

    method StartChannelsByIDs(ids: seq<int>)
      modifies this`channelBinMap, this`strays
      ensures Processes() == StartAll(old(Processes()), Setts(), ids)
    {
      for i := 0 to |ids|
        invariant StartAll(old(Processes()), Setts(), ids) == StartAll(Processes(), Setts(), ids[i..])
      {
        assert ids[i..][1..] == ids[i + 1..];
        var newIt := FindById(channelSetts, ids[i]);
        if newIt.Some? {
          Launch(ids[i], Process(newIt.value, chPort));
        }
      }
    }

    /** One update with its delayed start: the processes running follow the settings. */
    method UpdateSettings(now: int, newSetts: seq<Channel>, newPort: int)
      requires Distinct(channelSetts) && Distinct(newSetts) && Reconciled(Processes(), Setts())
      modifies this
      ensures Setts() == Settings(newSetts, newPort) && Reconciled(Processes(), Setts())
      ensures Processes() == Updated(old(Processes()), old(Setts()), Setts())
      ensures chStates == StatesUpdated(old(chStates), now, old(Setts()), Setts())
    {
      ghost var from := Setts();
      UpdateReconciles(Processes(), from, Settings(newSetts, newPort));
      var stopIds, startIds := TakeSettings(now, newSetts, newPort);
      StopChannelsByIDs(stopIds);
      StartChannelsByIDs(startIds);
    }

    method OnHeartbeat(now: int, id: int, state: ChannelState)
      modifies this`chStates
      ensures chStates == old(chStates)[id := StateTime(state, now)]
    {
      chStates := chStates[id := StateTime(state, now)];
    }

    /**
     * The tick goes through the entries in whatever order the range over the map takes; an entry put back while
     * the range goes on may be visited again.
     */
    method StatesTick(now: int, order: seq<int>)
      requires forall id :: id in order <==> id in chStates
      modifies this`chStates
      ensures chStates == Ticked(old(chStates), now, channelSetts)
      ensures forall id :: id in chStates && now - old(chStates)[id].time <= 10_000 ==>
                             chStates[id] == old(chStates)[id]
      ensures forall c :: c in channelSetts && c.isWorking && c.id in chStates
                            && now - old(chStates)[c.id].time > 10_000 ==>
                            chStates[c.id].time == now
    {
      hide Refreshed, IsStale;
      TickInNumbers(chStates, now, channelSetts);
      ghost var before := chStates;
      assert forall id :: id in order ==> id in before;
      for i := 0 to |order|
        invariant chStates.Keys == old(chStates).Keys
        invariant forall id :: id in chStates ==>
                    chStates[id] == if id in order[..i] then Refreshed(old(chStates)[id], id, now, channelSetts)
                                    else old(chStates)[id]
      {
        var channelId := order[i];
        assert channelId in order;
        RefreshTwice(before[channelId], channelId, now, channelSetts);
        RefreshState(now, channelId);
        assert order[..i + 1] == order[..i] + [channelId];
      }
      assert order[..|order|] == order;
    }

    /** A visit to an entry that was already put back changes nothing. */
    lemma RefreshTwice(st: StateTime, id: int, now: int, setts: seq<Channel>)
      ensures Refreshed(Refreshed(st, id, now, setts), id, now, setts) == Refreshed(st, id, now, setts)
    {
    }

    method RefreshState(now: int, channelId: int)
      requires channelId in chStates
      modifies this`chStates
      ensures chStates
           == old(chStates)[channelId := Refreshed(old(chStates)[channelId], channelId, now, channelSetts)]
    {
      if chStates[channelId].time + 10 * STATE_SEND_INTERVAL < now {
        RestartState(now, channelId);
      }
      assert old(chStates)[channelId := old(chStates)[channelId]] == old(chStates);
    }

    method RestartState(now: int, channelId: int)
      requires channelId in chStates
      modifies this`chStates
      ensures chStates == match FindWorking(channelSetts, channelId)
                          case Some(c) => old(chStates)[channelId := Initial(c, now)]
                          case None => old(chStates)
    {
      FindWorkingFinds(channelSetts, channelId);
      for i := 0 to |channelSetts|
        invariant FindWorking(channelSetts, channelId) == FindWorking(channelSetts[i..], channelId)
        invariant chStates == old(chStates)
      {
        assert channelSetts[i..][1..] == channelSetts[i + 1..];
        if channelSetts[i].id == channelId && channelSetts[i].isWorking {
          chStates := chStates - {channelId};
          InitChannelState(now, channelSetts[i]);
          return;
        }
      }
    }
  }
}
