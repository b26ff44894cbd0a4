/**
 * Supervision of the channel processes: which are stopped and started when settings arrive, and the map of
 * channel states kept beside them.
 */
module Supervision {
  import opened Wrappers

  /** The settings of a channel; `rest` stands for the fields that are only compared. */
  datatype Channel = Channel(id: int, isWorking: bool, localATC: string, remoteATC: string, url: string, rest: string)

  /** A running channel process: the settings and the port it was launched with. */
  datatype Process = Process(channel: Channel, port: int)

  datatype DaemonState = Ok | Stopped | Error

  datatype ChannelState = ChannelState(id: int, localName: string, remoteName: string, daemon: DaemonState,
                                       fmtpState: string, url: string)

  datatype StateTime = StateTime(state: ChannelState, time: int)

  const STATE_SEND_INTERVAL := 1000 // milliseconds

  // Settings reconciliation

  ghost predicate Distinct(setts: seq<Channel>) {
    forall i, j :: 0 <= i < j < |setts| ==> setts[i].id != setts[j].id
  }

  /** The first record with an ID, which is what the search loops find. */
  function Find(setts: seq<Channel>, id: int): (r: Option<Channel>) {
    if setts == [] then None
    else if setts[0].id == id then Some(setts[0])
    else Find(setts[1..], id)
  }

  function WorkingIds(setts: seq<Channel>): (r: seq<int>) {
    if setts == [] then []
    else (if setts[0].isWorking then [setts[0].id] else []) + WorkingIds(setts[1..])
  }

  /** Working records of `to` that `from` does not hold as they are. */
  function NewIds(from: seq<Channel>, to: seq<Channel>): (r: seq<int>) {
    if to == [] then []
    else
      (if to[0].isWorking && Find(from, to[0].id) != Some(to[0]) then [to[0].id] else []) + NewIds(from, to[1..])
  }

  /** Working records of `from` that another record of `to` replaces. */
  function ReplacedIds(from: seq<Channel>, to: seq<Channel>): (r: seq<int>) {
    if to == [] then []
    else
      (match Find(from, to[0].id)
       case Some(o) => if o != to[0] && o.isWorking then [o.id] else []
       case None => [])
      + ReplacedIds(from, to[1..])
  }

  /** Working records of `rest` whose ID `to` no longer has. */
  function RemovedIds(rest: seq<Channel>, to: seq<Channel>): (r: seq<int>) {
    if rest == [] then []
    else
      (if Find(to, rest[0].id) == None && rest[0].isWorking then [rest[0].id] else []) + RemovedIds(rest[1..], to)
  }

  datatype Settings = Settings(channels: seq<Channel>, port: int)

  function StartIds(from: Settings, to: Settings): (r: seq<int>) {
    if from.port != to.port then WorkingIds(to.channels)
    else if from.channels == to.channels then []
    else NewIds(from.channels, to.channels)
  }

  function StopIds(from: Settings, to: Settings): (r: seq<int>) {
    if from.port != to.port then WorkingIds(from.channels)
    else if from.channels == to.channels then []
    else ReplacedIds(from.channels, to.channels) + RemovedIds(from.channels, to.channels)
  }

  /**
   * The processes that run: those a stop can reach, by the ID of their channel, and those whose handle was
   * overwritten by a later start under the same ID, which nothing can stop any more.
   */
  datatype Fleet = Fleet(handles: map<int, Process>, strays: multiset<Process>)

  const NO_PROCESSES := Fleet(map[], multiset{})

  function StopAll(f: Fleet, ids: seq<int>): (r: Fleet) {
    f.(handles := map id | id in f.handles && id !in ids :: f.handles[id])
  }

  function Launch(f: Fleet, id: int, p: Process): (r: Fleet) {
    Fleet(f.handles[id := p], f.strays + if id in f.handles then multiset{f.handles[id]} else multiset{})
  }

  function StartAll(f: Fleet, s: Settings, ids: seq<int>): (r: Fleet)
    decreases |ids|
  {
    if ids == [] then f
    else
      var next := match Find(s.channels, ids[0])
                  case Some(c) => Launch(f, ids[0], Process(c, s.port))
                  case None => f;
      StartAll(next, s, ids[1..])
  }

  /** The processes after an update and its delayed start. */
  function Updated(f: Fleet, from: Settings, to: Settings): (r: Fleet) {
    StartAll(StopAll(f, StopIds(from, to)), to, StartIds(from, to))
  }

  /** Nothing runs but working records as they are configured, each at most once. */
  ghost predicate Tidy(f: Fleet, s: Settings) {
    && f.strays == multiset{}
    && forall id :: id in f.handles ==>
         (f.handles[id].channel.id == id && f.handles[id].channel.isWorking
          && f.handles[id].channel in s.channels && f.handles[id].port == s.port)
  }

  /** Exactly the working records run, each once, with these contents and on this port. */
  ghost predicate Reconciled(f: Fleet, s: Settings) {
    && Tidy(f, s)
    && forall c :: c in s.channels && c.isWorking ==> c.id in f.handles && f.handles[c.id].channel == c
  }

  lemma {:induction false} FindIsFirst(setts: seq<Channel>, id: int)
    ensures match Find(setts, id)
            case Some(c) => c in setts && c.id == id
            case None => forall c :: c in setts ==> c.id != id
  {
    if setts != [] {
      FindIsFirst(setts[1..], id);
      assert setts == [setts[0]] + setts[1..];
    }
  }

  /** With distinct IDs the search finds a record exactly if it is there. */
  lemma {:induction false} FindIsMembership(setts: seq<Channel>, c: Channel)
    requires Distinct(setts)
    ensures Find(setts, c.id) == Some(c) <==> c in setts
  {
    if setts != [] {
      FindIsMembership(setts[1..], c);
      FindIsFirst(setts[1..], c.id);
      assert setts == [setts[0]] + setts[1..];
    }
  }

  lemma {:induction false} WorkingIdsAre(setts: seq<Channel>, id: int)
    ensures id in WorkingIds(setts) <==> exists c :: c in setts && c.isWorking && c.id == id
  {
    if setts != [] {
      WorkingIdsAre(setts[1..], id);
      assert setts == [setts[0]] + setts[1..];
    }
  }

  lemma {:induction false} NewIdsAre(from: seq<Channel>, to: seq<Channel>, id: int)
    requires Distinct(from)
    ensures id in NewIds(from, to) <==> exists c :: c in to && c.isWorking && c.id == id && c !in from
  {
    if to != [] {
      NewIdsAre(from, to[1..], id);
      FindIsMembership(from, to[0]);
      assert to == [to[0]] + to[1..];
    }
  }

  lemma {:induction false} ReplacedIdsAre(from: seq<Channel>, to: seq<Channel>, id: int)
    requires Distinct(from)
    ensures id in ReplacedIds(from, to) <==>
            exists o, c :: o in from && o.isWorking && o.id == id && c in to && c.id == id && c != o
  {
    if to != [] {
      ReplacedIdsAre(from, to[1..], id);
      var c := to[0];
      FindIsFirst(from, c.id);
      forall o | o in from && o.id == c.id ensures Find(from, c.id) == Some(o) {
        FindIsMembership(from, o);
      }
      assert to == [c] + to[1..];
    }
  }

  lemma {:induction false} RemovedIdsAre(rest: seq<Channel>, to: seq<Channel>, id: int)
    ensures id in RemovedIds(rest, to) <==>
            exists o :: o in rest && o.isWorking && o.id == id && forall c :: c in to ==> c.id != id
  {
    if rest != [] {
      RemovedIdsAre(rest[1..], to, id);
      FindIsFirst(to, rest[0].id);
      assert rest == [rest[0]] + rest[1..];
    }
  }

  /**
   * What is stopped and what is started, whatever the order of the lists: a working record is stopped exactly if
   * it, or the port, is not kept, and started exactly if it, or the port, is new.
   */
  lemma UpdateTouchesOnlyChanges(from: Settings, to: Settings, id: int)
    requires Distinct(from.channels) && Distinct(to.channels)
    ensures id in StopIds(from, to) <==>
            exists o :: o in from.channels && o.isWorking && o.id == id && (from.port != to.port || o !in to.channels)
    ensures id in StartIds(from, to) <==>
            exists c :: c in to.channels && c.isWorking && c.id == id && (from.port != to.port || c !in from.channels)
  {
    hide WorkingIds, NewIds, ReplacedIds, RemovedIds;
    WorkingIdsAre(from.channels, id);
    WorkingIdsAre(to.channels, id);
    NewIdsAre(from.channels, to.channels, id);
    ReplacedIdsAre(from.channels, to.channels, id);
    RemovedIdsAre(from.channels, to.channels, id);
  }

  /** A running channel whose record and port are unchanged is neither stopped nor started again. */
  lemma KeptRecordIsUntouched(from: Settings, to: Settings, c: Channel)
    requires Distinct(from.channels) && Distinct(to.channels)
    requires from.port == to.port && c in from.channels && c in to.channels
    ensures c.id !in StopIds(from, to) && c.id !in StartIds(from, to)
  {
    UpdateTouchesOnlyChanges(from, to, c.id);
    FindIsMembership(from.channels, c);
    forall o | o in from.channels && o.id == c.id ensures o == c {
      FindIsMembership(from.channels, o);
    }
    FindIsMembership(to.channels, c);
    forall o | o in to.channels && o.id == c.id ensures o == c {
      FindIsMembership(to.channels, o);
    }
  }

  // Starts

  ghost predicate NoRepeats(ids: seq<int>) {
    forall i, j :: 0 <= i < j < |ids| ==> ids[i] != ids[j]
  }

  lemma {:induction false} NewIdsAreDistinct(from: seq<Channel>, to: seq<Channel>)
    requires Distinct(from) && Distinct(to)
    ensures NoRepeats(NewIds(from, to)) && NoRepeats(WorkingIds(to))
  {
    if to != [] {
      NewIdsAreDistinct(from, to[1..]);
      NewIdsAre(from, to[1..], to[0].id);
      WorkingIdsAre(to[1..], to[0].id);
      forall c | c in to[1..] ensures c.id != to[0].id {
        var i :| 0 <= i < |to[1..]| && to[1..][i] == c;
      }
    }
  }

  lemma StartIdsAreDistinct(from: Settings, to: Settings)
    requires Distinct(from.channels) && Distinct(to.channels)
    ensures NoRepeats(StartIds(from, to))
  {
    NewIdsAreDistinct(from.channels, to.channels);
  }

  lemma {:induction false} StartAllAdds(f: Fleet, s: Settings, ids: seq<int>, id: int)
    ensures var after := StartAll(f, s, ids).handles;
            if id in ids && Find(s.channels, id).Some? then
              id in after && after[id] == Process(Find(s.channels, id).value, s.port)
            else (id in after <==> id in f.handles) && (id in f.handles ==> after[id] == f.handles[id])
    decreases |ids|
  {
    if ids != [] {
      var next := match Find(s.channels, ids[0])
                  case Some(c) => Launch(f, ids[0], Process(c, s.port))
                  case None => f;
      StartAllAdds(next, s, ids[1..], id);
      assert ids == [ids[0]] + ids[1..];
    }
  }

  /** A start leaves a process behind exactly if it finds one under an ID that is configured. */
  lemma {:induction false} StartAllStrays(f: Fleet, s: Settings, ids: seq<int>)
    requires NoRepeats(ids)
    ensures StartAll(f, s, ids).strays == multiset{}
       <==> f.strays == multiset{} && forall id :: id in ids && id in f.handles ==> Find(s.channels, id) == None
    decreases |ids|
  {
    if ids != [] {
      var next := match Find(s.channels, ids[0])
                  case Some(c) => Launch(f, ids[0], Process(c, s.port))
                  case None => f;
      StartAllStrays(next, s, ids[1..]);
      assert ids == [ids[0]] + ids[1..];
      assert ids[0] !in ids[1..];
    }
  }

  /** Every record that a start finds works, and none of them runs yet. */
  ghost predicate CleanStart(f: Fleet, s: Settings, ids: seq<int>) {
    forall c :: c in s.channels && c.id in ids ==> c.isWorking && c.id !in f.handles
  }

  /** A start keeps the fleet tidy exactly if it is clean. */
  lemma StartKeepsTidyIff(f: Fleet, s: Settings, ids: seq<int>)
    requires Distinct(s.channels) && NoRepeats(ids) && Tidy(f, s)
    ensures Tidy(StartAll(f, s, ids), s) <==> CleanStart(f, s, ids)
  {
    var after := StartAll(f, s, ids);
    StartAllStrays(f, s, ids);
    if CleanStart(f, s, ids) {
      forall id | id in ids && id in f.handles ensures Find(s.channels, id) == None {
        FindIsFirst(s.channels, id);
      }
      forall id | id in after.handles
        ensures after.handles[id].channel.id == id && after.handles[id].channel.isWorking
                && after.handles[id].channel in s.channels && after.handles[id].port == s.port
      {
        StartAllAdds(f, s, ids, id);
        FindIsFirst(s.channels, id);
      }
    } else {
      var c :| c in s.channels && c.id in ids && !(c.isWorking && c.id !in f.handles);
      FindIsMembership(s.channels, c);
      StartAllAdds(f, s, ids, c.id);
    }
  }

  /** Stopping what an update replaces leaves nothing that the new settings do not want. */
  lemma StopKeepsTidy(f: Fleet, from: Settings, to: Settings)
    requires Distinct(from.channels) && Distinct(to.channels) && Tidy(f, from)
    ensures Tidy(StopAll(f, StopIds(from, to)), to)
  {
    forall id | id in f.handles && id !in StopIds(from, to)
      ensures f.handles[id].channel in to.channels && f.handles[id].port == to.port
    {
      UpdateTouchesOnlyChanges(from, to, id);
    }
  }

  /** No start of an update finds its channel still running after the stops. */
  lemma StartsFindNothingRunning(f: Fleet, from: Settings, to: Settings, id: int)
    requires Distinct(from.channels) && Distinct(to.channels) && Tidy(f, from)
    requires id in StartIds(from, to)
    ensures id !in StopAll(f, StopIds(from, to)).handles
  {
    UpdateTouchesOnlyChanges(from, to, id);
    if id in f.handles && id !in StopIds(from, to) {
      var o := f.handles[id].channel;
      var c :| c in to.channels && c.isWorking && c.id == id && (from.port != to.port || c !in from.channels);
      FindIsMembership(to.channels, c);
      FindIsMembership(to.channels, o);
      assert false;
    }
  }

  lemma StartedRecordsWork(from: Settings, to: Settings, c: Channel)
    requires Distinct(from.channels) && Distinct(to.channels)
    requires c in to.channels && c.id in StartIds(from, to)
    ensures c.isWorking
  {
    UpdateTouchesOnlyChanges(from, to, c.id);
    var o :| o in to.channels && o.isWorking && o.id == c.id;
    FindIsMembership(to.channels, c);
    FindIsMembership(to.channels, o);
  }

  /** Reconciliation: one update takes the processes of the old settings to those of the new. */
  lemma UpdateReconciles(f: Fleet, from: Settings, to: Settings)
    requires Distinct(from.channels) && Distinct(to.channels) && Reconciled(f, from)
    ensures Reconciled(Updated(f, from, to), to)
  {
    var ids, stopped := StartIds(from, to), StopAll(f, StopIds(from, to));
    StopKeepsTidy(f, from, to);
    StartIdsAreDistinct(from, to);
    forall c | c in to.channels && c.id in ids ensures c.isWorking && c.id !in stopped.handles {
      StartedRecordsWork(from, to, c);
      StartsFindNothingRunning(f, from, to, c.id);
    }
    StartKeepsTidyIff(stopped, to, ids);
    forall c | c in to.channels && c.isWorking
      ensures c.id in Updated(f, from, to).handles && Updated(f, from, to).handles[c.id].channel == c
    {
      StartAllAdds(stopped, to, ids, c.id);
      UpdateTouchesOnlyChanges(from, to, c.id);
      FindIsMembership(to.channels, c);
      if c.id !in ids {
        KeptRecordIsUntouched(from, to, c);
      }
    }
  }

  ghost predicate AllDistinct(updates: seq<Settings>) {
    forall i :: 0 <= i < |updates| ==> Distinct(updates[i].channels)
  }

  function AfterUpdates(updates: seq<Settings>): (r: (Fleet, Settings)) {
    if updates == [] then (NO_PROCESSES, Settings([], 0))
    else
      var (f, from) := AfterUpdates(updates[..|updates| - 1]);
      var to := updates[|updates| - 1];
      (Updated(f, from, to), to)
  }

  /** Over any sequence of updates the processes are those of the latest settings. */
  lemma {:induction false} AlwaysReconciled(updates: seq<Settings>)
    requires AllDistinct(updates)
    ensures var (f, s) := AfterUpdates(updates); Distinct(s.channels) && Reconciled(f, s)
  {
    if updates != [] {
      AlwaysReconciled(updates[..|updates| - 1]);
      var (f, from) := AfterUpdates(updates[..|updates| - 1]);
      UpdateReconciles(f, from, updates[|updates| - 1]);
    }
  }

  // Channel states

  function Initial(c: Channel, now: int): (r: StateTime) {
    var daemon := if c.isWorking then Error else Stopped;
    StateTime(ChannelState(c.id, c.localATC, c.remoteATC, daemon, "disabled", c.url), now)
  }

  function InitAll(states: map<int, StateTime>, now: int, channels: seq<Channel>): (r: map<int, StateTime>)
    decreases |channels|
  {
    if channels == [] then states
    else InitAll(states[channels[0].id := Initial(channels[0], now)], now, channels[1..])
  }

  /** Records of `to` that `from` does not hold as they are. */
  function Changed(from: seq<Channel>, to: seq<Channel>): (r: seq<Channel>) {
    if to == [] then []
    else (if Find(from, to[0].id) != Some(to[0]) then [to[0]] else []) + Changed(from, to[1..])
  }

  /** The records whose state an update starts anew. */
  function ToInit(from: Settings, to: Settings): (r: seq<Channel>) {
    if from.port != to.port then to.channels
    else if from.channels == to.channels then []
    else Changed(from.channels, to.channels)
  }

  function StatesUpdated(states: map<int, StateTime>, now: int, from: Settings, to: Settings)
      : (r: map<int, StateTime>)
  {
    InitAll(states, now, ToInit(from, to))
  }

  predicate IsStale(st: StateTime, now: int) {
    st.time + 10 * STATE_SEND_INTERVAL < now
  }

  function FindWorking(setts: seq<Channel>, id: int): (r: Option<Channel>) {
    if setts == [] then None
    else if setts[0].id == id && setts[0].isWorking then Some(setts[0])
    else FindWorking(setts[1..], id)
  }

  function Refreshed(st: StateTime, id: int, now: int, setts: seq<Channel>): (r: StateTime) {
    if IsStale(st, now) && FindWorking(setts, id).Some? then Initial(FindWorking(setts, id).value, now) else st
  }

  /** The tick: stale entries of channels that should work start anew, all others stay. */
  function Ticked(states: map<int, StateTime>, now: int, setts: seq<Channel>): (r: map<int, StateTime>) {
    map id | id in states :: Refreshed(states[id], id, now, setts)
  }

  /** Every configured channel has an entry. */
  ghost predicate Covered(states: map<int, StateTime>, setts: seq<Channel>) {
    forall c :: c in setts ==> c.id in states
  }

  lemma InitFirst(states: map<int, StateTime>, now: int, c: Channel, rest: seq<Channel>)
    ensures InitAll(states, now, [c] + rest) == InitAll(states[c.id := Initial(c, now)], now, rest)
  {
    assert ([c] + rest)[1..] == rest;
  }

  /** Starting states anew adds exactly the entries of the records given and leaves all others alone. */
  lemma {:induction false} InitAllCovers(states: map<int, StateTime>, now: int, channels: seq<Channel>, id: int)
    ensures var after := InitAll(states, now, channels);
            if exists c :: c in channels && c.id == id then
              id in after && after[id].time == now
              && exists c :: c in channels && c.id == id && after[id] == Initial(c, now)
            else (id in after <==> id in states) && (id in states ==> after[id] == states[id])
    decreases |channels|
  {
    if channels != [] {
      var c := channels[0];
      InitAllCovers(states[c.id := Initial(c, now)], now, channels[1..], id);
      assert channels == [c] + channels[1..];
    }
  }

  lemma {:induction false} ChangedAre(from: seq<Channel>, to: seq<Channel>, c: Channel)
    ensures c in Changed(from, to) <==> c in to && Find(from, c.id) != Some(c)
  {
    if to != [] {
      ChangedAre(from, to[1..], c);
      assert to == [to[0]] + to[1..];
    }
  }

  lemma UpdateCovers(states: map<int, StateTime>, now: int, from: Settings, to: Settings)
    requires Covered(states, from.channels)
    ensures Covered(StatesUpdated(states, now, from, to), to.channels)
  {
    forall c | c in to.channels ensures c.id in StatesUpdated(states, now, from, to) {
      InitAllCovers(states, now, ToInit(from, to), c.id);
      ChangedAre(from.channels, to.channels, c);
      FindIsFirst(from.channels, c.id);
    }
  }

  lemma {:induction false} FindWorkingFinds(setts: seq<Channel>, id: int)
    ensures match FindWorking(setts, id)
            case Some(c) => c in setts && c.id == id && c.isWorking
            case None => forall c :: c in setts && c.isWorking ==> c.id != id
  {
    if setts != [] {
      FindWorkingFinds(setts[1..], id);
      assert setts == [setts[0]] + setts[1..];
    }
  }

  /** The entry of a record that was started anew: not reported yet, in error if the channel should work. */
  ghost predicate IsFresh(st: StateTime, c: Channel, now: int) {
    && st.time == now && st.state.id == c.id
    && st.state.localName == c.localATC && st.state.remoteName == c.remoteATC && st.state.url == c.url
    && st.state.daemon == (if c.isWorking then Error else Stopped)
    && st.state.fmtpState == "disabled"
  }

  /**
   * A tick in numbers: the entry of a working channel is started anew if it is more than 10 seconds old, and left
   * alone if it is not; so afterwards none is older.
   */
  lemma TickRefreshes(states: map<int, StateTime>, now: int, setts: seq<Channel>, c: Channel)
    requires c in setts && c.isWorking && c.id in states
    ensures var st, age := Ticked(states, now, setts)[c.id], now - states[c.id].time;
            && (age <= 10_000 ==> st == states[c.id])
            && (age > 10_000 ==> exists d :: d in setts && d.isWorking && d.id == c.id && IsFresh(st, d, now))
            && now - st.time <= 10_000
  {
    FindWorkingFinds(setts, c.id);
    var found := FindWorking(setts, c.id).value;
    assert IsFresh(Initial(found, now), found, now);
  }

  /** The same for all entries at once. */
  lemma TickInNumbers(states: map<int, StateTime>, now: int, setts: seq<Channel>)
    ensures forall id :: id in states && now - states[id].time <= 10_000 ==>
                           Ticked(states, now, setts)[id] == states[id]
    ensures forall c :: c in setts && c.isWorking && c.id in states && now - states[c.id].time > 10_000 ==>
                          Ticked(states, now, setts)[c.id].time == now
  {
    forall c | c in setts && c.isWorking && c.id in states && now - states[c.id].time > 10_000
      ensures Ticked(states, now, setts)[c.id].time == now
    {
      TickRefreshes(states, now, setts, c);
    }
  }

  /** A tick leaves all other entries alone, however old, and adds and drops none. */
  lemma TickLeavesOthers(states: map<int, StateTime>, now: int, setts: seq<Channel>, id: int)
    ensures id in Ticked(states, now, setts) <==> id in states
    ensures id in states && (forall c :: c in setts && c.isWorking ==> c.id != id) ==>
              Ticked(states, now, setts)[id] == states[id]
  {
    FindWorkingFinds(setts, id);
  }

  /** Which entries an update starts anew: those of new and changed records, and all of them with a new port. */
  lemma UpdateRestarts(states: map<int, StateTime>, now: int, from: Settings, to: Settings, c: Channel)
    requires Distinct(from.channels) && Distinct(to.channels) && Covered(states, from.channels) && c in to.channels
    ensures c.id in StatesUpdated(states, now, from, to)
    ensures var st := StatesUpdated(states, now, from, to)[c.id];
            if from.port != to.port || c !in from.channels then IsFresh(st, c, now)
            else c.id in states && st == states[c.id]
  {
    InitAllCovers(states, now, ToInit(from, to), c.id);
    FindIsMembership(from.channels, c);
    forall d ensures d in Changed(from.channels, to.channels) && d.id == c.id <==>
                     d == c && Find(from.channels, c.id) != Some(c)
    {
      ChangedAre(from.channels, to.channels, d);
      FindIsMembership(to.channels, c);
      FindIsMembership(to.channels, d);
    }
    FindIsMembership(to.channels, c);
    forall d | d in to.channels && d.id == c.id ensures d == c {
      FindIsMembership(to.channels, d);
    }
    assert IsFresh(Initial(c, now), c, now);
  }

  /** It leaves the entries of channels that are not configured any more. */
  lemma UpdateLeavesOthers(states: map<int, StateTime>, now: int, from: Settings, to: Settings, id: int)
    requires forall c :: c in to.channels ==> c.id != id
    ensures id in StatesUpdated(states, now, from, to) <==> id in states
    ensures id in states ==> StatesUpdated(states, now, from, to)[id] == states[id]
  {
    InitAllCovers(states, now, ToInit(from, to), id);
    forall c | c in Changed(from.channels, to.channels) ensures c in to.channels {
      ChangedAre(from.channels, to.channels, c);
    }
  }

  datatype Step =
    | Update(now: int, to: Settings)
    | Heartbeat(now: int, id: int, state: ChannelState)
    | Tick(now: int)

  datatype Map = Map(states: map<int, StateTime>, setts: Settings)

  function Take(m: Map, step: Step): (r: Map) {
    match step
    case Update(now, to) => Map(StatesUpdated(m.states, now, m.setts, to), to)
    case Heartbeat(now, id, state) => m.(states := m.states[id := StateTime(state, now)])
    case Tick(now) => m.(states := Ticked(m.states, now, m.setts.channels))
  }

  function MapAfter(steps: seq<Step>): (r: Map) {
    if steps == [] then Map(map[], Settings([], 0)) else Take(MapAfter(steps[..|steps| - 1]), steps[|steps| - 1])
  }

  /**
   * Over any sequence of updates, heartbeats and ticks every configured channel has an entry; right after a
   * tick none of a working channel is older than 10 seconds.
   */
  lemma {:induction false} StatesAreKept(steps: seq<Step>)
    ensures Covered(MapAfter(steps).states, MapAfter(steps).setts.channels)
    ensures steps != [] && steps[|steps| - 1].Tick? ==>
              forall c :: c in MapAfter(steps).setts.channels && c.isWorking ==>
                            steps[|steps| - 1].now - MapAfter(steps).states[c.id].time <= 10_000
  {
    if steps != [] {
      var before := MapAfter(steps[..|steps| - 1]);
      StatesAreKept(steps[..|steps| - 1]);
      match steps[|steps| - 1] {
        case Update(now, to) => UpdateCovers(before.states, now, before.setts, to);
        case Heartbeat(now, id, state) =>
        case Tick(now) =>
          forall c | c in before.setts.channels && c.isWorking
            ensures now - MapAfter(steps).states[c.id].time <= 10_000
          {
            TickRefreshes(before.states, now, before.setts.channels, c);
          }
      }
    }
  }

  /** What a channel reports holds for 10 seconds: the ticks within that time do not touch it. */
  lemma {:induction false} HeartbeatHolds(steps: seq<Step>, now: int, id: int, state: ChannelState, ticks: seq<Step>)
    requires forall i :: 0 <= i < |ticks| ==> ticks[i].Tick? && ticks[i].now <= now + 10_000
    ensures var m := MapAfter(steps + [Heartbeat(now, id, state)] + ticks);
            id in m.states && m.states[id] == StateTime(state, now)
  {
    var all := steps + [Heartbeat(now, id, state)] + ticks;
    if ticks == [] {
      assert all[..|all| - 1] == steps;
    } else {
      var front, last := ticks[..|ticks| - 1], ticks[|ticks| - 1];
      assert all[..|all| - 1] == steps + [Heartbeat(now, id, state)] + front;
      HeartbeatHolds(steps, now, id, state, front);
      var before := MapAfter(all[..|all| - 1]);
      FindWorkingFinds(before.setts.channels, id);
      if c :| c in before.setts.channels && c.isWorking && c.id == id {
        TickRefreshes(before.states, last.now, before.setts.channels, c);
      } else {
        TickLeavesOthers(before.states, last.now, before.setts.channels, id);
      }
    }
  }

  /** And no longer: the first tick after that takes a working channel for failed. */
  lemma HeartbeatRunsOut(steps: seq<Step>, now: int, id: int, state: ChannelState, later: int)
    requires later > now + 10_000
    requires exists c :: c in MapAfter(steps).setts.channels && c.isWorking && c.id == id
    ensures var m := MapAfter(steps + [Heartbeat(now, id, state), Tick(later)]);
            id in m.states && m.states[id].time == later
            && m.states[id].state.daemon == Error && m.states[id].state.fmtpState == "disabled"
  {
    var all := steps + [Heartbeat(now, id, state), Tick(later)];
    assert all[..|all| - 1] == steps + [Heartbeat(now, id, state)];
    HeartbeatHolds(steps, now, id, state, []);
    assert steps + [Heartbeat(now, id, state)] + [] == steps + [Heartbeat(now, id, state)];
    var before := MapAfter(all[..|all| - 1]);
    assert (steps + [Heartbeat(now, id, state)])[..|steps|] == steps;
    var c :| c in before.setts.channels && c.isWorking && c.id == id;
    TickRefreshes(before.states, later, before.setts.channels, c);
  }
}
