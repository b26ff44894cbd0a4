/**
 * The log pipeline: entries appended to a stream, read and deleted by the reader, passed on in batches and
 * dispatched to the database.
 */
module LogPipeline {
  import opened Wrappers
  import opened LogCodec
  import opened Dispatch

  /** An entry of the stream; its value is absent if the message key is missing or holds no string. */
  datatype Entry = Entry(id: nat, value: Option<string>)

  /** `handed` holds all entries ever read, `batches` the batches still on their way to the dispatcher. */
  datatype Reader = Reader(
    stream: seq<Entry>,
    prevReadIds: seq<nat>,
    handed: seq<Entry>,
    batches: seq<seq<LogMessage>>)

  /** A deletion is carried out, refused, or carried out with the answer lost. */
  datatype Deletion = Deleted | Refused | Unheard

  // The stream

  function XDel(stream: seq<Entry>, ids: seq<nat>): (r: seq<Entry>) {
    if stream == [] then []
    else (if stream[0].id in ids then [] else [stream[0]]) + XDel(stream[1..], ids)
  }

  /** The first `count` entries; a count that is not positive sets no limit. */
  function XRead(stream: seq<Entry>, count: int): (r: seq<Entry>) {
    if 0 < count < |stream| then stream[..count] else stream
  }

  function Ids(entries: seq<Entry>): (ids: seq<nat>)
    ensures |ids| == |entries| && forall i :: 0 <= i < |ids| ==> ids[i] == entries[i].id
  {
    if entries == [] then [] else [entries[0].id] + Ids(entries[1..])
  }

  function ParsedEntry(e: Entry): (r: seq<LogMessage>) {
    match e.value
    case Some(s) => (match UnmarshalFromString(s) case Success(lm) => [lm] case Failure(_) => [])
    case None => []
  }

  function Parsed(entries: seq<Entry>): (r: seq<LogMessage>) {
    if entries == [] then [] else ParsedEntry(entries[0]) + Parsed(entries[1..])
  }

  // The reader

  function AfterDeletion(r: Reader, del: Deletion): (q: Reader) {
    if r.prevReadIds == [] || del == Refused then r
    else
      var left := r.(stream := XDel(r.stream, r.prevReadIds));
      if del == Deleted then left.(prevReadIds := []) else left
  }

  function AfterRead(r: Reader, count: int): (q: Reader) {
    var entries := XRead(r.stream, count);
    Reader(r.stream, r.prevReadIds + Ids(entries), r.handed + entries,
           if Parsed(entries) == [] then r.batches else r.batches + [Parsed(entries)])
  }

  /** One request for logs: what was read before is deleted, then the head of the stream is read. */
  function Requested(r: Reader, del: Deletion, readOk: bool, count: int): (q: Reader) {
    if readOk then AfterRead(AfterDeletion(r, del), count) else AfterDeletion(r, del)
  }

  // The whole pipeline

  datatype Sys = Sys(appended: seq<Entry>, reader: Reader, dispatcher: Dispatcher)

  const EMPTY := Sys([], Reader([], [], [], []), FRESH)

  datatype Event =
    | Append(value: Option<string>)
    | Request(del: Deletion, readOk: bool, count: int)
    | Deliver
    | Dispatch(action: Action)

  ghost predicate Possible(s: Sys, ev: Event) {
    && (ev.Deliver? ==> s.reader.batches != [])
    && (ev.Dispatch? ==> !ev.action.Receive? && Enabled(s.dispatcher, ev.action))
  }

  ghost predicate Moves(s: Sys, ev: Event, after: Sys)
    requires Possible(s, ev)
  {
    match ev
    case Append(value) =>
      var e := Entry(|s.appended|, value);
      after == s.(appended := s.appended + [e], reader := s.reader.(stream := s.reader.stream + [e]))
    case Request(del, readOk, count) => after == s.(reader := Requested(s.reader, del, readOk, count))
    case Deliver =>
      && after.appended == s.appended && after.reader == s.reader.(batches := s.reader.batches[1..])
      && Next(s.dispatcher, Receive(s.reader.batches[0]), after.dispatcher)
    case Dispatch(action) =>
      after.appended == s.appended && after.reader == s.reader && Next(s.dispatcher, action, after.dispatcher)
  }

  /** The entries of the stream that were never handed over. */
  function Unread(s: Sys): (r: seq<Entry>) {
    XDel(s.reader.stream, Ids(s.reader.handed))
  }

  /** Where each record is: dispatched, buffered, on its way, or unread. */
  function Accounted(s: Sys): (r: seq<LogMessage>) {
    Held(s.dispatcher) + Concat(s.reader.batches) + Parsed(Unread(s))
  }

  /**
   * A request whose deletion is refused and which then reads an entry that holds a record and that it was to
   * delete. Only the stream and the IDs kept from the reads before decide it.
   */
  predicate Rereads(s: Sys, ev: Event) {
    && ev.Request? && ev.del == Refused && ev.readOk
    && exists e :: e in XRead(s.reader.stream, ev.count) && e.id in s.reader.prevReadIds && ParsedEntry(e) != []
  }

  // The invariant; `reached` counts the entries handed over at least once

  ghost predicate IdsArePositions(appended: seq<Entry>) {
    forall i :: 0 <= i < |appended| ==> appended[i].id == i
  }

  ghost predicate IdsCover(ids: seq<nat>, gone: nat, reached: nat) {
    && (forall id :: gone <= id < reached ==> id in ids)
    && (forall id :: id in ids ==> id < reached)
  }

  ghost predicate HandedReach(appended: seq<Entry>, handed: seq<Entry>, reached: nat)
    requires reached <= |appended|
  {
    && (forall e :: e in handed ==> e.id < reached && e == appended[e.id])
    && (forall i :: 0 <= i < reached ==> appended[i] in handed)
  }

  ghost predicate StreamInv(s: Sys, reached: nat) {
    var r := s.reader;
    var gone := |s.appended| - |r.stream|;
    && IdsArePositions(s.appended)
    && 0 <= gone <= reached <= |s.appended| && r.stream == s.appended[gone..]
    && IdsCover(r.prevReadIds, gone, reached)
    && HandedReach(s.appended, r.handed, reached)
  }

  ghost predicate FlowInv(s: Sys) {
    NoInserts(s.dispatcher.queue) && Held(s.dispatcher) + Concat(s.reader.batches) == Parsed(s.reader.handed)
  }

  lemma Assoc<T>(a: seq<T>, b: seq<T>, c: seq<T>)
    ensures a + (b + c) == (a + b) + c
  {
  }

  lemma {:induction false} ParsedConcat(a: seq<Entry>, b: seq<Entry>)
    ensures Parsed(a + b) == Parsed(a) + Parsed(b)
  {
    hide ParsedEntry;
    if a == [] {
      assert a + b == b;
    } else {
      ParsedConcat(a[1..], b);
      assert (a + b)[0] == a[0] && (a + b)[1..] == a[1..] + b;
      Assoc(ParsedEntry(a[0]), Parsed(a[1..]), Parsed(b));
    }
  }

  lemma {:induction false} ParsedOf(entries: seq<Entry>)
    ensures Parsed(entries) != [] <==> exists e :: e in entries && ParsedEntry(e) != []
  {
    if entries != [] {
      ParsedOf(entries[1..]);
      assert entries == [entries[0]] + entries[1..];
    }
  }

  /** Deleting IDs that cover a prefix of the stream and nothing behind it leaves what is behind. */
  lemma {:induction false} XDelDropsPrefix(stream: seq<Entry>, ids: seq<nat>, n: nat)
    requires n <= |stream|
    requires forall i :: 0 <= i < |stream| ==> (stream[i].id in ids <==> i < n)
    ensures XDel(stream, ids) == stream[n..]
  {
    if stream != [] {
      XDelDropsPrefix(stream[1..], ids, if n > 0 then n - 1 else 0);
    }
  }

  lemma UnreadIsBehind(s: Sys, reached: nat)
    requires StreamInv(s, reached)
    ensures Unread(s) == s.appended[reached..]
  {
    hide IdsCover;
    var gone := |s.appended| - |s.reader.stream|;
    var ids := Ids(s.reader.handed);
    forall i | 0 <= i < |s.reader.stream| ensures s.reader.stream[i].id in ids <==> i < reached - gone {
      var e := s.reader.stream[i];
      assert e == s.appended[gone + i];
      if e.id in ids {
        var k :| 0 <= k < |ids| && ids[k] == e.id;
        assert s.reader.handed[k] in s.reader.handed;
      }
      if i < reached - gone {
        var k :| 0 <= k < |s.reader.handed| && s.reader.handed[k] == e;
        assert ids[k] == e.id;
      }
    }
    XDelDropsPrefix(s.reader.stream, ids, reached - gone);
  }

  // The steps

  lemma DeletionKeeps(s: Sys, reached: nat, del: Deletion)
    requires StreamInv(s, reached)
    ensures var after := s.(reader := AfterDeletion(s.reader, del));
            StreamInv(after, reached) && (del != Refused ==> after.reader.stream == s.appended[reached..])
  {
    hide XDel, HandedReach, IdsArePositions;
    var gone := |s.appended| - |s.reader.stream|;
    if s.reader.prevReadIds == [] {
      assert gone < reached ==> gone in s.reader.prevReadIds;
    } else if del != Refused {
      PrevIdsCoverPrefix(s, reached);
      assert s.reader.stream[reached - gone..] == s.appended[reached..];
    }
  }

  lemma PrevIdsCoverPrefix(s: Sys, reached: nat)
    requires StreamInv(s, reached)
    ensures var r := s.reader;
            XDel(r.stream, r.prevReadIds) == r.stream[reached - (|s.appended| - |r.stream|)..]
  {
    hide HandedReach;
    var r := s.reader;
    var gone := |s.appended| - |r.stream|;
    forall i | 0 <= i < |r.stream| ensures r.stream[i].id in r.prevReadIds <==> i < reached - gone {
      assert r.stream[i] == s.appended[gone + i];
    }
    XDelDropsPrefix(r.stream, r.prevReadIds, reached - gone);
  }

  function Max(a: nat, b: nat): (r: nat) {
    if a > b then a else b
  }

  /** How far the records handed over reach after a read of `count` entries. */
  function ReachedBy(s: Sys, reached: nat, count: int): (r: nat)
    requires |s.appended| >= |s.reader.stream|
  {
    Max(reached, |s.appended| - |s.reader.stream| + |XRead(s.reader.stream, count)|)
  }

  lemma ReadKeeps(s: Sys, reached: nat, count: int)
    requires StreamInv(s, reached)
    ensures StreamInv(s.(reader := AfterRead(s.reader, count)), ReachedBy(s, reached, count))
  {
    hide Parsed, XRead, Ids, IdsCover, HandedReach, IdsArePositions;
    HeadIsSlice(s, reached, count);
    IdsReach(s, reached, XRead(s.reader.stream, count));
    HandedReaches(s, reached, XRead(s.reader.stream, count));
  }

  /** What is read is what stands in the history from the start of the stream on. */
  lemma HeadIsSlice(s: Sys, reached: nat, count: int)
    requires StreamInv(s, reached)
    ensures var gone := |s.appended| - |s.reader.stream|;
            var entries := XRead(s.reader.stream, count);
            gone + |entries| <= |s.appended| && entries == s.appended[gone..gone + |entries|]
  {
    hide IdsCover, HandedReach, IdsArePositions;
  }

  lemma XReadIsPrefix(stream: seq<Entry>, count: int)
    ensures |XRead(stream, count)| <= |stream| && XRead(stream, count) == stream[..|XRead(stream, count)|]
  {
  }

  lemma IdsReach(s: Sys, reached: nat, entries: seq<Entry>)
    requires StreamInv(s, reached)
    requires var gone := |s.appended| - |s.reader.stream|;
             gone + |entries| <= |s.appended| && entries == s.appended[gone..gone + |entries|]
    ensures var gone := |s.appended| - |s.reader.stream|;
            IdsCover(s.reader.prevReadIds + Ids(entries), gone, Max(reached, gone + |entries|))
  {
    hide HandedReach, IdsCover, IdsArePositions, Ids;
    var gone := |s.appended| - |s.reader.stream|;
    IdsAreConsecutive(s.appended, gone, entries);
    CoverGrows(s.reader.prevReadIds, gone, reached, Ids(entries));
  }

  lemma IdsAreConsecutive(appended: seq<Entry>, gone: nat, entries: seq<Entry>)
    requires IdsArePositions(appended)
    requires gone + |entries| <= |appended| && entries == appended[gone..gone + |entries|]
    ensures forall k :: 0 <= k < |Ids(entries)| ==> Ids(entries)[k] == gone + k
  {
    forall k | 0 <= k < |Ids(entries)| ensures Ids(entries)[k] == gone + k {
      assert entries[k] == appended[gone + k];
    }
  }

  lemma CoverGrows(ids: seq<nat>, gone: nat, reached: nat, more: seq<nat>)
    requires IdsCover(ids, gone, reached) && forall k :: 0 <= k < |more| ==> more[k] == gone + k
    ensures IdsCover(ids + more, gone, Max(reached, gone + |more|))
  {
    forall id | reached <= id < gone + |more| && gone <= id ensures id in more {
      assert more[id - gone] == id;
    }
  }

  lemma HandedReaches(s: Sys, reached: nat, entries: seq<Entry>)
    requires StreamInv(s, reached)
    requires var gone := |s.appended| - |s.reader.stream|;
             gone + |entries| <= |s.appended| && entries == s.appended[gone..gone + |entries|]
    ensures var reachedNow := Max(reached, |s.appended| - |s.reader.stream| + |entries|);
            HandedReach(s.appended, s.reader.handed + entries, reachedNow)
  {
    hide IdsCover;
    var gone := |s.appended| - |s.reader.stream|;
    forall e | e in entries ensures e.id < gone + |entries| && e == s.appended[e.id] {
      var k :| 0 <= k < |entries| && entries[k] == e;
      assert e == s.appended[gone + k];
    }
    forall i | reached <= i < gone + |entries| ensures s.appended[i] in entries {
      assert entries[i - gone] == s.appended[i];
    }
  }

  /** A read repeats what it takes from before `reached`, and moves the rest from unread to handed over. */
  lemma ReadAccounts(s: Sys, reached: nat, count: int)
    requires StreamInv(s, reached)
    ensures var gone := |s.appended| - |s.reader.stream|;
            var entries := XRead(s.reader.stream, count);
            var again := if gone + |entries| <= reached then entries else entries[..reached - gone];
            var unread := Parsed(s.appended[reached..]);
            var unreadNow := Parsed(s.appended[ReachedBy(s, reached, count)..]);
            && Parsed(again) + unread == Parsed(entries) + unreadNow
            && again == s.appended[gone..gone + |again|] && gone + |again| <= reached
  {
    hide Parsed, XRead, IdsCover, HandedReach, IdsArePositions;
    var gone := |s.appended| - |s.reader.stream|;
    var entries := XRead(s.reader.stream, count);
    XReadIsPrefix(s.reader.stream, count);
    var upTo := gone + |entries|;
    assert entries == s.appended[gone..upTo];
    if upTo > reached {
      var again, newer := entries[..reached - gone], s.appended[reached..upTo];
      CutAt(s.appended, gone, reached, upTo);
      ParsedConcat(again, newer);
      ParsedConcat(newer, s.appended[upTo..]);
    }
  }

  lemma CutAt<T>(s: seq<T>, a: nat, b: nat, c: nat)
    requires a <= b <= c <= |s|
    ensures s[a..c] == s[a..b] + s[b..c] && s[a..c][..b - a] == s[a..b] && s[b..] == s[b..c] + s[c..]
  {
  }

  lemma ReadKeepsFlow(s: Sys, count: int)
    requires FlowInv(s)
    ensures FlowInv(s.(reader := AfterRead(s.reader, count)))
  {
    hide Parsed, Concat, Held;
    var entries := XRead(s.reader.stream, count);
    ParsedConcat(s.reader.handed, entries);
    ConcatOneMore(s.reader.batches, Parsed(entries));
  }

  /** Which step moves how far: only a successful read hands over more. */
  ghost function ReachedAfter(s: Sys, reached: nat, ev: Event): (r: nat) {
    var left := s.(reader := AfterDeletion(s.reader, if ev.Request? then ev.del else Refused));
    if ev.Request? && ev.readOk && |s.appended| >= |left.reader.stream| then ReachedBy(left, reached, ev.count)
    else reached
  }

  lemma StepKeeps(s: Sys, reached: nat, ev: Event, after: Sys)
    requires StreamInv(s, reached) && FlowInv(s) && Possible(s, ev) && Moves(s, ev, after)
    ensures StreamInv(after, ReachedAfter(s, reached, ev)) && FlowInv(after)
  {
    hide Next, Parsed, Held, ParsedEntry, XDel;
    match ev {
      case Append(value) =>
      case Request(del, readOk, count) =>
        DeletionKeeps(s, reached, del);
        var left := s.(reader := AfterDeletion(s.reader, del));
        if readOk {
          ReadKeeps(left, reached, count);
          ReadKeepsFlow(left, count);
        }
      case Deliver => StepConserves(s.dispatcher, Receive(s.reader.batches[0]), after.dispatcher);
      case Dispatch(action) => StepConserves(s.dispatcher, action, after.dispatcher);
    }
  }

  /** Given the flow, the records accounted for are those handed over and those unread. */
  lemma AccountedIs(s: Sys, reached: nat)
    requires StreamInv(s, reached) && FlowInv(s)
    ensures Accounted(s) == Parsed(s.reader.handed) + Parsed(s.appended[reached..])
  {
    hide StreamInv, XDel, Parsed, Concat, Held;
    UnreadIsBehind(s, reached);
  }

  /** Every step accounts for the records exactly, but for those it reads again. */
  lemma StepAccounts(s: Sys, reached: nat, ev: Event, after: Sys)
    requires StreamInv(s, reached) && FlowInv(s) && Possible(s, ev) && Moves(s, ev, after)
    ensures var added := if ev.Append? then ParsedEntry(Entry(|s.appended|, ev.value)) else [];
            && Parsed(after.appended) == Parsed(s.appended) + added
            && (if Rereads(s, ev) then |Accounted(after)| > |Accounted(s)| + |added|
                else Accounted(after) == Accounted(s) + added)
  {
    hide Next, Parsed, ParsedEntry, Accounted, StreamInv, FlowInv, XDel, Rereads, Requested;
    StepKeeps(s, reached, ev, after);
    AccountedIs(s, reached);
    AccountedIs(after, ReachedAfter(s, reached, ev));
    match ev {
      case Append(value) => AppendAccounts(s, reached, value);
      case Request(del, readOk, count) => RequestAccounts(s, reached, del, readOk, count);
      case Deliver => NoRequestNoReread(s, ev);
      case Dispatch(action) => NoRequestNoReread(s, ev);
    }
  }

  lemma NoRequestNoReread(s: Sys, ev: Event)
    requires !ev.Request? || !ev.readOk
    ensures !Rereads(s, ev)
  {
  }

  lemma StreamBounds(s: Sys, reached: nat)
    requires StreamInv(s, reached)
    ensures 0 <= |s.appended| - |s.reader.stream| <= reached <= |s.appended|
  {
  }

  lemma Regroup<T>(handed: seq<T>, entries: seq<T>, unreadNow: seq<T>, again: seq<T>, unread: seq<T>)
    requires again + unread == entries + unreadNow
    ensures (handed + entries) + unreadNow == handed + (again + unread)
    ensures if again == [] then (handed + entries) + unreadNow == handed + unread
            else |handed + entries + unreadNow| > |handed + unread|
  {
    assert (handed + entries) + unreadNow == handed + (entries + unreadNow);
  }

  lemma DropOfAppend<T>(s: seq<T>, x: T, n: nat)
    requires n <= |s|
    ensures (s + [x])[n..] == s[n..] + [x]
  {
  }

  lemma AppendAccounts(s: Sys, reached: nat, value: Option<string>)
    requires StreamInv(s, reached)
    ensures var e := Entry(|s.appended|, value);
            && !Rereads(s, Append(value))
            && Parsed(s.appended + [e]) == Parsed(s.appended) + ParsedEntry(e)
            && Parsed((s.appended + [e])[reached..]) == Parsed(s.appended[reached..]) + ParsedEntry(e)
  {
    hide ParsedEntry;
    var e := Entry(|s.appended|, value);
    assert [e][1..] == [];
    ParsedConcat(s.appended, [e]);
    DropOfAppend(s.appended, e, reached);
    ParsedConcat(s.appended[reached..], [e]);
  }

  lemma RequestAccounts(s: Sys, reached: nat, del: Deletion, readOk: bool, count: int)
    requires StreamInv(s, reached)
    ensures var ev := Request(del, readOk, count);
            var after := s.(reader := Requested(s.reader, del, readOk, count));
            var before := Parsed(s.reader.handed) + Parsed(s.appended[reached..]);
            var now := Parsed(after.reader.handed) + Parsed(s.appended[ReachedAfter(s, reached, ev)..]);
            if Rereads(s, ev) then |now| > |before| else now == before
  {
    hide Parsed, ParsedEntry, XDel, XRead, StreamInv;
    DeletionKeeps(s, reached, del);
    if readOk {
      var left := s.(reader := AfterDeletion(s.reader, del));
      StreamBounds(left, reached);
      XReadIsPrefix(left.reader.stream, count);
      var gone := |s.appended| - |left.reader.stream|;
      var entries := XRead(left.reader.stream, count);
      var again := if gone + |entries| <= reached then entries else entries[..reached - gone];
      ParsedConcat(s.reader.handed, entries);
      ReadAccounts(left, reached, count);
      AgainIsReread(s, reached, del, count, again);
      Regroup(Parsed(s.reader.handed), Parsed(entries), Parsed(s.appended[ReachedBy(left, reached, count)..]),
              Parsed(again), Parsed(s.appended[reached..]));
    } else {
      NoRequestNoReread(s, Request(del, readOk, count));
    }
  }

  /** What is read for the second time holds a record exactly if the request rereads. */
  lemma AgainIsReread(s: Sys, reached: nat, del: Deletion, count: int, again: seq<Entry>)
    requires StreamInv(s, reached)
    requires var stream := AfterDeletion(s.reader, del).stream;
             var gone := |s.appended| - |stream|;
             var entries := XRead(stream, count);
             StreamInv(s.(reader := AfterDeletion(s.reader, del)), reached)
             && (del != Refused ==> stream == s.appended[reached..])
             && again == if gone + |entries| <= reached then entries else entries[..reached - gone]
    ensures Parsed(again) != [] <==> Rereads(s, Request(del, true, count))
  {
    hide Parsed, ParsedEntry, XDel, XRead, IdsCover, HandedReach, IdsArePositions;
    if del != Refused {
      assert again == [];
      assert Parsed([]) == [] by { ParsedOf([]); }
    } else {
      ParsedOf(again);
      forall e ensures e in again <==> e in XRead(s.reader.stream, count) && e.id in s.reader.prevReadIds {
        AgainIsBefore(s, reached, count, again, e);
      }
    }
  }

  /** Read for the second time is what is read and was to be deleted. */
  lemma AgainIsBefore(s: Sys, reached: nat, count: int, again: seq<Entry>, e: Entry)
    requires StreamInv(s, reached)
    requires var gone := |s.appended| - |s.reader.stream|;
             var entries := XRead(s.reader.stream, count);
             again == if gone + |entries| <= reached then entries else entries[..reached - gone]
    ensures e in again <==> e in XRead(s.reader.stream, count) && e.id in s.reader.prevReadIds
  {
    hide HandedReach, XRead;
    HeadIsSlice(s, reached, count);
    var gone := |s.appended| - |s.reader.stream|;
    var entries := XRead(s.reader.stream, count);
    assert forall k :: 0 <= k < |entries| ==> entries[k].id == gone + k;
    if e in entries && e.id in s.reader.prevReadIds {
      var k :| 0 <= k < |entries| && entries[k] == e;
      assert again[k] == e;
    }
  }

  // Whole runs

  ghost predicate IsRun(states: seq<Sys>, events: seq<Event>) {
    && |states| == |events| + 1 && states[0] == EMPTY
    && forall i :: 0 <= i < |events| ==> Possible(states[i], events[i]) && Moves(states[i], events[i], states[i + 1])
  }

  ghost function ReachedAt(states: seq<Sys>, events: seq<Event>, i: nat): (r: nat)
    requires |states| == |events| + 1 && i < |states|
  {
    if i == 0 then 0 else ReachedAfter(states[i - 1], ReachedAt(states, events, i - 1), events[i - 1])
  }

  lemma EmptyIsKept()
    ensures StreamInv(EMPTY, 0) && FlowInv(EMPTY) && Accounted(EMPTY) == Parsed(EMPTY.appended)
  {
    hide XDel, LogsOf, Concat, Parsed, ParsedEntry, Ids, NoInserts;
    NothingOfNothing();
  }

  lemma NothingOfNothing()
    ensures LogsOf([]) == [] && Concat<LogMessage>([]) == [] && Parsed([]) == [] && XDel([], Ids([])) == []
    ensures NoInserts(multiset{})
  {
    hide ParsedEntry;
  }

  lemma {:induction false} RunKeeps(states: seq<Sys>, events: seq<Event>, i: nat)
    requires IsRun(states, events) && i < |states|
    ensures StreamInv(states[i], ReachedAt(states, events, i)) && FlowInv(states[i])
  {
    hide Moves, Possible, ReachedAfter, StreamInv, FlowInv;
    if i == 0 {
      EmptyIsKept();
    } else {
      RunKeeps(states, events, i - 1);
      StepKeeps(states[i - 1], ReachedAt(states, events, i - 1), events[i - 1], states[i]);
    }
  }

  lemma {:induction false} RunAccounts(states: seq<Sys>, events: seq<Event>, i: nat)
    requires IsRun(states, events) && i < |states|
    ensures if exists j :: 0 <= j < i && Rereads(states[j], events[j]) then
              |Accounted(states[i])| > |Parsed(states[i].appended)|
            else Accounted(states[i]) == Parsed(states[i].appended)
  {
    hide Moves, Possible, Rereads, StreamInv, FlowInv, Accounted, Parsed, ReachedAt;
    if i == 0 {
      EmptyIsKept();
    } else {
      RunAccounts(states, events, i - 1);
      RunKeeps(states, events, i - 1);
      StepAccounts(states[i - 1], ReachedAt(states, events, i - 1), events[i - 1], states[i]);
    }
  }

  /**
   * Exactly once and in order: the records dispatched, buffered, on their way and unread are the records
   * appended, exactly if no request reads a record again after a refused deletion.
   */
  lemma ExactlyOnceIff(states: seq<Sys>, events: seq<Event>)
    requires IsRun(states, events)
    ensures Accounted(states[|events|]) == Parsed(states[|events|].appended)
       <==> forall j :: 0 <= j < |events| ==> !Rereads(states[j], events[j])
  {
    RunAccounts(states, events, |events|);
  }

  /** Whatever fails, no entry leaves the stream before it was handed over. */
  lemma NothingLeavesUnread(states: seq<Sys>, events: seq<Event>, e: Entry)
    requires IsRun(states, events) && e in states[|events|].appended
    ensures e in states[|events|].reader.stream || e in states[|events|].reader.handed
  {
    hide StreamInv, FlowInv, Possible, Moves, ReachedAfter;
    RunKeeps(states, events, |events|);
    InStreamOrHanded(states[|events|], ReachedAt(states, events, |events|), e);
  }

  lemma InStreamOrHanded(s: Sys, reached: nat, e: Entry)
    requires StreamInv(s, reached) && e in s.appended
    ensures e in s.reader.stream || e in s.reader.handed
  {
    InFrontOrBehind(s.appended, |s.appended| - |s.reader.stream|, e);
    assert forall x :: x in s.appended[..|s.appended| - |s.reader.stream|] ==> x in s.reader.handed by {
      HandedCovers(s, reached);
    }
  }

  lemma InFrontOrBehind(entries: seq<Entry>, n: nat, e: Entry)
    requires e in entries && n <= |entries|
    ensures e in entries[..n] || e in entries[n..]
  {
    assert entries == entries[..n] + entries[n..];
  }

  lemma HandedCovers(s: Sys, reached: nat)
    requires StreamInv(s, reached)
    ensures forall e :: e in s.appended[..|s.appended| - |s.reader.stream|] ==> e in s.reader.handed
  {
    hide IdsCover;
    forall e | e in s.appended[..|s.appended| - |s.reader.stream|] ensures e in s.reader.handed {
      var i :| 0 <= i < |s.appended| - |s.reader.stream| && s.appended[i] == e;
    }
  }

  /** Nor does a record get lost or out of order between the stream and the database. */
  lemma HandedIsDispatchedInOrder(states: seq<Sys>, events: seq<Event>)
    requires IsRun(states, events)
    ensures var s := states[|events|];
            LogsOf(s.dispatcher.sent) + s.dispatcher.buffer + Concat(s.reader.batches) == Parsed(s.reader.handed)
  {
    RunKeeps(states, events, |events|);
  }

  /** A logged record reaches the database if it has no comma; one that has is dropped at the reader. */
  lemma LoggedRecordIsParsed(id: nat, lm: LogMessage)
    ensures ParsedEntry(Entry(id, Some(MarshalToString(lm)))) == if HasNoComma(lm) then [lm] else []
  {
    RecordRoundTrip(lm);
  }

  /** It does occur: any record without commas, one successful read and a refused deletion give a duplicate. */
  lemma RecordIsHandedOverTwice(lm: LogMessage, count: int) returns (states: seq<Sys>, events: seq<Event>)
    requires HasNoComma(lm)
    ensures IsRun(states, events)
    ensures events == [Append(Some(MarshalToString(lm))), Request(Deleted, true, count), Request(Refused, true, count)]
    ensures Parsed(states[3].appended) == [lm] && states[3].reader.batches == [[lm], [lm]]
    ensures Accounted(states[3]) != Parsed(states[3].appended)
  {
    hide ParsedEntry, MarshalToString;
    var e := Entry(0, Some(MarshalToString(lm)));
    OneRecord(e, lm);
    var s0, s1 := EMPTY, Sys([e], Reader([e], [], [], []), FRESH);
    var s2 := s1.(reader := Reader([e], [0], [e], [[lm]]));
    var s3 := s1.(reader := Reader([e], [0, 0], [e, e], [[lm], [lm]]));
    states := [s0, s1, s2, s3];
    events := [Append(e.value), Request(Deleted, true, count), Request(Refused, true, count)];
    OneEntryIsRead(s1.reader, Deleted, count, e);
    OneEntryIsRead(s2.reader, Refused, count, e);
    hide Requested, Parsed, XRead, Accounted;
    assert Rereads(s2, events[2]) by { assert e in XRead([e], count); }
    ExactlyOnceIff(states, events);
  }

  lemma OneRecord(e: Entry, lm: LogMessage)
    requires HasNoComma(lm) && e.value == Some(MarshalToString(lm))
    ensures ParsedEntry(e) == [lm] && Parsed([e]) == [lm] && Ids([e]) == [e.id]
  {
    LoggedRecordIsParsed(e.id, lm);
    assert [e][1..] == [];
  }

  /** A stream of one entry is read whole, whatever the count, unless that entry is deleted before. */
  lemma OneEntryIsRead(r: Reader, del: Deletion, count: int, e: Entry)
    requires r.stream == [e] && Parsed([e]) != [] && (r.prevReadIds == [] || del == Refused)
    ensures XRead([e], count) == [e]
    ensures Requested(r, del, true, count)
         == Reader([e], r.prevReadIds + Ids([e]), r.handed + [e], r.batches + [Parsed([e])])
  {
    hide Parsed;
  }

  // One request, in numbers

  /** What a deletion carried out leaves: the entries whose IDs were not among those to delete. */
  lemma {:induction false} XDelLeaves(stream: seq<Entry>, ids: seq<nat>, e: Entry)
    ensures e in XDel(stream, ids) <==> e in stream && e.id !in ids
  {
    if stream != [] {
      XDelLeaves(stream[1..], ids, e);
      assert stream == [stream[0]] + stream[1..];
    }
  }

  /**
   * A request forgets the IDs read before exactly if their deletion is confirmed; a successful read then takes the
   * first `count` entries of what is left, or all if `count` sets no limit, remembers their IDs and passes their
   * records on in one batch, unless there are none.
   */
  lemma RequestInNumbers(r: Reader, del: Deletion, readOk: bool, count: int)
    ensures var after, left := Requested(r, del, readOk, count), Requested(r, del, false, 0).stream;
            var n := if !readOk then 0 else if count <= 0 || count > |left| then |left| else count;
            && after.stream == left && n <= |left|
            && (del == Refused || r.prevReadIds == [] ==> left == r.stream)
            && (del != Refused ==> forall e :: e in left <==> e in r.stream && e.id !in r.prevReadIds)
            && after.handed == r.handed + left[..n]
            && |after.prevReadIds| == n + (if del == Deleted then 0 else |r.prevReadIds|)
            && (forall i :: 0 <= i < n ==> after.prevReadIds[|after.prevReadIds| - n + i] == left[i].id)
            && (del != Deleted ==> after.prevReadIds[..|r.prevReadIds|] == r.prevReadIds)
            && after.batches == r.batches + if Parsed(left[..n]) == [] then [] else [Parsed(left[..n])]
  {
    hide Parsed, XDel;
    var left := AfterDeletion(r, del).stream;
    forall e ensures e in XDel(r.stream, r.prevReadIds) <==> e in r.stream && e.id !in r.prevReadIds {
      XDelLeaves(r.stream, r.prevReadIds, e);
    }
    assert left[..|left|] == left;
    assert Parsed([]) == [] by { ParsedOf([]); }
  }
}
