/**
 * Starts are delayed: an update stops channels at once and starts channels two seconds later, with the settings
 * that are current then. This module says exactly when updates that come in between do no harm.
 */
module DelayedStarts {
  import opened Wrappers
  import opened Supervision

  /** The supervisor with the starts that are still to come. */
  datatype Schedule = Schedule(fleet: Fleet, settings: Settings, pending: seq<seq<int>>)

  const IDLE := Schedule(NO_PROCESSES, Settings([], 0), [])

  /** New settings arrive, or a delayed start is due; the timers may fire in any order. */
  datatype Move = NewSettings(to: Settings) | DelayedStart(k: nat)

  ghost predicate Possible(s: Schedule, m: Move) {
    match m
    case NewSettings(to) => Distinct(to.channels)
    case DelayedStart(k) => k < |s.pending|
  }

  function Do(s: Schedule, m: Move): (r: Schedule)
    requires m.DelayedStart? ==> m.k < |s.pending|
  {
    match m
    case NewSettings(to) =>
      Schedule(StopAll(s.fleet, StopIds(s.settings, to)), to, s.pending + [StartIds(s.settings, to)])
    case DelayedStart(k) =>
      s.(fleet := StartAll(s.fleet, s.settings, s.pending[k]), pending := s.pending[..k] + s.pending[k + 1..])
  }

  ghost predicate IsWaiting(s: Schedule, id: int) {
    exists k :: 0 <= k < |s.pending| && id in s.pending[k]
  }

  /** Every working record runs, or its start is still to come. */
  ghost predicate Inv(s: Schedule) {
    && Distinct(s.settings.channels)
    && (forall k :: 0 <= k < |s.pending| ==> NoRepeats(s.pending[k]))
    && (forall c :: c in s.settings.channels && c.isWorking ==> c.id in s.fleet.handles || IsWaiting(s, c.id))
  }

  lemma UpdateKeepsInv(s: Schedule, to: Settings)
    requires Inv(s) && Distinct(to.channels)
    ensures Inv(Do(s, NewSettings(to)))
  {
    var after := Do(s, NewSettings(to));
    StartIdsAreDistinct(s.settings, to);
    forall c | c in to.channels && c.isWorking ensures c.id in after.fleet.handles || IsWaiting(after, c.id) {
      if c.id in StartIds(s.settings, to) {
        assert after.pending[|s.pending|] == StartIds(s.settings, to);
      } else {
        UpdateTouchesOnlyChanges(s.settings, to, c.id);
        KeptRecordIsUntouched(s.settings, to, c);
        if c.id !in s.fleet.handles {
          var k :| 0 <= k < |s.pending| && c.id in s.pending[k];
          assert after.pending[k] == s.pending[k];
        }
      }
    }
  }

  lemma StartKeepsInv(s: Schedule, k: nat)
    requires Inv(s) && k < |s.pending|
    ensures Inv(Do(s, DelayedStart(k)))
  {
    var after := Do(s, DelayedStart(k));
    forall c | c in s.settings.channels && c.isWorking ensures c.id in after.fleet.handles || IsWaiting(after, c.id) {
      StartAllAdds(s.fleet, s.settings, s.pending[k], c.id);
      FindIsMembership(s.settings.channels, c);
      if c.id !in s.fleet.handles && c.id !in s.pending[k] {
        var j :| 0 <= j < |s.pending| && c.id in s.pending[j];
        assert after.pending[if j < k then j else j - 1] == s.pending[j];
      }
    }
  }

  /** What a delayed start must find for no harm to be done. */
  ghost predicate IsClean(s: Schedule, m: Move)
    requires m.DelayedStart? ==> m.k < |s.pending|
  {
    m.DelayedStart? ==> CleanStart(s.fleet, s.settings, s.pending[m.k])
  }

  /** A move keeps the fleet tidy exactly if it is no unclean start. */
  lemma MoveKeepsTidyIff(s: Schedule, m: Move)
    requires Inv(s) && Tidy(s.fleet, s.settings) && Possible(s, m)
    ensures Inv(Do(s, m))
    ensures Tidy(Do(s, m).fleet, Do(s, m).settings) <==> IsClean(s, m)
  {
    match m {
      case NewSettings(to) =>
        UpdateKeepsInv(s, to);
        StopKeepsTidy(s.fleet, s.settings, to);
      case DelayedStart(k) =>
        StartKeepsInv(s, k);
        StartKeepsTidyIff(s.fleet, s.settings, s.pending[k]);
    }
  }

  ghost predicate IsRun(states: seq<Schedule>, moves: seq<Move>) {
    && |states| == |moves| + 1 && states[0] == IDLE
    && forall i :: 0 <= i < |moves| ==> Possible(states[i], moves[i]) && states[i + 1] == Do(states[i], moves[i])
  }

  ghost predicate AllTidy(states: seq<Schedule>) {
    forall i :: 0 <= i < |states| ==> Tidy(states[i].fleet, states[i].settings)
  }

  ghost predicate AllClean(states: seq<Schedule>, moves: seq<Move>)
    requires IsRun(states, moves)
  {
    forall i :: 0 <= i < |moves| ==> IsClean(states[i], moves[i])
  }

  lemma {:induction false} InvAt(states: seq<Schedule>, moves: seq<Move>, i: nat)
    requires IsRun(states, moves) && i < |states|
    ensures Inv(states[i])
  {
    hide Do;
    if i > 0 {
      InvAt(states, moves, i - 1);
      match moves[i - 1] {
        case NewSettings(to) => UpdateKeepsInv(states[i - 1], to);
        case DelayedStart(k) => StartKeepsInv(states[i - 1], k);
      }
    }
  }

  lemma {:induction false} TidyAt(states: seq<Schedule>, moves: seq<Move>, i: nat)
    requires IsRun(states, moves) && i < |states| && AllClean(states, moves)
    ensures Tidy(states[i].fleet, states[i].settings)
  {
    hide Do, Inv, IsClean;
    if i > 0 {
      TidyAt(states, moves, i - 1);
      InvAt(states, moves, i - 1);
      MoveKeepsTidyIff(states[i - 1], moves[i - 1]);
    }
  }

  /**
   * Over any schedule of updates and delayed starts, however they overlap: nothing ever runs but the working
   * records of the current settings, each once, exactly if every start is clean when it is due.
   */
  lemma ScheduleIsTidyIff(states: seq<Schedule>, moves: seq<Move>)
    requires IsRun(states, moves)
    ensures AllTidy(states) <==> AllClean(states, moves)
  {
    hide Do, Inv, IsClean, Tidy;
    if AllTidy(states) {
      forall i | 0 <= i < |moves| ensures IsClean(states[i], moves[i]) {
        InvAt(states, moves, i);
        MoveKeepsTidyIff(states[i], moves[i]);
        assert Tidy(states[i + 1].fleet, states[i + 1].settings);
      }
    }
    if AllClean(states, moves) {
      forall i | 0 <= i < |states| ensures Tidy(states[i].fleet, states[i].settings) {
        TidyAt(states, moves, i);
      }
    }
  }

  /** And then, once no start is to come, exactly the working records run. */
  lemma CleanSchedulesReconcile(states: seq<Schedule>, moves: seq<Move>)
    requires IsRun(states, moves) && AllClean(states, moves) && states[|moves|].pending == []
    ensures Reconciled(states[|moves|].fleet, states[|moves|].settings)
  {
    var last := states[|moves|];
    TidyAt(states, moves, |moves|);
    InvAt(states, moves, |moves|);
    forall c | c in last.settings.channels && c.isWorking
      ensures c.id in last.fleet.handles && last.fleet.handles[c.id].channel == c
    {
      FindIsMembership(last.settings.channels, c);
      FindIsMembership(last.settings.channels, last.fleet.handles[c.id].channel);
    }
  }

  // Two updates

  /** The second of two updates comes before the start of the first. */
  function Overlapped(f: Fleet, s0: Settings, s1: Settings, s2: Settings): (r: Fleet) {
    var stopped := StopAll(StopAll(f, StopIds(s0, s1)), StopIds(s1, s2));
    StartAll(StartAll(stopped, s2, StartIds(s0, s1)), s2, StartIds(s1, s2))
  }

  /** The second update neither switches off nor changes a channel that the first is about to start. */
  ghost predicate SparesStarts(s0: Settings, s1: Settings, s2: Settings) {
    forall c :: c in s2.channels && c.id in StartIds(s0, s1) ==> c.isWorking && c.id !in StartIds(s1, s2)
  }

  /** Two overlapping updates reconcile exactly if the second spares what the first is about to start. */
  lemma OverlapReconcilesIff(f: Fleet, s0: Settings, s1: Settings, s2: Settings)
    requires Distinct(s0.channels) && Distinct(s1.channels) && Distinct(s2.channels) && Reconciled(f, s0)
    ensures Reconciled(Overlapped(f, s0, s1, s2), s2) <==> SparesStarts(s0, s1, s2)
  {
    var first, second := StartIds(s0, s1), StartIds(s1, s2);
    var stopped := StopAll(StopAll(f, StopIds(s0, s1)), StopIds(s1, s2));
    StopKeepsTidy(f, s0, s1);
    StopKeepsTidy(StopAll(f, StopIds(s0, s1)), s1, s2);
    StartIdsAreDistinct(s0, s1);
    StartIdsAreDistinct(s1, s2);
    FirstStartIsCleanIff(f, s0, s1, s2);
    StartKeepsTidyIff(stopped, s2, first);
    var between := StartAll(stopped, s2, first);
    if Tidy(between, s2) {
      SecondStartIsCleanIff(f, s0, s1, s2);
      StartKeepsTidyIff(between, s2, second);
      OverlapStartsAll(f, s0, s1, s2);
    } else {
      OverlapStaysUntidy(f, s0, s1, s2);
    }
  }

  lemma FirstStartIsCleanIff(f: Fleet, s0: Settings, s1: Settings, s2: Settings)
    requires Distinct(s0.channels) && Distinct(s1.channels) && Tidy(f, s0)
    ensures CleanStart(StopAll(StopAll(f, StopIds(s0, s1)), StopIds(s1, s2)), s2, StartIds(s0, s1))
       <==> forall c :: c in s2.channels && c.id in StartIds(s0, s1) ==> c.isWorking
  {
    forall id | id in StartIds(s0, s1) ensures id !in StopAll(f, StopIds(s0, s1)).handles {
      StartsFindNothingRunning(f, s0, s1, id);
    }
  }

  lemma SecondStartIsCleanIff(f: Fleet, s0: Settings, s1: Settings, s2: Settings)
    requires Distinct(s0.channels) && Distinct(s1.channels) && Distinct(s2.channels) && Tidy(f, s0)
    ensures var stopped := StopAll(StopAll(f, StopIds(s0, s1)), StopIds(s1, s2));
            CleanStart(StartAll(stopped, s2, StartIds(s0, s1)), s2, StartIds(s1, s2))
            <==> forall c :: c in s2.channels && c.id in StartIds(s0, s1) ==> c.id !in StartIds(s1, s2)
  {
    var stopped := StopAll(StopAll(f, StopIds(s0, s1)), StopIds(s1, s2));
    StopKeepsTidy(f, s0, s1);
    forall c | c in s2.channels && c.id in StartIds(s1, s2)
      ensures c.isWorking
      ensures c.id in StartAll(stopped, s2, StartIds(s0, s1)).handles <==> c.id in StartIds(s0, s1)
    {
      StartedRecordsWork(s1, s2, c);
      StartsFindNothingRunning(StopAll(f, StopIds(s0, s1)), s1, s2, c.id);
      StartAllAdds(stopped, s2, StartIds(s0, s1), c.id);
      FindIsMembership(s2.channels, c);
    }
  }

  lemma OverlapStartsAll(f: Fleet, s0: Settings, s1: Settings, s2: Settings)
    requires Distinct(s0.channels) && Distinct(s1.channels) && Distinct(s2.channels) && Reconciled(f, s0)
    ensures forall c :: c in s2.channels && c.isWorking ==>
                          c.id in Overlapped(f, s0, s1, s2).handles
                          && Overlapped(f, s0, s1, s2).handles[c.id].channel == c
  {
    var stopped := StopAll(StopAll(f, StopIds(s0, s1)), StopIds(s1, s2));
    forall c | c in s2.channels && c.isWorking
      ensures c.id in Overlapped(f, s0, s1, s2).handles && Overlapped(f, s0, s1, s2).handles[c.id].channel == c
    {
      StartAllAdds(stopped, s2, StartIds(s0, s1), c.id);
      StartAllAdds(StartAll(stopped, s2, StartIds(s0, s1)), s2, StartIds(s1, s2), c.id);
      FindIsMembership(s2.channels, c);
      if c.id !in StartIds(s0, s1) && c.id !in StartIds(s1, s2) {
        UpdateTouchesOnlyChanges(s1, s2, c.id);
        UpdateTouchesOnlyChanges(s0, s1, c.id);
        KeptRecordIsUntouched(s1, s2, c);
        KeptRecordIsUntouched(s0, s1, c);
      }
    }
  }

  lemma OverlapStaysUntidy(f: Fleet, s0: Settings, s1: Settings, s2: Settings)
    requires Distinct(s0.channels) && Distinct(s1.channels) && Distinct(s2.channels) && Tidy(f, s0)
    requires exists c :: c in s2.channels && c.id in StartIds(s0, s1) && !c.isWorking
    ensures !Tidy(Overlapped(f, s0, s1, s2), s2)
  {
    var stopped := StopAll(StopAll(f, StopIds(s0, s1)), StopIds(s1, s2));
    var c :| c in s2.channels && c.id in StartIds(s0, s1) && !c.isWorking;
    StartAllAdds(stopped, s2, StartIds(s0, s1), c.id);
    StartAllAdds(StartAll(stopped, s2, StartIds(s0, s1)), s2, StartIds(s1, s2), c.id);
    FindIsMembership(s2.channels, c);
  }

  // The two ways it goes wrong

  /** A channel switched off before its delayed start is started all the same. */
  lemma SwitchedOffChannelIsStarted(c: Channel, port: int)
    requires c.isWorking
    ensures var off := c.(isWorking := false);
            Overlapped(NO_PROCESSES, Settings([], port), Settings([c], port), Settings([off], port))
            == Fleet(map[c.id := Process(off, port)], multiset{})
  {
    OneChannel(c, c.(isWorking := false), port);
  }

  /** A channel changed before its delayed start is started twice, and the first process can not be stopped. */
  lemma ChangedChannelRunsTwice(c: Channel, changed: Channel, port: int)
    requires c.isWorking && changed.isWorking && changed.id == c.id && changed != c
    ensures var p := Process(changed, port);
            Overlapped(NO_PROCESSES, Settings([], port), Settings([c], port), Settings([changed], port))
            == Fleet(map[c.id := p], multiset{p})
  {
    OneChannel(c, changed, port);
    var p := Process(changed, port);
    assert StartAll(Fleet(map[c.id := p], multiset{}), Settings([changed], port), [c.id])
        == Launch(Fleet(map[c.id := p], multiset{}), c.id, p);
  }

  lemma OneChannel(c: Channel, changed: Channel, port: int)
    requires c.isWorking && changed.id == c.id && changed != c
    ensures var s0, s1, s2 := Settings([], port), Settings([c], port), Settings([changed], port);
            && StopIds(s0, s1) == [] && StartIds(s0, s1) == [c.id]
            && StopIds(s1, s2) == [c.id] && StartIds(s1, s2) == (if changed.isWorking then [c.id] else [])
            && StopAll(StopAll(NO_PROCESSES, []), [c.id]) == NO_PROCESSES
            && StartAll(NO_PROCESSES, s2, [c.id]) == Fleet(map[c.id := Process(changed, port)], multiset{})
  {
    assert [c][1..] == [] && [changed][1..] == [] && [c.id][1..] == [];
    assert Find([changed], c.id) == Some(changed) && Find([c], c.id) == Some(c) && Find([], c.id) == None;
    assert NewIds([], [c]) == [c.id] + NewIds([], []) && ReplacedIds([], [c]) == [] + ReplacedIds([], []);
    assert RemovedIds([c], [changed]) == [] + RemovedIds([], [changed]);
    assert ReplacedIds([c], [changed]) == [c.id] + ReplacedIds([c], []);
    assert NewIds([c], [changed]) == (if changed.isWorking then [c.id] else []) + NewIds([c], []);
    assert StopAll(NO_PROCESSES, []).handles == map[] && StopAll(NO_PROCESSES, [c.id]).handles == map[];
  }
}
