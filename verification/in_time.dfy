/**
 * When gated peers come to DataReady and lose no data: exactly if the client takes its after-send event before it
 * receives the server's identification, and each side takes its LStartup before it receives the last STARTUP
 * written to it.
 */
module InTime {
  import opened Wrappers
  import opened FmtpMessages
  import opened StateMachine
  import opened Association
  import opened Peers
  import opened PromptPeers
  import opened GatedPeers
  import opened LostMessages
  import opened Liveness

  /** Step n is the reception of message k. */
  ghost predicate ReceivesAt(states: nat -> Sys, acts: nat -> Action, x: Role, k: nat, n: nat) {
    acts(n) == Receive(x) && states(n).In(x).taken == k
  }

  /** Before step n the side took the after-send event. */
  ghost predicate TookBefore(states: nat -> Sys, acts: nat -> Action, x: Role, e: Event, n: nat) {
    exists m: nat :: m < n && acts(m) == Take(x) && states(m).Of(x).pending == Some(e)
  }

  predicate IsStartup(l: Link, k: nat) {
    k < |l.log| && l.log[k].msg == STARTUP
  }

  /** Message k is a STARTUP and no later one of the whole run is. */
  ghost predicate LastStartup(states: nat -> Sys, x: Role, k: nat) {
    (exists n: nat :: IsStartup(states(n).In(x), k))
    && forall n: nat, j: nat :: j > k ==> !IsStartup(states(n).In(x), j)
  }

  /** The client takes RSetup before it receives the server's identification. */
  ghost predicate IdInTime(states: nat -> Sys, acts: nat -> Action) {
    forall n: nat :: ReceivesAt(states, acts, Client, 0, n) ==> TookBefore(states, acts, Client, RSetup, n)
  }

  /** The side takes LStartup before it receives the last STARTUP written to it. */
  ghost predicate StartupInTime(states: nat -> Sys, acts: nat -> Action, x: Role) {
    forall k: nat, n: nat ::
      LastStartup(states, x, k) && ReceivesAt(states, acts, x, k, n) ==> TookBefore(states, acts, x, LStartup, n)
  }

  ghost predicate AllInTime(states: nat -> Sys, acts: nat -> Action) {
    IdInTime(states, acts) && StartupInTime(states, acts, Client) && StartupInTime(states, acts, Server)
  }

  // Which states follow on which event

  predicate PastSetup(s: State) {
    s != Idle && s != ConPending
  }

  predicate PastStartup(s: State) {
    s == AssPending || s == DataReady
  }

  /** What a step's being `took` the event e means for a state past its wait. */
  ghost predicate BringsPast(before: bool, after: bool, took: bool) {
    after <==> before || took
  }

  ghost predicate TakesPast(s: Sys, t: Sys, a: Action, x: Role) {
    var before, after := s.Of(x).peer.state, t.Of(x).peer.state;
    && (x == Client ==>
          BringsPast(PastSetup(before), PastSetup(after), a == Take(x) && s.Of(x).pending == Some(RSetup)))
    && BringsPast(PastStartup(before), PastStartup(after), a == Take(x) && s.Of(x).pending == Some(LStartup))
  }

  lemma TakeBringsPast(sites: Sites, s: Sys, x: Role)
    requires Matched(sites) && Inv(sites, s) && Enabled(s, Take(x))
    ensures TakesPast(s, Do(sites, s, Take(x)), Take(x), x)
  {
    hide LogIs, CreateIdentificationMessage, Matched, TiAfter, TsAfter, TrAfter;
  }

  lemma ReceiveBringsPast(sites: Sites, s: Sys, x: Role)
    requires Matched(sites) && Inv(sites, s) && Enabled(s, Receive(x))
    ensures TakesPast(s, Do(sites, s, Receive(x)), Receive(x), x)
  {
    ReceptionIsInTurn(sites, s, x);
    var l := s.In(x);
    ReceiveAdvances(sites, x, s.Of(x), s.now, |s.Out(x).log|, l.taken, l.log[l.taken].msg);
    hide LogIs, CreateIdentificationMessage, Matched, Streams, Follows, Classify, FeedMessage;
  }

  lemma OwnStepBringsPast(sites: Sites, s: Sys, a: Action, x: Role)
    requires Matched(sites) && Inv(sites, s) && Enabled(s, a) && (a == Setup(x) || a == Write(x))
    ensures TakesPast(s, Do(sites, s, a), a, x)
  {
    hide LogIs, CreateIdentificationMessage, Matched, Streams, TiAfter, TsAfter, TrAfter;
  }

  /** A step brings a side past the two waits exactly if it takes the event waited for. */
  lemma TakingBringsPast(sites: Sites, s: Sys, a: Action, x: Role)
    requires Matched(sites) && Inv(sites, s) && Enabled(s, a) && Gated(a, s)
    ensures TakesPast(s, Do(sites, s, a), a, x)
  {
    hide Inv, Do, Matched, Enabled;
    if a == Take(x) {
      TakeBringsPast(sites, s, x);
    } else if a == Receive(x) {
      ReceiveBringsPast(sites, s, x);
    } else if a == Setup(x) || a == Write(x) {
      OwnStepBringsPast(sites, s, a, x);
    } else if s.Of(x).peer.state == DataReady {
      StepKeepsStands(sites, s, a);
      ReadyByRemaining(sites, s, x);
      ReadyByRemaining(sites, Do(sites, s, a), x);
    } else {
      OtherStepsChangeNothing(sites, s, a, x);
    }
  }

  lemma {:induction false} TookIffPast(sites: Sites, states: nat -> Sys, acts: nat -> Action, x: Role, n: nat)
    requires Matched(sites) && GatedRun(sites, states, acts)
    ensures TookBefore(states, acts, x, LStartup, n) <==> PastStartup(states(n).Of(x).peer.state)
    ensures x == Client ==> (TookBefore(states, acts, x, RSetup, n) <==> PastSetup(states(n).Of(x).peer.state))
  {
    hide Inv, Do, Enabled, Gated, Matched, TookBefore, PastSetup, PastStartup;
    TookOneMore(states, acts, x, RSetup, n);
    TookOneMore(states, acts, x, LStartup, n);
    if n == 0 {
      assert !PastSetup(Idle) && !PastStartup(Idle) by { NothingIsPast(); }
    } else {
      TookIffPast(sites, states, acts, x, n - 1);
      InvAlong(sites, states, acts, n - 1);
      assert states(n) == Do(sites, states(n - 1), acts(n - 1));
      TakingBringsPast(sites, states(n - 1), acts(n - 1), x);
    }
  }

  lemma NothingIsPast()
    ensures !PastSetup(Idle) && !PastStartup(Idle)
  {
  }

  lemma TookOneMore(states: nat -> Sys, acts: nat -> Action, x: Role, e: Event, n: nat)
    ensures TookBefore(states, acts, x, e, n)
       <==> n > 0 && (TookBefore(states, acts, x, e, n - 1)
                      || (acts(n - 1) == Take(x) && states(n - 1).Of(x).pending == Some(e)))
  {
  }

  // When a message was missed

  lemma MissedByReceiving(sites: Sites, s: Sys, a: Action, x: Role, k: nat)
    requires Matched(sites) && Inv(sites, s) && Enabled(s, a) && Gated(a, s)
    requires FirstStartup(Other(x)) <= k <= FirstStartup(Other(x)) + 1
    requires !Missed(s, x, k) && Missed(Do(sites, s, a), x, k)
    ensures a == Receive(x) && s.In(x).taken == k && s.Of(x).peer.state == Ready
  {
    if Associating(s.Of(x)) {
      AssociatingStaysOrAnswers(sites, s, a, x);
      OnlyReceptionTakes(sites, s, a, x);
      if a == Receive(x) {
        assert Follows(sites, Other(x), k, s.In(x).log[k].msg);
      }
      hide Do, Inv, Matched, Enabled;
    } else {
      AssociationBegins(sites, s, a, x);
      hide Do, Inv, Matched, Enabled;
    }
  }

  lemma OnlyReceptionTakes(sites: Sites, s: Sys, a: Action, x: Role)
    requires Enabled(s, a)
    ensures Do(sites, s, a).In(x).taken == s.In(x).taken + if a == Receive(x) then 1 else 0
  {
    hide Feed, FeedMessage, React, CreateIdentificationMessage;
  }

  /** A side begins to associate before any STARTUP is received. */
  lemma AssociationBegins(sites: Sites, s: Sys, a: Action, x: Role)
    requires Matched(sites) && Inv(sites, s) && Enabled(s, a) && Gated(a, s)
    requires !Associating(s.Of(x)) && Associating(Do(sites, s, a).Of(x))
    ensures Do(sites, s, a).In(x).taken <= FirstStartup(Other(x))
  {
    OnlyReceptionTakes(sites, s, a, x);
    StepKeepsStands(sites, s, a);
    if s.Of(x).peer.state == DataReady {
      ReadyByRemaining(sites, s, x);
      ReadyByRemaining(sites, Do(sites, s, a), x);
    } else if s.In(x).taken >= FirstStartup(Other(x)) && a == Receive(x) {
      ReceptionIsInTurn(sites, s, x);
    }
    hide LogIs, CreateIdentificationMessage, Matched, Streams, Do, Enabled;
  }

  lemma IdLostByReceiving(sites: Sites, s: Sys, a: Action)
    requires Matched(sites) && Inv(sites, s) && Enabled(s, a) && Gated(a, s)
    requires !IdLost(s) && IdLost(Do(sites, s, a))
    ensures a == Receive(Client) && s.In(Client).taken == 0 && !PastSetup(s.client.peer.state)
  {
    OnlyReceptionTakes(sites, s, a, Client);
    StepKeepsStands(sites, s, a);
    TakingBringsPast(sites, s, a, Client);
    if a == Receive(Client) {
      ReceptionIsInTurn(sites, s, Client);
      var l := s.down;
      ReceiveAdvances(sites, Client, s.client, s.now, |s.up.log|, l.taken, l.log[l.taken].msg);
    }
    hide LogIs, CreateIdentificationMessage, Matched, Streams, Enabled, FeedMessage, ServerStands, Follows;
  }

  lemma {:induction false} MissedAt(sites: Sites, states: nat -> Sys, acts: nat -> Action, x: Role, k: nat, n: nat)
      returns (m: nat)
    requires Matched(sites) && GatedRun(sites, states, acts)
    requires FirstStartup(Other(x)) <= k <= FirstStartup(Other(x)) + 1 && Missed(states(n), x, k)
    ensures m < n && ReceivesAt(states, acts, x, k, m) && !TookBefore(states, acts, x, LStartup, m)
  {
    hide Inv, Do, Enabled, Gated, Matched, TookBefore;
    if n > 0 && Missed(states(n - 1), x, k) {
      m := MissedAt(sites, states, acts, x, k, n - 1);
    } else if n > 0 {
      m := n - 1;
      InvAlong(sites, states, acts, m);
      assert states(n) == Do(sites, states(m), acts(m));
      MissedByReceiving(sites, states(m), acts(m), x, k);
      TookIffPast(sites, states, acts, x, m);
    }
  }

  lemma {:induction false} IdLostAt(sites: Sites, states: nat -> Sys, acts: nat -> Action, n: nat) returns (m: nat)
    requires Matched(sites) && GatedRun(sites, states, acts) && IdLost(states(n))
    ensures m < n && ReceivesAt(states, acts, Client, 0, m) && !TookBefore(states, acts, Client, RSetup, m)
  {
    hide Inv, Do, Enabled, Gated, Matched, TookBefore, PastSetup;
    if n > 0 && IdLost(states(n - 1)) {
      m := IdLostAt(sites, states, acts, n - 1);
    } else if n > 0 {
      m := n - 1;
      InvAlong(sites, states, acts, m);
      assert states(n) == Do(sites, states(m), acts(m));
      IdLostByReceiving(sites, states(m), acts(m));
      TookIffPast(sites, states, acts, Client, m);
    }
  }

  // Links along a run

  /** Links only grow, and receptions only go on. */
  ghost predicate Grown(s: Sys, t: Sys, x: Role) {
    && s.In(x).taken <= t.In(x).taken && s.In(x).log <= t.In(x).log
  }

  lemma StepGrows(sites: Sites, s: Sys, a: Action, x: Role)
    requires Enabled(s, a)
    ensures Grown(s, Do(sites, s, a), x)
  {
    hide Feed, FeedMessage, React, CreateIdentificationMessage;
  }

  lemma {:induction false} LinksGrow(sites: Sites, states: nat -> Sys, acts: nat -> Action, x: Role, n: nat, m: nat)
    requires GatedRun(sites, states, acts) && n <= m
    ensures Grown(states(n), states(m), x)
  {
    if n < m {
      hide Do, Enabled, Gated;
      LinksGrow(sites, states, acts, x, n, m - 1);
      assert states(m) == Do(sites, states(m - 1), acts(m - 1));
      StepGrows(sites, states(m - 1), acts(m - 1), x);
    }
  }

  /** Whatever was received was received at some step. */
  lemma {:induction false} ReceivedAt(sites: Sites, states: nat -> Sys, acts: nat -> Action, x: Role, k: nat, n: nat)
      returns (m: nat)
    requires GatedRun(sites, states, acts) && states(n).In(x).taken > k
    ensures m < n && ReceivesAt(states, acts, x, k, m)
  {
    hide Do, Enabled, Gated;
    if n > 0 && states(n - 1).In(x).taken > k {
      m := ReceivedAt(sites, states, acts, x, k, n - 1);
    } else if n > 0 {
      m := n - 1;
      assert Enabled(states(m), acts(m)) && states(n) == Do(sites, states(m), acts(m));
      OnlyReceptionTakes(sites, states(m), acts(m), x);
    }
  }

  /** The STARTUPs of a side are two messages in a row. */
  lemma StartupsStand(sites: Sites, states: nat -> Sys, acts: nat -> Action, x: Role, n: nat, k: nat)
    requires Matched(sites) && GatedRun(sites, states, acts) && k < |states(n).In(x).log|
    ensures IsStartup(states(n).In(x), k)
       <==> FirstStartup(Other(x)) <= k <= FirstStartup(Other(x)) + 1
  {
    InvAlong(sites, states, acts, n);
    LogStartups(sites, states(n), x, k);
  }

  lemma LogStartups(sites: Sites, s: Sys, x: Role, k: nat)
    requires Inv(sites, s) && k < |s.In(x).log|
    ensures s.In(x).log[k].msg == STARTUP <==> FirstStartup(Other(x)) <= k <= FirstStartup(Other(x)) + 1
  {
    assert Follows(sites, Other(x), k, s.In(x).log[k].msg);
    hide Stands;
  }

  /** If the second STARTUP was ever written it is the last. */
  lemma SecondIsLast(sites: Sites, states: nat -> Sys, acts: nat -> Action, x: Role, n: nat, k: nat)
    requires Matched(sites) && GatedRun(sites, states, acts)
    requires |states(n).In(x).log| > FirstStartup(Other(x)) + 1
    ensures LastStartup(states, x, k) <==> k == FirstStartup(Other(x)) + 1
  {
    hide GatedRun, Matched;
    var second := FirstStartup(Other(x)) + 1;
    StartupsStand(sites, states, acts, x, n, second);
    forall m: nat, j: nat | j > second ensures !IsStartup(states(m).In(x), j) {
      if j < |states(m).In(x).log| {
        StartupsStand(sites, states, acts, x, m, j);
      }
    }
  }

  // The theorem

  lemma SecondMissedIsLate(sites: Sites, states: nat -> Sys, acts: nat -> Action, x: Role, n: nat)
    requires Matched(sites) && GatedRun(sites, states, acts) && SecondMissed(states(n), x)
    ensures !StartupInTime(states, acts, x)
  {
    hide GatedRun, Matched, TookBefore, LastStartup;
    var second := FirstStartup(Other(x)) + 1;
    var m := MissedAt(sites, states, acts, x, second, n);
    InvAlong(sites, states, acts, n);
    assert |states(n).In(x).log| > second by { TakenIsWritten(sites, states(n), x); }
    SecondIsLast(sites, states, acts, x, n, second);
  }

  lemma TakenIsWritten(sites: Sites, s: Sys, x: Role)
    requires Inv(sites, s)
    ensures s.In(x).taken <= |s.In(x).log|
  {
  }

  lemma {:induction false} BothFirstMissedFrom(sites: Sites, states: nat -> Sys, acts: nat -> Action, n: nat, m: nat)
    requires Matched(sites) && GatedRun(sites, states, acts) && BothFirstMissed(states(n)) && n <= m
    ensures BothFirstMissed(states(m))
  {
    hide Inv, Do, Enabled, Gated, Matched, BothFirstMissed;
    if n < m {
      BothFirstMissedFrom(sites, states, acts, n, m - 1);
      InvAlong(sites, states, acts, m - 1);
      assert states(m) == Do(sites, states(m - 1), acts(m - 1));
      BothFirstMissedLasts(sites, states(m - 1), acts(m - 1));
    }
  }

  lemma AssociatingHasWrittenOne(sites: Sites, s: Sys, x: Role)
    requires Inv(sites, s) && Associating(s.Of(Other(x)))
    ensures |s.In(x).log| <= FirstStartup(Other(x)) + 1
  {
    hide LogIs, CreateIdentificationMessage, Streams;
  }

  lemma BothFirstMissedIsLate(sites: Sites, states: nat -> Sys, acts: nat -> Action, n: nat)
    requires Matched(sites) && GatedRun(sites, states, acts) && BothFirstMissed(states(n))
    ensures !StartupInTime(states, acts, Client)
  {
    hide Inv, GatedRun, Matched, TookBefore;
    var first := FirstStartup(Server);
    var m := MissedAt(sites, states, acts, Client, first, n);
    InvAlong(sites, states, acts, n);
    TakenIsWritten(sites, states(n), Client);
    StartupsStand(sites, states, acts, Client, n, first);
    forall i: nat, j: nat | j > first ensures !IsStartup(states(i).In(Client), j) {
      var later := if i < n then n else i;
      LinksGrow(sites, states, acts, Client, i, later);
      BothFirstMissedFrom(sites, states, acts, n, later);
      InvAlong(sites, states, acts, later);
      AssociatingHasWrittenOne(sites, states(later), Client);
    }
    assert LastStartup(states, Client, first);
  }

  lemma InTimeIsNeverDoomed(sites: Sites, states: nat -> Sys, acts: nat -> Action)
    requires Matched(sites) && GatedRun(sites, states, acts) && AllInTime(states, acts)
    ensures NeverDoomed(states)
  {
    hide GatedRun, Matched, IdLost, SecondMissed, BothFirstMissed, TookBefore, StartupInTime;
    forall n: nat ensures !Doomed(states(n)) {
      if IdLost(states(n)) {
        var m := IdLostAt(sites, states, acts, n);
        assert false;
      } else if SecondMissed(states(n), Client) {
        SecondMissedIsLate(sites, states, acts, Client, n);
      } else if SecondMissed(states(n), Server) {
        SecondMissedIsLate(sites, states, acts, Server, n);
      } else if BothFirstMissed(states(n)) {
        BothFirstMissedIsLate(sites, states, acts, n);
      }
    }
  }

  /** A side that comes to DataReady receives a STARTUP in AssPending. */
  lemma {:induction false} StartupBrings(sites: Sites, states: nat -> Sys, acts: nat -> Action, x: Role, n: nat, m: nat)
      returns (j: nat)
    requires Matched(sites) && GatedRun(sites, states, acts) && n <= m
    requires Associating(states(n).Of(x)) && states(m).Of(x).peer.state == DataReady
    ensures n <= j < m && acts(j) == Receive(x) && IsStartup(states(j).In(x), states(j).In(x).taken)
    decreases m - n
  {
    hide Inv, Do, Gated, Matched;
    InvAlong(sites, states, acts, n);
    assert Enabled(states(n), acts(n)) && states(n + 1) == Do(sites, states(n), acts(n));
    AssociatingStaysOrAnswers(sites, states(n), acts(n), x);
    if Associating(states(n + 1).Of(x)) {
      j := StartupBrings(sites, states, acts, x, n + 1, m);
    } else {
      j := n;
    }
  }

  lemma LateStartupIsFatal(sites: Sites, states: nat -> Sys, acts: nat -> Action, x: Role, k: nat, n: nat, m: nat)
    requires Matched(sites) && GatedRun(sites, states, acts)
    requires LastStartup(states, x, k) && ReceivesAt(states, acts, x, k, n) && !TookBefore(states, acts, x, LStartup, n)
    ensures n <= m ==> states(m).Of(x).peer.state != DataReady
  {
    hide Inv, Do, Gated, Matched, TookBefore;
    TookIffPast(sites, states, acts, x, n);
    InvAlong(sites, states, acts, n);
    assert Enabled(states(n), acts(n)) && states(n + 1) == Do(sites, states(n), acts(n));
    ReceptionIsWritten(states(n), x);
    LastIsStartup(sites, states, acts, x, k, n);
    LateReceptionIsMissed(sites, states(n), x, k);
    if n < m && states(m).Of(x).peer.state == DataReady {
      var j := StartupBrings(sites, states, acts, x, n + 1, m);
      LinksGrow(sites, states, acts, x, n + 1, j);
    }
  }

  lemma ReceptionIsWritten(s: Sys, x: Role)
    requires Enabled(s, Receive(x))
    ensures s.In(x).taken < |s.In(x).log|
  {
  }

  lemma LastIsStartup(sites: Sites, states: nat -> Sys, acts: nat -> Action, x: Role, k: nat, n: nat)
    requires Matched(sites) && GatedRun(sites, states, acts) && LastStartup(states, x, k) && k < |states(n).In(x).log|
    ensures IsStartup(states(n).In(x), k)
  {
    hide GatedRun, Matched;
    var m: nat :| IsStartup(states(m).In(x), k);
    StartupsStand(sites, states, acts, x, m, k);
    StartupsStand(sites, states, acts, x, n, k);
  }

  lemma LateReceptionIsMissed(sites: Sites, s: Sys, x: Role, k: nat)
    requires Matched(sites) && Inv(sites, s) && Enabled(s, Receive(x)) && s.In(x).taken == k
    requires IsStartup(s.In(x), k) && !PastStartup(s.Of(x).peer.state)
    ensures var t := Do(sites, s, Receive(x));
            s.Of(x).peer.state == Ready && Missed(t, x, k)
  {
    ReceptionIsInTurn(sites, s, x);
    LogStartups(sites, s, x, k);
    StandsByState(sites, s, x);
    OnlyReceptionTakes(sites, s, Receive(x), x);
    ReadyWhenStartupComes(sites, s, x, k);
    AssociatingStaysOrAnswers(sites, s, Receive(x), x);
    hide Inv, Do, Matched, Enabled;
  }

  lemma ReadyWhenStartupComes(sites: Sites, s: Sys, x: Role, k: nat)
    requires Inv(sites, s) && s.In(x).taken == k < |s.In(x).log| && k >= FirstStartup(Other(x))
    requires s.Of(x).setup == [] && !PastStartup(s.Of(x).peer.state)
    ensures s.Of(x).peer.state == Ready
  {
    hide LogIs, CreateIdentificationMessage, Streams;
  }

  lemma ReadyIsInTime(sites: Sites, states: nat -> Sys, acts: nat -> Action)
    requires Matched(sites) && GatedRun(sites, states, acts) && BecomesReady(states)
    ensures AllInTime(states, acts)
  {
    var ready: nat :| ReadyFrom(states, ready);
    hide GatedRun, Matched, TookBefore, LastStartup;
    forall n: nat | ReceivesAt(states, acts, Client, 0, n) ensures TookBefore(states, acts, Client, RSetup, n) {
      if !TookBefore(states, acts, Client, RSetup, n) {
        EarlyIdIsLost(sites, states, acts, n);
        var m := if n + 1 > ready then n + 1 else ready;
        DoomedFrom(sites, states, acts, n + 1, m);
      }
    }
    forall x: Role, k: nat, n: nat | LastStartup(states, x, k) && ReceivesAt(states, acts, x, k, n)
      ensures TookBefore(states, acts, x, LStartup, n)
    {
      if !TookBefore(states, acts, x, LStartup, n) {
        var m := if n > ready then n else ready;
        LateStartupIsFatal(sites, states, acts, x, k, n, m);
      }
    }
  }

  lemma EarlyIdIsLost(sites: Sites, states: nat -> Sys, acts: nat -> Action, n: nat)
    requires Matched(sites) && GatedRun(sites, states, acts)
    requires ReceivesAt(states, acts, Client, 0, n) && !TookBefore(states, acts, Client, RSetup, n)
    ensures Doomed(states(n + 1))
  {
    hide Inv, Do, Gated, Matched, TookBefore;
    TookIffPast(sites, states, acts, Client, n);
    InvAlong(sites, states, acts, n);
    assert Enabled(states(n), acts(n)) && states(n + 1) == Do(sites, states(n), acts(n));
    EarlyReceptionLosesId(sites, states(n));
  }

  lemma EarlyReceptionLosesId(sites: Sites, s: Sys)
    requires Matched(sites) && Inv(sites, s) && Enabled(s, Receive(Client)) && !PastSetup(s.client.peer.state)
    ensures IdLost(Do(sites, s, Receive(Client)))
  {
    ReceptionIsInTurn(sites, s, Client);
    OtherStepsChangeNothing(sites, s, Receive(Client), Client);
    hide Inv, Do, Matched;
  }

  /**
   * Fair gated runs, data and heartbeats interleaved as they like: both sides come to DataReady, for good, exactly
   * if the client takes RSetup before it receives the server's identification and each side takes LStartup before
   * it receives the last STARTUP written to it.
   */
  lemma ReadyIffInTime(sites: Sites, states: nat -> Sys, acts: nat -> Action)
    requires Matched(sites) && GatedRun(sites, states, acts) && Fair(states, acts)
    ensures BecomesReady(states) <==> AllInTime(states, acts)
  {
    hide GatedRun, Fair, Matched, AllInTime, BecomesReady, NeverDoomed;
    ReadyIffNeverDoomed(sites, states, acts);
    if AllInTime(states, acts) {
      InTimeIsNeverDoomed(sites, states, acts);
    }
    if BecomesReady(states) {
      ReadyIsInTime(sites, states, acts);
    }
  }

  // Data

  ghost predicate IsTaken(sites: Sites, s: Sys, t: Sys, x: Role) {
    && s.Of(x).peer.state == DataReady && t.Of(x).peer.state == DataReady
    && t.Of(x).peer.tr == Armed(s.now + sites.Cfg(x).intervalTr)
  }

  /**
   * In any gated run, fair or not: an Operational or HEARTBEAT frame is received in DataReady and restarts Tr
   * exactly if the receiver takes LStartup before it receives the last STARTUP written to it.
   */
  lemma DataIsTakenIffInTime(sites: Sites, states: nat -> Sys, acts: nat -> Action, x: Role, n: nat)
    requires Matched(sites) && GatedRun(sites, states, acts) && acts(n) == Receive(x)
    requires states(n).In(x).taken < |states(n).In(x).log|
    requires IsData(states(n).In(x).log[states(n).In(x).taken].msg)
    ensures IsTaken(sites, states(n), states(n + 1), x) <==> StartupInTime(states, acts, x)
  {
    hide Inv, Do, Gated, Matched, TookBefore, LastStartup;
    var k := FirstStartup(Other(x)) + 1;
    InvAlong(sites, states, acts, n);
    assert Enabled(states(n), acts(n)) && states(n + 1) == Do(sites, states(n), acts(n));
    DataComesThird(sites, states(n), x);
    DataInDataReady(sites, states(n), x);
    forall j: nat ensures LastStartup(states, x, j) <==> j == k {
      SecondIsLast(sites, states, acts, x, n, j);
    }
    if StartupInTime(states, acts, x) {
      var j := ReceivedAt(sites, states, acts, x, k, n);
      StartupInTimeBrings(sites, states, acts, x, k, j, n);
    } else {
      var i: nat, j: nat :| LastStartup(states, x, i) && ReceivesAt(states, acts, x, i, j)
                            && !TookBefore(states, acts, x, LStartup, j);
      if j > n {
        LinksGrow(sites, states, acts, x, n, j);
      }
      LateStartupIsFatal(sites, states, acts, x, i, j, n);
    }
  }

  /** Data follows two STARTUPs. */
  lemma DataComesThird(sites: Sites, s: Sys, x: Role)
    requires Inv(sites, s) && s.In(x).taken < |s.In(x).log| && IsData(s.In(x).log[s.In(x).taken].msg)
    ensures s.In(x).taken > FirstStartup(Other(x)) + 1
  {
    assert Follows(sites, Other(x), s.In(x).taken, s.In(x).log[s.In(x).taken].msg);
    hide Stands;
  }

  lemma DataInDataReady(sites: Sites, s: Sys, x: Role)
    requires Matched(sites) && Inv(sites, s) && Enabled(s, Receive(x))
    requires IsData(s.In(x).log[s.In(x).taken].msg)
    ensures s.Of(x).peer.state == DataReady ==> IsTaken(sites, s, Do(sites, s, Receive(x)), x)
  {
    assert Follows(sites, Other(x), s.In(x).taken, s.In(x).log[s.In(x).taken].msg);
    DataComesThird(sites, s, x);
    EventOf(sites, x, s.In(x).taken, s.In(x).log[s.In(x).taken].msg);
    hide Inv, Classify, CreateIdentificationMessage, Matched;
  }

  lemma StartupInTimeBrings(sites: Sites, states: nat -> Sys, acts: nat -> Action, x: Role, k: nat, j: nat, n: nat)
    requires Matched(sites) && GatedRun(sites, states, acts) && j < n
    requires k == FirstStartup(Other(x)) + 1 && ReceivesAt(states, acts, x, k, j)
    requires TookBefore(states, acts, x, LStartup, j)
    ensures states(n).Of(x).peer.state == DataReady
  {
    hide Inv, Do, Gated, Matched, TookBefore;
    TookIffPast(sites, states, acts, x, j);
    InvAlong(sites, states, acts, j);
    assert Enabled(states(j), acts(j)) && states(j + 1) == Do(sites, states(j), acts(j));
    ReceptionIsWritten(states(j), x);
    LogStartups(sites, states(j), x, k);
    if states(j).Of(x).peer.state == DataReady {
      ReadyIsKept(sites, states, acts, j, n, x);
    } else {
      AssociatingStaysOrAnswers(sites, states(j), acts(j), x);
      ReadyIsKept(sites, states, acts, j + 1, n, x);
    }
  }

  // Prompt peers

  /** Peers that write and take all they have before each reception are in time. */
  lemma PromptIsInTime(sites: Sites, states: nat -> Sys, acts: nat -> Action)
    requires Matched(sites) && GatedRun(sites, states, acts)
    requires forall n: nat :: Prompt(states(n), acts(n))
    ensures AllInTime(states, acts)
  {
    hide Inv, Do, Gated, Matched, TookBefore, LastStartup;
    forall x: Role, k: nat, n: nat | ReceivesAt(states, acts, x, k, n)
      ensures x == Client ==> TookBefore(states, acts, x, RSetup, n)
      ensures LastStartup(states, x, k) ==> TookBefore(states, acts, x, LStartup, n)
    {
      InvAlong(sites, states, acts, n);
      assert Enabled(states(n), acts(n)) && Prompt(states(n), acts(n));
      TookIffPast(sites, states, acts, x, n);
      DrainedIsPast(sites, states(n), x);
      if LastStartup(states, x, k) {
        ReceptionIsWritten(states(n), x);
        LastIsStartup(sites, states, acts, x, k, n);
        LogStartups(sites, states(n), x, k);
      }
    }
  }

  lemma DrainedIsPast(sites: Sites, s: Sys, x: Role)
    requires Inv(sites, s) && Enabled(s, Receive(x)) && Prompt(s, Receive(x))
    ensures x == Client ==> PastSetup(s.Of(x).peer.state)
    ensures s.In(x).taken >= FirstStartup(Other(x)) ==> PastStartup(s.Of(x).peer.state)
  {
    hide LogIs, CreateIdentificationMessage, Streams;
  }

  /** Every fair prompt run comes to DataReady on both sides, and stays there. */
  lemma FairRunsReachDataReady(sites: Sites, states: nat -> Sys, acts: nat -> Action)
    requires Matched(sites) && GatedRun(sites, states, acts) && Fair(states, acts)
    requires forall n: nat :: Prompt(states(n), acts(n))
    ensures BecomesReady(states)
  {
    PromptIsInTime(sites, states, acts);
    ReadyIffInTime(sites, states, acts);
  }
}
