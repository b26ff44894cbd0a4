/**
 * Progress of the gated system: a fair run whose handshake is never doomed brings both peers to DataReady, for
 * good.
 */
module Liveness {
  import opened Wrappers
  import opened FmtpMessages
  import opened StateMachine
  import opened Association
  import opened Peers
  import opened PromptPeers
  import opened GatedPeers
  import opened LostMessages

  /** The next local step of a side that need not wait for a message. */
  function Own(side: Role, n: Node): (a: Option<Action>) {
    if n.setup != [] then Some(Setup(side))
    else if n.peer.state == DataReady then (if OwesStartup(n) then Some(Write(side)) else None)
    else if n.pending.Some? then Some(Take(side))
    else if n.peer.outq != [] then Some(Write(side))
    else None
  }

  predicate Waits(side: Role, n: Node) {
    n.peer.state != DataReady && Own(side, n) == None
  }

  /** A step of the handshake that is open now. */
  function Helpful(s: Sys): (a: Action) {
    if Own(Client, s.client).Some? then Own(Client, s.client).value
    else if Waits(Client, s.client) && s.down.taken < |s.down.log| then Receive(Client)
    else if Own(Server, s.server).Some? then Own(Server, s.server).value
    else Receive(Server)
  }

  /** The helpful step is enabled, even for prompt peers, and carries the handshake on. */
  ghost predicate IsOpen(s: Sys, a: Action) {
    IsHandshake(a) && Enabled(s, a) && Prompt(s, a) && Helps(s, a)
  }

  /**
   * No handshake stall: while a side is not in DataReady, a handshake step is open unless the handshake is doomed,
   * and it leaves strictly less to do.
   */
  lemma NoStall(sites: Sites, s: Sys)
    requires Matched(sites) && Inv(sites, s) && !BothReady(s) && !Doomed(s)
    ensures IsOpen(s, Helpful(s)) && RemainingInAll(Do(sites, s, Helpful(s))) < RemainingInAll(s)
  {
    HelpfulIsOpen(sites, s);
    PromptIsGated(s, Helpful(s));
    StepKeepsStands(sites, s, Helpful(s));
  }

  lemma PromptIsGated(s: Sys, a: Action)
    requires Prompt(s, a)
    ensures Gated(a, s)
  {
  }

  lemma OwnIsOpen(sites: Sites, s: Sys, x: Role)
    requires Inv(sites, s) && Own(x, s.Of(x)).Some?
    ensures IsOpen(s, Own(x, s.Of(x)).value) && !Own(x, s.Of(x)).value.Receive?
  {
    hide LogIs, CreateIdentificationMessage;
  }

  /** A side that waits and has a message to receive is carried on by it, unless the handshake is doomed. */
  lemma WaitedForIsOpen(sites: Sites, s: Sys, x: Role)
    requires Inv(sites, s) && Waits(x, s.Of(x)) && s.In(x).taken < |s.In(x).log| && !Doomed(s)
    ensures IsOpen(s, Receive(x))
  {
    assert Follows(sites, Other(x), s.In(x).taken, s.In(x).log[s.In(x).taken].msg);
    hide LogIs, CreateIdentificationMessage;
  }

  /** A side that waits has a message to receive, unless the other side waits as well, or the handshake is doomed. */
  lemma SomethingIsInFlight(sites: Sites, s: Sys)
    requires Inv(sites, s) && !BothReady(s) && !Doomed(s)
    requires Own(Client, s.client) == None && Own(Server, s.server) == None
    requires Waits(Client, s.client) ==> s.down.taken == |s.down.log|
    ensures Waits(Server, s.server) && s.up.taken < |s.up.log|
  {
    hide LogIs, CreateIdentificationMessage;
  }

  lemma HelpfulIsOpen(sites: Sites, s: Sys)
    requires Inv(sites, s) && !BothReady(s) && !Doomed(s)
    ensures IsOpen(s, Helpful(s))
    ensures Helpful(s).Receive? ==> Waits(Helpful(s).side, s.Of(Helpful(s).side))
  {
    if Own(Client, s.client).Some? {
      OwnIsOpen(sites, s, Client);
    } else if Waits(Client, s.client) && s.down.taken < |s.down.log| {
      WaitedForIsOpen(sites, s, Client);
    } else if Own(Server, s.server).Some? {
      OwnIsOpen(sites, s, Server);
    } else {
      hide Stands;
      SomethingIsInFlight(sites, s);
      WaitedForIsOpen(sites, s, Server);
    }
    hide Inv, Doomed, Own, IsOpen;
  }

  /** A step that leaves the handshake as long as it was leaves a side where it was. */
  ghost predicate Untouched(s: Sys, t: Sys, x: Role) {
    && (if s.Of(x).peer.state == DataReady then
          t.Of(x).peer.state == DataReady && Own(x, t.Of(x)) == Own(x, s.Of(x))
        else
          Same(s.Of(x), t.Of(x)) && (Waits(x, s.Of(x)) ==> t.In(x).taken == s.In(x).taken))
    && |t.In(x).log| >= |s.In(x).log|
    && (s.Of(Other(x)).peer.state != DataReady || Own(Other(x), s.Of(Other(x))).Some? ==>
          |t.In(x).log| == |s.In(x).log|)
  }

  lemma NeutralStepsLeaveNodes(sites: Sites, s: Sys, a: Action, x: Role)
    requires Matched(sites) && Inv(sites, s) && Enabled(s, a) && Gated(a, s)
    requires RemainingInAll(Do(sites, s, a)) == RemainingInAll(s)
    ensures var t := Do(sites, s, a);
            if s.Of(x).peer.state == DataReady then
              t.Of(x).peer.state == DataReady && Own(x, t.Of(x)) == Own(x, s.Of(x))
            else Same(s.Of(x), t.Of(x)) && t.In(x).taken == s.In(x).taken + if a == Receive(x) then 1 else 0
  {
    StepKeepsStands(sites, s, a);
    if s.Of(x).peer.state == DataReady {
      ReadyByRemaining(sites, s, x);
      ReadyByRemaining(sites, Do(sites, s, a), x);
    } else {
      OtherStepsChangeNothing(sites, s, a, x);
    }
    hide Inv, Do, Own, Same, Enabled, Gated, Matched;
  }

  lemma ReadyByRemaining(sites: Sites, s: Sys, x: Role)
    requires Inv(sites, s)
    ensures s.Of(x).peer.state == DataReady <==> Remaining(x, s.Of(x)) <= 1
    ensures s.Of(x).peer.state == DataReady ==>
              Own(x, s.Of(x)) == if Remaining(x, s.Of(x)) == 1 then Some(Write(x)) else None
  {
    hide LogIs, CreateIdentificationMessage, Streams;
  }

  lemma NeutralStepsWriteNothing(sites: Sites, s: Sys, a: Action, x: Role)
    requires Inv(sites, s) && Enabled(s, a) && !Helps(s, a)
    ensures |Do(sites, s, a).Out(x).log| >= |s.Out(x).log|
    ensures s.Of(x).peer.state != DataReady || Own(x, s.Of(x)).Some? ==>
              |Do(sites, s, a).Out(x).log| == |s.Out(x).log|
  {
    hide Feed, FeedMessage, React, LogIs, CreateIdentificationMessage, Streams;
  }

  lemma NeutralStepsLeaveSides(sites: Sites, s: Sys, a: Action, x: Role)
    requires Matched(sites) && Inv(sites, s) && !Doomed(s)
    requires Enabled(s, a) && Gated(a, s) && RemainingInAll(Do(sites, s, a)) == RemainingInAll(s)
    ensures Untouched(s, Do(sites, s, a), x)
  {
    NeutralStepsLeaveNodes(sites, s, a, x);
    StepKeepsStands(sites, s, a);
    NeutralStepsWriteNothing(sites, s, a, Other(x));
    if a == Receive(x) && Waits(x, s.Of(x)) {
      WaitedForIsOpen(sites, s, x);
    }
    hide Inv, Do, Own, Same, Gated, Matched, Doomed, Helps, Enabled;
  }

  /** Until it is taken, or another step has shortened the handshake, the helpful step stays the same. */
  lemma HelpfulPersists(sites: Sites, s: Sys, a: Action)
    requires Matched(sites) && Inv(sites, s) && !BothReady(s) && !Doomed(s)
    requires Enabled(s, a) && Gated(a, s) && RemainingInAll(Do(sites, s, a)) == RemainingInAll(s)
    ensures Helpful(Do(sites, s, a)) == Helpful(s) && !BothReady(Do(sites, s, a))
  {
    NeutralStepsLeaveSides(sites, s, a, Client);
    NeutralStepsLeaveSides(sites, s, a, Server);
    HelpfulIsOpen(sites, s);
    ReadyByRemaining(sites, s, Client);
    ReadyByRemaining(sites, s, Server);
    var t := Do(sites, s, a);
    hide Do, Inv, Matched, Gated, IsOpen, Doomed, RemainingInAll;
    UntouchedHelp(s, t);
  }

  lemma UntouchedHelp(s: Sys, t: Sys)
    requires Untouched(s, t, Client) && Untouched(s, t, Server) && !BothReady(s)
    requires Helpful(s).Receive? ==> Waits(Helpful(s).side, s.Of(Helpful(s).side))
    ensures Helpful(t) == Helpful(s) && !BothReady(t)
  {
  }

  // Infinite runs

  ghost predicate GatedRun(sites: Sites, states: nat -> Sys, acts: nat -> Action) {
    && states(0) == CONNECTED
    && forall n: nat :: Enabled(states(n), acts(n)) && Gated(acts(n), states(n))
                        && states(n + 1) == Do(sites, states(n), acts(n))
  }

  predicate Open(s: Sys, a: Action) {
    Enabled(s, a) && Prompt(s, a)
  }

  /**
   * Weak fairness: no step of the handshake stays open for ever without being taken. A reception need be taken
   * only if the side has nothing else to do for ever.
   */
  ghost predicate Fair(states: nat -> Sys, acts: nat -> Action) {
    forall h: Action, n: nat :: IsHandshake(h) ==> TakenOrClosed(states, acts, h, n)
  }

  ghost predicate TakenOrClosed(states: nat -> Sys, acts: nat -> Action, h: Action, n: nat) {
    exists m: nat :: m >= n && (acts(m) == h || !Open(states(m), h))
  }

  ghost predicate NeverDoomed(states: nat -> Sys) {
    forall n: nat :: !Doomed(states(n))
  }

  lemma {:induction false} InvAlong(sites: Sites, states: nat -> Sys, acts: nat -> Action, n: nat)
    requires Matched(sites) && GatedRun(sites, states, acts)
    ensures Inv(sites, states(n))
  {
    if n == 0 {
      assert Inv(sites, CONNECTED);
    } else {
      hide Inv, Do, Enabled, Gated, Matched;
      InvAlong(sites, states, acts, n - 1);
      assert states(n) == Do(sites, states(n - 1), acts(n - 1));
      StepKeepsStands(sites, states(n - 1), acts(n - 1));
    }
  }

  lemma {:induction false} RemainingFalls(sites: Sites, states: nat -> Sys, acts: nat -> Action, n: nat, m: nat)
    requires Matched(sites) && GatedRun(sites, states, acts) && n <= m
    ensures RemainingInAll(states(m)) <= RemainingInAll(states(n))
    ensures Remaining(Client, states(m).client) <= Remaining(Client, states(n).client)
    ensures Remaining(Server, states(m).server) <= Remaining(Server, states(n).server)
  {
    hide Inv, Do, Enabled, Gated, Matched, Remaining;
    if n < m {
      RemainingFalls(sites, states, acts, n, m - 1);
      InvAlong(sites, states, acts, m - 1);
      assert states(m) == Do(sites, states(m - 1), acts(m - 1));
      StepKeepsStands(sites, states(m - 1), acts(m - 1));
    }
  }

  /** DataReady, once reached, is kept. */
  lemma ReadyIsKept(sites: Sites, states: nat -> Sys, acts: nat -> Action, n: nat, m: nat, x: Role)
    requires Matched(sites) && GatedRun(sites, states, acts) && n <= m
    requires states(n).Of(x).peer.state == DataReady
    ensures states(m).Of(x).peer.state == DataReady
  {
    hide Inv, GatedRun, Matched, Remaining;
    InvAlong(sites, states, acts, n);
    InvAlong(sites, states, acts, m);
    RemainingFalls(sites, states, acts, n, m);
    ReadyByRemaining(sites, states(n), x);
    ReadyByRemaining(sites, states(m), x);
  }

  /** While nothing has shortened the handshake since n, the helpful step is still the one it was at n. */
  lemma {:induction false} HelpfulAlong(sites: Sites, states: nat -> Sys, acts: nat -> Action, n: nat, m: nat)
    requires Matched(sites) && GatedRun(sites, states, acts) && NeverDoomed(states) && n <= m
    requires !BothReady(states(n)) && RemainingInAll(states(m)) == RemainingInAll(states(n))
    ensures !BothReady(states(m)) && Helpful(states(m)) == Helpful(states(n))
  {
    hide Inv, Do, Enabled, Gated, Matched, RemainingInAll, Helpful, BothReady, Doomed, Remaining;
    if n < m {
      RemainingFalls(sites, states, acts, n, m - 1);
      RemainingFalls(sites, states, acts, m - 1, m);
      HelpfulAlong(sites, states, acts, n, m - 1);
      InvAlong(sites, states, acts, m - 1);
      assert states(m) == Do(sites, states(m - 1), acts(m - 1));
      HelpfulPersists(sites, states(m - 1), acts(m - 1));
    }
  }

  lemma HandshakeAdvances(sites: Sites, states: nat -> Sys, acts: nat -> Action, n: nat) returns (m: nat)
    requires Matched(sites) && GatedRun(sites, states, acts) && NeverDoomed(states) && Fair(states, acts)
    requires !BothReady(states(n))
    ensures m > n && RemainingInAll(states(m)) < RemainingInAll(states(n))
  {
    hide Inv, Do, Gated, Matched, RemainingInAll, Helpful, BothReady, Doomed, Remaining, Prompt, Enabled;
    InvAlong(sites, states, acts, n);
    var h := Helpful(states(n));
    NoStall(sites, states(n));
    assert TakenOrClosed(states, acts, h, n);
    var k: nat :| k >= n && (acts(k) == h || !Open(states(k), h));
    RemainingFalls(sites, states, acts, n, k);
    m := k + 1;
    if RemainingInAll(states(k)) == RemainingInAll(states(n)) {
      HelpfulAlong(sites, states, acts, n, k);
      InvAlong(sites, states, acts, k);
      NoStall(sites, states(k));
      assert acts(k) == h;
      assert states(m) == Do(sites, states(k), acts(k));
    } else {
      RemainingFalls(sites, states, acts, k, m);
    }
  }

  /** A fair run that is never doomed comes to DataReady on both sides. */
  lemma {:induction false} EventuallyReady(sites: Sites, states: nat -> Sys, acts: nat -> Action, n: nat)
      returns (m: nat)
    requires Matched(sites) && GatedRun(sites, states, acts) && NeverDoomed(states) && Fair(states, acts)
    ensures BothReady(states(m))
    decreases RemainingInAll(states(n))
  {
    if BothReady(states(n)) {
      m := n;
    } else {
      hide GatedRun, Fair, RemainingInAll, BothReady, Matched, NeverDoomed;
      var k := HandshakeAdvances(sites, states, acts, n);
      m := EventuallyReady(sites, states, acts, k);
    }
  }

  /** Both sides are in DataReady from some moment on. */
  ghost predicate ReadyFrom(states: nat -> Sys, n: nat) {
    forall m: nat :: m >= n ==> BothReady(states(m))
  }

  ghost predicate BecomesReady(states: nat -> Sys) {
    exists n: nat :: ReadyFrom(states, n)
  }

  lemma DoomedIsNotReady(s: Sys)
    requires Doomed(s)
    ensures !BothReady(s)
  {
  }

  lemma {:induction false} DoomedFrom(sites: Sites, states: nat -> Sys, acts: nat -> Action, n: nat, m: nat)
    requires Matched(sites) && GatedRun(sites, states, acts) && Doomed(states(n)) && n <= m
    ensures Doomed(states(m)) && !BothReady(states(m))
  {
    hide Inv, Do, Enabled, Gated, Matched, Doomed, BothReady;
    DoomedIsNotReady(states(n));
    if n < m {
      DoomedFrom(sites, states, acts, n, m - 1);
      InvAlong(sites, states, acts, m - 1);
      assert states(m) == Do(sites, states(m - 1), acts(m - 1));
      DoomedLasts(sites, states(m - 1), acts(m - 1));
    }
  }

  /** A fair run comes to DataReady on both sides exactly if its handshake is never doomed. */
  lemma ReadyIffNeverDoomed(sites: Sites, states: nat -> Sys, acts: nat -> Action)
    requires Matched(sites) && GatedRun(sites, states, acts) && Fair(states, acts)
    ensures BecomesReady(states) <==> NeverDoomed(states)
  {
    hide GatedRun, Fair, Matched, Doomed;
    if NeverDoomed(states) {
      var n := EventuallyReady(sites, states, acts, 0);
      forall m: nat | m >= n ensures BothReady(states(m)) {
        ReadyIsKept(sites, states, acts, n, m, Client);
        ReadyIsKept(sites, states, acts, n, m, Server);
      }
      assert ReadyFrom(states, n);
    } else {
      var n: nat :| Doomed(states(n));
      forall k: nat ensures !ReadyFrom(states, k) {
        var m := if k > n then k else n;
        DoomedFrom(sites, states, acts, n, m);
        assert !BothReady(states(m)) && m >= k;
      }
    }
  }
}
