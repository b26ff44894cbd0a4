/** The states from which the handshake can not be completed any more: a message it needs was received too early. */
module LostMessages {
  import opened Wrappers
  import opened FmtpMessages
  import opened StateMachine
  import opened Peers
  import opened PromptPeers
  import opened GatedPeers

  predicate BothReady(s: Sys) {
    s.client.peer.state == DataReady && s.server.peer.state == DataReady
  }

  predicate Associating(n: Node) {
    n.peer.state == Ready || n.peer.state == AssPending
  }

  /** The client received the server's identification before it took its own after-send event. */
  predicate IdLost(s: Sys) {
    (s.client.peer.state == ConPending || s.client.peer.state == IdPending) && s.down.taken > 0
  }

  /** A side received message k and still waits for a STARTUP. */
  predicate Missed(s: Sys, x: Role, k: nat) {
    Associating(s.Of(x)) && s.In(x).taken > k
  }

  predicate SecondMissed(s: Sys, x: Role) {
    Missed(s, x, FirstStartup(Other(x)) + 1)
  }

  predicate BothFirstMissed(s: Sys) {
    Missed(s, Client, FirstStartup(Server)) && Missed(s, Server, FirstStartup(Client))
  }

  predicate Doomed(s: Sys) {
    IdLost(s) || SecondMissed(s, Client) || SecondMissed(s, Server) || BothFirstMissed(s)
  }

  /** While a side waits for its STARTUP, and has lost the first, what it receives next decides. */
  lemma WaitingSidesLoseTheRest(sites: Sites, s: Sys, a: Action, x: Role)
    requires Matched(sites) && Inv(sites, s) && Enabled(s, a) && Gated(a, s)
    requires SecondMissed(s, x)
    ensures SecondMissed(Do(sites, s, a), x)
  {
    if a == Receive(x) {
      assert Follows(sites, Other(x), s.In(x).taken, s.In(x).log[s.In(x).taken].msg);
    }
    AssociatingStaysOrAnswers(sites, s, a, x);
    hide Do, Inv, Matched, Enabled;
  }

  /** What a step does to a side that associates. */
  ghost predicate StaysOrAnswers(s: Sys, a: Action, t: Sys, x: Role)
    requires Enabled(s, a)
  {
    var answers := a == Receive(x) && s.Of(x).peer.state == AssPending
                   && s.In(x).log[s.In(x).taken].msg == STARTUP;
    && t.In(x).taken >= s.In(x).taken
    && (Associating(t.Of(x)) || (answers && t.Of(x).peer.state == DataReady))
    && (answers ==> t.Of(x).peer.state == DataReady)
  }

  /** A side that associates goes on doing so unless it receives a STARTUP in AssPending. */
  lemma AssociatingStaysOrAnswers(sites: Sites, s: Sys, a: Action, x: Role)
    requires Matched(sites) && Inv(sites, s) && Enabled(s, a) && Gated(a, s) && Associating(s.Of(x))
    ensures StaysOrAnswers(s, a, Do(sites, s, a), x)
  {
    if !(IsHandshake(a) && SideOf(a) == x && Helps(s, a)) {
      OtherStepsChangeNothing(sites, s, a, x);
      hide Inv, Matched, Gated, Do;
    } else if a.Receive? {
      AnswerCompletes(sites, s, x);
    } else {
      HelpfulWriteOrTake(sites, s, a, x);
    }
  }

  lemma AnswerCompletes(sites: Sites, s: Sys, x: Role)
    requires Matched(sites) && Inv(sites, s) && Enabled(s, Receive(x)) && Associating(s.Of(x)) && Helps(s, Receive(x))
    ensures StaysOrAnswers(s, Receive(x), Do(sites, s, Receive(x)), x)
  {
    ReceptionIsInTurn(sites, s, x);
    StandsByState(sites, s, x);
    var l := s.In(x);
    ReceiveAdvances(sites, x, s.Of(x), s.now, |s.Out(x).log|, l.taken, l.log[l.taken].msg);
    hide Inv, LogIs, CreateIdentificationMessage, Matched, Follows, Streams, FeedMessage, MayReceive;
  }

  lemma HelpfulWriteOrTake(sites: Sites, s: Sys, a: Action, x: Role)
    requires Inv(sites, s) && Enabled(s, a) && Associating(s.Of(x))
    requires IsHandshake(a) && SideOf(a) == x && !a.Receive?
    ensures StaysOrAnswers(s, a, Do(sites, s, a), x)
  {
    StandsByState(sites, s, x);
    hide Inv, LogIs, CreateIdentificationMessage, Follows, Streams;
  }

  lemma StandsByState(sites: Sites, s: Sys, x: Role)
    requires Inv(sites, s)
    ensures Stands(sites, x, s.Of(x), |s.Out(x).log|, s.In(x).taken)
  {
  }

  /** Then neither side has anything left to receive, nor will it write. */
  lemma NothingLeftToReceive(sites: Sites, s: Sys, x: Role)
    requires Inv(sites, s) && (BothFirstMissed(s) || (x == Client && IdLost(s)))
    ensures !Enabled(s, Receive(x))
  {
    hide LogIs, Streams, CreateIdentificationMessage;
  }

  lemma BothFirstMissedLasts(sites: Sites, s: Sys, a: Action)
    requires Matched(sites) && Inv(sites, s) && Enabled(s, a) && Gated(a, s) && BothFirstMissed(s)
    ensures BothFirstMissed(Do(sites, s, a))
  {
    NothingLeftToReceive(sites, s, Client);
    NothingLeftToReceive(sites, s, Server);
    AssociatingStaysOrAnswers(sites, s, a, Client);
    AssociatingStaysOrAnswers(sites, s, a, Server);
    hide Do, Inv, Matched, Enabled;
  }

  lemma IdLostLasts(sites: Sites, s: Sys, a: Action)
    requires Matched(sites) && Inv(sites, s) && Enabled(s, a) && Gated(a, s) && IdLost(s)
    ensures IdLost(Do(sites, s, a))
  {
    NothingLeftToReceive(sites, s, Client);
    if IsHandshake(a) && SideOf(a) == Client && Helps(s, a) {
      assert a == Take(Client) by { OnlyTakeIsOpen(sites, s, a); }
      hide LogIs, Streams, CreateIdentificationMessage, Matched, ServerStands;
    } else {
      OtherStepsChangeNothing(sites, s, a, Client);
      hide Do, Inv, Matched, Enabled, Helps;
    }
  }

  lemma OnlyTakeIsOpen(sites: Sites, s: Sys, a: Action)
    requires Inv(sites, s) && Enabled(s, a) && IdLost(s)
    requires IsHandshake(a) && SideOf(a) == Client && !a.Receive?
    ensures a == Take(Client) && s.client.peer.state == ConPending && s.client.pending == Some(RSetup)
  {
    hide LogIs, Streams, CreateIdentificationMessage, ServerStands;
  }

  /** No gated step leads out: a doomed handshake is never completed. */
  lemma DoomedLasts(sites: Sites, s: Sys, a: Action)
    requires Matched(sites) && Inv(sites, s) && Enabled(s, a) && Gated(a, s) && Doomed(s)
    ensures Doomed(Do(sites, s, a)) && !BothReady(Do(sites, s, a))
  {
    if IdLost(s) {
      IdLostLasts(sites, s, a);
    } else if SecondMissed(s, Client) {
      WaitingSidesLoseTheRest(sites, s, a, Client);
    } else if SecondMissed(s, Server) {
      WaitingSidesLoseTheRest(sites, s, a, Server);
    } else {
      BothFirstMissedLasts(sites, s, a);
    }
    hide Do, Inv, Matched, Enabled;
  }
}
