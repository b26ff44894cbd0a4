/** Mutual identification: what two peers know of each other, however their steps are scheduled. */
module MutualIdentification {
  import opened Wrappers
  import opened FmtpMessages
  import opened StateMachine
  import opened Association
  import opened Peers

  predicate PastIdentification(s: State) {
    s == Ready || s == AssPending || s == DataReady
  }

  /** An identification message a peer may have sent, given who has validated whom. */
  ghost predicate Justified(sites: Sites, from: Role, m: FmtpMessage, clientKnows: bool, serverKnows: bool) {
    m.msgType == IDENTIFICATION ==>
      match from
      case Client => m == sites.Cfg(Client).own || m == REJECT || (m == ACCEPT && clientKnows && serverKnows)
      case Server => m == sites.Cfg(Server).own && serverKnows
  }

  /** No after-send event or connection indication is an answer to an identification. */
  ghost predicate Neutral(e: Event) {
    e != RIdValid && e != RAccept
  }

  ghost predicate NodeInv(sites: Sites, side: Role, n: Node, clientKnows: bool, serverKnows: bool) {
    && (forall i :: 0 <= i < |n.peer.outq| ==>
          Justified(sites, side, n.peer.outq[i].msg, clientKnows, serverKnows)
          && (n.peer.outq[i].after.Some? ==> Neutral(n.peer.outq[i].after.value)))
    && (forall i :: 0 <= i < |n.setup| ==> Neutral(n.setup[i]))
    && (n.pending.Some? ==> Neutral(n.pending.value))
    && (n.peer.state == ConPending ==> side == Client)
    && (n.peer.state == SysIdPending ==> side == Server)
    && (PastIdentification(n.peer.state) ==> clientKnows && serverKnows)
    && (side == Server && n.peer.state == IdPending ==> serverKnows)
  }

  ghost predicate LinkInv(sites: Sites, from: Role, l: Link, clientKnows: bool, serverKnows: bool) {
    forall i :: 0 <= i < |l.log| ==> Justified(sites, from, l.log[i].msg, clientKnows, serverKnows)
  }

  /** A peer knows the other only if the other sends what it expects. */
  ghost predicate KnowledgeIsTrue(sites: Sites, clientKnows: bool, serverKnows: bool) {
    && (clientKnows ==> sites.Cfg(Server).own == sites.Cfg(Client).expected)
    && (serverKnows ==> sites.Cfg(Client).own == sites.Cfg(Server).expected)
  }

  ghost predicate Inv(sites: Sites, s: Sys) {
    var c, v := s.client.validated, s.server.validated;
    && NodeInv(sites, Client, s.client, c, v) && NodeInv(sites, Server, s.server, c, v)
    && LinkInv(sites, Client, s.up, c, v) && LinkInv(sites, Server, s.down, c, v)
    && KnowledgeIsTrue(sites, c, v)
    && (c ==> v)
  }

  /** An event may reach a peer now: a valid identification or an acceptance only when they are true. */
  ghost predicate MayArrive(sites: Sites, s: Sys, side: Role, e: Event) {
    && (e == RIdValid && side == Client ==>
          s.server.validated && sites.Cfg(Server).own == sites.Cfg(Client).expected)
    && (e == RIdValid && side == Server ==> sites.Cfg(Client).own == sites.Cfg(Server).expected)
    && (e == RAccept && side == Server ==> s.client.validated && s.server.validated)
  }

  lemma MoreKnowledge(sites: Sites, s: Sys, c: bool, v: bool)
    requires Inv(sites, s) && (s.client.validated ==> c) && (s.server.validated ==> v)
    ensures NodeInv(sites, Client, s.client, c, v) && NodeInv(sites, Server, s.server, c, v)
    ensures LinkInv(sites, Client, s.up, c, v) && LinkInv(sites, Server, s.down, c, v)
  {
    hide NextState;
  }

  lemma SendsAreJustified(sites: Sites, side: Role, s: State, e: Event, c: bool, v: bool)
    requires NextState(side, s, e).Some?
    requires side == Client && s == IdPending && e == RIdValid ==> c && v
    requires side == Server && s == SysIdPending && e == RIdValid ==> v
    ensures var sends := Sends(sites.Cfg(side), s, e);
            forall i :: 0 <= i < |sends| ==>
                          Justified(sites, side, sends[i].msg, c, v)
                          && (sends[i].after.Some? ==> Neutral(sends[i].after.value))
  {
  }

  lemma StatesAreEarned(side: Role, s: State, e: Event, next: State)
    requires NextState(side, s, e) == Some(next)
    ensures next == ConPending ==> side == Client
    ensures next == SysIdPending ==> side == Server
    ensures PastIdentification(next) ==>
              (PastIdentification(s)
               || (side == Client && e == RIdValid && s == IdPending)
               || (side == Server && e == RAccept && s == IdPending))
    ensures side == Server && next == IdPending ==> e == RIdValid && s == SysIdPending
    ensures e == RIdValid && side == Server ==> s == SysIdPending
    ensures e == RIdValid && side == Client ==> s == IdPending
  {
  }

  /** A peer taking an event that may arrive keeps the invariant, whatever n leaves of its other queues. */
  lemma FeedKeepsInv(sites: Sites, s: Sys, side: Role, n: Node, now: int, e: Event)
    requires Inv(sites, s) && MayArrive(sites, s, side, e)
    requires n.validated == s.Of(side).validated
    requires NodeInv(sites, side, n, s.client.validated, s.server.validated)
    ensures Inv(sites, s.WithNode(side, Feed(sites.Cfg(side), now, n, e)))
  {
    var t := s.WithNode(side, Feed(sites.Cfg(side), now, n, e));
    var c, v := t.client.validated, t.server.validated;
    match NextState(side, n.peer.state, e) {
      case None =>
      case Some(next) =>
        StatesAreEarned(side, n.peer.state, e, next);
        hide NextState, Sends, Justified, Neutral, TiAfter, TsAfter, TrAfter, CreateIdentificationMessage, LinkInv;
        MoreKnowledge(sites, s, c, v);
        MoreKnowledge(sites, s.WithNode(side, n), c, v);
        SendsAreJustified(sites, side, n.peer.state, e, c, v);
    }
  }

  /** The event a received message stands for may arrive: its sender was entitled to send it. */
  lemma ReceivedMayArrive(sites: Sites, s: Sys, side: Role, e: Event)
    requires Inv(sites, s) && s.In(side).taken < |s.In(side).log|
    requires Classify(sites.Cfg(side), s.In(side).log[s.In(side).taken].msg) == Some(e)
    ensures MayArrive(sites, s, side, e)
  {
    var m := s.In(side).log[s.In(side).taken].msg;
    assert Justified(sites, if side == Client then Server else Client, m, s.client.validated, s.server.validated);
    IdentificationIsNotAnAnswer(sites.client.localATC, sites.client.remoteATC, true);
  }

  lemma StepKeepsInv(sites: Sites, s: Sys, a: Action)
    requires Inv(sites, s) && Enabled(s, a)
    ensures Inv(sites, Do(sites, s, a))
  {
    hide NextState, Sends, Justified, TiAfter, TsAfter, TrAfter;
    match a {
      case Setup(x) =>
        var n := s.Of(x);
        FeedKeepsInv(sites, s, x, n.(setup := n.setup[1..]), s.now, n.setup[0]);
      case Write(x) =>
        WriteKeepsInv(sites, s, x);
      case Take(x) =>
        var n := s.Of(x);
        FeedKeepsInv(sites, s, x, n.(pending := None), s.now, n.pending.value);
      case Receive(x) =>
        var l := s.In(x);
        match Classify(sites.Cfg(x), l.log[l.taken].msg) {
          case None =>
          case Some(e) =>
            ReceivedMayArrive(sites, s, x, e);
            FeedKeepsInv(sites, s, x, s.Of(x), s.now, e);
        }
      case Expiry(x, t) =>
        var n := s.Of(x);
        FeedKeepsInv(sites, s, x, n.(peer := SwitchOff(n.peer, t)), s.now, TimeoutEvent(t));
      case Stale(x, t) => FeedKeepsInv(sites, s, x, s.Of(x), s.now, TimeoutEvent(t));
      case Submission(x, text) => SubmissionKeepsInv(sites, s, x, text);
      case Disconnect(x) => FeedKeepsInv(sites, s, x, s.Of(x), s.now, RDisconnect);
      case Command(x, e) => FeedKeepsInv(sites, s, x, s.Of(x), s.now, e);
      case Tick(d) =>
    }
  }

  lemma WriteKeepsInv(sites: Sites, s: Sys, x: Role)
    requires Inv(sites, s) && Enabled(s, Write(x))
    ensures Inv(sites, Do(sites, s, Write(x)))
  {
    hide Justified, KnowledgeIsTrue;
  }

  lemma SubmissionKeepsInv(sites: Sites, s: Sys, x: Role, text: Text)
    requires Inv(sites, s) && Enabled(s, Submission(x, text))
    ensures Inv(sites, Do(sites, s, Submission(x, text)))
  {
    hide KnowledgeIsTrue;
  }

  lemma {:induction false} RunsKeepInv(sites: Sites, s: Sys, actions: seq<Action>)
    requires Inv(sites, s) && IsRun(sites, Anything(), s, actions)
    ensures Inv(sites, After(sites, s, actions))
    decreases |actions|
  {
    if actions != [] {
      StepKeepsInv(sites, s, actions[0]);
      hide Inv, Do, Enabled;
      RunsKeepInv(sites, Do(sites, s, actions[0]), actions[1..]);
    }
  }

  /**
   * Mutual identification. In one TCP connection, under any scheduling and with any timeouts, disconnects and
   * local commands: once either peer is past identification, the client has accepted the server's
   * identification and the server the client's, and each sends what the other expects.
   */
  lemma Identified(sites: Sites, actions: seq<Action>)
    requires IsRun(sites, Anything(), CONNECTED, actions)
    ensures var s := After(sites, CONNECTED, actions);
            PastIdentification(s.client.peer.state) || PastIdentification(s.server.peer.state) ==>
              && s.client.validated && s.server.validated
              && sites.Cfg(Client).own == sites.Cfg(Server).expected
              && sites.Cfg(Server).own == sites.Cfg(Client).expected
  {
    RunsKeepInv(sites, CONNECTED, actions);
  }

  /** For hyphen-free names this pins the two configurations: each names the other as its remote system. */
  lemma IdentifiedSitesAreMirrored(sites: Sites, actions: seq<Action>)
    requires HYPHEN !in sites.client.localATC && HYPHEN !in sites.server.remoteATC
    requires IsRun(sites, Anything(), CONNECTED, actions)
    ensures var s := After(sites, CONNECTED, actions);
            PastIdentification(s.client.peer.state) || PastIdentification(s.server.peer.state) ==>
              sites.client.localATC == sites.server.remoteATC && sites.client.remoteATC == sites.server.localATC
  {
    Identified(sites, actions);
    IdentificationAgreement(sites.client.localATC, sites.client.remoteATC,
                            sites.server.localATC, sites.server.remoteATC);
  }
}
