/** What goes wrong without the prompt discipline: runs in which the handshake is lost, one for each way. */
module Stall {
  import opened Wrappers
  import opened FmtpMessages
  import opened FmtpPackage
  import opened StateMachine
  import opened Association
  import opened EventLaws
  import opened Peers
  import opened PromptPeers
  import opened HandshakeRun
  import opened GatedPeers
  import opened LostMessages

  /** Nothing is queued, in flight or pending, and both sides wait for a STARTUP. */
  predicate Stalled(s: Sys) {
    && s.client.peer.state == AssPending && s.server.peer.state == AssPending
    && Drained(s.client) && Drained(s.server)
    && s.up.taken == |s.up.log| && s.down.taken == |s.down.log|
  }

  lemma BothStartupsLost(sites: Sites) returns (s: Sys)
    requires Matched(sites)
    ensures Reachable(sites, Anything(), s)
    ensures s.client.peer.state == Ready && s.client.setup == [] && s.client.pending == Some(LStartup)
    ensures s.server.peer.state == Ready && s.server.setup == [] && s.server.pending == Some(LStartup)
    ensures s.client.peer.outq == [] && s.server.peer.outq == []
    ensures s.up.taken == |s.up.log| && s.down.taken == |s.down.log|
  {
    s := BothStartupsWritten(sites, Anything());
    ScriptIsUnderstood(sites, Server, STARTUP, 2);
    ScriptIsUnderstood(sites, Client, STARTUP, 1);
    hide CreateIdentificationMessage, Classify, Matched;
    s := Reach(sites, Anything(), s, Receive(Server));
    s := Reach(sites, Anything(), s, Receive(Client));
  }

  /**
   * Progress needs promptness: if both peers receive the other's STARTUP while their own after-send event is
   * still pending, both lose it in Ready, and the handshake stalls in AssPending.
   */
  lemma FreeSchedulingCanStall(sites: Sites)
    requires Matched(sites)
    ensures exists s :: Reachable(sites, Anything(), s) && Stalled(s)
  {
    var s := BothStartupsLost(sites);
    hide CreateIdentificationMessage, Matched;
    s := Reach(sites, Anything(), s, Take(Server));
    s := Reach(sites, Anything(), s, Take(Client));
    assert Stalled(s);
  }

  /** From a stall no timeout helps: none changes a state, and there is nothing left to write, take or receive. */
  lemma StallLasts(sites: Sites, s: Sys, a: Action)
    requires Stalled(s) && Enabled(s, a) && !a.Disconnect? && !a.Command? && !a.Submission?
    ensures Stalled(Do(sites, s, a))
  {
    hide CreateIdentificationMessage;
  }

  /** The client can receive the server's identification while its own after-send event still waits. */
  lemma IdentificationCanBeLost(sites: Sites)
    requires Matched(sites)
    ensures exists s :: Reachable(sites, WhenGated(), s) && IdLost(s)
  {
    ScriptIsUnderstood(sites, Client, sites.Cfg(Server).own, 0);
    hide CreateIdentificationMessage, Classify, Matched;
    var s := ClientWritesId(sites);
    s := ServerAnswersAtOnce(sites, s);
    s := Reach(sites, WhenGated(), s, Receive(Client));
    assert IdLost(s);
  }

  lemma ClientWritesId(sites: Sites) returns (t: Sys)
    ensures Reachable(sites, WhenGated(), t) && t.server == CONNECTED.server && t.down == CONNECTED.down
    ensures t.client.peer.state == ConPending && t.client.setup == []
    ensures t.up.taken == 0 && |t.up.log| == 1 && t.up.log[0].msg == sites.Cfg(Client).own
  {
    hide CreateIdentificationMessage;
    ConnectedIsReachable(sites, WhenGated());
    t := Reach(sites, WhenGated(), CONNECTED, Setup(Client));
    t := Reach(sites, WhenGated(), t, Write(Client));
  }

  lemma ServerAnswersAtOnce(sites: Sites, s: Sys) returns (t: Sys)
    requires Matched(sites) && Reachable(sites, WhenGated(), s)
    requires s.server == CONNECTED.server && s.down == CONNECTED.down
    requires s.up.taken == 0 && |s.up.log| == 1 && s.up.log[0].msg == sites.Cfg(Client).own
    ensures Reachable(sites, WhenGated(), t) && t.client == s.client
    ensures t.down.taken == 0 && |t.down.log| == 1 && t.down.log[0].msg == sites.Cfg(Server).own
  {
    hide CreateIdentificationMessage, FeedMessage, Matched;
    t := Reach(sites, WhenGated(), s, Setup(Server));
    t := Reach(sites, WhenGated(), t, Setup(Server));
    ServerAnswers(sites, t);
    t := Reach(sites, WhenGated(), t, Receive(Server));
    t := Reach(sites, WhenGated(), t, Write(Server));
  }

  /** One side can lose both STARTUPs of the other, and wait for ever while the other is in DataReady. */
  lemma OneSideCanBeLeftBehind(sites: Sites)
    requires Matched(sites)
    ensures exists s :: Reachable(sites, WhenGated(), s) && SecondMissed(s, Client) && s.server.peer.state == DataReady
  {
    var s := ClientLosesBothStartups(sites);
  }

  lemma ClientLosesBothStartups(sites: Sites) returns (s: Sys)
    requires Matched(sites)
    ensures Reachable(sites, WhenGated(), s) && SecondMissed(s, Client)
    ensures s.client.peer.state == Ready && s.client.setup == [] && s.down.taken == |s.down.log|
    ensures s.server.peer.state == DataReady && s.server.setup == [] && s.server.peer.outq == []
    ensures s.server.pending == Some(LStartup)
  {
    hide CreateIdentificationMessage, Matched;
    s := BothStartupsWritten(sites, WhenGated());
    s := ServerAssociates(sites, s);
    s := ClientLosesStartup(sites, s);
    s := ClientLosesStartup(sites, s);
    assert SecondMissed(s, Client);
  }

  /**
   * The data that the other side then sends does nothing for the association: the client takes the frame, hands its
   * text to the user and stays as it is, its Tr off.
   */
  lemma DataCanBeIgnored(sites: Sites, text: Text) returns (s: Sys)
    requires Matched(sites) && 1 <= |text| <= BODY_LIMIT
    ensures Reachable(sites, WhenGated(), s) && s.server.peer.state == DataReady && Enabled(s, Receive(Client))
    ensures s.down.log[s.down.taken].msg == FmtpMessage(OPERATIONAL, text)
    ensures Do(sites, s, Receive(Client)) == s.(down := s.down.(taken := s.down.taken + 1))
    ensures UserMessages([s.down.log[s.down.taken].msg]) == [FmtpMessage(OPERATIONAL, text)]
  {
    s := ClientLosesBothStartups(sites);
    s := ServerSendsData(sites, s, text);
    DataIsIgnored(sites, s, text);
    UserGetsAll([FmtpMessage(OPERATIONAL, text)]);
  }

  lemma ServerSendsData(sites: Sites, s: Sys, text: Text) returns (t: Sys)
    requires Reachable(sites, WhenGated(), s) && 1 <= |text| <= BODY_LIMIT
    requires s.server.peer.state == DataReady && s.server.setup == [] && s.server.peer.outq == []
    requires s.server.pending == Some(LStartup)
    ensures Reachable(sites, WhenGated(), t) && t.client == s.client && t.server.peer.state == DataReady
    ensures t.down.taken == s.down.taken && |t.down.log| == |s.down.log| + 1
    ensures t.down.log[|s.down.log|].msg == FmtpMessage(OPERATIONAL, text)
  {
    hide CreateIdentificationMessage;
    t := Reach(sites, WhenGated(), s, Take(Server));
    t := Reach(sites, WhenGated(), t, Submission(Server, text));
    t := Reach(sites, WhenGated(), t, Write(Server));
  }

  lemma DataIsIgnored(sites: Sites, s: Sys, text: Text)
    requires s.client.peer.state == Ready && Enabled(s, Receive(Client))
    requires s.down.log[s.down.taken].msg == FmtpMessage(OPERATIONAL, text)
    ensures Do(sites, s, Receive(Client)) == s.(down := s.down.(taken := s.down.taken + 1))
  {
    hide CreateIdentificationMessage;
  }

  lemma ClientLosesStartup(sites: Sites, s: Sys) returns (t: Sys)
    requires Matched(sites) && Reachable(sites, WhenGated(), s) && s.client.peer.state == Ready && s.client.setup == []
    requires s.down.taken < |s.down.log| && s.down.log[s.down.taken].msg == STARTUP
    ensures Reachable(sites, WhenGated(), t) && t == s.(down := s.down.(taken := s.down.taken + 1))
  {
    ScriptIsUnderstood(sites, Client, STARTUP, 1);
    hide CreateIdentificationMessage, Classify, Matched;
    t := Reach(sites, WhenGated(), s, Receive(Client));
  }

  lemma ServerAssociates(sites: Sites, s: Sys) returns (t: Sys)
    requires Matched(sites) && Reachable(sites, WhenGated(), s)
    requires s.server.peer.state == Ready && s.server.setup == [] && s.server.pending == Some(LStartup)
    requires s.server.peer.outq == [] && s.up.taken < |s.up.log| && s.up.log[s.up.taken].msg == STARTUP
    ensures Reachable(sites, WhenGated(), t) && t.client == s.client && t.server.peer.state == DataReady
    ensures t.server.setup == [] && t.server.peer.outq == [] && t.server.pending == Some(LStartup)
    ensures t.down.taken == s.down.taken && |t.down.log| == |s.down.log| + 1
    ensures t.down.log[..|s.down.log|] == s.down.log && t.down.log[|s.down.log|].msg == STARTUP
  {
    hide CreateIdentificationMessage, Classify, Matched;
    t := ServerTakes(sites, s);
    t := ServerCompletes(sites, t);
    hide FeedMessage, Feed;
    t := Reach(sites, WhenGated(), t, Write(Server));
  }

  lemma ServerTakes(sites: Sites, s: Sys) returns (t: Sys)
    requires Reachable(sites, WhenGated(), s) && s.server.pending == Some(LStartup)
    requires s.server.peer.state == Ready && s.server.setup == [] && s.server.peer.outq == []
    ensures Reachable(sites, WhenGated(), t) && t.(server := s.server) == s
    ensures t.server.peer.state == AssPending && Drained(t.server)
  {
    hide CreateIdentificationMessage;
    t := Reach(sites, WhenGated(), s, Take(Server));
  }

  lemma ServerCompletes(sites: Sites, s: Sys) returns (t: Sys)
    requires Matched(sites) && Reachable(sites, WhenGated(), s)
    requires s.server.peer.state == AssPending && Drained(s.server)
    requires s.up.taken < |s.up.log| && s.up.log[s.up.taken].msg == STARTUP
    ensures Reachable(sites, WhenGated(), t) && t.client == s.client && t.down == s.down
    ensures t.server.peer.state == DataReady && t.server.setup == [] && t.server.pending == None
    ensures t.server.peer.outq == [STARTUP_REQUEST]
  {
    StartupCompletes(sites, s);
    hide CreateIdentificationMessage, FeedMessage, Matched;
    t := Reach(sites, WhenGated(), s, Receive(Server));
  }

  lemma StartupCompletes(sites: Sites, s: Sys)
    requires Matched(sites) && s.server.peer.state == AssPending && Drained(s.server)
    ensures var n := FeedMessage(sites.Cfg(Server), s.now, s.server, STARTUP);
            && n.peer.state == DataReady && n.setup == [] && n.pending == None && n.peer.outq == [STARTUP_REQUEST]
  {
    ScriptIsUnderstood(sites, Server, STARTUP, 2);
    hide CreateIdentificationMessage, Classify, Matched;
  }
}
