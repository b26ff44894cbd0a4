/** One undelayed run of the handshake, under any discipline that permits the prompt steps. */
module HandshakeRun {
  import opened Wrappers
  import opened FmtpMessages
  import opened StateMachine
  import opened Association
  import opened Peers
  import opened PromptPeers

  /** The discipline permits every prompt step of the handshake. */
  ghost predicate Permits(allowed: (Sys, Action) -> bool) {
    forall s, a :: IsHandshake(a) && Prompt(s, a) ==> allowed(s, a)
  }

  /** Everything happens at time 0. */
  ghost predicate AtOnce(s: Sys) {
    && s.now == 0
    && (forall i :: 0 <= i < |s.up.log| ==> s.up.log[i].at == 0)
    && (forall i :: 0 <= i < |s.down.log| ==> s.down.log[i].at == 0)
  }

  lemma ClientHasIntroducedItself(sites: Sites, allowed: (Sys, Action) -> bool) returns (s: Sys)
    requires Permits(allowed)
    ensures Reachable(sites, allowed, s) && AtOnce(s)
    ensures s.client.peer.state == IdPending && Drained(s.client) && s.client.peer.tr == s.client.peer.ts == Off
    ensures s.server == CONNECTED.server && s.down == CONNECTED.down
    ensures |s.up.log| == 1 && s.up.taken == 0 && s.up.log[0].msg == sites.Cfg(Client).own
  {
    hide CreateIdentificationMessage;
    ConnectedIsReachable(sites, allowed);
    s := Reach(sites, allowed, CONNECTED, Setup(Client));
    s := Reach(sites, allowed, s, Write(Client));
    s := Reach(sites, allowed, s, Take(Client));
  }

  lemma ServerIsSetUp(sites: Sites, allowed: (Sys, Action) -> bool) returns (s: Sys)
    requires Permits(allowed)
    ensures Reachable(sites, allowed, s) && AtOnce(s)
    ensures s.client.peer.state == IdPending && Drained(s.client) && s.client.peer.tr == s.client.peer.ts == Off
    ensures s.server.peer.state == SysIdPending && Drained(s.server) && s.server.peer.tr == s.server.peer.ts == Off
    ensures s.down == CONNECTED.down
    ensures |s.up.log| == 1 && s.up.taken == 0 && s.up.log[0].msg == sites.Cfg(Client).own
  {
    s := ClientHasIntroducedItself(sites, allowed);
    hide CreateIdentificationMessage;
    s := Reach(sites, allowed, s, Setup(Server));
    s := Reach(sites, allowed, s, Setup(Server));
  }

  lemma ServerAnswers(sites: Sites, s: Sys)
    requires Matched(sites) && s.server.peer.state == SysIdPending && Drained(s.server)
    ensures var n := FeedMessage(sites.Cfg(Server), s.now, s.server, sites.Cfg(Client).own);
            && n.peer.state == IdPending && n.peer.outq == [Outgoing(sites.Cfg(Server).own, None)]
            && n.peer.ts == s.server.peer.ts && n.peer.tr == s.server.peer.tr && n.setup == [] && n.pending == None
  {
    ScriptIsUnderstood(sites, Server, sites.Cfg(Client).own, 0);
    hide CreateIdentificationMessage, Classify, Matched;
  }

  lemma ServerHasReceived(sites: Sites, allowed: (Sys, Action) -> bool) returns (s: Sys)
    requires Matched(sites) && Permits(allowed)
    ensures Reachable(sites, allowed, s) && AtOnce(s)
    ensures s.client.peer.state == IdPending && Drained(s.client) && s.client.peer.tr == s.client.peer.ts == Off
    ensures s.server.peer.state == IdPending && s.server.peer.outq == [Outgoing(sites.Cfg(Server).own, None)]
    ensures s.server.setup == [] && s.server.pending == None && s.server.peer.tr == s.server.peer.ts == Off
    ensures |s.up.log| == s.up.taken == 1 && s.down == CONNECTED.down
  {
    s := ServerIsSetUp(sites, allowed);
    ServerAnswers(sites, s);
    hide CreateIdentificationMessage, FeedMessage, Matched;
    s := Reach(sites, allowed, s, Receive(Server));
  }

  lemma ServerHasAnswered(sites: Sites, allowed: (Sys, Action) -> bool) returns (s: Sys)
    requires Matched(sites) && Permits(allowed)
    ensures Reachable(sites, allowed, s) && AtOnce(s)
    ensures s.client.peer.state == IdPending && Drained(s.client) && s.client.peer.tr == s.client.peer.ts == Off
    ensures s.server.peer.state == IdPending && Drained(s.server) && s.server.peer.tr == s.server.peer.ts == Off
    ensures |s.up.log| == s.up.taken == 1
    ensures |s.down.log| == 1 && s.down.taken == 0 && s.down.log[0].msg == sites.Cfg(Server).own
  {
    s := ServerHasReceived(sites, allowed);
    hide CreateIdentificationMessage, Matched;
    s := Reach(sites, allowed, s, Write(Server));
  }

  lemma ClientHasAccepted(sites: Sites, allowed: (Sys, Action) -> bool) returns (s: Sys)
    requires Matched(sites) && Permits(allowed)
    ensures Reachable(sites, allowed, s) && AtOnce(s)
    ensures s.client.peer == Peer(Ready, Off, Off, Off, [Outgoing(ACCEPT, None), STARTUP_REQUEST])
    ensures s.client.setup == [] && s.client.pending == None
    ensures s.server.peer.state == IdPending && Drained(s.server) && s.server.peer.tr == s.server.peer.ts == Off
    ensures |s.up.log| == s.up.taken == 1 && |s.down.log| == s.down.taken == 1
  {
    s := ServerHasAnswered(sites, allowed);
    ScriptIsUnderstood(sites, Client, sites.Cfg(Server).own, 0);
    hide CreateIdentificationMessage, Classify, Matched;
    s := Reach(sites, allowed, s, Receive(Client));
  }

  lemma ClientHasWrittenItsStartup(sites: Sites, allowed: (Sys, Action) -> bool) returns (s: Sys)
    requires Matched(sites) && Permits(allowed)
    ensures Reachable(sites, allowed, s) && AtOnce(s)
    ensures s.client.peer.state == Ready && s.client.setup == [] && s.client.pending == Some(LStartup)
    ensures s.client.peer.outq == [] && s.server.peer.state == IdPending && Drained(s.server)
    ensures s.client.peer.tr == s.client.peer.ts == s.client.peer.ti == Off
    ensures s.server.peer.tr == s.server.peer.ts == Off
    ensures |s.up.log| == 3 && s.up.taken == 1 && s.up.log[1].msg == ACCEPT && s.up.log[2].msg == STARTUP
    ensures |s.down.log| == s.down.taken == 1
  {
    s := ClientHasAccepted(sites, allowed);
    hide CreateIdentificationMessage, Matched;
    s := Reach(sites, allowed, s, Write(Client));
    s := Reach(sites, allowed, s, Write(Client));
  }

  lemma BothStartupsWritten(sites: Sites, allowed: (Sys, Action) -> bool) returns (s: Sys)
    requires Matched(sites) && Permits(allowed)
    ensures Reachable(sites, allowed, s) && AtOnce(s)
    ensures s.client.peer.state == Ready && s.client.setup == [] && s.client.pending == Some(LStartup)
    ensures s.server.peer.state == Ready && s.server.setup == [] && s.server.pending == Some(LStartup)
    ensures s.client.peer.outq == [] && s.server.peer.outq == []
    ensures s.client.peer.tr == s.client.peer.ts == s.client.peer.ti == Off
    ensures s.server.peer.tr == s.server.peer.ts == s.server.peer.ti == Off
    ensures |s.up.log| == 3 && s.up.taken == 2 && s.up.log[2].msg == STARTUP
    ensures |s.down.log| == 2 && s.down.taken == 1 && s.down.log[1].msg == STARTUP
  {
    s := ClientHasWrittenItsStartup(sites, allowed);
    ScriptIsUnderstood(sites, Server, ACCEPT, 1);
    hide CreateIdentificationMessage, Classify, Matched;
    s := Reach(sites, allowed, s, Receive(Server));
    s := Reach(sites, allowed, s, Write(Server));
  }

  /** Both peers wait for the other's STARTUP, which is in flight. */
  lemma BothAssociating(sites: Sites, allowed: (Sys, Action) -> bool) returns (s: Sys)
    requires Matched(sites) && Permits(allowed)
    ensures Reachable(sites, allowed, s) && AtOnce(s)
    ensures s.client.peer == Peer(AssPending, Off, Off, Armed(sites.client.intervalTr), []) && Drained(s.client)
    ensures s.server.peer == Peer(AssPending, Off, Off, Armed(sites.server.intervalTr), []) && Drained(s.server)
    ensures |s.up.log| == 3 && s.up.taken == 2 && s.up.log[2].msg == STARTUP
    ensures |s.down.log| == 2 && s.down.taken == 1 && s.down.log[1].msg == STARTUP
  {
    s := BothStartupsWritten(sites, allowed);
    hide CreateIdentificationMessage, Matched;
    s := Reach(sites, allowed, s, Take(Client));
    s := Reach(sites, allowed, s, Take(Server));
  }
}
