/**
 * The prompt discipline: a peer writes what it has queued and takes the after-send event before its next
 * reception; users send only in DataReady; no disconnects, commands or timeouts other than Ts. Under it the
 * handshake always runs to its end and nothing sent after it is lost.
 */
module PromptPeers {
  import opened Wrappers
  import opened FmtpMessages
  import opened StateMachine
  import opened Association
  import opened Peers

  predicate Prompt(s: Sys, a: Action) {
    match a
    case Setup(x) => true
    case Write(x) => true
    case Take(x) => true
    case Receive(x) => s.Of(x).peer.outq == [] && s.Of(x).pending == None
    case Expiry(x, t) => t == Ts
    case Stale(x, t) => t == Ts
    case Submission(x, text) => s.Of(x).peer.state == DataReady
    case Disconnect(x) => false
    case Command(x, e) => false
    case Tick(d) => true
  }

  function Promptly(): (r: (Sys, Action) -> bool) {
    (s, a) => Prompt(s, a)
  }

  /** Each side sends what the other expects. */
  ghost predicate Matched(sites: Sites) {
    && sites.Cfg(Client).own == sites.Cfg(Server).expected
    && sites.Cfg(Server).own == sites.Cfg(Client).expected
  }

  /** What a side sends once both its STARTUPs are out: these messages restart the receiver's Tr. */
  predicate IsData(m: FmtpMessage) {
    m == HEARTBEAT || m.msgType == OPERATIONAL
  }

  /** Where the first of a side's two STARTUPs stands among its messages; the second is the next one. */
  function FirstStartup(side: Role): (k: nat) {
    if side == Client then 2 else 1
  }

  /** What a side sends from DataReady on. */
  predicate Late(m: FmtpMessage) {
    m == STARTUP || IsData(m)
  }

  /** The k-th message of a side: identification, the client's ACCEPT, STARTUP, and then what is late. */
  ghost predicate Scripted(sites: Sites, side: Role, k: nat, m: FmtpMessage) {
    if k == 0 then m == sites.Cfg(side).own
    else if k == 1 then m == (if side == Client then ACCEPT else STARTUP)
    else if k == 2 && side == Client then m == STARTUP
    else Late(m)
  }

  ghost predicate LogFollows(sites: Sites, side: Role, log: seq<Frame>) {
    forall i :: 0 <= i < |log| ==> Scripted(sites, side, i, log[i].msg)
  }

  predicate LateEvent(e: Option<Event>) {
    e == None || e == Some(LStartup) || e == Some(LData)
  }

  ghost predicate QueueIsLate(n: Node) {
    && (forall i :: 0 <= i < |n.peer.outq| ==> Late(n.peer.outq[i].msg) && LateEvent(n.peer.outq[i].after))
    && LateEvent(n.pending)
  }

  predicate Drained(n: Node) {
    n.setup == [] && n.peer.outq == [] && n.pending == None
  }

  /** Where the client stands, given how much it has written and how much it has received. */
  ghost predicate ClientAt(sites: Sites, n: Node, written: nat, received: nat) {
    match n.peer.state
    case Idle => n.setup == [LSetup] && n.peer.outq == [] && n.pending == None && written == received == 0
    case ConPending =>
      && n.setup == [] && received == 0
      && (if written == 0 then n.peer.outq == [Outgoing(sites.Cfg(Client).own, Some(RSetup))] && n.pending == None
          else n.peer.outq == [] && n.pending == Some(RSetup) && written == 1)
    case IdPending => Drained(n) && written == 1 && received == 0
    case Ready =>
      && n.setup == [] && received == 1
      && (if written == 1 then n.peer.outq == [Outgoing(ACCEPT, None), STARTUP_REQUEST] && n.pending == None
          else if written == 2 then n.peer.outq == [STARTUP_REQUEST] && n.pending == None
          else written == 3 && n.peer.outq == [] && n.pending == Some(LStartup))
    case AssPending => Drained(n) && written == 3 && received == 1
    case DataReady => n.setup == [] && QueueIsLate(n) && written >= 3 && received >= 2
    case _ => false
  }

  ghost predicate ServerAt(sites: Sites, n: Node, written: nat, received: nat) {
    match n.peer.state
    case Idle =>
      (n.setup == [LSetup, RSetup] || n.setup == [RSetup])
      && n.peer.outq == [] && n.pending == None && written == received == 0
    case SysIdPending => Drained(n) && written == received == 0
    case IdPending =>
      && n.setup == [] && n.pending == None && received == 1
      && (if written == 0 then n.peer.outq == [Outgoing(sites.Cfg(Server).own, None)]
          else written == 1 && n.peer.outq == [])
    case Ready =>
      && n.setup == [] && received == 2
      && (if written == 1 then n.peer.outq == [STARTUP_REQUEST] && n.pending == None
          else written == 2 && n.peer.outq == [] && n.pending == Some(LStartup))
    case AssPending => Drained(n) && written == 2 && received == 2
    case DataReady => n.setup == [] && QueueIsLate(n) && written >= 2 && received >= 3
    case _ => false
  }

  ghost predicate At(sites: Sites, side: Role, n: Node, written: nat, received: nat) {
    match side
    case Client => ClientAt(sites, n, written, received)
    case Server => ServerAt(sites, n, written, received)
  }

  ghost predicate PromptInv(sites: Sites, s: Sys) {
    && At(sites, Client, s.client, |s.up.log|, s.down.taken)
    && At(sites, Server, s.server, |s.down.log|, s.up.taken)
    && LogFollows(sites, Client, s.up.log) && s.up.taken <= |s.up.log|
    && LogFollows(sites, Server, s.down.log) && s.down.taken <= |s.down.log|
  }

  /** Steps of the handshake left to a side, none in DataReady. */
  function LeftTo(side: Role, n: Node): (r: nat) {
    match n.peer.state
    case Idle => if side == Client then 8 else 6 + |n.setup|
    case ConPending => 6 + |n.peer.outq|
    case SysIdPending => 6
    case IdPending => if side == Client then 5 else 4 + |n.peer.outq|
    case Ready => 2 + |n.peer.outq|
    case AssPending => 1
    case _ => 0
  }

  function Left(s: Sys): (r: nat) {
    LeftTo(Client, s.client) + LeftTo(Server, s.server)
  }

  // One lemma for each kind of step. Each step leaves a side where its counts say, and never further back.

  ghost predicate Moves(sites: Sites, side: Role, n: Node, n': Node, written: nat, received: nat) {
    At(sites, side, n', written, received) && LeftTo(side, n') <= LeftTo(side, n)
  }

  lemma SetupMoves(sites: Sites, side: Role, n: Node, now: int, written: nat, received: nat)
    requires At(sites, side, n, written, received) && n.setup != []
    ensures var n' := Feed(sites.Cfg(side), now, n.(setup := n.setup[1..]), n.setup[0]);
            Moves(sites, side, n, n', written, received) && LeftTo(side, n') < LeftTo(side, n)
  {
  }

  lemma WriteMoves(sites: Sites, side: Role, n: Node, written: nat, received: nat)
    requires At(sites, side, n, written, received) && n.setup == [] && n.pending == None && n.peer.outq != []
    ensures var n' := n.(peer := n.peer.(outq := n.peer.outq[1..]), pending := n.peer.outq[0].after);
            Moves(sites, side, n, n', written + 1, received)
            && (n.peer.state != DataReady ==> LeftTo(side, n') < LeftTo(side, n))
    ensures Scripted(sites, side, written, n.peer.outq[0].msg)
  {
    hide Late, LateEvent, CreateIdentificationMessage;
  }

  lemma TakeMoves(sites: Sites, side: Role, n: Node, now: int, written: nat, received: nat)
    requires At(sites, side, n, written, received) && n.pending.Some?
    ensures var n' := Feed(sites.Cfg(side), now, n.(pending := None), n.pending.value);
            Moves(sites, side, n, n', written, received)
            && (n.peer.state != DataReady ==> LeftTo(side, n') < LeftTo(side, n))
  {
  }

  lemma ScriptIsUnderstood(sites: Sites, side: Role, m: FmtpMessage, k: nat)
    requires Matched(sites) && Scripted(sites, Other(side), k, m)
    ensures var e := Classify(sites.Cfg(side), m);
            && (k == 0 ==> e == Some(RIdValid))
            && (side == Client && k == 1 ==> e == Some(RStartup))
            && (side == Server && k == 1 ==> e == Some(RAccept))
            && (side == Server && k == 2 ==> e == Some(RStartup))
            && (k >= 3 || (side == Client && k == 2) ==>
                  e == Some(RStartup) || e == Some(RHeartbeat) || e == Some(RData))
  {
    IdentificationIsNotAnAnswer(sites.client.localATC, sites.client.remoteATC, true);
    IdentificationIsNotAnAnswer(sites.server.localATC, sites.server.remoteATC, true);
  }

  lemma ClientReceivesEarly(sites: Sites, n: Node, now: int, written: nat, received: nat, m: FmtpMessage)
    requires Matched(sites) && ClientAt(sites, n, written, received) && Drained(n) && n.peer.state != DataReady
    requires Scripted(sites, Server, received, m)
    ensures var n' := FeedMessage(sites.Cfg(Client), now, n, m);
            && ClientAt(sites, n', written, received + 1) && LeftTo(Client, n') < LeftTo(Client, n)
  {
    ScriptIsUnderstood(sites, Client, m, received);
    hide Classify, Scripted, Matched, CreateIdentificationMessage, Late, LateEvent, TiAfter, TsAfter, TrAfter,
         FromServerIdPending, FromSysIdPending;
  }

  lemma ClientReceivesLate(sites: Sites, n: Node, now: int, written: nat, received: nat, m: FmtpMessage)
    requires Matched(sites) && ClientAt(sites, n, written, received) && Drained(n) && n.peer.state == DataReady
    requires Scripted(sites, Server, received, m)
    ensures var n' := FeedMessage(sites.Cfg(Client), now, n, m);
            && ClientAt(sites, n', written, received + 1) && n'.peer.state == DataReady
  {
    ScriptIsUnderstood(sites, Client, m, received);
    hide Classify, Scripted, Matched, CreateIdentificationMessage, Late, LateEvent, TiAfter, TsAfter, TrAfter,
         FromServerIdPending, FromSysIdPending;
  }

  lemma ServerReceivesEarly(sites: Sites, n: Node, now: int, written: nat, received: nat, m: FmtpMessage)
    requires Matched(sites) && ServerAt(sites, n, written, received) && Drained(n) && n.peer.state != DataReady
    requires Scripted(sites, Client, received, m)
    ensures var n' := FeedMessage(sites.Cfg(Server), now, n, m);
            && ServerAt(sites, n', written, received + 1) && LeftTo(Server, n') < LeftTo(Server, n)
  {
    ScriptIsUnderstood(sites, Server, m, received);
    hide Classify, Scripted, Matched, CreateIdentificationMessage, Late, LateEvent, TiAfter, TsAfter, TrAfter,
         FromClientIdPending, FromConPending;
  }

  lemma ServerReceivesLate(sites: Sites, n: Node, now: int, written: nat, received: nat, m: FmtpMessage)
    requires Matched(sites) && ServerAt(sites, n, written, received) && Drained(n) && n.peer.state == DataReady
    requires Scripted(sites, Client, received, m)
    ensures var n' := FeedMessage(sites.Cfg(Server), now, n, m);
            && ServerAt(sites, n', written, received + 1) && n'.peer.state == DataReady
  {
    ScriptIsUnderstood(sites, Server, m, received);
    hide Classify, Scripted, Matched, CreateIdentificationMessage, Late, LateEvent, TiAfter, TsAfter, TrAfter,
         FromClientIdPending, FromConPending;
  }

  lemma ReceiveMoves(sites: Sites, side: Role, n: Node, now: int, written: nat, received: nat, m: FmtpMessage)
    requires Matched(sites) && At(sites, side, n, written, received) && Drained(n)
    requires Scripted(sites, Other(side), received, m)
    ensures Moves(sites, side, n, FeedMessage(sites.Cfg(side), now, n, m), written, received + 1)
    ensures n.peer.state != DataReady ==>
              LeftTo(side, FeedMessage(sites.Cfg(side), now, n, m)) < LeftTo(side, n)
  {
    match side {
      case Client =>
        if n.peer.state == DataReady {
          ClientReceivesLate(sites, n, now, written, received, m);
        } else {
          ClientReceivesEarly(sites, n, now, written, received, m);
        }
      case Server =>
        if n.peer.state == DataReady {
          ServerReceivesLate(sites, n, now, written, received, m);
        } else {
          ServerReceivesEarly(sites, n, now, written, received, m);
        }
    }
    hide FeedMessage, ClientAt, ServerAt, LeftTo;
  }

  lemma TsReacts(sites: Sites, side: Role, now: int, p: Peer)
    ensures var p' := React(sites.Cfg(side), now, p, TsTimeout);
            if p.state == DataReady then
              p'.state == DataReady && p'.outq == p.outq + [Outgoing(HEARTBEAT, None)]
            else p' == p
    ensures forall n: Node :: Feed(sites.Cfg(side), now, n.(peer := p), TsTimeout) ==
                              n.(peer := React(sites.Cfg(side), now, p, TsTimeout))
  {
    hide CreateIdentificationMessage;
  }

  lemma TsMoves(sites: Sites, side: Role, n: Node, now: int, peer: Peer, written: nat, received: nat)
    requires At(sites, side, n, written, received) && (peer == n.peer || peer == SwitchOff(n.peer, Ts))
    ensures Moves(sites, side, n, n.(peer := React(sites.Cfg(side), now, peer, TsTimeout)), written, received)
  {
    TsReacts(sites, side, now, peer);
    hide React, CreateIdentificationMessage;
  }

  lemma SubmissionMoves(sites: Sites, side: Role, n: Node, text: Text, written: nat, received: nat)
    requires At(sites, side, n, written, received) && n.peer.state == DataReady
    ensures Moves(sites, side, n, n.(peer := Submit(n.peer, FmtpMessage(OPERATIONAL, text))), written, received)
  {
  }

  predicate IsHandshake(a: Action) {
    a.Setup? || a.Write? || a.Take? || a.Receive?
  }

  /** The side whose handshake an action carries on. */
  function SideOf(a: Action): (r: Role)
    requires IsHandshake(a)
  {
    a.side
  }

  lemma TsKeepsInv(sites: Sites, s: Sys, a: Action, x: Role)
    requires PromptInv(sites, s) && Enabled(s, a) && (a == Expiry(x, Ts) || a == Stale(x, Ts))
    ensures PromptInv(sites, Do(sites, s, a))
    ensures LeftTo(Client, Do(sites, s, a).client) <= LeftTo(Client, s.client)
    ensures LeftTo(Server, Do(sites, s, a).server) <= LeftTo(Server, s.server)
  {
    hide React, At, LeftTo, Scripted;
    var peer := if a.Expiry? then SwitchOff(s.Of(x).peer, Ts) else s.Of(x).peer;
    TsReacts(sites, x, s.now, s.Of(x).peer);
    TsMoves(sites, x, s.Of(x), s.now, peer, |s.Out(x).log|, s.In(x).taken);
  }

  /** Every prompt step keeps the invariant and undoes no handshake step; those of a waiting side complete one. */
  lemma StepKeepsInv(sites: Sites, s: Sys, a: Action)
    requires Matched(sites) && PromptInv(sites, s) && Enabled(s, a) && Prompt(s, a)
    ensures PromptInv(sites, Do(sites, s, a))
    ensures LeftTo(Client, Do(sites, s, a).client) <= LeftTo(Client, s.client)
    ensures LeftTo(Server, Do(sites, s, a).server) <= LeftTo(Server, s.server)
    ensures IsHandshake(a) && s.Of(SideOf(a)).peer.state != DataReady ==> Left(Do(sites, s, a)) < Left(s)
  {
    hide Feed, React, At, LeftTo, Scripted, Classify, FeedMessage, Matched;
    match a {
      case Setup(x) => SetupMoves(sites, x, s.Of(x), s.now, |s.Out(x).log|, s.In(x).taken);
      case Write(x) => WriteMoves(sites, x, s.Of(x), |s.Out(x).log|, s.In(x).taken);
      case Take(x) => TakeMoves(sites, x, s.Of(x), s.now, |s.Out(x).log|, s.In(x).taken);
      case Receive(x) =>
        var l := s.In(x);
        ReceiveMoves(sites, x, s.Of(x), s.now, |s.Out(x).log|, l.taken, l.log[l.taken].msg);
      case Expiry(x, t) => TsKeepsInv(sites, s, a, x);
      case Stale(x, t) => TsKeepsInv(sites, s, a, x);
      case Submission(x, text) => SubmissionMoves(sites, x, s.Of(x), text, |s.Out(x).log|, s.In(x).taken);
      case Tick(d) =>
    }
  }

  lemma {:induction false} RunsKeepInv(sites: Sites, s: Sys, actions: seq<Action>)
    requires Matched(sites) && PromptInv(sites, s) && IsRun(sites, Promptly(), s, actions)
    ensures PromptInv(sites, After(sites, s, actions))
    decreases |actions|
  {
    if actions != [] {
      StepKeepsInv(sites, s, actions[0]);
      hide PromptInv, Do, Enabled, Matched;
      RunsKeepInv(sites, Do(sites, s, actions[0]), actions[1..]);
    }
  }

  /**
   * No data is lost to the state machine. In every reachable state, with any number of frames in flight, a
   * peer about to receive an Operational or HEARTBEAT frame is in DataReady: the event is accepted, the peer
   * stays in DataReady and its Tr starts anew.
   */
  lemma NoDataLost(sites: Sites, actions: seq<Action>, x: Role)
    requires Matched(sites) && IsRun(sites, Promptly(), CONNECTED, actions)
    requires var s := After(sites, CONNECTED, actions);
             && Enabled(s, Receive(x)) && Prompt(s, Receive(x))
             && (s.In(x).log[s.In(x).taken].msg == HEARTBEAT || s.In(x).log[s.In(x).taken].msg.msgType == OPERATIONAL)
    ensures var s := After(sites, CONNECTED, actions);
            var n' := Do(sites, s, Receive(x)).Of(x);
            && s.Of(x).peer.state == DataReady && n'.peer.state == DataReady
            && n'.peer.tr == Armed(s.now + sites.Cfg(x).intervalTr)
  {
    assert PromptInv(sites, CONNECTED);
    RunsKeepInv(sites, CONNECTED, actions);
    var s := After(sites, CONNECTED, actions);
    hide IsRun, After;
    LateFrameIsTaken(sites, s, x);
  }

  lemma LateFrameIsTaken(sites: Sites, s: Sys, x: Role)
    requires Matched(sites) && PromptInv(sites, s) && Enabled(s, Receive(x)) && Prompt(s, Receive(x))
    requires var m := s.In(x).log[s.In(x).taken].msg; m == HEARTBEAT || m.msgType == OPERATIONAL
    ensures var n' := Do(sites, s, Receive(x)).Of(x);
            && s.Of(x).peer.state == DataReady && n'.peer.state == DataReady
            && n'.peer.tr == Armed(s.now + sites.Cfg(x).intervalTr)
  {
    var l := s.In(x);
    assert Scripted(sites, Other(x), l.taken, l.log[l.taken].msg);
    hide Matched, CreateIdentificationMessage, LateEvent, QueueIsLate;
  }

  /** Once in DataReady a peer stays there. */
  lemma DataReadyIsKept(sites: Sites, s: Sys, a: Action, x: Role)
    requires Matched(sites) && PromptInv(sites, s) && Enabled(s, a) && Prompt(s, a)
    requires s.Of(x).peer.state == DataReady
    ensures Do(sites, s, a).Of(x).peer.state == DataReady
  {
    StepKeepsInv(sites, s, a);
    hide Do, Enabled;
  }
}
