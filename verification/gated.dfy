/**
 * The gated discipline: any scheduling at all, but without disconnects, commands or timeouts other than Ts, and
 * with user data in DataReady only. A peer may receive while its packets or its after-send event still wait.
 */
module GatedPeers {
  import opened Wrappers
  import opened FmtpMessages
  import opened StateMachine
  import opened Association
  import opened Peers
  import opened PromptPeers

  predicate Gated(a: Action, s: Sys) {
    match a
    case Setup(_) | Write(_) | Take(_) | Receive(_) | Tick(_) => true
    case Expiry(_, t) => t == Ts
    case Stale(_, t) => t == Ts
    case Submission(x, _) => s.Of(x).peer.state == DataReady
    case Disconnect(_) | Command(_, _) => false
  }

  function WhenGated(): (r: (Sys, Action) -> bool) {
    (s, a) => Gated(a, s)
  }

  // What each side writes

  /** Identification, the client's ACCEPT, one STARTUP on reaching Ready and one on reaching DataReady, then data. */
  ghost predicate Follows(sites: Sites, side: Role, k: nat, m: FmtpMessage) {
    if k == 0 then m == sites.Cfg(side).own
    else if k < FirstStartup(side) then m == ACCEPT
    else if k <= FirstStartup(side) + 1 then m == STARTUP
    else IsData(m)
  }

  ghost predicate LogIs(sites: Sites, side: Role, log: seq<Frame>) {
    forall i :: 0 <= i < |log| ==> Follows(sites, side, i, log[i].msg)
  }

  /** Data may follow, and the second STARTUP is still to be written exactly if it heads the queue. */
  ghost predicate DataFollows(q: seq<Outgoing>) {
    forall i :: 0 <= i < |q| ==> IsData(q[i].msg) && (q[i].after == None || q[i].after == Some(LData))
  }

  predicate OwesStartup(n: Node) {
    n.peer.outq != [] && n.peer.outq[0] == STARTUP_REQUEST
  }

  ghost predicate Streams(n: Node, owes: bool) {
    if owes then OwesStartup(n) && n.pending == None && DataFollows(n.peer.outq[1..])
    else DataFollows(n.peer.outq) && (n.pending == None || n.pending == Some(LStartup) || n.pending == Some(LData))
  }

  // Where each side stands, given how much it has written and how much it has received

  ghost predicate ClientStands(sites: Sites, n: Node, written: nat, received: nat) {
    match n.peer.state
    case Idle => n.setup == [LSetup] && n.peer.outq == [] && n.pending == None && written == received == 0
    case ConPending =>
      && n.setup == [] && received <= written <= 1
      && n.peer.outq == (if written == 0 then [Outgoing(sites.Cfg(Client).own, Some(RSetup))] else [])
      && n.pending == (if written == 0 then None else Some(RSetup))
    case IdPending => Drained(n) && written == 1 && received <= 1
    case Ready =>
      && n.setup == [] && received >= 1
      && (if written == 1 then n.peer.outq == [Outgoing(ACCEPT, None), STARTUP_REQUEST] && n.pending == None
          else if written == 2 then n.peer.outq == [STARTUP_REQUEST] && n.pending == None
          else written == 3 && n.peer.outq == [] && n.pending == Some(LStartup))
    case AssPending => Drained(n) && written == 3 && received >= 1
    case DataReady => n.setup == [] && received >= 2 && written >= 3 && Streams(n, written == 3)
    case _ => false
  }

  ghost predicate ServerStands(sites: Sites, n: Node, written: nat, received: nat) {
    match n.peer.state
    case Idle =>
      (n.setup == [LSetup, RSetup] || n.setup == [RSetup])
      && n.peer.outq == [] && n.pending == None && written == received == 0
    case SysIdPending => Drained(n) && written == received == 0
    case IdPending =>
      && n.setup == [] && n.pending == None && received == 1 && written <= 1
      && n.peer.outq == if written == 0 then [Outgoing(sites.Cfg(Server).own, None)] else []
    case Ready =>
      && n.setup == [] && received >= 2
      && (if written == 1 then n.peer.outq == [STARTUP_REQUEST] && n.pending == None
          else written == 2 && n.peer.outq == [] && n.pending == Some(LStartup))
    case AssPending => Drained(n) && written == 2 && received >= 2
    case DataReady => n.setup == [] && received >= 3 && written >= 2 && Streams(n, written == 2)
    case _ => false
  }

  ghost predicate Stands(sites: Sites, side: Role, n: Node, written: nat, received: nat) {
    match side
    case Client => ClientStands(sites, n, written, received)
    case Server => ServerStands(sites, n, written, received)
  }

  ghost predicate Inv(sites: Sites, s: Sys) {
    && Stands(sites, Client, s.client, |s.up.log|, s.down.taken)
    && Stands(sites, Server, s.server, |s.down.log|, s.up.taken)
    && LogIs(sites, Client, s.up.log) && s.up.taken <= |s.up.log|
    && LogIs(sites, Server, s.down.log) && s.down.taken <= |s.down.log|
  }

  /** Steps of the handshake left to a side, the second STARTUP included. */
  function Remaining(side: Role, n: Node): (k: nat) {
    match n.peer.state
    case Idle => 7 + (if side == Client then 2 else |n.setup|)
    case ConPending => 7 + |n.peer.outq|
    case SysIdPending => 7
    case IdPending => if side == Client then 6 else 5 + |n.peer.outq|
    case Ready => 3 + |n.peer.outq|
    case AssPending => 2
    case DataReady => if OwesStartup(n) then 1 else 0
    case Disabled => 0
  }

  function RemainingInAll(s: Sys): (k: nat) {
    Remaining(Client, s.client) + Remaining(Server, s.server)
  }

  /** A reception that carries the handshake on. */
  predicate Answers(state: State, m: FmtpMessage) {
    state == SysIdPending || state == IdPending || (state == AssPending && m == STARTUP)
  }

  // One lemma for each kind of step

  ghost predicate Advances(sites: Sites, side: Role, n: Node, n': Node, written: nat, received: nat) {
    Stands(sites, side, n', written, received) && Remaining(side, n') <= Remaining(side, n)
  }

  lemma SetupAdvances(sites: Sites, side: Role, n: Node, now: int, written: nat, received: nat)
    requires Stands(sites, side, n, written, received) && n.setup != []
    ensures var n' := Feed(sites.Cfg(side), now, n.(setup := n.setup[1..]), n.setup[0]);
            Advances(sites, side, n, n', written, received) && Remaining(side, n') < Remaining(side, n)
  {
  }

  lemma WriteAdvances(sites: Sites, side: Role, n: Node, written: nat, received: nat)
    requires Stands(sites, side, n, written, received) && n.setup == [] && n.pending == None && n.peer.outq != []
    ensures var n' := n.(peer := n.peer.(outq := n.peer.outq[1..]), pending := n.peer.outq[0].after);
            Advances(sites, side, n, n', written + 1, received)
            && (n.peer.state != DataReady || OwesStartup(n) ==> Remaining(side, n') < Remaining(side, n))
    ensures Follows(sites, side, written, n.peer.outq[0].msg)
  {
    hide CreateIdentificationMessage;
  }

  lemma TakeAdvances(sites: Sites, side: Role, n: Node, now: int, written: nat, received: nat)
    requires Stands(sites, side, n, written, received) && n.pending.Some?
    ensures var n' := Feed(sites.Cfg(side), now, n.(pending := None), n.pending.value);
            Advances(sites, side, n, n', written, received)
            && (n.peer.state != DataReady ==> Remaining(side, n') < Remaining(side, n))
  {
    hide CreateIdentificationMessage;
  }

  lemma EventOf(sites: Sites, side: Role, k: nat, m: FmtpMessage)
    requires Matched(sites) && Follows(sites, Other(side), k, m)
    ensures Classify(sites.Cfg(side), m)
         == Some(if k == 0 then RIdValid
                 else if k < FirstStartup(Other(side)) then RAccept
                 else if m == STARTUP then RStartup
                 else if m == HEARTBEAT then RHeartbeat
                 else RData)
  {
    IdentificationIsNotAnAnswer(sites.client.localATC, sites.client.remoteATC, true);
    IdentificationIsNotAnAnswer(sites.server.localATC, sites.server.remoteATC, true);
  }

  /** What may be received in a state, as far as the other side can have come. */
  ghost predicate MayReceive(side: Role, state: State, written: nat, k: nat) {
    && (side == Client && (state == ConPending || state == IdPending) ==> k == 0 && written == 1)
    && (side == Server && state == IdPending ==> written == 1)
    && state != Idle
  }

  /** What a reception does: it carries the handshake on, or it changes nothing but Tr. */
  ghost predicate Receives(sites: Sites, side: Role, n: Node, n': Node, written: nat, received: nat, m: FmtpMessage) {
    && Stands(sites, side, n', written, received + 1)
    && if Answers(n.peer.state, m) then Remaining(side, n') < Remaining(side, n)
       else n'.(peer := n'.peer.(tr := n.peer.tr)) == n
  }

  lemma ClientReceives(sites: Sites, n: Node, now: int, written: nat, received: nat, m: FmtpMessage)
    requires Matched(sites) && ClientStands(sites, n, written, received) && n.setup == []
    requires Follows(sites, Server, received, m) && MayReceive(Client, n.peer.state, written, received)
    ensures Receives(sites, Client, n, FeedMessage(sites.Cfg(Client), now, n, m), written, received, m)
  {
    EventOf(sites, Client, received, m);
    hide Classify, Matched, CreateIdentificationMessage, Follows, ServerStands, FromServerIdPending, FromSysIdPending;
  }

  lemma ServerReceives(sites: Sites, n: Node, now: int, written: nat, received: nat, m: FmtpMessage)
    requires Matched(sites) && ServerStands(sites, n, written, received) && n.setup == []
    requires Follows(sites, Client, received, m) && MayReceive(Server, n.peer.state, written, received)
    ensures Receives(sites, Server, n, FeedMessage(sites.Cfg(Server), now, n, m), written, received, m)
  {
    EventOf(sites, Server, received, m);
    hide Classify, Matched, CreateIdentificationMessage, Follows, ClientStands, FromClientIdPending, FromConPending;
  }

  lemma ReceiveAdvances(sites: Sites, side: Role, n: Node, now: int, written: nat, received: nat, m: FmtpMessage)
    requires Matched(sites) && Stands(sites, side, n, written, received) && n.setup == []
    requires Follows(sites, Other(side), received, m) && MayReceive(side, n.peer.state, written, received)
    ensures Receives(sites, side, n, FeedMessage(sites.Cfg(side), now, n, m), written, received, m)
  {
    hide FeedMessage, ClientStands, ServerStands, Follows, Matched, Receives;
    match side {
      case Client => ClientReceives(sites, n, now, written, received, m);
      case Server => ServerReceives(sites, n, now, written, received, m);
    }
  }

  /** How far the other side can have come when a message is there to be received. */
  lemma ReceptionIsInTurn(sites: Sites, s: Sys, x: Role)
    requires Inv(sites, s) && Enabled(s, Receive(x))
    ensures MayReceive(x, s.Of(x).peer.state, |s.Out(x).log|, s.In(x).taken)
  {
    hide LogIs, Streams, CreateIdentificationMessage;
  }

  /** A Ts event queues a heartbeat in DataReady and does nothing elsewhere. */
  lemma TsAdvances(sites: Sites, side: Role, n: Node, now: int, peer: Peer, written: nat, received: nat)
    requires Stands(sites, side, n, written, received) && (peer == n.peer || peer == SwitchOff(n.peer, Ts))
    ensures var n' := n.(peer := React(sites.Cfg(side), now, peer, TsTimeout));
            && Advances(sites, side, n, n', written, received)
            && (n.peer.state != DataReady ==> n'.(peer := n'.peer.(ts := n.peer.ts)) == n)
  {
    TsReacts(sites, side, now, peer);
    hide React, CreateIdentificationMessage;
    assert n.peer.outq != [] ==> (n.peer.outq + [Outgoing(HEARTBEAT, None)])[0] == n.peer.outq[0];
    assert n.peer.outq != [] ==>
        (n.peer.outq + [Outgoing(HEARTBEAT, None)])[1..] == n.peer.outq[1..] + [Outgoing(HEARTBEAT, None)];
  }

  lemma SubmissionAdvances(sites: Sites, side: Role, n: Node, text: Text, written: nat, received: nat)
    requires Stands(sites, side, n, written, received) && n.peer.state == DataReady
    ensures Advances(sites, side, n, n.(peer := Submit(n.peer, FmtpMessage(OPERATIONAL, text))), written, received)
  {
    hide CreateIdentificationMessage;
    var data := Outgoing(FmtpMessage(OPERATIONAL, text), Some(LData));
    assert n.peer.outq != [] ==> (n.peer.outq + [data])[0] == n.peer.outq[0];
    assert n.peer.outq != [] ==> (n.peer.outq + [data])[1..] == n.peer.outq[1..] + [data];
  }

  // All steps

  /** The steps that carry the handshake of a side on. */
  predicate Helps(s: Sys, a: Action)
    requires Enabled(s, a)
  {
    match a
    case Setup(x) => true
    case Write(x) => s.Of(x).peer.state != DataReady || OwesStartup(s.Of(x))
    case Take(x) => s.Of(x).peer.state != DataReady
    case Receive(x) => Answers(s.Of(x).peer.state, s.In(x).log[s.In(x).taken].msg)
    case _ => false
  }

  /** The two nodes differ in their timers at most. */
  predicate Same(n: Node, n': Node) {
    && n'.setup == n.setup && n'.pending == n.pending
    && n'.peer.state == n.peer.state && n'.peer.outq == n.peer.outq
  }

  /** A Ts event keeps the invariant; outside DataReady it changes nothing but that timer. */
  lemma TsKeepsStands(sites: Sites, s: Sys, a: Action, x: Role)
    requires Inv(sites, s) && Enabled(s, a) && (a == Expiry(x, Ts) || a == Stale(x, Ts))
    ensures var t := Do(sites, s, a);
            && Inv(sites, t)
            && Remaining(x, t.Of(x)) <= Remaining(x, s.Of(x)) && t.Of(Other(x)) == s.Of(Other(x))
            && (s.Of(x).peer.state != DataReady ==> Same(s.Of(x), t.Of(x)))
            && t.In(x) == s.In(x) && t.Out(x) == s.Out(x)
  {
    hide React, Stands, Remaining, Follows, CreateIdentificationMessage;
    var peer := if a.Expiry? then SwitchOff(s.Of(x).peer, Ts) else s.Of(x).peer;
    TsReacts(sites, x, s.now, s.Of(x).peer);
    TsAdvances(sites, x, s.Of(x), s.now, peer, |s.Out(x).log|, s.In(x).taken);
  }

  /** Every gated step keeps the invariant and undoes no handshake step. */
  lemma StepKeepsStands(sites: Sites, s: Sys, a: Action)
    requires Matched(sites) && Inv(sites, s) && Enabled(s, a) && Gated(a, s)
    ensures Inv(sites, Do(sites, s, a))
    ensures Remaining(Client, Do(sites, s, a).client) <= Remaining(Client, s.client)
    ensures Remaining(Server, Do(sites, s, a).server) <= Remaining(Server, s.server)
    ensures Helps(s, a) ==> RemainingInAll(Do(sites, s, a)) < RemainingInAll(s)
  {
    hide Feed, React, Stands, Remaining, Follows, Classify, FeedMessage, Matched, MayReceive, Answers, OwesStartup;
    match a {
      case Setup(x) => SetupAdvances(sites, x, s.Of(x), s.now, |s.Out(x).log|, s.In(x).taken);
      case Write(x) => WriteAdvances(sites, x, s.Of(x), |s.Out(x).log|, s.In(x).taken);
      case Take(x) => TakeAdvances(sites, x, s.Of(x), s.now, |s.Out(x).log|, s.In(x).taken);
      case Receive(x) =>
        var l := s.In(x);
        ReceptionIsInTurn(sites, s, x);
        ReceiveAdvances(sites, x, s.Of(x), s.now, |s.Out(x).log|, l.taken, l.log[l.taken].msg);
        SameIsAsFar(x, s.Of(x), FeedMessage(sites.Cfg(x), s.now, s.Of(x), l.log[l.taken].msg));
      case Expiry(x, t) => TsKeepsStands(sites, s, a, x);
      case Stale(x, t) => TsKeepsStands(sites, s, a, x);
      case Submission(x, text) => SubmissionAdvances(sites, x, s.Of(x), text, |s.Out(x).log|, s.In(x).taken);
      case Tick(d) =>
    }
  }

  lemma SameIsAsFar(side: Role, n: Node, n': Node)
    ensures n'.(peer := n'.peer.(tr := n.peer.tr)) == n ==> Remaining(side, n') == Remaining(side, n)
  {
  }

  /** A side short of DataReady is changed by its own handshake steps only; other receptions are lost on it. */
  lemma OtherStepsChangeNothing(sites: Sites, s: Sys, a: Action, x: Role)
    requires Matched(sites) && Inv(sites, s) && Enabled(s, a) && Gated(a, s)
    requires s.Of(x).peer.state != DataReady && (IsHandshake(a) && SideOf(a) == x ==> !Helps(s, a))
    ensures var t := Do(sites, s, a);
            Same(s.Of(x), t.Of(x)) && t.In(x).taken == s.In(x).taken + if a == Receive(x) then 1 else 0
  {
    hide Feed, React, Stands, Remaining, Follows, Classify, FeedMessage, Matched, MayReceive, Answers,
         CreateIdentificationMessage;
    match a {
      case Receive(y) =>
        var l := s.In(y);
        ReceptionIsInTurn(sites, s, y);
        ReceiveAdvances(sites, y, s.Of(y), s.now, |s.Out(y).log|, l.taken, l.log[l.taken].msg);
      case Expiry(y, t) => TsKeepsStands(sites, s, a, y);
      case Stale(y, t) => TsKeepsStands(sites, s, a, y);
      case _ =>
    }
  }
}
