/**
 * Two peers over one TCP connection: a client and a server, each with its controller, send loop and receive
 * loop, and a FIFO link in each direction. Every scheduling of their steps is a run of this system; the other
 * modules restrict the runs further.
 */
module Peers {
  import opened Wrappers
  import opened FmtpMessages
  import opened FmtpPackage
  import opened StateMachine
  import opened Association

  /** What a channel is set up with, as far as the protocol depends on it. */
  datatype Site = Site(localATC: Text, remoteATC: Text, intervalTi: int, intervalTs: int, intervalTr: int)

  function ConfigOf(role: Role, site: Site): (r: Config) {
    Config(role,
           CreateIdentificationMessage(site.localATC, site.remoteATC, true),
           CreateIdentificationMessage(site.localATC, site.remoteATC, false),
           site.intervalTi, site.intervalTs, site.intervalTr)
  }

  datatype Sites = Sites(client: Site, server: Site) {
    function Cfg(side: Role): (r: Config) {
      if side == Client then ConfigOf(Client, client) else ConfigOf(Server, server)
    }
  }

  function Other(side: Role): (r: Role) {
    if side == Client then Server else Client
  }

  /** A message on the wire and the time it was written. */
  datatype Frame = Frame(msg: FmtpMessage, at: int)

  /** All frames ever written to one direction; the first `taken` of them have been received. */
  datatype Link = Link(log: seq<Frame>, taken: nat)

  /**
   * One peer: its controller, the connection indications the transport still has to deliver (the loops start
   * after the last of them), the after-send event the send loop is blocked on, and, for the proofs, whether
   * the controller has accepted the other's identification.
   */
  datatype Node = Node(peer: Peer, setup: seq<Event>, pending: Option<Event>, validated: bool)

  datatype Sys = Sys(client: Node, server: Node, up: Link, down: Link, now: int) {
    function Of(side: Role): (r: Node) {
      if side == Client then client else server
    }
    function Out(side: Role): (r: Link) {
      if side == Client then up else down
    }
    function In(side: Role): (r: Link) {
      if side == Client then down else up
    }
    function WithNode(side: Role, n: Node): (r: Sys) {
      if side == Client then this.(client := n) else this.(server := n)
    }
    function WithOut(side: Role, l: Link): (r: Sys) {
      if side == Client then this.(up := l) else this.(down := l)
    }
    function WithIn(side: Role, l: Link): (r: Sys) {
      if side == Client then this.(down := l) else this.(up := l)
    }
  }

  const CONNECTED := Sys(Node(INITIAL_PEER, [LSetup], None, false), Node(INITIAL_PEER, [LSetup, RSetup], None, false),
                         Link([], 0), Link([], 0), 0)

  datatype Action =
    | Setup(side: Role)                     // the controller takes a connection indication
    | Write(side: Role)                     // the send loop writes a packet
    | Take(side: Role)                      // the controller takes the after-send event
    | Receive(side: Role)                   // the controller takes a received message
    | Expiry(side: Role, timer: TimerId)    // a running timer fires
    | Stale(side: Role, timer: TimerId)     // a timeout fired before its timer was restarted arrives
    | Submission(side: Role, text: Text)    // the user sends data
    | Disconnect(side: Role)                // the transport reports the end of the connection
    | Command(side: Role, event: Event)     // a local shutdown or disconnect command
    | Tick(delay: int)                      // time passes

  predicate Enabled(s: Sys, a: Action) {
    match a
    case Setup(x) => s.Of(x).setup != []
    case Write(x) => s.Of(x).setup == [] && s.Of(x).pending == None && s.Of(x).peer.outq != []
    case Take(x) => s.Of(x).pending.Some?
    case Receive(x) => s.Of(x).setup == [] && s.In(x).taken < |s.In(x).log|
    case Expiry(x, t) => AlarmOf(s.Of(x).peer, t).Armed?
    case Stale(x, t) => true
    case Submission(x, text) => 1 <= |text| <= BODY_LIMIT
    case Disconnect(x) => true
    case Command(x, e) => e == LShutdown || e == LDisconnect
    case Tick(d) => d > 0
  }

  function Feed(cfg: Config, now: int, n: Node, e: Event): (r: Node) {
    n.(peer := React(cfg, now, n.peer, e),
       validated := n.validated || (e == RIdValid && NextState(cfg.role, n.peer.state, e).Some?))
  }

  function FeedMessage(cfg: Config, now: int, n: Node, m: FmtpMessage): (r: Node) {
    match Classify(cfg, m)
    case None => n
    case Some(e) => Feed(cfg, now, n, e)
  }

  function Do(sites: Sites, s: Sys, a: Action): (r: Sys)
    requires Enabled(s, a)
  {
    match a
    case Setup(x) =>
      var n := s.Of(x);
      s.WithNode(x, Feed(sites.Cfg(x), s.now, n.(setup := n.setup[1..]), n.setup[0]))
    case Write(x) =>
      var n := s.Of(x);
      var l := s.Out(x);
      s.WithNode(x, n.(peer := n.peer.(outq := n.peer.outq[1..]), pending := n.peer.outq[0].after))
       .WithOut(x, l.(log := l.log + [Frame(n.peer.outq[0].msg, s.now)]))
    case Take(x) =>
      var n := s.Of(x);
      s.WithNode(x, Feed(sites.Cfg(x), s.now, n.(pending := None), n.pending.value))
    case Receive(x) =>
      var l := s.In(x);
      s.WithNode(x, FeedMessage(sites.Cfg(x), s.now, s.Of(x), l.log[l.taken].msg))
       .WithIn(x, l.(taken := l.taken + 1))
    case Expiry(x, t) =>
      var n := s.Of(x);
      s.WithNode(x, n.(peer := Expire(sites.Cfg(x), s.now, n.peer, t)))
    case Stale(x, t) => s.WithNode(x, Feed(sites.Cfg(x), s.now, s.Of(x), TimeoutEvent(t)))
    case Submission(x, text) =>
      var n := s.Of(x);
      s.WithNode(x, n.(peer := Submit(n.peer, FmtpMessage(OPERATIONAL, text))))
    case Disconnect(x) => s.WithNode(x, Feed(sites.Cfg(x), s.now, s.Of(x), RDisconnect))
    case Command(x, e) => s.WithNode(x, Feed(sites.Cfg(x), s.now, s.Of(x), e))
    case Tick(d) => s.(now := s.now + d)
  }

  /** The discipline of the free model: everything that is enabled may happen. */
  function Anything(): (r: (Sys, Action) -> bool) {
    (s, a) => true
  }

  /** A run under a scheduling discipline: each action is enabled, and allowed, where it is taken. */
  ghost predicate IsRun(sites: Sites, allowed: (Sys, Action) -> bool, s: Sys, actions: seq<Action>)
    decreases |actions|
  {
    actions != [] ==>
      && Enabled(s, actions[0]) && allowed(s, actions[0])
      && IsRun(sites, allowed, Do(sites, s, actions[0]), actions[1..])
  }

  ghost function After(sites: Sites, s: Sys, actions: seq<Action>): (r: Sys)
    decreases |actions|
  {
    if actions == [] || !Enabled(s, actions[0]) then s else After(sites, Do(sites, s, actions[0]), actions[1..])
  }

  /** Runs grow at their end. */
  lemma {:induction false} RunGrows(sites: Sites, allowed: (Sys, Action) -> bool, s: Sys, actions: seq<Action>,
                                    a: Action)
    requires IsRun(sites, allowed, s, actions)
    requires Enabled(After(sites, s, actions), a) && allowed(After(sites, s, actions), a)
    ensures IsRun(sites, allowed, s, actions + [a])
    ensures After(sites, s, actions + [a]) == Do(sites, After(sites, s, actions), a)
    decreases |actions|
  {
    hide Do, Enabled;
    if actions == [] {
      assert ([] + [a])[1..] == [];
      assert IsRun(sites, allowed, Do(sites, s, a), []);
    } else {
      assert (actions + [a])[1..] == actions[1..] + [a];
      RunGrows(sites, allowed, Do(sites, s, actions[0]), actions[1..], a);
    }
  }

  ghost predicate Reachable(sites: Sites, allowed: (Sys, Action) -> bool, s: Sys) {
    exists actions: seq<Action> :: IsRun(sites, allowed, CONNECTED, actions) && After(sites, CONNECTED, actions) == s
  }

  lemma Reach(sites: Sites, allowed: (Sys, Action) -> bool, s: Sys, a: Action) returns (t: Sys)
    requires Reachable(sites, allowed, s) && Enabled(s, a) && allowed(s, a)
    ensures t == Do(sites, s, a) && Reachable(sites, allowed, t)
  {
    hide Do, Enabled;
    var actions: seq<Action> :| IsRun(sites, allowed, CONNECTED, actions) && After(sites, CONNECTED, actions) == s;
    RunGrows(sites, allowed, CONNECTED, actions, a);
    t := Do(sites, s, a);
  }

  lemma ConnectedIsReachable(sites: Sites, allowed: (Sys, Action) -> bool)
    ensures Reachable(sites, allowed, CONNECTED)
  {
    assert IsRun(sites, allowed, CONNECTED, []) && After(sites, CONNECTED, []) == CONNECTED;
  }
}
