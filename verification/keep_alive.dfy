/**
 * The two peers in time. A frame arrives within a bounded delay, packets are written and after-send events
 * taken without delay, timers fire when they are due. If the intervals leave room for the delay, no timer but
 * Ts ever fires: the connection identifies, associates and then stays alive for ever.
 */
module KeepAlive {
  import opened Wrappers
  import opened FmtpMessages
  import opened StateMachine
  import opened Association
  import opened SingleController
  import opened Peers
  import opened PromptPeers
  import opened PeerLaws

  /** Time may pass until `until`: no indication, packet, event, frame or timer is due before it. */
  ghost predicate MayPass(s: Sys, bound: int, until: int) {
    && (s.client.setup != [] || s.server.setup != [] ==> until <= bound)
    && s.client.peer.outq == [] && s.client.pending == None
    && s.server.peer.outq == [] && s.server.pending == None
    && InFlightUntil(s.up, bound, until) && InFlightUntil(s.down, bound, until)
    && (forall x: Role, t: TimerId :: AlarmOf(s.Of(x).peer, t).Armed? ==> until <= AlarmOf(s.Of(x).peer, t).deadline)
  }

  /** At time `until` no frame in flight is older than the bound on the delay. */
  ghost predicate InFlightUntil(l: Link, bound: int, until: int) {
    forall i :: l.taken <= i < |l.log| ==> until <= l.log[i].at + bound
  }

  /** The timed discipline with delays of at most `bound`; any timer fires once it is due. */
  ghost predicate Timed(bound: int, s: Sys, a: Action) {
    match a
    case Expiry(x, t) => AlarmOf(s.Of(x).peer, t).Armed? && AlarmOf(s.Of(x).peer, t).deadline <= s.now
    case Stale(x, t) => false
    case Tick(d) => MayPass(s, bound, s.now + d)
    case _ => Prompt(s, a)
  }

  ghost function WithinBound(bound: int): (r: (Sys, Action) -> bool) {
    (s, a) => Timed(bound, s, a)
  }

  /** The intervals leave room for a delay of at most `bound` in each direction. */
  predicate RoomFor(sites: Sites, bound: int) {
    && 0 <= bound && 0 <= sites.client.intervalTs && 0 <= sites.server.intervalTs
    && 2 * bound < sites.client.intervalTi && 2 * bound < sites.server.intervalTi
    && sites.client.intervalTs + 2 * bound < sites.server.intervalTr
    && sites.server.intervalTs + 2 * bound < sites.client.intervalTr
  }

  // The effect of each kind of step on a peer that stands where the prompt invariant says

  function AfterSetup(cfg: Config, now: int, n: Node): (r: Peer)
    requires n.setup != []
  {
    if n.setup[0] == LSetup && cfg.role == Client then
      n.peer.(state := ConPending, outq := [Outgoing(cfg.own, Some(RSetup))])
    else if n.setup[0] == RSetup && cfg.role == Server then
      n.peer.(state := SysIdPending, ti := Armed(now + cfg.intervalTi))
    else n.peer
  }

  function AfterTake(cfg: Config, now: int, n: Node): (r: Peer) {
    match n.peer.state
    case ConPending => n.peer.(state := IdPending, ti := Armed(now + cfg.intervalTi))
    case Ready => n.peer.(state := AssPending, tr := Armed(now + cfg.intervalTr))
    case DataReady => if n.pending == Some(LData) then n.peer.(ts := Armed(now + cfg.intervalTs)) else n.peer
    case _ => n.peer
  }

  function AfterReceive(cfg: Config, now: int, n: Node, m: FmtpMessage): (r: Peer) {
    match n.peer.state
    case SysIdPending =>
      n.peer.(state := IdPending, ti := Armed(now + cfg.intervalTi), outq := [Outgoing(cfg.own, None)])
    case IdPending =>
      n.peer.(state := Ready, ti := Off,
              outq := if cfg.role == Client then [Outgoing(ACCEPT, None), STARTUP_REQUEST] else [STARTUP_REQUEST])
    case AssPending =>
      n.peer.(state := DataReady, ts := Armed(now + cfg.intervalTs), tr := Armed(now + cfg.intervalTr),
              outq := [STARTUP_REQUEST])
    case DataReady => if IsData(m) then n.peer.(tr := Armed(now + cfg.intervalTr)) else n.peer
    case _ => n.peer
  }

  lemma SetupEffect(sites: Sites, side: Role, n: Node, now: int, written: nat, received: nat)
    requires At(sites, side, n, written, received) && n.setup != []
    ensures Feed(sites.Cfg(side), now, n.(setup := n.setup[1..]), n.setup[0]).peer
         == AfterSetup(sites.Cfg(side), now, n)
  {
  }

  lemma TakeEffect(sites: Sites, side: Role, n: Node, now: int, written: nat, received: nat)
    requires At(sites, side, n, written, received) && n.pending.Some?
    ensures Feed(sites.Cfg(side), now, n.(pending := None), n.pending.value).peer == AfterTake(sites.Cfg(side), now, n)
  {
    hide CreateIdentificationMessage, FromIdle, FromSysIdPending;
  }

  lemma TsEffect(cfg: Config, now: int, p: Peer)
    requires Disciplined(cfg, p) && p.ts.Armed?
    ensures p.state == DataReady
    ensures Expire(cfg, now, p, Ts) ==
            p.(ts := Armed(now + cfg.intervalTs), outq := p.outq + [Outgoing(HEARTBEAT, None)])
  {
  }

  lemma ClientReceiveEffect(sites: Sites, n: Node, now: int, written: nat, received: nat, m: FmtpMessage)
    requires Matched(sites) && ClientAt(sites, n, written, received) && Drained(n)
    requires Scripted(sites, Server, received, m)
    requires n.peer.state == IdPending || n.peer.state == AssPending
    ensures FeedMessage(sites.Cfg(Client), now, n, m).peer == AfterReceive(sites.Cfg(Client), now, n, m)
  {
    ScriptIsUnderstood(sites, Client, m, received);
    hide Classify, Scripted, Matched, CreateIdentificationMessage, Late, LateEvent;
  }

  lemma ServerReceiveEffect(sites: Sites, n: Node, now: int, written: nat, received: nat, m: FmtpMessage)
    requires Matched(sites) && ServerAt(sites, n, written, received) && Drained(n)
    requires Scripted(sites, Client, received, m)
    requires n.peer.state != DataReady && n.peer.state != Idle
    ensures FeedMessage(sites.Cfg(Server), now, n, m).peer == AfterReceive(sites.Cfg(Server), now, n, m)
  {
    ScriptIsUnderstood(sites, Server, m, received);
    hide Classify, Scripted, Matched, CreateIdentificationMessage, Late, LateEvent;
  }

  lemma ReadyReceiveEffect(sites: Sites, side: Role, n: Node, now: int, m: FmtpMessage)
    requires n.peer.state == DataReady && Late(m)
    ensures FeedMessage(sites.Cfg(side), now, n, m).peer == AfterReceive(sites.Cfg(side), now, n, m)
  {
    hide CreateIdentificationMessage;
  }

  lemma ReceiveEffect(sites: Sites, side: Role, n: Node, now: int, written: nat, received: nat, m: FmtpMessage)
    requires Matched(sites) && At(sites, side, n, written, received) && Drained(n)
    requires Scripted(sites, Other(side), received, m) && (side == Client ==> n.peer.state != ConPending)
    ensures FeedMessage(sites.Cfg(side), now, n, m).peer == AfterReceive(sites.Cfg(side), now, n, m)
  {
    if n.peer.state == DataReady {
      assert Late(m);
      ReadyReceiveEffect(sites, side, n, now, m);
    } else if side == Client {
      ClientReceiveEffect(sites, n, now, written, received, m);
    } else {
      ServerReceiveEffect(sites, n, now, written, received, m);
    }
  }

  // The invariant

  /** The clock against frames, indications and Ts. */
  ghost predicate OnTime(sites: Sites, bound: int, s: Sys) {
    && 0 <= s.now && (s.client.setup != [] || s.server.setup != [] ==> s.now <= bound)
    && WrittenBy(s.up, s.now) && WrittenBy(s.down, s.now)
    && InFlightUntil(s.up, bound, s.now) && InFlightUntil(s.down, bound, s.now)
    && TsOnTime(sites.client.intervalTs, s.client.peer, s.now)
    && TsOnTime(sites.server.intervalTs, s.server.peer, s.now)
  }

  ghost predicate WrittenBy(l: Link, now: int) {
    forall i :: 0 <= i < |l.log| ==> l.log[i].at <= now
  }

  predicate TsOnTime(interval: int, p: Peer, now: int) {
    p.state == DataReady ==> p.ts.Armed? && now <= p.ts.deadline <= now + interval
  }

  /** During the handshake each message answers the one before within the bound, and each wait outlasts it. */
  ghost predicate ClientWaits(bound: int, s: Sys) {
    var c, u, v := s.client.peer, s.up.log, s.down.log;
    && (c.state == Idle || (c.state == ConPending && |u| == 0) ==> s.now <= bound)
    && (|u| >= 1 ==> u[0].at <= bound)
    && (c.state == IdPending && |u| >= 1 ==> c.ti.Armed? && u[0].at + 2 * bound < c.ti.deadline)
    && (c.state == Ready && |u| == 1 && |v| >= 1 ==> s.now <= v[0].at + bound)
    && (|u| >= 2 && |v| >= 1 ==> u[1].at <= v[0].at + bound)
    && (c.state == Ready && |u| == 2 ==> s.now == u[1].at)
    && (|u| >= 3 ==> u[2].at == u[1].at)
    && (c.state == AssPending && |u| >= 3 ==> c.tr.Armed? && u[2].at + 2 * bound < c.tr.deadline)
  }

  ghost predicate ServerWaits(bound: int, s: Sys) {
    var c, u, v := s.server.peer, s.up.log, s.down.log;
    && (c.state == SysIdPending ==> c.ti.Armed? && 2 * bound < c.ti.deadline)
    && (c.state == IdPending && |v| == 0 && |u| >= 1 ==>
          s.now <= u[0].at + bound && c.ti.Armed? && s.now + 2 * bound < c.ti.deadline)
    && (|v| >= 1 && |u| >= 1 ==> v[0].at <= u[0].at + bound)
    && (c.state == IdPending && |v| >= 1 ==> c.ti.Armed? && v[0].at + 2 * bound < c.ti.deadline)
    && (c.state == Ready && |v| == 1 && |u| >= 2 ==> s.now <= u[1].at + bound)
    && (|v| >= 2 && |u| >= 2 ==> v[1].at <= u[1].at + bound)
    && (c.state == AssPending && |u| >= 2 ==> c.tr.Armed? && u[1].at + bound < c.tr.deadline)
  }

  ghost predicate ArrivesBefore(l: Link, bound: int, deadline: int) {
    exists i :: l.taken <= i < |l.log| && IsData(l.log[i].msg) && l.log[i].at + bound < deadline
  }

  ghost predicate QueuesKeepAlive(p: Peer) {
    exists i :: 0 <= i < |p.outq| && IsData(p.outq[i].msg)
  }

  /**
   * In DataReady Tr will not be due before the next message that restarts it arrives: one in flight, one about
   * to be written, the other's next heartbeat, or its first once my STARTUP has reached it.
   */
  ghost predicate KeptAlive(sites: Sites, bound: int, s: Sys, x: Role) {
    var me, other := s.Of(x).peer, s.Of(Other(x)).peer;
    me.state == DataReady ==>
      && me.tr.Armed?
      && (|| ArrivesBefore(s.In(x), bound, me.tr.deadline)
          || (QueuesKeepAlive(other) && s.now + bound < me.tr.deadline)
          || (other.state == DataReady && other.ts.Armed? && other.ts.deadline + bound < me.tr.deadline)
          || (other.state != DataReady && |s.Out(x).log| > FirstStartup(x)
              && s.Out(x).log[FirstStartup(x)].at + 2 * bound + sites.Cfg(Other(x)).intervalTs < me.tr.deadline))
  }

  /** Only user data is followed by the event that restarts Ts. */
  ghost predicate DataQueued(p: Peer) {
    forall i :: 0 <= i < |p.outq| ==> p.outq[i].after == Some(LData) ==> IsData(p.outq[i].msg)
  }

  /** While that event is pending, the data has just been written: it is in flight or has just restarted Tr. */
  ghost predicate DataWritten(sites: Sites, s: Sys, x: Role) {
    var l, other := s.Out(x), s.Of(Other(x)).peer;
    s.Of(x).pending == Some(LData) ==>
      && |l.log| > 0 && l.log[|l.log| - 1].at == s.now && IsData(l.log[|l.log| - 1].msg)
      && (l.taken == |l.log| ==>
            other.state == DataReady && other.tr == Armed(s.now + sites.Cfg(Other(x)).intervalTr))
  }

  ghost predicate DataInv(sites: Sites, s: Sys) {
    && DataQueued(s.client.peer) && DataQueued(s.server.peer)
    && DataWritten(sites, s, Client) && DataWritten(sites, s, Server)
  }

  ghost predicate TimedInv(sites: Sites, bound: int, s: Sys) {
    && PromptInv(sites, s) && OnTime(sites, bound, s)
    && ClientWaits(bound, s) && ServerWaits(bound, s) && DataInv(sites, s)
    && KeptAlive(sites, bound, s, Client) && KeptAlive(sites, bound, s, Server)
    && Disciplined(sites.Cfg(Client), s.client.peer) && Disciplined(sites.Cfg(Server), s.server.peer)
  }

  // What the invariant says about due timers

  lemma ClientWaitsInVain(sites: Sites, bound: int, s: Sys)
    requires RoomFor(sites, bound) && PromptInv(sites, s) && OnTime(sites, bound, s)
    requires ClientWaits(bound, s) && ServerWaits(bound, s)
    ensures s.client.peer.state == IdPending ==> s.client.peer.ti.Armed? && s.now < s.client.peer.ti.deadline
    ensures s.client.peer.state == AssPending ==> s.client.peer.tr.Armed? && s.now < s.client.peer.tr.deadline
  {
    hide LogFollows, QueueIsLate, CreateIdentificationMessage;
  }

  lemma ServerWaitsInVain(sites: Sites, bound: int, s: Sys)
    requires RoomFor(sites, bound) && PromptInv(sites, s) && OnTime(sites, bound, s)
    requires ClientWaits(bound, s) && ServerWaits(bound, s)
    ensures s.server.peer.state == SysIdPending || s.server.peer.state == IdPending ==>
              s.server.peer.ti.Armed? && s.now < s.server.peer.ti.deadline
    ensures s.server.peer.state == AssPending ==> s.server.peer.tr.Armed? && s.now < s.server.peer.tr.deadline
  {
    hide LogFollows, QueueIsLate, CreateIdentificationMessage;
  }

  lemma KeptAliveInTime(sites: Sites, bound: int, s: Sys, x: Role)
    requires RoomFor(sites, bound) && PromptInv(sites, s) && OnTime(sites, bound, s) && KeptAlive(sites, bound, s, x)
    requires s.Of(x).peer.state == DataReady
    ensures s.now < s.Of(x).peer.tr.deadline
  {
    hide LogFollows, QueueIsLate, CreateIdentificationMessage;
  }

  /** No timer but Ts is due, in any state that satisfies the invariant. */
  lemma OnlyTsIsDue(sites: Sites, bound: int, s: Sys, x: Role, t: TimerId)
    requires RoomFor(sites, bound) && TimedInv(sites, bound, s) && t != Ts
    requires AlarmOf(s.Of(x).peer, t).Armed?
    ensures s.now < AlarmOf(s.Of(x).peer, t).deadline
  {
    ClientWaitsInVain(sites, bound, s);
    ServerWaitsInVain(sites, bound, s);
    if s.client.peer.state == DataReady {
      KeptAliveInTime(sites, bound, s, Client);
    }
    if s.server.peer.state == DataReady {
      KeptAliveInTime(sites, bound, s, Server);
    }
    hide PromptInv, OnTime, ClientWaits, ServerWaits, KeptAlive, DataInv, CreateIdentificationMessage;
  }

  // Each kind of step keeps the invariant

  ghost predicate Waits(sites: Sites, bound: int, s: Sys) {
    OnTime(sites, bound, s) && ClientWaits(bound, s) && ServerWaits(bound, s)
  }

  ghost predicate BothKeptAlive(sites: Sites, bound: int, s: Sys) {
    KeptAlive(sites, bound, s, Client) && KeptAlive(sites, bound, s, Server)
  }

  lemma SetupKeepsWaits(sites: Sites, bound: int, s: Sys, x: Role)
    requires RoomFor(sites, bound) && PromptInv(sites, s) && Waits(sites, bound, s) && Enabled(s, Setup(x))
    ensures Waits(sites, bound, Do(sites, s, Setup(x)))
  {
    SetupEffect(sites, x, s.Of(x), s.now, |s.Out(x).log|, s.In(x).taken);
    hide LogFollows, QueueIsLate, CreateIdentificationMessage, React, Feed;
  }

  lemma SetupKeepsAlive(sites: Sites, bound: int, s: Sys, x: Role)
    requires PromptInv(sites, s) && BothKeptAlive(sites, bound, s) && Enabled(s, Setup(x))
    ensures BothKeptAlive(sites, bound, Do(sites, s, Setup(x)))
  {
    SetupEffect(sites, x, s.Of(x), s.now, |s.Out(x).log|, s.In(x).taken);
    hide LogFollows, QueueIsLate, CreateIdentificationMessage, React, Feed;
  }

  lemma WriteKeepsWaits(sites: Sites, bound: int, s: Sys, x: Role)
    requires RoomFor(sites, bound) && PromptInv(sites, s) && Waits(sites, bound, s) && Enabled(s, Write(x))
    ensures Waits(sites, bound, Do(sites, s, Write(x)))
  {
    hide LogFollows, QueueIsLate, CreateIdentificationMessage;
  }

  lemma WriteKeepsAlive(sites: Sites, bound: int, s: Sys, writer: Role, x: Role)
    requires PromptInv(sites, s) && KeptAlive(sites, bound, s, x) && Enabled(s, Write(writer))
    ensures KeptAlive(sites, bound, Do(sites, s, Write(writer)), x)
  {
    hide LogFollows, QueueIsLate, CreateIdentificationMessage, ClientAt, ServerAt;
    var t := Do(sites, s, Write(writer));
    var me, other := s.Of(x).peer, s.Of(Other(x)).peer;
    if me.state == DataReady && writer == Other(x) {
      var l, l' := s.In(x), t.In(x);
      if i :| l.taken <= i < |l.log| && IsData(l.log[i].msg) && l.log[i].at + bound < me.tr.deadline {
        assert l'.log[i] == l.log[i];
        assert ArrivesBefore(l', bound, me.tr.deadline);
      } else if QueuesKeepAlive(other) && s.now + bound < me.tr.deadline {
        var k :| 0 <= k < |other.outq| && IsData(other.outq[k].msg);
        if k == 0 {
          assert l'.log[|l.log|].at == s.now && l'.log[|l.log|].msg == other.outq[0].msg;
          assert ArrivesBefore(l', bound, me.tr.deadline);
        } else {
          assert t.Of(Other(x)).peer.outq[k - 1] == other.outq[k];
        }
      }
    }
  }

  lemma TakeKeepsWaits(sites: Sites, bound: int, s: Sys, x: Role)
    requires RoomFor(sites, bound) && PromptInv(sites, s) && Waits(sites, bound, s) && Enabled(s, Take(x))
    ensures Waits(sites, bound, Do(sites, s, Take(x)))
  {
    TakeKeepsOnTime(sites, bound, s, x);
    TakeKeepsClientWaits(sites, bound, s, x);
    TakeKeepsServerWaits(sites, bound, s, x);
    hide Do, OnTime, ClientWaits, ServerWaits;
  }

  lemma TakeKeepsOnTime(sites: Sites, bound: int, s: Sys, x: Role)
    requires RoomFor(sites, bound) && PromptInv(sites, s) && Waits(sites, bound, s) && Enabled(s, Take(x))
    ensures OnTime(sites, bound, Do(sites, s, Take(x)))
  {
    TakeEffect(sites, x, s.Of(x), s.now, |s.Out(x).log|, s.In(x).taken);
    hide LogFollows, QueueIsLate, CreateIdentificationMessage, React, Feed, InFlightUntil, WrittenBy;
    hide ClientWaits, ServerWaits;
  }

  /** The effect of an after-send event, in the system. */
  lemma TakeGives(sites: Sites, s: Sys, x: Role)
    requires PromptInv(sites, s) && Enabled(s, Take(x))
    ensures var t := Do(sites, s, Take(x));
            && t.up == s.up && t.down == s.down && t.now == s.now && t.Of(Other(x)) == s.Of(Other(x))
            && t.Of(x).peer == AfterTake(sites.Cfg(x), s.now, s.Of(x))
            && t.Of(x).pending == None && t.Of(x).setup == s.Of(x).setup
  {
    TakeEffect(sites, x, s.Of(x), s.now, |s.Out(x).log|, s.In(x).taken);
    hide CreateIdentificationMessage, React, AfterTake, PromptInv;
  }

  lemma TakeKeepsClientWaits(sites: Sites, bound: int, s: Sys, x: Role)
    requires RoomFor(sites, bound) && PromptInv(sites, s) && Waits(sites, bound, s) && Enabled(s, Take(x))
    ensures ClientWaits(bound, Do(sites, s, Take(x)))
  {
    TakeGives(sites, s, x);
    hide Do, LogFollows, QueueIsLate, CreateIdentificationMessage, ServerAt, InFlightUntil, ServerWaits, TsOnTime;
  }

  lemma TakeKeepsServerWaits(sites: Sites, bound: int, s: Sys, x: Role)
    requires RoomFor(sites, bound) && PromptInv(sites, s) && Waits(sites, bound, s) && Enabled(s, Take(x))
    ensures ServerWaits(bound, Do(sites, s, Take(x)))
  {
    TakeGives(sites, s, x);
    hide Do, LogFollows, QueueIsLate, CreateIdentificationMessage, ClientAt, InFlightUntil, ClientWaits, TsOnTime;
  }

  lemma ReceiveKeepsOnTime(sites: Sites, bound: int, s: Sys, x: Role)
    requires RoomFor(sites, bound) && PromptInv(sites, s) && OnTime(sites, bound, s) && Matched(sites)
    requires Enabled(s, Receive(x)) && Prompt(s, Receive(x))
    ensures OnTime(sites, bound, Do(sites, s, Receive(x)))
  {
    ReceiveGives(sites, s, x);
    ReceiveTakesOne(sites, s, x);
    ReceiveLeavesTheRest(sites, s, x);
    hide Do, Enabled, Prompt, LogFollows, QueueIsLate, CreateIdentificationMessage, Matched, ClientAt, ServerAt;
  }

  lemma ReceiveKeepsClientWaits(sites: Sites, bound: int, s: Sys, x: Role)
    requires RoomFor(sites, bound) && PromptInv(sites, s) && Waits(sites, bound, s) && Matched(sites)
    requires Enabled(s, Receive(x)) && Prompt(s, Receive(x))
    ensures ClientWaits(bound, Do(sites, s, Receive(x)))
  {
    var l := s.In(x);
    ReceiveEffect(sites, x, s.Of(x), s.now, |s.Out(x).log|, l.taken, l.log[l.taken].msg);
    hide LogFollows, QueueIsLate, CreateIdentificationMessage, FeedMessage, Matched, ServerWaits, TsOnTime;
  }

  lemma ReceiveKeepsServerWaits(sites: Sites, bound: int, s: Sys, x: Role)
    requires RoomFor(sites, bound) && PromptInv(sites, s) && Waits(sites, bound, s) && Matched(sites)
    requires Enabled(s, Receive(x)) && Prompt(s, Receive(x))
    ensures ServerWaits(bound, Do(sites, s, Receive(x)))
  {
    var l := s.In(x);
    ReceiveEffect(sites, x, s.Of(x), s.now, |s.Out(x).log|, l.taken, l.log[l.taken].msg);
    hide LogFollows, QueueIsLate, CreateIdentificationMessage, FeedMessage, Matched, TsOnTime;
  }

  /** The receiver's own Tr, started by the STARTUP that brings it to DataReady. */
  lemma ReceiveStartsTr(sites: Sites, bound: int, s: Sys, x: Role)
    requires RoomFor(sites, bound) && PromptInv(sites, s) && OnTime(sites, bound, s) && Matched(sites)
    requires Enabled(s, Receive(x)) && Prompt(s, Receive(x)) && s.Of(x).peer.state != DataReady
    ensures KeptAlive(sites, bound, Do(sites, s, Receive(x)), x)
  {
    var l := s.In(x);
    ReceiveEffect(sites, x, s.Of(x), s.now, |s.Out(x).log|, l.taken, l.log[l.taken].msg);
    hide LogFollows, QueueIsLate, CreateIdentificationMessage, FeedMessage, Matched, InFlightUntil;
  }

  /** The receiver's own Tr in DataReady: a message that restarts it leaves the full interval for the next one. */
  lemma ReceiveKeepsReceiverAlive(sites: Sites, bound: int, s: Sys, x: Role)
    requires RoomFor(sites, bound) && PromptInv(sites, s) && OnTime(sites, bound, s) && Matched(sites)
    requires KeptAlive(sites, bound, s, x) && s.Of(x).peer.state == DataReady
    requires Enabled(s, Receive(x)) && Prompt(s, Receive(x))
    ensures KeptAlive(sites, bound, Do(sites, s, Receive(x)), x)
  {
    ReceiveGives(sites, s, x);
    ReceiveTakesOne(sites, s, x);
    DataReadyReceivesLate(sites, s, x);
    hide Do, Enabled, Prompt, PromptInv, LogFollows, CreateIdentificationMessage, Matched, InFlightUntil, TsOnTime,
         Late;
  }

  lemma DataReadyReceivesLate(sites: Sites, s: Sys, x: Role)
    requires PromptInv(sites, s) && Enabled(s, Receive(x)) && s.Of(x).peer.state == DataReady
    ensures Late(s.In(x).log[s.In(x).taken].msg)
  {
    assert Scripted(sites, Other(x), s.In(x).taken, s.In(x).log[s.In(x).taken].msg);
    hide QueueIsLate, CreateIdentificationMessage;
  }

  /** The sender's Tr: its STARTUP, once received, starts the receiver's Ts. */
  lemma ReceiveKeepsSenderAlive(sites: Sites, bound: int, s: Sys, x: Role)
    requires RoomFor(sites, bound) && PromptInv(sites, s) && OnTime(sites, bound, s) && Matched(sites)
    requires KeptAlive(sites, bound, s, Other(x))
    requires Enabled(s, Receive(x)) && Prompt(s, Receive(x))
    ensures KeptAlive(sites, bound, Do(sites, s, Receive(x)), Other(x))
  {
    var l := s.In(x);
    ReceiveEffect(sites, x, s.Of(x), s.now, |s.Out(x).log|, l.taken, l.log[l.taken].msg);
    hide LogFollows, QueueIsLate, CreateIdentificationMessage, FeedMessage, Matched;
  }

  lemma TakeKeepsTakerAlive(sites: Sites, bound: int, s: Sys, x: Role)
    requires RoomFor(sites, bound) && PromptInv(sites, s) && Enabled(s, Take(x))
    requires KeptAlive(sites, bound, s, x)
    ensures KeptAlive(sites, bound, Do(sites, s, Take(x)), x)
  {
    TakeEffect(sites, x, s.Of(x), s.now, |s.Out(x).log|, s.In(x).taken);
    hide LogFollows, QueueIsLate, CreateIdentificationMessage, React, Feed, ClientAt, ServerAt;
  }

  /** Taking the after-send event of data puts Ts off, but the data itself is on its way, or has arrived. */
  lemma TakeKeepsOtherAlive(sites: Sites, bound: int, s: Sys, x: Role)
    requires RoomFor(sites, bound) && PromptInv(sites, s) && OnTime(sites, bound, s) && Enabled(s, Take(x))
    requires KeptAlive(sites, bound, s, Other(x)) && DataWritten(sites, s, x)
    ensures KeptAlive(sites, bound, Do(sites, s, Take(x)), Other(x))
  {
    TakeGives(sites, s, x);
    var n, other, l := s.Of(x), s.Of(Other(x)).peer, s.Out(x);
    if n.pending == Some(LData) && n.peer.state == DataReady && other.state == DataReady {
      var last := l.log[|l.log| - 1];
      assert l.taken < |l.log| && last.at + bound < other.tr.deadline ==> ArrivesBefore(l, bound, other.tr.deadline);
    }
    hide Do, LogFollows, QueueIsLate, CreateIdentificationMessage, ClientAt, ServerAt, InFlightUntil, WrittenBy;
  }

  lemma TsKeepsWaits(sites: Sites, bound: int, s: Sys, x: Role)
    requires RoomFor(sites, bound) && PromptInv(sites, s) && Waits(sites, bound, s)
    requires Disciplined(sites.Cfg(x), s.Of(x).peer) && Enabled(s, Expiry(x, Ts))
    ensures Waits(sites, bound, Do(sites, s, Expiry(x, Ts)))
  {
    TsEffect(sites.Cfg(x), s.now, s.Of(x).peer);
    hide LogFollows, QueueIsLate, CreateIdentificationMessage, Expire, Disciplined;
  }

  lemma TsKeepsAlive(sites: Sites, bound: int, s: Sys, y: Role, x: Role)
    requires OnTime(sites, bound, s) && KeptAlive(sites, bound, s, x)
    requires Disciplined(sites.Cfg(y), s.Of(y).peer) && Enabled(s, Expiry(y, Ts))
    ensures KeptAlive(sites, bound, Do(sites, s, Expiry(y, Ts)), x)
  {
    var p := s.Of(y).peer;
    TsEffect(sites.Cfg(y), s.now, p);
    hide CreateIdentificationMessage, Expire, InFlightUntil, WrittenBy, Disciplined;
    var p' := Expire(sites.Cfg(y), s.now, p, Ts);
    assert p'.outq[|p.outq|].msg == HEARTBEAT;
    assert QueuesKeepAlive(p');
  }

  lemma SubmissionKeepsWaits(sites: Sites, bound: int, s: Sys, x: Role, text: Text)
    requires PromptInv(sites, s) && Waits(sites, bound, s)
    requires Enabled(s, Submission(x, text)) && Prompt(s, Submission(x, text))
    ensures Waits(sites, bound, Do(sites, s, Submission(x, text)))
  {
    hide LogFollows, QueueIsLate, CreateIdentificationMessage;
  }

  lemma SubmissionKeepsAlive(sites: Sites, bound: int, s: Sys, y: Role, text: Text, x: Role)
    requires KeptAlive(sites, bound, s, x)
    requires Enabled(s, Submission(y, text)) && Prompt(s, Submission(y, text))
    ensures KeptAlive(sites, bound, Do(sites, s, Submission(y, text)), x)
  {
    var p := s.Of(y).peer;
    var p' := Submit(p, FmtpMessage(OPERATIONAL, text));
    assert forall i :: 0 <= i < |p.outq| ==> p'.outq[i] == p.outq[i];
    assert QueuesKeepAlive(p) ==> QueuesKeepAlive(p');
    hide CreateIdentificationMessage;
  }

  lemma TickKeepsTime(sites: Sites, bound: int, s: Sys, d: int)
    requires PromptInv(sites, s) && Waits(sites, bound, s) && BothKeptAlive(sites, bound, s) && DataInv(sites, s)
    requires d > 0 && MayPass(s, bound, s.now + d)
    ensures var t := Do(sites, s, Tick(d));
            Waits(sites, bound, t) && BothKeptAlive(sites, bound, t) && DataInv(sites, t)
  {
    assert AlarmOf(s.Of(Client).peer, Ts) == s.client.peer.ts && AlarmOf(s.Of(Server).peer, Ts) == s.server.peer.ts;
    hide LogFollows, QueueIsLate, CreateIdentificationMessage;
  }

  // Data and its after-send event

  lemma WriteKeepsData(sites: Sites, s: Sys, x: Role)
    requires PromptInv(sites, s) && DataInv(sites, s) && Enabled(s, Write(x))
    ensures DataInv(sites, Do(sites, s, Write(x)))
  {
    hide LogFollows, QueueIsLate, CreateIdentificationMessage, ClientAt, ServerAt;
  }

  lemma SetupKeepsData(sites: Sites, s: Sys, x: Role)
    requires PromptInv(sites, s) && DataInv(sites, s) && Enabled(s, Setup(x))
    ensures DataInv(sites, Do(sites, s, Setup(x)))
  {
    SetupEffect(sites, x, s.Of(x), s.now, |s.Out(x).log|, s.In(x).taken);
    hide LogFollows, QueueIsLate, CreateIdentificationMessage, React, Feed;
  }

  lemma SameQueue(p: Peer, p': Peer)
    requires p'.outq == p.outq && DataQueued(p)
    ensures DataQueued(p')
  {
  }

  lemma TakeKeepsData(sites: Sites, s: Sys, x: Role)
    requires PromptInv(sites, s) && DataInv(sites, s) && Enabled(s, Take(x))
    ensures DataInv(sites, Do(sites, s, Take(x)))
  {
    hide Do, PromptInv, CreateIdentificationMessage, DataQueued, DataWritten, IsData, Enabled, AfterTake;
    TakeGives(sites, s, x);
    TakeKeepsQueue(sites, s, x);
    TakeKeepsWritten(sites, s, x);
  }

  lemma TakeKeepsQueue(sites: Sites, s: Sys, x: Role)
    requires PromptInv(sites, s) && DataQueued(s.Of(x).peer) && Enabled(s, Take(x))
    ensures DataQueued(Do(sites, s, Take(x)).Of(x).peer)
  {
    TakeGives(sites, s, x);
    hide Do, PromptInv, CreateIdentificationMessage, DataQueued, Enabled;
    SameQueue(s.Of(x).peer, AfterTake(sites.Cfg(x), s.now, s.Of(x)));
  }

  lemma TakeKeepsWritten(sites: Sites, s: Sys, x: Role)
    requires PromptInv(sites, s) && Enabled(s, Take(x)) && DataWritten(sites, s, Other(x))
    ensures DataWritten(sites, Do(sites, s, Take(x)), x) && DataWritten(sites, Do(sites, s, Take(x)), Other(x))
  {
    TakeGives(sites, s, x);
    TakeKeepsTr(sites.Cfg(x), s.now, s.Of(x));
    hide Do, PromptInv, CreateIdentificationMessage, IsData, Enabled, AfterTake, ConfigOf, DataWritten;
    OtherStaysWritten(sites, s, Do(sites, s, Take(x)), x);
  }

  lemma OtherStaysWritten(sites: Sites, s: Sys, t: Sys, x: Role)
    requires t.up == s.up && t.down == s.down && t.now == s.now && t.Of(Other(x)) == s.Of(Other(x))
    requires t.Of(x).pending == None && DataWritten(sites, s, Other(x))
    requires s.Of(x).peer.state == DataReady ==>
               t.Of(x).peer.state == DataReady && t.Of(x).peer.tr == s.Of(x).peer.tr
    ensures DataWritten(sites, t, x) && DataWritten(sites, t, Other(x))
  {
    hide IsData, CreateIdentificationMessage;
  }

  lemma TakeKeepsTr(cfg: Config, now: int, n: Node)
    ensures n.peer.state == DataReady ==>
              AfterTake(cfg, now, n).state == DataReady && AfterTake(cfg, now, n).tr == n.peer.tr
  {
  }

  lemma ReceiveKeepsQueues(sites: Sites, s: Sys, x: Role)
    requires PromptInv(sites, s) && DataInv(sites, s) && Matched(sites)
    requires Enabled(s, Receive(x)) && Prompt(s, Receive(x))
    ensures DataQueued(Do(sites, s, Receive(x)).Of(x).peer)
  {
    ReceiveGives(sites, s, x);
    hide PromptInv, Do, CreateIdentificationMessage, Matched, DataWritten;
  }

  /** The effect of a reception on the receiver, in the system. */
  lemma ReceiveGives(sites: Sites, s: Sys, x: Role)
    requires PromptInv(sites, s) && Matched(sites) && Enabled(s, Receive(x)) && Prompt(s, Receive(x))
    ensures Do(sites, s, Receive(x)).Of(x).peer
         == AfterReceive(sites.Cfg(x), s.now, s.Of(x), s.In(x).log[s.In(x).taken].msg)
  {
    var l := s.In(x);
    ReceiveEffect(sites, x, s.Of(x), s.now, |s.Out(x).log|, l.taken, l.log[l.taken].msg);
    hide FeedMessage, AfterReceive, CreateIdentificationMessage, Matched, PromptInv;
  }

  lemma ReceiveKeepsWritten(sites: Sites, s: Sys, x: Role)
    requires PromptInv(sites, s) && DataWritten(sites, s, Other(x)) && Matched(sites)
    requires Enabled(s, Receive(x)) && Prompt(s, Receive(x))
    ensures DataWritten(sites, Do(sites, s, Receive(x)), Other(x))
  {
    hide PromptInv, CreateIdentificationMessage, Do, Matched, Prompt, React;
    if IsData(s.In(x).log[s.In(x).taken].msg) {
      LateFrameIsTaken(sites, s, x);
    }
    ReceiveTakesOne(sites, s, x);
  }

  lemma ReceiveTakesOne(sites: Sites, s: Sys, x: Role)
    requires Enabled(s, Receive(x))
    ensures var t := Do(sites, s, Receive(x));
            && t.In(x) == s.In(x).(taken := s.In(x).taken + 1) && t.now == s.now
            && t.Of(Other(x)) == s.Of(Other(x)) && t.Out(x) == s.Out(x)
  {
    hide FeedMessage, CreateIdentificationMessage;
  }

  lemma ReceiveKeepsData(sites: Sites, s: Sys, x: Role)
    requires PromptInv(sites, s) && DataInv(sites, s) && Matched(sites)
    requires Enabled(s, Receive(x)) && Prompt(s, Receive(x))
    ensures DataInv(sites, Do(sites, s, Receive(x)))
  {
    ReceiveKeepsQueues(sites, s, x);
    ReceiveKeepsWritten(sites, s, x);
    ReceiveLeavesTheRest(sites, s, x);
    hide PromptInv, CreateIdentificationMessage, FeedMessage, Matched, DataQueued;
  }

  lemma ReceiveLeavesTheRest(sites: Sites, s: Sys, x: Role)
    requires Enabled(s, Receive(x))
    ensures Do(sites, s, Receive(x)).Of(x).pending == s.Of(x).pending
    ensures Do(sites, s, Receive(x)).Of(x).setup == s.Of(x).setup
  {
    hide React, Classify, CreateIdentificationMessage;
  }

  lemma TsKeepsData(sites: Sites, s: Sys, x: Role)
    requires DataInv(sites, s) && Disciplined(sites.Cfg(x), s.Of(x).peer) && Enabled(s, Expiry(x, Ts))
    ensures DataInv(sites, Do(sites, s, Expiry(x, Ts)))
  {
    hide Do, CreateIdentificationMessage, Disciplined, IsData, DataWritten, DataQueued;
    var p := s.Of(x).peer;
    TsGives(sites, s, x);
    assert DataQueued(p);
    HeartbeatIsNoData(p);
    QueueKeepsData(sites, s, Do(sites, s, Expiry(x, Ts)), x);
  }

  /** Nothing but the queue and Ts of one side has changed. */
  lemma QueueKeepsData(sites: Sites, s: Sys, t: Sys, x: Role)
    requires DataInv(sites, s) && DataQueued(t.Of(x).peer)
    requires t.up == s.up && t.down == s.down && t.now == s.now && t.Of(Other(x)) == s.Of(Other(x))
    requires t.Of(x).pending == s.Of(x).pending
    requires t.Of(x).peer.state == s.Of(x).peer.state && t.Of(x).peer.tr == s.Of(x).peer.tr
    ensures DataInv(sites, t)
  {
    hide DataQueued, IsData, CreateIdentificationMessage;
  }

  lemma TsGives(sites: Sites, s: Sys, x: Role)
    requires Disciplined(sites.Cfg(x), s.Of(x).peer) && Enabled(s, Expiry(x, Ts))
    ensures var t, p := Do(sites, s, Expiry(x, Ts)), s.Of(x).peer;
            && t.up == s.up && t.down == s.down && t.now == s.now && t.Of(Other(x)) == s.Of(Other(x))
            && t.Of(x) == s.Of(x).(peer := p.(ts := Armed(s.now + sites.Cfg(x).intervalTs),
                                                  outq := p.outq + [Outgoing(HEARTBEAT, None)]))
  {
    TsEffect(sites.Cfg(x), s.now, s.Of(x).peer);
    hide CreateIdentificationMessage, Expire, Disciplined;
  }

  lemma HeartbeatIsNoData(p: Peer)
    requires DataQueued(p)
    ensures forall ts: Alarm :: DataQueued(p.(ts := ts, outq := p.outq + [Outgoing(HEARTBEAT, None)]))
  {
  }

  lemma SubmissionKeepsData(sites: Sites, s: Sys, x: Role, text: Text)
    requires DataInv(sites, s) && Enabled(s, Submission(x, text)) && Prompt(s, Submission(x, text))
    ensures DataInv(sites, Do(sites, s, Submission(x, text)))
  {
    hide CreateIdentificationMessage;
  }

  // The theorem

  lemma StepKeepsTime(sites: Sites, bound: int, s: Sys, a: Action)
    requires RoomFor(sites, bound) && Matched(sites) && TimedInv(sites, bound, s)
    requires Enabled(s, a) && Timed(bound, s, a) && Prompt(s, a)
    ensures var t := Do(sites, s, a); Waits(sites, bound, t) && BothKeptAlive(sites, bound, t) && DataInv(sites, t)
  {
    assert Waits(sites, bound, s) && BothKeptAlive(sites, bound, s);
    hide Enabled, Do, PromptInv, OnTime, ClientWaits, ServerWaits, KeptAlive, DataInv, Disciplined, RoomFor, Matched;
    match a {
      case Setup(x) =>
        SetupKeepsWaits(sites, bound, s, x);
        SetupKeepsAlive(sites, bound, s, x);
        SetupKeepsData(sites, s, x);
      case Write(x) =>
        WriteKeepsWaits(sites, bound, s, x);
        WriteKeepsAlive(sites, bound, s, x, Client);
        WriteKeepsAlive(sites, bound, s, x, Server);
        WriteKeepsData(sites, s, x);
      case Take(x) =>
        TakeKeepsWaits(sites, bound, s, x);
        TakeKeepsTakerAlive(sites, bound, s, x);
        TakeKeepsDataOtherAlive(sites, bound, s, x);
        TakeKeepsData(sites, s, x);
      case Receive(x) =>
        ReceiveKeepsOnTime(sites, bound, s, x);
        ReceiveKeepsClientWaits(sites, bound, s, x);
        ReceiveKeepsServerWaits(sites, bound, s, x);
        if s.Of(x).peer.state == DataReady {
          ReceiveKeepsReceiverAlive(sites, bound, s, x);
        } else {
          ReceiveStartsTr(sites, bound, s, x);
        }
        ReceiveKeepsSenderAlive(sites, bound, s, x);
        ReceiveKeepsData(sites, s, x);
      case Expiry(x, t) =>
        TsKeepsWaits(sites, bound, s, x);
        TsKeepsAlive(sites, bound, s, x, Client);
        TsKeepsAlive(sites, bound, s, x, Server);
        TsKeepsData(sites, s, x);
      case Submission(x, text) =>
        SubmissionKeepsWaits(sites, bound, s, x, text);
        SubmissionKeepsAlive(sites, bound, s, x, text, Client);
        SubmissionKeepsAlive(sites, bound, s, x, text, Server);
        SubmissionKeepsData(sites, s, x, text);
      case Tick(d) => TickKeepsTime(sites, bound, s, d);
    }
  }

  lemma TakeKeepsDataOtherAlive(sites: Sites, bound: int, s: Sys, x: Role)
    requires RoomFor(sites, bound) && TimedInv(sites, bound, s) && Enabled(s, Take(x))
    ensures KeptAlive(sites, bound, Do(sites, s, Take(x)), Other(x))
  {
    hide PromptInv, OnTime, ClientWaits, ServerWaits, KeptAlive, DataWritten, DataQueued, Disciplined, Do, Enabled;
    TakeKeepsOtherAlive(sites, bound, s, x);
  }

  /** A timed step is a prompt step, for no timer but Ts is due; and it keeps the invariant. */
  lemma StepKeepsTimedInv(sites: Sites, bound: int, s: Sys, a: Action)
    requires RoomFor(sites, bound) && Matched(sites) && TimedInv(sites, bound, s)
    requires Enabled(s, a) && Timed(bound, s, a)
    ensures Prompt(s, a) && TimedInv(sites, bound, Do(sites, s, a))
  {
    if a.Expiry? && a.timer != Ts {
      OnlyTsIsDue(sites, bound, s, a.side, a.timer);
    }
    StepKeepsTime(sites, bound, s, a);
    StepKeepsInv(sites, s, a);
    StepKeepsDiscipline(sites, s, a);
    hide PromptInv, OnTime, ClientWaits, ServerWaits, KeptAlive, DataInv, Disciplined, Do, Enabled, RoomFor, Matched,
         MayPass, LeftTo;
  }

  lemma {:induction false} TimedRunsKeepInv(sites: Sites, bound: int, s: Sys, actions: seq<Action>)
    requires RoomFor(sites, bound) && Matched(sites) && TimedInv(sites, bound, s)
    requires IsRun(sites, WithinBound(bound), s, actions)
    ensures TimedInv(sites, bound, After(sites, s, actions))
    decreases |actions|
  {
    if actions != [] {
      hide TimedInv, Do, Enabled, Matched, RoomFor;
      assert Timed(bound, s, actions[0]);
      StepKeepsTimedInv(sites, bound, s, actions[0]);
      TimedRunsKeepInv(sites, bound, Do(sites, s, actions[0]), actions[1..]);
    }
  }

  /**
   * Keep-alive. With room for the delay, in every reachable state of the timed system no timer but Ts is due,
   * so neither peer ever leaves DataReady, or the handshake, for a timeout.
   */
  lemma OnlyTsEverExpires(sites: Sites, bound: int, actions: seq<Action>, x: Role, t: TimerId)
    requires RoomFor(sites, bound) && Matched(sites) && t != Ts
    requires IsRun(sites, WithinBound(bound), CONNECTED, actions)
    ensures var s := After(sites, CONNECTED, actions);
            AlarmOf(s.Of(x).peer, t).Armed? ==> s.now < AlarmOf(s.Of(x).peer, t).deadline
  {
    assert TimedInv(sites, bound, CONNECTED);
    hide TimedInv;
    TimedRunsKeepInv(sites, bound, CONNECTED, actions);
    var s := After(sites, CONNECTED, actions);
    if AlarmOf(s.Of(x).peer, t).Armed? {
      OnlyTsIsDue(sites, bound, s, x, t);
    }
  }

  /**
   * The timed system never locks: in every state of the invariant some step other than a user's is open, be it
   * the passing of a unit of time.
   */
  lemma TimeIsNotLocked(sites: Sites, bound: int, s: Sys) returns (a: Action)
    requires TimedInv(sites, bound, s)
    ensures Enabled(s, a) && Timed(bound, s, a) && !a.Submission?
  {
    hide CreateIdentificationMessage, LogFollows, QueueIsLate, ClientWaits, ServerWaits, KeptAlive, DataInv,
         Disciplined;
    if x: Role :| s.Of(x).setup != [] {
      a := Setup(x);
    } else if x: Role :| s.Of(x).pending.Some? {
      a := Take(x);
    } else if x: Role :| s.Of(x).peer.outq != [] {
      a := Write(x);
    } else if x: Role :| s.In(x).taken < |s.In(x).log| {
      a := Receive(x);
    } else if x: Role, t: TimerId :|
      AlarmOf(s.Of(x).peer, t).Armed? && AlarmOf(s.Of(x).peer, t).deadline <= s.now {
      a := Expiry(x, t);
    } else {
      assert s.Of(Client).setup == [] && s.Of(Server).setup == [];
      assert s.Of(Client).pending == None && s.Of(Server).pending == None;
      assert s.Of(Client).peer.outq == [] && s.Of(Server).peer.outq == [];
      assert s.In(Client).taken == |s.down.log| && s.In(Server).taken == |s.up.log|;
      a := Tick(1);
    }
  }
}
