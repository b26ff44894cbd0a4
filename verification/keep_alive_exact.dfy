/**
 * The interval condition of module KeepAlive is exact: if Ts of one side plus twice the delay reaches Tr of the
 * other, some timed run lets Tr run out in DataReady. The run delays one STARTUP and the first heartbeat fully.
 */
module KeepAliveExact {
  import opened Wrappers
  import opened FmtpMessages
  import opened StateMachine
  import opened Association
  import opened Peers
  import opened PromptPeers
  import opened KeepAlive
  import opened HandshakeRun

  /** Tr of a peer in DataReady is due. */
  predicate Loses(s: Sys, x: Role) {
    s.Of(x).peer.state == DataReady && s.Of(x).peer.tr.Armed? && s.Of(x).peer.tr.deadline <= s.now
  }

  ghost predicate TimedReach(sites: Sites, bound: int, s: Sys) {
    Reachable(sites, WithinBound(bound), s)
  }

  ghost predicate CanLose(sites: Sites, bound: int) {
    exists s, x :: TimedReach(sites, bound, s) && Loses(s, x)
  }

  // Steps of the run

  lemma PassTo(sites: Sites, bound: int, s: Sys, until: int) returns (t: Sys)
    requires TimedReach(sites, bound, s) && s.now <= until && MayPass(s, bound, until)
    ensures TimedReach(sites, bound, t) && t == s.(now := until)
  {
    t := s;
    if s.now < until {
      t := Reach(sites, WithinBound(bound), s, Tick(until - s.now));
    }
  }

  function WithTs(n: Node, deadline: int): (r: Node) {
    n.(peer := n.peer.(ts := Armed(deadline)))
  }

  /** A due Ts: the heartbeat is queued and written at once. */
  lemma SendHeartbeat(sites: Sites, bound: int, s: Sys, x: Role) returns (t: Sys)
    requires TimedReach(sites, bound, s) && Drained(s.Of(x)) && s.Of(x).peer.state == DataReady
    requires s.Of(x).peer.ts.Armed? && s.Of(x).peer.ts.deadline <= s.now
    ensures TimedReach(sites, bound, t)
    ensures t == s.WithNode(x, WithTs(s.Of(x), s.now + sites.Cfg(x).intervalTs))
                  .WithOut(x, s.Out(x).(log := s.Out(x).log + [Frame(HEARTBEAT, s.now)]))
  {
    var q := s.Of(x).peer;
    assert Expire(sites.Cfg(x), s.now, q, Ts) ==
           q.(ts := Armed(s.now + sites.Cfg(x).intervalTs), outq := [Outgoing(HEARTBEAT, None)]);
    hide Expire, CreateIdentificationMessage;
    t := Reach(sites, WithinBound(bound), s, Expiry(x, Ts));
    t := Reach(sites, WithinBound(bound), t, Write(x));
  }

  lemma LateEffect(cfg: Config, now: int, n: Node)
    requires n.peer.state == DataReady
    ensures FeedMessage(cfg, now, n, HEARTBEAT) == n.(peer := n.peer.(tr := Armed(now + cfg.intervalTr)))
    ensures FeedMessage(cfg, now, n, STARTUP) == n
    ensures Feed(cfg, now, n, LStartup) == n
  {
  }

  lemma StartupEffect(cfg: Config, now: int, n: Node)
    requires n.peer.state == AssPending && n.peer.outq == []
    ensures FeedMessage(cfg, now, n, STARTUP) ==
            n.(peer := Peer(DataReady, n.peer.ti, Armed(now + cfg.intervalTs), Armed(now + cfg.intervalTr),
                            [STARTUP_REQUEST]))
  {
  }

  /** In DataReady a heartbeat restarts Tr and a STARTUP is ignored. */
  lemma TakeLate(sites: Sites, bound: int, s: Sys, x: Role) returns (t: Sys)
    requires TimedReach(sites, bound, s) && Drained(s.Of(x)) && s.Of(x).peer.state == DataReady
    requires s.In(x).taken < |s.In(x).log|
    requires s.In(x).log[s.In(x).taken].msg == HEARTBEAT || s.In(x).log[s.In(x).taken].msg == STARTUP
    ensures TimedReach(sites, bound, t)
    ensures var n := s.Of(x);
            var tr' := if s.In(x).log[s.In(x).taken].msg == HEARTBEAT then Armed(s.now + sites.Cfg(x).intervalTr)
                       else n.peer.tr;
            t == s.WithNode(x, n.(peer := n.peer.(tr := tr')))
                  .WithIn(x, s.In(x).(taken := s.In(x).taken + 1))
  {
    LateEffect(sites.Cfg(x), s.now, s.Of(x));
    hide CreateIdentificationMessage, FeedMessage, Feed;
    t := Reach(sites, WithinBound(bound), s, Receive(x));
  }

  /** The other's STARTUP takes a waiting side to DataReady; its second STARTUP is written at once. */
  lemma TakeStartup(sites: Sites, bound: int, s: Sys, x: Role) returns (t: Sys)
    requires TimedReach(sites, bound, s) && Drained(s.Of(x)) && s.Of(x).peer.state == AssPending
    requires s.In(x).taken < |s.In(x).log| && s.In(x).log[s.In(x).taken].msg == STARTUP
    ensures TimedReach(sites, bound, t)
    ensures var n := s.Of(x);
            t == s.WithNode(x, n.(peer := Peer(DataReady, n.peer.ti, Armed(s.now + sites.Cfg(x).intervalTs),
                                               Armed(s.now + sites.Cfg(x).intervalTr), [])))
                  .WithIn(x, s.In(x).(taken := s.In(x).taken + 1))
                  .WithOut(x, s.Out(x).(log := s.Out(x).log + [Frame(STARTUP, s.now)]))
  {
    StartupEffect(sites.Cfg(x), s.now, s.Of(x));
    hide CreateIdentificationMessage, FeedMessage, Feed, Reachable, React;
    t := Reach(sites, WithinBound(bound), s, Receive(x));
    t := WriteStartup(sites, bound, t, x);
  }

  lemma WriteStartup(sites: Sites, bound: int, s: Sys, x: Role) returns (t: Sys)
    requires TimedReach(sites, bound, s) && s.Of(x).peer.state == DataReady
    requires s.Of(x).setup == [] && s.Of(x).pending == None && s.Of(x).peer.outq == [STARTUP_REQUEST]
    ensures TimedReach(sites, bound, t)
    ensures t == s.WithNode(x, s.Of(x).(peer := s.Of(x).peer.(outq := [])))
                  .WithOut(x, s.Out(x).(log := s.Out(x).log + [Frame(STARTUP, s.now)]))
  {
    hide CreateIdentificationMessage, FeedMessage, Feed, Reachable, React;
    t := Reach(sites, WithinBound(bound), s, Write(x));
    LateEffect(sites.Cfg(x), t.now, t.Of(x).(pending := None));
    t := Reach(sites, WithinBound(bound), t, Take(x));
  }

  // First phase: x is in DataReady since time 0, its STARTUP and all that follows it are held back

  ghost predicate HeldBack(l: Link, from: nat) {
    && l.taken == from < |l.log| && l.log[from].msg == STARTUP
    && forall i :: from <= i < |l.log| ==>
                     l.log[i].at >= 0 && (l.log[i].msg == STARTUP || l.log[i].msg == HEARTBEAT)
  }

  ghost predicate Holding(sites: Sites, bound: int, s: Sys, x: Role) {
    var n, o := s.Of(x), s.Of(Other(x));
    && Drained(n) && Drained(o) && s.In(x).taken == |s.In(x).log| && HeldBack(s.Out(x), FirstStartup(x))
    && n.peer.state == DataReady && n.peer.ti == Off && n.peer.tr == Armed(sites.Cfg(x).intervalTr)
    && n.peer.ts.Armed? && s.now <= n.peer.ts.deadline
    && o.peer.state == AssPending && o.peer.ti == Off && o.peer.ts == Off
    && (o.peer.tr.Armed? ==> s.now <= o.peer.tr.deadline)
    && 0 <= s.now <= bound
  }

  function DueCount(s: Sys, x: Role): (r: nat) {
    (if s.Of(x).peer.ts.Armed? && s.Of(x).peer.ts.deadline == s.now then 1 else 0)
    + (if s.Of(Other(x)).peer.tr.Armed? && s.Of(Other(x)).peer.tr.deadline == s.now then 1 else 0)
  }

  /** Tr running out in AssPending is ignored: the timer is off and nothing else changes. */
  lemma TrRunsOutUnheard(sites: Sites, bound: int, s: Sys, x: Role) returns (t: Sys)
    requires TimedReach(sites, bound, s) && s.Of(x).peer.state == AssPending
    requires s.Of(x).peer.tr.Armed? && s.Of(x).peer.tr.deadline <= s.now
    ensures TimedReach(sites, bound, t) && t == s.WithNode(x, s.Of(x).(peer := s.Of(x).peer.(tr := Off)))
  {
    hide CreateIdentificationMessage;
    t := Reach(sites, WithinBound(bound), s, Expiry(x, Tr));
  }

  function Earlier(deadline: int, a: Alarm): (r: int) {
    if a.Armed? && a.deadline < deadline then a.deadline else deadline
  }

  lemma {:induction false} HoldUntil(sites: Sites, bound: int, s: Sys, x: Role, until: int) returns (t: Sys)
    requires TimedReach(sites, bound, s) && Holding(sites, bound, s, x) && sites.Cfg(x).intervalTs > 0
    requires s.now <= until <= bound && until <= sites.Cfg(x).intervalTr
    ensures TimedReach(sites, bound, t) && Holding(sites, bound, t, x) && t.now == until
    decreases until - s.now, DueCount(s, x)
  {
    hide CreateIdentificationMessage, Do, Enabled;
    t := s;
    if s.now < until {
      var n, o := s.Of(x).peer, s.Of(Other(x)).peer;
      if n.ts.deadline == s.now {
        t := SendHeartbeat(sites, bound, s, x);
      } else if o.tr == Armed(s.now) {
        t := TrRunsOutUnheard(sites, bound, s, Other(x));
      } else {
        var next := Earlier(Earlier(until, n.ts), o.tr);
        t := PassTo(sites, bound, s, next);
      }
      t := HoldUntil(sites, bound, t, x, until);
    }
  }

  // Second phase: both are in DataReady; what x sends arrives at once, what the other sends is held back

  ghost predicate WrittenFrom(l: Link, start: int) {
    l.taken <= |l.log| && forall i :: l.taken <= i < |l.log| ==> l.log[i].at >= start
  }

  ghost predicate HeldLate(l: Link) {
    l.taken <= |l.log|
    && forall i :: l.taken <= i < |l.log| ==>
                     l.log[i].at >= 0 && (l.log[i].msg == STARTUP || l.log[i].msg == HEARTBEAT)
  }

  /** All but x's frames still in flight; x's Tr has not been restarted since time 0. */
  ghost predicate Delivering(sites: Sites, s: Sys, x: Role, start: int) {
    var n, o := s.Of(x), s.Of(Other(x));
    && Drained(n) && Drained(o) && WrittenFrom(s.In(x), start) && HeldLate(s.Out(x))
    && n.peer.state == DataReady && n.peer.ti == Off && n.peer.tr == Armed(sites.Cfg(x).intervalTr)
    && n.peer.ts.Armed? && s.now <= n.peer.ts.deadline
    && o.peer.state == DataReady && o.peer.ti == Off && o.peer.tr.Armed?
    && o.peer.ts.Armed? && s.now <= o.peer.ts.deadline && start <= o.peer.ts.deadline
    && 0 <= s.now
  }

  lemma {:induction false} DeliverAll(sites: Sites, bound: int, s: Sys, x: Role, start: int) returns (t: Sys)
    requires TimedReach(sites, bound, s) && Delivering(sites, s, x, start)
    ensures TimedReach(sites, bound, t) && Delivering(sites, t, x, start)
    ensures t.Out(x).taken == |t.Out(x).log| && t.now == s.now
    ensures t.Of(x) == s.Of(x) && t.Of(Other(x)).peer.ts == s.Of(Other(x)).peer.ts
    decreases |s.Out(x).log| - s.Out(x).taken
  {
    hide CreateIdentificationMessage, Do, Enabled;
    t := s;
    if s.Out(x).taken < |s.Out(x).log| {
      t := TakeLate(sites, bound, s, Other(x));
      t := DeliverAll(sites, bound, t, x, start);
    }
  }

  function TsDue(s: Sys): (r: nat) {
    (if s.client.peer.ts.Armed? && s.client.peer.ts.deadline == s.now then 1 else 0)
    + (if s.server.peer.ts.Armed? && s.server.peer.ts.deadline == s.now then 1 else 0)
  }

  /** While no Tr is due, one more heartbeat, or time up to the next alarm. */
  lemma WaitOn(sites: Sites, bound: int, s: Sys, x: Role, start: int) returns (t: Sys)
    requires TimedReach(sites, bound, s) && Delivering(sites, s, x, start)
    requires s.Out(x).taken == |s.Out(x).log| && sites.Cfg(x).intervalTr <= start + bound
    requires sites.client.intervalTs > 0 && sites.server.intervalTs > 0
    requires s.now < s.Of(x).peer.tr.deadline && s.now < s.Of(Other(x)).peer.tr.deadline
    ensures TimedReach(sites, bound, t) && Delivering(sites, t, x, start) && t.Out(x).taken == |t.Out(x).log|
    ensures s.now < t.now <= sites.Cfg(x).intervalTr || (t.now == s.now && TsDue(t) < TsDue(s))
  {
    var n, o := s.Of(x).peer, s.Of(Other(x)).peer;
    hide CreateIdentificationMessage, Do, Enabled;
    if n.ts.deadline == s.now {
      t := SendHeartbeat(sites, bound, s, x);
      t := DeliverAll(sites, bound, t, x, start);
    } else if o.ts.deadline == s.now {
      t := SendHeartbeat(sites, bound, s, Other(x));
    } else {
      t := PassTo(sites, bound, s, Earlier(Earlier(Earlier(n.tr.deadline, n.ts), o.ts), o.tr));
    }
  }

  lemma {:induction false} WaitForLoss(sites: Sites, bound: int, s: Sys, x: Role, start: int)
    requires TimedReach(sites, bound, s) && Delivering(sites, s, x, start)
    requires s.Out(x).taken == |s.Out(x).log| && sites.Cfg(x).intervalTr <= start + bound
    requires sites.client.intervalTs > 0 && sites.server.intervalTs > 0
    ensures CanLose(sites, bound)
    decreases if s.now < sites.Cfg(x).intervalTr then sites.Cfg(x).intervalTr - s.now else 0, TsDue(s)
  {
    hide CreateIdentificationMessage, CanLose, TsDue, WrittenFrom, HeldLate;
    if s.Of(x).peer.tr.deadline <= s.now {
      CanLoseIn(sites, bound, s, x);
    } else if s.Of(Other(x)).peer.tr.deadline <= s.now {
      CanLoseIn(sites, bound, s, Other(x));
    } else {
      var t := WaitOn(sites, bound, s, x, start);
      WaitForLoss(sites, bound, t, x, start);
    }
  }

  /** From the moment x is in DataReady and the other is not: if Tr of x is too short, it can run out. */
  lemma LossAfterHolding(sites: Sites, bound: int, s: Sys, x: Role)
    requires TimedReach(sites, bound, s) && Holding(sites, bound, s, x) && s.now == 0
    requires sites.client.intervalTs > 0 && sites.server.intervalTs > 0
    requires sites.Cfg(Other(x)).intervalTs + 2 * bound >= sites.Cfg(x).intervalTr
    ensures CanLose(sites, bound)
  {
    hide CreateIdentificationMessage, Do, Enabled, CanLose;
    var tr := sites.Cfg(x).intervalTr;
    if tr <= 0 {
      CanLoseIn(sites, bound, s, x);
    } else if tr <= bound {
      var t := HoldUntil(sites, bound, s, x, tr);
      CanLoseIn(sites, bound, t, x);
    } else {
      var t := HoldUntil(sites, bound, s, x, bound);
      t := TakeStartup(sites, bound, t, Other(x));
      t := TakeLate(sites, bound, t, x);
      var start := bound + sites.Cfg(Other(x)).intervalTs;
      t := DeliverAll(sites, bound, t, x, start);
      WaitForLoss(sites, bound, t, x, start);
    }
  }

  lemma CanLoseIn(sites: Sites, bound: int, s: Sys, x: Role)
    requires TimedReach(sites, bound, s) && Loses(s, x)
    ensures CanLose(sites, bound)
  {
  }

  lemma HoldingFromTheStart(sites: Sites, bound: int, x: Role) returns (s: Sys)
    requires Matched(sites) && bound >= 0 && sites.client.intervalTs > 0 && sites.server.intervalTs > 0
    ensures TimedReach(sites, bound, s) && Holding(sites, bound, s, x) && s.now == 0
  {
    hide CreateIdentificationMessage, Do, Enabled, Matched, Reachable;
    s := BothAssociating(sites, WithinBound(bound));
    s := TakeStartup(sites, bound, s, x);
    if sites.Cfg(Other(x)).intervalTr < 0 {
      s := TrRunsOutUnheard(sites, bound, s, Other(x));
    }
  }

  lemma TooShortTrCanRunOut(sites: Sites, bound: int, x: Role)
    requires Matched(sites) && bound >= 0 && sites.client.intervalTs > 0 && sites.server.intervalTs > 0
    requires sites.Cfg(Other(x)).intervalTs + 2 * bound >= sites.Cfg(x).intervalTr
    ensures CanLose(sites, bound)
  {
    var s := HoldingFromTheStart(sites, bound, x);
    LossAfterHolding(sites, bound, s, x);
  }

  /** No other interval stands in the way of the keep-alive: Ts is positive and Ti outlasts the identification. */
  predicate Sound(sites: Sites, bound: int) {
    && 0 <= bound && 0 < sites.client.intervalTs && 0 < sites.server.intervalTs
    && 2 * bound < sites.client.intervalTi && 2 * bound < sites.server.intervalTi
  }

  /**
   * The exact condition. Tr can run out in DataReady in some timed run unless, in both directions, Ts of the
   * sender plus twice the delay stays below Tr of the receiver.
   */
  lemma KeepAliveIff(sites: Sites, bound: int)
    requires Matched(sites) && Sound(sites, bound)
    ensures !CanLose(sites, bound) <==>
              && sites.client.intervalTs + 2 * bound < sites.server.intervalTr
              && sites.server.intervalTs + 2 * bound < sites.client.intervalTr
  {
    if RoomFor(sites, bound) {
      forall s, x | TimedReach(sites, bound, s) ensures !Loses(s, x) {
        var actions: seq<Action> :|
          IsRun(sites, WithinBound(bound), CONNECTED, actions) && After(sites, CONNECTED, actions) == s;
        OnlyTsEverExpires(sites, bound, actions, x, Tr);
      }
    } else if sites.client.intervalTs + 2 * bound >= sites.server.intervalTr {
      TooShortTrCanRunOut(sites, bound, Server);
    } else {
      TooShortTrCanRunOut(sites, bound, Client);
    }
  }
}