/** What holds of one controller after every sequence of events whatever, in either role. */
module SingleController {
  import opened Wrappers
  import opened FmtpMessages
  import opened StateMachine
  import opened Association

  /**
   * One event and its time. A timeout normally finds its own timer spent; a stale one was fired before the
   * timer was restarted and arrives after it.
   */
  datatype Input = Input(now: int, event: Event, stale: bool)

  function Apply(cfg: Config, p: Peer, i: Input): (r: Peer) {
    if i.event == TiTimeout && !i.stale then Expire(cfg, i.now, p, Ti)
    else if i.event == TsTimeout && !i.stale then Expire(cfg, i.now, p, Ts)
    else if i.event == TrTimeout && !i.stale then Expire(cfg, i.now, p, Tr)
    else React(cfg, i.now, p, i.event)
  }

  // Timers

  /** ConPending is a state of clients only, SysIdPending of servers only; Disabled is never entered. */
  predicate StateOfRole(role: Role, s: State) {
    s != Disabled && (s == ConPending ==> role == Client) && (s == SysIdPending ==> role == Server)
  }

  predicate TimerDiscipline(p: Peer) {
    && (p.ts.Armed? <==> p.state == DataReady)
    && (p.ti.Armed? <==> p.state == SysIdPending || p.state == IdPending)
    && (p.state == DataReady ==> p.tr.Armed?)
    && (p.tr.Armed? ==> p.state == DataReady || p.state == AssPending)
  }

  function PeerAfter(cfg: Config, inputs: seq<Input>): (r: Peer) {
    if inputs == [] then INITIAL_PEER
    else Apply(cfg, PeerAfter(cfg, inputs[..|inputs| - 1]), inputs[|inputs| - 1])
  }

  ghost predicate Disciplined(cfg: Config, p: Peer) {
    StateOfRole(cfg.role, p.state) && TimerDiscipline(p)
  }

  lemma ReactKeepsDiscipline(cfg: Config, now: int, p: Peer, e: Event)
    requires Disciplined(cfg, p)
    ensures Disciplined(cfg, React(cfg, now, p, e))
  {
    hide Sends;
  }

  lemma ExpiryKeepsDiscipline(cfg: Config, now: int, p: Peer, t: TimerId)
    requires Disciplined(cfg, p)
    ensures Disciplined(cfg, Expire(cfg, now, p, t))
  {
    hide Sends;
  }

  /**
   * Timer discipline, over every event sequence: Ts runs exactly in DataReady, Ti exactly while waiting for
   * identification, Tr always in DataReady and never outside AssPending and DataReady.
   */
  lemma {:induction false} TimersFollowTheState(cfg: Config, inputs: seq<Input>)
    ensures Disciplined(cfg, PeerAfter(cfg, inputs))
  {
    if inputs != [] {
      var before, i := PeerAfter(cfg, inputs[..|inputs| - 1]), inputs[|inputs| - 1];
      TimersFollowTheState(cfg, inputs[..|inputs| - 1]);
      ReactKeepsDiscipline(cfg, i.now, before, i.event);
      ExpiryKeepsDiscipline(cfg, i.now, before, Ti);
      ExpiryKeepsDiscipline(cfg, i.now, before, Ts);
      ExpiryKeepsDiscipline(cfg, i.now, before, Tr);
      hide React, Expire, Disciplined;
    }
  }

  // Order of events and packets

  /** A peer with the events accepted and the packets queued since it was last idle. */
  datatype Trace = Trace(peer: Peer, accepted: seq<Event>, sent: seq<FmtpMessage>)

  function Messages(q: seq<Outgoing>): (r: seq<FmtpMessage>) {
    seq(|q|, i requires 0 <= i < |q| => q[i].msg)
  }

  function Extend(cfg: Config, t: Trace, i: Input): (r: Trace) {
    match NextState(cfg.role, t.peer.state, i.event)
    case None => t.(peer := Apply(cfg, t.peer, i))
    case Some(next) =>
      if next == Idle then Trace(Apply(cfg, t.peer, i), [], [])
      else Trace(Apply(cfg, t.peer, i), t.accepted + [i.event],
                 t.sent + Messages(Sends(cfg, t.peer.state, i.event)))
  }

  function TraceAfter(cfg: Config, inputs: seq<Input>): (r: Trace) {
    if inputs == [] then Trace(INITIAL_PEER, [], [])
    else Extend(cfg, TraceAfter(cfg, inputs[..|inputs| - 1]), inputs[|inputs| - 1])
  }

  ghost predicate Picks(idx: seq<nat>, a: seq<Event>, b: seq<Event>) {
    && |idx| == |a|
    && (forall i :: 0 <= i < |a| ==> idx[i] < |b| && b[idx[i]] == a[i])
    && (forall i, j :: 0 <= i < j < |a| ==> idx[i] < idx[j])
  }

  /** The events of a occur in b in that order, others possibly in between. */
  ghost predicate OccursIn(a: seq<Event>, b: seq<Event>) {
    exists idx: seq<nat> :: Picks(idx, a, b)
  }

  lemma OccursInLonger(a: seq<Event>, b: seq<Event>, e: Event)
    requires OccursIn(a, b)
    ensures OccursIn(a, b + [e]) && OccursIn(a + [e], b + [e])
  {
    var idx: seq<nat> :| Picks(idx, a, b);
    assert Picks(idx, a, b + [e]);
    assert Picks(idx + [|b|], a + [e], b + [e]);
  }

  lemma OccursInPrefix(a: seq<Event>, b: seq<Event>, n: nat)
    requires n <= |a| && OccursIn(a, b)
    ensures OccursIn(a[..n], b)
  {
    var idx: seq<nat> :| Picks(idx, a, b);
    assert Picks(idx[..n], a[..n], b);
  }

  function Milestones(role: Role): (r: seq<Event>) {
    match role
    case Client => [LSetup, RSetup, RIdValid, LStartup, RStartup]
    case Server => [RSetup, RIdValid, RAccept, LStartup, RStartup]
  }

  /** How many milestones a state has behind it. */
  function Passed(role: Role, s: State): (r: nat) {
    match s
    case Idle | Disabled => 0
    case ConPending => 1
    case SysIdPending => 1
    case IdPending => 2
    case Ready => 3
    case AssPending => 4
    case DataReady => 5
  }

  lemma NextMilestone(role: Role, s: State, e: Event, next: State)
    requires NextState(role, s, e) == Some(next)
    ensures Passed(role, next) <= Passed(role, s)
         || (Passed(role, next) == Passed(role, s) + 1 && Milestones(role)[Passed(role, s)] == e)
  {
  }

  ghost predicate MilestonesBehind(cfg: Config, t: Trace) {
    OccursIn(Milestones(cfg.role)[..Passed(cfg.role, t.peer.state)], t.accepted)
  }

  lemma MilestonesStayBehind(cfg: Config, t: Trace, i: Input)
    requires MilestonesBehind(cfg, t)
    ensures MilestonesBehind(cfg, Extend(cfg, t, i))
  {
    var steps, passed := Milestones(cfg.role), Passed(cfg.role, t.peer.state);
    match NextState(cfg.role, t.peer.state, i.event) {
      case None =>
      case Some(next) =>
        NextMilestone(cfg.role, t.peer.state, i.event, next);
        var now := Passed(cfg.role, next);
        if next == Idle {
          assert Picks([], steps[..0], []);
        } else {
          hide NextState;
          OccursInLonger(steps[..passed], t.accepted, i.event);
          if now <= passed {
            OccursInPrefix(steps[..passed], t.accepted + [i.event], now);
            assert steps[..passed][..now] == steps[..now];
          } else {
            assert steps[..now] == steps[..passed] + [i.event];
          }
        }
    }
  }

  /** Association order: the milestones behind the current state were accepted in order since the last Idle. */
  lemma {:induction false} EventsInOrder(cfg: Config, inputs: seq<Input>)
    ensures MilestonesBehind(cfg, TraceAfter(cfg, inputs))
  {
    if inputs == [] {
      assert Picks([], Milestones(cfg.role)[..0], []);
    } else {
      hide MilestonesBehind, Extend;
      EventsInOrder(cfg, inputs[..|inputs| - 1]);
      MilestonesStayBehind(cfg, TraceAfter(cfg, inputs[..|inputs| - 1]), inputs[|inputs| - 1]);
    }
  }

  /** STARTUP HEARTBEAT* as often as ks has entries, entry i with ks[i] heartbeats. */
  function Rounds(ks: seq<nat>): (r: seq<FmtpMessage>) {
    if ks == [] then []
    else Rounds(ks[..|ks| - 1]) + [STARTUP] + seq(ks[|ks| - 1], _ => HEARTBEAT)
  }

  lemma OneMoreHeartbeat(ks: seq<nat>)
    requires ks != []
    ensures Rounds(ks) + [HEARTBEAT] == Rounds(ks[|ks| - 1 := ks[|ks| - 1] + 1])
  {
    var more := ks[|ks| - 1 := ks[|ks| - 1] + 1];
    assert more[..|ks| - 1] == ks[..|ks| - 1];
    assert seq(ks[|ks| - 1], _ => HEARTBEAT) + [HEARTBEAT] == seq(ks[|ks| - 1] + 1, _ => HEARTBEAT);
  }

  lemma OneMoreStartup(ks: seq<nat>)
    ensures Rounds(ks) + [STARTUP] == Rounds(ks + [0])
  {
    assert (ks + [0])[..|ks|] == ks;
  }

  /** The packets sent before the first STARTUP handshake round. */
  function Opening(cfg: Config): (r: seq<FmtpMessage>) {
    match cfg.role
    case Client => [cfg.own, ACCEPT, STARTUP]
    case Server => [cfg.own, STARTUP]
  }

  /** How much of the opening has been queued on reaching a state. */
  function Opened(role: Role, s: State): (r: nat) {
    match s
    case Idle | SysIdPending | Disabled => 0
    case ConPending => 1
    case IdPending => 1
    case Ready | AssPending | DataReady => if role == Client then 3 else 2
  }

  ghost predicate PacketsFollow(cfg: Config, t: Trace, ks: seq<nat>) {
    && t.sent == Opening(cfg)[..Opened(cfg.role, t.peer.state)] + Rounds(ks)
    && (t.peer.state == DataReady ==> ks != [])
    && (t.peer.state !in {AssPending, DataReady} ==> ks == [])
  }

  ghost predicate NoLocalCommand(inputs: seq<Input>) {
    forall i :: 0 <= i < |inputs| ==> inputs[i].event != LShutdown && inputs[i].event != LDisconnect
  }

  lemma RoundBegins(cfg: Config, t: Trace, i: Input, ks: seq<nat>)
    requires PacketsFollow(cfg, t, ks) && t.peer.state == AssPending && i.event == RStartup
    ensures PacketsFollow(cfg, Extend(cfg, t, i), ks + [0])
  {
    OneMoreStartup(ks);
    assert Messages(Sends(cfg, AssPending, RStartup)) == [STARTUP];
    assert Extend(cfg, t, i).sent == t.sent + [STARTUP];
  }

  lemma HeartbeatIsSent(cfg: Config, t: Trace, i: Input, ks: seq<nat>)
    requires PacketsFollow(cfg, t, ks) && t.peer.state == DataReady && i.event == TsTimeout
    ensures PacketsFollow(cfg, Extend(cfg, t, i), ks[|ks| - 1 := ks[|ks| - 1] + 1])
  {
    OneMoreHeartbeat(ks);
    assert Messages(Sends(cfg, DataReady, TsTimeout)) == [HEARTBEAT];
    assert Extend(cfg, t, i).sent == t.sent + [HEARTBEAT];
  }

  /** Every other step queues the next packets of the opening, or none. */
  lemma OpeningGoesOn(role: Role, cfg: Config, s: State, e: Event, next: State)
    requires role == cfg.role && NextState(role, s, e) == Some(next) && next != Idle
    requires e != LShutdown && !(s == AssPending && e == RStartup) && e != TsTimeout
    ensures Opening(cfg)[..Opened(role, s)] + Messages(Sends(cfg, s, e)) == Opening(cfg)[..Opened(role, next)]
    ensures Opened(role, s) != Opened(role, next) ==> s !in {AssPending, DataReady}
    ensures s == DataReady || next == DataReady ==> s == DataReady && next in {AssPending, DataReady}
    ensures s == AssPending ==> next == AssPending
  {
  }

  lemma OtherPacketsFollow(cfg: Config, t: Trace, i: Input, ks: seq<nat>)
    requires PacketsFollow(cfg, t, ks) && NextState(cfg.role, t.peer.state, i.event).Some?
    requires NextState(cfg.role, t.peer.state, i.event).value != Idle
    requires i.event != LShutdown && !(t.peer.state == AssPending && i.event == RStartup) && i.event != TsTimeout
    ensures PacketsFollow(cfg, Extend(cfg, t, i), ks)
  {
    var s, e, next := t.peer.state, i.event, NextState(cfg.role, t.peer.state, i.event).value;
    OpeningGoesOn(cfg.role, cfg, s, e, next);
    hide NextState, Sends, Opening, Opened, Messages;
    assert Rounds([]) == [];
    assert Extend(cfg, t, i).sent == t.sent + Messages(Sends(cfg, s, e));
  }

  lemma PacketsKeepOrder(cfg: Config, t: Trace, i: Input, ks: seq<nat>) returns (ks': seq<nat>)
    requires PacketsFollow(cfg, t, ks) && i.event != LShutdown && i.event != LDisconnect
    ensures PacketsFollow(cfg, Extend(cfg, t, i), ks')
  {
    var s, e := t.peer.state, i.event;
    ks' := ks;
    match NextState(cfg.role, s, e) {
      case None =>
        assert Extend(cfg, t, i).peer.state == s;
      case Some(next) =>
        if next == Idle {
          assert Opening(cfg)[..0] + Rounds([]) == [];
          ks' := [];
        } else if s == AssPending && e == RStartup {
          RoundBegins(cfg, t, i, ks);
          ks' := ks + [0];
        } else if e == TsTimeout {
          HeartbeatIsSent(cfg, t, i, ks);
          ks' := ks[|ks| - 1 := ks[|ks| - 1] + 1];
        } else {
          OtherPacketsFollow(cfg, t, i, ks);
        }
    }
  }

  /**
   * Without local shutdown or disconnect commands, the control packets queued since the last Idle are
   * ID ACCEPT STARTUP (STARTUP HEARTBEAT*)* for the client and ID STARTUP (STARTUP HEARTBEAT*)* for the server,
   * cut off at the state reached; in DataReady at least one round has begun.
   */
  lemma {:induction false} PacketsInOrder(cfg: Config, inputs: seq<Input>)
    requires NoLocalCommand(inputs)
    ensures exists ks: seq<nat> :: PacketsFollow(cfg, TraceAfter(cfg, inputs), ks)
  {
    if inputs == [] {
      assert Opening(cfg)[..0] + Rounds([]) == [];
      assert PacketsFollow(cfg, TraceAfter(cfg, inputs), []);
    } else {
      hide PacketsFollow, Extend;
      PacketsInOrder(cfg, inputs[..|inputs| - 1]);
      var before := TraceAfter(cfg, inputs[..|inputs| - 1]);
      var ks: seq<nat> :| PacketsFollow(cfg, before, ks);
      var ks' := PacketsKeepOrder(cfg, before, inputs[|inputs| - 1], ks);
      assert PacketsFollow(cfg, TraceAfter(cfg, inputs), ks');
    }
  }
}
