/**
 * What each kind of event does to a controller, whatever its state and role: disconnections, failures of the
 * identification, timeouts, local commands and the events of an association. The state tables list events by
 * state; these laws go by event and name the whole effect on state, timers and queue.
 */
module EventLaws {
  import opened Wrappers
  import opened FmtpMessages
  import opened StateMachine
  import opened Association
  import opened SingleController

  /** The states between the connection indications and the end of the identification. */
  predicate Identifying(role: Role, s: State) {
    s == IdPending || s == if role == Client then ConPending else SysIdPending
  }

  /** The controller is idle and all its timers are off; `queued` waits for the send loop. */
  function IdleWith(queued: seq<Outgoing>): (p: Peer) {
    Peer(Idle, Off, Off, Off, queued)
  }

  // Messages

  /** Which event a message stands for, by its type number and its text. */
  lemma MessagesStandForEvents(cfg: Config, m: FmtpMessage)
    ensures m.msgType == 1 ==> Classify(cfg, m) == Some(RData)
    ensures m.msgType == 3 ==>
              Classify(cfg, m) == Some(if m.text == Bytes("REJECT") then RReject
                                       else if m.text == Bytes("ACCEPT") then RAccept
                                       else if m.text == cfg.expected.text then RIdValid
                                       else RIdInvalid)
    ensures m.msgType == 4 ==>
              Classify(cfg, m) == if m.text == Bytes("01") then Some(RStartup)
                                  else if m.text == Bytes("00") then Some(RShutdown)
                                  else if m.text == Bytes("03") then Some(RHeartbeat)
                                  else None
    ensures m.msgType !in {1, 3, 4} ==> Classify(cfg, m) == None
  {
    FixedTexts([], []);
  }

  /** The user gets the messages of all types but 3 and 4, identifications and system messages. */
  ghost predicate OfUserTypes(msgs: seq<FmtpMessage>) {
    forall i :: 0 <= i < |msgs| ==> msgs[i].msgType != 3 && msgs[i].msgType != 4
  }

  ghost predicate OfOwnTypes(msgs: seq<FmtpMessage>) {
    forall i :: 0 <= i < |msgs| ==> msgs[i].msgType == 3 || msgs[i].msgType == 4
  }

  /** A list of such messages is handed to the user whole and in order. */
  lemma {:induction false} UserGetsAll(msgs: seq<FmtpMessage>)
    requires OfUserTypes(msgs)
    ensures UserMessages(msgs) == msgs
  {
    if msgs != [] {
      UserGetsAll(msgs[1..]);
    }
  }

  /** The controller keeps its own messages to itself. */
  lemma {:induction false} UserGetsNone(msgs: seq<FmtpMessage>)
    requires OfOwnTypes(msgs)
    ensures UserMessages(msgs) == []
  {
    if msgs != [] {
      UserGetsNone(msgs[1..]);
    }
  }

  /** And mixed lists split. */
  lemma {:induction false} UserGetsParts(a: seq<FmtpMessage>, b: seq<FmtpMessage>)
    ensures UserMessages(a + b) == UserMessages(a) + UserMessages(b)
  {
    hide ForUser;
    if a == [] {
      assert a + b == b;
    } else {
      UserGetsParts(a[1..], b);
      assert (a + b)[1..] == a[1..] + b;
    }
  }

  // The ways to Idle

  /** A disconnection leads to Idle from everywhere; a local one says SHUTDOWN in an association. */
  lemma DisconnectionGoesIdle(cfg: Config, now: int, p: Peer)
    requires Disciplined(cfg, p)
    ensures React(cfg, now, p, RDisconnect) == IdleWith(p.outq)
    ensures React(cfg, now, p, LDisconnect)
         == IdleWith(if p.state == AssPending || p.state == DataReady then p.outq + [Outgoing(SHUTDOWN, None)]
                     else p.outq)
  {
    assert p.outq + [] == p.outq;
  }

  /** While identifying, whatever is not the next step of the identification ends it. */
  lemma IdentificationIsBroken(cfg: Config, now: int, p: Peer, e: Event)
    requires Disciplined(cfg, p) && Identifying(cfg.role, p.state)
    requires e in {RReject, RData, RHeartbeat, RShutdown, RStartup, TiTimeout}
    ensures React(cfg, now, p, e) == IdleWith(p.outq)
  {
    assert p.outq + [] == p.outq;
  }

  /** ACCEPT is the next step for the server that has sent its identification only. */
  lemma AcceptanceOutOfTurn(cfg: Config, now: int, p: Peer)
    requires Disciplined(cfg, p) && Identifying(cfg.role, p.state) && !(cfg.role == Server && p.state == IdPending)
    ensures React(cfg, now, p, RAccept) == IdleWith(p.outq)
  {
    assert p.outq + [] == p.outq;
  }

  /** A wrong identification is rejected by the client and ends the identification on both sides. */
  lemma WrongIdentification(cfg: Config, now: int, p: Peer)
    requires Disciplined(cfg, p)
    ensures React(cfg, now, p, RIdInvalid)
         == if p.state == SysIdPending then IdleWith(p.outq)
            else if p.state == IdPending && cfg.role == Client then IdleWith(p.outq + [Outgoing(REJECT, None)])
            else p
  {
    assert p.outq + [] == p.outq;
  }

  /** Local data and commands end the identification of the client and do not touch that of the server. */
  lemma LocalEventsWhileIdentifying(cfg: Config, now: int, p: Peer, e: Event)
    requires Disciplined(cfg, p) && Identifying(cfg.role, p.state) && e in {LData, LShutdown, LStartup}
    ensures React(cfg, now, p, e) == if cfg.role == Client then IdleWith(p.outq) else p
  {
    assert p.outq + [] == p.outq;
  }

  /** What a timer does that fires: Ti ends the identification, Tr the association in DataReady, Ts says HEARTBEAT. */
  lemma Expiries(cfg: Config, now: int, p: Peer)
    requires Disciplined(cfg, p)
    ensures Identifying(cfg.role, p.state) ==> Expire(cfg, now, p, Ti) == IdleWith(p.outq)
    ensures Expire(cfg, now, p, Tr) == if p.state == DataReady then IdleWith(p.outq) else p.(tr := Off)
    ensures Expire(cfg, now, p, Ts)
         == if p.state == DataReady then
              p.(ts := Armed(now + cfg.intervalTs), outq := p.outq + [Outgoing(HEARTBEAT, None)])
            else p
  {
    assert p.outq + [] == p.outq;
  }

  /** There is no other way to Idle. */
  lemma GoesIdleIff(role: Role, s: State, e: Event)
    requires StateOfRole(role, s)
    ensures NextState(role, s, e) == Some(Idle) <==>
            || e in {LDisconnect, RDisconnect}
            || (Identifying(role, s) && e in {RReject, RData, RHeartbeat, RShutdown, RStartup, TiTimeout})
            || (Identifying(role, s) && e == RAccept && !(role == Server && s == IdPending))
            || (Identifying(role, s) && e in {LData, LShutdown, LStartup} && role == Client)
            || (e == RIdInvalid && (s == SysIdPending || (s == IdPending && role == Client)))
            || (e == TrTimeout && s == DataReady)
  {
  }

  // Identification and association

  /** The connection indications: the client introduces itself, the server waits for it. */
  lemma ConnectionIsSetUp(cfg: Config, now: int, p: Peer)
    requires Disciplined(cfg, p) && p.state == Idle
    ensures React(cfg, now, p, LSetup)
         == if cfg.role == Client then
              p.(state := ConPending, outq := p.outq + [Outgoing(cfg.own, Some(RSetup))])
            else p
    ensures React(cfg, now, p, RSetup)
         == if cfg.role == Server then p.(state := SysIdPending, ti := Armed(now + cfg.intervalTi)) else p
  {
    assert p.outq + [] == p.outq;
  }

  /** The steps of the identification. */
  lemma IdentificationGoesOn(cfg: Config, now: int, p: Peer)
    requires Disciplined(cfg, p)
    ensures p.state == ConPending ==>
              React(cfg, now, p, RSetup) == p.(state := IdPending, ti := Armed(now + cfg.intervalTi))
    ensures p.state == SysIdPending ==>
              React(cfg, now, p, RIdValid)
              == p.(state := IdPending, ti := Armed(now + cfg.intervalTi), outq := p.outq + [Outgoing(cfg.own, None)])
    ensures p.state == IdPending && cfg.role == Client ==>
              React(cfg, now, p, RIdValid)
              == p.(state := Ready, ti := Off,
                    outq := p.outq + [Outgoing(ACCEPT, None), Outgoing(STARTUP, Some(LStartup))])
    ensures p.state == IdPending && cfg.role == Server ==>
              React(cfg, now, p, RAccept)
              == p.(state := Ready, ti := Off, outq := p.outq + [Outgoing(STARTUP, Some(LStartup))])
  {
    assert p.outq + [] == p.outq;
  }

  /** The steps of the association; a STARTUP does nothing before its turn. */
  lemma AssociationGoesOn(cfg: Config, now: int, p: Peer)
    requires Disciplined(cfg, p)
    ensures p.state == Ready ==>
              React(cfg, now, p, LStartup) == p.(state := AssPending, tr := Armed(now + cfg.intervalTr))
    ensures p.state == AssPending ==>
              React(cfg, now, p, RStartup)
              == p.(state := DataReady, ts := Armed(now + cfg.intervalTs), tr := Armed(now + cfg.intervalTr),
                    outq := p.outq + [Outgoing(STARTUP, Some(LStartup))])
    ensures p.state == Ready || p.state == DataReady ==> React(cfg, now, p, RStartup) == p
  {
    assert p.outq + [] == p.outq;
  }

  /** In DataReady, and only there, what is received restarts Tr and what is sent restarts Ts. */
  lemma DataAndHeartbeats(cfg: Config, now: int, p: Peer, e: Event)
    requires Disciplined(cfg, p) && p.state in {Ready, AssPending, DataReady}
    ensures e in {RData, RHeartbeat} ==>
              React(cfg, now, p, e) == if p.state == DataReady then p.(tr := Armed(now + cfg.intervalTr)) else p
    ensures React(cfg, now, p, LData) == if p.state == DataReady then p.(ts := Armed(now + cfg.intervalTs)) else p
  {
    assert p.outq + [] == p.outq;
  }

  /** A shutdown by the user starts the association anew, one by the other side waits for its STARTUP. */
  lemma Shutdowns(cfg: Config, now: int, p: Peer)
    requires Disciplined(cfg, p) && p.state in {Ready, AssPending, DataReady}
    ensures React(cfg, now, p, LShutdown)
         == Peer(Ready, Off, Off, Off,
                 p.outq + (if p.state == Ready then [] else [Outgoing(SHUTDOWN, None)])
                 + [Outgoing(STARTUP, Some(LStartup))])
    ensures React(cfg, now, p, RShutdown)
         == if p.state == DataReady then p.(state := AssPending, ts := Off, tr := Armed(now + cfg.intervalTr)) else p
  {
    assert p.outq + [] == p.outq;
    var shutdown, startup := Outgoing(SHUTDOWN, None), Outgoing(STARTUP, Some(LStartup));
    assert p.outq + [shutdown, startup] == p.outq + [shutdown] + [startup];
  }

  /** What is out of place in an association is ignored; a stale Ti event in AssPending stops Tr. */
  lemma OutOfPlace(cfg: Config, now: int, p: Peer, e: Event)
    requires Disciplined(cfg, p) && p.state in {Ready, AssPending, DataReady}
    ensures e in {LSetup, RSetup, RAccept, RReject, RIdValid, RIdInvalid, TcSetup, TcDisconnect, Disable, Enable} ==>
              React(cfg, now, p, e) == p
    ensures React(cfg, now, p, TiTimeout) == if p.state == AssPending then p.(tr := Off) else p
    ensures e == LStartup && p.state != Ready ==> React(cfg, now, p, e) == p
    ensures e in {TsTimeout, TrTimeout} && p.state != DataReady ==> React(cfg, now, p, e) == p
  {
    assert p.outq + [] == p.outq;
  }

  /** And so is, in Idle and while identifying, all that no other law speaks of. */
  lemma IgnoredBefore(cfg: Config, now: int, p: Peer, e: Event)
    requires Disciplined(cfg, p) && (p.state == Idle || Identifying(cfg.role, p.state))
    ensures p.state == Idle && e !in {LDisconnect, RDisconnect, LSetup, RSetup} ==> React(cfg, now, p, e) == p
    ensures e in {TsTimeout, TrTimeout, TcSetup, TcDisconnect, Disable, Enable} ==> React(cfg, now, p, e) == p
    ensures p.state != Idle && e == LSetup ==> React(cfg, now, p, e) == p
    ensures p.state == IdPending && e == RSetup ==> React(cfg, now, p, e) == p
    ensures e == RIdValid && (p.state == ConPending || (p.state == IdPending && cfg.role == Server)) ==>
              React(cfg, now, p, e) == p
    ensures p.state == SysIdPending ==> React(cfg, now, p, RSetup) == p.(ti := Armed(now + cfg.intervalTi))
  {
    assert p.outq + [] == p.outq;
  }
}
