/** The state controller and its timers as the objects the source has, proved against module Association. */
module StateControllers {
  import opened Wrappers
  import opened FmtpMessages
  import opened FmtpPackage
  import opened ReceiveLoop
  import opened StateMachine
  import opened Association
  import opened SingleController
  import opened EventLaws

  /** A timer whose start, stop and restart take effect one after the other. */
  class Timer {
    const duration: int
    var alarm: Alarm

    constructor (duration: int)
      ensures this.duration == duration && alarm == Off
    {
      this.duration := duration;
      alarm := Off;
    }

    method StartTimer(now: int)
      modifies this
      ensures alarm == Armed(now + duration)
    {
      alarm := Armed(now + duration);
    }

    method StopTimer()
      modifies this
      ensures alarm == Off
    {
      alarm := Off;
    }

    method RestartTimer(now: int)
      modifies this
      ensures alarm == Armed(now + duration)
    {
      StopTimer();
      StartTimer(now);
    }
  }

  /** The packets the exit function of a state queues, for an event the table accepts in it. */
  ghost function ExitSends(cfg: Config, s: State, e: Event): (r: seq<Outgoing>) {
    match s
    case SysIdPending => if e == RIdValid then [Outgoing(cfg.own, None)] else []
    case IdPending =>
      if e == RIdValid then [Outgoing(ACCEPT, None)] else if e == RIdInvalid then [Outgoing(REJECT, None)] else []
    case AssPending =>
      if e == LDisconnect || e == LShutdown then [Outgoing(SHUTDOWN, None)]
      else if e == RStartup then [STARTUP_REQUEST] else []
    case DataReady =>
      if e == LDisconnect || e == LShutdown then [Outgoing(SHUTDOWN, None)]
      else if e == TsTimeout then [Outgoing(HEARTBEAT, None)] else []
    case _ => []
  }

  /** The packets the enter function of a state queues. */
  ghost function EnterSends(cfg: Config, s: State): (r: seq<Outgoing>) {
    match s
    case ConPending => [Outgoing(cfg.own, Some(RSetup))]
    case Ready => [STARTUP_REQUEST]
    case _ => []
  }

  /** What the exit function of p's state does. */
  ghost function AfterExit(cfg: Config, now: int, p: Peer, e: Event): (r: Peer) {
    var q := p.(outq := p.outq + ExitSends(cfg, p.state, e));
    match p.state
    case SysIdPending => q.(ti := if e == RIdValid then Armed(now + cfg.intervalTi) else Off)
    case IdPending => q.(ti := Off)
    case Ready => q.(tr := if e == LStartup then Armed(now + cfg.intervalTr) else p.tr)
    case AssPending =>
      if e == RStartup then q.(tr := Armed(now + cfg.intervalTr), ts := Armed(now + cfg.intervalTs))
      else q.(tr := Off)
    case DataReady =>
      (match e
       case LDisconnect | LShutdown | RDisconnect | TrTimeout => q.(tr := Off, ts := Off)
       case LData | TsTimeout => q.(ts := Armed(now + cfg.intervalTs))
       case RShutdown => q.(ts := Off, tr := Armed(now + cfg.intervalTr))
       case _ => q.(tr := Armed(now + cfg.intervalTr)))
    case _ => q
  }

  /** What the enter function of p's state does. */
  ghost function AfterEnter(cfg: Config, now: int, p: Peer): (r: Peer) {
    p.(outq := p.outq + EnterSends(cfg, p.state),
       ti := if p.state == SysIdPending || p.state == IdPending then Armed(now + cfg.intervalTi) else p.ti)
  }

  lemma AcceptedInDataReady(role: Role, s: State, e: Event)
    requires NextState(role, s, e).Some?
    ensures s == SysIdPending ==> role == Server
    ensures s == AssPending ==> e != TrTimeout
    ensures s == DataReady ==> e == RShutdown || e == LShutdown || e == LData || e == RData || e == RHeartbeat
                               || e == TsTimeout || e == LDisconnect || e == RDisconnect || e == TrTimeout
  {
  }

  lemma OnlyTheTablesStates(role: Role, s: State, e: Event, next: State)
    requires NextState(role, s, e) == Some(next)
    ensures (next == ConPending ==> role == Client) && (next == SysIdPending ==> role == Server)
  {
  }

  lemma ExitThenEnterPackets(cfg: Config, s: State, e: Event, next: State)
    requires NextState(cfg.role, s, e) == Some(next)
    ensures ExitSends(cfg, s, e) + EnterSends(cfg, next) == Sends(cfg, s, e)
  {
  }

  lemma ExitThenEnterTi(cfg: Config, now: int, p: Peer, e: Event, next: State)
    requires NextState(cfg.role, p.state, e) == Some(next)
    ensures AfterEnter(cfg, now, AfterExit(cfg, now, p, e).(state := next)).ti == TiAfter(cfg, now, p, next)
  {
    hide ExitSends, EnterSends;
  }

  lemma ExitThenEnterTs(cfg: Config, now: int, p: Peer, e: Event, next: State)
    requires NextState(cfg.role, p.state, e) == Some(next)
    ensures AfterEnter(cfg, now, AfterExit(cfg, now, p, e).(state := next)).ts == TsAfter(cfg, now, p, e, next)
  {
    hide ExitSends, EnterSends;
  }

  lemma ExitThenEnterTr(cfg: Config, now: int, p: Peer, e: Event, next: State)
    requires NextState(cfg.role, p.state, e) == Some(next)
    ensures AfterEnter(cfg, now, AfterExit(cfg, now, p, e).(state := next)).tr == TrAfter(cfg, now, p, e, next)
  {
    hide ExitSends, EnterSends;
  }

  /** Exit function, new state, enter function: together the net effect, self-transitions included. */
  lemma ExitThenEnter(cfg: Config, now: int, p: Peer, e: Event, next: State)
    requires NextState(cfg.role, p.state, e) == Some(next)
    ensures AfterEnter(cfg, now, AfterExit(cfg, now, p, e).(state := next)) == React(cfg, now, p, e)
  {
    ExitThenEnterPackets(cfg, p.state, e, next);
    ExitThenEnterTi(cfg, now, p, e, next);
    ExitThenEnterTs(cfg, now, p, e, next);
    ExitThenEnterTr(cfg, now, p, e, next);
    hide NextState, Sends, TiAfter, TsAfter, TrAfter, ExitSends, EnterSends;
    assert (p.outq + ExitSends(cfg, p.state, e)) + EnterSends(cfg, next)
           == p.outq + (ExitSends(cfg, p.state, e) + EnterSends(cfg, next));
  }

  /** One turn of the receive loop. */
  lemma DrainStep(buffer: seq<byte>)
    ensures buffer == [] ==> Drain(buffer) == []
    ensures buffer != [] ==>
              var header, body := ParseHeader(Fill(buffer, HEADER_LEN)), Rest(buffer, HEADER_LEN);
              Drain(buffer) ==
                if !header.isValid then Drain(body)
                else if body == [] then []
                else
                  (ValidHeaderBounds(Fill(buffer, HEADER_LEN));
                   [FmtpMessage(header.pkgType, Fill(body, header.BodyLen()))] + Drain(Rest(body, header.BodyLen())))
  {
  }

  lemma OneMoreMessage(cfg: Config, now: int, p: Peer, user: seq<FmtpMessage>, msg: FmtpMessage, rest: seq<FmtpMessage>)
    ensures ReceiveAll(cfg, now, p, [msg] + rest) == ReceiveAll(cfg, now, ReceiveMessage(cfg, now, p, msg), rest)
    ensures AsksOnAll(cfg, now, p, [msg] + rest)
         == AsksOn(cfg, p.state, msg) + AsksOnAll(cfg, now, ReceiveMessage(cfg, now, p, msg), rest)
    ensures user + UserMessages([msg] + rest) == (user + if ForUser(msg) then [msg] else []) + UserMessages(rest)
  {
    hide ReceiveMessage, AsksOn, ForUser;
    assert ([msg] + rest)[1..] == rest;
  }

  lemma NoMoreMessages(cfg: Config, now: int, p: Peer, user: seq<FmtpMessage>)
    ensures Drain([]) == [] && ReceiveAll(cfg, now, p, []) == p && user + UserMessages([]) == user
    ensures AsksOnAll(cfg, now, p, []) == 0
  {
  }

  lemma RejectionEndsIdentification(cfg: Config, now: int, p: Peer, m: FmtpMessage)
    ensures m.msgType == 3 && m.text == Bytes("REJECT") && Identifying(cfg.role, p.state) && Disciplined(cfg, p) ==>
              ReceiveMessage(cfg, now, p, m) == IdleWith(p.outq) && AsksOn(cfg, p.state, m) == 1
  {
    MessagesStandForEvents(cfg, m);
    if Identifying(cfg.role, p.state) && Disciplined(cfg, p) {
      IdentificationIsBroken(cfg, now, p, RReject);
      GoesIdleIff(cfg.role, p.state, RReject);
    }
    hide Classify, React, NextState;
  }

  /** A chunk of whole packets that finds the buffer empty gives their messages, the user's to the user. */
  lemma WholePackets(buffer: seq<byte>, data: seq<byte>)
    ensures forall msgs :: buffer == [] && data == Packets(msgs) && AllSendable(msgs) ==>
                             Drain(buffer + data) == msgs
                             && (OfUserTypes(msgs) ==> UserMessages(msgs) == msgs)
                             && (OfOwnTypes(msgs) ==> UserMessages(msgs) == [])
  {
    hide Drain, Packets, UserMessages;
    forall msgs | buffer == [] && data == Packets(msgs) && AllSendable(msgs)
      ensures Drain(buffer + data) == msgs
      ensures OfUserTypes(msgs) ==> UserMessages(msgs) == msgs
      ensures OfOwnTypes(msgs) ==> UserMessages(msgs) == []
    {
      DrainPackets(msgs, []);
      assert buffer + data == Packets(msgs) + [];
      if OfUserTypes(msgs) {
        UserGetsAll(msgs);
      }
      if OfOwnTypes(msgs) {
        UserGetsNone(msgs);
      }
    }
  }

  class StateController {
    const curSet: Config
    const tiTimer: Timer
    const tsTimer: Timer
    const trTimer: Timer
    var currentState: State
    var stateMachine: FmtpStateMachine
    var sendChan: seq<Outgoing>
    var receivedBuffer: seq<byte>
    var fmtpDataReceiveChan: seq<FmtpMessage>
    // reconnections asked of the transport, each due ReconnectTimeout seconds after entering Idle
    var reconnects: nat

    ghost predicate Valid()
      reads this
    {
      && tiTimer != tsTimer && tsTimer != trTimer && trTimer != tiTimer
      && tiTimer.duration == curSet.intervalTi
      && tsTimer.duration == curSet.intervalTs
      && trTimer.duration == curSet.intervalTr
      && IsTableOf(stateMachine, curSet.role)
    }

    /** The controller as a value of the specification. */
    ghost function Abs(): (r: Peer)
      reads this, tiTimer, tsTimer, trTimer
    {
      Peer(currentState, tiTimer.alarm, tsTimer.alarm, trTimer.alarm, sendChan)
    }

    constructor (settings: Config)
      ensures Valid() && curSet == settings && Abs() == INITIAL_PEER
      ensures receivedBuffer == [] && fmtpDataReceiveChan == [] && reconnects == 0
      ensures fresh(tiTimer) && fresh(tsTimer) && fresh(trTimer)
    {
      var machine := InitStateMachine(settings.role);
      curSet := settings;
      tiTimer := new Timer(settings.intervalTi);
      tsTimer := new Timer(settings.intervalTs);
      trTimer := new Timer(settings.intervalTr);
      currentState := Idle;
      stateMachine := machine;
      sendChan, receivedBuffer, fmtpDataReceiveChan, reconnects := [], [], [], 0;
    }

    method SendPacket(msg: FmtpMessage, after: Option<Event>)
      modifies this`sendChan
      ensures sendChan == old(sendChan) + [Outgoing(msg, after)]
    {
      sendChan := sendChan + [Outgoing(msg, after)];
    }

    // Enter and exit functions

    method IdleStateEnter()
      modifies this`reconnects
      ensures reconnects == old(reconnects) + 1
    {
      reconnects := reconnects + 1;
    }

    method SystemIdPendingStateEnter(now: int)
      requires Valid()
      modifies tiTimer
      ensures Abs() == old(Abs()).(ti := Armed(now + curSet.intervalTi))
    {
      tiTimer.RestartTimer(now);
    }

    method SystemIdPendingStateExit(now: int, e: Event)
      requires Valid()
      modifies this`sendChan, tiTimer
      ensures e == RIdValid && curSet.role == Server ==>
                Abs() == old(Abs()).(ti := Armed(now + curSet.intervalTi),
                                     outq := old(sendChan) + [Outgoing(curSet.own, None)])
      ensures e != RIdValid ==> Abs() == old(Abs()).(ti := Off)
    {
      if e == RIdValid {
        if curSet.role == Server {
          SendPacket(curSet.own, None);
        }
        tiTimer.RestartTimer(now);
      } else {
        tiTimer.StopTimer();
      }
    }

    method ConnectionPendingStateEnter()
      modifies this`sendChan
      ensures Abs() == old(Abs()).(outq := old(sendChan) + [Outgoing(curSet.own, Some(RSetup))])
    {
      SendPacket(curSet.own, Some(RSetup));
    }

    method IdPendingStateEnter(now: int)
      requires Valid()
      modifies tiTimer
      ensures Abs() == old(Abs()).(ti := Armed(now + curSet.intervalTi))
    {
      tiTimer.RestartTimer(now);
    }

    method IdPendingStateExit(e: Event)
      requires Valid()
      modifies this`sendChan, tiTimer
      ensures Abs() == old(Abs()).(ti := Off, outq := old(sendChan) +
                if e == RIdValid then [Outgoing(ACCEPT, None)]
                else if e == RIdInvalid then [Outgoing(REJECT, None)]
                else [])
    {
      if e == RIdValid {
        SendPacket(ACCEPT, None);
      } else if e == RIdInvalid {
        SendPacket(REJECT, None);
      }
      tiTimer.StopTimer();
    }

    method ReadyStateEnter()
      modifies this`sendChan
      ensures Abs() == old(Abs()).(outq := old(sendChan) + [STARTUP_REQUEST])
    {
      SendPacket(STARTUP, Some(LStartup));
    }

    method ReadyStateExit(now: int, e: Event)
      requires Valid()
      modifies trTimer
      ensures Abs() == old(Abs()).(tr := if e == LStartup then Armed(now + curSet.intervalTr) else old(trTimer.alarm))
    {
      if e == LStartup {
        trTimer.RestartTimer(now);
      }
    }

    // The TrTimeout branch is never taken: the table has no transition for it here.
    method AssociationPendingStateExit(now: int, e: Event)
      requires Valid()
      modifies this`sendChan, trTimer, tsTimer
      ensures e == LDisconnect || e == LShutdown ==>
                Abs() == old(Abs()).(tr := Off, outq := old(sendChan) + [Outgoing(SHUTDOWN, None)])
      ensures e == RStartup ==>
                Abs() == old(Abs()).(tr := Armed(now + curSet.intervalTr), ts := Armed(now + curSet.intervalTs),
                                     outq := old(sendChan) + [STARTUP_REQUEST])
      ensures e == TrTimeout ==>
                Abs() == old(Abs()).(tr := Armed(now + curSet.intervalTr), outq := old(sendChan) + [STARTUP_REQUEST])
      ensures e != LDisconnect && e != LShutdown && e != RStartup && e != TrTimeout ==> Abs() == old(Abs()).(tr := Off)
    {
      if e == LDisconnect || e == LShutdown {
        SendPacket(SHUTDOWN, None);
        trTimer.StopTimer();
      } else if e == TrTimeout {
        SendPacket(STARTUP, Some(LStartup));
        trTimer.RestartTimer(now);
      } else if e == RStartup {
        SendPacket(STARTUP, Some(LStartup));
        trTimer.RestartTimer(now);
        tsTimer.RestartTimer(now);
      } else {
        trTimer.StopTimer();
      }
    }

    method DataReadyStateExit(now: int, e: Event)
      requires Valid()
      modifies this`sendChan, trTimer, tsTimer
      ensures e == LDisconnect || e == LShutdown ==>
                Abs() == old(Abs()).(tr := Off, ts := Off, outq := old(sendChan) + [Outgoing(SHUTDOWN, None)])
      ensures e == RDisconnect || e == TrTimeout ==> Abs() == old(Abs()).(tr := Off, ts := Off)
      ensures e == LData ==> Abs() == old(Abs()).(ts := Armed(now + curSet.intervalTs))
      ensures e == TsTimeout ==>
                Abs() == old(Abs()).(ts := Armed(now + curSet.intervalTs),
                                     outq := old(sendChan) + [Outgoing(HEARTBEAT, None)])
      ensures e == RData || e == RHeartbeat ==> Abs() == old(Abs()).(tr := Armed(now + curSet.intervalTr))
      ensures e == RShutdown ==> Abs() == old(Abs()).(ts := Off, tr := Armed(now + curSet.intervalTr))
    {
      if e == LDisconnect || e == LShutdown {
        SendPacket(SHUTDOWN, None);
        trTimer.StopTimer();
        tsTimer.StopTimer();
      } else if e == RDisconnect || e == TrTimeout {
        trTimer.StopTimer();
        tsTimer.StopTimer();
      } else if e == LData {
        tsTimer.RestartTimer(now);
      } else if e == TsTimeout {
        SendPacket(HEARTBEAT, None);
        tsTimer.RestartTimer(now);
      } else if e == RData || e == RHeartbeat {
        trTimer.RestartTimer(now);
      } else if e == RShutdown {
        tsTimer.StopTimer();
        trTimer.RestartTimer(now);
      }
    }

    method ExitState(now: int, e: Event)
      requires Valid() && NextState(curSet.role, currentState, e).Some?
      modifies this`sendChan, tiTimer, tsTimer, trTimer
      ensures Abs() == AfterExit(curSet, now, old(Abs()), e)
    {
      AcceptedInDataReady(curSet.role, currentState, e);
      hide NextState, IsTableOf;
      ghost var before := Abs();
      match currentState {
        case SysIdPending =>
          if curSet.role == Server {
            SystemIdPendingStateExit(now, e);
          }
        case IdPending => IdPendingStateExit(e);
        case Ready => ReadyStateExit(now, e);
        case AssPending => AssociationPendingStateExit(now, e);
        case DataReady =>
          DataReadyStateExit(now, e);
          assert before.outq + [] == before.outq;
        case _ =>
      }
    }

    method EnterState(now: int)
      requires Valid()
      requires currentState == ConPending ==> curSet.role == Client
      requires currentState == SysIdPending ==> curSet.role == Server
      modifies this`sendChan, this`reconnects, tiTimer
      ensures Abs() == AfterEnter(curSet, now, old(Abs()))
      ensures reconnects == old(reconnects) + if currentState == Idle then 1 else 0
    {
      match currentState {
        case Idle => IdleStateEnter();
        case IdPending => IdPendingStateEnter(now);
        case Ready => ReadyStateEnter();
        case ConPending =>
          if curSet.role == Client {
            ConnectionPendingStateEnter();
          }
        case SysIdPending =>
          if curSet.role == Server {
            SystemIdPendingStateEnter(now);
          }
        case _ =>
      }
    }

    /**
     * Processes one event: looks the next state up, runs the exit function of the current state and the enter
     * function of the next one, also when the two are the same state.
     */
    method ForceNewEvent(now: int, e: Event)
      requires Valid()
      modifies this`currentState, this`sendChan, this`reconnects, tiTimer, tsTimer, trTimer
      ensures Valid() && Abs() == React(curSet, now, old(Abs()), e)
      ensures reconnects == old(reconnects) + Asks(curSet, old(currentState), e)
      ensures e == RDisconnect && Disciplined(curSet, old(Abs())) ==>
                currentState == Idle && tiTimer.alarm == tsTimer.alarm == trTimer.alarm == Off
                && sendChan == old(sendChan) && reconnects == old(reconnects) + 1
    {
      if e == RDisconnect && Disciplined(curSet, Abs()) {
        DisconnectionGoesIdle(curSet, now, Abs());
        GoesIdleIff(curSet.role, currentState, e);
      }
      hide NextState, AfterExit, AfterEnter, TiAfter, TsAfter, TrAfter, Sends;
      var next := GetNextState(stateMachine, currentState, e);
      AnswerIsNextState(stateMachine, curSet.role, currentState, e, next);
      if next.Some? {
        ExitThenEnter(curSet, now, Abs(), e, next.value);
        OnlyTheTablesStates(curSet.role, currentState, e, next.value);
        ExitState(now, e);
        currentState := next.value;
        EnterState(now);
      }
    }

    method ProcessDataMessage(msg: FmtpMessage)
      modifies this`fmtpDataReceiveChan
      ensures fmtpDataReceiveChan == old(fmtpDataReceiveChan) + [msg]
    {
      fmtpDataReceiveChan := fmtpDataReceiveChan + [msg];
    }

    method ProcessFmtpMessage(now: int, msg: FmtpMessage)
      requires Valid()
      modifies this`currentState, this`sendChan, this`reconnects, this`fmtpDataReceiveChan, tiTimer, tsTimer, trTimer
      ensures Valid() && Abs() == ReceiveMessage(curSet, now, old(Abs()), msg)
      ensures reconnects == old(reconnects) + AsksOn(curSet, old(currentState), msg)
      ensures fmtpDataReceiveChan == old(fmtpDataReceiveChan) + if ForUser(msg) then [msg] else []
      ensures fmtpDataReceiveChan == old(fmtpDataReceiveChan) + if msg.msgType in {3, 4} then [] else [msg]
      ensures msg.msgType == 3 && msg.text == Bytes("REJECT") && Identifying(curSet.role, old(currentState))
              && Disciplined(curSet, old(Abs())) ==>
                Abs() == IdleWith(old(sendChan)) && reconnects == old(reconnects) + 1
    {
      RejectionEndsIdentification(curSet, now, Abs(), msg);
      hide NextState, Identifying, Disciplined;
      if msg.msgType == IDENTIFICATION {
        if msg.text == REJECT.text {
          ForceNewEvent(now, RReject);
        } else if msg.text == ACCEPT.text {
          ForceNewEvent(now, RAccept);
        } else if msg.text == curSet.expected.text {
          ForceNewEvent(now, RIdValid);
        } else {
          ForceNewEvent(now, RIdInvalid);
        }
      } else if msg.msgType == SYSTEM {
        if msg.text == STARTUP.text {
          ForceNewEvent(now, RStartup);
        } else if msg.text == SHUTDOWN.text {
          ForceNewEvent(now, RShutdown);
        } else if msg.text == HEARTBEAT.text {
          ForceNewEvent(now, RHeartbeat);
        }
      } else if msg.msgType == OPERATIONAL {
        ForceNewEvent(now, RData);
        ProcessDataMessage(msg);
      } else {
        ProcessDataMessage(msg);
      }
    }

    /** bytes.Buffer.Read into n fresh bytes; the flag is false at the end of the buffer. */
    method ReadBuffer(n: nat) returns (bytes: seq<byte>, ok: bool)
      requires n > 0
      modifies this`receivedBuffer
      ensures ok == (old(receivedBuffer) != [])
      ensures ok ==> bytes == Fill(old(receivedBuffer), n)
      ensures receivedBuffer == Rest(old(receivedBuffer), n)
    {
      ok := receivedBuffer != [];
      bytes := Fill(receivedBuffer, n);
      receivedBuffer := Rest(receivedBuffer, n);
    }

    /**
     * One chunk from the transport. The messages drained from it are processed in order, those for the user
     * are passed on in order, and nothing stays in the buffer for the next chunk.
     */
    method ReceiveBytes(now: int, data: seq<byte>)
      requires Valid()
      modifies this`currentState, this`sendChan, this`reconnects, this`fmtpDataReceiveChan, this`receivedBuffer,
               tiTimer, tsTimer, trTimer
      ensures Valid() && receivedBuffer == []
      ensures var msgs := Drain(old(receivedBuffer) + data);
              Abs() == ReceiveAll(curSet, now, old(Abs()), msgs)
              && fmtpDataReceiveChan == old(fmtpDataReceiveChan) + UserMessages(msgs)
              && reconnects == old(reconnects) + AsksOnAll(curSet, now, old(Abs()), msgs)
      ensures forall msgs :: old(receivedBuffer) == [] && data == Packets(msgs) && AllSendable(msgs) ==>
                               (OfUserTypes(msgs) ==> fmtpDataReceiveChan == old(fmtpDataReceiveChan) + msgs)
                               && (OfOwnTypes(msgs) ==> fmtpDataReceiveChan == old(fmtpDataReceiveChan))
    {
      hide AsksOnAll, AsksOn, ReceiveAll, ReceiveMessage, UserMessages, ForUser, ParseHeader, IsTableOf, Drain;
      receivedBuffer := receivedBuffer + data;
      ghost var total := Drain(receivedBuffer);
      ghost var p0, user0, asked0 := Abs(), fmtpDataReceiveChan, reconnects;
      while true
        invariant Valid()
        invariant ReceiveAll(curSet, now, p0, total) == ReceiveAll(curSet, now, Abs(), Drain(receivedBuffer))
        invariant asked0 + AsksOnAll(curSet, now, p0, total)
               == reconnects + AsksOnAll(curSet, now, Abs(), Drain(receivedBuffer))
        invariant user0 + UserMessages(total) == fmtpDataReceiveChan + UserMessages(Drain(receivedBuffer))
        decreases |receivedBuffer|
      {
        DrainStep(receivedBuffer);
        var headerBytes, headerOk := ReadBuffer(HEADER_LEN);
        if !headerOk {
          break;
        }
        var curHeader := ParseHeader(headerBytes);
        if curHeader.isValid {
          ValidHeaderBounds(headerBytes);
          var bodyBytes, bodyOk := ReadBuffer(curHeader.BodyLen());
          if !bodyOk {
            break;
          }
          var msg := FmtpMessage(curHeader.pkgType, bodyBytes);
          OneMoreMessage(curSet, now, Abs(), fmtpDataReceiveChan, msg, Drain(receivedBuffer));
          ProcessFmtpMessage(now, msg);
        }
      }
      NoMoreMessages(curSet, now, Abs(), fmtpDataReceiveChan);
      WholePackets(old(receivedBuffer), data);
    }

    /** A message from the user, sent in whatever state the controller is. */
    method SendData(msg: FmtpMessage)
      requires Valid()
      modifies this`sendChan
      ensures Valid() && Abs() == Submit(old(Abs()), msg)
      ensures sendChan == old(sendChan) + [Outgoing(msg, Some(LData))] && currentState == old(currentState)
    {
      SendPacket(msg, Some(LData));
    }

    /** A timer's event arrives: the timer itself is off by then. */
    method OnExpiry(now: int, t: TimerId)
      requires Valid()
      modifies this`currentState, this`sendChan, this`reconnects, tiTimer, tsTimer, trTimer
      ensures Valid() && Abs() == Expire(curSet, now, old(Abs()), t)
      ensures reconnects == old(reconnects) + Asks(curSet, old(currentState), TimeoutEvent(t))
      ensures t == Ti && Identifying(curSet.role, old(currentState)) && Disciplined(curSet, old(Abs())) ==>
                Abs() == IdleWith(old(sendChan)) && reconnects == old(reconnects) + 1
      ensures t == Tr && old(currentState) == DataReady && Disciplined(curSet, old(Abs())) ==>
                Abs() == IdleWith(old(sendChan)) && reconnects == old(reconnects) + 1
    {
      if Disciplined(curSet, Abs()) {
        Expiries(curSet, now, Abs());
        GoesIdleIff(curSet.role, currentState, TimeoutEvent(t));
      }
      hide Expire, NextState, Disciplined;
      match t {
        case Ti => tiTimer.StopTimer();
        case Ts => tsTimer.StopTimer();
        case Tr => trTimer.StopTimer();
      }
      ForceNewEvent(now, TimeoutEvent(t));
    }
  }
}
