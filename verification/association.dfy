/**
 * One FMTP peer as a value: its state, its three timers and the packets waiting for the send loop, and the
 * net effect of one event on them. The class StateController is proved against these functions.
 */
module Association {
  import opened Wrappers
  import opened FmtpMessages
  import opened StateMachine

  /** A timer that is off, or that will fire its event at the deadline. */
  datatype Alarm = Off | Armed(deadline: int)

  /** A packet for the send loop and the event it generates once the packet is written. */
  datatype Outgoing = Outgoing(msg: FmtpMessage, after: Option<Event>)

  datatype Config = Config(role: Role, own: FmtpMessage, expected: FmtpMessage,
                           intervalTi: int, intervalTs: int, intervalTr: int)

  datatype Peer = Peer(state: State, ti: Alarm, ts: Alarm, tr: Alarm, outq: seq<Outgoing>)

  const INITIAL_PEER := Peer(Idle, Off, Off, Off, [])

  const STARTUP_REQUEST := Outgoing(STARTUP, Some(LStartup))

  /** The packets an accepted event queues. */
  function Sends(cfg: Config, s: State, e: Event): (r: seq<Outgoing>) {
    match s
    case Idle => if e == LSetup then [Outgoing(cfg.own, Some(RSetup))] else []
    case SysIdPending => if e == RIdValid then [Outgoing(cfg.own, None)] else []
    case IdPending =>
      if e == RIdValid then [Outgoing(ACCEPT, None), STARTUP_REQUEST]
      else if e == RIdInvalid then [Outgoing(REJECT, None)]
      else if e == RAccept && cfg.role == Server then [STARTUP_REQUEST]
      else []
    case Ready => if e == LShutdown then [STARTUP_REQUEST] else []
    case AssPending =>
      if e == LShutdown then [Outgoing(SHUTDOWN, None), STARTUP_REQUEST]
      else if e == LDisconnect then [Outgoing(SHUTDOWN, None)]
      else if e == RStartup then [STARTUP_REQUEST]
      else []
    case DataReady =>
      if e == LShutdown then [Outgoing(SHUTDOWN, None), STARTUP_REQUEST]
      else if e == LDisconnect then [Outgoing(SHUTDOWN, None)]
      else if e == TsTimeout then [Outgoing(HEARTBEAT, None)]
      else []
    case _ => []
  }

  /** Waiting for identification keeps Ti running, from each entry anew. */
  function TiAfter(cfg: Config, now: int, p: Peer, next: State): (r: Alarm) {
    if next == SysIdPending || next == IdPending then Armed(now + cfg.intervalTi)
    else if p.state == SysIdPending || p.state == IdPending then Off
    else p.ti
  }

  /** Ts runs in DataReady, from the entry or the last own transmission. */
  function TsAfter(cfg: Config, now: int, p: Peer, e: Event, next: State): (r: Alarm) {
    if next == DataReady then
      if p.state != DataReady || e == LData || e == TsTimeout then Armed(now + cfg.intervalTs) else p.ts
    else if p.state == DataReady then Off
    else p.ts
  }

  /** Tr runs from the STARTUP handshake on, from each reception anew. */
  function TrAfter(cfg: Config, now: int, p: Peer, e: Event, next: State): (r: Alarm) {
    match p.state
    case Ready => if e == LStartup then Armed(now + cfg.intervalTr) else p.tr
    case AssPending => if e == RStartup then Armed(now + cfg.intervalTr) else Off
    case DataReady =>
      if e == RData || e == RHeartbeat || e == RShutdown then Armed(now + cfg.intervalTr)
      else if next == DataReady then p.tr
      else Off
    case _ => p.tr
  }

  /** The net effect of an event: nothing if the table ignores it, else state, timers and queued packets. */
  function React(cfg: Config, now: int, p: Peer, e: Event): (r: Peer) {
    match NextState(cfg.role, p.state, e)
    case None => p
    case Some(next) =>
      Peer(next, TiAfter(cfg, now, p, next), TsAfter(cfg, now, p, e, next), TrAfter(cfg, now, p, e, next),
           p.outq + Sends(cfg, p.state, e))
  }

  /** Each entry to Idle asks the transport for one reconnection. */
  function Asks(cfg: Config, s: State, e: Event): (n: nat) {
    if NextState(cfg.role, s, e) == Some(Idle) then 1 else 0
  }

  datatype TimerId = Ti | Ts | Tr

  function AlarmOf(p: Peer, t: TimerId): (r: Alarm) {
    match t case Ti => p.ti case Ts => p.ts case Tr => p.tr
  }

  function TimeoutEvent(t: TimerId): (r: Event) {
    match t case Ti => TiTimeout case Ts => TsTimeout case Tr => TrTimeout
  }

  function SwitchOff(p: Peer, t: TimerId): (r: Peer) {
    match t
    case Ti => p.(ti := Off)
    case Ts => p.(ts := Off)
    case Tr => p.(tr := Off)
  }

  /** An expiry: the timer is off once it has fired, and its event is processed. */
  function Expire(cfg: Config, now: int, p: Peer, t: TimerId): (r: Peer) {
    React(cfg, now, SwitchOff(p, t), TimeoutEvent(t))
  }

  /** The event a received message stands for, if any. */
  function Classify(cfg: Config, m: FmtpMessage): (r: Option<Event>) {
    if m.msgType == IDENTIFICATION then
      if m.text == REJECT.text then Some(RReject)
      else if m.text == ACCEPT.text then Some(RAccept)
      else if m.text == cfg.expected.text then Some(RIdValid)
      else Some(RIdInvalid)
    else if m.msgType == SYSTEM then
      if m.text == STARTUP.text then Some(RStartup)
      else if m.text == SHUTDOWN.text then Some(RShutdown)
      else if m.text == HEARTBEAT.text then Some(RHeartbeat)
      else None
    else if m.msgType == OPERATIONAL then Some(RData)
    else None
  }

  /** Messages passed on to the user: everything but identification and system messages. */
  predicate ForUser(m: FmtpMessage) {
    m.msgType != IDENTIFICATION && m.msgType != SYSTEM
  }

  function ReceiveMessage(cfg: Config, now: int, p: Peer, m: FmtpMessage): (r: Peer) {
    match Classify(cfg, m)
    case None => p
    case Some(e) => React(cfg, now, p, e)
  }

  function AsksOn(cfg: Config, s: State, m: FmtpMessage): (n: nat) {
    match Classify(cfg, m)
    case None => 0
    case Some(e) => Asks(cfg, s, e)
  }

  function AsksOnAll(cfg: Config, now: int, p: Peer, msgs: seq<FmtpMessage>): (n: nat)
    decreases |msgs|
  {
    if msgs == [] then 0
    else AsksOn(cfg, p.state, msgs[0]) + AsksOnAll(cfg, now, ReceiveMessage(cfg, now, p, msgs[0]), msgs[1..])
  }

  function ReceiveAll(cfg: Config, now: int, p: Peer, msgs: seq<FmtpMessage>): (r: Peer)
    decreases |msgs|
  {
    if msgs == [] then p else ReceiveAll(cfg, now, ReceiveMessage(cfg, now, p, msgs[0]), msgs[1..])
  }

  function UserMessages(msgs: seq<FmtpMessage>): (r: seq<FmtpMessage>) {
    if msgs == [] then []
    else (if ForUser(msgs[0]) then [msgs[0]] else []) + UserMessages(msgs[1..])
  }

  /** Local user data goes to the send loop in any state; its after-send event is LData. */
  function Submit(p: Peer, m: FmtpMessage): (r: Peer) {
    p.(outq := p.outq + [Outgoing(m, Some(LData))])
  }
}
