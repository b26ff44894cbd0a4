/** The FMTP state tables: how the source builds and searches them, and the function they stand for. */
module StateMachine {
  import opened Wrappers

  datatype Role = Client | Server

  datatype State = Idle | ConPending | SysIdPending | IdPending | Ready | AssPending | DataReady | Disabled

  datatype Event =
    | LSetup | RSetup | TcSetup | LDisconnect | RDisconnect | TcDisconnect | LData | LShutdown | LStartup
    | RData | RAccept | RReject | RIdValid | RIdInvalid | RHeartbeat | RShutdown | RStartup
    | TsTimeout | TrTimeout | TiTimeout | Disable | Enable

  type FmtpStateMachine = map<State, map<State, seq<Event>>>

  /** The state an event leads to; None where the source answers Empt and ignores the event. */
  function NextState(role: Role, s: State, e: Event): (r: Option<State>) {
    match s
    case Idle => FromIdle(role, e)
    case ConPending => if role == Client then FromConPending(e) else None
    case SysIdPending => if role == Server then FromSysIdPending(e) else None
    case IdPending => if role == Client then FromClientIdPending(e) else FromServerIdPending(e)
    case Ready =>
      (match e
       case LStartup => Some(AssPending)
       case LShutdown => Some(Ready)
       case LDisconnect | RDisconnect => Some(Idle)
       case _ => None)
    case AssPending =>
      (match e
       case RStartup => Some(DataReady)
       case LShutdown => Some(Ready)
       case TiTimeout => Some(AssPending)
       case LDisconnect | RDisconnect => Some(Idle)
       case _ => None)
    case DataReady =>
      (match e
       case RShutdown => Some(AssPending)
       case LShutdown => Some(Ready)
       case LData | RData | RHeartbeat | TsTimeout => Some(DataReady)
       case LDisconnect | RDisconnect | TrTimeout => Some(Idle)
       case _ => None)
    case Disabled => None
  }

  function FromIdle(role: Role, e: Event): (r: Option<State>) {
    match e
    case LSetup => if role == Client then Some(ConPending) else None
    case RSetup => if role == Server then Some(SysIdPending) else None
    case LDisconnect | RDisconnect => Some(Idle)
    case _ => None
  }

  function FromConPending(e: Event): (r: Option<State>) {
    match e
    case RSetup => Some(IdPending)
    case LDisconnect | RDisconnect | LData | LShutdown | LStartup | RData | RAccept | RReject | RHeartbeat
      | RShutdown | RStartup | TiTimeout => Some(Idle)
    case _ => None
  }

  function FromSysIdPending(e: Event): (r: Option<State>) {
    match e
    case RIdValid => Some(IdPending)
    case RSetup => Some(SysIdPending)
    case LDisconnect | RDisconnect | RAccept | RReject | TiTimeout | RData | RIdInvalid | RHeartbeat | RShutdown
      | RStartup => Some(Idle)
    case _ => None
  }

  function FromClientIdPending(e: Event): (r: Option<State>) {
    match e
    case RIdValid => Some(Ready)
    case LDisconnect | RDisconnect | RReject | RAccept | RIdInvalid | RData | RHeartbeat | RShutdown | RStartup
      | TiTimeout | LData | LShutdown | LStartup => Some(Idle)
    case _ => None
  }

  function FromServerIdPending(e: Event): (r: Option<State>) {
    match e
    case RAccept => Some(Ready)
    case LDisconnect | RDisconnect | RData | RReject | RHeartbeat | RShutdown | RStartup | TiTimeout => Some(Idle)
    case _ => None
  }

  /** The machine lists event e as leading from s to next. */
  predicate Lists(m: FmtpStateMachine, s: State, next: State, e: Event) {
    s in m && next in m[s] && e in m[s][next]
  }

  /** The machine is the table of a role: it lists exactly the transitions of NextState. */
  ghost predicate IsTableOf(m: FmtpStateMachine, role: Role) {
    forall s :: IsRowOf(m, role, s)
  }

  /** One row of the machine, the transitions out of s, is right for a role. */
  ghost predicate IsRowOf(m: FmtpStateMachine, role: Role, s: State) {
    forall next, e :: Lists(m, s, next, e) <==> NextState(role, s, e) == Some(next)
  }

  method CommonStateMachine(machine: FmtpStateMachine) returns (m: FmtpStateMachine)
    requires {Ready, AssPending, DataReady} !! machine.Keys
    ensures m.Keys == machine.Keys + {Ready, AssPending, DataReady}
    ensures forall s :: s in machine ==> m[s] == machine[s]
    ensures forall role :: IsRowOf(m, role, Ready) && IsRowOf(m, role, AssPending) && IsRowOf(m, role, DataReady)
  {
    var ready := map[AssPending := [LStartup]];
    ready := ready[Idle := [LDisconnect, RDisconnect]];
    ready := ready[Ready := [LShutdown]];

    var assPending := map[Ready := [LShutdown]];
    assPending := assPending[DataReady := [RStartup]];
    assPending := assPending[Idle := [LDisconnect, RDisconnect]];
    assPending := assPending[AssPending := [TiTimeout]];

    var dataReady := map[AssPending := [RShutdown]];
    dataReady := dataReady[Ready := [LShutdown]];
    dataReady := dataReady[Idle := [LDisconnect, RDisconnect, TrTimeout]];
    dataReady := dataReady[DataReady := [LData, RData, RHeartbeat, TsTimeout]];

    m := machine[Ready := ready];
    m := m[AssPending := assPending];
    m := m[DataReady := dataReady];
  }

  method ClientStateMachine() returns (m: FmtpStateMachine)
    ensures m.Keys == {Idle, ConPending, IdPending}
    ensures forall s :: s in m.Keys ==> IsRowOf(m, Client, s)
  {
    var idle := map[ConPending := [LSetup]];
    idle := idle[Idle := [LDisconnect, RDisconnect]];

    var conPending := map[IdPending := [RSetup]];
    conPending := conPending[Idle := [LDisconnect, RDisconnect,
      LData, LShutdown, LStartup, RData, RAccept, RReject, RHeartbeat, RShutdown, RStartup, TiTimeout]];

    var idPending := map[Ready := [RIdValid]];
    idPending := idPending[Idle := [LDisconnect, RDisconnect, RReject, RAccept,
      RIdInvalid, RData, RHeartbeat, RShutdown, RStartup, TiTimeout,
      LData, LShutdown, LStartup]];

    m := map[Idle := idle, ConPending := conPending, IdPending := idPending];
  }

  method ServerStateMachine() returns (m: FmtpStateMachine)
    ensures m.Keys == {Idle, SysIdPending, IdPending}
    ensures forall s :: s in m.Keys ==> IsRowOf(m, Server, s)
  {
    var idle := map[SysIdPending := [RSetup]];
    idle := idle[Idle := [LDisconnect, RDisconnect]];

    var sysIdPending := map[IdPending := [RIdValid]];
    sysIdPending := sysIdPending[Idle := [LDisconnect, RDisconnect, RAccept,
      RReject, TiTimeout, RData, RIdInvalid, RHeartbeat, RShutdown, RStartup]];
    sysIdPending := sysIdPending[SysIdPending := [RSetup]];

    var idPending := map[Ready := [RAccept]];
    idPending := idPending[Idle := [LDisconnect, RDisconnect, RData, RReject,
      RHeartbeat, RShutdown, RStartup, TiTimeout]];

    m := map[Idle := idle, SysIdPending := sysIdPending, IdPending := idPending];
  }

  method InitStateMachine(role: Role) returns (m: FmtpStateMachine)
    ensures IsTableOf(m, role)
  {
    var start: FmtpStateMachine;
    if role == Client {
      start := ClientStateMachine();
    } else {
      start := ServerStateMachine();
    }
    m := CommonStateMachine(start);
    forall s ensures IsRowOf(m, role, s) {
      if s in start {
        assert IsRowOf(start, role, s);
        assert forall next, e :: Lists(m, s, next, e) <==> Lists(start, s, next, e);
      }
    }
  }

  /** An answer of the search: a listed successor, or none if no successor is listed. */
  ghost predicate IsAnswer(m: FmtpStateMachine, s: State, e: Event, r: Option<State>) {
    match r
    case Some(next) => Lists(m, s, next, e)
    case None => forall next :: !Lists(m, s, next, e)
  }

  /** The search of the nested maps, in whatever order the maps are ranged over. */
  method GetNextState(m: FmtpStateMachine, curState: State, curEvent: Event) returns (r: Option<State>)
    ensures IsAnswer(m, curState, curEvent, r)
  {
    if curState in m {
      var row := m[curState];
      var toVisit := row.Keys;
      while toVisit != {}
        invariant toVisit <= row.Keys
        invariant forall next :: next in row && next !in toVisit ==> curEvent !in row[next]
        decreases |toVisit|
      {
        var nextStateIt :| nextStateIt in toVisit;
        var events := row[nextStateIt];
        for i := 0 to |events|
          invariant forall j :: 0 <= j < i ==> events[j] != curEvent
        {
          if events[i] == curEvent {
            return Some(nextStateIt);
          }
        }
        toVisit := toVisit - {nextStateIt};
      }
    }
    return None;
  }

  /** In a role's table the order of the search does not matter: every answer is the table's. */
  lemma AnswerIsNextState(m: FmtpStateMachine, role: Role, s: State, e: Event, r: Option<State>)
    requires IsTableOf(m, role)
    ensures IsAnswer(m, s, e, r) <==> r == NextState(role, s, e)
  {
    hide NextState, Lists;
    assert IsRowOf(m, role, s);
    assert forall next :: Lists(m, s, next, e) <==> NextState(role, s, e) == Some(next);
  }
}
