/**
 * Laws of two peers under any scheduling, with any timeouts, disconnections and commands: how a connection ends, and
 * that user data is conserved on its way from the one user to the other.
 */
module PeerLaws {
  import opened Wrappers
  import opened FmtpMessages
  import opened ReceiveLoop
  import opened StateMachine
  import opened Association
  import opened SingleController
  import opened EventLaws
  import opened Peers
  import opened Wire

  // The end of a connection

  ghost predicate BothDisciplined(sites: Sites, s: Sys) {
    Disciplined(sites.Cfg(Client), s.client.peer) && Disciplined(sites.Cfg(Server), s.server.peer)
  }

  lemma StepKeepsDiscipline(sites: Sites, s: Sys, a: Action)
    requires BothDisciplined(sites, s) && Enabled(s, a)
    ensures BothDisciplined(sites, Do(sites, s, a))
  {
    hide React, Expire, Classify, CreateIdentificationMessage;
    match a {
      case Setup(x) => ReactKeepsDiscipline(sites.Cfg(x), s.now, s.Of(x).peer, s.Of(x).setup[0]);
      case Take(x) => ReactKeepsDiscipline(sites.Cfg(x), s.now, s.Of(x).peer, s.Of(x).pending.value);
      case Receive(x) =>
        var e := Classify(sites.Cfg(x), s.In(x).log[s.In(x).taken].msg);
        if e.Some? {
          ReactKeepsDiscipline(sites.Cfg(x), s.now, s.Of(x).peer, e.value);
        }
      case Expiry(x, t) => ExpiryKeepsDiscipline(sites.Cfg(x), s.now, s.Of(x).peer, t);
      case Stale(x, t) => ReactKeepsDiscipline(sites.Cfg(x), s.now, s.Of(x).peer, TimeoutEvent(t));
      case Disconnect(x) => ReactKeepsDiscipline(sites.Cfg(x), s.now, s.Of(x).peer, RDisconnect);
      case Command(x, e) => ReactKeepsDiscipline(sites.Cfg(x), s.now, s.Of(x).peer, e);
      case _ =>
    }
  }

  lemma {:induction false} RunsKeepDiscipline(sites: Sites, s: Sys, actions: seq<Action>)
    requires BothDisciplined(sites, s) && IsRun(sites, Anything(), s, actions)
    ensures BothDisciplined(sites, After(sites, s, actions))
    decreases |actions|
  {
    if actions != [] {
      StepKeepsDiscipline(sites, s, actions[0]);
      hide BothDisciplined, Do, Enabled;
      RunsKeepDiscipline(sites, Do(sites, s, actions[0]), actions[1..]);
    }
  }

  lemma ReachableIsDisciplined(sites: Sites, s: Sys, x: Role)
    requires Reachable(sites, Anything(), s)
    ensures Disciplined(sites.Cfg(x), s.Of(x).peer)
  {
    hide After, IsRun;
    var actions: seq<Action> :| IsRun(sites, Anything(), CONNECTED, actions) && After(sites, CONNECTED, actions) == s;
    RunsKeepDiscipline(sites, CONNECTED, actions);
  }

  /** In every reachable state a disconnection of either kind leaves its side idle, with all timers off. */
  lemma DisconnectedIsIdle(sites: Sites, s: Sys, x: Role)
    requires Reachable(sites, Anything(), s)
    ensures Do(sites, s, Disconnect(x)).Of(x).peer == IdleWith(s.Of(x).peer.outq)
    ensures var p := Do(sites, s, Command(x, LDisconnect)).Of(x).peer; p == IdleWith(p.outq)
  {
    ReachableIsDisciplined(sites, s, x);
    DisconnectionGoesIdle(sites.Cfg(x), s.now, s.Of(x).peer);
    hide React, Disciplined, CreateIdentificationMessage, Reachable;
  }

  /** So do Ti while identifying and Tr in DataReady. */
  lemma TimedOutIsIdle(sites: Sites, s: Sys, x: Role)
    requires Reachable(sites, Anything(), s)
    ensures Identifying(x, s.Of(x).peer.state) && s.Of(x).peer.ti.Armed? ==>
              Do(sites, s, Expiry(x, Ti)).Of(x).peer == IdleWith(s.Of(x).peer.outq)
    ensures s.Of(x).peer.state == DataReady ==>
              Enabled(s, Expiry(x, Tr)) && Do(sites, s, Expiry(x, Tr)).Of(x).peer == IdleWith(s.Of(x).peer.outq)
  {
    ReachableIsDisciplined(sites, s, x);
    Expiries(sites.Cfg(x), s.now, s.Of(x).peer);
    hide Expire, CreateIdentificationMessage, Reachable;
  }

  // Identification

  /** What each side says of itself and what it expects of the other, by their names. */
  lemma IdentificationTexts(sites: Sites, x: Role)
    ensures var site := if x == Client then sites.client else sites.server;
            && sites.Cfg(x).own == FmtpMessage(3, site.localATC + Bytes("-") + site.remoteATC)
            && sites.Cfg(x).expected == FmtpMessage(3, site.remoteATC + Bytes("-") + site.localATC)
            && sites.Cfg(x).role == x
            && sites.Cfg(x).intervalTi == site.intervalTi && sites.Cfg(x).intervalTs == site.intervalTs
            && sites.Cfg(x).intervalTr == site.intervalTr
  {
    FixedTexts(sites.client.localATC, sites.client.remoteATC);
    FixedTexts(sites.server.localATC, sites.server.remoteATC);
  }

  // User data

  /** What the user of side x submits in the course of a run, as messages. */
  function Submitted(actions: seq<Action>, x: Role): (r: seq<FmtpMessage>) {
    if actions == [] then []
    else
      (match actions[0]
       case Submission(y, text) => if y == x then [FmtpMessage(OPERATIONAL, text)] else []
       case _ => [])
      + Submitted(actions[1..], x)
  }

  function QueuedBy(s: Sys, x: Role): (r: seq<FmtpMessage>) {
    UserMessages(SingleController.Messages(s.Of(x).peer.outq))
  }

  /** What the user of side x was handed: his share of the messages received. */
  function HandedTo(s: Sys, x: Role): (r: seq<FmtpMessage>)
    requires s.In(x).taken <= |s.In(x).log|
  {
    UserMessages(Wire.Messages(s.In(x).log[..s.In(x).taken]))
  }

  function InFlightTo(s: Sys, x: Role): (r: seq<FmtpMessage>)
    requires s.In(x).taken <= |s.In(x).log|
  {
    UserMessages(Wire.Messages(s.In(x).log[s.In(x).taken..]))
  }

  /** Written or queued by a side. */
  function SentBy(s: Sys, x: Role): (r: seq<FmtpMessage>) {
    UserMessages(Wire.Messages(s.Out(x).log)) + QueuedBy(s, x)
  }

  lemma MessagesConcat(a: seq<Outgoing>, b: seq<Outgoing>)
    ensures SingleController.Messages(a + b) == SingleController.Messages(a) + SingleController.Messages(b)
  {
  }

  lemma QueueGrows(a: seq<Outgoing>, b: seq<Outgoing>)
    ensures UserMessages(SingleController.Messages(a + b))
         == UserMessages(SingleController.Messages(a)) + UserMessages(SingleController.Messages(b))
  {
    MessagesConcat(a, b);
    UserGetsParts(SingleController.Messages(a), SingleController.Messages(b));
  }

  /** No event queues user data. */
  lemma EventsQueueNoData(sites: Sites, x: Role, now: int, p: Peer, e: Event)
    ensures UserMessages(SingleController.Messages(React(sites.Cfg(x), now, p, e).outq))
         == UserMessages(SingleController.Messages(p.outq))
  {
    var sends := Sends(sites.Cfg(x), p.state, e);
    SendsAreOwn(sites, x, p.state, e);
    UserGetsNone(SingleController.Messages(sends));
    QueueGrows(p.outq, sends);
    hide NextState, Sends, UserMessages, SingleController.Messages, CreateIdentificationMessage;
  }

  lemma SendsAreOwn(sites: Sites, x: Role, s: State, e: Event)
    ensures OfOwnTypes(SingleController.Messages(Sends(sites.Cfg(x), s, e)))
  {
  }

  /** A written packet goes from the queue to the link. */
  lemma WriteMoves(log: seq<Frame>, q: seq<Outgoing>, at: int)
    requires q != []
    ensures UserMessages(Wire.Messages(log + [Frame(q[0].msg, at)])) + UserMessages(SingleController.Messages(q[1..]))
         == UserMessages(Wire.Messages(log)) + UserMessages(SingleController.Messages(q))
  {
    var m := q[0].msg;
    assert Wire.Messages(log + [Frame(m, at)]) == Wire.Messages(log) + [m];
    assert SingleController.Messages(q) == [m] + SingleController.Messages(q[1..]);
    UserGetsParts(Wire.Messages(log), [m]);
    UserGetsParts([m], SingleController.Messages(q[1..]));
    hide UserMessages;
  }

  /** Every step sends on what was submitted, and adds what it submits. */
  lemma StepSends(sites: Sites, s: Sys, a: Action, x: Role)
    requires Enabled(s, a)
    ensures SentBy(Do(sites, s, a), x) == SentBy(s, x) + Submitted([a], x)
  {
    hide React, Classify, CreateIdentificationMessage, UserMessages, SingleController.Messages, Wire.Messages;
    assert [a][1..] == [] && Submitted([], x) == [];
    match a {
      case Setup(y) => EventsQueueNoData(sites, y, s.now, s.Of(y).peer, s.Of(y).setup[0]);
      case Take(y) => EventsQueueNoData(sites, y, s.now, s.Of(y).peer, s.Of(y).pending.value);
      case Receive(y) =>
        var e := Classify(sites.Cfg(y), s.In(y).log[s.In(y).taken].msg);
        if e.Some? {
          EventsQueueNoData(sites, y, s.now, s.Of(y).peer, e.value);
        }
      case Expiry(y, t) => EventsQueueNoData(sites, y, s.now, SwitchOff(s.Of(y).peer, t), TimeoutEvent(t));
      case Stale(y, t) => EventsQueueNoData(sites, y, s.now, s.Of(y).peer, TimeoutEvent(t));
      case Disconnect(y) => EventsQueueNoData(sites, y, s.now, s.Of(y).peer, RDisconnect);
      case Command(y, e) => EventsQueueNoData(sites, y, s.now, s.Of(y).peer, e);
      case Write(y) => WriteSends(sites, s, y, x);
      case Submission(y, text) => SubmissionQueues(s.Of(y).peer, text);
      case Tick(_) =>
    }
  }

  lemma WriteSends(sites: Sites, s: Sys, y: Role, x: Role)
    requires Enabled(s, Write(y))
    ensures SentBy(Do(sites, s, Write(y)), x) == SentBy(s, x)
  {
    WriteMoves(s.Out(y).log, s.Of(y).peer.outq, s.now);
    hide UserMessages, SingleController.Messages, Wire.Messages;
  }

  lemma SubmissionQueues(p: Peer, text: Text)
    ensures var m := FmtpMessage(OPERATIONAL, text);
            UserMessages(SingleController.Messages(Submit(p, m).outq))
            == UserMessages(SingleController.Messages(p.outq)) + [m]
  {
    var m := FmtpMessage(OPERATIONAL, text);
    var one := [Outgoing(m, Some(LData))];
    QueueGrows(p.outq, one);
    assert SingleController.Messages(one) == [m];
    UserGetsAll([m]);
    hide UserMessages, SingleController.Messages;
  }

  lemma {:induction false} RunSends(sites: Sites, s: Sys, actions: seq<Action>, x: Role)
    requires IsRun(sites, Anything(), s, actions) && s.In(x).taken <= |s.In(x).log|
    ensures SentBy(After(sites, s, actions), x) == SentBy(s, x) + Submitted(actions, x)
    ensures After(sites, s, actions).In(x).taken <= |After(sites, s, actions).In(x).log|
    decreases |actions|
  {
    hide SentBy, Do;
    if actions != [] {
      StepSends(sites, s, actions[0], x);
      assert Do(sites, s, actions[0]).In(x).taken <= |Do(sites, s, actions[0]).In(x).log| by {
        StepReceivesWritten(sites, s, actions[0], x);
      }
      RunSends(sites, Do(sites, s, actions[0]), actions[1..], x);
      assert [actions[0]][1..] == [] && Submitted([], x) == [];
      assert Submitted(actions, x) == Submitted([actions[0]], x) + Submitted(actions[1..], x);
    }
  }

  lemma StepReceivesWritten(sites: Sites, s: Sys, a: Action, x: Role)
    requires Enabled(s, a) && s.In(x).taken <= |s.In(x).log|
    ensures Do(sites, s, a).In(x).taken <= |Do(sites, s, a).In(x).log|
  {
    hide Feed, FeedMessage, Expire, CreateIdentificationMessage;
  }

  /**
   * User data is conserved. In every run, what a user has submitted is what the other user was handed, what is in
   * flight and what is queued, in this order; the states of the two controllers do not matter.
   */
  lemma DataIsConserved(sites: Sites, actions: seq<Action>, x: Role)
    requires IsRun(sites, Anything(), CONNECTED, actions)
    ensures var s := After(sites, CONNECTED, actions);
            && s.In(x).taken <= |s.In(x).log|
            && HandedTo(s, x) + InFlightTo(s, x) + QueuedBy(s, Other(x)) == Submitted(actions, Other(x))
  {
    RunSends(sites, CONNECTED, actions, Other(x));
    RunSends(sites, CONNECTED, actions, x);
    assert SentBy(CONNECTED, Other(x)) == [];
    hide IsRun, After, UserMessages, Wire.Messages, Submitted, QueuedBy;
    var s := After(sites, CONNECTED, actions);
    assert s.In(x) == s.Out(Other(x));
    LogSplits(s.In(x).log, s.In(x).taken);
  }

  lemma LogSplits(log: seq<Frame>, n: nat)
    requires n <= |log|
    ensures UserMessages(Wire.Messages(log))
         == UserMessages(Wire.Messages(log[..n])) + UserMessages(Wire.Messages(log[n..]))
  {
    assert Wire.Messages(log) == Wire.Messages(log[..n]) + Wire.Messages(log[n..]);
    UserGetsParts(Wire.Messages(log[..n]), Wire.Messages(log[n..]));
  }

  /**
   * So the bytes received, read in any chunks that end at frame boundaries, give the user the first of the texts that
   * the other submitted, in the order of submission, and no other.
   */
  lemma UserGetsWhatWasSubmitted(sites: Sites, actions: seq<Action>, x: Role, chunks: seq<seq<byte>>,
                                 groups: seq<seq<FmtpMessage>>)
    requires NamesFit(sites) && IsRun(sites, Anything(), CONNECTED, actions) && CutAtFrames(chunks, groups)
    requires var l := After(sites, CONNECTED, actions).In(x);
             l.taken <= |l.log| && Concat(groups) == Wire.Messages(l.log[..l.taken])
    ensures UserMessages(DrainChunks(chunks)) <= Submitted(actions, Other(x))
    ensures forall i :: 0 <= i < |UserMessages(DrainChunks(chunks))| ==>
                          UserMessages(DrainChunks(chunks))[i].msgType == 1
  {
    Wire.RunsKeepInv(sites, CONNECTED, actions);
    DataIsConserved(sites, actions, x);
    SubmissionsAreOperational(actions, Other(x));
    hide After, IsRun, NamesFit;
    assert AllSendable(Concat(groups));
    forall i | 0 <= i < |groups| ensures AllSendable(groups[i]) {
      GroupsAreSendable(groups, i);
    }
    FramingTheorem(chunks, groups);
  }

  lemma {:induction false} SubmissionsAreOperational(actions: seq<Action>, x: Role)
    ensures forall m :: m in Submitted(actions, x) ==> m.msgType == 1
  {
    if actions != [] {
      SubmissionsAreOperational(actions[1..], x);
    }
  }
}
