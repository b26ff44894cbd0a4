/**
 * The links on the wire: whatever two peers write, in any run, survives framing, so that links of messages stand
 * for the byte streams between them as long as reads end at frame boundaries.
 */
module Wire {
  import opened Wrappers
  import opened FmtpMessages
  import opened FmtpPackage
  import opened ReceiveLoop
  import opened StateMachine
  import opened Association
  import opened Peers

  /** Both identification texts fit into a frame. */
  predicate NamesFit(sites: Sites) {
    && |sites.client.localATC| + 1 + |sites.client.remoteATC| <= BODY_LIMIT
    && |sites.server.localATC| + 1 + |sites.server.remoteATC| <= BODY_LIMIT
  }

  ghost predicate QueueIsSendable(q: seq<Outgoing>) {
    forall i :: 0 <= i < |q| ==> Sendable(q[i].msg)
  }

  ghost predicate LogIsSendable(log: seq<Frame>) {
    forall i :: 0 <= i < |log| ==> Sendable(log[i].msg)
  }

  ghost predicate Inv(s: Sys) {
    && QueueIsSendable(s.client.peer.outq) && QueueIsSendable(s.server.peer.outq)
    && LogIsSendable(s.up.log) && LogIsSendable(s.down.log)
  }

  lemma SendsAreSendable(sites: Sites, side: Role, s: State, e: Event)
    requires NamesFit(sites)
    ensures QueueIsSendable(Sends(sites.Cfg(side), s, e))
  {
  }

  lemma ReactKeepsSendable(sites: Sites, side: Role, now: int, p: Peer, e: Event)
    requires NamesFit(sites) && QueueIsSendable(p.outq)
    ensures QueueIsSendable(React(sites.Cfg(side), now, p, e).outq)
  {
    SendsAreSendable(sites, side, p.state, e);
    hide NextState, Sends, TiAfter, TsAfter, TrAfter;
  }

  lemma StepKeepsInv(sites: Sites, s: Sys, a: Action)
    requires NamesFit(sites) && Inv(s) && Enabled(s, a)
    ensures Inv(Do(sites, s, a))
  {
    hide React, NamesFit, CreateIdentificationMessage, Classify;
    match a {
      case Setup(x) => ReactKeepsSendable(sites, x, s.now, s.Of(x).peer, s.Of(x).setup[0]);
      case Take(x) => ReactKeepsSendable(sites, x, s.now, s.Of(x).peer, s.Of(x).pending.value);
      case Receive(x) =>
        var e := Classify(sites.Cfg(x), s.In(x).log[s.In(x).taken].msg);
        if e.Some? {
          ReactKeepsSendable(sites, x, s.now, s.Of(x).peer, e.value);
        }
      case Expiry(x, t) => ReactKeepsSendable(sites, x, s.now, SwitchOff(s.Of(x).peer, t), TimeoutEvent(t));
      case Stale(x, t) => ReactKeepsSendable(sites, x, s.now, s.Of(x).peer, TimeoutEvent(t));
      case Disconnect(x) => ReactKeepsSendable(sites, x, s.now, s.Of(x).peer, RDisconnect);
      case Command(x, e) => ReactKeepsSendable(sites, x, s.now, s.Of(x).peer, e);
      case _ =>
    }
  }

  lemma {:induction false} RunsKeepInv(sites: Sites, s: Sys, actions: seq<Action>)
    requires NamesFit(sites) && Inv(s) && IsRun(sites, Anything(), s, actions)
    ensures Inv(After(sites, s, actions))
    decreases |actions|
  {
    if actions != [] {
      StepKeepsInv(sites, s, actions[0]);
      hide Inv, Do, Enabled;
      RunsKeepInv(sites, Do(sites, s, actions[0]), actions[1..]);
    }
  }

  function Messages(log: seq<Frame>): (r: seq<FmtpMessage>) {
    seq(|log|, i requires 0 <= i < |log| => log[i].msg)
  }

  /** The chunks are a cut of the packets at frame boundaries, each group the messages of one chunk. */
  ghost predicate CutAtFrames(chunks: seq<seq<byte>>, groups: seq<seq<FmtpMessage>>) {
    |chunks| == |groups| && forall i :: 0 <= i < |chunks| ==> chunks[i] == Packets(groups[i])
  }

  lemma {:induction false} GroupsAreSendable(groups: seq<seq<FmtpMessage>>, i: nat)
    requires i < |groups| && AllSendable(Concat(groups))
    ensures AllSendable(groups[i])
  {
    forall k | 0 <= k < |groups[0]| ensures Sendable(groups[0][k]) {
      assert groups[0][k] == Concat(groups)[k];
    }
    if i > 0 {
      forall k | 0 <= k < |Concat(groups[1..])| ensures Sendable(Concat(groups[1..])[k]) {
        assert Concat(groups[1..])[k] == Concat(groups)[|groups[0]| + k];
      }
      GroupsAreSendable(groups[1..], i - 1);
    }
  }

  /** The cut does not matter to the stream: the chunks concatenate to the packets of all messages. */
  lemma {:induction false} CutIsOfTheStream(chunks: seq<seq<byte>>, groups: seq<seq<FmtpMessage>>)
    requires CutAtFrames(chunks, groups)
    ensures Concat(chunks) == Packets(Concat(groups))
  {
    if chunks != [] {
      CutIsOfTheStream(chunks[1..], groups[1..]);
      PacketsConcat(groups[0], Concat(groups[1..]));
    }
  }

  /**
   * In any run of two peers, under any scheduling: the byte stream of a direction, read in any chunks that end at
   * frame boundaries, gives the receive loop exactly the messages written to it, in order.
   */
  lemma LinksSurviveFraming(sites: Sites, actions: seq<Action>, x: Role, chunks: seq<seq<byte>>,
                            groups: seq<seq<FmtpMessage>>)
    requires NamesFit(sites) && IsRun(sites, Anything(), CONNECTED, actions)
    requires CutAtFrames(chunks, groups) && Concat(groups) == Messages(After(sites, CONNECTED, actions).Out(x).log)
    ensures DrainChunks(chunks) == Messages(After(sites, CONNECTED, actions).Out(x).log)
    ensures Concat(chunks) == Packets(Messages(After(sites, CONNECTED, actions).Out(x).log))
  {
    RunsKeepInv(sites, CONNECTED, actions);
    hide After, IsRun, NamesFit;
    assert AllSendable(Concat(groups));
    forall i | 0 <= i < |groups| ensures AllSendable(groups[i]) {
      GroupsAreSendable(groups, i);
    }
    FramingTheorem(chunks, groups);
    CutIsOfTheStream(chunks, groups);
  }
}
