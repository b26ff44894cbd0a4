/**
 * What the receive loop of the state controller makes of one chunk of bytes. The loop itself is the
 * method StateController.ReceiveBytes; this module says which messages it hands over and why they are right.
 */
module ReceiveLoop {
  import opened Wrappers
  import opened FmtpMessages
  import opened FmtpPackage

  function Zeros(n: nat): (r: seq<byte>) {
    seq(n, _ => 0)
  }

  /** bytes.Buffer.Read into n zeroed bytes: a short read leaves the tail zero and reports no error. */
  function Fill(buffer: seq<byte>, n: nat): (r: seq<byte>)
    ensures |r| == n
  {
    if n <= |buffer| then buffer[..n] else buffer + Zeros(n - |buffer|)
  }

  function Rest(buffer: seq<byte>, n: nat): (r: seq<byte>) {
    if n <= |buffer| then buffer[n..] else []
  }

  /** The messages handed over while the buffer is read to its end. */
  function Drain(buffer: seq<byte>): (r: seq<FmtpMessage>)
    decreases |buffer|
  {
    if buffer == [] then []
    else
      var header := ParseHeader(Fill(buffer, HEADER_LEN));
      var body := Rest(buffer, HEADER_LEN);
      if !header.isValid then Drain(body)
      else if body == [] then []
      else
        ValidHeaderBounds(Fill(buffer, HEADER_LEN));
        [FmtpMessage(header.pkgType, Fill(body, header.BodyLen()))] + Drain(Rest(body, header.BodyLen()))
  }

  function Packets(msgs: seq<FmtpMessage>): (r: seq<byte>) {
    if msgs == [] then [] else MakeFmtpPacket(msgs[0]) + Packets(msgs[1..])
  }

  ghost predicate AllSendable(msgs: seq<FmtpMessage>) {
    forall i :: 0 <= i < |msgs| ==> Sendable(msgs[i])
  }

  /** Fewer than five bytes can not make a valid header: the zero-filled type byte names no type. */
  lemma FragmentAddsNothing(fragment: seq<byte>)
    requires |fragment| < HEADER_LEN
    ensures Drain(fragment) == []
  {
    if fragment != [] {
      assert Fill(fragment, HEADER_LEN)[4] == 0;
      assert Drain([]) == [];
    }
  }

  lemma DrainOnePacket(msg: FmtpMessage, tail: seq<byte>)
    requires Sendable(msg)
    ensures Drain(MakeFmtpPacket(msg) + tail) == [msg] + Drain(tail)
  {
    var packet := MakeFmtpPacket(msg);
    var buffer := packet + tail;
    HeaderCodec(msg);
    assert buffer[..HEADER_LEN] == packet[..HEADER_LEN];
    assert buffer[HEADER_LEN..] == msg.text + tail;
    assert (msg.text + tail)[..|msg.text|] == msg.text;
    assert (msg.text + tail)[|msg.text|..] == tail;
  }

  lemma {:induction false} PacketsConcat(a: seq<FmtpMessage>, b: seq<FmtpMessage>)
    ensures Packets(a + b) == Packets(a) + Packets(b)
  {
    if a == [] {
      assert a + b == b;
    } else {
      PacketsConcat(a[1..], b);
      assert (a + b)[1..] == a[1..] + b;
      assert Packets(a + b) == MakeFmtpPacket(a[0]) + Packets(a[1..] + b);
    }
  }

  lemma {:induction false} DrainPacketsFirst(msgs: seq<FmtpMessage>, tail: seq<byte>)
    requires AllSendable(msgs)
    ensures Drain(Packets(msgs) + tail) == msgs + Drain(tail)
  {
    hide Drain, MakeFmtpPacket, Sendable;
    if msgs == [] {
      assert Packets(msgs) + tail == tail;
    } else {
      DrainPacketsFirst(msgs[1..], tail);
      DrainOnePacket(msgs[0], Packets(msgs[1..]) + tail);
      assert Packets(msgs) + tail == MakeFmtpPacket(msgs[0]) + (Packets(msgs[1..]) + tail);
    }
  }

  /** One frame-aligned chunk, with or without a trailing fragment of fewer than five bytes. */
  lemma DrainPackets(msgs: seq<FmtpMessage>, fragment: seq<byte>)
    requires AllSendable(msgs) && |fragment| < HEADER_LEN
    ensures Drain(Packets(msgs) + fragment) == msgs
  {
    DrainPacketsFirst(msgs, fragment);
    FragmentAddsNothing(fragment);
    hide Drain;
  }

  // The buffer is empty after every chunk, so chunks are drained one by one.
  function DrainChunks(chunks: seq<seq<byte>>): (r: seq<FmtpMessage>) {
    if chunks == [] then [] else Drain(chunks[0]) + DrainChunks(chunks[1..])
  }

  lemma DrainChunkFirst(chunk: seq<byte>, later: seq<seq<byte>>)
    ensures DrainChunks([chunk] + later) == Drain(chunk) + DrainChunks(later)
  {
    hide Drain;
    assert ([chunk] + later)[1..] == later;
  }

  /** Chunk i holds whole packets of group i; at most a fragment of a header follows them. */
  ghost predicate FrameAligned(chunks: seq<seq<byte>>, groups: seq<seq<FmtpMessage>>) {
    |chunks| == |groups|
    && forall i :: 0 <= i < |chunks| ==>
                     AllSendable(groups[i])
                     && Packets(groups[i]) <= chunks[i]
                     && |chunks[i]| < |Packets(groups[i])| + HEADER_LEN
  }

  /** Framing theorem: any frame-aligned cut of a message list is handed over as exactly that list. */
  lemma {:induction false} FramingTheorem(chunks: seq<seq<byte>>, groups: seq<seq<FmtpMessage>>)
    requires FrameAligned(chunks, groups)
    ensures DrainChunks(chunks) == Concat(groups)
  {
    if chunks != [] {
      var fragment := chunks[0][|Packets(groups[0])|..];
      assert chunks[0] == Packets(groups[0]) + fragment;
      DrainPackets(groups[0], fragment);
      FramingTheorem(chunks[1..], groups[1..]);
    }
  }

  /** A frame cut inside its body is not put together again: the first part is handed over zero-filled. */
  lemma SplitFrameIsNotRepaired()
    ensures var msg := FmtpMessage(OPERATIONAL, [7, 7]);
            var packet := MakeFmtpPacket(msg);
            DrainChunks([packet[..6], packet[6..]]) == [FmtpMessage(OPERATIONAL, [7, 0])] != [msg]
  {
    var msg := FmtpMessage(OPERATIONAL, [7, 7]);
    var packet := MakeFmtpPacket(msg);
    HeaderCodec(msg);
    assert Fill(packet[..6], HEADER_LEN) == packet[..HEADER_LEN];
    assert Rest(packet[..6], HEADER_LEN) == [7];
    assert Fill([7], 2) == [7, 0];
    assert Drain([]) == [];
    FragmentAddsNothing(packet[6..]);
    assert DrainChunks([packet[6..]]) == [] by {
      assert [packet[6..]][1..] == [];
    }
    assert [packet[..6], packet[6..]][1..] == [packet[6..]];
  }

  // Arbitrary bytes

  /** Message m sits at `at`: behind its own valid header, and equal to the chunk's bytes as far as they go. */
  ghost predicate SitsAt(chunk: seq<byte>, at: nat, m: FmtpMessage) {
    && Sendable(m)
    && HEADER_LEN <= at < |chunk|
    && (var h := ParseHeader(chunk[at - HEADER_LEN..at]);
        h.isValid && h.pkgType == m.msgType && h.BodyLen() == |m.text|)
    && m.text == Fill(chunk[at..], |m.text|)
  }

  /** The reader skips from `from` to `to` in whole header-sized steps, none of them a valid header. */
  ghost predicate Skipped(chunk: seq<byte>, from: nat, to: nat)
    decreases to - from
  {
    if from >= to then from == to <= |chunk|
    else
      && from + HEADER_LEN <= |chunk|
      && !ParseHeader(chunk[from..from + HEADER_LEN]).isValid
      && Skipped(chunk, from + HEADER_LEN, to)
  }

  /** What may be left at the end without a message: a fragment of a header, or one header with no body byte. */
  ghost predicate Leftover(chunk: seq<byte>, from: nat) {
    from <= |chunk| <= from + HEADER_LEN
  }

  ghost predicate Exhausted(chunk: seq<byte>, pos: nat) {
    exists to: nat :: Skipped(chunk, pos, to) && Leftover(chunk, to)
  }

  /**
   * The messages are what stands in the chunk at and after `pos`: their bodies begin at `starts`, the bytes
   * between one message and the next header are skipped groups, and all bodies but the last end inside the chunk.
   */
  ghost predicate Extracted(chunk: seq<byte>, pos: nat, starts: seq<nat>, msgs: seq<FmtpMessage>)
    decreases |msgs|
  {
    if msgs == [] then starts == [] && Exhausted(chunk, pos)
    else
      && |starts| > 0 && SitsAt(chunk, starts[0], msgs[0])
      && Skipped(chunk, pos, starts[0] - HEADER_LEN)
      && var next := starts[0] + |msgs[0].text|;
      if next <= |chunk| then Extracted(chunk, next, starts[1..], msgs[1..])
      else |starts| == |msgs| == 1
  }

  lemma SkipOneMore(chunk: seq<byte>, pos: nat, starts: seq<nat>, msgs: seq<FmtpMessage>)
    requires pos + HEADER_LEN <= |chunk| && !ParseHeader(chunk[pos..pos + HEADER_LEN]).isValid
    requires Extracted(chunk, pos + HEADER_LEN, starts, msgs)
    ensures Extracted(chunk, pos, starts, msgs)
  {
    if msgs == [] {
      var to: nat :| Skipped(chunk, pos + HEADER_LEN, to) && Leftover(chunk, to);
      assert Skipped(chunk, pos, to);
    }
  }

  lemma ExtractHere(chunk: seq<byte>, pos: nat, at: nat, m: FmtpMessage, starts: seq<nat>, msgs: seq<FmtpMessage>)
    requires SitsAt(chunk, at, m) && Skipped(chunk, pos, at - HEADER_LEN)
    requires var next := at + |m.text|;
             if next <= |chunk| then Extracted(chunk, next, starts, msgs) else starts == [] && msgs == []
    ensures Extracted(chunk, pos, [at] + starts, [m] + msgs)
  {
    hide ParseHeader, Fill, Sendable, Skipped;
    var allStarts, allMsgs := [at] + starts, [m] + msgs;
    assert allStarts[0] == at && allStarts[1..] == starts;
    assert allMsgs != [] && allMsgs[0] == m && allMsgs[1..] == msgs;
  }

  lemma DrainAt(chunk: seq<byte>, at: nat, m: FmtpMessage)
    requires SitsAt(chunk, at, m)
    ensures var next := at + |m.text|;
            Drain(chunk[at - HEADER_LEN..]) == [m] + if next <= |chunk| then Drain(chunk[next..]) else []
  {
    var buffer := chunk[at - HEADER_LEN..];
    assert Fill(buffer, HEADER_LEN) == chunk[at - HEADER_LEN..at] && Rest(buffer, HEADER_LEN) == chunk[at..];
    assert at + |m.text| <= |chunk| ==> Rest(chunk[at..], |m.text|) == chunk[at + |m.text|..];
    assert Drain([]) == [];
  }

  lemma DrainInvalid(chunk: seq<byte>, pos: nat)
    requires pos + HEADER_LEN <= |chunk| && !ParseHeader(chunk[pos..pos + HEADER_LEN]).isValid
    ensures Drain(chunk[pos..]) == Drain(chunk[pos + HEADER_LEN..])
  {
    assert Fill(chunk[pos..], HEADER_LEN) == chunk[pos..pos + HEADER_LEN];
    assert Rest(chunk[pos..], HEADER_LEN) == chunk[pos + HEADER_LEN..];
  }

  lemma MessageAfterHeader(chunk: seq<byte>, pos: nat) returns (m: FmtpMessage)
    requires pos + HEADER_LEN < |chunk| && ParseHeader(chunk[pos..pos + HEADER_LEN]).isValid
    ensures SitsAt(chunk, pos + HEADER_LEN, m)
  {
    var header := ParseHeader(chunk[pos..pos + HEADER_LEN]);
    ValidHeaderBounds(chunk[pos..pos + HEADER_LEN]);
    m := FmtpMessage(header.pkgType, Fill(chunk[pos + HEADER_LEN..], header.BodyLen()));
  }

  lemma {:induction false} DrainExtracts(chunk: seq<byte>, pos: nat) returns (starts: seq<nat>)
    requires pos <= |chunk|
    ensures Extracted(chunk, pos, starts, Drain(chunk[pos..]))
    decreases |chunk| - pos
  {
    hide ParseHeader, Fill, Rest, Drain, SitsAt;
    var at := pos + HEADER_LEN;
    starts := [];
    assert Skipped(chunk, pos, pos);
    if |chunk| <= at {
      assert Leftover(chunk, pos);
      DrainLeftover(chunk, pos);
    } else if !ParseHeader(chunk[pos..at]).isValid {
      DrainInvalid(chunk, pos);
      starts := DrainExtracts(chunk, at);
      SkipOneMore(chunk, pos, starts, Drain(chunk[at..]));
    } else {
      var m := MessageAfterHeader(chunk, pos);
      DrainAt(chunk, at, m);
      var msgs := [];
      var next := at + |m.text|;
      if next <= |chunk| {
        msgs := Drain(chunk[next..]);
        starts := DrainExtracts(chunk, next);
      }
      ExtractHere(chunk, pos, at, m, starts, msgs);
      starts := [at] + starts;
    }
  }

  lemma {:induction false} DrainSkips(chunk: seq<byte>, from: nat, to: nat)
    requires from <= |chunk| && Skipped(chunk, from, to)
    ensures from <= to <= |chunk| && Drain(chunk[from..]) == Drain(chunk[to..])
    decreases |chunk| - from
  {
    if from < to {
      DrainSkips(chunk, from + HEADER_LEN, to);
      DrainInvalid(chunk, from);
    }
  }

  lemma DrainLeftover(chunk: seq<byte>, from: nat)
    requires Leftover(chunk, from)
    ensures Drain(chunk[from..]) == []
  {
    if |chunk| - from < HEADER_LEN {
      FragmentAddsNothing(chunk[from..]);
    } else {
      assert Rest(chunk[from..], HEADER_LEN) == [] && Drain([]) == [];
    }
  }

  lemma {:induction false} ExtractedIsDrained(chunk: seq<byte>, pos: nat, starts: seq<nat>, msgs: seq<FmtpMessage>)
    requires pos <= |chunk| && Extracted(chunk, pos, starts, msgs)
    ensures msgs == Drain(chunk[pos..])
    decreases |msgs|
  {
    hide ParseHeader, Fill, Rest, Drain;
    if msgs == [] {
      var to: nat :| Skipped(chunk, pos, to) && Leftover(chunk, to);
      DrainSkips(chunk, pos, to);
      DrainLeftover(chunk, to);
    } else {
      var at, m := starts[0], msgs[0];
      var from := at - HEADER_LEN;
      DrainSkips(chunk, pos, from);
      DrainAt(chunk, at, m);
      var next := at + |m.text|;
      if next <= |chunk| {
        ExtractedIsDrained(chunk, next, starts[1..], msgs[1..]);
      }
      assert msgs == [m] + msgs[1..];
    }
  }

  /**
   * Whatever the bytes, the list handed over is the one the chunk spells out: every message is sendable and
   * sits behind its own valid header, all but the last are exact slices, and the bytes in no message are
   * invalid header groups or the tail. No other list fits the chunk.
   */
  lemma ArbitraryBytes(chunk: seq<byte>, msgs: seq<FmtpMessage>)
    ensures msgs == Drain(chunk) <==> exists starts: seq<nat> :: Extracted(chunk, 0, starts, msgs)
  {
    assert chunk[0..] == chunk;
    var found := DrainExtracts(chunk, 0);
    forall starts: seq<nat> | Extracted(chunk, 0, starts, msgs)
      ensures msgs == Drain(chunk)
    {
      ExtractedIsDrained(chunk, 0, starts, msgs);
    }
  }
}
