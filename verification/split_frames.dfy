/**
 * Frames cut by the transport. The receive loop does not put the parts of a frame together again; this module
 * says exactly when a frame that is read in several parts, and nothing else with it, arrives all the same. What
 * is left of a stream behind a cut never gives all of its messages.
 */
module SplitFrames {
  import opened Wrappers
  import opened FmtpMessages
  import opened FmtpPackage
  import opened ReceiveLoop

  ghost predicate AllZero(bytes: seq<byte>) {
    forall i :: 0 <= i < |bytes| ==> bytes[i] == 0
  }

  /** The packet is read in chunks, the first of which holds something but not all of it. */
  ghost predicate Splits(packet: seq<byte>, chunks: seq<seq<byte>>) {
    chunks != [] && Concat(chunks) == packet && 0 < |chunks[0]| < |packet|
  }

  /** What the first part of a packet gives: nothing without a byte of the body, else the message zero-filled. */
  lemma FirstPartIsZeroFilled(msg: FmtpMessage, k: nat)
    requires Sendable(msg) && k < |MakeFmtpPacket(msg)|
    ensures Drain(MakeFmtpPacket(msg)[..k])
         == if k <= HEADER_LEN then []
            else [FmtpMessage(msg.msgType, msg.text[..k - HEADER_LEN] + Zeros(|msg.text| + HEADER_LEN - k))]
  {
    var packet := MakeFmtpPacket(msg);
    var part := packet[..k];
    HeaderCodec(msg);
    assert Drain([]) == [];
    if k < HEADER_LEN {
      FragmentAddsNothing(part);
    } else {
      assert part[..HEADER_LEN] == packet[..HEADER_LEN];
      assert part[HEADER_LEN..] == msg.text[..k - HEADER_LEN];
    }
  }

  lemma {:induction false} ZerosGiveNothing(buffer: seq<byte>)
    requires AllZero(buffer)
    ensures Drain(buffer) == []
    decreases |buffer|
  {
    if buffer != [] {
      assert Fill(buffer, HEADER_LEN)[4] == 0;
      ZerosGiveNothing(Rest(buffer, HEADER_LEN));
    }
  }

  /** A text that equals its own rest, shifted to the front and zero-filled, is zero. */
  lemma {:induction false} ShiftedIsZero(text: seq<byte>, shift: nat, length: nat, from: nat)
    requires 0 < shift && shift + length <= |text| && from <= |text|
    requires forall i :: 0 <= i < |text| ==> text[i] == if i < length then text[shift + i] else 0
    ensures forall i :: from <= i < |text| ==> text[i] == 0
    decreases |text| - from
  {
    if from < |text| {
      ShiftedIsZero(text, shift, length, from + 1);
      assert text[from] == if from < length then text[shift + from] else 0;
    }
  }

  lemma BodyIsBehindHeader(msg: FmtpMessage)
    ensures |MakeFmtpPacket(msg)| == HEADER_LEN + |msg.text|
    ensures forall i :: HEADER_LEN <= i < |MakeFmtpPacket(msg)| ==> MakeFmtpPacket(msg)[i] == msg.text[i - HEADER_LEN]
  {
  }

  lemma ZeroTypeIsInvalid(header: seq<byte>)
    requires |header| == HEADER_LEN && header[4] == 0
    ensures !ParseHeader(header).isValid
  {
  }

  /** A text that reads back from a later place of its own packet is zero. */
  lemma ShiftedText(msg: FmtpMessage, from: nat, to: nat)
    requires HEADER_LEN < from <= to <= |MakeFmtpPacket(msg)|
    requires msg.text == Fill(MakeFmtpPacket(msg)[from..to], |msg.text|)
    ensures AllZero(msg.text)
  {
    hide MakeFmtpPacket;
    BodyIsBehindHeader(msg);
    ShiftedIsZero(msg.text, from - HEADER_LEN, to - from, 0);
  }

  // What is left of a stream after a cut inside its first packet

  /**
   * Where the first message of the chunks comes from: behind `header` bytes that end with its own header stand
   * `size` bytes of its body, all of it or as much as its chunk holds; `later` is what is read after them.
   */
  ghost predicate ComesFrom(stream: seq<byte>, m: FmtpMessage, at: nat, size: nat, later: seq<seq<byte>>) {
    && HEADER_LEN <= at && 0 < size <= |m.text| && at + size <= |stream|
    && ParseHeader(stream[at - HEADER_LEN..at]).isValid
    && m.text == Fill(stream[at..at + size], |m.text|)
    && Concat(later) == stream[at + size..]
  }

  lemma {:induction false} FirstComesFrom(chunks: seq<seq<byte>>, m: FmtpMessage, more: seq<FmtpMessage>)
      returns (at: nat, size: nat, later: seq<seq<byte>>)
    requires DrainChunks(chunks) == [m] + more
    ensures ComesFrom(Concat(chunks), m, at, size, later) && DrainChunks(later) == more
    decreases |chunks|, if chunks == [] then 0 else |chunks[0]|
  {
    hide Drain, ParseHeader, ComesFrom, Concat, Fill;
    var chunk, rest := chunks[0], chunks[1..];
    if |chunk| <= HEADER_LEN {
      ShortChunkIsSkipped(chunks);
      at, size, later := FirstComesFrom(rest, m, more);
      Shifted(Concat(chunks), |chunk|, m, at, size, later);
      at := |chunk| + at;
    } else if !ParseHeader(chunk[..HEADER_LEN]).isValid {
      HeaderIsSkipped(chunks);
      at, size, later := FirstComesFrom([chunk[HEADER_LEN..]] + rest, m, more);
      Shifted(Concat(chunks), HEADER_LEN, m, at, size, later);
      at := HEADER_LEN + at;
    } else {
      assert chunks == [chunk] + rest;
      at := HEADER_LEN;
      size, later := FirstIsHere(chunk, rest, m, more);
    }
  }

  lemma ShortChunkIsSkipped(chunks: seq<seq<byte>>)
    requires chunks != [] && |chunks[0]| <= HEADER_LEN
    ensures DrainChunks(chunks) == DrainChunks(chunks[1..])
    ensures |chunks[0]| <= |Concat(chunks)| && Concat(chunks)[|chunks[0]|..] == Concat(chunks[1..])
  {
    assert chunks[0][0..] == chunks[0];
    DrainLeftover(chunks[0], 0);
    hide Drain;
  }

  lemma HeaderIsSkipped(chunks: seq<seq<byte>>)
    requires chunks != [] && |chunks[0]| > HEADER_LEN && !ParseHeader(chunks[0][..HEADER_LEN]).isValid
    ensures var later := [chunks[0][HEADER_LEN..]] + chunks[1..];
            && DrainChunks(chunks) == DrainChunks(later)
            && HEADER_LEN <= |Concat(chunks)| && Concat(chunks)[HEADER_LEN..] == Concat(later)
  {
    var later := [chunks[0][HEADER_LEN..]] + chunks[1..];
    assert later[1..] == chunks[1..];
    assert chunks[0][0..] == chunks[0];
    DrainInvalid(chunks[0], 0);
    hide Drain, ParseHeader;
  }

  lemma FirstIsHere(chunk: seq<byte>, rest: seq<seq<byte>>, m: FmtpMessage, more: seq<FmtpMessage>)
      returns (size: nat, later: seq<seq<byte>>)
    requires |chunk| > HEADER_LEN && ParseHeader(chunk[..HEADER_LEN]).isValid
    requires DrainChunks([chunk] + rest) == [m] + more
    ensures ComesFrom(Concat([chunk] + rest), m, HEADER_LEN, size, later) && DrainChunks(later) == more
  {
    hide Drain, ParseHeader, Fill, DrainChunks;
    var first := MessageAfterHeader(chunk, 0);
    size := if HEADER_LEN + |first.text| <= |chunk| then |first.text| else |chunk| - HEADER_LEN;
    later := [chunk[HEADER_LEN + size..]] + rest;
    DrainRest(chunk, rest, first, size);
    assert ([m] + more)[0] == m && ([m] + more)[1..] == more;
    assert ([first] + DrainChunks(later))[0] == first && ([first] + DrainChunks(later))[1..] == DrainChunks(later);
    FilledFromStream(chunk, Concat(rest), m, size);
    assert ([chunk] + rest)[1..] == rest && later[1..] == rest;
  }

  lemma DrainRest(chunk: seq<byte>, rest: seq<seq<byte>>, m: FmtpMessage, size: nat)
    requires SitsAt(chunk, HEADER_LEN, m)
    requires size == if HEADER_LEN + |m.text| <= |chunk| then |m.text| else |chunk| - HEADER_LEN
    ensures DrainChunks([chunk] + rest) == [m] + DrainChunks([chunk[HEADER_LEN + size..]] + rest)
  {
    var left := chunk[HEADER_LEN + size..];
    assert chunk[0..] == chunk;
    DrainAt(chunk, HEADER_LEN, m);
    FragmentAddsNothing([]);
    hide Drain, SitsAt, DrainChunks;
    DrainChunkFirst(chunk, rest);
    DrainChunkFirst(left, rest);
    assert Drain(chunk) == [m] + Drain(left);
  }

  lemma FilledFromStream(chunk: seq<byte>, behind: seq<byte>, m: FmtpMessage, size: nat)
    requires SitsAt(chunk, HEADER_LEN, m)
    requires size == if HEADER_LEN + |m.text| <= |chunk| then |m.text| else |chunk| - HEADER_LEN
    ensures var stream := chunk + behind;
            && ParseHeader(stream[..HEADER_LEN]).isValid
            && m.text == Fill(stream[HEADER_LEN..HEADER_LEN + size], |m.text|)
            && chunk[HEADER_LEN + size..] + behind == stream[HEADER_LEN + size..]
  {
    hide ParseHeader;
    var stream := chunk + behind;
    assert stream[..HEADER_LEN] == chunk[0..HEADER_LEN];
    assert stream[HEADER_LEN..HEADER_LEN + size] == chunk[HEADER_LEN..][..size];
  }

  lemma Shifted(stream: seq<byte>, gone: nat, m: FmtpMessage, at: nat, size: nat, later: seq<seq<byte>>)
    requires gone <= |stream| && ComesFrom(stream[gone..], m, at, size, later)
    ensures ComesFrom(stream, m, gone + at, size, later)
  {
    var behind := stream[gone..];
    assert behind[at - HEADER_LEN..at] == stream[gone + at - HEADER_LEN..gone + at];
    assert behind[at..at + size] == stream[gone + at..gone + at + size];
    assert behind[at + size..] == stream[gone + at + size..];
  }

  /** No message stands inside its own packet but at its own place. */
  lemma NotInItself(msg: FmtpMessage, at: nat, to: nat)
    requires HEADER_LEN < at <= to <= |MakeFmtpPacket(msg)|
    requires ParseHeader(MakeFmtpPacket(msg)[at - HEADER_LEN..at]).isValid
    ensures msg.text != Fill(MakeFmtpPacket(msg)[at..to], |msg.text|)
  {
    hide ParseHeader, MakeFmtpPacket, Fill;
    var packet := MakeFmtpPacket(msg);
    if msg.text == Fill(packet[at..to], |msg.text|) {
      BodyIsBehindHeader(msg);
      ShiftedText(msg, at, to);
      assert packet[at - HEADER_LEN..at][4] == packet[at - 1] == msg.text[at - 1 - HEADER_LEN];
      ZeroTypeIsInvalid(packet[at - HEADER_LEN..at]);
    }
  }

  /** Without its first bytes a stream of packets, however it is read, does not give all its messages. */
  lemma {:induction false} CutStreamLoses(msgs: seq<FmtpMessage>, cut: nat, chunks: seq<seq<byte>>)
    requires msgs != [] && AllSendable(msgs) && 0 < cut <= |Packets(msgs)| && Concat(chunks) == Packets(msgs)[cut..]
    ensures DrainChunks(chunks) != msgs
    decreases |msgs|
  {
    hide Drain, ParseHeader, MakeFmtpPacket, Fill, Sendable;
    if DrainChunks(chunks) == msgs {
      var packet, rest := MakeFmtpPacket(msgs[0]), Packets(msgs[1..]);
      var at, size, later := FirstComesFrom(chunks, msgs[0], msgs[1..]);
      var stream := Packets(msgs);
      assert stream == packet + rest && stream[cut..] == Concat(chunks);
      Shifted(stream, cut, msgs[0], at, size, later);
      var end := cut + at + size;
      BodyIsBehindHeader(msgs[0]);
      if end <= |packet| {
        assert stream[cut + at - HEADER_LEN..cut + at] == packet[cut + at - HEADER_LEN..cut + at];
        assert stream[cut + at..end] == packet[cut + at..end];
        NotInItself(msgs[0], cut + at, end);
      } else {
        assert Concat(later) == rest[end - |packet|..];
        assert msgs[1..] != [];
        CutStreamLoses(msgs[1..], end - |packet|, later);
      }
    }
  }

  lemma {:induction false} ZeroChunksGiveNothing(chunks: seq<seq<byte>>)
    requires AllZero(Concat(chunks))
    ensures DrainChunks(chunks) == []
  {
    if chunks != [] {
      forall i | 0 <= i < |chunks[0]| ensures chunks[0][i] == 0 {
        assert chunks[0][i] == Concat(chunks)[i];
      }
      forall i | 0 <= i < |Concat(chunks[1..])| ensures Concat(chunks[1..])[i] == 0 {
        assert Concat(chunks[1..])[i] == Concat(chunks)[|chunks[0]| + i];
      }
      ZerosGiveNothing(chunks[0]);
      ZeroChunksGiveNothing(chunks[1..]);
    }
  }

  /**
   * When a split frame arrives: for every cut, the message is handed over, and nothing else, exactly if the first
   * part reaches into the body and all bytes of the body behind it are zero.
   */
  lemma SplitFrameArrivesIff(msg: FmtpMessage, chunks: seq<seq<byte>>)
    requires Sendable(msg) && Splits(MakeFmtpPacket(msg), chunks)
    ensures DrainChunks(chunks) == [msg]
       <==> |chunks[0]| > HEADER_LEN && AllZero(msg.text[|chunks[0]| - HEADER_LEN..])
  {
    hide Drain;
    var packet, k, rest := MakeFmtpPacket(msg), |chunks[0]|, chunks[1..];
    assert chunks[0] == packet[..k] && Concat(rest) == packet[k..];
    FirstPartIsZeroFilled(msg, k);
    if k <= HEADER_LEN {
      assert Packets([msg]) == packet by { assert [msg][1..] == []; }
      CutStreamLoses([msg], k, rest);
      assert DrainChunks(chunks) == DrainChunks(rest);
    } else {
      var front, tail := msg.text[..k - HEADER_LEN], msg.text[k - HEADER_LEN..];
      assert packet[k..] == tail && msg.text == front + tail;
      var first := FmtpMessage(msg.msgType, front + Zeros(|tail|));
      assert DrainChunks(chunks) == [first] + DrainChunks(rest);
      FilledIsWhole(front, tail);
      if AllZero(tail) {
        ZeroChunksGiveNothing(rest);
      } else {
        assert ([first] + DrainChunks(rest))[0] == first != msg;
      }
    }
  }

  lemma FilledIsWhole(front: seq<byte>, tail: seq<byte>)
    ensures front + Zeros(|tail|) == front + tail <==> AllZero(tail)
  {
    forall i | 0 <= i < |tail|
      ensures (front + tail)[|front| + i] == tail[i] && (front + Zeros(|tail|))[|front| + i] == 0
    {
    }
    if front + Zeros(|tail|) == front + tail {
      forall i | 0 <= i < |tail| ensures tail[i] == 0 {
        assert (front + tail)[|front| + i] == 0;
      }
    }
  }
}
