/**
 * A whole stream of packets read in any chunks. This module says exactly when all its messages arrive, and nothing
 * else: it depends on the chunks that end inside a packet, and on nothing but them.
 */
module StreamCuts {
  import opened Wrappers
  import opened FmtpMessages
  import opened FmtpPackage
  import opened ReceiveLoop
  import opened SplitFrames

  /** How many bytes stand before packet i, and how many are read in the first c chunks. */
  function StartOf(msgs: seq<FmtpMessage>, i: nat): (n: nat)
    requires i <= |msgs|
  {
    |Packets(msgs[..i])|
  }

  function ReadAfter(chunks: seq<seq<byte>>, c: nat): (n: nat)
    requires c <= |chunks|
  {
    |Concat(chunks[..c])|
  }

  /** Chunk c begins inside packet i. */
  ghost predicate CutsInto(chunks: seq<seq<byte>>, c: nat, msgs: seq<FmtpMessage>, i: nat) {
    && c < |chunks| && i < |msgs|
    && StartOf(msgs, i) < ReadAfter(chunks, c) < StartOf(msgs, i + 1)
  }

  ghost predicate ZeroFrom(text: Text, from: int) {
    forall k :: 0 <= k < |text| && from <= k ==> text[k] == 0
  }

  /**
   * What was read of the packet reaches into its body, the body behind it is zero, and the chunk holds nothing
   * behind the packet unless it holds a multiple of five bytes of it: the loop skips zeros in steps of five.
   */
  ghost predicate IsHarmless(chunks: seq<seq<byte>>, c: nat, msgs: seq<FmtpMessage>, i: nat)
    requires c < |chunks| && i < |msgs|
  {
    var read := ReadAfter(chunks, c) - StartOf(msgs, i) - HEADER_LEN;
    && read > 0 && ZeroFrom(msgs[i].text, read)
    && (ReadAfter(chunks, c + 1) <= StartOf(msgs, i + 1)
        || (StartOf(msgs, i + 1) - ReadAfter(chunks, c)) % HEADER_LEN == 0)
  }

  // Positions

  lemma Between<T>(s: seq<T>, a: nat, b: nat, middle: seq<T>)
    requires a <= |s| && b <= |s| && s[a..] == middle + s[b..]
    ensures a <= b && s[a..b] == middle
  {
    assert |s| - a == |middle| + (|s| - b);
    assert s[a..][..b - a] == middle;
  }

  lemma ChunksFrom(chunks: seq<seq<byte>>, c: nat)
    requires c <= |chunks|
    ensures ReadAfter(chunks, c) <= |Concat(chunks)|
    ensures Concat(chunks)[ReadAfter(chunks, c)..] == Concat(chunks[c..])
  {
    assert chunks == chunks[..c] + chunks[c..];
    ConcatSum(chunks[..c], chunks[c..]);
  }

  lemma ChunkAt(chunks: seq<seq<byte>>, c: nat)
    requires c < |chunks|
    ensures ReadAfter(chunks, c + 1) == ReadAfter(chunks, c) + |chunks[c]| <= |Concat(chunks)|
    ensures chunks[c] == Concat(chunks)[ReadAfter(chunks, c)..ReadAfter(chunks, c + 1)]
  {
    assert Concat(chunks[c..]) == chunks[c] + Concat(chunks[c + 1..]);
    hide ReadAfter, Concat;
    ChunksFrom(chunks, c);
    ChunksFrom(chunks, c + 1);
    Between(Concat(chunks), ReadAfter(chunks, c), ReadAfter(chunks, c + 1), chunks[c]);
  }

  lemma PacketsFrom(msgs: seq<FmtpMessage>, i: nat)
    requires i <= |msgs|
    ensures StartOf(msgs, i) <= |Packets(msgs)|
    ensures Packets(msgs)[StartOf(msgs, i)..] == Packets(msgs[i..])
  {
    assert msgs == msgs[..i] + msgs[i..];
    PacketsConcat(msgs[..i], msgs[i..]);
  }

  lemma PacketAt(msgs: seq<FmtpMessage>, i: nat)
    requires i < |msgs|
    ensures StartOf(msgs, i + 1) == StartOf(msgs, i) + HEADER_LEN + |msgs[i].text| <= |Packets(msgs)|
    ensures MakeFmtpPacket(msgs[i]) == Packets(msgs)[StartOf(msgs, i)..StartOf(msgs, i + 1)]
  {
    hide MakeFmtpPacket;
    assert Packets(msgs[i..]) == MakeFmtpPacket(msgs[i]) + Packets(msgs[i + 1..]);
    hide StartOf, Packets;
    PacketsFrom(msgs, i);
    PacketsFrom(msgs, i + 1);
    BodyIsBehindHeader(msgs[i]);
    Between(Packets(msgs), StartOf(msgs, i), StartOf(msgs, i + 1), MakeFmtpPacket(msgs[i]));
  }

  lemma {:induction false} StartsGrow(msgs: seq<FmtpMessage>, i: nat, j: nat)
    requires i < j <= |msgs|
    ensures StartOf(msgs, i) < StartOf(msgs, j)
  {
    hide StartOf;
    PacketAt(msgs, j - 1);
    if i < j - 1 {
      StartsGrow(msgs, i, j - 1);
    }
  }

  /** Packet j is the one that holds byte n, or the next one behind it. */
  lemma PacketOf(msgs: seq<FmtpMessage>, n: nat) returns (j: nat)
    requires n <= |Packets(msgs)|
    ensures j <= |msgs| && StartOf(msgs, j) <= n
    ensures if j < |msgs| then n < StartOf(msgs, j + 1) else n == StartOf(msgs, j)
  {
    j := 0;
    while j < |msgs| && StartOf(msgs, j + 1) <= n
      invariant j <= |msgs| && StartOf(msgs, j) <= n
    {
      j := j + 1;
    }
    assert msgs[..|msgs|] == msgs;
  }

  // What one chunk gives

  lemma ZeroIsNoHeader(buffer: seq<byte>)
    requires |buffer| >= HEADER_LEN && buffer[0] == 0
    ensures Drain(buffer) == Drain(buffer[HEADER_LEN..])
  {
    assert buffer[0..] == buffer && buffer[0..HEADER_LEN][0] == 0;
    DrainInvalid(buffer, 0);
  }

  lemma {:induction false} ZeroGroupsAreSkipped(zeros: seq<byte>, tail: seq<byte>)
    requires AllZero(zeros) && |zeros| % HEADER_LEN == 0
    ensures Drain(zeros + tail) == Drain(tail)
    decreases |zeros|
  {
    hide Drain;
    if zeros == [] {
      assert zeros + tail == tail;
    } else {
      ZeroIsNoHeader(zeros + tail);
      assert (zeros + tail)[HEADER_LEN..] == zeros[HEADER_LEN..] + tail;
      ZeroGroupsAreSkipped(zeros[HEADER_LEN..], tail);
    }
  }

  /** If the zeros end amid a step, what completes the step goes with them. */
  lemma BytesBehindZerosAreSkipped(zeros: seq<byte>, tail: seq<byte>) returns (more: nat)
    requires AllZero(zeros) && |zeros| % HEADER_LEN != 0 && tail != []
    ensures 0 < more <= |tail| && Drain(zeros + tail) == Drain(tail[more..])
  {
    hide Drain;
    var rest := |zeros| % HEADER_LEN;
    var front, last := zeros[..|zeros| - rest], zeros[|zeros| - rest..];
    assert zeros + tail == front + (last + tail);
    ZeroGroupsAreSkipped(front, last + tail);
    if |last + tail| < HEADER_LEN {
      more := |tail|;
      FragmentAddsNothing(last + tail);
      FragmentAddsNothing(tail[more..]);
    } else {
      more := HEADER_LEN - rest;
      assert (last + tail)[0] == zeros[|zeros| - rest] == 0;
      ZeroIsNoHeader(last + tail);
      assert (last + tail)[HEADER_LEN..] == tail[more..];
    }
  }

  /** What the first `read` bytes of a body, filled up with zeros, make of a message. */
  function Filled(m: FmtpMessage, read: nat): (r: FmtpMessage)
    requires read <= |m.text|
  {
    FmtpMessage(m.msgType, m.text[..read] + Zeros(|m.text| - read))
  }

  lemma FilledIsSame(m: FmtpMessage, read: nat)
    requires read <= |m.text|
    ensures Filled(m, read) == m <==> ZeroFrom(m.text, read)
  {
    assert m.text == m.text[..read] + m.text[read..];
    FilledIsWhole(m.text[..read], m.text[read..]);
    if AllZero(m.text[read..]) {
      forall k | read <= k < |m.text| ensures m.text[k] == 0 {
        assert m.text[read..][k - read] == 0;
      }
    }
  }

  lemma AlignedPackets(msgs: seq<FmtpMessage>, i: nat, j: nat)
    requires i <= j <= |msgs|
    ensures StartOf(msgs, i) <= StartOf(msgs, j) <= |Packets(msgs)|
    ensures Packets(msgs)[StartOf(msgs, i)..StartOf(msgs, j)] == Packets(msgs[i..j])
  {
    hide StartOf, Packets;
    PacketsFrom(msgs, i);
    PacketsFrom(msgs, j);
    assert msgs[i..] == msgs[i..j] + msgs[j..];
    PacketsConcat(msgs[i..j], msgs[j..]);
    Between(Packets(msgs), StartOf(msgs, i), StartOf(msgs, j), Packets(msgs[i..j]));
  }

  lemma FirstPartGives(m: FmtpMessage, k: nat)
    requires Sendable(m) && k < |MakeFmtpPacket(m)|
    ensures k <= HEADER_LEN + |m.text|
    ensures Drain(MakeFmtpPacket(m)[..k]) == if k <= HEADER_LEN then [] else [Filled(m, k - HEADER_LEN)]
  {
    FirstPartIsZeroFilled(m, k);
    hide Drain, Sendable;
  }

  lemma UpTo<T>(s: seq<T>, a: nat, b: nat, e: nat, n: nat)
    requires a <= b <= n <= e <= |s|
    ensures s[a..n] == s[a..b] + s[b..e][..n - b]
  {
  }

  /** Whole packets, and the beginning of one more. */
  lemma AlignedPartGives(msgs: seq<FmtpMessage>, i: nat, j: nat, n: nat)
    requires AllSendable(msgs) && i <= j < |msgs| && StartOf(msgs, j) <= n < StartOf(msgs, j + 1)
    ensures StartOf(msgs, i) <= n <= |Packets(msgs)|
    ensures var read := n - StartOf(msgs, j) - HEADER_LEN;
            && read <= |msgs[j].text|
            && Drain(Packets(msgs)[StartOf(msgs, i)..n])
            == msgs[i..j] + if read <= 0 then [] else [Filled(msgs[j], read)]
  {
    hide Drain, MakeFmtpPacket, Sendable, StartOf, Packets, Filled;
    PacketAt(msgs, j);
    AlignedPackets(msgs, i, j);
    UpTo(Packets(msgs), StartOf(msgs, i), StartOf(msgs, j), StartOf(msgs, j + 1), n);
    DrainPacketsFirst(msgs[i..j], MakeFmtpPacket(msgs[j])[..n - StartOf(msgs, j)]);
    FirstPartGives(msgs[j], n - StartOf(msgs, j));
  }

  // The whole stream

  /** Before chunk c all packets before packet i were read and their messages handed over, but for zeros. */
  ghost predicate InStep(chunks: seq<seq<byte>>, c: nat, msgs: seq<FmtpMessage>, i: nat) {
    && c <= |chunks| && i <= |msgs|
    && (ReadAfter(chunks, c) == StartOf(msgs, i)
        || (i > 0 && CutsInto(chunks, c, msgs, i - 1)
            && ReadAfter(chunks, c) > StartOf(msgs, i - 1) + HEADER_LEN
            && ZeroFrom(msgs[i - 1].text, ReadAfter(chunks, c) - StartOf(msgs, i - 1) - HEADER_LEN)))
  }

  ghost predicate HarmlessFrom(chunks: seq<seq<byte>>, c: nat, msgs: seq<FmtpMessage>) {
    forall d: nat, i: nat :: c <= d && CutsInto(chunks, d, msgs, i) ==> IsHarmless(chunks, d, msgs, i)
  }

  lemma CutsIntoOne(chunks: seq<seq<byte>>, c: nat, msgs: seq<FmtpMessage>, i: nat, j: nat)
    requires CutsInto(chunks, c, msgs, i) && CutsInto(chunks, c, msgs, j)
    ensures i == j
  {
    hide StartOf, ReadAfter;
    if i < j && i + 1 < j {
      StartsGrow(msgs, i + 1, j);
    }
    if j < i && j + 1 < i {
      StartsGrow(msgs, j + 1, i);
    }
  }

  lemma NoCutAtStart(chunks: seq<seq<byte>>, c: nat, msgs: seq<FmtpMessage>, i: nat, j: nat)
    requires c <= |chunks| && i <= |msgs| && ReadAfter(chunks, c) == StartOf(msgs, i)
    ensures !CutsInto(chunks, c, msgs, j)
  {
    hide StartOf, ReadAfter;
    if CutsInto(chunks, c, msgs, j) {
      if i < j {
        StartsGrow(msgs, i, j);
      }
      if j + 1 < i {
        StartsGrow(msgs, j + 1, i);
      }
    }
  }

  /** One chunk further: only the cut at its beginning counts. */
  lemma HarmlessStep(chunks: seq<seq<byte>>, c: nat, msgs: seq<FmtpMessage>, i: nat)
    requires c < |chunks| && InStep(chunks, c, msgs, i)
    ensures HarmlessFrom(chunks, c, msgs)
       <==> HarmlessFrom(chunks, c + 1, msgs)
            && (ReadAfter(chunks, c) < StartOf(msgs, i) < ReadAfter(chunks, c + 1) ==>
                  (StartOf(msgs, i) - ReadAfter(chunks, c)) % HEADER_LEN == 0)
  {
    hide StartOf, ReadAfter, ZeroFrom;
    if ReadAfter(chunks, c) == StartOf(msgs, i) {
      forall j: nat ensures !CutsInto(chunks, c, msgs, j) {
        NoCutAtStart(chunks, c, msgs, i, j);
      }
    } else {
      forall j: nat | CutsInto(chunks, c, msgs, j) ensures j == i - 1 {
        CutsIntoOne(chunks, c, msgs, i - 1, j);
      }
    }
  }

  lemma NotAhead(chunks: seq<seq<byte>>, c: nat, msgs: seq<FmtpMessage>, i: nat)
    requires InStep(chunks, c, msgs, i)
    ensures c <= |chunks| && i <= |msgs| && ReadAfter(chunks, c) <= StartOf(msgs, i)
  {
    hide StartOf, ReadAfter;
  }

  lemma AllAreBefore(msgs: seq<FmtpMessage>)
    ensures StartOf(msgs, |msgs|) == |Packets(msgs)|
  {
    assert msgs[..|msgs|] == msgs;
  }

  /** What is left of a packet whose message was handed over is zero. */
  lemma LeftIsZero(chunks: seq<seq<byte>>, c: nat, msgs: seq<FmtpMessage>, i: nat, n: nat)
    requires InStep(chunks, c, msgs, i) && ReadAfter(chunks, c) <= n <= StartOf(msgs, i)
    ensures n <= |Packets(msgs)| && AllZero(Packets(msgs)[ReadAfter(chunks, c)..n])
  {
    hide StartOf, ReadAfter, MakeFmtpPacket, Packets;
    PacketsFrom(msgs, i);
    if ReadAfter(chunks, c) < n {
      var start := StartOf(msgs, i - 1);
      PacketAt(msgs, i - 1);
      BodyIsBehindHeader(msgs[i - 1]);
      var stream, packet := Packets(msgs), MakeFmtpPacket(msgs[i - 1]);
      forall k | ReadAfter(chunks, c) <= k < n ensures stream[k] == 0 {
        assert stream[k] == packet[k - start] == msgs[i - 1].text[k - start - HEADER_LEN];
      }
    }
  }

  /** A chunk that holds a multiple of five bytes of such a rest, or no rest, gives what is behind it. */
  lemma ChunkGives(chunks: seq<seq<byte>>, c: nat, msgs: seq<FmtpMessage>, i: nat)
    requires InStep(chunks, c, msgs, i) && c < |chunks| && Concat(chunks) == Packets(msgs)
    requires StartOf(msgs, i) <= ReadAfter(chunks, c + 1)
    requires (StartOf(msgs, i) - ReadAfter(chunks, c)) % HEADER_LEN == 0
    ensures StartOf(msgs, i) <= ReadAfter(chunks, c + 1) <= |Packets(msgs)|
    ensures Drain(chunks[c]) == Drain(Packets(msgs)[StartOf(msgs, i)..ReadAfter(chunks, c + 1)])
  {
    hide InStep, StartOf, ReadAfter, Drain, AllZero, Packets, Concat;
    NotAhead(chunks, c, msgs, i);
    var a, b, e, stream := ReadAfter(chunks, c), StartOf(msgs, i), ReadAfter(chunks, c + 1), Packets(msgs);
    ChunkAt(chunks, c);
    LeftIsZero(chunks, c, msgs, i, b);
    assert chunks[c] == stream[a..b] + stream[b..e];
    ZeroGroupsAreSkipped(stream[a..b], stream[b..e]);
  }

  /** Any other chunk that ends behind the rest skips bytes of the packets behind it. */
  lemma ChunkSkips(chunks: seq<seq<byte>>, c: nat, msgs: seq<FmtpMessage>, i: nat)
    requires InStep(chunks, c, msgs, i) && c < |chunks| && Concat(chunks) == Packets(msgs) && AllSendable(msgs)
    requires StartOf(msgs, i) < ReadAfter(chunks, c + 1)
    requires (StartOf(msgs, i) - ReadAfter(chunks, c)) % HEADER_LEN != 0
    ensures DrainChunks(chunks[c..]) != msgs[i..]
  {
    hide InStep, StartOf, ReadAfter, Drain, AllZero, Packets, Concat, DrainChunks;
    NotAhead(chunks, c, msgs, i);
    var a, b, e, stream := ReadAfter(chunks, c), StartOf(msgs, i), ReadAfter(chunks, c + 1), Packets(msgs);
    ChunkAt(chunks, c);
    ChunksFrom(chunks, c + 1);
    PacketsFrom(msgs, i);
    LeftIsZero(chunks, c, msgs, i, b);
    AllAreBefore(msgs);
    assert chunks[c] == stream[a..b] + stream[b..e];
    var more := BytesBehindZerosAreSkipped(stream[a..b], stream[b..e]);
    var left := [stream[b..e][more..]] + chunks[c + 1..];
    DrainChunkFirst(chunks[c], chunks[c + 1..]);
    DrainChunkFirst(stream[b..e][more..], chunks[c + 1..]);
    assert chunks[c..] == [chunks[c]] + chunks[c + 1..];
    RestOfStream(stream, b, e, more, chunks[c + 1..]);
    CutStreamLoses(msgs[i..], more, left);
  }

  lemma RestOfStream(stream: seq<byte>, b: nat, e: nat, more: nat, later: seq<seq<byte>>)
    requires b <= e <= |stream| && more <= e - b && Concat(later) == stream[e..]
    ensures Concat([stream[b..e][more..]] + later) == stream[b..][more..]
  {
    assert ([stream[b..e][more..]] + later)[1..] == later;
  }

  lemma OneChunk(chunks: seq<seq<byte>>, c: nat)
    requires c < |chunks|
    ensures DrainChunks(chunks[c..]) == Drain(chunks[c]) + DrainChunks(chunks[c + 1..])
  {
    assert chunks[c..] == [chunks[c]] + chunks[c + 1..];
    DrainChunkFirst(chunks[c], chunks[c + 1..]);
  }

  lemma NotAtEnd(chunks: seq<seq<byte>>, c: nat, msgs: seq<FmtpMessage>, i: nat)
    requires c <= |chunks| && i < |msgs| && Concat(chunks) == Packets(msgs)
    requires ReadAfter(chunks, c) < StartOf(msgs, i + 1)
    ensures c < |chunks|
  {
    if c == |chunks| {
      assert chunks[..c] == chunks;
      hide ReadAfter, StartOf;
      PacketAt(msgs, i);
    }
  }

  lemma SameBehind<T>(front: seq<T>, a: seq<T>, b: seq<T>)
    ensures front + a == front + b <==> a == b
  {
    assert (front + a)[|front|..] == a && (front + b)[|front|..] == b;
  }

  lemma SameAround<T>(s: seq<T>, i: nat, j: nat, x: T, behind: seq<T>)
    requires i <= j < |s|
    ensures s[i..j] + [x] + behind == s[i..] <==> x == s[j] && behind == s[j + 1..]
  {
    var front := s[i..j];
    assert s[i..] == front + [s[j]] + s[j + 1..];
    var t := front + [x] + behind;
    assert t[|front|] == x && t[|front| + 1..] == behind;
    assert s[i..][|front|] == s[j] && s[i..][|front| + 1..] == s[j + 1..];
  }

  /** A cut in the header of packet j: the rest of the stream does not give its message and those behind it. */
  lemma HeaderIsLost(chunks: seq<seq<byte>>, c: nat, msgs: seq<FmtpMessage>, j: nat)
    requires c <= |chunks| && j < |msgs| && Concat(chunks) == Packets(msgs) && AllSendable(msgs)
    requires StartOf(msgs, j) < ReadAfter(chunks, c)
    ensures DrainChunks(chunks[c..]) != msgs[j..]
  {
    hide StartOf, ReadAfter, Drain, Packets, Concat, DrainChunks;
    ChunksFrom(chunks, c);
    PacketsFrom(msgs, j);
    var stream, s, e := Packets(msgs), StartOf(msgs, j), ReadAfter(chunks, c);
    assert stream[s..][e - s..] == stream[e..];
    CutStreamLoses(msgs[j..], e - s, chunks[c..]);
  }

  /** What a chunk that ends in packet j hands over. */
  lemma ChunkHandsOver(chunks: seq<seq<byte>>, c: nat, msgs: seq<FmtpMessage>, i: nat, j: nat)
    requires InStep(chunks, c, msgs, i) && c < |chunks| && Concat(chunks) == Packets(msgs) && AllSendable(msgs)
    requires i <= j < |msgs| && StartOf(msgs, i) <= ReadAfter(chunks, c + 1)
    requires StartOf(msgs, j) < ReadAfter(chunks, c + 1) < StartOf(msgs, j + 1)
    requires (StartOf(msgs, i) - ReadAfter(chunks, c)) % HEADER_LEN == 0
    ensures var read := ReadAfter(chunks, c + 1) - StartOf(msgs, j) - HEADER_LEN;
            && read <= |msgs[j].text|
            && DrainChunks(chunks[c..])
            == msgs[i..j] + (if read <= 0 then [] else [Filled(msgs[j], read)]) + DrainChunks(chunks[c + 1..])
  {
    hide InStep, StartOf, ReadAfter, Drain, Packets, Concat, DrainChunks, Filled, Sendable;
    ChunkGives(chunks, c, msgs, i);
    AlignedPartGives(msgs, i, j, ReadAfter(chunks, c + 1));
    OneChunk(chunks, c);
  }

  /** If the rest is to arrive, the message of packet j must have, and what is behind it must arrive. */
  lemma ChunkEndsIn(chunks: seq<seq<byte>>, c: nat, msgs: seq<FmtpMessage>, i: nat, j: nat)
    requires InStep(chunks, c, msgs, i) && c < |chunks| && Concat(chunks) == Packets(msgs) && AllSendable(msgs)
    requires i <= j < |msgs| && StartOf(msgs, i) <= ReadAfter(chunks, c + 1)
    requires StartOf(msgs, j) < ReadAfter(chunks, c + 1) < StartOf(msgs, j + 1)
    requires (StartOf(msgs, i) - ReadAfter(chunks, c)) % HEADER_LEN == 0
    ensures var read := ReadAfter(chunks, c + 1) - StartOf(msgs, j) - HEADER_LEN;
            (DrainChunks(chunks[c..]) == msgs[i..]
             <==> read > 0 && ZeroFrom(msgs[j].text, read) && DrainChunks(chunks[c + 1..]) == msgs[j + 1..])
  {
    hide InStep, StartOf, ReadAfter, Drain, Packets, Concat, DrainChunks, ZeroFrom, Filled, Sendable, AllSendable;
    var read, later := ReadAfter(chunks, c + 1) - StartOf(msgs, j) - HEADER_LEN, DrainChunks(chunks[c + 1..]);
    ChunkHandsOver(chunks, c, msgs, i, j);
    if read <= 0 {
      HeaderIsLost(chunks, c + 1, msgs, j);
      NothingBetween(msgs, i, j, later);
    } else {
      SameAround(msgs, i, j, Filled(msgs[j], read), later);
      FilledIsSame(msgs[j], read);
    }
  }

  lemma NothingBetween<T>(s: seq<T>, i: nat, j: nat, behind: seq<T>)
    requires i <= j <= |s|
    ensures s[i..j] + [] + behind == s[i..] <==> behind == s[j..]
  {
    assert s[i..j] + [] == s[i..j] && s[i..] == s[i..j] + s[j..];
    SameBehind(s[i..j], behind, s[j..]);
  }

  /** A chunk that ends between two packets. */
  lemma ChunkEndsBefore(chunks: seq<seq<byte>>, c: nat, msgs: seq<FmtpMessage>, i: nat, j: nat)
    requires InStep(chunks, c, msgs, i) && c < |chunks| && Concat(chunks) == Packets(msgs) && AllSendable(msgs)
    requires i <= j <= |msgs| && StartOf(msgs, j) == ReadAfter(chunks, c + 1)
    requires StartOf(msgs, i) <= StartOf(msgs, j)
    requires (StartOf(msgs, i) - ReadAfter(chunks, c)) % HEADER_LEN == 0
    ensures DrainChunks(chunks[c..]) == msgs[i..] <==> DrainChunks(chunks[c + 1..]) == msgs[j..]
  {
    hide InStep, StartOf, ReadAfter, Drain, Packets, Concat, DrainChunks, Sendable;
    ChunkGives(chunks, c, msgs, i);
    AlignedPackets(msgs, i, j);
    DrainPackets(msgs[i..j], []);
    assert Packets(msgs[i..j]) + [] == Packets(msgs[i..j]);
    OneChunk(chunks, c);
    assert msgs[i..] == msgs[i..j] + msgs[j..];
    SameBehind(msgs[i..j], DrainChunks(chunks[c + 1..]), msgs[j..]);
  }

  /** A chunk of nothing but such zeros. */
  lemma ChunkIsZero(chunks: seq<seq<byte>>, c: nat, msgs: seq<FmtpMessage>, i: nat)
    requires InStep(chunks, c, msgs, i) && c < |chunks| && Concat(chunks) == Packets(msgs)
    requires ReadAfter(chunks, c + 1) <= StartOf(msgs, i)
    ensures DrainChunks(chunks[c..]) == DrainChunks(chunks[c + 1..])
  {
    hide InStep, StartOf, ReadAfter, Drain, Packets, Concat, DrainChunks, AllZero;
    ChunkAt(chunks, c);
    LeftIsZero(chunks, c, msgs, i, ReadAfter(chunks, c + 1));
    ZerosGiveNothing(chunks[c]);
    OneChunk(chunks, c);
  }

  lemma StaysInStep(chunks: seq<seq<byte>>, c: nat, msgs: seq<FmtpMessage>, i: nat)
    requires InStep(chunks, c, msgs, i) && c < |chunks| && Concat(chunks) == Packets(msgs)
    requires ReadAfter(chunks, c + 1) <= StartOf(msgs, i)
    ensures InStep(chunks, c + 1, msgs, i)
  {
    hide StartOf, ReadAfter, Packets, Concat;
    ChunkAt(chunks, c);
    if ReadAfter(chunks, c + 1) < StartOf(msgs, i) {
      NotAtEnd(chunks, c + 1, msgs, i - 1);
    }
  }

  lemma AtStartInStep(chunks: seq<seq<byte>>, c: nat, msgs: seq<FmtpMessage>, i: nat)
    requires c <= |chunks| && i <= |msgs| && ReadAfter(chunks, c) == StartOf(msgs, i)
    ensures InStep(chunks, c, msgs, i)
  {
  }

  /** A cut inside packet j leaves the reader in step behind it, or does harm. */
  lemma CutDecides(chunks: seq<seq<byte>>, c: nat, msgs: seq<FmtpMessage>, j: nat)
    requires c < |chunks| && j < |msgs| && StartOf(msgs, j) < ReadAfter(chunks, c) < StartOf(msgs, j + 1)
    ensures var read := ReadAfter(chunks, c) - StartOf(msgs, j) - HEADER_LEN;
            if read > 0 && ZeroFrom(msgs[j].text, read) then InStep(chunks, c, msgs, j + 1)
            else !InStep(chunks, c, msgs, j + 1) && !HarmlessFrom(chunks, c, msgs)
  {
    hide StartOf, ReadAfter, ZeroFrom;
    assert CutsInto(chunks, c, msgs, j);
  }

  lemma EndIsReached(chunks: seq<seq<byte>>, msgs: seq<FmtpMessage>, i: nat)
    requires InStep(chunks, |chunks|, msgs, i) && Concat(chunks) == Packets(msgs)
    ensures i == |msgs| && HarmlessFrom(chunks, |chunks|, msgs) && DrainChunks(chunks[|chunks|..]) == []
  {
    hide Drain;
    assert chunks[..|chunks|] == chunks;
    AllAreBefore(msgs);
    if i < |msgs| {
      StartsGrow(msgs, i, |msgs|);
    }
  }

  lemma PacketIsNotBefore(msgs: seq<FmtpMessage>, i: nat, j: nat, n: nat)
    requires i <= |msgs| && j < |msgs| && StartOf(msgs, i) <= n < StartOf(msgs, j + 1)
    ensures i <= j
  {
    hide StartOf;
    if j + 1 < i {
      StartsGrow(msgs, j + 1, i);
    }
  }

  /** From every place in step on, the rest arrives exactly if the cuts from there on are harmless. */
  lemma {:induction false} ArrivesFrom(chunks: seq<seq<byte>>, c: nat, msgs: seq<FmtpMessage>, i: nat)
    requires InStep(chunks, c, msgs, i) && Concat(chunks) == Packets(msgs) && AllSendable(msgs)
    ensures c <= |chunks| && i <= |msgs|
    ensures DrainChunks(chunks[c..]) == msgs[i..] <==> HarmlessFrom(chunks, c, msgs)
    decreases |chunks| - c
  {
    hide StartOf, ReadAfter, Drain, Packets, Concat, DrainChunks, ZeroFrom, Sendable, InStep, HarmlessFrom, IsHarmless;
    NotAhead(chunks, c, msgs, i);
    if c == |chunks| {
      EndIsReached(chunks, msgs, i);
    } else {
      HarmlessStep(chunks, c, msgs, i);
      if ReadAfter(chunks, c + 1) <= StartOf(msgs, i) {
        ChunkIsZero(chunks, c, msgs, i);
        StaysInStep(chunks, c, msgs, i);
        ArrivesFrom(chunks, c + 1, msgs, i);
      } else if (StartOf(msgs, i) - ReadAfter(chunks, c)) % HEADER_LEN != 0 {
        ChunkSkips(chunks, c, msgs, i);
      } else {
        ChunkAt(chunks, c);
        var j := PacketOf(msgs, ReadAfter(chunks, c + 1));
        if j < |msgs| {
          PacketIsNotBefore(msgs, i, j, ReadAfter(chunks, c + 1));
        }
        if StartOf(msgs, j) == ReadAfter(chunks, c + 1) {
          AtStartInStep(chunks, c + 1, msgs, j);
          ChunkEndsBefore(chunks, c, msgs, i, j);
          ArrivesFrom(chunks, c + 1, msgs, j);
        } else {
          ChunkEndsIn(chunks, c, msgs, i, j);
          NotAtEnd(chunks, c + 1, msgs, j);
          CutDecides(chunks, c + 1, msgs, j);
          if InStep(chunks, c + 1, msgs, j + 1) {
            ArrivesFrom(chunks, c + 1, msgs, j + 1);
          }
        }
      }
    }
  }

  /**
   * When a stream arrives: for every list of messages and every cut of their packets into chunks, exactly these
   * messages are handed over if and only if each cut inside a packet is harmless.
   */
  lemma StreamArrivesIff(msgs: seq<FmtpMessage>, chunks: seq<seq<byte>>)
    requires AllSendable(msgs) && Concat(chunks) == Packets(msgs)
    ensures DrainChunks(chunks) == msgs
       <==> forall c: nat, i: nat :: CutsInto(chunks, c, msgs, i) ==> IsHarmless(chunks, c, msgs, i)
  {
    assert chunks[0..] == chunks && msgs[0..] == msgs;
    assert ReadAfter(chunks, 0) == StartOf(msgs, 0) == 0;
    hide StartOf, ReadAfter, Drain, Packets, Concat, DrainChunks, CutsInto, IsHarmless;
    ArrivesFrom(chunks, 0, msgs, 0);
  }

  /** The first chunk that begins inside or behind a packet begins at most one chunk length into it. */
  lemma FirstCut(chunks: seq<seq<byte>>, start: nat, limit: nat) returns (c: nat)
    requires start < |Concat(chunks)|
    requires forall i :: 0 <= i < |chunks| ==> |chunks[i]| <= limit
    ensures c <= |chunks| && start < ReadAfter(chunks, c) <= start + limit
  {
    assert ReadAfter(chunks, 0) == 0 && chunks[..|chunks|] == chunks;
    c := 0;
    while c < |chunks| && ReadAfter(chunks, c + 1) <= start
      invariant c <= |chunks| && ReadAfter(chunks, c) <= start
    {
      c := c + 1;
    }
    assert c < |chunks|;
    ChunkAt(chunks, c);
    c := c + 1;
  }

  /**
   * A packet longer than the transport reads at once, 1024 bytes at the client and 8192 at the server, is always cut,
   * wherever it stands in the stream: if all arrives, its end is zero.
   */
  lemma LongFrameIsDamaged(msgs: seq<FmtpMessage>, chunks: seq<seq<byte>>, i: nat, limit: nat)
    requires AllSendable(msgs) && Concat(chunks) == Packets(msgs)
    requires i < |msgs| && limit < |MakeFmtpPacket(msgs[i])|
    requires forall c :: 0 <= c < |chunks| ==> |chunks[c]| <= limit
    ensures DrainChunks(chunks) == msgs ==> ZeroFrom(msgs[i].text, limit - HEADER_LEN)
  {
    hide Drain, MakeFmtpPacket, DrainChunks, Sendable, StartOf, ReadAfter, Packets, Concat, ZeroFrom;
    PacketAt(msgs, i);
    var c := FirstCut(chunks, StartOf(msgs, i), limit);
    BodyIsBehindHeader(msgs[i]);
    if DrainChunks(chunks) == msgs {
      StreamArrivesIff(msgs, chunks);
      NotAtEnd(chunks, c, msgs, i);
      assert CutsInto(chunks, c, msgs, i) && IsHarmless(chunks, c, msgs, i);
      ZeroFromLater(msgs[i].text, ReadAfter(chunks, c) - StartOf(msgs, i) - HEADER_LEN, limit - HEADER_LEN);
    }
  }

  lemma ZeroFromLater(text: Text, a: int, b: int)
    requires a <= b && ZeroFrom(text, a)
    ensures ZeroFrom(text, b)
  {
  }

  /** One packet cut in two, and others behind it in the same chunk. */
  lemma CutPacketArrivesIff(m: FmtpMessage, rest: seq<FmtpMessage>, k: nat)
    requires Sendable(m) && AllSendable(rest) && 0 < k < |MakeFmtpPacket(m)|
    ensures var packet := MakeFmtpPacket(m);
            (DrainChunks([packet[..k], packet[k..] + Packets(rest)]) == [m] + rest
             <==> k > HEADER_LEN && ZeroFrom(m.text, k - HEADER_LEN)
                  && (rest == [] || (|packet| - k) % HEADER_LEN == 0))
  {
    hide Drain, MakeFmtpPacket, DrainChunks, ZeroFrom, Sendable, CutsInto, StartOf, ReadAfter;
    var packet, msgs := MakeFmtpPacket(m), [m] + rest;
    var chunks := [packet[..k], packet[k..] + Packets(rest)];
    TwoChunks(m, rest, k);
    StreamArrivesIff(msgs, chunks);
    forall c: nat, i: nat ensures CutsInto(chunks, c, msgs, i) <==> c == 1 && i == 0 {
      OnlyCut(m, rest, k, c, i);
    }
    assert |Packets(rest)| == 0 <==> rest == [] by {
      if rest != [] {
        BodyIsBehindHeader(rest[0]);
      }
    }
    assert IsHarmless(chunks, 1, msgs, 0) <==>
        k > HEADER_LEN && ZeroFrom(m.text, k - HEADER_LEN) && (rest == [] || (|packet| - k) % HEADER_LEN == 0);
  }

  lemma TwoChunks(m: FmtpMessage, rest: seq<FmtpMessage>, k: nat)
    requires k < |MakeFmtpPacket(m)|
    ensures var packet, msgs := MakeFmtpPacket(m), [m] + rest;
            var chunks := [packet[..k], packet[k..] + Packets(rest)];
            && Concat(chunks) == Packets(msgs) == packet + Packets(rest)
            && ReadAfter(chunks, 0) == 0 && ReadAfter(chunks, 1) == k
            && ReadAfter(chunks, 2) == |packet| + |Packets(rest)|
            && StartOf(msgs, 0) == 0 && StartOf(msgs, 1) == |packet|
  {
    hide MakeFmtpPacket;
    var packet, msgs := MakeFmtpPacket(m), [m] + rest;
    var chunks := [packet[..k], packet[k..] + Packets(rest)];
    assert msgs[1..] == rest && msgs[..1] == [m] && [m][1..] == [];
    ConcatOneMore([packet[..k]], packet[k..] + Packets(rest));
    ConcatOneMore([], packet[..k]);
    assert [] + [packet[..k]] == [packet[..k]] && [packet[..k]] + [packet[k..] + Packets(rest)] == chunks;
    assert chunks[..0] == [] && chunks[..1] == [packet[..k]] && chunks[..2] == chunks;
  }

  lemma OnlyCut(m: FmtpMessage, rest: seq<FmtpMessage>, k: nat, c: nat, i: nat)
    requires 0 < k < |MakeFmtpPacket(m)|
    ensures var packet := MakeFmtpPacket(m);
            CutsInto([packet[..k], packet[k..] + Packets(rest)], c, [m] + rest, i) <==> c == 1 && i == 0
  {
    hide StartOf, ReadAfter, MakeFmtpPacket, Packets;
    var packet, msgs := MakeFmtpPacket(m), [m] + rest;
    var chunks := [packet[..k], packet[k..] + Packets(rest)];
    TwoChunks(m, rest, k);
    assert CutsInto(chunks, 1, msgs, 0);
    if CutsInto(chunks, c, msgs, i) {
      assert c == 1;
      CutsIntoOne(chunks, c, msgs, i, 0);
    }
  }

  /** It does occur: the body 7, 0 cut in the middle arrives, and the message behind it, which was not cut, is lost. */
  lemma MessageBehindCutIsLost()
    ensures var first, second := FmtpMessage(OPERATIONAL, [7, 0]), FmtpMessage(OPERATIONAL, [9]);
            var packet := MakeFmtpPacket(first);
            DrainChunks([packet[..6], packet[6..] + MakeFmtpPacket(second)]) == [first]
  {
    var first, second := FmtpMessage(OPERATIONAL, [7, 0]), FmtpMessage(OPERATIONAL, [9]);
    var packet, behind := MakeFmtpPacket(first), MakeFmtpPacket(second);
    FirstPartIsZeroFilled(first, 6);
    assert [7, 0][..1] + Zeros(1) == [7, 0];
    assert packet[6..] == [0] && |behind| == 6;
    ZeroIsNoHeader([0] + behind);
    FragmentAddsNothing(([0] + behind)[HEADER_LEN..]);
    hide Drain, MakeFmtpPacket;
    DrainOfTwo(packet[..6], packet[6..] + behind);
  }

  lemma DrainOfTwo(a: seq<byte>, b: seq<byte>)
    ensures DrainChunks([a, b]) == Drain(a) + Drain(b)
  {
    hide Drain;
    DrainChunkFirst(a, [b]);
    DrainChunkFirst(b, []);
    assert [a, b] == [a] + [b] && [b] == [b] + [];
  }
}
