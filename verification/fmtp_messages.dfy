/** FMTP messages: packet types, the fixed control messages and the identification text. */
module FmtpMessages {

  /** A Go byte, and a Go string seen as the bytes it holds. */
  type byte = b: int | 0 <= b < 256
  type Text = seq<byte>

  /** The packet type is a bare uint8 in the source: a received header may hold any of the 256 values. */
  type PacketType = byte

  const OPERATIONAL: PacketType := 1
  const OPERATOR: PacketType := 2
  const IDENTIFICATION: PacketType := 3
  const SYSTEM: PacketType := 4
  const STATUS: PacketType := 5
  const UNKNOWN: PacketType := 6

  /** The text of a type, as a name: only whether it is the text of an unknown type matters to the protocol. */
  datatype TypeName = OperationalText | OperatorText | IdentificationText | SystemText | StatusText | UnknownText

  function ToTypeName(t: PacketType): (r: TypeName) {
    if t == OPERATIONAL then OperationalText
    else if t == OPERATOR then OperatorText
    else if t == IDENTIFICATION then IdentificationText
    else if t == SYSTEM then SystemText
    else if t == STATUS then StatusText
    else UnknownText
  }

  datatype FmtpMessage = FmtpMessage(msgType: PacketType, text: Text)

  const HYPHEN: byte := 45

  // "01", "00", "03", "REJECT" and "ACCEPT"; the lemma FixedTexts reads them as text
  const STARTUP := FmtpMessage(SYSTEM, [48, 49])
  const SHUTDOWN := FmtpMessage(SYSTEM, [48, 48])
  const HEARTBEAT := FmtpMessage(SYSTEM, [48, 51])
  const REJECT := FmtpMessage(IDENTIFICATION, [82, 69, 74, 69, 67, 84])
  const ACCEPT := FmtpMessage(IDENTIFICATION, [65, 67, 67, 69, 80, 84])

  function CreateIdentificationMessage(localName: Text, remoteName: Text, ownMsg: bool): (r: FmtpMessage) {
    if ownMsg then FmtpMessage(IDENTIFICATION, localName + [HYPHEN] + remoteName)
    else FmtpMessage(IDENTIFICATION, remoteName + [HYPHEN] + localName)
  }

  /** The bytes of a text of the Latin block. */
  function Bytes(s: string): (r: Text)
    requires forall i :: 0 <= i < |s| ==> s[i] < 128 as char
  {
    seq(|s|, i requires 0 <= i < |s| => s[i] as int)
  }

  /** What the fixed messages say, and how an identification joins two names. */
  lemma FixedTexts(localName: Text, remoteName: Text)
    ensures STARTUP == FmtpMessage(4, Bytes("01")) && SHUTDOWN == FmtpMessage(4, Bytes("00"))
    ensures HEARTBEAT == FmtpMessage(4, Bytes("03"))
    ensures REJECT == FmtpMessage(3, Bytes("REJECT")) && ACCEPT == FmtpMessage(3, Bytes("ACCEPT"))
    ensures CreateIdentificationMessage(localName, remoteName, true)
         == FmtpMessage(3, localName + Bytes("-") + remoteName)
    ensures CreateIdentificationMessage(localName, remoteName, false)
         == FmtpMessage(3, remoteName + Bytes("-") + localName)
  {
    assert Bytes("-") == [HYPHEN];
  }

  /** No identification text can be taken for ACCEPT or REJECT: it holds a hyphen and they do not. */
  lemma IdentificationIsNotAnAnswer(localName: Text, remoteName: Text, ownMsg: bool)
    ensures CreateIdentificationMessage(localName, remoteName, ownMsg).text != ACCEPT.text
    ensures CreateIdentificationMessage(localName, remoteName, ownMsg).text != REJECT.text
  {
    var head := if ownMsg then localName else remoteName;
    var text := CreateIdentificationMessage(localName, remoteName, ownMsg).text;
    assert text[|head|] == HYPHEN;
  }

  /** Two joins on a hyphen agree exactly when their parts do, if the parts before it hold no hyphen. */
  lemma HyphenJoinInjective(a: Text, b: Text, c: Text, d: Text)
    requires HYPHEN !in a && HYPHEN !in c
    ensures a + [HYPHEN] + b == c + [HYPHEN] + d <==> a == c && b == d
  {
    var left, right := a + [HYPHEN] + b, c + [HYPHEN] + d;
    assert left[|a|] == HYPHEN && right[|c|] == HYPHEN;
    assert |a| < |c| ==> right[|a|] == c[|a|];
    assert |c| < |a| ==> left[|c|] == a[|c|];
    if left == right {
      assert left[..|a|] == a && right[..|c|] == c;
      assert left[|a| + 1..] == b && right[|c| + 1..] == d;
    }
  }

  /**
   * Identification agreement. For hyphen-free local names the text one system sends is the text the other
   * expects exactly when the second names the first as its remote system and itself as the first's remote.
   */
  lemma IdentificationAgreement(localA: Text, remoteA: Text, localB: Text, remoteB: Text)
    requires HYPHEN !in localA && HYPHEN !in remoteB
    ensures CreateIdentificationMessage(localA, remoteA, true) == CreateIdentificationMessage(localB, remoteB, false)
        <==> localA == remoteB && remoteA == localB
  {
    HyphenJoinInjective(localA, remoteA, remoteB, localB);
  }

  /** The configuration (localB, remoteB) expects exactly what (localA, remoteA) sends. */
  ghost predicate Expects(localA: Text, remoteA: Text, localB: Text, remoteB: Text) {
    CreateIdentificationMessage(localA, remoteA, true) == CreateIdentificationMessage(localB, remoteB, false)
  }

  /** Only the mirrored configuration expects what a configuration sends. */
  ghost predicate OnlyMirrorExpects(localA: Text, remoteA: Text) {
    forall localB, remoteB :: Expects(localA, remoteA, localB, remoteB) ==> localA == remoteB && remoteA == localB
  }

  /**
   * Acceptance by one side: no other configuration than the mirrored one takes a configuration's text for the one it
   * expects, exactly if neither of its names holds a hyphen.
   */
  lemma IdentificationIsUniqueIff(localA: Text, remoteA: Text)
    ensures OnlyMirrorExpects(localA, remoteA) <==> HYPHEN !in localA && HYPHEN !in remoteA
  {
    if HYPHEN in localA {
      var i :| 0 <= i < |localA| && localA[i] == HYPHEN;
      Impostor(localA[..i], localA[i + 1..], remoteA);
      assert localA == localA[..i] + [HYPHEN] + localA[i + 1..];
    } else if HYPHEN in remoteA {
      var i :| 0 <= i < |remoteA| && remoteA[i] == HYPHEN;
      Impostor(localA, remoteA[..i], remoteA[i + 1..]);
      assert remoteA == remoteA[..i] + [HYPHEN] + remoteA[i + 1..];
    } else {
      forall localB, remoteB | Expects(localA, remoteA, localB, remoteB)
        ensures localA == remoteB && remoteA == localB
      {
        UniqueSplit(localA, remoteA, remoteB, localB);
      }
    }
  }

  /** Three names joined by hyphens can be read in two ways, each the identification of another configuration. */
  lemma Impostor(a: Text, b: Text, c: Text)
    ensures !OnlyMirrorExpects(a + [HYPHEN] + b, c) && !OnlyMirrorExpects(a, b + [HYPHEN] + c)
  {
    var ab, bc := a + [HYPHEN] + b, b + [HYPHEN] + c;
    assert ab + [HYPHEN] + c == a + [HYPHEN] + bc;
    assert Expects(ab, c, bc, a) && Expects(a, bc, c, ab);
    assert |ab| != |a|;
  }

  /** A text with one hyphen is the join of two names in one way only. */
  lemma UniqueSplit(a: Text, b: Text, c: Text, d: Text)
    requires HYPHEN !in a && HYPHEN !in b && a + [HYPHEN] + b == c + [HYPHEN] + d
    ensures a == c && b == d
  {
    var text := a + [HYPHEN] + b;
    assert text == c + [HYPHEN] + d;
    assert text[|c|] == HYPHEN;
    forall i | 0 <= i < |text| && i != |a| ensures text[i] != HYPHEN {
      assert text[i] == if i < |a| then a[i] else b[i - |a| - 1];
    }
    assert text[..|a|] == a && text[..|c|] == c;
    assert text[|a| + 1..] == b && text[|c| + 1..] == d;
  }

  /** With a hyphen inside a name another one may: "A-B" to "C" sends what "B-C" expects from "A". */
  lemma HyphenatedNamesCollide()
    ensures CreateIdentificationMessage([65, HYPHEN, 66], [67], true) ==
            CreateIdentificationMessage([66, HYPHEN, 67], [65], false)
  {
    assert [65, HYPHEN, 66] + [HYPHEN] + [67] == [65, HYPHEN, 66, HYPHEN, 67];
    assert [65] + [HYPHEN] + [66, HYPHEN, 67] == [65, HYPHEN, 66, HYPHEN, 67];
  }
}
