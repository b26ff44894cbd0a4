/** The FMTP frame: a five-byte header with a big-endian 16-bit length, then the body. */
module FmtpPackage {
  import opened FmtpMessages

  const FMTP_VERSION: byte := 2
  const FMTP_RESERVED: byte := 0
  const HEADER_LEN := 5
  const PACKAGE_MAX_LENGTH := 65535
  const PACKAGE_BODY_MAX_LEN := PACKAGE_MAX_LENGTH - HEADER_LEN
  // the longest body a receiver accepts: the header check compares the package length with 65530, exclusive
  const BODY_LIMIT := PACKAGE_BODY_MAX_LEN - 1 - HEADER_LEN

  type uint16 = n: int | 0 <= n < 0x1_0000

  datatype Header = Header(version: byte, reserved: byte, pkgLen: uint16, pkgType: PacketType, isValid: bool) {
    function BodyLen(): (r: int) {
      if pkgLen == 0 then 0 else pkgLen - HEADER_LEN
    }
  }

  function ToUint16(n: int): uint16 {
    n % 0x1_0000
  }

  function MarshalHeader(h: Header): (r: seq<byte>) {
    [h.version, h.reserved, h.pkgLen / 256, h.pkgLen % 256, h.pkgType]
  }

  /** Both the conversion of the text length and the addition of the header length wrap at 16 bits. */
  function MakeFmtpPacket(msg: FmtpMessage): (r: seq<byte>) {
    MarshalHeader(Header(2, 0, ToUint16(ToUint16(|msg.text|) + HEADER_LEN), msg.msgType, false)) + msg.text
  }

  function ParseHeader(data: seq<byte>): (r: Header)
    requires |data| == HEADER_LEN
  {
    var high: int, low: int := data[2], data[3];
    var length: uint16 := high * 256 + low;
    var valid := data[0] == FMTP_VERSION && data[1] == FMTP_RESERVED
                 && ToTypeName(data[4]) != UnknownText
                 && length < PACKAGE_BODY_MAX_LEN && length > HEADER_LEN;
    Header(data[0], data[1], length, data[4], valid)
  }

  // The layout on the wire

  /** The number that a string of bytes stands for, the most significant byte first. */
  function BigEndian(bytes: seq<byte>): (n: nat) {
    if bytes == [] then 0
    else
      var last: int := bytes[|bytes| - 1];
      256 * BigEndian(bytes[..|bytes| - 1]) + last
  }

  lemma BigEndianOfTwo(bytes: seq<byte>)
    requires |bytes| == 2
    ensures var high: int, low: int := bytes[0], bytes[1]; BigEndian(bytes) == 256 * high + low
  {
    var front := bytes[..1];
    assert front[..0] == [] && BigEndian(front[..0]) == 0;
    assert BigEndian(front) == front[0];
  }

  /**
   * The packet of every message, byte by byte: version 2, reserved 0, the length of the packet, the type, the text.
   * The length is exact for texts of up to 65530 bytes and wraps for longer ones.
   */
  lemma PacketLayout(msg: FmtpMessage)
    ensures var packet := MakeFmtpPacket(msg);
            && |packet| == 5 + |msg.text|
            && packet[0] == 2 && packet[1] == 0
            && BigEndian(packet[2..4]) == (|msg.text| + 5) % 65536
            && (|msg.text| <= 65530 ==> BigEndian(packet[2..4]) == |packet|)
            && packet[4] == msg.msgType && packet[5..] == msg.text
  {
    var packet := MakeFmtpPacket(msg);
    BigEndianOfTwo(packet[2..4]);
    assert packet[2..4] == [packet[2], packet[3]];
  }

  /** What any five bytes are taken for, and exactly which are taken for a header. */
  lemma HeaderLayout(data: seq<byte>)
    requires |data| == 5
    ensures var h, length := ParseHeader(data), BigEndian(data[2..4]);
            && h.version == data[0] && h.reserved == data[1] && h.pkgLen == length && h.pkgType == data[4]
            && (h.isValid <==> data[0] == 2 && data[1] == 0 && 1 <= data[4] <= 5 && 5 < length < 65530)
            && (h.isValid ==> h.BodyLen() == length - 5)
  {
    BigEndianOfTwo(data[2..4]);
  }

  /** The control messages on the wire. */
  lemma ControlPackets()
    ensures MakeFmtpPacket(STARTUP) == [2, 0, 0, 7, 4] + Bytes("01")
    ensures MakeFmtpPacket(SHUTDOWN) == [2, 0, 0, 7, 4] + Bytes("00")
    ensures MakeFmtpPacket(HEARTBEAT) == [2, 0, 0, 7, 4] + Bytes("03")
    ensures MakeFmtpPacket(ACCEPT) == [2, 0, 0, 11, 3] + Bytes("ACCEPT")
    ensures MakeFmtpPacket(REJECT) == [2, 0, 0, 11, 3] + Bytes("REJECT")
  {
    FixedTexts([], []);
  }

  /** A message that survives the header check: one of the five FMTP types and a body of 1..65524 bytes. */
  predicate Sendable(msg: FmtpMessage) {
    OPERATIONAL <= msg.msgType <= STATUS && 1 <= |msg.text| <= BODY_LIMIT
  }

  /**
   * The header codec, for every text: the header a peer reads back is valid exactly when the message has a
   * known type and its length, reduced modulo 2^16, lies in 1..65524; type and reduced length are recovered.
   */
  lemma HeaderRoundTrip(msg: FmtpMessage)
    ensures |MakeFmtpPacket(msg)| == HEADER_LEN + |msg.text|
    ensures var h := ParseHeader(MakeFmtpPacket(msg)[..HEADER_LEN]);
            && (h.isValid <==> OPERATIONAL <= msg.msgType <= STATUS && 1 <= |msg.text| % 0x1_0000 <= BODY_LIMIT)
            && (h.isValid ==> h.pkgType == msg.msgType && h.BodyLen() == |msg.text| % 0x1_0000)
  {
    var h := ParseHeader(MakeFmtpPacket(msg)[..HEADER_LEN]);
    var m: int := ToUint16(|msg.text|);
    assert h.pkgLen == ToUint16(m + HEADER_LEN);
    assert m + HEADER_LEN < 0x1_0000 ==> h.pkgLen == m + HEADER_LEN;
    assert m + HEADER_LEN >= 0x1_0000 ==> h.pkgLen == m + HEADER_LEN - 0x1_0000 < HEADER_LEN;
  }

  /** Below 65536 bytes the reduced length is the length: valid exactly for sendable messages. */
  lemma HeaderCodec(msg: FmtpMessage)
    requires |msg.text| < 0x1_0000
    ensures var h := ParseHeader(MakeFmtpPacket(msg)[..HEADER_LEN]);
            && (h.isValid <==> Sendable(msg))
            && (h.isValid ==> h.pkgType == msg.msgType && h.BodyLen() == |msg.text|)
  {
    HeaderRoundTrip(msg);
    assert |msg.text| % 0x1_0000 == |msg.text|;
  }

  /** A parsed header is valid only with a known type and a body length of 1..65524, whatever the bytes. */
  lemma ValidHeaderBounds(data: seq<byte>)
    requires |data| == HEADER_LEN && ParseHeader(data).isValid
    ensures OPERATIONAL <= ParseHeader(data).pkgType <= STATUS
    ensures 1 <= ParseHeader(data).BodyLen() <= BODY_LIMIT
  {
  }
}
