/** The comma-joined record that carries a log message through the stream. */
module LogCodec {
  import opened Wrappers

  const MIN_INT64: int := -0x8000_0000_0000_0000
  const MAX_INT64: int := 0x7FFF_FFFF_FFFF_FFFF
  const MAX_UINT64: int := 0xFFFF_FFFF_FFFF_FFFF

  type int64 = i: int | MIN_INT64 <= i <= MAX_INT64

  datatype LogMessage = LogMessage(
    controllerIP: string,
    source: string,
    channelId: int64,
    channelLocName: string,
    channelRemName: string,
    dataType: string,
    severity: string,
    fmtpType: string,
    direction: string,
    text: string,
    dateTime: string)

  datatype Error = WrongFieldCount

  // Decimal numbers

  function Digits(n: nat): (s: string)
    ensures |s| > 0
  {
    if n < 10 then [DigitOf(n)] else Digits(n / 10) + [DigitOf(n % 10)]
  }

  function DigitOf(d: nat): (r: char)
    requires d < 10
  {
    '0' + d as char
  }

  function Itoa(n: int): (r: string) {
    if n < 0 then "-" + Digits(-n) else Digits(n)
  }

  datatype Scan = Number(n: nat) | TooLarge | NoNumber

  /** Reads digits from the left after the value `n`; what follows a value that is too large is not looked at. */
  function ScanDigits(s: string, n: nat): (r: Scan)
    decreases |s|
  {
    if s == "" then Number(n)
    else if !('0' <= s[0] <= '9') then NoNumber
    else
      var next := 10 * n + (s[0] - '0') as nat;
      if next > MAX_UINT64 then TooLarge else ScanDigits(s[1..], next)
  }

  function Clamped(n: int): (r: int64) {
    if n < MIN_INT64 then MIN_INT64 else if n > MAX_INT64 then MAX_INT64 else n
  }

  /** The number read when its error is dropped: 0 for what is no number, the nearest bound for one out of range. */
  function Atoi(s: string): (n: int64) {
    var negative := s != "" && s[0] == '-';
    var digits := if s != "" && (s[0] == '-' || s[0] == '+') then s[1..] else s;
    if digits == "" then 0
    else
      match ScanDigits(digits, 0)
      case Number(n) => var value: int := n; Clamped(if negative then -value else value)
      case TooLarge => if negative then MIN_INT64 else MAX_INT64
      case NoNumber => 0
  }

  lemma {:induction false} ScanOneMore(s: string, n: nat, c: char)
    requires ScanDigits(s, n).Number? && '0' <= c <= '9'
    ensures var next := 10 * ScanDigits(s, n).n + (c - '0') as nat;
            ScanDigits(s + [c], n) == if next > MAX_UINT64 then TooLarge else Number(next)
    decreases |s|
  {
    if s == "" {
      assert (s + [c])[1..] == "";
    } else {
      assert (s + [c])[0] == s[0] && (s + [c])[1..] == s[1..] + [c];
      ScanOneMore(s[1..], 10 * n + (s[0] - '0') as nat, c);
    }
  }

  lemma {:induction false} DigitsRoundTrip(n: nat)
    requires n <= MAX_UINT64
    ensures ScanDigits(Digits(n), 0) == Number(n)
    ensures forall c :: c in Digits(n) ==> '0' <= c <= '9'
  {
    if n < 10 {
      assert [DigitOf(n)][1..] == "";
    } else {
      DigitsRoundTrip(n / 10);
      ScanOneMore(Digits(n / 10), 0, DigitOf(n % 10));
    }
  }

  lemma ItoaRoundTrip(n: int64)
    ensures Atoi(Itoa(n)) == n && Commas(Itoa(n)) == 0
  {
    hide ScanDigits, Digits, Commas;
    var value: int := n;
    var digits := Digits(if value < 0 then -value else value);
    DigitsRoundTrip(if value < 0 then -value else value);
    assert digits[0] in digits;
    NoCommas(Itoa(n));
    if n < 0 {
      assert Itoa(n)[1..] == digits;
    }
  }

  predicate IsDecimal(s: string) {
    forall i :: 0 <= i < |s| ==> '0' <= s[i] <= '9'
  }

  /** The number that a string of decimal digits stands for. */
  function Decimal(s: string): (n: nat)
    requires IsDecimal(s)
  {
    if s == "" then 0 else 10 * Decimal(s[..|s| - 1]) + (s[|s| - 1] - '0') as nat
  }

  /** The digits written stand for the number, and none is superfluous. */
  lemma {:induction false} DigitsAreDecimal(n: nat)
    ensures IsDecimal(Digits(n)) && Decimal(Digits(n)) == n
    ensures (n > 0 ==> Digits(n)[0] != '0') && (n == 0 ==> Digits(n) == "0")
  {
    var s := Digits(n);
    if n < 10 {
      assert s[..0] == "" && Decimal("") == 0;
    } else {
      DigitsAreDecimal(n / 10);
      assert s[..|s| - 1] == Digits(n / 10);
    }
  }

  /** And a string of digits is read as the number it stands for, up to the largest of 64 bits. */
  lemma DecimalIsRead(s: string)
    requires s != "" && IsDecimal(s)
    ensures Atoi(s) == if Decimal(s) > MAX_INT64 then MAX_INT64 else Decimal(s)
    ensures var value: int := Decimal(s); Atoi("-" + s) == if -value < MIN_INT64 then MIN_INT64 else -value
  {
    ScanIsDecimal(s);
    assert ("-" + s)[1..] == s;
    hide Decimal, ScanDigits;
  }

  lemma {:induction false} ScanIsDecimal(s: string)
    requires IsDecimal(s)
    ensures ScanDigits(s, 0) == if Decimal(s) > MAX_UINT64 then TooLarge else Number(Decimal(s))
    decreases |s|
  {
    if s != "" {
      var front, c := s[..|s| - 1], s[|s| - 1];
      assert s == front + [c];
      ScanIsDecimal(front);
      if Decimal(front) > MAX_UINT64 {
        TooLargeStays(front, 0, c);
      } else {
        ScanOneMore(front, 0, c);
      }
    }
  }

  lemma {:induction false} TooLargeStays(s: string, n: nat, c: char)
    requires ScanDigits(s, n) == TooLarge
    ensures ScanDigits(s + [c], n) == TooLarge
    decreases |s|
  {
    assert s != "" && (s + [c])[0] == s[0] && (s + [c])[1..] == s[1..] + [c];
    var next := 10 * n + (s[0] - '0') as nat;
    if next <= MAX_UINT64 {
      TooLargeStays(s[1..], next, c);
    }
  }

  // Joining and splitting

  function Join(fields: seq<string>): (r: string)
    requires fields != []
  {
    if |fields| == 1 then fields[0] else fields[0] + "," + Join(fields[1..])
  }

  function Split(s: string): (fields: seq<string>)
    ensures fields != []
  {
    if s == "" then [""]
    else if s[0] == ',' then [""] + Split(s[1..])
    else [[s[0]] + Split(s[1..])[0]] + Split(s[1..])[1..]
  }

  function Commas(s: string): (r: nat) {
    if s == "" then 0 else (if s[0] == ',' then 1 else 0) + Commas(s[1..])
  }

  ghost predicate CommaFree(fields: seq<string>) {
    forall i :: 0 <= i < |fields| ==> Commas(fields[i]) == 0
  }

  lemma {:induction false} NoCommas(s: string)
    ensures Commas(s) == 0 <==> ',' !in s
  {
    if s != "" {
      NoCommas(s[1..]);
      assert s == [s[0]] + s[1..];
    }
  }

  lemma {:induction false} SplitCounts(s: string)
    ensures |Split(s)| == Commas(s) + 1 && CommaFree(Split(s))
  {
    if s != "" {
      SplitCounts(s[1..]);
      var rest := Split(s[1..]);
      if s[0] != ',' {
        assert ([s[0]] + rest[0])[1..] == rest[0];
        assert rest == [rest[0]] + rest[1..];
      }
    }
  }

  lemma {:induction false} CommasOfConcat(s: string, t: string)
    ensures Commas(s + t) == Commas(s) + Commas(t)
  {
    if s == "" {
      assert s + t == t;
    } else {
      assert (s + t)[1..] == s[1..] + t;
      CommasOfConcat(s[1..], t);
    }
  }

  /** A joined list has a comma between neighbours, and one more for each comma inside a field. */
  lemma {:induction false} JoinCounts(fields: seq<string>)
    requires fields != []
    ensures Commas(Join(fields)) >= |fields| - 1
    ensures Commas(Join(fields)) == |fields| - 1 <==> CommaFree(fields)
  {
    assert fields == [fields[0]] + fields[1..];
    if |fields| > 1 {
      var rest := fields[1..];
      JoinCounts(rest);
      CommasOfConcat(fields[0] + ",", Join(rest));
      CommasOfConcat(fields[0], ",");
      assert Commas(",") == 1;
    }
  }

  lemma {:induction false} SplitAtComma(f: string, t: string)
    requires Commas(f) == 0
    ensures Split(f + "," + t) == [f] + Split(t) && Split(f) == [f]
  {
    var s := f + "," + t;
    if f == "" {
      assert s[1..] == t;
    } else {
      SplitAtComma(f[1..], t);
      assert s[1..] == f[1..] + "," + t;
      assert [f[0]] + f[1..] == f;
    }
  }

  /** Splitting undoes joining for fields without commas. */
  lemma {:induction false} SplitOfJoin(fields: seq<string>)
    requires fields != [] && CommaFree(fields)
    ensures Split(Join(fields)) == fields
  {
    SplitAtComma(fields[0], if |fields| == 1 then "" else Join(fields[1..]));
    if |fields| > 1 {
      SplitOfJoin(fields[1..]);
    }
  }

  /** Joining undoes splitting for every string. */
  lemma {:induction false} JoinOfSplit(s: string)
    ensures Join(Split(s)) == s
  {
    if s != "" {
      var rest := Split(s[1..]);
      JoinOfSplit(s[1..]);
      if s[0] == ',' {
        assert Split(s)[1..] == rest;
        assert "" + "," + s[1..] == s;
      } else if |rest| > 1 {
        assert Split(s)[1..] == rest[1..];
        assert [s[0]] + (rest[0] + "," + Join(rest[1..])) == ([s[0]] + rest[0]) + "," + Join(rest[1..]);
      }
    }
  }

  // Records

  function Fields(lm: LogMessage): (r: seq<string>) {
    [lm.controllerIP, lm.source, Itoa(lm.channelId), lm.channelLocName, lm.channelRemName, lm.dataType, lm.severity,
     lm.fmtpType, lm.direction, lm.text, lm.dateTime]
  }

  function MarshalToString(lm: LogMessage): (r: string) {
    Join(Fields(lm))
  }

  function UnmarshalFromString(dt: string): (r: Result<LogMessage, Error>) {
    var f := Split(dt);
    if |f| == 11 then
      Success(LogMessage(f[0], f[1], Atoi(f[2]), f[3], f[4], f[5], f[6], f[7], f[8], f[9], f[10]))
    else Failure(WrongFieldCount)
  }

  /** The record field by field, as it is written. */
  lemma RecordLayout(lm: LogMessage)
    ensures MarshalToString(lm)
         == lm.controllerIP + "," + (lm.source + "," + (Itoa(lm.channelId) + "," + (lm.channelLocName + ","
            + (lm.channelRemName + "," + (lm.dataType + "," + (lm.severity + "," + (lm.fmtpType + ","
            + (lm.direction + "," + (lm.text + "," + lm.dateTime)))))))))
  {
    hide Itoa, Join;
    var end := [lm.direction, lm.text, lm.dateTime];
    var middle := [lm.channelRemName, lm.dataType, lm.severity, lm.fmtpType] + end;
    JoinOfThree(lm.direction, lm.text, lm.dateTime);
    JoinOfFour(lm.channelRemName, lm.dataType, lm.severity, lm.fmtpType, end);
    JoinOfFour(lm.controllerIP, lm.source, Itoa(lm.channelId), lm.channelLocName, middle);
    assert Fields(lm) == [lm.controllerIP, lm.source, Itoa(lm.channelId), lm.channelLocName] + middle;
  }

  lemma JoinFirst(f: string, rest: seq<string>)
    requires rest != []
    ensures Join([f] + rest) == f + "," + Join(rest)
  {
    assert ([f] + rest)[1..] == rest;
  }

  lemma JoinOfThree(a: string, b: string, c: string)
    ensures Join([a, b, c]) == a + "," + (b + "," + c)
  {
    JoinFirst(a, [b, c]);
    JoinFirst(b, [c]);
    assert [a, b, c] == [a] + [b, c] && [b, c] == [b] + [c];
  }

  lemma JoinOfFour(a: string, b: string, c: string, d: string, rest: seq<string>)
    requires rest != []
    ensures Join([a, b, c, d] + rest) == a + "," + (b + "," + (c + "," + (d + "," + Join(rest))))
  {
    hide Join;
    JoinFirst(d, rest);
    JoinFirst(c, [d] + rest);
    JoinFirst(b, [c] + ([d] + rest));
    JoinFirst(a, [b] + ([c] + ([d] + rest)));
    assert [a, b, c, d] + rest == [a] + ([b] + ([c] + ([d] + rest)));
  }

  ghost predicate HasNoComma(lm: LogMessage) {
    && ',' !in lm.controllerIP && ',' !in lm.source && ',' !in lm.channelLocName && ',' !in lm.channelRemName
    && ',' !in lm.dataType && ',' !in lm.severity && ',' !in lm.fmtpType && ',' !in lm.direction
    && ',' !in lm.text && ',' !in lm.dateTime
  }

  /** The codec is exact or refuses: never a different record without an error. */
  lemma RecordRoundTrip(lm: LogMessage)
    ensures UnmarshalFromString(MarshalToString(lm))
         == if HasNoComma(lm) then Success(lm) else Failure(WrongFieldCount)
  {
    var fields := Fields(lm);
    ItoaRoundTrip(lm.channelId);
    CommaFreeRecord(lm);
    if HasNoComma(lm) {
      SplitOfJoin(fields);
    } else {
      JoinCounts(fields);
      SplitCounts(Join(fields));
    }
  }

  lemma CommaFreeRecord(lm: LogMessage)
    ensures CommaFree(Fields(lm)) <==> HasNoComma(lm)
  {
    hide Commas, Itoa;
    ItoaRoundTrip(lm.channelId);
    forall f: string ensures Commas(f) == 0 <==> ',' !in f {
      NoCommas(f);
    }
    var f := Fields(lm);
    assert f[0] == lm.controllerIP && f[1] == lm.source && f[3] == lm.channelLocName && f[4] == lm.channelRemName;
    assert f[5] == lm.dataType && f[6] == lm.severity && f[7] == lm.fmtpType && f[8] == lm.direction;
    assert f[9] == lm.text && f[10] == lm.dateTime;
  }

  /** Whatever is read has no comma inside, and is written as it was read exactly if its number was. */
  lemma ReadIsWrittenBack(dt: string)
    requires UnmarshalFromString(dt).Success?
    ensures var lm := UnmarshalFromString(dt).value;
            HasNoComma(lm) && (MarshalToString(lm) == dt <==> Itoa(lm.channelId) == Split(dt)[2])
  {
    hide Split, Join, Commas, Itoa, Atoi;
    var f := Split(dt);
    var lm := UnmarshalFromString(dt).value;
    SplitCounts(dt);
    JoinOfSplit(dt);
    ItoaRoundTrip(lm.channelId);
    CommaFreeRecord(lm);
    assert f == Fields(lm)[2 := f[2]];
    SplitOfJoin(Fields(lm));
    assert Fields(lm)[2] == Itoa(lm.channelId);
    if Itoa(lm.channelId) == f[2] {
      assert Fields(lm) == f;
    }
  }
}
