/** What travels on the XVC socket: 32-bit little-endian integers and the three v1.0 commands. */
module XvcWire {
  import opened Bytes
  import opened Text

  const TWO31: int := 0x8000_0000
  const TWO32: int := 0x1_0000_0000

  predicate IsInt32(v: int) {
    -TWO31 <= v < TWO31
  }

  /** `int32_t` from its four bytes, lowest first. */
  function GetInt32(data: seq<byte>): (v: int)
    requires |data| == 4
    ensures IsInt32(v)
  {
    var u := ToNat(data[0]) + 0x100 * ToNat(data[1]) + 0x1_0000 * ToNat(data[2]) + 0x100_0000 * ToNat(data[3]);
    if u < TWO31 then u else u - TWO32
  }

  /** The four bytes of an `int32_t`; a right shift of a negative number keeps its sign. */
  function PutInt32(value: int): (data: seq<byte>)
    requires IsInt32(value)
    ensures |data| == 4
  {
    [ToByte(value % 0x100), ToByte(value / 0x100 % 0x100), ToByte(value / 0x1_0000 % 0x100),
        ToByte(value / 0x100_0000 % 0x100)]
  }

  lemma BytesOfWord(value: int)
    requires IsInt32(value)
    ensures var u := if value < 0 then value + TWO32 else value;
      u == value % 0x100 + 0x100 * (value / 0x100 % 0x100) + 0x1_0000 * (value / 0x1_0000 % 0x100)
          + 0x100_0000 * (value / 0x100_0000 % 0x100)
  {
    var q1 := value / 0x100;
    var q2 := q1 / 0x100;
    var q3 := q2 / 0x100;
    assert value / 0x1_0000 == q2 && value / 0x100_0000 == q3;
    assert -128 <= q3 < 128;
  }

  /** Encoding and decoding are inverse. */
  lemma Int32RoundTrip(value: int)
    requires IsInt32(value)
    ensures GetInt32(PutInt32(value)) == value
  {
    hide ToByte, ToNat;
    BytesOfWord(value);
    ByteOfNat(value % 0x100);
    ByteOfNat(value / 0x100 % 0x100);
    ByteOfNat(value / 0x1_0000 % 0x100);
    ByteOfNat(value / 0x100_0000 % 0x100);
  }

  lemma Int32BytesRoundTrip(data: seq<byte>)
    requires |data| == 4
    ensures PutInt32(GetInt32(data)) == data
  {
    hide ToByte, ToNat;
    NatOfByte(data[0]);
    NatOfByte(data[1]);
    NatOfByte(data[2]);
    NatOfByte(data[3]);
    WordDigits(GetInt32(data), ToNat(data[0]), ToNat(data[1]), ToNat(data[2]), ToNat(data[3]));
  }

  lemma WordDigits(v: int, a: int, b: int, c: int, d: int)
    requires 0 <= a < 256 && 0 <= b < 256 && 0 <= c < 256 && 0 <= d < 256
    requires v == a + 0x100 * b + 0x1_0000 * c + 0x100_0000 * d ||
             v == a + 0x100 * b + 0x1_0000 * c + 0x100_0000 * d - TWO32
    ensures v % 0x100 == a && v / 0x100 % 0x100 == b && v / 0x1_0000 % 0x100 == c && v / 0x100_0000 % 0x100 == d
  {
    var e := if v == a + 0x100 * b + 0x1_0000 * c + 0x100_0000 * d then d else d - 0x100;
    LowDigit(v, a, b + 0x100 * c + 0x1_0000 * e);
    LowDigit(v / 0x100, b, c + 0x100 * e);
    LowDigit(v / 0x100 / 0x100, c, e);
    assert v / 0x1_0000 == v / 0x100 / 0x100 && v / 0x100_0000 == v / 0x100 / 0x100 / 0x100;
  }

  lemma LowDigit(v: int, digit: int, rest: int)
    requires 0 <= digit < 0x100 && v == digit + 0x100 * rest
    ensures v % 0x100 == digit && v / 0x100 == rest
  {
  }

  const GETINFO: seq<byte> := [0x67, 0x65, 0x74, 0x69, 0x6E, 0x66, 0x6F, 0x3A]
  const SETTCK: seq<byte> := [0x73, 0x65, 0x74, 0x74, 0x63, 0x6B, 0x3A]
  const SHIFT: seq<byte> := [0x73, 0x68, 0x69, 0x66, 0x74, 0x3A]

  const DEFAULT_MAX_VECTOR_SIZE: nat := 2048
  const MAX_VECTOR_SIZE_LIMIT: nat := 262144

  /** Bytes as the characters they stand for. */
  function AsText(s: seq<byte>): (t: string)
    ensures |t| == |s|
  {
    seq(|s|, i requires 0 <= i < |s| => ToNat(s[i]) as char)
  }

  /** The words the commands start with. */
  lemma CommandWords()
    ensures AsText(GETINFO) == "getinfo:" && AsText(SETTCK) == "settck:" && AsText(SHIFT) == "shift:"
  {
    assert forall i :: 0 <= i < 8 ==> AsText(GETINFO)[i] == "getinfo:"[i];
    assert forall i :: 0 <= i < 7 ==> AsText(SETTCK)[i] == "settck:"[i];
    assert forall i :: 0 <= i < 6 ==> AsText(SHIFT)[i] == "shift:"[i];
  }

  /** The XVC v1.0 commands. */
  datatype Command =
    | GetInfo
    | SetTck(period: seq<byte>)
    | Shift(len: nat, tms: seq<byte>, tdi: seq<byte>)

  /**
    A command the handler accepts with vectors of at most `limit` bytes; settck is answered out of a buffer
    of that size.
  */
  predicate WellFormed(c: Command, limit: nat) {
    match c
    case GetInfo => true
    case SetTck(period) => |period| == 4 && 4 <= limit
    case Shift(len, tms, tdi) => 1 <= len < TWO31 - 7 && |tms| == |tdi| == (len + 7) / 8 <= limit
  }

  /** The bytes of a command. */
  function Wire(c: Command): seq<byte>
    requires c.Shift? ==> c.len < TWO31
  {
    match c
    case GetInfo => GETINFO
    case SetTck(period) => SETTCK + period
    case Shift(len, tms, tdi) => SHIFT + PutInt32(len) + tms + tdi
  }

  predicate AllWellFormed(cs: seq<Command>, limit: nat) {
    forall i :: 0 <= i < |cs| ==> WellFormed(cs[i], limit)
  }

  /** The bytes of a run of commands. */
  function WireAll(cs: seq<Command>, limit: nat): seq<byte>
    requires AllWellFormed(cs, limit)
  {
    if cs == [] then [] else Wire(cs[0]) + WireAll(cs[1..], limit)
  }

  /** The answer to getinfo: the version and the vector limit. */
  function InfoReply(limit: nat): seq<byte> {
    var text := "xvcServer_v1.0:" + Decimal(limit) + "\n";
    seq(|text|, i requires 0 <= i < |text| => ToByte(text[i] as nat % 256))
  }

  /** Where the handler looks for the length of a shift, in the bytes after "sh". */
  function LengthOffset(s: seq<byte>): nat
    requires |s| >= 4
  {
    if s[2] == 0x65 || s[2] == 0x45 then 5 else 4
  }

  predicate ShiftLengthPresent(s: seq<byte>) {
    |s| >= 4 && |s| >= LengthOffset(s) + 4
  }

  /** The length the handler takes from the bytes after "sh". */
  function ShiftLength(s: seq<byte>): int
    requires ShiftLengthPresent(s)
  {
    GetInt32(s[LengthOffset(s)..LengthOffset(s) + 4])
  }

  /** For a v1.0 shift that is the length sent, and the vectors follow. */
  lemma V1LengthIsRead(c: Command, rest: seq<byte>)
    requires c.Shift? && c.len < TWO31
    ensures |Wire(c)| >= 10
    ensures var s := Wire(c)[2..] + rest;
      ShiftLengthPresent(s) && ShiftLength(s) == c.len && LengthOffset(s) == 4 && s[8..] == c.tms + c.tdi + rest
  {
    hide GetInt32, PutInt32;
    var s := Wire(c)[2..] + rest;
    assert s == SHIFT[2..] + (PutInt32(c.len) + (c.tms + c.tdi + rest));
    assert s[2] == SHIFT[4];
    assert s[4..8] == PutInt32(c.len);
    Int32RoundTrip(c.len);
  }

  /** The spelling older clients use. */
  const OLD_SHIFT: seq<byte> := [0x73, 0x68, 0x69, 0x66, 0x74, 0x65, 0x3A]

  /**
    The handler is meant to accept that spelling too, but it looks for the extra letter one byte
    too early: its colon is read as the first byte of the length. Only one length survives that.
  */
  lemma OldSpellingReadIff(len: nat, rest: seq<byte>)
    requires 1 <= len < TWO31
    ensures var s := OLD_SHIFT[2..] + PutInt32(len) + rest;
      ShiftLengthPresent(s) && (ShiftLength(s) == len <==> len == 0x3A3A3A3A)
  {
    hide GetInt32, PutInt32;
    var d := PutInt32(len);
    var s := OLD_SHIFT[2..] + d + rest;
    var m := [0x3A, d[0], d[1], d[2]];
    assert s[2] == OLD_SHIFT[4];
    assert s[4..8] == m;
    Int32RoundTrip(len);
    Int32BytesRoundTrip(m);
    OneColonWord();
    if GetInt32(m) == len {
      assert m == d;
      assert d[0] == 0x3A && d[1] == d[0] && d[2] == d[1] && d[3] == d[2];
      assert d == [0x3A, 0x3A, 0x3A, 0x3A];
    }
    if len == 0x3A3A3A3A {
      assert m == d;
    }
  }

  /**
    And that length is far beyond any vector the handler accepts: no shift in the old spelling is ever read
    correctly.
  */
  lemma OldSpellingNeverRead(len: nat, rest: seq<byte>)
    requires 1 <= len && (len + 7) / 8 <= MAX_VECTOR_SIZE_LIMIT
    ensures var s := OLD_SHIFT[2..] + PutInt32(len) + rest;
      ShiftLengthPresent(s) && ShiftLength(s) != len
  {
    hide ShiftLength, ShiftLengthPresent, PutInt32;
    OldSpellingReadIff(len, rest);
  }

  lemma ColonByte()
    ensures ToNat(0x3A) == 0x3A
  {
  }

  lemma OneColonWord()
    ensures PutInt32(0x3A3A3A3A) == [0x3A, 0x3A, 0x3A, 0x3A] && GetInt32([0x3A, 0x3A, 0x3A, 0x3A]) == 0x3A3A3A3A
  {
    hide ToByte, ToNat, PutInt32;
    ColonByte();
    Int32BytesRoundTrip([0x3A, 0x3A, 0x3A, 0x3A]);
  }
}
