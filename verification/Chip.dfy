/**
  The MPSSE engine of the FTDI chip, fed one byte at a time (FTDI AN_108, sections 3.4,
  3.5 and 3.8). Because it takes single bytes, a command may be cut anywhere between two
  USB writes. Clock edges are below this model: a cycle drives TMS and TDI and samples TDO.
*/
module Chip {
  import opened Bytes
  import opened Probe

  const CLK_TMS_NO_READ: byte := 0x4B
  const CLK_TMS_READ_NEG: byte := 0x6F
  const CLK_DATA_BITS: byte := 0x3F
  const CLK_DATA_BYTES: byte := 0x3D
  const SET_TCK_DIVISOR: byte := 0x86
  const DISABLE_CLK_DIVIDE_BY_5: byte := 0x8A

  /** What a bit-wise command drives and reads: TMS or TDI, and TDO or nothing. */
  datatype Shifter = Shifter(writesTms: bool, readsTdo: bool)

  /** What the engine expects next. */
  datatype Phase =
    | Idle
    | BitCount(op: Shifter)
    | BitData(op: Shifter, n: nat)
    | CountLow
    | CountHigh(low: nat)
    | Payload(left: nat)
    | DivisorLow
    | DivisorHigh(low: nat)
    | Stuck

  /** The engine, its TMS pin, the cycles clocked so far, and every answer byte produced so far. */
  datatype Chip = Chip(phase: Phase, tms: bool, wave: seq<Clock>, answers: seq<byte>, divisor: nat, divideBy5: bool)

  /** n cycles of a TMS command: TMS from the low bits of `x`, TDI held at bit 7. */
  function ClockTms(b: Board, wave: seq<Clock>, x: byte, n: nat): (r: seq<Clock>)
    requires n <= 7
    ensures |r| == |wave| + n && wave <= r
  {
    if n == 0 then wave else Clocked(b, ClockTms(b, wave, x, n - 1), Bit(x, n - 1), Bit(x, 7))
  }

  /** n cycles of a data command: TDI from the low bits of `x`, TMS held. */
  function ClockData(b: Board, wave: seq<Clock>, tms: bool, x: byte, n: nat): (r: seq<Clock>)
    requires n <= 8
    ensures |r| == |wave| + n && wave <= r
  {
    if n == 0 then wave else Clocked(b, ClockData(b, wave, tms, x, n - 1), tms, Bit(x, n - 1))
  }

  /** The answer to an n-bit read: the last n samples in bits [8 - n, 8), noise below them. */
  function Answer(b: Board, wave: seq<Clock>, n: nat, index: nat): byte
    requires n <= 8 && n <= |wave|
  {
    Pack(seq(8, i requires 0 <= i < 8 => if i < 8 - n then Bit(b.noise(index), i) else wave[|wave| - 8 + i].tdo))
  }

  lemma AnswerBits(b: Board, wave: seq<Clock>, n: nat, index: nat, i: nat)
    requires n <= 8 && n <= |wave| && 8 - n <= i < 8
    ensures Bit(Answer(b, wave, n, index), i) == wave[|wave| - 8 + i].tdo
  {
    hide Bit, Pack;
    BitOfPack(seq(8, i requires 0 <= i < 8 => if i < 8 - n then Bit(b.noise(index), i) else wave[|wave| - 8 + i].tdo),
        i);
  }

  /** How many bits a bit-wise command can have: a TMS command keeps bit 7 of its data for TDI. */
  predicate CanClock(op: Shifter, n: nat) {
    1 <= n <= 8 && (op.writesTms ==> n <= 7)
  }

  /** A bit-wise command on n bits of x. */
  function Clocking(b: Board, c: Chip, op: Shifter, n: nat, x: byte): Chip
    requires CanClock(op, n)
  {
    var wave := if op.writesTms then ClockTms(b, c.wave, x, n) else ClockData(b, c.wave, c.tms, x, n);
    c.(phase := Idle,
       tms := if op.writesTms then Bit(x, n - 1) else c.tms,
       wave := wave,
       answers := if op.readsTdo then c.answers + [Answer(b, wave, n, |c.answers|)] else c.answers)
  }

  /** One byte of a byte-wise data command, `left` bytes including this one. */
  function ClockByte(b: Board, c: Chip, left: nat, x: byte): Chip
    requires left >= 1
  {
    var wave := ClockData(b, c.wave, c.tms, x, 8);
    c.(phase := if left == 1 then Idle else Payload(left - 1),
       wave := wave,
       answers := c.answers + [Answer(b, wave, 8, |c.answers|)])
  }

  /** The bits of a clocking opcode (FTDI AN_108, section 3.2); those that choose clock edges are left aside. */
  const BIT_MODE: nat := 1
  const LSB_FIRST: nat := 3
  const WRITES_TDI: nat := 4
  const READS_TDO: nat := 5
  const WRITES_TMS: nat := 6
  const NOT_CLOCKING: nat := 7

  /** What an opcode starts. Whatever the adapter never sends is left stuck. */
  function Opcode(x: byte): Phase {
    if Bit(x, NOT_CLOCKING) then
      if x == SET_TCK_DIVISOR then DivisorLow else if x == DISABLE_CLK_DIVIDE_BY_5 then Idle else Stuck
    else if !Bit(x, LSB_FIRST) then Stuck
    else if Bit(x, WRITES_TMS) then
      if Bit(x, BIT_MODE) && !Bit(x, WRITES_TDI) then BitCount(Shifter(true, Bit(x, READS_TDO))) else Stuck
    else if !Bit(x, WRITES_TDI) then Stuck
    else if Bit(x, BIT_MODE) then BitCount(Shifter(false, Bit(x, READS_TDO)))
    else if Bit(x, READS_TDO) then CountLow
    else Stuck
  }

  /** The opcodes sent, bit by bit: all clock the low bit first, and each drives and reads what its name says. */
  lemma OpcodesDecode()
    ensures Opcode(CLK_TMS_NO_READ) == BitCount(Shifter(true, false))
    ensures Opcode(CLK_TMS_READ_NEG) == BitCount(Shifter(true, true))
    ensures Opcode(CLK_DATA_BITS) == BitCount(Shifter(false, true))
    ensures Opcode(CLK_DATA_BYTES) == CountLow
    ensures Opcode(0x86) == DivisorLow && Opcode(0x8A) == Idle
    ensures SET_TCK_DIVISOR == 0x86 && DISABLE_CLK_DIVIDE_BY_5 == 0x8A
  {
  }

  lemma OpcodesDiffer()
    ensures CLK_TMS_NO_READ != DISABLE_CLK_DIVIDE_BY_5 && CLK_TMS_READ_NEG != DISABLE_CLK_DIVIDE_BY_5
    ensures CLK_DATA_BITS != DISABLE_CLK_DIVIDE_BY_5 && CLK_DATA_BYTES != DISABLE_CLK_DIVIDE_BY_5
    ensures SET_TCK_DIVISOR != DISABLE_CLK_DIVIDE_BY_5
  {
  }

  /** The engine after one more byte. */
  function Step(b: Board, c: Chip, x: byte): Chip {
    match c.phase
    case Idle =>
      c.(phase := Opcode(x), divideBy5 := c.divideBy5 && x != DISABLE_CLK_DIVIDE_BY_5)
    case BitCount(op) =>
      c.(phase := if CanClock(op, ToNat(x) + 1) then BitData(op, ToNat(x) + 1) else Stuck)
    case BitData(op, n) =>
      if CanClock(op, n) then Clocking(b, c, op, n, x) else c.(phase := Stuck)
    case CountLow => c.(phase := CountHigh(ToNat(x)))
    case CountHigh(low) => c.(phase := Payload(low + 256 * ToNat(x) + 1))
    case Payload(left) => if left == 0 then c.(phase := Stuck) else ClockByte(b, c, left, x)
    case DivisorLow => c.(phase := DivisorHigh(ToNat(x)))
    case DivisorHigh(low) => c.(phase := Idle, divisor := low + 256 * ToNat(x))
    case Stuck => c
  }

  /** The engine after a stream of bytes. */
  function Run(b: Board, c: Chip, s: seq<byte>): (r: Chip)
    decreases |s|
  {
    if s == [] then c else Step(b, Run(b, c, s[..|s| - 1]), s[|s| - 1])
  }

  lemma RunNone(b: Board, c: Chip)
    ensures Run(b, c, []) == c
  {
  }

  lemma RunSnoc(b: Board, c: Chip, s: seq<byte>, x: byte)
    ensures Run(b, c, s + [x]) == Step(b, Run(b, c, s), x)
  {
    hide Step;
    assert (s + [x])[..|s|] == s;
  }

  /** Where the stream is cut into writes does not matter. */
  lemma {:induction false} RunConcat(b: Board, c: Chip, s: seq<byte>, t: seq<byte>)
    ensures Run(b, c, s + t) == Run(b, Run(b, c, s), t)
    decreases |t|
  {
    hide Step;
    if t == [] {
      assert s + t == s;
    } else {
      var u, x := t[..|t| - 1], t[|t| - 1];
      assert s + t == (s + u) + [x];
      RunSnoc(b, c, s + u, x);
      RunConcat(b, c, s, u);
    }
  }

  lemma StepGrows(b: Board, c: Chip, x: byte)
    ensures c.answers <= Step(b, c, x).answers
  {
    hide Answer, ClockTms, ClockData, Opcode;
  }

  /** The engine never takes an answer back. */
  lemma {:induction false} RunGrows(b: Board, c: Chip, s: seq<byte>)
    ensures c.answers <= Run(b, c, s).answers
    decreases |s|
  {
    hide Step;
    if s != [] {
      RunGrows(b, c, s[..|s| - 1]);
      StepGrows(b, Run(b, c, s[..|s| - 1]), s[|s| - 1]);
    }
  }

  lemma StepExtends(b: Board, c: Chip, x: byte)
    ensures c.wave <= Step(b, c, x).wave
  {
    hide Answer, Opcode, ClockTms, ClockData;
  }

  /** Cycles once clocked stay as they were. */
  lemma {:induction false} RunExtends(b: Board, c: Chip, s: seq<byte>)
    ensures c.wave <= Run(b, c, s).wave
    decreases |s|
  {
    hide Step;
    if s != [] {
      RunExtends(b, c, s[..|s| - 1]);
      StepExtends(b, Run(b, c, s[..|s| - 1]), s[|s| - 1]);
    }
  }

  lemma RunThree(b: Board, c: Chip, x: byte, y: byte, z: byte)
    ensures Run(b, c, [x, y, z]) == Step(b, Step(b, Step(b, c, x), y), z)
  {
    hide Step;
    RunSnoc(b, c, [], x);
    RunSnoc(b, c, [x], y);
    RunSnoc(b, c, [x, y], z);
    assert [] + [x] == [x] && [x] + [y] == [x, y] && [x, y] + [z] == [x, y, z];
  }

  /** The three bytes of a bit-wise command. */
  function Command(op: byte, n: nat, x: byte): seq<byte>
    requires 1 <= n <= 8
  {
    [op, ToByte(n - 1), x]
  }

  lemma RunCommand(b: Board, c: Chip, op: byte, k: Shifter, n: nat, x: byte)
    requires c.phase.Idle? && Opcode(op) == BitCount(k) && op != DISABLE_CLK_DIVIDE_BY_5 && CanClock(k, n)
    ensures Run(b, c, Command(op, n, x)) == Clocking(b, c, k, n, x)
  {
    hide Clocking, ClockTms, ClockData, Answer, Opcode;
    RunThree(b, c, op, ToByte(n - 1), x);
    ByteOfNat(n - 1);
    var c1 := Step(b, c, op);
    assert c1 == c.(phase := BitCount(k));
    var c2 := Step(b, c1, ToByte(n - 1));
    assert c2 == c1.(phase := BitData(k, n));
    assert Step(b, c2, x) == Clocking(b, c2, k, n, x);
    ClockingIgnoresPhase(b, c, c2, k, n, x);
  }

  lemma RunDataBits(b: Board, c: Chip, n: nat, x: byte)
    requires c.phase.Idle? && 1 <= n <= 8
    ensures var wave := ClockData(b, c.wave, c.tms, x, n);
      Run(b, c, Command(CLK_DATA_BITS, n, x)) ==
      c.(wave := wave, answers := c.answers + [Answer(b, wave, n, |c.answers|)])
  {
    hide Run, Command, Opcode, ClockData, ClockTms, Answer, Bit;
    OpcodesDecode();
    OpcodesDiffer();
    RunCommand(b, c, CLK_DATA_BITS, Shifter(false, true), n, x);
  }

  lemma RunTmsBits(b: Board, c: Chip, n: nat, x: byte)
    requires c.phase.Idle? && 1 <= n <= 7
    ensures Run(b, c, Command(CLK_TMS_NO_READ, n, x)) == c.(wave := ClockTms(b, c.wave, x, n), tms := Bit(x, n - 1))
  {
    hide Run, Command, Opcode, ClockData, ClockTms, Answer, Bit;
    OpcodesDecode();
    OpcodesDiffer();
    RunCommand(b, c, CLK_TMS_NO_READ, Shifter(true, false), n, x);
  }

  lemma RunLastBit(b: Board, c: Chip, x: byte)
    requires c.phase.Idle?
    ensures var wave := ClockTms(b, c.wave, x, 1);
      Run(b, c, Command(CLK_TMS_READ_NEG, 1, x)) ==
      c.(wave := wave, tms := Bit(x, 0), answers := c.answers + [Answer(b, wave, 1, |c.answers|)])
  {
    hide Run, Command, Opcode, ClockData, ClockTms, Answer, Bit;
    OpcodesDecode();
    OpcodesDiffer();
    RunCommand(b, c, CLK_TMS_READ_NEG, Shifter(true, true), 1, x);
  }

  lemma ClockingIgnoresPhase(b: Board, c: Chip, d: Chip, op: Shifter, n: nat, x: byte)
    requires CanClock(op, n) && d == c.(phase := d.phase)
    ensures Clocking(b, c, op, n, x) == Clocking(b, d, op, n, x)
  {
    hide ClockTms, ClockData, Answer;
  }

  /** The three bytes that announce n whole bytes. */
  function BytesHeader(n: nat): seq<byte>
    requires 1 <= n <= 0x1_0000
  {
    [CLK_DATA_BYTES, ToByte((n - 1) % 256), ToByte((n - 1) / 256)]
  }

  lemma RunBytesHeader(b: Board, c: Chip, n: nat)
    requires c.phase.Idle? && 1 <= n <= 0x1_0000
    ensures Run(b, c, BytesHeader(n)) == c.(phase := Payload(n))
  {
    hide Run, Step;
    var low, high := ToByte((n - 1) % 256), ToByte((n - 1) / 256);
    RunThree(b, c, CLK_DATA_BYTES, low, high);
    CountBytes(n - 1);
    AnnounceBytes(b, c, low, high);
  }

  lemma AnnounceBytes(b: Board, c: Chip, low: byte, high: byte)
    requires c.phase.Idle?
    ensures Step(b, Step(b, Step(b, c, CLK_DATA_BYTES), low), high) ==
            c.(phase := Payload(ToNat(low) + 256 * ToNat(high) + 1))
  {
    hide ClockByte, Clocking, Opcode;
    OpcodesDecode();
    OpcodesDiffer();
    var c1 := Step(b, c, CLK_DATA_BYTES);
    assert c1 == c.(phase := CountLow);
    var c2 := Step(b, c1, low);
    assert c2 == c.(phase := CountHigh(ToNat(low)));
  }

  /** The bytes that switch the prescaler off and set the divisor. */
  function SetDivisor(divisor: nat): seq<byte>
    requires divisor < 0x1_0000
  {
    [DISABLE_CLK_DIVIDE_BY_5, SET_TCK_DIVISOR, ToByte(divisor % 256), ToByte(divisor / 256)]
  }

  lemma RunSetDivisor(b: Board, c: Chip, divisor: nat)
    requires c.phase.Idle? && divisor < 0x1_0000
    ensures Run(b, c, SetDivisor(divisor)) == c.(divisor := divisor, divideBy5 := false)
  {
    var low, high := ToByte(divisor % 256), ToByte(divisor / 256);
    RunConcat(b, c, [DISABLE_CLK_DIVIDE_BY_5], [SET_TCK_DIVISOR, low, high]);
    RunSnoc(b, c, [], DISABLE_CLK_DIVIDE_BY_5);
    RunNone(b, c);
    assert [] + [DISABLE_CLK_DIVIDE_BY_5] == [DISABLE_CLK_DIVIDE_BY_5];
    assert [DISABLE_CLK_DIVIDE_BY_5] + [SET_TCK_DIVISOR, low, high] == SetDivisor(divisor);
    RunThree(b, Step(b, c, DISABLE_CLK_DIVIDE_BY_5), SET_TCK_DIVISOR, low, high);
    CountBytes(divisor);
    hide Run;
    SetDivisorSteps(b, c, low, high);
  }

  lemma SetDivisorSteps(b: Board, c: Chip, low: byte, high: byte)
    requires c.phase.Idle?
    ensures Step(b, Step(b, Step(b, Step(b, c, DISABLE_CLK_DIVIDE_BY_5), SET_TCK_DIVISOR), low), high) ==
            c.(divisor := ToNat(low) + 256 * ToNat(high), divideBy5 := false)
  {
    hide ClockByte, Clocking, Opcode;
    OpcodesDecode();
    OpcodesDiffer();
    var c0 := Step(b, c, DISABLE_CLK_DIVIDE_BY_5);
    assert c0 == c.(divideBy5 := false);
    var c1 := Step(b, c0, SET_TCK_DIVISOR);
    assert c1 == c0.(phase := DivisorLow);
    var c2 := Step(b, c1, low);
    assert c2 == c0.(phase := DivisorHigh(ToNat(low)));
  }
}
