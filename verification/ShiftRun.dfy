/** How a Shift run is cut into MPSSE commands, and how the cuts line up with the reference machine. */
module ShiftRun {
  import opened Bytes
  import opened Jtag
  import opened Probe
  import opened Chip
  import opened Observers

  lemma CommandLength(op: byte, n: nat, x: byte)
    requires 1 <= n <= 8
    ensures |Command(op, n, x)| == 3
  {
  }

  lemma HeaderLength(n: nat)
    requires 1 <= n <= 0x1_0000
    ensures |BytesHeader(n)| == 3
  {
  }

  /** TDI in bit 7, TMS in bit 0, and TMS once more in bit 1. */
  function LastByte(tdi: bool, tms: bool): (r: byte)
    ensures Bit(r, 0) == tms && Bit(r, 7) == tdi
  {
    ((if tdi then 1 else 0) as byte << 7) | ((if tms then 1 else 0) as byte << 1) | (if tms then 1 else 0) as byte
  }

  lemma LastByteBits(tdi: bool, tms: bool)
    ensures var r := LastByte(tdi, tms);
      && Bit(r, 0) == Bit(r, 1) == tms && Bit(r, 7) == tdi
      && forall i :: 2 <= i < 7 ==> !Bit(r, i)
  {
  }

  /** How a Shift run is cut into commands: bits up to a byte boundary, whole bytes, bits left over, the last bit. */
  datatype Cut = Cut(leading: nat, inner: nat, trailing: nat)

  function CutRun(fromBitIdx: nat, toBitIdx: nat): (c: Cut)
    requires fromBitIdx < toBitIdx
  {
    var last := toBitIdx - 1;
    var regular := last - fromBitIdx;
    var firstOctet := 8 - fromBitIdx % 8;
    var wanted := if firstOctet == 8 then 0 else firstOctet;
    var leading := if wanted < regular then wanted else regular;
    var leadingOnly := leading == regular;
    var innerEnd := if leadingOnly then -1 else last - last % 8;
    var trailing := if leadingOnly then 0 else last % 8;
    Cut(leading, if innerEnd > fromBitIdx then (innerEnd - (fromBitIdx + leading)) / 8 else 0, trailing)
  }

  /**
    The pieces cover the run once and in order, whole bytes sit on byte boundaries, and every length fits
    its field.
  */
  lemma CutCovers(fromBitIdx: nat, toBitIdx: nat)
    requires fromBitIdx < toBitIdx
    ensures var c := CutRun(fromBitIdx, toBitIdx);
      && fromBitIdx + c.leading + 8 * c.inner + c.trailing + 1 == toBitIdx
      && c.leading <= 7 && c.trailing <= 7
      && (c.leading > 0 ==> fromBitIdx % 8 + c.leading <= 8)
      && (c.inner > 0 || c.trailing > 0 ==> (fromBitIdx + c.leading) % 8 == 0)
  {
  }

  /** The vectors [lo, hi) belong to one Shift run during which the TMS pin stays where it is. */
  ghost predicate Shifting(tap: Tap, tms: seq<bool>, tdi: seq<bool>, tdo: seq<bool>, pin: bool, lo: nat, hi: nat) {
    && lo <= hi <= |tms| && hi <= |tdi| && hi <= |tdo|
    && Uniform(tap, tms, lo, hi, true)
    && forall i :: lo <= i < hi ==> tms[i] == pin
  }

  /** A piece of a Shift run continues the reference machine from where the pieces before it left it. */
  lemma Advance(b: Board, v: View, tms: seq<bool>, tdi: seq<bool>, from: nat, cur: nat, next: nat, to: nat)
    requires from <= cur <= next < to <= |v.tdo| && to <= |tms| && to <= |tdi|
    requires Uniform(v.tap, tms, from, to, true)
    ensures var m := Play(b, v, tms, tdi, from, cur);
      && Shifting(m.tap, tms, tdi, m.tdo, false, cur, next)
      && Play(b, m, tms, tdi, cur, next) == Play(b, v, tms, tdi, from, next)
  {
    hide Play, Uniform, Walk;
    PlaySplit(b, v, tms, tdi, from, cur, next);
    PlayTap(b, v, tms, tdi, from, cur);
    UniformSplit(v.tap, tms, from, cur, to, true);
    UniformSplit(Walk(v.tap, tms, from, cur), tms, cur, next, to, true);
    forall i | cur <= i < next ensures !tms[i] {
      ShiftSegmentTms(v.tap, tms, from, to, i);
    }
  }

  lemma LeadingByte(tdi: seq<byte>, from: nat, n: nat, x: byte)
    requires from % 8 + n <= 8 && from + n <= 8 * |tdi| && n > 0
    requires x == tdi[from / 8] >> (from % 8)
    ensures forall i :: 0 <= i < n ==> Bit(x, i) == Bits(tdi)[from + i]
  {
    hide Bit, Bits;
    forall i | 0 <= i < n ensures Bit(x, i) == Bits(tdi)[from + i] {
      BitOfShiftRight(tdi[from / 8], from % 8, i);
      BitsAt(tdi, from + i);
    }
  }

  lemma TrailingByte(tdi: seq<byte>, at: nat, n: nat)
    requires at % 8 == 0 && n < 8 && at + n <= 8 * |tdi| && n > 0
    ensures forall i :: 0 <= i < n ==> Bit(tdi[at / 8], i) == Bits(tdi)[at + i]
  {
    hide Bit, Bits;
    forall i | 0 <= i < n ensures Bit(tdi[at / 8], i) == Bits(tdi)[at + i] {
      BitsAt(tdi, at + i);
    }
  }

  /** The bytes of the four pieces of a run. */
  function LeadBytes(tdi: seq<byte>, from: nat, n: nat): seq<byte>
    requires n <= 8 && (n > 0 ==> from < 8 * |tdi|)
  {
    if n > 0 then Command(CLK_DATA_BITS, n, tdi[from / 8] >> (from % 8)) else []
  }

  function InnerBytes(tdi: seq<byte>, at: nat, n: nat): seq<byte>
    requires n <= 0x1_0000 && at + 8 * n <= 8 * |tdi|
  {
    if n > 0 then BytesHeader(n) + tdi[at / 8..at / 8 + n] else []
  }

  function TrailBytes(tdi: seq<byte>, at: nat, n: nat): seq<byte>
    requires n <= 8 && (n > 0 ==> at < 8 * |tdi|)
  {
    if n > 0 then Command(CLK_DATA_BITS, n, tdi[at / 8]) else []
  }

  function EndBytes(tdi: seq<byte>, at: nat, tms: bool): seq<byte>
    requires at < 8 * |tdi|
  {
    Command(CLK_TMS_READ_NEG, 1, LastByte(Bit(tdi[at / 8], at % 8), tms))
  }

  /** All bits of a run but the last, its whole bytes in one command. */
  function RegularBytes(tdi: seq<byte>, from: nat, to: nat): seq<byte>
    requires from < to <= 8 * |tdi| && CutRun(from, to).inner <= 0x1_0000
  {
    CutCovers(from, to);
    var c := CutRun(from, to);
    LeadBytes(tdi, from, c.leading) + InnerBytes(tdi, from + c.leading, c.inner)
        + TrailBytes(tdi, to - 1 - c.trailing, c.trailing)
  }

  /** The pieces of a run can be sent one by one, and a piece without bits can be skipped. */
  lemma RunRegular(b: Board, c: Chip, tdi: seq<byte>, from: nat, to: nat)
    requires from < to <= 8 * |tdi| && CutRun(from, to).inner <= 0x1_0000
    ensures (CutCovers(from, to); var cut := CutRun(from, to);
      var c1 := Run(b, c, LeadBytes(tdi, from, cut.leading));
      var c2 := Run(b, c1, InnerBytes(tdi, from + cut.leading, cut.inner));
      var c3 := Run(b, c2, TrailBytes(tdi, to - 1 - cut.trailing, cut.trailing));
      && c3 == Run(b, c, RegularBytes(tdi, from, to))
      && (cut.leading == 0 ==> c1 == c) && (cut.inner == 0 ==> c2 == c1) && (cut.trailing == 0 ==> c3 == c2))
  {
    hide Run, Command, BytesHeader, CutRun;
    CutCovers(from, to);
    var cut := CutRun(from, to);
    var lead, inner := LeadBytes(tdi, from, cut.leading), InnerBytes(tdi, from + cut.leading, cut.inner);
    var trail := TrailBytes(tdi, to - 1 - cut.trailing, cut.trailing);
    var c1 := Run(b, c, lead);
    RunConcat(b, c, lead, inner);
    RunConcat(b, c, lead + inner, trail);
    RunNone(b, c);
    RunNone(b, c1);
    RunNone(b, Run(b, c1, inner));
  }

  /** Pool bytes one Shift run takes. */
  function RunCost(c: Cut): nat {
    (if c.leading > 0 then BIT_COPIER_SIZE + NODE_SIZE else 0)
    + (if c.inner > 0 then BULK_COPIER_SIZE + NODE_SIZE else 0)
    + (if c.trailing > 0 then BIT_COPIER_SIZE + NODE_SIZE else 0)
    + BIT_COPIER_SIZE + NODE_SIZE
  }

  /** In numbers: 56 bytes for each bit-wise command and 48 for the whole bytes, out of 16 MiB. */
  lemma RunCostInBytes(c: Cut)
    ensures RunCost(c) == 56 * (1 + (if c.leading > 0 then 1 else 0) + (if c.trailing > 0 then 1 else 0))
                          + (if c.inner > 0 then 48 else 0)
    ensures POOL_SIZE == 16777216
  {
  }

  /** A run of n bits takes at most 28 pool bytes for each of its bits and the three clocks after it. */
  lemma RunCostBound(fromBitIdx: nat, toBitIdx: nat)
    requires fromBitIdx < toBitIdx
    ensures RunCost(CutRun(fromBitIdx, toBitIdx)) <= 28 * (toBitIdx - fromBitIdx + 3)
  {
    CutCovers(fromBitIdx, toBitIdx);
  }
}
