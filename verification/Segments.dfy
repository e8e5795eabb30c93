/**
  What a scan amounts to before any of it is sent: where the vector is cut into segments, the
  exact bytes each segment becomes, and the observer pool the whole vector takes.
*/
module Segments {
  import opened Bytes
  import opened Jtag
  import opened Probe
  import opened Chip
  import opened Observers
  import opened ShiftRun
  import opened LongRuns

  /** The arguments of a scan, the state it starts in, and the largest byte command. */
  datatype Vectors = Vectors(tap: Tap, last: bool, tms: seq<byte>, tdi: seq<byte>, bits: nat, limit: nat)

  predicate Proper(q: Vectors) {
    q.bits <= 8 * |q.tms| && q.bits <= 8 * |q.tdi| && 1 <= q.limit <= 0x1_0000
  }

  /** n TMS bits from bit 0 up, TDI in bit 7, the rest clear. */
  function TmsBits(tms: seq<byte>, from: nat, n: nat, last: bool): (s: seq<bool>)
    requires n <= 6 && from + n <= 8 * |tms|
    ensures |s| == 8
  {
    seq(8, i requires 0 <= i < 8 => if i == 7 then last else i < n && Bits(tms)[from + i])
  }

  /** The data byte of a TMS command. */
  function TmsData(tms: seq<byte>, from: nat, n: nat, last: bool): byte
    requires n <= 6 && from + n <= 8 * |tms|
  {
    Pack(TmsBits(tms, from, n, last))
  }

  /** The commands of a stretch outside Shift, six TMS bits each as far as they go. */
  function TmsBytes(tms: seq<byte>, from: nat, end: nat, last: bool): seq<byte>
    requires from <= end <= 8 * |tms|
    decreases end - from
  {
    if from == end then []
    else
      var n := if end - from < 6 then end - from else 6;
      Command(CLK_TMS_NO_READ, n, TmsData(tms, from, n, last)) + TmsBytes(tms, from + n, end, last)
  }

  /** Three bytes for every six bits or part of six. */
  lemma {:induction false} TmsBytesLength(tms: seq<byte>, from: nat, end: nat, last: bool)
    requires from <= end <= 8 * |tms|
    ensures |TmsBytes(tms, from, end, last)| == 3 * ((end - from + 5) / 6)
    decreases end - from
  {
    hide TmsData;
    if from < end {
      TmsBytesLength(tms, if end - from < 6 then end else from + 6, end, last);
    }
  }

  /** One command more, and what is left. */
  lemma NextTmsBytes(tms: seq<byte>, from: nat, end: nat, last: bool, sent: seq<byte>)
    requires from <= end <= 8 * |tms|
    ensures from == end ==> sent + TmsBytes(tms, from, end, last) == sent
    ensures from < end ==>
      var n := if end - from < 6 then end - from else 6;
      sent + Command(CLK_TMS_NO_READ, n, TmsData(tms, from, n, last)) + TmsBytes(tms, from + n, end, last)
      == sent + TmsBytes(tms, from, end, last)
  {
    hide Command, TmsData;
  }

  /** Bit i ends a segment: the vector ends, or Shift is entered or left. */
  predicate Ends(tap: Tap, tms: seq<bool>, bits: nat, i: nat)
    requires i < bits <= |tms|
  {
    i == bits - 1 || InShift(Walk(tap, tms, 0, i)) != InShift(Walk(tap, tms, 0, i + 1))
  }

  /** After i bits, the bit at which the segment being gathered starts. */
  function FirstPending(tap: Tap, tms: seq<bool>, bits: nat, i: nat): (first: nat)
    requires i <= bits <= |tms|
    ensures first <= i && (i == bits ==> first == bits)
  {
    if i == 0 then 0 else if Ends(tap, tms, bits, i - 1) then i else FirstPending(tap, tms, bits, i - 1)
  }

  /** Every segment lies wholly on one side of the Shift boundary. */
  lemma {:induction false} SegmentIsUniform(tap: Tap, tms: seq<bool>, bits: nat, i: nat)
    requires i <= bits <= |tms|
    ensures var first := FirstPending(tap, tms, bits, i);
      Uniform(Walk(tap, tms, 0, first), tms, first, i, InShift(Walk(tap, tms, 0, i)))
    decreases i
  {
    hide Next, InShift;
    if i > 0 && !Ends(tap, tms, bits, i - 1) {
      SegmentIsUniform(tap, tms, bits, i - 1);
      WalkSplit(tap, tms, 0, FirstPending(tap, tms, bits, i), i - 1);
    }
  }

  /** The pool bytes taken for the segments that end within the first i bits. */
  function PoolUse(tap: Tap, tms: seq<bool>, bits: nat, i: nat): nat
    requires i <= bits <= |tms|
  {
    if i == 0 then 0
    else PoolUse(tap, tms, bits, i - 1) +
         if Ends(tap, tms, bits, i - 1) && InShift(Walk(tap, tms, 0, i - 1))
         then RunCost(CutRun(FirstPending(tap, tms, bits, i - 1), i)) else 0
  }

  lemma {:induction false} PoolUseGrows(tap: Tap, tms: seq<bool>, bits: nat, i: nat, j: nat)
    requires i <= j <= bits <= |tms|
    ensures PoolUse(tap, tms, bits, i) <= PoolUse(tap, tms, bits, j)
    decreases j
  {
    hide RunCost, CutRun, Ends, FirstPending;
    if i < j {
      PoolUseGrows(tap, tms, bits, i, j - 1);
    }
  }

  /** The clocks still to go before another Shift run can start, 3 at the end. */
  function Slack(tap: Tap, tms: seq<bool>, bits: nat, i: nat): nat
    requires i <= bits <= |tms|
  {
    if i == bits then 3 else ToShift(Walk(tap, tms, 0, i))
  }

  /** What one segment adds to the pool is paid for by its own clocks and the slack after it. */
  lemma SegmentPays(tap: Tap, tms: seq<bool>, bits: nat, first: nat, next: nat)
    requires first < next <= bits <= |tms| && Ends(tap, tms, bits, next - 1)
    requires Uniform(Walk(tap, tms, 0, first), tms, first, next, InShift(Walk(tap, tms, 0, next - 1)))
    ensures (if InShift(Walk(tap, tms, 0, next - 1)) then RunCost(CutRun(first, next)) else 0)
            + 28 * Slack(tap, tms, bits, first) <= 28 * (next - first) + 28 * Slack(tap, tms, bits, next)
  {
    hide RunCost, CutRun, Next, InShift, ToShift;
    var s, p := Walk(tap, tms, 0, first), Walk(tap, tms, 0, next - 1);
    WalkSplit(tap, tms, 0, first, next);
    WalkSplit(tap, tms, 0, first, next - 1);
    assert InShift(Walk(s, tms, first, first)) == InShift(p);
    RunCostBound(first, next);
    ToShiftWalk(s, tms, first, next);
    ToShiftStep(p, tms[next - 1]);
    ToShiftStep(s, true);
    ToShiftSmall(s);
    if InShift(p) {
      LeavesShiftIffHigh(p, tms[next - 1]);
    }
  }

  /** A vector takes at most 28 pool bytes for each of its bits, and 84 more. */
  lemma {:induction false} PoolUseBound(tap: Tap, tms: seq<bool>, bits: nat, i: nat)
    requires i <= bits <= |tms|
    ensures var first := FirstPending(tap, tms, bits, i);
      PoolUse(tap, tms, bits, i) <= 28 * first + 28 * Slack(tap, tms, bits, first)
    decreases i
  {
    hide RunCost, CutRun, Next, InShift, Slack, Ends, Walk, Uniform;
    if i > 0 {
      PoolUseBound(tap, tms, bits, i - 1);
      if Ends(tap, tms, bits, i - 1) {
        var first := FirstPending(tap, tms, bits, i - 1);
        SegmentIsUniform(tap, tms, bits, i - 1);
        UniformOneMore(tap, tms, first, i);
        SegmentPays(tap, tms, bits, first, i);
      }
    }
  }

  lemma UniformOneMore(tap: Tap, tms: seq<bool>, first: nat, next: nat)
    requires first < next <= |tms|
    requires Uniform(Walk(tap, tms, 0, first), tms, first, next - 1, InShift(Walk(tap, tms, 0, next - 1)))
    ensures Uniform(Walk(tap, tms, 0, first), tms, first, next, InShift(Walk(tap, tms, 0, next - 1)))
  {
    hide Next, InShift;
    WalkSplit(tap, tms, 0, first, next - 1);
  }

  /** The bytes of one segment, given whether it leaves Shift at its end and the level held on TDI. */
  function SegmentBytes(q: Vectors, first: nat, next: nat, isShift: bool, leaving: bool, level: bool): seq<byte>
    requires Proper(q) && first < next <= q.bits
  {
    if isShift then Sent(Emit(Job(q.tdi, first, next, leaving, q.limit), first))
    else TmsBytes(q.tms, first, next, level)
  }

  /** The bytes of all segments that end within the first i bits. */
  function ScanBytes(q: Vectors, i: nat): seq<byte>
    requires Proper(q) && i <= q.bits
  {
    if i == 0 then []
    else
      var t := Bits(q.tms);
      ScanBytes(q, i - 1) +
      if !Ends(q.tap, t, q.bits, i - 1) then []
      else
        var first, shift := FirstPending(q.tap, t, q.bits, i - 1), InShift(Walk(q.tap, t, 0, i - 1));
        SegmentBytes(q, first, i, shift, shift && !InShift(Walk(q.tap, t, 0, i)),
                     Held(q.tap, q.last, t, Bits(q.tdi), 0, first))
  }

  /** What the scan loop adds for bit i: its segment if it ends one, nothing otherwise. */
  lemma NextBit(q: Vectors, i: nat)
    requires Proper(q) && i < q.bits
    ensures var t := Bits(q.tms);
      var first, ends, shift := FirstPending(q.tap, t, q.bits, i), Ends(q.tap, t, q.bits, i),
          InShift(Walk(q.tap, t, 0, i));
      && FirstPending(q.tap, t, q.bits, i + 1) == (if ends then i + 1 else first)
      && PoolUse(q.tap, t, q.bits, i + 1) ==
         PoolUse(q.tap, t, q.bits, i) + (if ends && shift then RunCost(CutRun(first, i + 1)) else 0)
      && ScanBytes(q, i + 1) == (if !ends then ScanBytes(q, i) else
           ScanBytes(q, i) + SegmentBytes(q, first, i + 1, shift, shift && !InShift(Walk(q.tap, t, 0, i + 1)),
                                          Held(q.tap, q.last, t, Bits(q.tdi), 0, first)))
  {
    hide Bits, Walk, RunCost, CutRun, SegmentBytes, Held, Ends, InShift;
  }

  /** No Shift run within the bits [from, to) has more whole bytes than one MPSSE command can carry. */
  ghost predicate RunsFit(tap: Tap, tms: seq<bool>, from: nat, to: nat, room: nat)
    requires from <= to <= |tms|
  {
    forall lo, hi :: from <= lo < hi <= to && Uniform(Walk(tap, tms, 0, lo), tms, lo, hi, true) ==>
      CutRun(lo, hi).inner <= room
  }

  /** Stretches of up to `room` bytes always fit. */
  lemma ShortVectorFits(tap: Tap, tms: seq<bool>, from: nat, to: nat, room: nat)
    requires from <= to <= |tms| && to - from <= 8 * room
    ensures RunsFit(tap, tms, from, to, room)
  {
    forall lo, hi | from <= lo < hi <= to && Uniform(Walk(tap, tms, 0, lo), tms, lo, hi, true)
      ensures CutRun(lo, hi).inner <= room
    {
      CutCovers(lo, hi);
    }
  }

  /** Vectors of up to 65536 bytes never exhaust the pool. */
  lemma ShortVectorPools(tap: Tap, tms: seq<bool>, bits: nat)
    requires bits <= |tms| && bits <= 8 * 0x1_0000
    ensures PoolUse(tap, tms, bits, bits) <= POOL_SIZE
  {
    PoolUseBound(tap, tms, bits, bits);
  }
}
