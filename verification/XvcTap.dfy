/** The XVC handler's own TAP tracker: a table of state numbers, walked a TMS byte at a time. */
module XvcTap {
  import opened Bytes
  import opened Jtag

  type JtagState = n: nat | n < 16

  const JTAG_TEST_LOGIC_RESET: JtagState := 0
  const JTAG_RUN_TEST_IDLE: JtagState := 1
  const JTAG_CAPTURE_DR: JtagState := 3
  const JTAG_EXIT1_DR: JtagState := 5
  const JTAG_CAPTURE_IR: JtagState := 10
  const JTAG_EXIT1_IR: JtagState := 12

  /** For each state, the next one on TMS low and on TMS high. */
  const NEXT_STATE: seq<(JtagState, JtagState)> := [
    (1, 0), (1, 2), (3, 9), (4, 5), (4, 5), (6, 8), (6, 7), (4, 8),
    (1, 2), (10, 0), (11, 12), (11, 12), (13, 15), (13, 14), (11, 15), (1, 2)
  ]

  function JtagStep(state: JtagState, tms: bool): JtagState {
    if tms then NEXT_STATE[state].1 else NEXT_STATE[state].0
  }

  /** The number the handler gives a TAP state. */
  function Number(s: Tap): JtagState {
    match s
    case TestLogicReset => 0 case RunTestIdle => 1 case SelectDr => 2 case CaptureDr => 3
    case ShiftDr => 4 case Exit1Dr => 5 case PauseDr => 6 case Exit2Dr => 7
    case UpdateDr => 8 case SelectIr => 9 case CaptureIr => 10 case ShiftIr => 11
    case Exit1Ir => 12 case PauseIr => 13 case Exit2Ir => 14 case UpdateIr => 15
  }

  /** The TAP state behind a number. */
  function StateOf(n: JtagState): (s: Tap)
    ensures Number(s) == n
  {
    match n
    case 0 => TestLogicReset case 1 => RunTestIdle case 2 => SelectDr case 3 => CaptureDr
    case 4 => ShiftDr case 5 => Exit1Dr case 6 => PauseDr case 7 => Exit2Dr
    case 8 => UpdateDr case 9 => SelectIr case 10 => CaptureIr case 11 => ShiftIr
    case 12 => Exit1Ir case 13 => PauseIr case 14 => Exit2Ir case 15 => UpdateIr
  }

  lemma NumberInjective(s: Tap)
    ensures StateOf(Number(s)) == s
  {
  }

  /** The handler's table and the adapter's switch are the same machine. */
  lemma TablesAgree(s: Tap, tms: bool)
    ensures JtagStep(Number(s), tms) == Number(Next(s, tms))
  {
  }

  /** The reference for the byte-wise walk: one table step per TMS bit. */
  function Steps(state: JtagState, tms: seq<bool>, lo: nat, hi: nat): JtagState
    requires lo <= hi <= |tms|
    decreases hi
  {
    if lo == hi then state else JtagStep(Steps(state, tms, lo, hi - 1), tms[hi - 1])
  }

  lemma {:induction false} StepsAreWalk(s: Tap, tms: seq<bool>, lo: nat, hi: nat)
    requires lo <= hi <= |tms|
    ensures Steps(Number(s), tms, lo, hi) == Number(Walk(s, tms, lo, hi))
    decreases hi
  {
    hide JtagStep, Number, Next;
    if lo < hi {
      StepsAreWalk(s, tms, lo, hi - 1);
      TablesAgree(Walk(s, tms, lo, hi - 1), tms[hi - 1]);
    }
  }

  /** Eight steps along one TMS byte. */
  method StepByte(state: JtagState, tmsBuf: seq<byte>, byteIdx: nat, n: nat, ghost start: JtagState)
      returns (r: JtagState)
    requires n <= 8 && byteIdx < |tmsBuf|
    requires state == Steps(start, Bits(tmsBuf), 0, 8 * byteIdx)
    ensures r == Steps(start, Bits(tmsBuf), 0, 8 * byteIdx + n)
  {
    hide Bits, Bit, JtagStep;
    r := state;
    var tmsByte := tmsBuf[byteIdx];
    ghost var t := Bits(tmsBuf);
    forall k | 0 <= k < 8 ensures Bit(tmsByte, k) == t[8 * byteIdx + k] {
      BitsAt(tmsBuf, 8 * byteIdx + k);
    }
    for j := 0 to n
      invariant r == Steps(start, t, 0, 8 * byteIdx + j)
      invariant forall k :: 0 <= k < 8 - j ==> Bit(tmsByte, k) == t[8 * byteIdx + j + k]
    {
      assert Bit(tmsByte, 0) == t[8 * byteIdx + j + 0];
      r := JtagStep(r, Bit(tmsByte, 0));
      ghost var was := tmsByte;
      tmsByte := tmsByte >> 1;
      forall k | 0 <= k < 8 - (j + 1) ensures Bit(tmsByte, k) == t[8 * byteIdx + (j + 1) + k] {
        BitOfShiftRight(was, 1, k);
        assert Bit(was, k + 1) == t[8 * byteIdx + j + (k + 1)];
      }
    }
  }

  /** The handler's fast walk: whole TMS bytes while eight bits are left, then the rest. */
  method TrackTap(state: JtagState, tmsBuf: seq<byte>, len: nat) returns (r: JtagState)
    requires len < 8 * |tmsBuf|
    ensures r == Steps(state, Bits(tmsBuf), 0, len)
  {
    hide Bits;
    r := state;
    var byteIdx, bitIdx := 0, 0;
    while len - bitIdx >= 8
      invariant bitIdx == 8 * byteIdx <= len
      invariant r == Steps(state, Bits(tmsBuf), 0, bitIdx)
    {
      r := StepByte(r, tmsBuf, byteIdx, 8, state);
      byteIdx, bitIdx := byteIdx + 1, bitIdx + 8;
    }
    r := StepByte(r, tmsBuf, byteIdx, len - bitIdx, state);
  }

  /** Two trackers in any two states agree after five TMS ones, and from then on. */
  lemma {:induction false} TrackersMeet(s: Tap, u: Tap, tms: seq<bool>, lo: nat, k: nat, hi: nat)
    requires lo <= k && k + 5 <= hi <= |tms|
    requires tms[k] && tms[k + 1] && tms[k + 2] && tms[k + 3] && tms[k + 4]
    ensures Walk(s, tms, lo, hi) == Walk(u, tms, lo, hi)
    decreases hi
  {
    hide Next;
    if hi > k + 5 {
      TrackersMeet(s, u, tms, lo, k, hi - 1);
    } else {
      FiveOnesWalk(s, tms, lo, k);
      FiveOnesWalk(u, tms, lo, k);
    }
  }

  lemma FiveOnesWalk(s: Tap, tms: seq<bool>, lo: nat, k: nat)
    requires lo <= k && k + 5 <= |tms|
    requires tms[k] && tms[k + 1] && tms[k + 2] && tms[k + 3] && tms[k + 4]
    ensures Walk(s, tms, lo, k + 5) == TestLogicReset
  {
    hide Next;
    FiveOnesReset(Walk(s, tms, lo, k));
    assert Walk(s, tms, lo, k + 1) == Next(Walk(s, tms, lo, k), true);
    assert Walk(s, tms, lo, k + 2) == Next(Walk(s, tms, lo, k + 1), true);
    assert Walk(s, tms, lo, k + 3) == Next(Walk(s, tms, lo, k + 2), true);
    assert Walk(s, tms, lo, k + 4) == Next(Walk(s, tms, lo, k + 3), true);
    assert Walk(s, tms, lo, k + 5) == Next(Walk(s, tms, lo, k + 4), true);
  }
}
