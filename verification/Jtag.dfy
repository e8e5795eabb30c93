/**
  The JTAG TAP controller (section 6.1 of IEEE 1149.1) as the adapter tracks it,
  and walks of it along a vector of TMS bits.
*/
module Jtag {

  datatype Tap =
    | TestLogicReset | RunTestIdle
    | SelectDr | CaptureDr | ShiftDr | Exit1Dr | PauseDr | Exit2Dr | UpdateDr
    | SelectIr | CaptureIr | ShiftIr | Exit1Ir | PauseIr | Exit2Ir | UpdateIr

  function Next(s: Tap, tms: bool): Tap {
    match s
    case TestLogicReset => if tms then TestLogicReset else RunTestIdle
    case RunTestIdle => if tms then SelectDr else RunTestIdle
    case SelectDr => if tms then SelectIr else CaptureDr
    case CaptureDr => if tms then Exit1Dr else ShiftDr
    case ShiftDr => if tms then Exit1Dr else ShiftDr
    case Exit1Dr => if tms then UpdateDr else PauseDr
    case PauseDr => if tms then Exit2Dr else PauseDr
    case Exit2Dr => if tms then UpdateDr else ShiftDr
    case UpdateDr => if tms then SelectDr else RunTestIdle
    case SelectIr => if tms then TestLogicReset else CaptureIr
    case CaptureIr => if tms then Exit1Ir else ShiftIr
    case ShiftIr => if tms then Exit1Ir else ShiftIr
    case Exit1Ir => if tms then UpdateIr else PauseIr
    case PauseIr => if tms then Exit2Ir else PauseIr
    case Exit2Ir => if tms then UpdateIr else ShiftIr
    case UpdateIr => if tms then SelectDr else RunTestIdle
  }

  predicate InShift(s: Tap) {
    s == ShiftDr || s == ShiftIr
  }

  /** The Shift states are the two that follow a Capture state on TMS low, and no others. */
  lemma ShiftFollowsCapture(s: Tap)
    ensures InShift(s) <==> s == Next(CaptureDr, false) || s == Next(CaptureIr, false)
  {
  }

  /** The state of the instruction column in the place of a state of the data column. */
  function Mirror(s: Tap): Tap {
    match s
    case CaptureDr => CaptureIr case ShiftDr => ShiftIr case Exit1Dr => Exit1Ir
    case PauseDr => PauseIr case Exit2Dr => Exit2Ir case UpdateDr => UpdateIr
    case _ => s
  }

  /** The instruction column works like the data column, which is entered from Select-IR instead of Select-DR. */
  lemma ColumnsMirror(s: Tap, tms: bool)
    requires s in {CaptureDr, ShiftDr, Exit1Dr, PauseDr, Exit2Dr, UpdateDr}
    ensures Next(Mirror(s), tms) == Mirror(Next(s, tms))
    ensures Next(SelectIr, false) == Mirror(Next(SelectDr, false)) && Next(SelectDr, true) == SelectIr
  {
  }

  /** From Run-Test/Idle and back: TMS 1, 0, 0 reaches Shift-DR, which lasts while TMS is low, and 1, 1, 0 leaves it. */
  lemma DataScanPath()
    ensures Next(Next(Next(RunTestIdle, true), false), false) == ShiftDr && Next(ShiftDr, false) == ShiftDr
    ensures Next(Next(Next(ShiftDr, true), true), false) == RunTestIdle && Next(RunTestIdle, false) == RunTestIdle
    ensures Next(Next(Next(ShiftDr, true), false), false) == PauseDr && Next(Next(PauseDr, true), false) == ShiftDr
    ensures Next(Next(PauseDr, true), true) == Next(Next(ShiftDr, true), true) == UpdateDr
    ensures Next(CaptureDr, true) == Exit1Dr == Next(ShiftDr, true) && Next(TestLogicReset, false) == RunTestIdle
  {
  }

  /** The state after the TMS bits [lo, hi). */
  function Walk(s: Tap, tms: seq<bool>, lo: nat, hi: nat): Tap
    requires lo <= hi <= |tms|
    decreases hi
  {
    if lo == hi then s else Next(Walk(s, tms, lo, hi - 1), tms[hi - 1])
  }

  lemma WalkNone(s: Tap, tms: seq<bool>, lo: nat)
    requires lo <= |tms|
    ensures Walk(s, tms, lo, lo) == s
  {
  }

  lemma {:induction false} WalkSplit(s: Tap, tms: seq<bool>, lo: nat, mid: nat, hi: nat)
    requires lo <= mid <= hi <= |tms|
    ensures Walk(s, tms, lo, hi) == Walk(Walk(s, tms, lo, mid), tms, mid, hi)
    decreases hi
  {
    if mid < hi {
      WalkSplit(s, tms, lo, mid, hi - 1);
    }
  }

  lemma WindowPrefix(x: seq<bool>, i: nat, y: seq<bool>, j: nat, n: nat)
    requires 0 < n && i + n <= |x| && j + n <= |y|
    requires x[i..i + n] == y[j..j + n]
    ensures x[i..i + n - 1] == y[j..j + n - 1] && x[i + n - 1] == y[j + n - 1]
  {
    assert x[i..i + n][..n - 1] == x[i..i + n - 1] && y[j..j + n][..n - 1] == y[j..j + n - 1];
    assert x[i..i + n][n - 1] == x[i + n - 1] && y[j..j + n][n - 1] == y[j + n - 1];
  }

  /** Only the bits walked over matter, not where they are stored. */
  lemma {:induction false} WalkWindow(s: Tap, a: seq<bool>, i: nat, b: seq<bool>, j: nat, n: nat)
    requires i + n <= |a| && j + n <= |b|
    requires a[i..i + n] == b[j..j + n]
    ensures Walk(s, a, i, i + n) == Walk(s, b, j, j + n)
    decreases n
  {
    if n > 0 {
      WindowPrefix(a, i, b, j, n);
      WalkWindow(s, a, i, b, j, n - 1);
    }
  }

  /** Every state in which one of the bits [lo, hi) is clocked is (or is not) a Shift state. */
  ghost predicate Uniform(s: Tap, tms: seq<bool>, lo: nat, hi: nat, shift: bool)
    requires lo <= hi <= |tms|
  {
    forall j :: lo <= j < hi ==> InShift(Walk(s, tms, lo, j)) == shift
  }

  lemma UniformSplit(s: Tap, tms: seq<bool>, lo: nat, mid: nat, hi: nat, shift: bool)
    requires lo <= mid <= hi <= |tms|
    requires Uniform(s, tms, lo, hi, shift)
    ensures Uniform(s, tms, lo, mid, shift)
    ensures Uniform(Walk(s, tms, lo, mid), tms, mid, hi, shift)
    ensures Walk(Walk(s, tms, lo, mid), tms, mid, hi) == Walk(s, tms, lo, hi)
  {
    forall j | mid <= j < hi ensures InShift(Walk(Walk(s, tms, lo, mid), tms, mid, j)) == shift {
      WalkSplit(s, tms, lo, mid, j);
    }
    WalkSplit(s, tms, lo, mid, hi);
  }

  /** Inside a Shift segment TMS is low, except that its last bit may end it. */
  lemma ShiftSegmentTms(s: Tap, tms: seq<bool>, lo: nat, hi: nat, j: nat)
    requires lo <= j < j + 1 < hi <= |tms|
    requires Uniform(s, tms, lo, hi, true)
    ensures !tms[j]
  {
    assert InShift(Walk(s, tms, lo, j)) && InShift(Walk(s, tms, lo, j + 1));
  }

  /** A Shift state is left exactly by TMS high. */
  lemma LeavesShiftIffHigh(s: Tap, tms: bool)
    requires InShift(s)
    ensures InShift(Next(s, tms)) <==> !tms
  {
  }

  lemma EntersShiftLow(s: Tap, tms: bool)
    requires InShift(Next(s, tms))
    ensures !tms
  {
  }

  /** Five TMS ones reset the TAP from any state. */
  lemma FiveOnesReset(s: Tap)
    ensures Next(Next(Next(Next(Next(s, true), true), true), true), true) == TestLogicReset
  {
    var s1 := Next(s, true);
    var s2 := Next(s1, true);
    var s3 := Next(s2, true);
    var s4 := Next(s3, true);
  }

  /** The least number of clocks to a Shift state, capped at three. */
  function ToShift(s: Tap): nat {
    match s
    case ShiftDr => 0 case ShiftIr => 0
    case CaptureDr => 1 case CaptureIr => 1 case Exit2Dr => 1 case Exit2Ir => 1
    case SelectDr => 2 case SelectIr => 2 case PauseDr => 2 case PauseIr => 2
    case _ => 3
  }

  lemma ToShiftSmall(s: Tap)
    ensures ToShift(s) <= 3
  {
  }

  lemma ToShiftStep(s: Tap, tms: bool)
    ensures ToShift(Next(s, tms)) + 1 >= ToShift(s)
    ensures InShift(s) <==> ToShift(s) == 0
    ensures InShift(s) && tms ==> ToShift(Next(s, tms)) == 3
  {
  }

  /** After leaving Shift at least three more clocks pass before Shift is reached again. */
  lemma {:induction false} ToShiftWalk(s: Tap, tms: seq<bool>, lo: nat, hi: nat)
    requires lo <= hi <= |tms|
    ensures ToShift(Walk(s, tms, lo, hi)) + (hi - lo) >= ToShift(s)
    decreases hi
  {
    if lo < hi {
      ToShiftWalk(s, tms, lo, hi - 1);
      ToShiftStep(Walk(s, tms, lo, hi - 1), tms[hi - 1]);
    }
  }
}
