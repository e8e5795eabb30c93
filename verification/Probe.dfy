/**
  The reference machine: JTAG one clock at a time. Each tick drives one (TMS, TDI)
  pair into the board, samples TDO, and keeps the sample when the TAP is shifting.
  This is what a scan means; nothing here knows about MPSSE commands.
*/
module Probe {
  import opened Bytes
  import opened Jtag

  /** One TCK cycle as seen on the wires. */
  datatype Clock = Clock(tms: bool, tdi: bool, tdo: bool)

  /**
    What is attached to the chip. `sample` gives TDO for the next cycle after any
    history of cycles, so any target is covered. `noise` gives the bits of answer byte
    number i that the chip leaves undefined.
  */
  datatype Board = Board(sample: (seq<Clock>, bool, bool) -> bool, noise: nat -> byte)

  /** The wave after one more cycle. */
  function Clocked(b: Board, wave: seq<Clock>, tms: bool, tdi: bool): (r: seq<Clock>)
    ensures |r| == |wave| + 1 && wave <= r
  {
    wave + [Clock(tms, tdi, b.sample(wave, tms, tdi))]
  }

  /** TAP state, level left on TDI, all cycles so far, and the TDO vector being collected. */
  datatype View = View(tap: Tap, lastTdi: bool, wave: seq<Clock>, tdo: seq<bool>)

  /** One reference clock for bit `i`. Outside Shift the TDI vector is ignored and TDI keeps its level. */
  function Tick(b: Board, v: View, i: nat, tms: bool, tdi: bool): View
    requires i < |v.tdo|
  {
    var shift := InShift(v.tap);
    var level := if shift then tdi else v.lastTdi;
    var wave := Clocked(b, v.wave, tms, level);
    View(Next(v.tap, tms), level, wave, if shift then v.tdo[i := wave[|v.wave|].tdo] else v.tdo)
  }

  /** The bits [lo, hi) clocked one after the other. */
  function Play(b: Board, v: View, tms: seq<bool>, tdi: seq<bool>, lo: nat, hi: nat): (r: View)
    requires lo <= hi <= |v.tdo| && hi <= |tms| && hi <= |tdi|
    ensures |r.tdo| == |v.tdo|
    ensures v.wave <= r.wave && |r.wave| == |v.wave| + (hi - lo)
    decreases hi
  {
    if lo == hi then v else Tick(b, Play(b, v, tms, tdi, lo, hi - 1), hi - 1, tms[hi - 1], tdi[hi - 1])
  }

  lemma PlayNone(b: Board, v: View, tms: seq<bool>, tdi: seq<bool>, lo: nat)
    requires lo <= |v.tdo| && lo <= |tms| && lo <= |tdi|
    ensures Play(b, v, tms, tdi, lo, lo) == v
  {
  }

  lemma {:induction false} PlaySplit(b: Board, v: View, tms: seq<bool>, tdi: seq<bool>, lo: nat, mid: nat, hi: nat)
    requires lo <= mid <= hi <= |v.tdo| && hi <= |tms| && hi <= |tdi|
    ensures Play(b, v, tms, tdi, lo, hi) == Play(b, Play(b, v, tms, tdi, lo, mid), tms, tdi, mid, hi)
    decreases hi
  {
    if mid < hi {
      PlaySplit(b, v, tms, tdi, lo, mid, hi - 1);
    }
  }

  lemma {:induction false} PlayTap(b: Board, v: View, tms: seq<bool>, tdi: seq<bool>, lo: nat, hi: nat)
    requires lo <= hi <= |v.tdo| && hi <= |tms| && hi <= |tdi|
    ensures Play(b, v, tms, tdi, lo, hi).tap == Walk(v.tap, tms, lo, hi)
    decreases hi
  {
    hide Next, InShift;
    if lo < hi {
      PlayTap(b, v, tms, tdi, lo, hi - 1);
    }
  }

  /** The level on TDI at cycle i: the last bit shifted among [lo, i), or the level before. */
  function Held(s: Tap, last: bool, tms: seq<bool>, tdi: seq<bool>, lo: nat, i: nat): bool
    requires lo <= i <= |tms| && i <= |tdi|
    decreases i
  {
    if i == lo then last
    else if InShift(Walk(s, tms, lo, i - 1)) then tdi[i - 1]
    else Held(s, last, tms, tdi, lo, i - 1)
  }

  lemma {:induction false} PlayHeld(b: Board, v: View, tms: seq<bool>, tdi: seq<bool>, lo: nat, hi: nat)
    requires lo <= hi <= |v.tdo| && hi <= |tms| && hi <= |tdi|
    ensures Play(b, v, tms, tdi, lo, hi).lastTdi == Held(v.tap, v.lastTdi, tms, tdi, lo, hi)
    decreases hi
  {
    hide Next, InShift;
    if lo < hi {
      PlayHeld(b, v, tms, tdi, lo, hi - 1);
      PlayTap(b, v, tms, tdi, lo, hi - 1);
    }
  }

  /**
    The reference machine cycle by cycle: cycle i drives TMS bit i, drives TDI bit i while
    shifting and the held level otherwise, and samples the board after exactly the cycles before it.
  */
  lemma {:induction false} PlayCycle(b: Board, v: View, tms: seq<bool>, tdi: seq<bool>, lo: nat, hi: nat, i: nat)
    requires lo <= i < hi <= |v.tdo| && hi <= |tms| && hi <= |tdi|
    ensures var w := Play(b, v, tms, tdi, lo, hi).wave;
      var k := |v.wave| + (i - lo);
      && w[k].tms == tms[i]
      && w[k].tdi == (if InShift(Walk(v.tap, tms, lo, i)) then tdi[i] else Held(v.tap, v.lastTdi, tms, tdi, lo, i))
      && w[k].tdo == b.sample(w[..k], w[k].tms, w[k].tdi)
    decreases hi
  {
    hide Next, InShift;
    var p := Play(b, v, tms, tdi, lo, hi - 1);
    var w := Play(b, v, tms, tdi, lo, hi).wave;
    if i == hi - 1 {
      PlayHeld(b, v, tms, tdi, lo, i);
      PlayTap(b, v, tms, tdi, lo, i);
      assert w[..|p.wave|] == p.wave;
    } else {
      PlayCycle(b, v, tms, tdi, lo, hi - 1, i);
      var k := |v.wave| + (i - lo);
      assert w[..k] == p.wave[..k];
    }
  }

  /** TDO bit i is the sample of cycle i when that cycle shifted; every other bit keeps its value. */
  lemma {:induction false} PlayTdo(b: Board, v: View, tms: seq<bool>, tdi: seq<bool>, lo: nat, hi: nat, i: nat)
    requires lo <= hi <= |v.tdo| && hi <= |tms| && hi <= |tdi| && i < |v.tdo|
    ensures var r := Play(b, v, tms, tdi, lo, hi);
      r.tdo[i] == if lo <= i < hi && InShift(Walk(v.tap, tms, lo, i)) then r.wave[|v.wave| + (i - lo)].tdo else v.tdo[i]
    decreases hi
  {
    hide Next, InShift;
    if lo < hi {
      PlayTdo(b, v, tms, tdi, lo, hi - 1, i);
      PlayTap(b, v, tms, tdi, lo, hi - 1);
    }
  }

  /** What is held on TDI is the bit shifted last, or the level from before when none was. */
  lemma {:induction false} HeldIsLastShifted(s: Tap, last: bool, tms: seq<bool>, tdi: seq<bool>, lo: nat, i: nat,
                                             j: nat)
    requires lo <= j <= i <= |tms| && i <= |tdi|
    requires forall k :: j <= k < i ==> !InShift(Walk(s, tms, lo, k))
    ensures j > lo && InShift(Walk(s, tms, lo, j - 1)) ==> Held(s, last, tms, tdi, lo, i) == tdi[j - 1]
    ensures j == lo ==> Held(s, last, tms, tdi, lo, i) == last
    decreases i
  {
    hide Walk, InShift;
    if j < i {
      HeldIsLastShifted(s, last, tms, tdi, lo, i - 1, j);
    }
  }

  /** The state that follows a Capture state on TMS low: Shift-DR or Shift-IR. */
  predicate AfterCapture(s: Tap) {
    s == Next(CaptureDr, false) || s == Next(CaptureIr, false)
  }

  /**
    A scan in terms of the TAP alone. A cycle that starts in Shift-DR or Shift-IR drives its own TDI bit, and
    its sample lands in its own TDO bit; a cycle that starts in any other state leaves its TDO bit alone.
  */
  lemma ScanCycle(b: Board, v: View, tms: seq<bool>, tdi: seq<bool>, lo: nat, hi: nat, i: nat)
    requires lo <= i < hi <= |v.tdo| && hi <= |tms| && hi <= |tdi|
    ensures var r, s, k := Play(b, v, tms, tdi, lo, hi), Walk(v.tap, tms, lo, i), |v.wave| + (i - lo);
      && r.wave[k].tms == tms[i] && r.wave[k].tdo == b.sample(r.wave[..k], tms[i], r.wave[k].tdi)
      && (AfterCapture(s) ==> r.wave[k].tdi == tdi[i] && r.tdo[i] == r.wave[k].tdo)
      && (!AfterCapture(s) ==> r.tdo[i] == v.tdo[i])
  {
    hide Play, Walk, Next, InShift, Held;
    ShiftFollowsCapture(Walk(v.tap, tms, lo, i));
    PlayCycle(b, v, tms, tdi, lo, hi, i);
    PlayTdo(b, v, tms, tdi, lo, hi, i);
  }

  /**
    A cycle that starts in any other state drives the TDI bit shifted last, here bit j - 1, or the level
    from before.
  */
  lemma HeldCycle(b: Board, v: View, tms: seq<bool>, tdi: seq<bool>, lo: nat, hi: nat, j: nat, i: nat)
    requires lo <= j <= i < hi <= |v.tdo| && hi <= |tms| && hi <= |tdi|
    requires forall m :: j <= m <= i ==> !AfterCapture(Walk(v.tap, tms, lo, m))
    requires j > lo ==> AfterCapture(Walk(v.tap, tms, lo, j - 1))
    ensures Play(b, v, tms, tdi, lo, hi).wave[|v.wave| + (i - lo)].tdi == if j > lo then tdi[j - 1] else v.lastTdi
  {
    hide Play, Walk, Next, InShift, Held, AfterCapture;
    PlayCycle(b, v, tms, tdi, lo, hi, i);
    forall m | j <= m <= i ensures !InShift(Walk(v.tap, tms, lo, m)) {
      ShiftIsAfterCapture(Walk(v.tap, tms, lo, m));
    }
    if j > lo {
      ShiftIsAfterCapture(Walk(v.tap, tms, lo, j - 1));
    }
    HeldIsLastShifted(v.tap, v.lastTdi, tms, tdi, lo, i, j);
  }

  lemma ShiftIsAfterCapture(s: Tap)
    ensures InShift(s) == AfterCapture(s)
  {
    ShiftFollowsCapture(s);
  }

  /** The TAP state of a target that started in `s` and saw every cycle of the wave. */
  function TargetTap(s: Tap, wave: seq<Clock>): Tap
    decreases |wave|
  {
    if wave == [] then s else Next(TargetTap(s, wave[..|wave| - 1]), wave[|wave| - 1].tms)
  }

  lemma TickTracksTarget(b: Board, v: View, s: Tap, i: nat, tms: bool, tdi: bool)
    requires i < |v.tdo| && TargetTap(s, v.wave) == v.tap
    ensures TargetTap(s, Tick(b, v, i, tms, tdi).wave) == Tick(b, v, i, tms, tdi).tap
  {
    hide Next, InShift;
    var w := Tick(b, v, i, tms, tdi).wave;
    assert w[..|w| - 1] == v.wave;
  }

  /** A target in the tracked state stays in the tracked state. */
  lemma {:induction false} PlayTracksTarget(b: Board, v: View, s: Tap, tms: seq<bool>, tdi: seq<bool>, lo: nat, hi: nat)
    requires lo <= hi <= |v.tdo| && hi <= |tms| && hi <= |tdi|
    requires TargetTap(s, v.wave) == v.tap
    ensures TargetTap(s, Play(b, v, tms, tdi, lo, hi).wave) == Play(b, v, tms, tdi, lo, hi).tap
    decreases hi
  {
    hide Tick, TargetTap;
    if lo < hi {
      PlayTracksTarget(b, v, s, tms, tdi, lo, hi - 1);
      TickTracksTarget(b, Play(b, v, tms, tdi, lo, hi - 1), s, hi - 1, tms[hi - 1], tdi[hi - 1]);
    }
  }

  /** Shifted vectors: clocking [i, i + n) of one pair of vectors is clocking [j, j + n) of the other. */
  lemma {:induction false} PlayWindow(b: Board, v: View, tms: seq<bool>, tdi: seq<bool>, i: nat,
                                      u: View, tms': seq<bool>, tdi': seq<bool>, j: nat, n: nat)
    requires i + n <= |v.tdo| && i + n <= |tms| && i + n <= |tdi|
    requires j + n <= |u.tdo| && j + n <= |tms'| && j + n <= |tdi'|
    requires tms[i..i + n] == tms'[j..j + n] && tdi[i..i + n] == tdi'[j..j + n]
    requires u.tap == v.tap && u.lastTdi == v.lastTdi && u.wave == v.wave
    ensures var p, q := Play(b, v, tms, tdi, i, i + n), Play(b, u, tms', tdi', j, j + n);
      p.tap == q.tap && p.lastTdi == q.lastTdi && p.wave == q.wave
    decreases n
  {
    hide Next, InShift;
    if n > 0 {
      WindowPrefix(tms, i, tms', j, n);
      WindowPrefix(tdi, i, tdi', j, n);
      PlayWindow(b, v, tms, tdi, i, u, tms', tdi', j, n - 1);
    }
  }
}
