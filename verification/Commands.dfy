/**
  What each MPSSE command means on the reference machine: the cycles it clocks are the
  cycles of `Play` over a range of the vectors, and splicing its answer into the TDO
  vector is what `Play` collects. The noise bits of answers are never looked at.
*/
module Commands {
  import opened Bytes
  import opened Jtag
  import opened Probe
  import opened Chip

  lemma {:induction false} ClockTmsPlays(b: Board, v: View, tms: seq<bool>, tdi: seq<bool>, lo: nat, n: nat, x: byte)
    requires n <= 7 && lo + n <= |v.tdo| && lo + n <= |tms| && lo + n <= |tdi|
    requires Uniform(v.tap, tms, lo, lo + n, false)
    requires forall i :: 0 <= i < n ==> Bit(x, i) == tms[lo + i]
    requires Bit(x, 7) == v.lastTdi
    ensures Play(b, v, tms, tdi, lo, lo + n) ==
            v.(tap := Walk(v.tap, tms, lo, lo + n), wave := ClockTms(b, v.wave, x, n))
    decreases n
  {
    hide Bit;
    if n > 0 {
      assert Uniform(v.tap, tms, lo, lo + (n - 1), false);
      ClockTmsPlays(b, v, tms, tdi, lo, n - 1, x);
      assert !InShift(Walk(v.tap, tms, lo, lo + n - 1));
      assert Bit(x, n - 1) == tms[lo + (n - 1)];
    }
  }

  lemma {:induction false} ClockDataPlays(b: Board, v: View, tms: seq<bool>, tdi: seq<bool>, lo: nat, n: nat, x: byte,
                                          level: bool)
    requires n <= 8 && lo + n <= |v.tdo| && lo + n <= |tms| && lo + n <= |tdi|
    requires Uniform(v.tap, tms, lo, lo + n, true)
    requires forall i :: 0 <= i < n ==> Bit(x, i) == tdi[lo + i]
    requires forall i :: lo <= i < lo + n ==> tms[i] == level
    ensures Play(b, v, tms, tdi, lo, lo + n).wave == ClockData(b, v.wave, level, x, n)
    decreases n
  {
    hide Bit;
    if n > 0 {
      assert Uniform(v.tap, tms, lo, lo + (n - 1), true);
      ClockDataPlays(b, v, tms, tdi, lo, n - 1, x, level);
      PlayTap(b, v, tms, tdi, lo, lo + n - 1);
      assert InShift(Walk(v.tap, tms, lo, lo + n - 1));
      assert Bit(x, n - 1) == tdi[lo + (n - 1)];
    }
  }

  /** Collecting TDO while shifting is splicing the samples in. */
  lemma SamplesLand(b: Board, v: View, tms: seq<bool>, tdi: seq<bool>, lo: nat, n: nat, s: seq<bool>, off: nat)
    requires lo + n <= |v.tdo| && lo + n <= |tms| && lo + n <= |tdi| && off + n <= |s|
    requires Uniform(v.tap, tms, lo, lo + n, true)
    requires forall k :: off <= k < off + n ==> s[k] == Play(b, v, tms, tdi, lo, lo + n).wave[|v.wave| + (k - off)].tdo
    ensures Play(b, v, tms, tdi, lo, lo + n).tdo == Splice(v.tdo, lo, s, off, n)
  {
    hide Splice;
    var r := Play(b, v, tms, tdi, lo, lo + n);
    forall j | 0 <= j < |v.tdo| ensures r.tdo[j] == Splice(v.tdo, lo, s, off, n)[j] {
      PlayTdo(b, v, tms, tdi, lo, lo + n, j);
      SpliceAt(v.tdo, lo, s, off, n, j);
      if lo <= j < lo + n {
        var k := off + (j - lo);
        assert s[k] == r.wave[|v.wave| + (k - off)].tdo;
      }
    }
  }

  /** TMS without reading: a non-Shift stretch of at most seven bits. */
  lemma TmsCommandPlays(b: Board, c: Chip, v: View, tms: seq<bool>, tdi: seq<bool>, lo: nat, n: nat, x: byte)
    requires c.phase.Idle? && c.wave == v.wave
    requires 1 <= n <= 7 && lo + n <= |v.tdo| && lo + n <= |tms| && lo + n <= |tdi|
    requires Uniform(v.tap, tms, lo, lo + n, false)
    requires forall i :: 0 <= i < n ==> Bit(x, i) == tms[lo + i]
    requires Bit(x, 7) == v.lastTdi
    ensures var p := Play(b, v, tms, tdi, lo, lo + n);
      && Run(b, c, Command(CLK_TMS_NO_READ, n, x)) == c.(wave := p.wave, tms := tms[lo + n - 1])
      && p == v.(tap := p.tap, wave := p.wave)
  {
    hide Bit, Play, Run, Command;
    RunTmsBits(b, c, n, x);
    ClockTmsPlays(b, v, tms, tdi, lo, n, x);
    assert Bit(x, n - 1) == tms[lo + (n - 1)];
  }

  /** The bits of a one-byte answer, placed against the end of the wave. */
  lemma AnswerIsSamples(b: Board, wave: seq<Clock>, base: nat, n: nat, index: nat)
    requires n <= 8 && |wave| == base + n
    ensures forall k :: 8 - n <= k < 8 ==> Bits([Answer(b, wave, n, index)])[k] == wave[base + (k - (8 - n))].tdo
  {
    hide Bits, Answer, Bit;
    BitsOfOne(Answer(b, wave, n, index));
    forall k | 8 - n <= k < 8 ensures Bits([Answer(b, wave, n, index)])[k] == wave[base + (k - (8 - n))].tdo {
      AnswerBits(b, wave, n, index, k);
    }
  }

  /** Data bits with read: at most eight bits of a Shift stretch, TMS held low throughout. */
  lemma DataCommandPlays(b: Board, c: Chip, v: View, tms: seq<bool>, tdi: seq<bool>, lo: nat, n: nat, x: byte)
    requires c.phase.Idle? && c.wave == v.wave
    requires 1 <= n <= 8 && lo + n <= |v.tdo| && lo + n <= |tms| && lo + n <= |tdi|
    requires Uniform(v.tap, tms, lo, lo + n, true)
    requires forall i :: 0 <= i < n ==> Bit(x, i) == tdi[lo + i]
    requires forall i :: lo <= i < lo + n ==> tms[i] == c.tms
    ensures var p := Play(b, v, tms, tdi, lo, lo + n);
      var a := Answer(b, p.wave, n, |c.answers|);
      && Run(b, c, Command(CLK_DATA_BITS, n, x)) == c.(wave := p.wave, answers := c.answers + [a])
      && p.tdo == Splice(v.tdo, lo, Bits([a]), 8 - n, n)
  {
    hide Bit, Play, Run, Command, Bits, Answer, Splice;
    RunDataBits(b, c, n, x);
    ClockDataPlays(b, v, tms, tdi, lo, n, x, c.tms);
    var p := Play(b, v, tms, tdi, lo, lo + n);
    AnswerIsSamples(b, p.wave, |v.wave|, n, |c.answers|);
    SamplesLand(b, v, tms, tdi, lo, n, Bits([Answer(b, p.wave, n, |c.answers|)]), 8 - n);
  }

  /** The last bit of a Shift stretch goes out with its own TMS level. */
  lemma LastCommandPlays(b: Board, c: Chip, v: View, tms: seq<bool>, tdi: seq<bool>, lo: nat, x: byte)
    requires c.phase.Idle? && c.wave == v.wave
    requires lo + 1 <= |v.tdo| && lo + 1 <= |tms| && lo + 1 <= |tdi|
    requires InShift(v.tap)
    requires Bit(x, 0) == tms[lo] && Bit(x, 7) == tdi[lo]
    ensures var p := Play(b, v, tms, tdi, lo, lo + 1);
      var a := Answer(b, p.wave, 1, |c.answers|);
      && Run(b, c, Command(CLK_TMS_READ_NEG, 1, x)) == c.(wave := p.wave, tms := tms[lo], answers := c.answers + [a])
      && p.tdo == Splice(v.tdo, lo, Bits([a]), 7, 1)
      && p.lastTdi == tdi[lo]
  {
    hide Bit, Run, Command, Bits, Answer, Splice;
    RunLastBit(b, c, x);
    assert ClockTms(b, v.wave, x, 0) == v.wave;
    var p := Play(b, v, tms, tdi, lo, lo + 1);
    assert Play(b, v, tms, tdi, lo, lo) == v;
    assert p.wave == ClockTms(b, v.wave, x, 1);
    AnswerIsSamples(b, p.wave, |v.wave|, 1, |c.answers|);
    SamplesLand(b, v, tms, tdi, lo, 1, Bits([Answer(b, p.wave, 1, |c.answers|)]), 7);
  }

  /** What a stretch of whole bytes must achieve: `k` of the announced `total` bytes are through. */
  ghost predicate BytesDone(b: Board, c: Chip, r: Chip, v: View, tms: seq<bool>, tdi: seq<bool>, lo: nat, k: nat,
                            total: nat)
    requires k <= total && lo + 8 * k <= |v.tdo| && lo + 8 * k <= |tms| && lo + 8 * k <= |tdi|
  {
    var p := Play(b, v, tms, tdi, lo, lo + 8 * k);
    && r == c.(phase := if k == total then Idle else Payload(total - k), wave := p.wave, answers := r.answers)
    && c.answers <= r.answers && |r.answers| == |c.answers| + k
    && p.tdo == Splice(v.tdo, lo, Bits(r.answers[|c.answers|..]), 0, 8 * k)
  }

  /** One more payload byte on the reference machine. */
  lemma PayloadByte(b: Board, c: Chip, v: View, tms: seq<bool>, tdi: seq<bool>, lo: nat, left: nat, x: byte)
    requires left >= 1 && c.phase == Payload(left) && c.wave == v.wave
    requires lo + 8 <= |v.tdo| && lo + 8 <= |tms| && lo + 8 <= |tdi|
    requires Uniform(v.tap, tms, lo, lo + 8, true)
    requires Bits([x]) == tdi[lo..lo + 8]
    requires forall i :: lo <= i < lo + 8 ==> tms[i] == c.tms
    ensures var p := Play(b, v, tms, tdi, lo, lo + 8);
      var a := Answer(b, p.wave, 8, |c.answers|);
      && Step(b, c, x) == c.(phase := if left == 1 then Idle else Payload(left - 1), wave := p.wave,
          answers := c.answers + [a])
      && p.tdo == Splice(v.tdo, lo, Bits([a]), 0, 8)
  {
    hide Bit, Play, Run, Bits, Answer, Splice;
    BitsOfOne(x);
    forall i | 0 <= i < 8 ensures Bit(x, i) == tdi[lo + i] {
      assert Bits([x])[i] == tdi[lo..lo + 8][i];
    }
    ClockDataPlays(b, v, tms, tdi, lo, 8, x, c.tms);
    var p := Play(b, v, tms, tdi, lo, lo + 8);
    AnswerIsSamples(b, p.wave, |v.wave|, 8, |c.answers|);
    SamplesLand(b, v, tms, tdi, lo, 8, Bits([Answer(b, p.wave, 8, |c.answers|)]), 0);
  }

  lemma BytesDoneSnoc(b: Board, c: Chip, r: Chip, v: View, tms: seq<bool>, tdi: seq<bool>, lo: nat, k: nat, total: nat,
                      x: byte)
    requires k < total && lo + 8 * k + 8 <= |v.tdo| && lo + 8 * k + 8 <= |tms| && lo + 8 * k + 8 <= |tdi|
    requires BytesDone(b, c, r, v, tms, tdi, lo, k, total)
    requires Uniform(v.tap, tms, lo, lo + 8 * (k + 1), true)
    requires Bits([x]) == tdi[lo + 8 * k..lo + 8 * k + 8]
    requires forall i :: lo <= i < lo + 8 * (k + 1) ==> tms[i] == c.tms
    ensures BytesDone(b, c, Step(b, r, x), v, tms, tdi, lo, k + 1, total)
  {
    hide Bit, Bits, Answer, Splice, Step, Uniform, Play;
    var mid, hi := lo + 8 * k, lo + 8 * (k + 1);
    var m := Play(b, v, tms, tdi, lo, mid);
    UniformSplit(v.tap, tms, lo, mid, hi, true);
    PlayTap(b, v, tms, tdi, lo, mid);
    PayloadByte(b, r, m, tms, tdi, mid, total - k, x);
    PlaySplit(b, v, tms, tdi, lo, mid, hi);
    var a := Answer(b, Play(b, v, tms, tdi, lo, hi).wave, 8, |r.answers|);
    var got := r.answers[|c.answers|..];
    assert (r.answers + [a])[|c.answers|..] == got + [a];
    BitsConcat(got, [a]);
    SpliceAppend(v.tdo, lo, Bits(got), Bits([a]));
  }

  /** A stretch of whole bytes, in however many writes: the byte boundaries of the payload are safe cuts. */
  lemma {:induction false} PayloadPlays(b: Board, c: Chip, v: View, tms: seq<bool>, tdi: seq<bool>, lo: nat,
                                        data: seq<byte>, total: nat)
    requires total >= 1 && |data| <= total && c.phase == Payload(total) && c.wave == v.wave
    requires lo + 8 * |data| <= |v.tdo| && lo + 8 * |data| <= |tms| && lo + 8 * |data| <= |tdi|
    requires Uniform(v.tap, tms, lo, lo + 8 * |data|, true)
    requires Bits(data) == tdi[lo..lo + 8 * |data|]
    requires forall i :: lo <= i < lo + 8 * |data| ==> tms[i] == c.tms
    ensures BytesDone(b, c, Run(b, c, data), v, tms, tdi, lo, |data|, total)
    decreases |data|
  {
    hide Bit, Bits, Step, Play, Uniform, BytesDone, Run;
    if data == [] {
      RunNone(b, c);
      BytesDoneNone(b, c, v, tms, tdi, lo, total);
    } else {
      var k := |data| - 1;
      var u, x := data[..k], data[k];
      RunSnoc(b, c, u, x);
      assert data == u + [x];
      PayloadPrefix(tdi, lo, data);
      UniformSplit(v.tap, tms, lo, lo + 8 * k, lo + 8 * |data|, true);
      PayloadPlays(b, c, v, tms, tdi, lo, u, total);
      BytesDoneSnoc(b, c, Run(b, c, u), v, tms, tdi, lo, k, total, x);
    }
  }

  lemma BytesDoneNone(b: Board, c: Chip, v: View, tms: seq<bool>, tdi: seq<bool>, lo: nat, total: nat)
    requires total >= 1 && c.phase == Payload(total) && c.wave == v.wave
    requires lo <= |v.tdo| && lo <= |tms| && lo <= |tdi|
    ensures BytesDone(b, c, c, v, tms, tdi, lo, 0, total)
  {
    assert c.answers[|c.answers|..] == [];
  }

  lemma PayloadPrefix(tdi: seq<bool>, lo: nat, data: seq<byte>)
    requires data != [] && lo + 8 * |data| <= |tdi|
    requires Bits(data) == tdi[lo..lo + 8 * |data|]
    ensures var k := |data| - 1;
      && Bits(data[..k]) == tdi[lo..lo + 8 * k]
      && Bits([data[k]]) == tdi[lo + 8 * k..lo + 8 * k + 8]
  {
    hide Bits, Bit;
    var k := |data| - 1;
    BitsSlice(data, 0, k);
    BitsSlice(data, k, k + 1);
    assert data[k..k + 1] == [data[k]] && data[0..k] == data[..k];
    assert tdi[lo..lo + 8 * |data|][0..8 * k] == tdi[lo..lo + 8 * k];
  }
}
