/** The FTDI adapter layer: a thin wrapper, scans split into chunks, and periods. */
module FtdiAdapter {
  import opened Bytes
  import opened BitBuffers
  import opened Jtag
  import opened Probe
  import opened Driver
  import opened MpsseBuffer
  import opened MpsseAdapter
  import opened Frequency
  import opened Segments
  import opened ShiftRun
  import opened Observers
  import opened Chip

  const MAX_WRITE_SIZE: int := 4096

  class FtdiContext {
    const mpsse: Context
    var isOpen: bool

    constructor (mpsse: Context)
      ensures this.mpsse == mpsse && isOpen
    {
      this.mpsse := mpsse;
      isOpen := true;
    }
  }

  /** What the device, the TAP tracker and a TDO vector in memory amount to between scans. */
  ghost function Observed(ctx: Context, tdo: seq<bool>): View
    reads ctx, ctx.dev
  {
    View(ctx.state, ctx.lastTdi, ctx.dev.chip.wave, tdo)
  }

  method Scan(ctx: FtdiContext, tms: seq<byte>, tdi: seq<byte>, tdo: array<byte>, bits: int) returns (st: Status)
    requires Resting(ctx.mpsse) && tdo != ctx.mpsse.txBuffer && tdo != ctx.mpsse.rxBuffer
    requires bits <= 8 * |tms| && bits <= 8 * |tdi| && bits <= 8 * tdo.Length
    requires bits > 0 ==> RunsFit(ctx.mpsse.state, Bits(tms), 0, bits, ctx.mpsse.chipBufferSize)
    modifies ctx.mpsse, ctx.mpsse.dev, ctx.mpsse.txBuffer, ctx.mpsse.rxBuffer, tdo
    ensures st == Ok || st == DeviceError || st == Rejected || st == PoolExhausted
    ensures Accounts(old(ctx.mpsse.dev.log), ctx.mpsse.dev.log, st == DeviceError)
    ensures st == Rejected <==> !ctx.isOpen || !old(ctx.mpsse.isOpen) || bits <= 0
    ensures st == PoolExhausted ==> bits > 0 && PoolUse(old(ctx.mpsse.state), Bits(tms), bits, bits) > POOL_SIZE
    ensures st == Ok ==> bits > 0 && PoolUse(old(ctx.mpsse.state), Bits(tms), bits, bits) <= POOL_SIZE
    ensures st == Ok ==> SameClock(ctx.mpsse.dev.chip, old(ctx.mpsse.dev.chip))
    ensures st == Ok ==> Resting(ctx.mpsse) && ctx.mpsse.isOpen
    ensures st == Ok ==>
      Play(ctx.mpsse.dev.board, old(Observed(ctx.mpsse, Bits(tdo[..]))), Bits(tms), Bits(tdi), 0, bits)
          == Observed(ctx.mpsse, Bits(tdo[..]))
  {
    hide Bits, Play, Resting, RunsFit, PoolUse, Run, ScanBytes;
    if !ctx.isOpen {
      return Rejected;
    }
    st := MpsseAdapter.Scan(ctx.mpsse, tms, tdi, tdo, bits);
  }

  /** Sets TCK from a period in nanoseconds and reports the period actually used. */
  method SetPeriod(ctx: FtdiContext, periodNs: nat) returns (st: Status, actual: nat)
    requires Resting(ctx.mpsse)
    modifies ctx.mpsse, ctx.mpsse.dev, ctx.mpsse.txBuffer, ctx.mpsse.rxBuffer
    ensures st == Ok || st == DeviceError || st == Rejected
    ensures Accounts(old(ctx.mpsse.dev.log), ctx.mpsse.dev.log, st == DeviceError)
    ensures st == Rejected <==> !ctx.isOpen || !old(ctx.mpsse.isOpen)
    ensures st == Rejected ==> Resting(ctx.mpsse) && Observed(ctx.mpsse, []) == old(Observed(ctx.mpsse, []))
    ensures st == Ok ==>
      Resting(ctx.mpsse) && ctx.mpsse.isOpen && Observed(ctx.mpsse, []) == old(Observed(ctx.mpsse, []))
    ensures st == Ok ==>
      ctx.mpsse.dev.chip.divisor == DivisorFor(FrequencyOfPeriod(periodNs)) && !ctx.mpsse.dev.chip.divideBy5
    ensures st == Ok ==> actual == PeriodReported(periodNs)
  {
    hide Resting, Tck, DivisorFor;
    if !ctx.isOpen {
      return Rejected, 0;
    }
    var frequencyHz := FrequencyOfPeriod(periodNs);
    st, actual := SetFrequency(ctx.mpsse, frequencyHz);
    if st == Ok {
      actual := NS_PER_S / actual;
    }
  }

  /** A TDO vector whose first n bits have been cleared. */
  function Cleared(tdo: seq<bool>, n: int): (r: seq<bool>)
    ensures |r| == |tdo|
  {
    seq(|tdo|, i requires 0 <= i < |tdo| => n <= i && tdo[i])
  }

  /**
    A piece of a scan that starts `off` bytes in, run into a zeroed buffer of its own and copied back, is
    that piece of the whole scan.
  */
  lemma ChunkIsPiece(b: Board, whole: View, tms: seq<bool>, tdi: seq<bool>, at: nat, n: nat, chunk: seq<bool>,
                     tms': seq<bool>, tdi': seq<bool>)
    requires n <= |chunk| && at + |chunk| <= |whole.tdo| && at + n <= |tms| && at + n <= |tdi|
    requires n <= |tms'| && n <= |tdi'| && tms[at..at + n] == tms'[0..n] && tdi[at..at + n] == tdi'[0..n]
    requires chunk == whole.tdo[at..at + |chunk|]
    ensures var p, q := Play(b, whole, tms, tdi, at, at + n), Play(b, whole.(tdo := chunk), tms', tdi', 0, n);
      p == View(q.tap, q.lastTdi, q.wave, Splice(whole.tdo, at, q.tdo, 0, |chunk|))
  {
    hide Play, Splice;
    PlayWindow(b, whole, tms, tdi, at, whole.(tdo := chunk), tms', tdi', 0, n);
    ChunkInside(b, whole, tms, tdi, at, n, chunk, tms', tdi');
    ChunkOutside(b, whole, tms, tdi, at, n, |chunk|);
    SpliceFromParts(Play(b, whole, tms, tdi, at, at + n).tdo, whole.tdo, at,
        Play(b, whole.(tdo := chunk), tms', tdi', 0, n).tdo);
  }

  lemma SpliceFromParts(p: seq<bool>, w: seq<bool>, at: nat, q: seq<bool>)
    requires |p| == |w| && at + |q| <= |w|
    requires p[at..at + |q|] == q && p[..at] == w[..at] && p[at + |q|..] == w[at + |q|..]
    ensures p == Splice(w, at, q, 0, |q|)
  {
    assert q[0..|q|] == q;
    assert p == p[..at] + p[at..at + |q|] + p[at + |q|..];
  }

  lemma ChunkInside(b: Board, whole: View, tms: seq<bool>, tdi: seq<bool>, at: nat, n: nat, chunk: seq<bool>,
                    tms': seq<bool>, tdi': seq<bool>)
    requires n <= |chunk| && at + |chunk| <= |whole.tdo| && at + n <= |tms| && at + n <= |tdi|
    requires n <= |tms'| && n <= |tdi'| && tms[at..at + n] == tms'[0..n] && tdi[at..at + n] == tdi'[0..n]
    requires chunk == whole.tdo[at..at + |chunk|]
    ensures Play(b, whole, tms, tdi, at, at + n).tdo[at..at + |chunk|]
        == Play(b, whole.(tdo := chunk), tms', tdi', 0, n).tdo
  {
    hide Play;
    var p := Play(b, whole, tms, tdi, at, at + n).tdo[at..at + |chunk|];
    var q := Play(b, whole.(tdo := chunk), tms', tdi', 0, n).tdo;
    forall k | 0 <= k < |chunk| ensures p[k] == q[k] {
      ChunkBit(b, whole, tms, tdi, at, n, chunk, tms', tdi', k);
    }
  }

  lemma ChunkOutside(b: Board, whole: View, tms: seq<bool>, tdi: seq<bool>, at: nat, n: nat, m: nat)
    requires n <= m && at + m <= |whole.tdo| && at + n <= |tms| && at + n <= |tdi|
    ensures var p := Play(b, whole, tms, tdi, at, at + n).tdo;
      p[..at] == whole.tdo[..at] && p[at + m..] == whole.tdo[at + m..]
  {
    hide Play, Walk;
    var p := Play(b, whole, tms, tdi, at, at + n).tdo;
    forall j | 0 <= j < |p| && !(at <= j < at + m) ensures p[j] == whole.tdo[j] {
      PlayTdo(b, whole, tms, tdi, at, at + n, j);
    }
  }

  /** Bit k of a chunk's TDO is bit at + k of the whole scan's. */
  lemma ChunkBit(b: Board, whole: View, tms: seq<bool>, tdi: seq<bool>, at: nat, n: nat, chunk: seq<bool>,
                 tms': seq<bool>, tdi': seq<bool>, k: nat)
    requires n <= |chunk| && at + |chunk| <= |whole.tdo| && at + n <= |tms| && at + n <= |tdi| && k < |chunk|
    requires n <= |tms'| && n <= |tdi'| && tms[at..at + n] == tms'[0..n] && tdi[at..at + n] == tdi'[0..n]
    requires chunk == whole.tdo[at..at + |chunk|]
    ensures Play(b, whole, tms, tdi, at, at + n).tdo[at + k] == Play(b, whole.(tdo := chunk), tms', tdi', 0, n).tdo[k]
  {
    hide Play, Walk, Next, InShift;
    var u := whole.(tdo := chunk);
    PlayTdo(b, whole, tms, tdi, at, at + n, at + k);
    PlayTdo(b, u, tms', tdi', 0, n, k);
    PlayWindow(b, whole, tms, tdi, at, u, tms', tdi', 0, n);
    assert chunk[k] == whole.tdo[at + k];
    if k < n {
      WalkPiece(whole.tap, tms, at, tms', n, k);
    }
  }

  lemma WalkPiece(s: Tap, tms: seq<bool>, at: nat, tms': seq<bool>, n: nat, k: nat)
    requires at + n <= |tms| && n <= |tms'| && k <= n && tms[at..at + n] == tms'[0..n]
    ensures Walk(s, tms, at, at + k) == Walk(s, tms', 0, k)
  {
    assert tms[at..at + n][..k] == tms[at..at + k] && tms'[0..n][..k] == tms'[0..k];
    WalkWindow(s, tms, at, tms', 0, k);
  }

  /** The part of a cleared TDO vector that a scan has not reached is still clear. */
  lemma AheadIsClear(b: Board, v: View, tms: seq<bool>, tdi: seq<bool>, done: nat, from: nat, to: nat)
    requires done <= |v.tdo| && done <= |tms| && done <= |tdi| && done <= from <= to <= |v.tdo|
    requires forall j :: done <= j < to ==> !v.tdo[j]
    ensures Play(b, v, tms, tdi, 0, done).tdo[from..to] == seq(to - from, i => false)
  {
    hide Play, Walk;
    forall j | done <= j < to ensures !Play(b, v, tms, tdi, 0, done).tdo[j] {
      PlayTdo(b, v, tms, tdi, 0, done, j);
    }
  }

  /** The vectors of a chunk are pieces of the whole vectors. */
  lemma ChunkBits(s: seq<byte>, off: nat, n: nat)
    requires off <= |s| && 8 * off + n <= 8 * |s|
    ensures Bits(s[off..])[0..n] == Bits(s)[8 * off..8 * off + n]
  {
    hide Bits;
    BitsSlice(s, off, |s|);
    assert s[off..|s|] == s[off..];
    assert Bits(s)[8 * off..8 * |s|][0..n] == Bits(s)[8 * off..8 * off + n];
  }

  lemma RestOfBits(s: seq<byte>, off: nat)
    requires off <= |s|
    ensures Bits(s[off..]) == Bits(s)[8 * off..]
  {
    hide Bits;
    BitsSlice(s, off, |s|);
    assert s[off..|s|] == s[off..];
  }

  /** How many bits the chunk at `done` has. */
  function ChunkSize(bits: nat, limit: nat, done: nat): (n: nat)
    requires done < bits && limit > 0
    ensures 1 <= n && done + n <= bits
  {
    if done + 8 * limit > bits then bits - done else 8 * limit
  }

  lemma ChunkBounds(bits: nat, limit: nat, done: nat)
    requires done < bits && done % 8 == 0 && limit > 0
    ensures var n := ChunkSize(bits, limit, done);
      && n <= 8 * limit && ((done + n) % 8 == 0 || done + n == bits)
      && 8 * (done / 8) == done && done / 8 + (n + 7) / 8 <= (bits + 7) / 8
  {
  }

  /** In every chunk from `done` on, the Shift runs fit. */
  ghost predicate ChunksFit(tap: Tap, tms: seq<bool>, bits: nat, limit: nat, room: nat, done: nat)
    requires done <= bits <= |tms| && limit > 0
    decreases bits - done
  {
    done < bits ==>
      var n := ChunkSize(bits, limit, done);
      RunsFit(tap, tms, done, done + n, room) && ChunksFit(tap, tms, bits, limit, room, done + n)
  }

  /** No chunk from `done` on takes more than the pool has. */
  predicate ChunksPool(tap: Tap, tms: seq<bool>, bits: nat, limit: nat, done: nat)
    requires done <= bits <= |tms| && limit > 0
    decreases bits - done
  {
    done < bits ==>
      var n := ChunkSize(bits, limit, done);
      PoolUse(Walk(tap, tms, 0, done), tms[done..], n, n) <= POOL_SIZE && ChunksPool(tap, tms, bits, limit, done + n)
  }

  /** Chunks of up to `room` bytes fit. */
  lemma {:induction false} ShortChunksFit(tap: Tap, tms: seq<bool>, bits: nat, limit: nat, room: nat, done: nat)
    requires done <= bits <= |tms| && 0 < limit && (limit <= room || bits <= 8 * room)
    ensures ChunksFit(tap, tms, bits, limit, room, done)
    decreases bits - done
  {
    hide RunsFit;
    if done < bits {
      var n := ChunkSize(bits, limit, done);
      ShortVectorFits(tap, tms, done, done + n, room);
      ShortChunksFit(tap, tms, bits, limit, room, done + n);
    }
  }

  /** Chunks of up to 65536 bytes never exhaust the pool. */
  lemma {:induction false} ShortChunksPool(tap: Tap, tms: seq<bool>, bits: nat, limit: nat, done: nat)
    requires done <= bits <= |tms| && 0 < limit <= 0x1_0000
    ensures ChunksPool(tap, tms, bits, limit, done)
    decreases bits - done
  {
    hide PoolUse, Walk;
    if done < bits {
      var n := ChunkSize(bits, limit, done);
      ShortVectorPools(Walk(tap, tms, 0, done), tms[done..], n);
      ShortChunksPool(tap, tms, bits, limit, done + n);
    }
  }

  /** A chunk's Shift runs are the runs of the whole vector that lie in it, moved by whole bytes. */
  lemma ChunkFits(tap: Tap, tms: seq<byte>, off: nat, n: nat, room: nat)
    requires 8 * off + n <= 8 * |tms| && RunsFit(tap, Bits(tms), 8 * off, 8 * off + n, room)
    ensures RunsFit(Walk(tap, Bits(tms), 0, 8 * off), Bits(tms[off..]), 0, n, room)
  {
    hide Bits, CutRun, Walk, Uniform;
    var t, u := Bits(tms), Bits(tms[off..]);
    var s := Walk(tap, t, 0, 8 * off);
    forall lo, hi | 0 <= lo < hi <= n && Uniform(Walk(s, u, 0, lo), u, lo, hi, true)
        ensures CutRun(lo, hi).inner <= room {
      ChunkRun(tap, tms, off, n, lo, hi);
      MovedCut(off, lo, hi);
    }
  }

  lemma MovedBits(off: nat, x: nat)
    ensures (8 * off + x) % 8 == x % 8
  {
  }

  lemma MovedCut(off: nat, lo: nat, hi: nat)
    requires lo < hi
    ensures CutRun(8 * off + lo, 8 * off + hi).inner == CutRun(lo, hi).inner
  {
    MovedBits(off, lo);
    MovedBits(off, hi - 1);
    SameCut(8 * off + lo, 8 * off + hi, lo, hi);
  }

  /** How a run is cut depends on its length and on where it starts and ends within a byte. */
  lemma SameCut(lo: nat, hi: nat, lo': nat, hi': nat)
    requires lo < hi && lo' < hi' && hi - lo == hi' - lo' && lo % 8 == lo' % 8 && (hi - 1) % 8 == (hi' - 1) % 8
    ensures CutRun(lo, hi).inner == CutRun(lo', hi').inner
  {
    CutCovers(lo, hi);
    CutCovers(lo', hi');
    SameEnds(lo, hi, lo', hi');
    hide CutRun;
  }

  lemma SameEnds(lo: nat, hi: nat, lo': nat, hi': nat)
    requires lo < hi && lo' < hi' && hi - lo == hi' - lo' && lo % 8 == lo' % 8 && (hi - 1) % 8 == (hi' - 1) % 8
    ensures CutRun(lo, hi).leading == CutRun(lo', hi').leading && CutRun(lo, hi).trailing == CutRun(lo', hi').trailing
  {
  }

  lemma ChunkRun(tap: Tap, tms: seq<byte>, off: nat, n: nat, lo: nat, hi: nat)
    requires 8 * off + n <= 8 * |tms| && lo < hi <= n
    requires var s, u := Walk(tap, Bits(tms), 0, 8 * off), Bits(tms[off..]);
      Uniform(Walk(s, u, 0, lo), u, lo, hi, true)
    ensures Uniform(Walk(tap, Bits(tms), 0, 8 * off + lo), Bits(tms), 8 * off + lo, 8 * off + hi, true)
  {
    hide Bits, Walk, InShift;
    var t, u := Bits(tms), Bits(tms[off..]);
    var s := Walk(tap, t, 0, 8 * off);
    ChunkBits(tms, off, n);
    WalkPiece(s, t, 8 * off, u, n, lo);
    WalkSplit(tap, t, 0, 8 * off, 8 * off + lo);
    var first := 8 * off + lo;
    forall j | first <= j < 8 * off + hi ensures InShift(Walk(Walk(tap, t, 0, first), t, first, j)) {
      var k := j - 8 * off;
      assert InShift(Walk(Walk(s, u, 0, lo), u, lo, k));
      WalkPiece(s, t, 8 * off, u, n, k);
      WalkSplit(s, u, 0, lo, k);
      WalkSplit(s, t, 8 * off, 8 * off + lo, j);
    }
  }

  /** One chunk: scanned into a zeroed buffer of its own, then copied into place. */
  method ScanChunk(ctx: FtdiContext, tms: seq<byte>, tdi: seq<byte>, tdo: array<byte>, off: nat, n: nat, ghost v: View)
    returns (st: Status)
    requires Resting(ctx.mpsse) && ctx.isOpen && tdo != ctx.mpsse.txBuffer && tdo != ctx.mpsse.rxBuffer
    requires 1 <= n && 8 * off + n <= 8 * |tms| && 8 * off + n <= 8 * |tdi|
    requires off + (n + 7) / 8 <= tdo.Length && |v.tdo| == 8 * tdo.Length
    requires RunsFit(v.tap, Bits(tms), 8 * off, 8 * off + n, ctx.mpsse.chipBufferSize)
    requires forall j :: 8 * off <= j < 8 * (off + (n + 7) / 8) ==> !v.tdo[j]
    requires Observed(ctx.mpsse, Bits(tdo[..])) == Play(ctx.mpsse.dev.board, v, Bits(tms), Bits(tdi), 0, 8 * off)
    modifies ctx.mpsse, ctx.mpsse.dev, ctx.mpsse.txBuffer, ctx.mpsse.rxBuffer, tdo
    ensures st == Ok || st == DeviceError || st == Rejected || st == PoolExhausted
    ensures Accounts(old(ctx.mpsse.dev.log), ctx.mpsse.dev.log, st == DeviceError)
    ensures st == Rejected <==> !old(ctx.mpsse.isOpen)
    ensures st == PoolExhausted ==> PoolUse(Walk(v.tap, Bits(tms), 0, 8 * off), Bits(tms)[8 * off..], n, n) > POOL_SIZE
    ensures st == Ok ==> PoolUse(Walk(v.tap, Bits(tms), 0, 8 * off), Bits(tms)[8 * off..], n, n) <= POOL_SIZE
    ensures st == Ok ==> SameClock(ctx.mpsse.dev.chip, old(ctx.mpsse.dev.chip))
    ensures st == Ok ==> Resting(ctx.mpsse) && ctx.mpsse.isOpen
    ensures st == Ok ==>
      Observed(ctx.mpsse, Bits(tdo[..])) == Play(ctx.mpsse.dev.board, v, Bits(tms), Bits(tdi), 0, 8 * off + n)
  {
    hide Bits, Play, Resting, RunsFit, Splice, Uniform, PoolUse, Walk;
    var chunkBytes := (n + 7) / 8;
    var chunkTdo := new byte[chunkBytes](i => 0);
    ghost var b, t, d := ctx.mpsse.dev.board, Bits(tms), Bits(tdi);
    ghost var whole, was := Observed(ctx.mpsse, Bits(tdo[..])), tdo[..];
    ghost var chunk := Bits(chunkTdo[..]);
    ZeroBits(chunkTdo[..]);
    AheadIsClear(b, v, t, d, 8 * off, 8 * off, 8 * (off + chunkBytes));
    ChunkBits(tms, off, n);
    ChunkBits(tdi, off, n);
    RestOfBits(tms, off);
    PlayTap(b, v, t, d, 0, 8 * off);
    ChunkFits(v.tap, tms, off, n, ctx.mpsse.chipBufferSize);
    ChunkIsPiece(b, whole, t, d, 8 * off, n, chunk, Bits(tms[off..]), Bits(tdi[off..]));
    PlaySplit(b, v, t, d, 0, 8 * off, 8 * off + n);
    assert whole.(tdo := chunk) == Observed(ctx.mpsse, chunk);
    st := Scan(ctx, tms[off..], tdi[off..], chunkTdo, n);
    if st == Ok {
      MemCpy(tdo, off, chunkTdo[..]);
      BytesSplice(was, off, chunkTdo[..]);
    }
  }

  /** Clears the vector and scans it chunk by chunk. */
  method ScanInChunks(ctx: FtdiContext, tms: seq<byte>, tdi: seq<byte>, tdo: array<byte>, bits: nat, limit: nat)
    returns (st: Status)
    requires Resting(ctx.mpsse) && ctx.isOpen && tdo != ctx.mpsse.txBuffer && tdo != ctx.mpsse.rxBuffer
    requires 0 < bits <= 8 * |tms| && bits <= 8 * |tdi| && bits <= 8 * tdo.Length && 0 < limit
    requires ChunksFit(ctx.mpsse.state, Bits(tms), bits, limit, ctx.mpsse.chipBufferSize, 0)
    modifies ctx.mpsse, ctx.mpsse.dev, ctx.mpsse.txBuffer, ctx.mpsse.rxBuffer, tdo
    ensures st == Ok || st == DeviceError || st == Rejected || st == PoolExhausted
    ensures Accounts(old(ctx.mpsse.dev.log), ctx.mpsse.dev.log, st == DeviceError)
    ensures st == Rejected <==> !old(ctx.mpsse.isOpen)
    ensures st == PoolExhausted ==> !ChunksPool(old(ctx.mpsse.state), Bits(tms), bits, limit, 0)
    ensures st == Ok ==> ChunksPool(old(ctx.mpsse.state), Bits(tms), bits, limit, 0)
    ensures st == Ok ==> SameClock(ctx.mpsse.dev.chip, old(ctx.mpsse.dev.chip))
    ensures st == Ok ==> Resting(ctx.mpsse) && ctx.mpsse.isOpen
    ensures st == Ok ==>
      Play(ctx.mpsse.dev.board, old(Observed(ctx.mpsse, Cleared(Bits(tdo[..]), 8 * ((bits + 7) / 8)))), Bits(tms),
          Bits(tdi), 0, bits)
      == Observed(ctx.mpsse, Bits(tdo[..]))
  {
    hide Bits, Play, Cleared, Resting, Accounts, RunsFit, PoolUse, Walk, ChunkSize;
    ghost var log, tap, t := ctx.mpsse.dev.log, ctx.mpsse.state, Bits(tms);
    AccountsNothing(log);
    ghost var v := Observed(ctx.mpsse, Cleared(Bits(tdo[..]), 8 * ((bits + 7) / 8)));
    Clear(tdo, (bits + 7) / 8);
    ClearedBits(old(Bits(tdo[..])), 8 * ((bits + 7) / 8));
    PlayNone(ctx.mpsse.dev.board, v, t, Bits(tdi), 0);
    var done := 0;
    st := Ok;
    while done < bits
      invariant 0 <= done <= bits && (done % 8 == 0 || done == bits) && st == Ok
      invariant Accounts(log, ctx.mpsse.dev.log, false) && SameClock(ctx.mpsse.dev.chip, old(ctx.mpsse.dev.chip))
      invariant Resting(ctx.mpsse) && ctx.mpsse.isOpen == old(ctx.mpsse.isOpen)
      invariant done > 0 ==> ctx.mpsse.isOpen
      invariant ChunksFit(tap, t, bits, limit, ctx.mpsse.chipBufferSize, done)
      invariant ChunksPool(tap, t, bits, limit, done) == ChunksPool(tap, t, bits, limit, 0)
      invariant Observed(ctx.mpsse, Bits(tdo[..])) == Play(ctx.mpsse.dev.board, v, t, Bits(tdi), 0, done)
    {
      var n := ChunkSize(bits, limit, done);
      ChunkBounds(bits, limit, done);
      ghost var before := ctx.mpsse.dev.log;
      st := ScanChunk(ctx, tms, tdi, tdo, done / 8, n, v);
      AccountsOnward(log, before, ctx.mpsse.dev.log, st == DeviceError);
      if st != Ok {
        return;
      }
      done := done + n;
    }
  }

  lemma ClearedBits(tdo: seq<bool>, n: nat)
    requires n <= |tdo|
    ensures forall j :: 0 <= j < n ==> !Cleared(tdo, n)[j]
  {
  }

  /** The pool lasts for every chunk of the vector. */
  predicate PoolLasts(tap: Tap, tms: seq<byte>, bits: int, limit: int) {
    0 < bits <= 8 * |tms| && 0 < limit && ChunksPool(tap, Bits(tms), bits, limit, 0)
  }

  /** The TDO vector a chunked scan collects into: as it was, or cleared when the scan really splits. */
  function BeforeChunks(tdo: seq<bool>, bits: int, limit: int): (r: seq<bool>)
    ensures |r| == |tdo|
  {
    if (bits + 7) / 8 <= limit then tdo else Cleared(tdo, 8 * ((bits + 7) / 8))
  }

  /**
    A scan in chunks of whole bytes clocks the same wave, leaves the same TAP state and TDI level,
    and collects the same TDO as one reference run over the whole vectors. Only when it really
    splits does it clear the TDO vector first.
  */
  method ScanChunked(ctx: FtdiContext, tms: seq<byte>, tdi: seq<byte>, tdo: array<byte>, bits: int, chunkBytes: int)
    returns (st: Status)
    requires Resting(ctx.mpsse) && tdo != ctx.mpsse.txBuffer && tdo != ctx.mpsse.rxBuffer
    requires bits <= 8 * |tms| && bits <= 8 * |tdi| && bits <= 8 * tdo.Length
    requires bits > 0 ==>
      ChunksFit(ctx.mpsse.state, Bits(tms), bits, ChunkLimit(chunkBytes), ctx.mpsse.chipBufferSize, 0)
    modifies ctx.mpsse, ctx.mpsse.dev, ctx.mpsse.txBuffer, ctx.mpsse.rxBuffer, tdo
    ensures st == Ok || st == DeviceError || st == Rejected || st == PoolExhausted
    ensures Accounts(old(ctx.mpsse.dev.log), ctx.mpsse.dev.log, st == DeviceError)
    ensures st == Rejected <==> !ctx.isOpen || !old(ctx.mpsse.isOpen) || bits <= 0
    ensures st == PoolExhausted ==> !PoolLasts(old(ctx.mpsse.state), tms, bits, ChunkLimit(chunkBytes))
    ensures st == Ok ==> PoolLasts(old(ctx.mpsse.state), tms, bits, ChunkLimit(chunkBytes))
    ensures st == Ok ==> SameClock(ctx.mpsse.dev.chip, old(ctx.mpsse.dev.chip))
    ensures st == Ok ==> Resting(ctx.mpsse) && ctx.mpsse.isOpen
    ensures st == Ok ==>
      var v := old(Observed(ctx.mpsse, BeforeChunks(Bits(tdo[..]), bits, ChunkLimit(chunkBytes))));
      Play(ctx.mpsse.dev.board, v, Bits(tms), Bits(tdi), 0, bits) == Observed(ctx.mpsse, Bits(tdo[..]))
  {
    hide Bits, Play, Resting, RunsFit, Cleared, ChunksFit, ChunksPool, PoolUse;
    if !ctx.isOpen || bits <= 0 {
      return Rejected;
    }
    var limit := ChunkLimit(chunkBytes);
    if (bits + 7) / 8 <= limit {
      OneChunk(ctx.mpsse.state, Bits(tms), bits, limit, ctx.mpsse.chipBufferSize);
      st := Scan(ctx, tms, tdi, tdo, bits);
    } else {
      st := ScanInChunks(ctx, tms, tdi, tdo, bits, limit);
    }
  }

  /** A vector that fits one chunk is that chunk. */
  lemma OneChunk(tap: Tap, tms: seq<bool>, bits: nat, limit: nat, room: nat)
    requires 0 < bits <= |tms| && (bits + 7) / 8 <= limit
    ensures ChunksFit(tap, tms, bits, limit, room, 0) == RunsFit(tap, tms, 0, bits, room)
    ensures ChunksPool(tap, tms, bits, limit, 0) <==> PoolUse(tap, tms, bits, bits) <= POOL_SIZE
  {
    hide RunsFit, PoolUse;
    assert ChunkSize(bits, limit, 0) == bits && tms[0..] == tms;
    assert ChunksFit(tap, tms, bits, limit, room, bits) && ChunksPool(tap, tms, bits, limit, bits);
    WalkNone(tap, tms, 0);
  }

  /** The chunk size in use. */
  function ChunkLimit(chunkBytes: int): (r: int)
    ensures r > 0
  {
    if chunkBytes <= 0 then MAX_WRITE_SIZE else chunkBytes
  }

  lemma DefaultChunk(chunkBytes: int)
    ensures ChunkLimit(chunkBytes) == if chunkBytes <= 0 then 4096 else chunkBytes
  {
  }

  /** `memset(tdo, 0, n)`. */
  method Clear(tdo: array<byte>, n: nat)
    requires n <= tdo.Length
    modifies tdo
    ensures Bits(tdo[..]) == Cleared(old(Bits(tdo[..])), 8 * n)
  {
    hide Bits;
    ghost var rest := tdo[n..];
    ghost var was := tdo[..];
    forall i | 0 <= i < n {
      tdo[i] := 0;
    }
    assert tdo[..] == tdo[..n] + rest;
    BitsConcat(tdo[..n], rest);
    ZeroBits(tdo[..n]);
    BitsSlice(was, n, tdo.Length);
    assert was[n..tdo.Length] == rest;
  }
}
