/** The MPSSE compiler: TMS/TDI vectors become MPSSE commands and deferred reads. */
module MpsseAdapter {
  import opened Bytes
  import opened BitBuffers
  import opened Jtag
  import opened Probe
  import opened Chip
  import opened Commands
  import opened Driver
  import opened Observers
  import opened MpsseBuffer
  import opened Frequency
  import opened LongRuns
  import opened Options
  import opened Segments
  import opened ShiftRun

  /** The adapter seen as the reference machine, with everything queued taken as done. */
  ghost function ViewOf(ctx: Context, tap: Tap): View
    reads ctx
  {
    View(tap, ctx.lastTdi, ctx.chip.wave, ctx.tdo)
  }

  /** Between commands: the engine is idle. */
  ghost predicate Ready(ctx: Context)
    reads ctx, ctx.dev, ctx.txBuffer, ctx.rxBuffer, ctx.target
  {
    ctx.Valid() && ctx.chip.phase.Idle? && 4 <= ctx.txBuffer.Length && 1 <= ctx.rxBuffer.Length
  }

  /** The TCK divisor and its prescaler are as they were. */
  predicate SameClock(c: Chip, d: Chip) {
    c.divisor == d.divisor && c.divideBy5 == d.divideBy5
  }

  /** The data byte of a TMS command: TMS bits from bit 0 up, TDI in bit 7. */
  method TmsByte(tms: seq<byte>, from: nat, n: nat, lastTdi: bool) returns (b: byte)
    requires n <= 6 && from + n <= 8 * |tms|
    ensures forall i :: 0 <= i < n ==> Bit(b, i) == Bits(tms)[from + i]
    ensures Bit(b, 7) == lastTdi
    ensures b == TmsData(tms, from, n, lastTdi)
  {
    hide Bits, Bit, SetBit, Pack;
    b := 0;
    ZeroByte();
    for k := 0 to n
      invariant forall i :: 0 <= i < k ==> Bit(b, i) == Bits(tms)[from + i]
      invariant forall i :: k <= i < 8 ==> !Bit(b, i)
    {
      if GetBit(tms, from + k) {
        BitsOfSetBit(b, k, true);
        b := SetBit(b, k, true);
      }
    }
    ghost var low := b;
    WithTopBit(low, lastTdi);
    b := b | (if lastTdi then 0x80 else 0);
    forall i | 0 <= i < n ensures Bit(b, i) == Bits(tms)[from + i] {
      assert Bit(low, i) == Bits(tms)[from + i];
    }
    forall i | 0 <= i < 8 ensures Bit(b, i) == Bit(TmsData(tms, from, n, lastTdi), i) {
      BitOfPack(TmsBits(tms, from, n, lastTdi), i);
      assert i < 7 ==> Bit(b, i) == Bit(low, i);
      assert TmsData(tms, from, n, lastTdi) == Pack(TmsBits(tms, from, n, lastTdi));
    }
    ByteExtensional(b, TmsData(tms, from, n, lastTdi));
  }

  lemma WithTopBit(b: byte, v: bool)
    requires !Bit(b, 7)
    ensures var r := b | (if v then 0x80 else 0);
      Bit(r, 7) == v && forall i :: 0 <= i < 7 ==> Bit(r, i) == Bit(b, i)
  {
  }

  /** One command for n bits outside Shift. */
  method AppendTmsCommand(ctx: Context, tms: seq<byte>, from: nat, n: nat, ghost tap: Tap, ghost tdi: seq<bool>)
    returns (st: Status)
    requires Ready(ctx) && 1 <= n <= 6 && from + n <= 8 * |tms| && from + n <= |tdi| && from + n <= |ctx.tdo|
    requires Uniform(tap, Bits(tms), from, from + n, false)
    modifies ctx`txNumBytes, ctx`rxNumBytes, ctx`observers, ctx`poolUsed, ctx`chip, ctx`tdo
    modifies ctx.dev, ctx.txBuffer, ctx.rxBuffer, ctx.target
    ensures st == Ok || st == DeviceError
    ensures Accounts(old(ctx.dev.log), ctx.dev.log, st == DeviceError)
    ensures st == Ok ==> Ready(ctx) && ctx.poolUsed == old(ctx.poolUsed) && ctx.chip.tms == Bits(tms)[from + n - 1]
    ensures st == Ok ==>
      && ctx.chip == Run(ctx.dev.board, old(ctx.chip), Command(CLK_TMS_NO_READ, n, TmsData(tms, from, n, ctx.lastTdi)))
      && SameClock(ctx.chip, old(ctx.chip))
    ensures st == Ok ==>
      Play(ctx.dev.board, old(ViewOf(ctx, tap)), Bits(tms), tdi, from, from + n) ==
      ViewOf(ctx, Walk(tap, Bits(tms), from, from + n))
  {
    hide Bits, Bit, Run, Command, Play, Uniform, Context.Valid, TmsData;
    var data := TmsByte(tms, from, n, ctx.lastTdi);
    ghost var v := ViewOf(ctx, tap);
    TmsCommandPlays(ctx.dev.board, ctx.chip, v, Bits(tms), tdi, from, n, data);
    PlayTap(ctx.dev.board, v, Bits(tms), tdi, from, from + n);
    st := ctx.Append(Command(CLK_TMS_NO_READ, n, data), None, 0);
    CommandLength(CLK_TMS_NO_READ, n, data);
  }

  /** Clocks a stretch outside Shift, up to six TMS bits a command, TDI held. */
  method AppendTmsShift(ctx: Context, tms: seq<byte>, fromBitIdx: nat, toBitIdx: nat, ghost tap: Tap,
                        ghost tdi: seq<bool>)
    returns (st: Status)
    requires Ready(ctx) && fromBitIdx <= toBitIdx <= 8 * |tms| && toBitIdx <= |tdi| && toBitIdx <= |ctx.tdo|
    requires Uniform(tap, Bits(tms), fromBitIdx, toBitIdx, false)
    modifies ctx`txNumBytes, ctx`rxNumBytes, ctx`observers, ctx`poolUsed, ctx`chip, ctx`tdo
    modifies ctx.dev, ctx.txBuffer, ctx.rxBuffer, ctx.target
    ensures st == Ok || st == DeviceError
    ensures Accounts(old(ctx.dev.log), ctx.dev.log, st == DeviceError)
    ensures st == Ok ==> Ready(ctx) && ctx.poolUsed == old(ctx.poolUsed)
    ensures st == Ok ==>
      Play(ctx.dev.board, old(ViewOf(ctx, tap)), Bits(tms), tdi, fromBitIdx, toBitIdx) ==
      ViewOf(ctx, Walk(tap, Bits(tms), fromBitIdx, toBitIdx))
    ensures st == Ok ==>
      && ctx.chip == Run(ctx.dev.board, old(ctx.chip), TmsBytes(tms, fromBitIdx, toBitIdx, ctx.lastTdi))
      && SameClock(ctx.chip, old(ctx.chip))
    ensures st == Ok && fromBitIdx < toBitIdx ==> ctx.chip.tms == Bits(tms)[toBitIdx - 1]
  {
    hide Bits, Bit, Run, Command, Play, Walk, Uniform, Context.Valid, TmsData, TmsBytes;
    ghost var v := ViewOf(ctx, tap);
    ghost var b := ctx.dev.board;
    ghost var c0, sent := ctx.chip, [];
    RunNone(b, c0);
    assert sent + TmsBytes(tms, fromBitIdx, toBitIdx, ctx.lastTdi) == TmsBytes(tms, fromBitIdx, toBitIdx, ctx.lastTdi);
    var cur := fromBitIdx;
    st := Ok;
    PlayNone(b, v, Bits(tms), tdi, fromBitIdx);
    WalkNone(tap, Bits(tms), fromBitIdx);
    while cur < toBitIdx
      invariant fromBitIdx <= cur <= toBitIdx && st == Ok
      invariant Accounts(old(ctx.dev.log), ctx.dev.log, false)
      invariant Ready(ctx) && ctx.poolUsed == old(ctx.poolUsed)
      invariant ViewOf(ctx, Walk(tap, Bits(tms), fromBitIdx, cur)) == Play(b, v, Bits(tms), tdi, fromBitIdx, cur)
      invariant ctx.chip == Run(b, c0, sent) && SameClock(ctx.chip, c0)
      invariant sent + TmsBytes(tms, cur, toBitIdx, ctx.lastTdi) == TmsBytes(tms, fromBitIdx, toBitIdx, ctx.lastTdi)
      invariant fromBitIdx < cur ==> ctx.chip.tms == Bits(tms)[cur - 1]
    {
      var n := if toBitIdx - cur < 6 then toBitIdx - cur else 6;
      UniformSplit(tap, Bits(tms), fromBitIdx, cur, toBitIdx, false);
      UniformSplit(Walk(tap, Bits(tms), fromBitIdx, cur), Bits(tms), cur, cur + n, toBitIdx, false);
      WalkSplit(tap, Bits(tms), fromBitIdx, cur, cur + n);
      PlaySplit(b, v, Bits(tms), tdi, fromBitIdx, cur, cur + n);
      NextTmsBytes(tms, cur, toBitIdx, ctx.lastTdi, sent);
      ghost var cmd := Command(CLK_TMS_NO_READ, n, TmsData(tms, cur, n, ctx.lastTdi));
      RunConcat(b, c0, sent, cmd);
      st := AppendTmsCommand(ctx, tms, cur, n, Walk(tap, Bits(tms), fromBitIdx, cur), tdi);
      if st != Ok {
        return;
      }
      sent := sent + cmd;
      cur := cur + n;
    }
    NextTmsBytes(tms, cur, toBitIdx, ctx.lastTdi, sent);
  }

  /** The adapter is at the point the reference machine has reached inside a Shift run. */
  ghost predicate At(ctx: Context, tdo: array<byte>, v: View)
    reads ctx, ctx.dev, ctx.txBuffer, ctx.rxBuffer, ctx.target
  {
    Ready(ctx) && ctx.target == tdo && ctx.chip.wave == v.wave && ctx.tdo == v.tdo && |v.tdo| == 8 * tdo.Length
  }

  /** Leading or trailing bits: one bit-wise command, its answer going to TDO bits [at, at + n). */
  method SendDataBits(ctx: Context, x: byte, tdo: array<byte>, at: nat, n: nat, ghost v: View, ghost tms: seq<bool>,
                      ghost tdi: seq<bool>)
    returns (st: Status)
    requires 1 <= n <= 7 && At(ctx, tdo, v) && Shifting(v.tap, tms, tdi, v.tdo, ctx.chip.tms, at, at + n)
    requires forall i :: 0 <= i < n ==> Bit(x, i) == tdi[at + i]
    modifies ctx`txNumBytes, ctx`rxNumBytes, ctx`observers, ctx`poolUsed, ctx`chip, ctx`tdo
    modifies ctx.dev, ctx.txBuffer, ctx.rxBuffer, ctx.target
    ensures st == Ok || st == DeviceError || st == PoolExhausted
    ensures st == PoolExhausted ==> old(ctx.poolUsed) + BIT_COPIER_SIZE + NODE_SIZE > POOL_SIZE
    ensures Accounts(old(ctx.dev.log), ctx.dev.log, st == DeviceError)
    ensures st == Ok ==> At(ctx, tdo, Play(ctx.dev.board, v, tms, tdi, at, at + n)) && ctx.chip.tms == old(ctx.chip.tms)
    ensures st == Ok ==> ctx.poolUsed == old(ctx.poolUsed) + BIT_COPIER_SIZE + NODE_SIZE
    ensures st == Ok ==> ctx.poolUsed <= POOL_SIZE && SameClock(ctx.chip, old(ctx.chip))
    ensures st == Ok ==> ctx.chip == Run(ctx.dev.board, old(ctx.chip), Command(CLK_DATA_BITS, n, x))
  {
    hide Bits, Bit, Run, Play, Uniform, Context.Valid, Command, Answer;
    var ok := ctx.PoolAlloc(BIT_COPIER_SIZE);
    if !ok {
      return PoolExhausted;
    }
    var fn := BitCopier(8 - n, tdo, at, n);
    DataCommandPlays(ctx.dev.board, ctx.chip, v, tms, tdi, at, n, x);
    CommandLength(CLK_DATA_BITS, n, x);
    st := ctx.AddWriteWithReadback(Command(CLK_DATA_BITS, n, x), fn, 1);
  }

  /** Whole bytes: a header, then the bytes themselves, their answers going straight to TDO bytes. */
  method SendBytes(ctx: Context, data: seq<byte>, tdo: array<byte>, at: nat, ghost v: View, ghost tms: seq<bool>,
                   ghost tdi: seq<bool>)
    returns (st: Status)
    requires 1 <= |data| <= 0x1_0000 && |data| <= ctx.txBuffer.Length && |data| <= ctx.rxBuffer.Length
    requires At(ctx, tdo, v) && at % 8 == 0 && Shifting(v.tap, tms, tdi, v.tdo, ctx.chip.tms, at, at + 8 * |data|)
    requires Bits(data) == tdi[at..at + 8 * |data|]
    modifies ctx`txNumBytes, ctx`rxNumBytes, ctx`observers, ctx`poolUsed, ctx`chip, ctx`tdo
    modifies ctx.dev, ctx.txBuffer, ctx.rxBuffer, ctx.target
    ensures st == Ok || st == DeviceError || st == PoolExhausted
    ensures st == PoolExhausted ==> old(ctx.poolUsed) + NODE_SIZE > POOL_SIZE
    ensures Accounts(old(ctx.dev.log), ctx.dev.log, st == DeviceError)
    ensures st == Ok ==>
      At(ctx, tdo, Play(ctx.dev.board, v, tms, tdi, at, at + 8 * |data|)) && ctx.chip.tms == old(ctx.chip.tms)
    ensures st == Ok ==> ctx.poolUsed == old(ctx.poolUsed) + NODE_SIZE
    ensures st == Ok ==> ctx.poolUsed <= POOL_SIZE && SameClock(ctx.chip, old(ctx.chip))
    ensures st == Ok ==> ctx.chip == Run(ctx.dev.board, old(ctx.chip), BytesHeader(|data|) + data)
  {
    hide Bits, Bit, Run, Play, Uniform, Context.Valid, Answer, BytesHeader, Splice;
    var n := |data|;
    ghost var b := ctx.dev.board;
    HeaderLength(n);
    RunBytesHeader(b, ctx.chip, n);
    RunConcat(b, ctx.chip, BytesHeader(n), data);
    st := ctx.Append(BytesHeader(n), None, 0);
    if st != Ok {
      return;
    }
    PayloadPlays(b, ctx.chip, v, tms, tdi, at, data, n);
    st := ctx.AddWriteWithReadback(data, BulkByteCopier(tdo, at / 8, n, 0), n);
  }

  /** The last bit of a run: one TMS command that also reads TDO. */
  method SendLastBit(ctx: Context, lastTdiBit: bool, lastTmsBit: bool, tdo: array<byte>, at: nat,
                     ghost v: View, ghost tms: seq<bool>, ghost tdi: seq<bool>)
    returns (st: Status)
    requires At(ctx, tdo, v) && InShift(v.tap) && at < |tms| && at < |tdi| && at < 8 * tdo.Length
    requires lastTdiBit == tdi[at] && lastTmsBit == tms[at]
    modifies ctx`txNumBytes, ctx`rxNumBytes, ctx`observers, ctx`poolUsed, ctx`chip, ctx`tdo, ctx`lastTdi
    modifies ctx.dev, ctx.txBuffer, ctx.rxBuffer, ctx.target
    ensures st == Ok || st == DeviceError || st == PoolExhausted
    ensures st == PoolExhausted ==> old(ctx.poolUsed) + BIT_COPIER_SIZE + NODE_SIZE > POOL_SIZE
    ensures Accounts(old(ctx.dev.log), ctx.dev.log, st == DeviceError)
    ensures st == Ok ==> At(ctx, tdo, Play(ctx.dev.board, v, tms, tdi, at, at + 1)) && ctx.chip.tms == tms[at]
    ensures st == Ok ==> ctx.lastTdi == Play(ctx.dev.board, v, tms, tdi, at, at + 1).lastTdi
    ensures st == Ok ==> ctx.poolUsed == old(ctx.poolUsed) + BIT_COPIER_SIZE + NODE_SIZE
    ensures st == Ok ==> ctx.poolUsed <= POOL_SIZE && SameClock(ctx.chip, old(ctx.chip))
    ensures st == Ok ==>
      ctx.chip == Run(ctx.dev.board, old(ctx.chip), Command(CLK_TMS_READ_NEG, 1, LastByte(lastTdiBit, lastTmsBit)))
  {
    hide Bits, Bit, Run, Play, Uniform, Context.Valid, Command, Answer;
    var ok := ctx.PoolAlloc(BIT_COPIER_SIZE);
    if !ok {
      return PoolExhausted;
    }
    var data := LastByte(lastTdiBit, lastTmsBit);
    LastCommandPlays(ctx.dev.board, ctx.chip, v, tms, tdi, at, data);
    CommandLength(CLK_TMS_READ_NEG, 1, data);
    st := ctx.AddWriteWithReadback(Command(CLK_TMS_READ_NEG, 1, data), BitCopier(7, tdo, at, 1), 1);
    if st == Ok {
      ctx.SetLastTdi(lastTdiBit);
    }
  }

  /** Where a Shift run from `from` to `to` stands after its first cur - from bits. */
  ghost predicate Within(ctx: Context, tdo: array<byte>, v: View, tms: seq<bool>, tdi: seq<bool>, from: nat, cur: nat,
                         to: nat)
    reads ctx, ctx.dev, ctx.txBuffer, ctx.rxBuffer, ctx.target
  {
    && from <= cur < to <= |tms| && to <= |tdi| && to <= |v.tdo|
    && Uniform(v.tap, tms, from, to, true)
    && At(ctx, tdo, Play(ctx.dev.board, v, tms, tdi, from, cur))
    && !ctx.chip.tms
  }

  lemma NothingSent(ctx: Context, tdo: array<byte>, v: View, tms: seq<bool>, tdi: seq<bool>, from: nat, to: nat)
    requires At(ctx, tdo, v) && !ctx.chip.tms && from < to <= |tms| && to <= |tdi| && to <= |v.tdo|
    requires Uniform(v.tap, tms, from, to, true)
    ensures Within(ctx, tdo, v, tms, tdi, from, from, to)
  {
    hide Play, Uniform, At;
    PlayNone(ctx.dev.board, v, tms, tdi, from);
  }

  method SendLeading(ctx: Context, tdi: seq<byte>, tdo: array<byte>, from: nat, n: nat, ghost to: nat, ghost v: View,
                     ghost tms: seq<bool>)
    returns (st: Status)
    requires 1 <= n <= 7 && from % 8 + n <= 8 && from + n < to
    requires Within(ctx, tdo, v, tms, Bits(tdi), from, from, to)
    modifies ctx`txNumBytes, ctx`rxNumBytes, ctx`observers, ctx`poolUsed, ctx`chip, ctx`tdo
    modifies ctx.dev, ctx.txBuffer, ctx.rxBuffer, ctx.target
    ensures st == Ok || st == DeviceError || st == PoolExhausted
    ensures st == PoolExhausted ==> old(ctx.poolUsed) + BIT_COPIER_SIZE + NODE_SIZE > POOL_SIZE
    ensures Accounts(old(ctx.dev.log), ctx.dev.log, st == DeviceError)
    ensures st == Ok ==> Within(ctx, tdo, v, tms, Bits(tdi), from, from + n, to)
    ensures st == Ok ==> ctx.poolUsed == old(ctx.poolUsed) + BIT_COPIER_SIZE + NODE_SIZE
    ensures st == Ok ==> ctx.poolUsed <= POOL_SIZE && SameClock(ctx.chip, old(ctx.chip))
    ensures st == Ok ==> ctx.chip == Run(ctx.dev.board, old(ctx.chip), LeadBytes(tdi, from, n))
  {
    hide Bits, Bit, Play, Uniform, Shifting, Context.Valid;
    ghost var b := ctx.dev.board;
    var x := tdi[from / 8] >> (from % 8);
    LeadingByte(tdi, from, n, x);
    Advance(b, v, tms, Bits(tdi), from, from, from + n, to);
    st := SendDataBits(ctx, x, tdo, from, n, Play(b, v, tms, Bits(tdi), from, from), tms, Bits(tdi));
  }

  method SendInner(ctx: Context, tdi: seq<byte>, tdo: array<byte>, ghost from: nat, cur: nat, n: nat, ghost to: nat,
                   ghost v: View, ghost tms: seq<bool>)
    returns (st: Status)
    requires 1 <= n <= 0x1_0000 && n <= ctx.txBuffer.Length && n <= ctx.rxBuffer.Length && cur % 8 == 0
    requires cur + 8 * n < to
    requires Within(ctx, tdo, v, tms, Bits(tdi), from, cur, to)
    modifies ctx`txNumBytes, ctx`rxNumBytes, ctx`observers, ctx`poolUsed, ctx`chip, ctx`tdo
    modifies ctx.dev, ctx.txBuffer, ctx.rxBuffer, ctx.target
    ensures st == Ok || st == DeviceError || st == PoolExhausted
    ensures st == PoolExhausted ==> old(ctx.poolUsed) + NODE_SIZE > POOL_SIZE
    ensures Accounts(old(ctx.dev.log), ctx.dev.log, st == DeviceError)
    ensures st == Ok ==> Within(ctx, tdo, v, tms, Bits(tdi), from, cur + 8 * n, to)
    ensures st == Ok ==> ctx.poolUsed == old(ctx.poolUsed) + NODE_SIZE
    ensures st == Ok ==> ctx.poolUsed <= POOL_SIZE && SameClock(ctx.chip, old(ctx.chip))
    ensures st == Ok ==> ctx.chip == Run(ctx.dev.board, old(ctx.chip), InnerBytes(tdi, cur, n))
  {
    hide Bits, Bit, Play, Uniform, Shifting, Context.Valid, Run, BytesHeader;
    ghost var b := ctx.dev.board;
    var data := tdi[cur / 8..cur / 8 + n];
    BitsSlice(tdi, cur / 8, cur / 8 + n);
    Advance(b, v, tms, Bits(tdi), from, cur, cur + 8 * n, to);
    st := SendBytes(ctx, data, tdo, cur, Play(b, v, tms, Bits(tdi), from, cur), tms, Bits(tdi));
  }

  method SendTrailing(ctx: Context, tdi: seq<byte>, tdo: array<byte>, ghost from: nat, cur: nat, n: nat, ghost to: nat,
                      ghost v: View, ghost tms: seq<bool>)
    returns (st: Status)
    requires 1 <= n < 8 && cur % 8 == 0 && cur + n < to
    requires Within(ctx, tdo, v, tms, Bits(tdi), from, cur, to)
    modifies ctx`txNumBytes, ctx`rxNumBytes, ctx`observers, ctx`poolUsed, ctx`chip, ctx`tdo
    modifies ctx.dev, ctx.txBuffer, ctx.rxBuffer, ctx.target
    ensures st == Ok || st == DeviceError || st == PoolExhausted
    ensures st == PoolExhausted ==> old(ctx.poolUsed) + BIT_COPIER_SIZE + NODE_SIZE > POOL_SIZE
    ensures Accounts(old(ctx.dev.log), ctx.dev.log, st == DeviceError)
    ensures st == Ok ==> Within(ctx, tdo, v, tms, Bits(tdi), from, cur + n, to)
    ensures st == Ok ==> ctx.poolUsed == old(ctx.poolUsed) + BIT_COPIER_SIZE + NODE_SIZE
    ensures st == Ok ==> ctx.poolUsed <= POOL_SIZE && SameClock(ctx.chip, old(ctx.chip))
    ensures st == Ok ==> ctx.chip == Run(ctx.dev.board, old(ctx.chip), TrailBytes(tdi, cur, n))
  {
    hide Bits, Bit, Play, Uniform, Shifting, Context.Valid;
    ghost var b := ctx.dev.board;
    TrailingByte(tdi, cur, n);
    Advance(b, v, tms, Bits(tdi), from, cur, cur + n, to);
    st := SendDataBits(ctx, tdi[cur / 8], tdo, cur, n, Play(b, v, tms, Bits(tdi), from, cur), tms, Bits(tdi));
  }

  /** The last bit of a run, once everything before it is queued. */
  method SendEnd(ctx: Context, tdi: seq<byte>, tdo: array<byte>, ghost from: nat, lastBitIdx: nat,
                 lastTmsBitHigh: bool, ghost v: View, ghost tms: seq<bool>)
    returns (st: Status)
    requires Within(ctx, tdo, v, tms, Bits(tdi), from, lastBitIdx, lastBitIdx + 1) && lastTmsBitHigh == tms[lastBitIdx]
    modifies ctx`txNumBytes, ctx`rxNumBytes, ctx`observers, ctx`poolUsed, ctx`chip, ctx`tdo, ctx`lastTdi
    modifies ctx.dev, ctx.txBuffer, ctx.rxBuffer, ctx.target
    ensures st == Ok || st == DeviceError || st == PoolExhausted
    ensures st == PoolExhausted ==> old(ctx.poolUsed) + BIT_COPIER_SIZE + NODE_SIZE > POOL_SIZE
    ensures Accounts(old(ctx.dev.log), ctx.dev.log, st == DeviceError)
    ensures st == Ok ==> Ready(ctx) && ctx.chip.tms == lastTmsBitHigh
    ensures st == Ok ==>
      Play(ctx.dev.board, v, tms, Bits(tdi), from, lastBitIdx + 1)
          == ViewOf(ctx, Walk(v.tap, tms, from, lastBitIdx + 1))
    ensures st == Ok ==> ctx.poolUsed == old(ctx.poolUsed) + BIT_COPIER_SIZE + NODE_SIZE
    ensures st == Ok ==> ctx.poolUsed <= POOL_SIZE && SameClock(ctx.chip, old(ctx.chip))
    ensures st == Ok ==> ctx.chip == Run(ctx.dev.board, old(ctx.chip), EndBytes(tdi, lastBitIdx, lastTmsBitHigh))
  {
    hide Bits, Bit, Play, Context.Valid;
    ghost var b := ctx.dev.board;
    ghost var t := Bits(tdi);
    PlaySplit(b, v, tms, t, from, lastBitIdx, lastBitIdx + 1);
    PlayTap(b, v, tms, t, from, lastBitIdx);
    PlayTap(b, v, tms, t, from, lastBitIdx + 1);
    assert InShift(Walk(v.tap, tms, from, lastBitIdx));
    var lastTdiBit := GetBit(tdi, lastBitIdx);
    st := SendLastBit(ctx, lastTdiBit, lastTmsBitHigh, tdo, lastBitIdx, Play(b, v, tms, t, from, lastBitIdx), tms, t);
  }

  /** All bits of a Shift run but the last: leading bits, whole bytes, trailing bits. */
  method SendRegularBits(ctx: Context, tdi: seq<byte>, tdo: array<byte>, fromBitIdx: nat, toBitIdx: nat, cut: Cut,
                         ghost v: View, ghost tms: seq<bool>)
    returns (st: Status, cur: nat)
    requires fromBitIdx < toBitIdx <= 8 * |tdi| && cut == CutRun(fromBitIdx, toBitIdx)
    requires Within(ctx, tdo, v, tms, Bits(tdi), fromBitIdx, fromBitIdx, toBitIdx)
    requires ctx.poolUsed <= POOL_SIZE
    requires cut.inner <= ctx.chipBufferSize <= 0x1_0000
    requires ctx.chipBufferSize <= ctx.txBuffer.Length && ctx.chipBufferSize <= ctx.rxBuffer.Length
    modifies ctx`txNumBytes, ctx`rxNumBytes, ctx`observers, ctx`poolUsed, ctx`chip, ctx`tdo
    modifies ctx.dev, ctx.txBuffer, ctx.rxBuffer, ctx.target
    ensures st == Ok || st == DeviceError || st == PoolExhausted
    ensures st == PoolExhausted ==>
      old(ctx.poolUsed) + RunCost(cut) > POOL_SIZE + (if cut.inner > 0 then BULK_COPIER_SIZE else 0)
    ensures Accounts(old(ctx.dev.log), ctx.dev.log, st == DeviceError)
    ensures st == Ok ==> cur == toBitIdx - 1 && Within(ctx, tdo, v, tms, Bits(tdi), fromBitIdx, cur, toBitIdx)
    ensures st == Ok ==> ctx.poolUsed + BIT_COPIER_SIZE + NODE_SIZE + (if cut.inner > 0 then BULK_COPIER_SIZE else 0)
                         == old(ctx.poolUsed) + RunCost(cut)
    ensures st == Ok ==> ctx.poolUsed <= POOL_SIZE && SameClock(ctx.chip, old(ctx.chip))
    ensures st == Ok ==> ctx.chip == Run(ctx.dev.board, old(ctx.chip), RegularBytes(tdi, fromBitIdx, toBitIdx))
  {
    hide Within, Bits, Run, LeadBytes, InnerBytes, TrailBytes, CutRun, RegularBytes;
    CutCovers(fromBitIdx, toBitIdx);
    ghost var b, c0 := ctx.dev.board, ctx.chip;
    RunRegular(b, c0, tdi, fromBitIdx, toBitIdx);
    ghost var c1 := Run(b, c0, LeadBytes(tdi, fromBitIdx, cut.leading));
    ghost var c2 := Run(b, c1, InnerBytes(tdi, fromBitIdx + cut.leading, cut.inner));
    var lastBitIdx := toBitIdx - 1;
    var innerEndIdx := lastBitIdx - cut.trailing;
    st, cur := Ok, fromBitIdx;
    if cur == fromBitIdx && cut.leading > 0 {
      st := SendLeading(ctx, tdi, tdo, fromBitIdx, cut.leading, toBitIdx, v, tms);
      if st != Ok { return; }
      cur := cur + cut.leading;
    }
    assert ctx.chip == c1 && cur == fromBitIdx + cut.leading;
    if cur < lastBitIdx && innerEndIdx > cur {
      var octets := if (innerEndIdx - cur) / 8 < ctx.chipBufferSize then (innerEndIdx - cur) / 8
          else ctx.chipBufferSize;
      st := SendInner(ctx, tdi, tdo, fromBitIdx, cur, octets, toBitIdx, v, tms);
      if st != Ok { return; }
      cur := cur + 8 * octets;
    }
    assert ctx.chip == c2 && cur == lastBitIdx - cut.trailing;
    if cut.trailing > 0 && cur < lastBitIdx {
      st := SendTrailing(ctx, tdi, tdo, fromBitIdx, cur, cut.trailing, toBitIdx, v, tms);
      if st != Ok { return; }
      cur := cur + cut.trailing;
    }
  }

  /** Clocks a Shift run [fromBitIdx, toBitIdx), reading TDO. */
  method AppendTdiShift(ctx: Context, tdi: seq<byte>, tdo: array<byte>, fromBitIdx: nat, toBitIdx: nat,
                        lastTmsBitHigh: bool, ghost tap: Tap, ghost tms: seq<bool>)
    returns (st: Status)
    requires Ready(ctx) && ctx.target == tdo && |ctx.tdo| == 8 * tdo.Length && !ctx.chip.tms
    requires fromBitIdx < toBitIdx <= 8 * |tdi| && toBitIdx <= |tms| && toBitIdx <= 8 * tdo.Length
    requires Uniform(tap, tms, fromBitIdx, toBitIdx, true) && tms[toBitIdx - 1] == lastTmsBitHigh
    requires ctx.poolUsed <= POOL_SIZE
    requires CutRun(fromBitIdx, toBitIdx).inner <= ctx.chipBufferSize <= 0x1_0000
    requires 1 <= ctx.chipBufferSize <= ctx.txBuffer.Length && ctx.chipBufferSize <= ctx.rxBuffer.Length
    modifies ctx`txNumBytes, ctx`rxNumBytes, ctx`observers, ctx`poolUsed, ctx`chip, ctx`tdo, ctx`lastTdi
    modifies ctx.dev, ctx.txBuffer, ctx.rxBuffer, ctx.target
    ensures st == Ok || st == DeviceError || st == PoolExhausted
    ensures st == PoolExhausted ==> old(ctx.poolUsed) + RunCost(CutRun(fromBitIdx, toBitIdx)) > POOL_SIZE
    ensures Accounts(old(ctx.dev.log), ctx.dev.log, st == DeviceError)
    ensures st == Ok ==> Ready(ctx) && ctx.chip.tms == lastTmsBitHigh && ctx.poolUsed <= POOL_SIZE
    ensures st == Ok ==> ctx.poolUsed == old(ctx.poolUsed) + RunCost(CutRun(fromBitIdx, toBitIdx))
    ensures st == Ok ==>
      Play(ctx.dev.board, old(ViewOf(ctx, tap)), tms, Bits(tdi), fromBitIdx, toBitIdx) ==
      ViewOf(ctx, Walk(tap, tms, fromBitIdx, toBitIdx))
    ensures st == Ok ==> var job := Job(tdi, fromBitIdx, toBitIdx, lastTmsBitHigh, ctx.chipBufferSize);
      && Sound(job) && ctx.chip == Run(ctx.dev.board, old(ctx.chip), Sent(Emit(job, fromBitIdx)))
      && SameClock(ctx.chip, old(ctx.chip))
  {
    hide Bits, Bit, Play, Uniform, Context.Valid, Walk, Emit, Sent, RegularBytes, EndBytes, CutRun, Run, Within;
    ghost var v, b, t, used := ViewOf(ctx, tap), ctx.dev.board, Bits(tdi), ctx.poolUsed;
    ghost var c0, job := ctx.chip, Job(tdi, fromBitIdx, toBitIdx, lastTmsBitHigh, ctx.chipBufferSize);
    RunSent(job);
    RunConcat(b, c0, RegularBytes(tdi, fromBitIdx, toBitIdx), EndBytes(tdi, toBitIdx - 1, lastTmsBitHigh));
    CutCovers(fromBitIdx, toBitIdx);
    var cut := CutRun(fromBitIdx, toBitIdx);
    var lastBitIdx := toBitIdx - 1;
    st := Ok;
    if cut.inner > 0 {
      var ok := ctx.PoolAlloc(BULK_COPIER_SIZE);
      if !ok {
        return PoolExhausted;
      }
    }
    NothingSent(ctx, tdo, v, tms, t, fromBitIdx, toBitIdx);
    var cur := fromBitIdx;
    while cur < toBitIdx
      invariant st == Ok && (cur == fromBitIdx || cur == toBitIdx)
      invariant Accounts(old(ctx.dev.log), ctx.dev.log, false)
      invariant cur == fromBitIdx ==> Within(ctx, tdo, v, tms, t, fromBitIdx, cur, toBitIdx)
      invariant ctx.chip == if cur == fromBitIdx then c0 else Run(b, c0, Sent(Emit(job, fromBitIdx)))
      invariant cur == fromBitIdx ==> ctx.poolUsed == used + (if cut.inner > 0 then BULK_COPIER_SIZE else 0)
      invariant cur == toBitIdx ==> Ready(ctx) && ctx.chip.tms == lastTmsBitHigh && ctx.poolUsed == used + RunCost(cut)
      invariant ctx.poolUsed <= POOL_SIZE && SameClock(ctx.chip, c0)
      invariant cur == toBitIdx ==>
        Play(b, v, tms, t, fromBitIdx, toBitIdx) == ViewOf(ctx, Walk(tap, tms, fromBitIdx, toBitIdx))
      decreases toBitIdx - cur
    {
      st, cur := SendRegularBits(ctx, tdi, tdo, fromBitIdx, toBitIdx, cut, v, tms);
      if st != Ok { return; }
      if cur == lastBitIdx {
        st := SendEnd(ctx, tdi, tdo, fromBitIdx, lastBitIdx, lastTmsBitHigh, v, tms);
        if st != Ok { return; }
        cur := cur + 1;
      }
    }
  }

  /**
    Between scans: nothing queued, nothing unread, the engine idle, the pool empty, and the TMS
    pin low whenever the tracked TAP state is a Shift state.
  */
  ghost predicate Resting(ctx: Context)
    reads ctx, ctx.dev
  {
    && ctx.Quiet() && ctx.chip.phase.Idle? && ctx.poolUsed == 0
    && 4 <= ctx.txBuffer.Length && 1 <= ctx.rxBuffer.Length
    && 1 <= ctx.chipBufferSize <= 0x1_0000 && ctx.chipBufferSize <= ctx.txBuffer.Length
        && ctx.chipBufferSize <= ctx.rxBuffer.Length
    && (InShift(ctx.state) ==> !ctx.chip.tms)
  }

  /**
    The adapter has queued exactly the bits [0, first) of a scan that started in view `v`: as the bytes
    `sent` after engine `c0`, and with `used` bytes of the pool.
  */
  ghost predicate Built(ctx: Context, tdo: array<byte>, v: View, q: Vectors, first: nat, c0: Chip, sent: seq<byte>,
                        used: nat)
    reads ctx, ctx.dev, ctx.txBuffer, ctx.rxBuffer, ctx.target
  {
    var t, d := Bits(q.tms), Bits(q.tdi);
    && Proper(q) && q.tap == v.tap && q.last == v.lastTdi && first <= q.bits <= |v.tdo|
    && Ready(ctx) && ctx.target == tdo && |v.tdo| == 8 * tdo.Length
    && ViewOf(ctx, Walk(v.tap, t, 0, first)) == Play(ctx.dev.board, v, t, d, 0, first)
    && (InShift(Walk(v.tap, t, 0, first)) ==> !ctx.chip.tms)
    && ctx.poolUsed == used <= POOL_SIZE
    && ctx.chip == Run(ctx.dev.board, c0, sent) && SameClock(ctx.chip, c0)
  }

  /** The buffers can take any single command of a run that fits. */
  ghost predicate Roomy(ctx: Context) {
    1 <= ctx.chipBufferSize <= 0x1_0000 && ctx.chipBufferSize <= ctx.txBuffer.Length
        && ctx.chipBufferSize <= ctx.rxBuffer.Length
  }

  /** A maximal stretch of bits on one side of the Shift boundary becomes commands. */
  method EmitSegment(ctx: Context, tms: seq<byte>, tdi: seq<byte>, tdo: array<byte>, first: nat, next: nat,
                     isShift: bool, leavingShift: bool,
                     ghost v: View, ghost q: Vectors, ghost c0: Chip, ghost sent: seq<byte>, ghost used: nat)
    returns (st: Status)
    requires q == Vectors(v.tap, v.lastTdi, tms, tdi, q.bits, ctx.chipBufferSize) && Roomy(ctx)
    requires Built(ctx, tdo, v, q, first, c0, sent, used) && first < next <= q.bits
    requires Uniform(Walk(v.tap, Bits(tms), 0, first), Bits(tms), first, next, isShift)
    requires leavingShift == (isShift && !InShift(Walk(v.tap, Bits(tms), 0, next)))
    requires RunsFit(v.tap, Bits(tms), 0, q.bits, ctx.chipBufferSize)
    modifies ctx`txNumBytes, ctx`rxNumBytes, ctx`observers, ctx`poolUsed, ctx`chip, ctx`tdo, ctx`lastTdi
    modifies ctx.dev, ctx.txBuffer, ctx.rxBuffer, ctx.target
    ensures st == Ok || st == DeviceError || st == PoolExhausted
    ensures st == PoolExhausted ==> isShift && used + RunCost(CutRun(first, next)) > POOL_SIZE
    ensures Accounts(old(ctx.dev.log), ctx.dev.log, st == DeviceError)
    ensures st == Ok ==> Built(ctx, tdo, v, q, next, c0,
      sent + SegmentBytes(q, first, next, isShift, leavingShift,
          Held(v.tap, v.lastTdi, Bits(tms), Bits(tdi), 0, first)),
      used + if isShift then RunCost(CutRun(first, next)) else 0)
  {
    hide Bits, Uniform, Play, Walk, Ready, RunCost, CutRun, Emit, Sent, Run, TmsBytes, Held, InShift;
    ghost var t, d := Bits(tms), Bits(tdi);
    ghost var b, tap, level := ctx.dev.board, Walk(v.tap, t, 0, first), ctx.lastTdi;
    SegmentFacts(b, v, t, d, first, next, isShift);
    PlayHeld(b, v, t, d, 0, first);
    RunConcat(b, c0, sent, SegmentBytes(q, first, next, isShift, leavingShift, level));
    if isShift {
      st := AppendTdiShift(ctx, tdi, tdo, first, next, leavingShift, tap, t);
    } else {
      st := AppendTmsShift(ctx, tms, first, next, tap, d);
    }
  }

  /** What a segment's end state says about its last TMS bit. */
  lemma SegmentFacts(b: Board, v: View, tms: seq<bool>, tdi: seq<bool>, first: nat, next: nat, shift: bool)
    requires first < next <= |tms| && next <= |tdi| && next <= |v.tdo|
    requires Uniform(Walk(v.tap, tms, 0, first), tms, first, next, shift)
    ensures var s, e := Walk(v.tap, tms, 0, first), Walk(v.tap, tms, 0, next);
      && Walk(s, tms, first, next) == e
      && Play(b, Play(b, v, tms, tdi, 0, first), tms, tdi, first, next) == Play(b, v, tms, tdi, 0, next)
      && (InShift(e) ==> !tms[next - 1])
      && (shift ==> tms[next - 1] == !InShift(e) && InShift(s))
  {
    hide Next, InShift, Play;
    var s := Walk(v.tap, tms, 0, first);
    WalkSplit(v.tap, tms, 0, first, next);
    WalkSplit(v.tap, tms, 0, first, next - 1);
    PlaySplit(b, v, tms, tdi, 0, first, next);
    var p := Walk(v.tap, tms, 0, next - 1);
    assert InShift(Walk(s, tms, first, next - 1)) == shift;
    assert InShift(Walk(s, tms, first, first)) == shift;
    if InShift(p) {
      LeavesShiftIffHigh(p, tms[next - 1]);
    }
    if InShift(Next(p, tms[next - 1])) {
      EntersShiftLow(p, tms[next - 1]);
    }
  }

  /** One bit of the scan loop extends the current segment or closes it. */
  lemma ExtendSegment(tap: Tap, tms: seq<bool>, first: nat, i: nat)
    requires first <= i < |tms|
    requires Uniform(Walk(tap, tms, 0, first), tms, first, i, InShift(Walk(tap, tms, 0, i)))
    ensures Uniform(Walk(tap, tms, 0, first), tms, first, i + 1, InShift(Walk(tap, tms, 0, i)))
    ensures Walk(tap, tms, 0, i + 1) == Next(Walk(tap, tms, 0, i), tms[i])
  {
    hide Next, InShift;
    WalkSplit(tap, tms, 0, first, i);
  }

  /** Nothing is queued before bit 0. */
  lemma StartOfScan(b: Board, v: View, tms: seq<bool>, tdi: seq<bool>)
    ensures Play(b, v, tms, tdi, 0, 0) == v && Walk(v.tap, tms, 0, 0) == v.tap
    ensures Uniform(v.tap, tms, 0, 0, InShift(v.tap))
  {
  }

  /** The remaining TMS bits of the byte being scanned, the next one in bit 0. */
  ghost predicate Upcoming(tmsByte: byte, tms: seq<bool>, i: nat, end: nat) {
    && i <= end <= |tms| && end - i <= 8
    && forall k :: 0 <= k < end - i ==> Bit(tmsByte, k) == tms[i + k]
  }

  lemma UpcomingByte(tms: seq<byte>, i: nat, end: nat)
    requires i % 8 == 0 && i < end <= 8 * |tms| && end <= i + 8
    ensures Upcoming(tms[i / 8], Bits(tms), i, end)
  {
    hide Bits, Bit;
    forall k | 0 <= k < end - i ensures Bit(tms[i / 8], k) == Bits(tms)[i + k] {
      BitsAt(tms, i + k);
    }
  }

  lemma UpcomingShift(x: byte, tms: seq<bool>, i: nat, end: nat)
    requires i < end && Upcoming(x, tms, i, end)
    ensures Upcoming(x >> 1, tms, i + 1, end) && Bit(x, 0) == tms[i]
  {
    hide Bit;
    var y := x >> 1;
    forall k | 0 <= k < end - (i + 1) ensures Bit(y, k) == tms[i + 1 + k] {
      BitOfShiftRight(x, 1, k);
      assert Bit(x, k + 1) == tms[i + (k + 1)];
    }
    assert Bit(x, 0) == tms[i + 0];
  }

  /**
    How far the scan loop is: bits before `first` are queued, bits up to `i` belong to the segment
    being gathered, and the bytes queued are exactly those of the segments that have ended.
  */
  ghost predicate Scanning(ctx: Context, tdo: array<byte>, v: View, q: Vectors, c0: Chip, first: nat, i: nat, tap: Tap)
    reads ctx, ctx.dev, ctx.txBuffer, ctx.rxBuffer, ctx.target
  {
    var t := Bits(q.tms);
    && Proper(q) && i <= q.bits && first == FirstPending(q.tap, t, q.bits, i)
    && Built(ctx, tdo, v, q, first, c0, ScanBytes(q, i), PoolUse(q.tap, t, q.bits, i))
    && tap == Walk(v.tap, t, 0, i)
    && Uniform(Walk(v.tap, t, 0, first), t, first, i, InShift(tap))
  }

  /**
    The TMS bits of one byte: track the TAP and emit a segment at every Shift boundary and at the end of the
    vector.
  */
  method ScanByte(ctx: Context, tms: seq<byte>, tdi: seq<byte>, tdo: array<byte>, bits: nat, firstPending: nat,
                  bitIdx: nat, jtagState: Tap, ghost v: View, ghost q: Vectors, ghost c0: Chip)
    returns (st: Status, first: nat, i: nat, s: Tap)
    requires q == Vectors(v.tap, v.lastTdi, tms, tdi, bits, ctx.chipBufferSize) && Roomy(ctx)
    requires Scanning(ctx, tdo, v, q, c0, firstPending, bitIdx, jtagState) && bitIdx % 8 == 0
    requires bitIdx < bits <= 8 * |tms|
    requires RunsFit(v.tap, Bits(tms), 0, bits, ctx.chipBufferSize)
    modifies ctx`txNumBytes, ctx`rxNumBytes, ctx`observers, ctx`poolUsed, ctx`chip, ctx`tdo, ctx`lastTdi
    modifies ctx.dev, ctx.txBuffer, ctx.rxBuffer, ctx.target
    ensures st == Ok || st == DeviceError || st == PoolExhausted
    ensures st == PoolExhausted ==> PoolUse(v.tap, Bits(tms), bits, bits) > POOL_SIZE
    ensures Accounts(old(ctx.dev.log), ctx.dev.log, st == DeviceError)
    ensures st == Ok ==> Scanning(ctx, tdo, v, q, c0, first, i, s) && i > bitIdx && (i % 8 == 0 || i == bits)
  {
    hide Bits, Uniform, Play, Walk, Bit, Upcoming, Built, RunsFit, PoolUse, ScanBytes, FirstPending, InShift, RunCost,
         CutRun, SegmentBytes, Held, Next;
    first, i, s, st := firstPending, bitIdx, jtagState, Ok;
    var tmsByte := tms[i / 8];
    var roundEnd := if i + 8 > bits then bits else i + 8;
    UpcomingByte(tms, i, roundEnd);
    while i < roundEnd
      invariant bitIdx <= i <= roundEnd && st == Ok
      invariant Accounts(old(ctx.dev.log), ctx.dev.log, false)
      invariant Scanning(ctx, tdo, v, q, c0, first, i, s)
      invariant Upcoming(tmsByte, Bits(tms), i, roundEnd)
    {
      var tmsBit := Bit(tmsByte, 0);
      UpcomingShift(tmsByte, Bits(tms), i, roundEnd);
      ExtendSegment(v.tap, Bits(tms), first, i);
      NextBit(q, i);
      var nextState := Next(s, tmsBit);
      var enteringShift := !InShift(s) && InShift(nextState);
      var leavingShift := InShift(s) && !InShift(nextState);
      var endOfVector := i == bits - 1;
      if endOfVector || enteringShift || leavingShift {
        PoolUseGrows(v.tap, Bits(tms), bits, i + 1, bits);
        st := EmitSegment(ctx, tms, tdi, tdo, first, i + 1, InShift(s), leavingShift, v, q, c0,
                          ScanBytes(q, i), PoolUse(v.tap, Bits(tms), bits, i));
        if st != Ok {
          return;
        }
        first := i + 1;
        EmptySegment(v.tap, Bits(tms), first, InShift(nextState));
      }
      s, i, tmsByte := nextState, i + 1, tmsByte >> 1;
    }
  }

  lemma EmptySegment(tap: Tap, tms: seq<bool>, i: nat, shift: bool)
    requires i <= |tms|
    ensures Uniform(Walk(tap, tms, 0, i), tms, i, i, shift)
  {
  }

  /** The scan loop: every bit of the vectors ends up queued, and the TAP state after them is returned. */
  method QueueScan(ctx: Context, tms: seq<byte>, tdi: seq<byte>, tdo: array<byte>, bits: nat, ghost v: View,
                   ghost q: Vectors)
    returns (st: Status, jtagState: Tap)
    requires q == Vectors(v.tap, v.lastTdi, tms, tdi, bits, ctx.chipBufferSize) && Roomy(ctx)
    requires Ready(ctx) && ctx.target == tdo && |ctx.tdo| == 8 * tdo.Length && ctx.poolUsed == 0
    requires v == ViewOf(ctx, ctx.state) && (InShift(ctx.state) ==> !ctx.chip.tms)
    requires 0 < bits <= 8 * |tms| && bits <= 8 * |tdi| && bits <= 8 * tdo.Length
    requires RunsFit(v.tap, Bits(tms), 0, bits, ctx.chipBufferSize)
    modifies ctx`txNumBytes, ctx`rxNumBytes, ctx`observers, ctx`poolUsed, ctx`chip, ctx`tdo, ctx`lastTdi
    modifies ctx.dev, ctx.txBuffer, ctx.rxBuffer, tdo
    ensures st == Ok || st == DeviceError || st == PoolExhausted
    ensures st == PoolExhausted ==> PoolUse(v.tap, Bits(tms), bits, bits) > POOL_SIZE
    ensures Accounts(old(ctx.dev.log), ctx.dev.log, st == DeviceError)
    ensures st == Ok ==> Scanning(ctx, tdo, v, q, old(ctx.chip), bits, bits, jtagState)
  {
    hide Bits, Uniform, Play, Walk, Ready, RunsFit, Run;
    jtagState := ctx.state;
    StartOfScan(ctx.dev.board, v, Bits(tms), Bits(tdi));
    RunNone(ctx.dev.board, ctx.chip);
    ghost var c0 := ctx.chip;
    var firstPending := 0;
    var bitIdx := 0;
    st := Ok;
    while bitIdx < bits
      invariant st == Ok && 0 <= bitIdx <= bits && (bitIdx % 8 == 0 || bitIdx == bits)
      invariant Accounts(old(ctx.dev.log), ctx.dev.log, false)
      invariant Scanning(ctx, tdo, v, q, c0, firstPending, bitIdx, jtagState)
    {
      st, firstPending, bitIdx, jtagState := ScanByte(ctx, tms, tdi, tdo, bits, firstPending, bitIdx, jtagState, v, q,
          c0);
      if st != Ok {
        return;
      }
    }
  }

  /** The vectors of a scan that would start now. */
  ghost function VectorsOf(ctx: Context, tms: seq<byte>, tdi: seq<byte>, bits: nat): Vectors
    reads ctx
  {
    Vectors(ctx.state, ctx.lastTdi, tms, tdi, bits, ctx.chipBufferSize)
  }

  /**
    A scan: the whole pair of vectors is clocked exactly as the reference machine clocks it one
    bit at a time, and the TDO vector holds exactly the bits it collects. The device is sent one
    stream of bytes, the same for all buffer capacities. Besides a rejected call and a failing
    device only the pool can end it, and only when the vector takes more than there is.
  */
  method Scan(ctx: Context, tms: seq<byte>, tdi: seq<byte>, tdo: array<byte>, bits: int) returns (st: Status)
    requires Resting(ctx) && tdo != ctx.txBuffer && tdo != ctx.rxBuffer
    requires bits <= 8 * |tms| && bits <= 8 * |tdi| && bits <= 8 * tdo.Length
    requires bits > 0 ==> RunsFit(ctx.state, Bits(tms), 0, bits, ctx.chipBufferSize)
    modifies ctx, ctx.dev, ctx.txBuffer, ctx.rxBuffer, tdo
    ensures st == Ok || st == DeviceError || st == Rejected || st == PoolExhausted
    ensures Accounts(old(ctx.dev.log), ctx.dev.log, st == DeviceError)
    ensures st == Rejected <==> !old(ctx.isOpen) || bits <= 0
    ensures st == Rejected ==>
      Resting(ctx) && old(ViewOf(ctx, ctx.state)) == ViewOf(ctx, ctx.state) && tdo[..] == old(tdo[..])
    ensures st == PoolExhausted ==> bits > 0 && PoolUse(old(ctx.state), Bits(tms), bits, bits) > POOL_SIZE
    ensures st == Ok ==> bits > 0 && PoolUse(old(ctx.state), Bits(tms), bits, bits) <= POOL_SIZE
    ensures st == Ok ==> Resting(ctx) && ctx.isOpen
    ensures st == Ok ==>
      Play(ctx.dev.board, View(old(ctx.state), old(ctx.lastTdi), old(ctx.dev.chip.wave), old(Bits(tdo[..]))),
          Bits(tms), Bits(tdi), 0, bits) ==
      View(ctx.state, ctx.lastTdi, ctx.dev.chip.wave, Bits(tdo[..]))
    ensures st == Ok ==> Proper(old(VectorsOf(ctx, tms, tdi, bits)))
    ensures st == Ok ==>
      ctx.dev.chip == Run(ctx.dev.board, old(ctx.dev.chip), ScanBytes(old(VectorsOf(ctx, tms, tdi, bits)), bits))
    ensures st == Ok ==> SameClock(ctx.dev.chip, old(ctx.dev.chip))
  {
    hide Bits, Uniform, Play, Walk, Bit, Run, PoolUse, ScanBytes, RunsFit, FirstPending, InShift, SameClock;
    if !ctx.isOpen || bits <= 0 {
      return Rejected;
    }
    ctx.Aim(tdo);
    var jtagState;
    st, jtagState := QueueScan(ctx, tms, tdi, tdo, bits, ViewOf(ctx, ctx.state), VectorsOf(ctx, tms, tdi, bits));
    if st != Ok {
      return;
    }
    st := ctx.Flush();
    if st == Ok {
      ctx.Settle(jtagState);
    }
  }

  /** Programs the TCK divisor at once; the vectors and the TAP are not touched. */
  method SetFrequency(ctx: Context, frequencyHz: nat) returns (st: Status, actual: nat)
    requires Resting(ctx)
    modifies ctx, ctx.dev, ctx.txBuffer, ctx.rxBuffer
    ensures st == Ok || st == DeviceError || st == Rejected
    ensures Accounts(old(ctx.dev.log), ctx.dev.log, st == DeviceError)
    ensures st == Rejected <==> !old(ctx.isOpen)
    ensures st == Rejected ==>
      Resting(ctx) && ctx.state == old(ctx.state) && ctx.lastTdi == old(ctx.lastTdi)
          && ctx.dev.chip == old(ctx.dev.chip)
    ensures st == Ok ==> Resting(ctx) && ctx.isOpen && ctx.state == old(ctx.state) && ctx.lastTdi == old(ctx.lastTdi)
    ensures st == Ok ==> actual == Tck(DivisorFor(frequencyHz)) && actual > 0
    ensures st == Ok ==> ctx.dev.chip == old(ctx.dev.chip).(divisor := DivisorFor(frequencyHz), divideBy5 := false)
  {
    hide Run, DivisorFor, Tck, SetDivisor, Bits;
    if !ctx.isOpen {
      return Rejected, 0;
    }
    var none := new byte[0]; // no TDO vector is involved
    ctx.Aim(none);
    var divisor := DivisorFor(frequencyHz);
    actual := Tck(divisor);
    FrequencyIsOptimal(frequencyHz);
    RunSetDivisor(ctx.dev.board, ctx.chip, divisor);
    SetDivisorLength(divisor);
    st := ctx.Append(SetDivisor(divisor), None, 0);
    if st == Ok {
      st := ctx.Flush();
    }
  }

  lemma SetDivisorLength(divisor: nat)
    requires divisor < 0x1_0000
    ensures |SetDivisor(divisor)| == 4
  {
  }
}
