/**
  The adapter's context and its buffered, deferred transport (`struct mpsse_buffer`).
  Commands pile up in the TX buffer and observers in a queue, until a flush sends the
  bytes, collects the answers and lets the observers fill the TDO vector.

  Two ghost fields say what the queued work amounts to: `chip` is the engine after every
  byte queued so far, and `tdo` is the TDO vector after every queued observer. A flush
  changes neither, so nothing a caller can prove depends on when flushes happen.
*/
module MpsseBuffer {
  import opened Bytes
  import opened BitBuffers
  import opened Jtag
  import opened Chip
  import opened Driver
  import opened Observers
  import opened Options

  /** Why a call returned: the C code returns 0 or -1 and logs the reason. */
  datatype Status = Ok | Rejected | DeviceError | PoolExhausted | BufferOverflow

  const READ_TIMEOUT_US: nat := 500000
  const MAX_SPIN: nat := 1000

  class Context {
    const dev: Device
    const txBuffer: array<byte>
    const rxBuffer: array<byte>
    const chipBufferSize: nat
    var txNumBytes: nat
    var rxNumBytes: nat
    var observers: seq<Observer>
    var poolUsed: nat
    var state: Tap
    var lastTdi: bool
    var isOpen: bool
    ghost var chip: Chip
    ghost var target: array<byte>
    ghost var tdo: seq<bool>

    /** A freshly opened adapter: the setup commands left the engine idle and nothing is queued. */
    constructor (dev: Device, chipBufferSize: nat, txCapacity: nat, rxCapacity: nat)
      requires dev.Valid() && dev.chip.phase.Idle? && dev.taken == |dev.chip.answers|
      ensures Valid() && Drained() && this.dev == dev && this.chipBufferSize == chipBufferSize
      ensures txBuffer.Length == txCapacity && rxBuffer.Length == rxCapacity && fresh(txBuffer) && fresh(rxBuffer)
      ensures fresh(target) && chip == dev.chip
      ensures state == TestLogicReset && !lastTdi && poolUsed == 0 && isOpen
    {
      this.dev := dev;
      this.chipBufferSize := chipBufferSize;
      txBuffer := new byte[txCapacity];
      rxBuffer := new byte[rxCapacity];
      target := new byte[0];
      txNumBytes, rxNumBytes, observers, poolUsed := 0, 0, [], 0;
      state, lastTdi, isOpen := TestLogicReset, false, true;
      chip := dev.chip;
      new;
      tdo := Bits(target[..]);
    }

    ghost predicate Shape()
      reads this
    {
      && txNumBytes <= txBuffer.Length && rxNumBytes <= rxBuffer.Length
      && txBuffer != rxBuffer && target != txBuffer && target != rxBuffer
    }

    /** The device plus the unsent bytes make `chip`, and the unread answers are counted exactly. */
    ghost predicate Stream()
      requires Shape()
      reads this, dev, txBuffer
    {
      && dev.Valid()
      && chip == Run(dev.board, dev.chip, txBuffer[..txNumBytes])
      && dev.taken + rxNumBytes == |chip.answers|
    }

    /** The observers tile the unread answers, and landing them all makes `tdo`. */
    ghost predicate Deferred()
      requires Shape()
      reads this, dev, target
    {
      && dev.taken <= |chip.answers|
      && Tiles(observers, |chip.answers| - dev.taken, 8 * target.Length)
      && (forall i :: 0 <= i < |observers| ==> observers[i].fn.dst == target)
      && tdo == LandAll(observers, Bits(target[..]), chip.answers[dev.taken..])
    }

    ghost predicate Valid()
      reads this, dev, txBuffer, rxBuffer, target
    {
      Shape() && Stream() && Deferred()
    }

    /** Nothing is queued: the device has every byte and the host every answer. */
    ghost predicate Quiet()
      reads this, dev
    {
      && Shape()
      && txNumBytes == 0 && rxNumBytes == 0 && observers == []
      && dev.chip == chip && dev.taken == |chip.answers|
    }

    /** Besides, the deferred TDO vector is the one in memory. */
    ghost predicate Drained()
      reads this, dev, target
    {
      Quiet() && tdo == Bits(target[..])
    }

    /** Sends the TX buffer. */
    method WritePending() returns (ok: bool)
      requires Valid()
      modifies this`txNumBytes, dev`chip, dev`log
      ensures Accounts(old(dev.log), dev.log, !ok)
      ensures ok ==> Valid() && txNumBytes == 0 && dev.chip == chip
    {
      hide Run, LandAll, Bits, Tiles;
      ok := true;
      if txNumBytes > 0 {
        var written;
        ok, written := dev.Write(txBuffer, txNumBytes);
        if !ok || written != txNumBytes {
          return false;
        }
        txNumBytes := 0;
      }
      RunNone(dev.board, dev.chip);
      assert txBuffer[..0] == [];
    }

    /** One look at the driver's queue, taking what is there (`got` is 0 when it is empty). */
    method Poll(bytesRead: nat) returns (ok: bool, got: nat)
      requires dev.Valid() && bytesRead < rxNumBytes <= rxBuffer.Length
      requires dev.taken + rxNumBytes == |dev.chip.answers| + bytesRead
      modifies dev`taken, dev`log, rxBuffer
      ensures Accounts(old(dev.log), dev.log, !ok) && (ok && got == 0 ==> dev.log.idle > old(dev.log).idle)
      ensures dev.Valid() && got <= rxNumBytes - bytesRead && dev.taken == old(dev.taken) + got
      ensures rxBuffer[..bytesRead + got] == old(rxBuffer[..bytesRead]) + dev.chip.answers[old(dev.taken)..dev.taken]
    {
      var rxQueue;
      ok, rxQueue := dev.GetQueueStatus();
      got := 0;
      if ok && rxQueue > 0 {
        var toRead := if rxQueue < rxNumBytes - bytesRead then rxQueue else rxNumBytes - bytesRead;
        ok, got := dev.Read(rxBuffer, bytesRead, toRead);
        assert rxBuffer[..bytesRead + got] == rxBuffer[..bytesRead] + rxBuffer[bytesRead..bytesRead + got];
      }
    }

    /** Polls for the outstanding answers, spinning first and sleeping later. */
    method ReadAnswers() returns (ok: bool, queueChecks: nat)
      requires Shape() && dev.Valid() && dev.taken + rxNumBytes == |dev.chip.answers|
      modifies dev`taken, dev`log, rxBuffer
      ensures Accounts(old(dev.log), dev.log, !ok)
      ensures ok ==> rxBuffer[..rxNumBytes] == dev.chip.answers[old(dev.taken)..] && dev.taken == |dev.chip.answers|
      ensures !ok ==> old(dev.log).faults < dev.log.faults || old(dev.log).idle + 50000 <= dev.log.idle
      ensures queueChecks <= rxNumBytes + 1000 * (rxNumBytes + 1) + 50000
      ensures dev.Valid()
    {
      var bytesRead: nat := 0;
      var timeoutUs: nat := READ_TIMEOUT_US;
      var spinCount: nat := 0;
      queueChecks := 0;
      ghost var start, log, answers := dev.taken, dev.log, dev.chip.answers;
      ghost var waited: nat := 0;
      while bytesRead < rxNumBytes && timeoutUs > 0
        invariant bytesRead <= rxNumBytes && timeoutUs % 10 == 0 && spinCount <= MAX_SPIN
        invariant dev.Valid() && dev.taken == start + bytesRead
        invariant rxBuffer[..bytesRead] == answers[start..start + bytesRead]
        invariant log.faults <= dev.log.faults && log.idle + waited <= dev.log.idle
        invariant timeoutUs + 10 * waited == READ_TIMEOUT_US
        invariant queueChecks + PollBudget(rxNumBytes - bytesRead, timeoutUs, spinCount)
               <= PollBudget(rxNumBytes, READ_TIMEOUT_US, 0)
        decreases rxNumBytes - bytesRead, timeoutUs, MAX_SPIN - spinCount
      {
        var got;
        ok, got := Poll(bytesRead);
        assert answers[start..start + bytesRead] + answers[start + bytesRead..start + bytesRead + got]
            == answers[start..start + bytesRead + got];
        queueChecks := queueChecks + 1;
        if !ok {
          return false, queueChecks;
        }
        if got > 0 {
          bytesRead := bytesRead + got;
          spinCount := 0;
        } else if spinCount < MAX_SPIN {
          spinCount := spinCount + 1;
        } else {
          timeoutUs := timeoutUs - 10;
          waited := waited + 1;
        }
      }
      ok := bytesRead == rxNumBytes;
      assert ok ==> answers[start..start + bytesRead] == answers[start..];
    }

    /** Runs the queued observers over the received bytes, oldest first. */
    method FireObservers()
      requires Shape() && Tiles(observers, rxNumBytes, 8 * target.Length)
      requires forall i :: 0 <= i < |observers| ==> observers[i].fn.dst == target
      modifies target
      ensures Bits(target[..]) == LandAll(observers, old(Bits(target[..])), rxBuffer[..rxNumBytes])
    {
      hide Bits, Landed;
      ghost var was, rx := Bits(target[..]), rxBuffer[..rxNumBytes];
      ghost var done := 0;
      assert observers[..0] == [];
      for i := 0 to |observers|
        invariant 0 <= done <= rxNumBytes && Tiles(observers[..i], done, |was|)
        invariant i == |observers| ==> done == rxNumBytes
        invariant rxBuffer[..rxNumBytes] == rx && |Bits(target[..])| == |was|
        invariant Bits(target[..]) == LandAll(observers[..i], was, rx[..done])
      {
        var o := observers[i];
        NextObserver(observers, was, rx, i, done);
        Fire(o.fn, rxBuffer[o.data..o.data + o.fn.Span()]);
        assert rxBuffer[o.data..o.data + o.fn.Span()] == rx[o.data..o.data + o.fn.Span()];
        done := o.data + o.fn.Span();
      }
      assert observers[..|observers|] == observers && rx[..rxNumBytes] == rx;
    }

    /** Sends everything, reads every outstanding answer and fills the TDO vector. */
    method Flush() returns (st: Status)
      requires Valid()
      modifies this`txNumBytes, this`rxNumBytes, this`observers, dev, rxBuffer, target
      ensures st == Ok ==> Valid() && Drained()
      ensures st == Ok || st == DeviceError
      ensures Accounts(old(dev.log), dev.log, st == DeviceError)
    {
      hide Run, LandAll, Bits, Tiles;
      var ok := WritePending();
      if !ok {
        return DeviceError;
      }
      if rxNumBytes > 0 {
        var polls;
        ok, polls := ReadAnswers();
        if !ok {
          return DeviceError;
        }
        FireObservers();
        observers, rxNumBytes := [], 0;
      }
      NoAnswersLeft(observers, rxNumBytes, Bits(target[..]));
      RunNone(dev.board, dev.chip);
      assert txBuffer[..0] == [] && chip.answers[|chip.answers|..] == [];
      st := Ok;
    }

    /** Flushes when the pending work would not fit or is near the safety threshold. */
    method EnsureCanAppend(txBytes: nat, rxBytes: nat) returns (st: Status)
      requires Valid()
      modifies this`txNumBytes, this`rxNumBytes, this`observers, dev, rxBuffer, target
      ensures st == Ok ==> Valid()
      ensures st == Ok || st == DeviceError
      ensures Accounts(old(dev.log), dev.log, st == DeviceError)
    {
      hide Valid;
      var txThreshold, rxThreshold := txBuffer.Length * 95 / 100, rxBuffer.Length * 95 / 100;
      st := Ok;
      if txNumBytes + txBytes > txBuffer.Length || rxNumBytes + rxBytes > rxBuffer.Length
         || txNumBytes > txThreshold || rxNumBytes > rxThreshold {
        st := Flush();
      }
    }

    /** Whether `fn` can be queued for `rxBytes` answer bytes, and what the command answers. */
    ghost predicate Appendable(data: seq<byte>, fn: Option<Copier>, rxBytes: nat)
      reads this, dev
    {
      && |Run(dev.board, chip, data).answers| == |chip.answers| + rxBytes
      && (fn.None? ==> rxBytes == 0)
      && (fn.Some? ==>
            && fn.value.Fits(8 * target.Length) && fn.value.Span() == rxBytes
            && fn.value.dst == target && |tdo| == 8 * target.Length)
    }

    /** Queues a command, flushing first when it would not fit or a buffer is nine tenths full. */
    method Append(data: seq<byte>, fn: Option<Copier>, rxBytes: nat) returns (st: Status)
      requires Valid() && Appendable(data, fn, rxBytes)
      modifies this`txNumBytes, this`rxNumBytes, this`observers, this`poolUsed, this`chip, this`tdo
      modifies dev, txBuffer, rxBuffer, target
      ensures st == Ok ==> Valid() && chip == Run(dev.board, old(chip), data)
      ensures st == Ok && fn.None? ==> tdo == old(tdo) && poolUsed == old(poolUsed)
      ensures st == Ok ==> old(chip).answers <= chip.answers && |chip.answers| - |old(chip).answers| == rxBytes
      ensures st == Ok && fn.Some? ==> poolUsed == old(poolUsed) + NODE_SIZE <= POOL_SIZE
      ensures st == Ok && fn.Some? ==> tdo == Landed(fn.value, old(tdo), chip.answers[|old(chip).answers|..])
      ensures st == BufferOverflow ==> |data| > txBuffer.Length || rxBytes > rxBuffer.Length
      ensures st == PoolExhausted ==> fn.Some? && old(poolUsed) + NODE_SIZE > POOL_SIZE
      ensures st != Rejected
      ensures Accounts(old(dev.log), dev.log, st == DeviceError)
    {
      hide Run, Landed, Bits, LandAll, Tiles;
      var wouldOverflow := txNumBytes + |data| > txBuffer.Length || rxNumBytes + rxBytes > rxBuffer.Length;
      var atThreshold := txNumBytes >= txBuffer.Length * 9 / 10 || rxNumBytes >= rxBuffer.Length * 9 / 10;
      if wouldOverflow || atThreshold {
        st := Flush();
        if st != Ok {
          return;
        }
      }
      if txNumBytes + |data| > txBuffer.Length || rxNumBytes + rxBytes > rxBuffer.Length {
        return BufferOverflow;
      }
      if fn.Some? {
        var ok := PoolAlloc(NODE_SIZE);
        if !ok {
          return PoolExhausted;
        }
      }
      Store(data, fn, rxBytes);
      st := Ok;
    }

    /** Queues a command whose answer is read: checks the safety thresholds, then appends. */
    method AddWriteWithReadback(data: seq<byte>, fn: Copier, rxBytes: nat) returns (st: Status)
      requires Valid() && Appendable(data, Some(fn), rxBytes)
      modifies this`txNumBytes, this`rxNumBytes, this`observers, this`poolUsed, this`chip, this`tdo
      modifies dev, txBuffer, rxBuffer, target
      ensures st == Ok ==> Valid() && chip == Run(dev.board, old(chip), data)
      ensures st == Ok ==> old(chip).answers <= chip.answers && |chip.answers| - |old(chip).answers| == rxBytes
      ensures st == Ok ==> poolUsed == old(poolUsed) + NODE_SIZE <= POOL_SIZE
      ensures st == Ok ==> tdo == Landed(fn, old(tdo), chip.answers[|old(chip).answers|..])
      ensures st == BufferOverflow ==> |data| > txBuffer.Length || rxBytes > rxBuffer.Length
      ensures st == PoolExhausted ==> old(poolUsed) + NODE_SIZE > POOL_SIZE
      ensures st != Rejected
      ensures Accounts(old(dev.log), dev.log, st == DeviceError)
    {
      hide Run, Landed, Valid;
      st := EnsureCanAppend(|data|, rxBytes);
      if st != Ok {
        return;
      }
      st := Append(data, Some(fn), rxBytes);
    }

    /** Puts a command that fits into the TX buffer and its observer into the queue. */
    method Store(data: seq<byte>, fn: Option<Copier>, rxBytes: nat)
      requires Valid() && Appendable(data, fn, rxBytes)
      requires txNumBytes + |data| <= txBuffer.Length && rxNumBytes + rxBytes <= rxBuffer.Length
      modifies this`txNumBytes, this`rxNumBytes, this`observers, this`chip, this`tdo, txBuffer
      ensures Valid() && chip == Run(dev.board, old(chip), data)
      ensures fn.None? ==> tdo == old(tdo)
      ensures old(chip).answers <= chip.answers && |chip.answers| - |old(chip).answers| == rxBytes
      ensures fn.Some? ==> tdo == Landed(fn.value, old(tdo), chip.answers[|old(chip).answers|..])
    {
      hide Run, Landed, Bits, LandAll, Tiles;
      ghost var sent, rx := txBuffer[..txNumBytes], chip.answers[dev.taken..];
      MemCpy(txBuffer, txNumBytes, data);
      txNumBytes := txNumBytes + |data|;
      assert txBuffer[..txNumBytes] == sent + data;
      RunConcat(dev.board, dev.chip, sent, data);
      RunGrows(dev.board, chip, data);
      ghost var answers := chip.answers;
      chip := Run(dev.board, chip, data);
      if fn.Some? {
        LandOneMore(observers, Bits(target[..]), rx, fn.value, chip.answers[|answers|..]);
        assert chip.answers[dev.taken..] == rx + chip.answers[|answers|..];
        observers := observers + [Observer(fn.value, rxNumBytes)];
        tdo := Landed(fn.value, tdo, chip.answers[|answers|..]);
      } else {
        assert chip.answers == answers;
      }
      rxNumBytes := rxNumBytes + rxBytes;
    }

    /** Points the deferred reads at a TDO vector; nothing may be queued for another one. */
    ghost method Aim(vector: array<byte>)
      requires Quiet() && vector != txBuffer && vector != rxBuffer
      modifies this`target, this`tdo
      ensures Valid() && Drained() && target == vector
    {
      hide Run, Bits;
      RunNone(dev.board, dev.chip);
      assert txBuffer[..0] == [];
      target := vector;
      tdo := Bits(vector[..]);
    }

    /** End of a scan: the pool is reset and the TAP state saved. */
    method Settle(jtagState: Tap)
      requires Valid()
      modifies this`poolUsed, this`state
      ensures Valid() && (old(Drained()) ==> Drained()) && poolUsed == 0 && state == jtagState
    {
      hide Run, LandAll, Tiles, Bits;
      poolUsed := 0;
      state := jtagState;
    }

    /** Records the level a Shift run leaves on TDI. */
    method SetLastTdi(level: bool)
      modifies this`lastTdi
      ensures lastTdi == level && (old(Valid()) ==> Valid())
    {
      hide Run, LandAll, Tiles, Bits;
      lastTdi := level;
    }

    /** Takes `size` bytes from the observer pool. */
    method PoolAlloc(size: nat) returns (ok: bool)
      modifies this`poolUsed
      ensures ok <==> old(poolUsed) + size <= POOL_SIZE
      ensures poolUsed == if ok then old(poolUsed) + size else old(poolUsed)
      ensures old(Valid()) ==> Valid()
    {
      hide Run, LandAll, Tiles, Bits;
      if poolUsed + size > POOL_SIZE {
        return false;
      }
      poolUsed := poolUsed + size;
      ok := true;
    }
  }

  lemma NoAnswersLeft(os: seq<Observer>, n: nat, tdo: seq<bool>)
    requires n == 0
    ensures Tiles(os, n, |tdo|) ==> os == []
    ensures Tiles([], n, |tdo|) && LandAll([], tdo, []) == tdo
  {
  }

  lemma NextObserver(os: seq<Observer>, tdo: seq<bool>, rx: seq<byte>, i: nat, done: nat)
    requires Tiles(os, |rx|, |tdo|) && i < |os| && Tiles(os[..i], done, |tdo|)
    ensures var o := os[i];
      var d := o.data + o.fn.Span();
      && o.data == done && o.fn.Fits(|tdo|) && d <= |rx| && Tiles(os[..i + 1], d, |tdo|)
      && (i + 1 == |os| ==> d == |rx|)
      && LandAll(os[..i + 1], tdo, rx[..d]) == Landed(o.fn, LandAll(os[..i], tdo, rx[..o.data]), rx[o.data..d])
  {
    hide Landed, LandAll, Tiles;
    TilesPrefix(os, |rx|, |tdo|, i);
    LandPrefix(os, tdo, rx, i, os[i].data, os[i].data + os[i].fn.Span());
    TilesUnique(os[..i], done, os[i].data, |tdo|);
    if i + 1 == |os| {
      assert os[..i + 1] == os;
      TilesUnique(os, |rx|, os[i].data + os[i].fn.Span(), |tdo|);
    }
  }

  /** A queue tiles only one number of bytes. */
  lemma TilesUnique(os: seq<Observer>, m: nat, n: nat, bits: nat)
    requires Tiles(os, m, bits) && Tiles(os, n, bits)
    ensures m == n
  {
  }

  /** Runs one observer function on its answer. */
  method Fire(fn: Copier, rxData: seq<byte>)
    requires fn.Fits(8 * fn.dst.Length) && |rxData| == fn.Span()
    modifies fn.dst
    ensures Bits(fn.dst[..]) == Landed(fn, old(Bits(fn.dst[..])), rxData)
  {
    hide Bits, Splice;
    ghost var was := fn.dst[..];
    match fn
    case BitCopier(fromBit, dst, toBit, numBits) =>
      CopyBits(rxData, fromBit, dst, toBit, numBits, false);
    case ByteCopier(dst, at, numBytes) =>
      MemCpy(dst, at, rxData);
      BytesSplice(was, at, rxData);
    case BulkByteCopier(dst, at, totalBytes, bytesCopied) =>
      MemCpy(dst, at + bytesCopied, rxData);
      BytesSplice(was, at + bytesCopied, rxData);
  }

  /** How many more polls can happen with `left` bytes, that much timeout and that many spins used. */
  ghost function PollBudget(left: nat, timeoutUs: nat, spins: nat): int {
    left + 1000 * (left + 1) - spins + timeoutUs / 10
  }
}
