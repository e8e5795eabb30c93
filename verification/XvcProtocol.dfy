/** The XVC v1.0 command handler. */
module XvcProtocol {
  import opened Bytes
  import opened BitBuffers
  import opened Jtag
  import opened Probe
  import opened Driver
  import opened Observers
  import opened Segments
  import opened Frequency
  import opened MpsseBuffer
  import opened MpsseAdapter
  import opened FtdiAdapter
  import opened Sockets
  import opened XvcTap
  import opened XvcWire
  import opened XvcSession

  /** How handling one command ended. Degraded: a period could not be set and was echoed back. */
  datatype Outcome = Closed | Failed | Degraded | Replied

  class XvcContext {
    var fd: Socket
    const ftdi: FtdiContext
    const cmdBuf: array<byte>
    var vectorBuf: array<byte>
    var resultBuf: array<byte>
    var maxVectorSize: nat
    var jtagState: JtagState
    var seenTlr: bool
    var bytesRx: nat
    var bytesTx: nat
    var commands: nat

    /** `xvc_init` on a new context. */
    constructor (fd: Socket, ftdi: FtdiContext, maxVectorSize: int)
      ensures this.fd == fd && this.ftdi == ftdi
      ensures fresh(cmdBuf) && fresh(vectorBuf) && fresh(resultBuf)
      ensures cmdBuf.Length == 16 && cmdBuf != vectorBuf && cmdBuf != resultBuf && vectorBuf != resultBuf
      ensures this.maxVectorSize == VectorLimit(maxVectorSize)
      ensures vectorBuf.Length == 2 * this.maxVectorSize && resultBuf.Length == this.maxVectorSize
      ensures jtagState == JTAG_TEST_LOGIC_RESET && !seenTlr && bytesRx == bytesTx == commands == 0
    {
      this.fd := fd;
      this.ftdi := ftdi;
      var size := VectorLimit(maxVectorSize);
      this.maxVectorSize := size;
      cmdBuf := new byte[16];
      vectorBuf := new byte[2 * size];
      resultBuf := new byte[size];
      jtagState, seenTlr := JTAG_TEST_LOGIC_RESET, false;
      bytesRx, bytesTx, commands := 0, 0, 0;
    }

    /** Buffers in place, and the adapter open and resting. */
    ghost predicate Valid()
      reads this, ftdi, ftdi.mpsse, ftdi.mpsse.dev
    {
      && cmdBuf.Length == 16 && vectorBuf.Length == 2 * maxVectorSize && resultBuf.Length == maxVectorSize
      && cmdBuf != vectorBuf && cmdBuf != resultBuf && vectorBuf != resultBuf
      && cmdBuf != ftdi.mpsse.txBuffer && cmdBuf != ftdi.mpsse.rxBuffer
      && vectorBuf != ftdi.mpsse.txBuffer && vectorBuf != ftdi.mpsse.rxBuffer
      && resultBuf != ftdi.mpsse.txBuffer && resultBuf != ftdi.mpsse.rxBuffer
      && ftdi.isOpen && ftdi.mpsse.isOpen && Resting(ftdi.mpsse)
    }

    ghost function Now(): Session
      reads this, ftdi, ftdi.mpsse, ftdi.mpsse.dev
    {
      Session(StateOf(jtagState), seenTlr, Observed(ftdi.mpsse, []),
              ftdi.mpsse.dev.chip.divisor, ftdi.mpsse.dev.chip.divideBy5, bytesRx, bytesTx, commands)
    }

    ghost function SetupFor(limit: nat, frequency: nat): Setup
      reads this, ftdi, ftdi.mpsse, ftdi.mpsse.dev
    {
      Setup(ftdi.mpsse.dev.board, limit, frequency, ftdi.mpsse.chipBufferSize)
    }

    ghost function SetupOf(frequency: nat): Setup
      reads this, ftdi, ftdi.mpsse, ftdi.mpsse.dev
    {
      SetupFor(maxVectorSize, frequency)
    }

    /** The next bytes of a command into the command buffer, counted. */
    method ReadCommand(at: nat, len: nat) returns (ok: bool)
      requires Valid() && at + len <= 16
      modifies this`bytesRx, cmdBuf, fd`incoming, fd`cut
      ensures ok ==> Valid() && Now() == old(Now()).(received := old(Now()).received + len)
      ensures ok ==> len <= |old(fd.incoming)| && fd.incoming == old(fd.incoming)[len..]
      ensures ok ==> cmdBuf[..] == old(cmdBuf[..at]) + old(fd.incoming)[..len] + old(cmdBuf[at + len..])
      ensures !ok ==> fd.cut || |old(fd.incoming)| < len
    {
      hide Resting, StateOf;
      var r := ReadExact(fd, cmdBuf, at, len);
      ok := r == 1;
      if ok {
        bytesRx := bytesRx + len;
      }
    }

    /** Sends the answer to a command, and counts it and the command. */
    method SendAnswer(data: seq<byte>) returns (ok: bool)
      modifies this`bytesTx, this`commands, fd`outgoing, fd`broken
      ensures ok && old(Valid()) ==> Valid()
      ensures ok ==> Now() == old(Now()).(sent := old(Now()).sent + |data|, commands := old(Now()).commands + 1)
      ensures ok ==> fd.outgoing == old(fd.outgoing) + data
      ensures !ok ==> fd.broken
    {
      hide Resting, StateOf;
      var r := WriteExact(fd, data);
      ok := r >= 0;
      if ok {
        bytesTx := bytesTx + |data|;
        commands := commands + 1;
      }
    }

    /** getinfo, after its first two bytes. */
    method HandleGetInfo(ghost frequency: nat, ghost s: Session, ghost rest: seq<byte>) returns (o: Outcome)
      requires Valid() && Now() == s.(received := s.received + 2)
      requires fd.incoming == Wire(GetInfo)[2..] + rest
      modifies this`bytesRx, this`bytesTx, this`commands, cmdBuf, fd
      ensures o != Degraded
      ensures o == Closed ==> fd.cut && fd.outgoing == old(fd.outgoing)
      ensures o == Failed ==> fd.broken
      ensures o == Replied ==> Valid() && Now() == Serve(SetupOf(frequency), s, GetInfo)
      ensures o == Replied ==>
        fd.incoming == rest && fd.outgoing == old(fd.outgoing) + Reply(SetupOf(frequency), s, GetInfo)
    {
      hide Valid, InfoReply, Now;
      var ok := ReadCommand(2, 6);
      if !ok {
        return Closed;
      }
      ok := SendAnswer(InfoReply(maxVectorSize));
      o := if ok then Replied else Failed;
    }

    /** The period a settck asks for, after its first two bytes. */
    method ReadPeriod(frequency: nat, ghost c: Command, ghost rest: seq<byte>) returns (ok: bool, period: int)
      requires Valid() && frequency < TWO32
      requires c.SetTck? && |c.period| == 4 && fd.incoming == Wire(c)[2..] + rest
      modifies this`bytesRx, cmdBuf, fd`incoming, fd`cut
      ensures !ok ==> fd.cut
      ensures ok ==> Valid() && Now() == old(Now()).(received := old(Now()).received + 9)
      ensures ok ==> fd.incoming == rest && IsInt32(period) && period % TWO32 == PeriodAsked(frequency, c.period)
    {
      hide GetInt32, Valid, Now;
      CommandBufferSize();
      ok := ReadCommand(2, 9);
      period := 0;
      if ok {
        assert cmdBuf[7..11] == c.period;
        if frequency == 0 {
          period := GetInt32(cmdBuf[7..11]);
        } else {
          period := NS_PER_S / frequency;
          DivAtLeast(NS_PER_S, frequency, 0);
          DivAtLeast(NS_PER_S, frequency, NS_PER_S + 1);
          MulMono(1, frequency, NS_PER_S + 1);
        }
      }
    }

    lemma CommandBufferSize()
      requires Valid()
      ensures cmdBuf.Length == 16 && cmdBuf != vectorBuf && cmdBuf != resultBuf && vectorBuf != resultBuf
      ensures vectorBuf.Length == 2 * maxVectorSize && resultBuf.Length == maxVectorSize
    {
    }

    /** Programs the clock; on a failure the period asked for is the answer. */
    method SetClock(period: int) returns (ok: bool, answer: int)
      requires Valid() && IsInt32(period)
      modifies ftdi.mpsse, ftdi.mpsse.dev, ftdi.mpsse.txBuffer, ftdi.mpsse.rxBuffer
      ensures Accounts(old(ftdi.mpsse.dev.log), ftdi.mpsse.dev.log, !ok)
      ensures IsInt32(answer)
      ensures ok ==> Valid() && answer == PeriodReported(period % TWO32)
      ensures ok ==> Now() == old(Now()).(divisor := DivisorFor(FrequencyOfPeriod(period % TWO32)), divideBy5 := false)
    {
      hide Resting, PeriodReported, DivisorFor, StateOf;
      var st, actual := SetPeriod(ftdi, period % TWO32);
      ok := st == Ok;
      answer := if ok then actual else period;
    }

    /** Puts the answer to a settck into the result buffer. */
    method PutAnswer(answer: int)
      requires IsInt32(answer) && resultBuf.Length >= 4
      modifies resultBuf
      ensures resultBuf[..4] == PutInt32(answer)
    {
      hide PutInt32;
      var data := PutInt32(answer);
      MemCpy(resultBuf, 0, data);
      assert resultBuf[..4] == data;
    }

    /** settck, after its first two bytes. */
    method HandleSetTck(frequency: nat, ghost c: Command, ghost s: Session, ghost rest: seq<byte>) returns (o: Outcome)
      requires Valid() && Now() == s.(received := s.received + 2) && frequency < TWO32
      requires c.SetTck? && WellFormed(c, maxVectorSize) && fd.incoming == Wire(c)[2..] + rest
      modifies this`bytesRx, this`bytesTx, this`commands, cmdBuf, resultBuf, fd
      modifies ftdi.mpsse, ftdi.mpsse.dev, ftdi.mpsse.txBuffer, ftdi.mpsse.rxBuffer
      ensures o == Closed ==> fd.cut && fd.outgoing == old(fd.outgoing)
      ensures o == Failed ==> fd.broken
      ensures Accounts(old(ftdi.mpsse.dev.log), ftdi.mpsse.dev.log, o == Degraded)
      ensures o == Replied ==> Valid() && Now() == Serve(SetupOf(frequency), s, c)
      ensures o == Replied ==> fd.incoming == rest && fd.outgoing == old(fd.outgoing) + Reply(SetupOf(frequency), s, c)
    {
      hide Valid, PutInt32, PeriodReported, FrequencyOfPeriod, DivisorFor, PeriodAsked, Wire, Now;
      WireLength(c);
      CommandBufferSize();
      var ok, period := ReadPeriod(frequency, c, rest);
      if !ok {
        return Closed;
      }
      var answer;
      ok, answer := SetClock(period);
      PutAnswer(answer);
      var sent := SendAnswer(resultBuf[..4]);
      o := if !sent then Failed else if ok then Replied else Degraded;
    }

    /** The length field of a shift, after the command's first two bytes; the fifth byte decides where it is. */
    method ReadShiftLength() returns (ok: bool, len: int)
      requires Valid()
      modifies this`bytesRx, cmdBuf, fd`incoming, fd`cut
      ensures !ok ==> fd.cut || !ShiftLengthPresent(old(fd.incoming))
      ensures ok ==> ShiftLengthPresent(old(fd.incoming)) && len == ShiftLength(old(fd.incoming))
      ensures ok ==> fd.incoming == old(fd.incoming)[LengthOffset(old(fd.incoming)) + 4..]
      ensures ok ==>
        Valid() && Now() == old(Now()).(received := old(Now()).received + LengthOffset(old(fd.incoming)) + 4)
    {
      hide GetInt32, Valid, Now;
      len := 0;
      ghost var all := fd.incoming;
      CommandBufferSize();
      ok := ReadCommand(2, 4);
      if !ok {
        return;
      }
      assert cmdBuf[2..6] == all[..4];
      assert cmdBuf[4] == cmdBuf[2..6][2] == all[2];
      if cmdBuf[4] == 0x65 || cmdBuf[4] == 0x45 {
        ok := ReadColon();
        if !ok {
          return;
        }
      }
      assert fd.incoming == all[LengthOffset(all)..];
      ok := ReadCommand(6, 4);
      if !ok {
        return;
      }
      assert cmdBuf[6..10] == all[LengthOffset(all)..LengthOffset(all) + 4];
      len := GetInt32(cmdBuf[6..10]);
    }

    /** The byte after the longer spelling's letter, read and dropped. */
    method ReadColon() returns (ok: bool)
      requires Valid()
      modifies this`bytesRx, fd`incoming, fd`cut
      ensures ok ==> Valid() && Now() == old(Now()).(received := old(Now()).received + 1)
      ensures ok ==> 1 <= |old(fd.incoming)| && fd.incoming == old(fd.incoming)[1..]
      ensures !ok ==> fd.cut || old(fd.incoming) == []
    {
      hide Resting, StateOf;
      var colon := new byte[1];
      var r := ReadExact(fd, colon, 0, 1);
      ok := r == 1;
      if ok {
        bytesRx := bytesRx + 1;
      }
    }

    /** The vectors of a shift. */
    method ReadVectors(nrBytes: nat, ghost c: Command, ghost rest: seq<byte>) returns (ok: bool)
      requires Valid() && c.Shift? && |c.tms| == |c.tdi| == nrBytes <= maxVectorSize
      requires fd.incoming == c.tms + c.tdi + rest
      modifies this`bytesRx, vectorBuf, fd`incoming, fd`cut
      ensures !ok ==> fd.cut
      ensures ok ==> vectorBuf.Length >= 2 * nrBytes
      ensures ok ==> vectorBuf[..nrBytes] == c.tms && vectorBuf[nrBytes..2 * nrBytes] == c.tdi
      ensures ok ==>
        fd.incoming == rest && Valid() && Now() == old(Now()).(received := old(Now()).received + 2 * nrBytes)
    {
      hide Resting, StateOf;
      ghost var sent := c.tms + c.tdi;
      assert sent + rest == fd.incoming;
      var r := ReadExact(fd, vectorBuf, 0, 2 * nrBytes);
      ok := r == 1;
      if ok {
        bytesRx := bytesRx + 2 * nrBytes;
        assert vectorBuf[..2 * nrBytes] == sent;
        assert vectorBuf[..nrBytes] == sent[..nrBytes] && vectorBuf[nrBytes..2 * nrBytes] == sent[nrBytes..];
      }
    }

    /** Everything a shift sends after the command's first two bytes. */
    method ReceiveShift(ghost c: Command, ghost rest: seq<byte>) returns (o: Outcome, len: int)
      requires Valid() && c.Shift? && WellFormed(c, maxVectorSize) && fd.incoming == Wire(c)[2..] + rest
      modifies this`bytesRx, cmdBuf, vectorBuf, fd`incoming, fd`cut
      ensures o == Replied || (o == Closed && fd.cut)
      ensures o == Replied ==> len == c.len && fd.incoming == rest && vectorBuf.Length >= 2 * |c.tms|
      ensures o == Replied ==> Valid() && Now() == old(Now()).(received := old(Now()).received + 8 + 2 * |c.tms|)
      ensures o == Replied ==> vectorBuf[..|c.tms|] == c.tms && vectorBuf[|c.tms|..2 * |c.tms|] == c.tdi
    {
      hide Wire, LengthOffset, Valid, Now;
      V1LengthIsRead(c, rest);
      var ok;
      ok, len := ReadShiftLength();
      if !ok {
        return Closed, len;
      }
      var nrBytes := (len + 7) / 8;
      if nrBytes > maxVectorSize {
        return Failed, len;
      }
      ok := ReadVectors(nrBytes, c, rest);
      o := if ok then Replied else Closed;
    }

    /** A shift on the adapter: TDO lands in the result buffer, starting from zeros. */
    method ForwardShift(len: nat, nrBytes: nat, ghost c: Command) returns (ok: bool)
      requires Valid() && c.Shift? && WellFormed(c, maxVectorSize) && c.len == len && |c.tms| == nrBytes
      requires vectorBuf[..nrBytes] == c.tms && vectorBuf[nrBytes..2 * nrBytes] == c.tdi
      requires forall i :: 0 <= i < nrBytes ==> resultBuf[i] == 0
      requires RunsFit(ftdi.mpsse.state, Bits(c.tms), 0, len, ftdi.mpsse.chipBufferSize)
      requires PoolUse(ftdi.mpsse.state, Bits(c.tms), len, len) <= POOL_SIZE
      modifies resultBuf, ftdi.mpsse, ftdi.mpsse.dev, ftdi.mpsse.txBuffer, ftdi.mpsse.rxBuffer
      ensures Accounts(old(ftdi.mpsse.dev.log), ftdi.mpsse.dev.log, !ok)
      ensures ok ==> SameClock(ftdi.mpsse.dev.chip, old(ftdi.mpsse.dev.chip))
      ensures ok ==>
        Valid() && Observed(ftdi.mpsse, []) == Shifted(ftdi.mpsse.dev.board, old(Observed(ftdi.mpsse, [])),
            c).(tdo := [])
      ensures ok ==>
        resultBuf[..nrBytes] == PackAll(Shifted(ftdi.mpsse.dev.board, old(Observed(ftdi.mpsse, [])), c).tdo)
    {
      hide Bits, Play, Resting, RunsFit, PoolUse, Shifted, PackAll;
      ghost var b, v, was := ftdi.mpsse.dev.board, Observed(ftdi.mpsse, []), resultBuf[..];
      var st := FtdiAdapter.Scan(ftdi, vectorBuf[..nrBytes], vectorBuf[nrBytes..2 * nrBytes], resultBuf, len);
      ok := st == Ok;
      if ok {
        ShiftInLargerBuffer(b, v, c, was, resultBuf[..]);
      }
    }

    /** Updates the history flag at a shift boundary and says whether the shift is to be skipped. */
    method MarkBoundary(len: nat, ghost c: Command) returns (skip: bool)
      requires vectorBuf.Length > 0 && c.Shift? && c.len == len && c.tms != [] && vectorBuf[0] == c.tms[0]
      modifies this`seenTlr
      ensures seenTlr == SeenAfter(StateOf(jtagState), old(seenTlr)) && skip == Bogus(StateOf(jtagState), c.len, c.tms)
    {
      hide StateOf;
      StateNumbers(jtagState);
      seenTlr := (seenTlr || jtagState == JTAG_TEST_LOGIC_RESET) && jtagState != JTAG_CAPTURE_DR
          && jtagState != JTAG_CAPTURE_IR;
      skip := (jtagState == JTAG_EXIT1_IR && len == 5 && vectorBuf[0] == 0x17)
          || (jtagState == JTAG_EXIT1_DR && len == 4 && vectorBuf[0] == 0x0B);
    }

    /** Records the shift boundary, then skips a bogus movement or tracks the TAP and forwards the vectors. */
    method ApplyShift(len: nat, nrBytes: nat, ghost c: Command) returns (ok: bool)
      requires Valid() && c.Shift? && WellFormed(c, maxVectorSize) && c.len == len && |c.tms| == nrBytes
      requires vectorBuf[..nrBytes] == c.tms && vectorBuf[nrBytes..2 * nrBytes] == c.tdi
      requires Scannable(SetupOf(0), Now(), c)
      modifies this`seenTlr, this`jtagState
      modifies resultBuf, ftdi.mpsse, ftdi.mpsse.dev, ftdi.mpsse.txBuffer, ftdi.mpsse.rxBuffer
      ensures Accounts(old(ftdi.mpsse.dev.log), ftdi.mpsse.dev.log, !ok)
      ensures ok ==> Valid() && maxVectorSize == old(maxVectorSize)
      ensures ok ==>
        Now() == Serve(SetupOf(0), old(Now()), c).(received := old(Now()).received, sent := old(Now()).sent,
            commands := old(Now()).commands)
      ensures ok ==> resultBuf[..nrBytes] == Reply(SetupOf(0), old(Now()), c)
    {
      hide Bits, Resting, Shifted, PackAll, Walk, Wire, StateOf, Steps, Bogus, SeenAfter;
      forall i | 0 <= i < nrBytes {
        resultBuf[i] := 0;
      }
      assert vectorBuf[..nrBytes] == c.tms && vectorBuf[nrBytes..2 * nrBytes] == c.tdi;
      assert vectorBuf[0] == c.tms[0];
      var skip := MarkBoundary(len, c);
      if skip {
        ZeroReply(resultBuf[..nrBytes]);
        ok := true;
      } else {
        var state := TrackTap(jtagState, vectorBuf[..], len);
        StepsOnBuffer(jtagState, vectorBuf[..], c.tms, len);
        jtagState := state;
        ok := ForwardShift(len, nrBytes, c);
      }
    }

    /** shift, after its first two bytes. */
    method HandleShift(ghost frequency: nat, ghost c: Command, ghost s: Session, ghost rest: seq<byte>)
        returns (o: Outcome)
      requires Valid() && Now() == s.(received := s.received + 2)
      requires c.Shift? && WellFormed(c, maxVectorSize) && fd.incoming == Wire(c)[2..] + rest
      requires Scannable(SetupOf(frequency), s, c)
      modifies this`bytesRx, this`bytesTx, this`commands, this`seenTlr, this`jtagState, cmdBuf, vectorBuf, resultBuf, fd
      modifies ftdi.mpsse, ftdi.mpsse.dev, ftdi.mpsse.txBuffer, ftdi.mpsse.rxBuffer
      ensures o != Degraded
      ensures o == Closed ==> fd.cut && fd.outgoing == old(fd.outgoing)
      ensures Accounts(old(ftdi.mpsse.dev.log), ftdi.mpsse.dev.log, o == Failed && !fd.broken)
      ensures o == Replied ==>
        Valid() && maxVectorSize == old(maxVectorSize) && Now() == Serve(SetupOf(frequency), s, c)
      ensures o == Replied ==> fd.incoming == rest && fd.outgoing == old(fd.outgoing) + Reply(SetupOf(frequency), s, c)
    {
      hide Valid, Serve, Reply, Wire, WellFormed, Scannable, Now;
      var r, len := ReceiveShift(c, rest);
      if r != Replied {
        return r;
      }
      var nrBytes := (len + 7) / 8;
      ShiftVectors(c, maxVectorSize);
      CommandBufferSize();
      ServeShift(SetupOf(0), SetupOf(frequency), s, Now(), c);
      var ok := ApplyShift(len, nrBytes, c);
      if !ok {
        return Failed;
      }
      CommandBufferSize();
      ok := SendAnswer(resultBuf[..nrBytes]);
      o := if ok then Replied else Failed;
    }

    /** Recognises a command by its first two bytes and handles it. */
    method Dispatch(frequency: nat, ghost c: Command, ghost s: Session, ghost rest: seq<byte>)
        returns (o: Outcome, isShift: bool)
      requires Valid() && Now() == s.(received := s.received + 2) && frequency < TWO32
      requires WellFormed(c, maxVectorSize) && |Wire(c)| >= 2 && cmdBuf[..2] == Wire(c)[..2]
      requires fd.incoming == Wire(c)[2..] + rest
      requires Scannable(SetupOf(frequency), s, c)
      modifies this`bytesRx, this`bytesTx, this`commands, this`seenTlr, this`jtagState, cmdBuf, vectorBuf, resultBuf, fd
      modifies ftdi.mpsse, ftdi.mpsse.dev, ftdi.mpsse.txBuffer, ftdi.mpsse.rxBuffer
      ensures o == Closed ==> fd.cut && fd.outgoing == old(fd.outgoing)
      ensures Accounts(old(ftdi.mpsse.dev.log), ftdi.mpsse.dev.log, o == Degraded || (o == Failed && !fd.broken))
      ensures o == Replied ==> Valid() && Now() == Serve(SetupOf(frequency), s, c)
      ensures o == Replied ==> fd.incoming == rest && fd.outgoing == old(fd.outgoing) + Reply(SetupOf(frequency), s, c)
      ensures isShift == c.Shift?
    {
      CommandStarts(c);
      hide Serve, Reply, Wire, WellFormed, Resting;
      var first, second := cmdBuf[0], cmdBuf[1];
      assert first == cmdBuf[..2][0] && second == cmdBuf[..2][1];
      isShift := false;
      if first == 0x67 && second == 0x65 {
        o := HandleGetInfo(frequency, s, rest);
      } else if first == 0x73 && second == 0x65 {
        o := HandleSetTck(frequency, c, s, rest);
      } else if first == 0x73 && second == 0x68 {
        isShift := true;
        o := HandleShift(frequency, c, s, rest);
      } else {
        o := Failed;
      }
    }

    /** Reads and handles the next command, if there is one. */
    method HandleNext(frequency: nat, ghost cmds: seq<Command>, ghost k: nat, ghost s: Session, ghost sent: seq<byte>)
      returns (o: Outcome, isShift: bool)
      requires Valid() && frequency < TWO32 && AllWellFormed(cmds, maxVectorSize) && k <= |cmds|
      requires Progress(frequency, s, sent, cmds, k)
      requires AllScannable(SetupOf(frequency), s, cmds)
      modifies this`bytesRx, this`bytesTx, this`commands, this`seenTlr, this`jtagState, cmdBuf, vectorBuf, resultBuf, fd
      modifies ftdi.mpsse, ftdi.mpsse.dev, ftdi.mpsse.txBuffer, ftdi.mpsse.rxBuffer
      ensures o == Closed || k < |cmds|
      ensures o == Closed ==> (fd.cut || k == |cmds|) && fd.outgoing == old(fd.outgoing)
      ensures Accounts(old(ftdi.mpsse.dev.log), ftdi.mpsse.dev.log, o == Degraded || (o == Failed && !fd.broken))
      ensures o == Replied ==> Valid() && Progress(frequency, s, sent, cmds, k + 1) && isShift == cmds[k].Shift?
    {
      hide Valid, Serve, Reply, Wire, WellFormed, ServeAll, Replies, WireAll, Scannable, Now;
      isShift := false;
      MoreBytes(cmds, maxVectorSize, k);
      CommandBufferSize();
      var got := ReadCommand(0, 2);
      if !got {
        return Closed, false;
      }
      assert cmdBuf[..2] == old(fd.incoming)[..2];
      NextCommand(cmds, maxVectorSize, k);
      ghost var e := SetupOf(frequency);
      OneMore(e, s, cmds, k + 1);
      o, isShift := Dispatch(frequency, cmds[k], ServeAll(e, s, cmds[..k]), WireAll(cmds[k + 1..], maxVectorSize));
    }

    /**
      Handles commands until one that is not a shift, or until the client may be switched: the TAP is
      in Run-Test/Idle and has been reset. Returns 0 then, 1 when the connection closed and -1 on a
      failure. `served` counts the commands of this call; `healthy` is false when a period could not be set.
    */
    method HandleCommands(frequency: nat, ghost cmds: seq<Command>) returns (r: int, ghost served: nat, healthy: bool)
      requires Valid() && frequency < TWO32 && AllWellFormed(cmds, maxVectorSize)
      requires fd.incoming == WireAll(cmds, maxVectorSize)
      requires AllScannable(SetupOf(frequency), Now(), cmds)
      modifies this`bytesRx, this`bytesTx, this`commands, this`seenTlr, this`jtagState, cmdBuf, vectorBuf, resultBuf, fd
      modifies ftdi.mpsse, ftdi.mpsse.dev, ftdi.mpsse.txBuffer, ftdi.mpsse.rxBuffer
      ensures r == 0 || r == 1 || r == -1
      ensures served <= |cmds|
      ensures Accounts(old(ftdi.mpsse.dev.log), ftdi.mpsse.dev.log, !healthy || (r == -1 && !fd.broken))
      ensures r == 1 ==>
        (fd.cut || served == |cmds|) &&
        fd.outgoing == old(fd.outgoing) + Replies(SetupOf(frequency), old(Now()), cmds[..served])
      ensures r == 0 && healthy ==> Valid() && 1 <= served <= |cmds|
      ensures r == 0 && healthy ==> Progress(frequency, old(Now()), old(fd.outgoing), cmds, served)
      ensures r == 0 && healthy ==> StopsAt(SetupOf(frequency), old(Now()), cmds, served)
      ensures r == 0 && healthy && old(Now()).tap == old(Now()).view.tap ==>
        && (cmds[served - 1].Shift? ==> SafePoint(SetupOf(frequency), old(Now()), cmds, served))
        && (forall j :: 0 <= j < served - 1 ==> cmds[j].Shift?)
        && (forall j :: 1 <= j < served ==> !SafePoint(SetupOf(frequency), old(Now()), cmds, j))
    {
      hide WellFormed, Valid, ServeAll, Replies, WireAll, Scannable, SafePoint;
      ghost var s, sent := Now(), fd.outgoing;
      served, healthy := 0, true;
      NoCommands(SetupOf(frequency), s, cmds);
      while true
        invariant served <= |cmds| && Valid() && Progress(frequency, s, sent, cmds, served)
        invariant Accounts(old(ftdi.mpsse.dev.log), ftdi.mpsse.dev.log, false)
        invariant forall j :: 1 <= j <= served ==> !MaySwitch(SetupOf(frequency), s, cmds, j)
        decreases |cmds| - served
      {
        var o, isShift := HandleNext(frequency, cmds, served, s, sent);
        if o == Closed {
          return 1, served, healthy;
        }
        if o == Failed {
          return -1, served, healthy;
        }
        served := served + 1;
        if o == Degraded {
          return 0, served, false;
        }
        if !isShift || (seenTlr && jtagState == JTAG_RUN_TEST_IDLE) {
          break;
        }
      }
      r := 0;
      if s.tap == s.view.tap {
        StopsSafely(SetupOf(frequency), s, cmds, served);
      }
    }

    /** Buffers for vectors of up to `limit` bytes. */
    method AllocateBuffers(limit: nat)
      requires Valid()
      modifies this`maxVectorSize, this`vectorBuf, this`resultBuf
      ensures Valid() && maxVectorSize == limit && fresh(vectorBuf) && fresh(resultBuf)
    {
      hide Resting;
      maxVectorSize := limit;
      vectorBuf := new byte[2 * limit];
      resultBuf := new byte[limit];
    }

    /**
      `xvc_init` on a context already in use: fresh buffers, the tracker back in Test-Logic-Reset,
      statistics at zero.
    */
    method Init(socketFd: Socket, size: int)
      requires Valid()
      modifies this
      ensures Valid() && fd == socketFd && maxVectorSize == VectorLimit(size) && fresh(vectorBuf) && fresh(resultBuf)
      ensures Now() == old(Now()).(tap := TestLogicReset, seenTlr := false, received := 0, sent := 0, commands := 0)
    {
      hide Resting, StateOf, VectorLimit;
      StateNumbers(JTAG_TEST_LOGIC_RESET);
      AllocateBuffers(VectorLimit(size));
      fd, jtagState, seenTlr, bytesRx, bytesTx, commands := socketFd, JTAG_TEST_LOGIC_RESET, false, 0, 0, 0;
    }

    /** The vector limit a call works with: a new socket starts over with the configured size, if there is one. */
    function LimitFor(socketFd: Socket, xvcBufferSize: int): nat
      reads this
    {
      if fd == socketFd then maxVectorSize else VectorLimit(if xvcBufferSize > 0 then xvcBufferSize else maxVectorSize)
    }

    /** The session a call starts from: a new socket forgets everything but the adapter. */
    ghost function StartFor(socketFd: Socket): Session
      reads this, ftdi, ftdi.mpsse, ftdi.mpsse.dev
    {
      if fd == socketFd then Now()
      else Now().(tap := TestLogicReset, seenTlr := false, received := 0, sent := 0, commands := 0)
    }

    /**
      What a call starts from: a known socket goes on, a new one gets the configured limit and forgets all
      but the adapter.
    */
    lemma ConnectionStart(socketFd: Socket, xvcBufferSize: int)
      ensures fd == socketFd ==> LimitFor(socketFd, xvcBufferSize) == maxVectorSize && StartFor(socketFd) == Now()
      ensures fd != socketFd ==>
        var s := StartFor(socketFd);
        && s.tap == TestLogicReset && !s.seenTlr && s.received == s.sent == s.commands == 0
        && s.view == Now().view && s.divisor == Now().divisor && s.divideBy5 == Now().divideBy5
      ensures fd != socketFd && 1 <= xvcBufferSize ==>
        LimitFor(socketFd, xvcBufferSize) == if xvcBufferSize > 262144 then 262144 else xvcBufferSize
      ensures fd != socketFd && xvcBufferSize <= 0 && 1 <= maxVectorSize <= 262144 ==>
        LimitFor(socketFd, xvcBufferSize) == maxVectorSize
    {
    }

    /** `xvc_handle`: starts over when the socket is a new one, then handles commands. */
    method Handle(socketFd: Socket, xvcBufferSize: int, frequency: nat, ghost cmds: seq<Command>)
      returns (r: int, ghost served: nat, healthy: bool)
      requires Valid() && frequency < TWO32
      requires AllWellFormed(cmds, LimitFor(socketFd, xvcBufferSize))
      requires socketFd.incoming == WireAll(cmds, LimitFor(socketFd, xvcBufferSize))
      requires AllScannable(SetupFor(LimitFor(socketFd, xvcBufferSize), frequency), StartFor(socketFd), cmds)
      modifies this, cmdBuf, vectorBuf, resultBuf, socketFd
      modifies ftdi.mpsse, ftdi.mpsse.dev, ftdi.mpsse.txBuffer, ftdi.mpsse.rxBuffer
      ensures r == 0 || r == 1 || r == -1
      ensures (vectorBuf == old(vectorBuf) || fresh(vectorBuf)) && (resultBuf == old(resultBuf) || fresh(resultBuf))
      ensures served <= |cmds|
      ensures Accounts(old(ftdi.mpsse.dev.log), ftdi.mpsse.dev.log, !healthy || (r == -1 && !socketFd.broken))
      ensures r == 1 ==>
        (socketFd.cut || served == |cmds|) && fd == socketFd &&
        maxVectorSize == old(LimitFor(socketFd, xvcBufferSize)) &&
        fd.outgoing == old(socketFd.outgoing) + Replies(SetupOf(frequency), old(StartFor(socketFd)), cmds[..served])
      ensures r == 0 && healthy ==>
        Valid() && fd == socketFd && maxVectorSize == old(LimitFor(socketFd, xvcBufferSize)) && 1 <= served <= |cmds|
      ensures r == 0 && healthy ==> Progress(frequency, old(StartFor(socketFd)), old(socketFd.outgoing), cmds, served)
      ensures r == 0 && healthy ==> StopsAt(SetupOf(frequency), old(StartFor(socketFd)), cmds, served)
      ensures r == 0 && healthy && old(StartFor(socketFd)).tap == old(StartFor(socketFd)).view.tap ==>
        && (cmds[served - 1].Shift? ==> SafePoint(SetupOf(frequency), old(StartFor(socketFd)), cmds, served))
        && (forall j :: 0 <= j < served - 1 ==> cmds[j].Shift?)
        && (forall j :: 1 <= j < served ==> !SafePoint(SetupOf(frequency), old(StartFor(socketFd)), cmds, j))
    {
      hide Resting, ServeAll, Replies, WireAll, WellFormed, SafePoint;
      if fd != socketFd {
        Init(socketFd, if xvcBufferSize > 0 then xvcBufferSize else maxVectorSize);
      }
      r, served, healthy := HandleCommands(frequency, cmds);
    }

    /**
      Serves a client: the server calls the handler again and again while there is something to read and it
      returns 0. Unless a read, a write or the device fails, every command is answered, and the client then gone.
    */
    method ServeClient(socketFd: Socket, xvcBufferSize: int, frequency: nat, ghost cmds: seq<Command>)
      returns (r: int, ghost served: nat, healthy: bool)
      requires Valid() && frequency < TWO32
      requires AllWellFormed(cmds, LimitFor(socketFd, xvcBufferSize))
      requires socketFd.incoming == WireAll(cmds, LimitFor(socketFd, xvcBufferSize))
      requires AllScannable(SetupFor(LimitFor(socketFd, xvcBufferSize), frequency), StartFor(socketFd), cmds)
      modifies this, cmdBuf, vectorBuf, resultBuf, socketFd
      modifies ftdi.mpsse, ftdi.mpsse.dev, ftdi.mpsse.txBuffer, ftdi.mpsse.rxBuffer
      ensures r == 1 || r == -1 || !healthy
      ensures Accounts(old(ftdi.mpsse.dev.log), ftdi.mpsse.dev.log, !healthy || (r == -1 && !socketFd.broken))
      ensures served <= |cmds|
      ensures r == 1 ==> maxVectorSize == old(LimitFor(socketFd, xvcBufferSize)) && (socketFd.cut || served == |cmds|)
      ensures r == 1 ==>
        socketFd.outgoing == old(socketFd.outgoing)
            + Replies(SetupOf(frequency), old(StartFor(socketFd)), cmds[..served])
    {
      hide Valid, Now, ServeAll, Replies, WireAll, WellFormed, AllScannable, StopsAt, Accounts;
      ghost var limit, s, sent, log := LimitFor(socketFd, xvcBufferSize), StartFor(socketFd), socketFd.outgoing,
          ftdi.mpsse.dev.log;
      AccountsNothing(log);
      ghost var e := SetupFor(limit, frequency);
      r, served, healthy := Handle(socketFd, xvcBufferSize, frequency, cmds);
      while r == 0 && healthy
        invariant r == 0 || r == 1 || r == -1
        invariant (vectorBuf == old(vectorBuf) || fresh(vectorBuf)) && (resultBuf == old(resultBuf) || fresh(resultBuf))
        invariant served <= |cmds| && Accounts(log, ftdi.mpsse.dev.log, !healthy || (r == -1 && !socketFd.broken))
        invariant r == 0 && healthy ==>
          Valid() && fd == socketFd && maxVectorSize == limit && Progress(frequency, s, sent, cmds, served)
        invariant r == 1 ==> maxVectorSize == limit && (socketFd.cut || served == |cmds|)
        invariant r == 1 ==> socketFd.outgoing == sent + Replies(e, s, cmds[..served])
        decreases |cmds| - served + (if r == 0 && healthy then 1 else 0)
      {
        ghost var n, before := 0, ftdi.mpsse.dev.log;
        ScannableOn(e, s, cmds, served);
        r, n, healthy := Handle(socketFd, xvcBufferSize, frequency, cmds[served..]);
        ServeOn(e, s, cmds, served, n);
        assert cmds[served..][n..] == cmds[served + n..];
        AccountsOnward(log, before, ftdi.mpsse.dev.log, !healthy || (r == -1 && !socketFd.broken));
        served := served + n;
      }
    }

    /** The first k commands are consumed and answered, and the session is the one they lead to. */
    ghost predicate Progress(frequency: nat, s: Session, sent: seq<byte>, cmds: seq<Command>, k: nat)
      requires k <= |cmds| && AllWellFormed(cmds, maxVectorSize)
      reads this, fd, ftdi, ftdi.mpsse, ftdi.mpsse.dev
    {
      && Now() == ServeAll(SetupOf(frequency), s, cmds[..k])
      && fd.outgoing == sent + Replies(SetupOf(frequency), s, cmds[..k])
      && fd.incoming == WireAll(cmds[k..], maxVectorSize)
    }
  }

  /** After its k-th command, a call to the handler returns. */
  ghost predicate MaySwitch(e: Setup, s: Session, cmds: seq<Command>, k: nat)
    requires 1 <= k <= |cmds| && AllWellFormed(cmds, e.limit)
  {
    var t := ServeAll(e, s, cmds[..k]);
    !cmds[k - 1].Shift? || (t.seenTlr && t.tap == RunTestIdle)
  }

  /** A call stops at the first command after which it may, and not before. */
  ghost predicate StopsAt(e: Setup, s: Session, cmds: seq<Command>, k: nat)
    requires 1 <= k <= |cmds| && AllWellFormed(cmds, e.limit)
  {
    MaySwitch(e, s, cmds, k) && forall j :: 1 <= j < k ==> !MaySwitch(e, s, cmds, j)
  }

  /**
    From agreeing trackers, a call that stops after a shift stops at the first safe point, and passed
    nothing but shifts.
  */
  lemma StopsSafely(e: Setup, s: Session, cmds: seq<Command>, k: nat)
    requires 1 <= k <= |cmds| && AllWellFormed(cmds, e.limit) && StopsAt(e, s, cmds, k) && s.tap == s.view.tap
    ensures cmds[k - 1].Shift? ==> SafePoint(e, s, cmds, k)
    ensures forall j :: 0 <= j < k - 1 ==> cmds[j].Shift?
    ensures forall j :: 1 <= j < k ==> !SafePoint(e, s, cmds, j)
  {
    hide ServeAll, SafePoint, WellFormed;
    SwitchIsSafe(e, s, cmds, k);
    forall j | 0 <= j < k - 1 ensures cmds[j].Shift? {
      assert !MaySwitch(e, s, cmds, j + 1);
    }
    forall j | 1 <= j < k ensures !SafePoint(e, s, cmds, j) {
      assert !MaySwitch(e, s, cmds, j);
      SwitchIsSafe(e, s, cmds, j);
    }
  }

  lemma NoCommands(e: Setup, s: Session, cmds: seq<Command>)
    requires AllWellFormed(cmds, e.limit)
    ensures ServeAll(e, s, cmds[..0]) == s && Replies(e, s, cmds[..0]) == [] && cmds[0..] == cmds
  {
  }

  lemma OneMore(e: Setup, s: Session, cmds: seq<Command>, k: nat)
    requires AllWellFormed(cmds, e.limit) && 1 <= k <= |cmds|
    ensures ServeAll(e, s, cmds[..k]) == Serve(e, ServeAll(e, s, cmds[..k - 1]), cmds[k - 1])
    ensures Replies(e, s, cmds[..k]) == Replies(e, s, cmds[..k - 1])
        + Reply(e, ServeAll(e, s, cmds[..k - 1]), cmds[k - 1])
  {
    hide Serve, Reply, WellFormed;
    assert cmds[..k][..k - 1] == cmds[..k - 1];
  }

  /** If two more bytes come, another command does. */
  lemma NextCommand(cmds: seq<Command>, limit: nat, k: nat)
    requires AllWellFormed(cmds, limit) && k <= |cmds| && |WireAll(cmds[k..], limit)| >= 2
    ensures k < |cmds| && WellFormed(cmds[k], limit) && |Wire(cmds[k])| >= 2
    ensures WireAll(cmds[k..], limit)[..2] == Wire(cmds[k])[..2]
    ensures WireAll(cmds[k..], limit)[2..] == Wire(cmds[k])[2..] + WireAll(cmds[k + 1..], limit)
  {
    hide PutInt32;
    assert cmds[k..][1..] == cmds[k + 1..];
    var w := Wire(cmds[k]);
    assert |w| >= 2;
  }

  /** While commands are left, more bytes come. */
  lemma MoreBytes(cmds: seq<Command>, limit: nat, k: nat)
    requires AllWellFormed(cmds, limit) && k <= |cmds|
    ensures k < |cmds| ==> |WireAll(cmds[k..], limit)| >= 2
  {
    hide PutInt32;
    if k < |cmds| {
      var w := Wire(cmds[k]);
      assert |w| >= 2;
    }
  }

  lemma CommandStarts(c: Command)
    requires c.Shift? ==> c.len < TWO31
    requires |Wire(c)| >= 2
    ensures c.GetInfo? <==> Wire(c)[0] == 0x67
    ensures c.SetTck? <==> Wire(c)[0] == 0x73 && Wire(c)[1] == 0x65
    ensures c.Shift? <==> Wire(c)[0] == 0x73 && Wire(c)[1] == 0x68
    ensures c.GetInfo? ==> Wire(c)[1] == 0x65
  {
    hide PutInt32;
  }

  lemma ShiftVectors(c: Command, limit: nat)
    requires c.Shift? && WellFormed(c, limit)
    ensures |c.tms| == |c.tdi| == (c.len + 7) / 8 <= limit
  {
  }

  lemma StateNumbers(n: JtagState)
    ensures (StateOf(n) == TestLogicReset <==> n == JTAG_TEST_LOGIC_RESET)
        && (StateOf(n) == RunTestIdle <==> n == JTAG_RUN_TEST_IDLE)
    ensures (StateOf(n) == CaptureDr <==> n == JTAG_CAPTURE_DR) && (StateOf(n) == CaptureIr <==> n == JTAG_CAPTURE_IR)
    ensures (StateOf(n) == Exit1Dr <==> n == JTAG_EXIT1_DR) && (StateOf(n) == Exit1Ir <==> n == JTAG_EXIT1_IR)
  {
  }

  lemma ZeroReply(s: seq<byte>)
    requires forall i :: 0 <= i < |s| ==> s[i] == 0
    ensures s == PackAll(Zeros(8 * |s|))
  {
    hide Bits, PackAll;
    ZeroBits(s);
    BitsOfPackAll(Zeros(8 * |s|));
    BitsInjective(s, PackAll(Zeros(8 * |s|)));
  }

  lemma StepsOnBuffer(state: JtagState, buf: seq<byte>, tms: seq<byte>, len: nat)
    requires len <= 8 * |tms| && |tms| <= |buf| && buf[..|tms|] == tms
    ensures StateOf(Steps(state, Bits(buf), 0, len)) == Walk(StateOf(state), Bits(tms), 0, len)
  {
    hide Bits, Steps, Walk, StateOf, Number;
    BitsSlice(buf, 0, |tms|);
    assert buf[0..|tms|] == buf[..|tms|];
    assert Bits(buf)[0..8 * |tms|][0..len] == Bits(buf)[0..len];
    StepsAreWalk(StateOf(state), Bits(buf), 0, len);
    WalkWindow(StateOf(state), Bits(buf), 0, Bits(tms), 0, len);
    NumberInjective(Walk(StateOf(state), Bits(tms), 0, len));
  }

  /** The statistics and a forced frequency have no part in what a shift does. */
  lemma ServeShift(e: Setup, f: Setup, s: Session, t: Session, c: Command)
    requires c.Shift? && WellFormed(c, e.limit) && e == f.(frequency := e.frequency)
    requires t == s.(received := t.received)
    ensures Reply(e, t, c) == Reply(f, s, c) && Scannable(e, t, c) == Scannable(f, s, c)
    ensures Serve(f, s, c) == Serve(e, t, c).(received := s.received + |Wire(c)|, sent := s.sent + |Reply(f, s, c)|,
        commands := s.commands + 1)
    ensures |Reply(f, s, c)| == (c.len + 7) / 8 && |Wire(c)| == 10 + 2 * |c.tms|
  {
    hide Bits, Walk, Shifted, PutInt32, RunsFit, PoolUse;
    ShiftReplyLength(f, s, c);
  }

  /** Scanning into a result buffer longer than the vectors gives the reference's TDO at its front. */
  lemma ShiftInLargerBuffer(b: Board, v: View, c: Command, was: seq<byte>, now: seq<byte>)
    requires c.Shift? && 1 <= c.len <= 8 * |c.tms| && |c.tms| == |c.tdi| <= |was| == |now|
    requires forall i :: 0 <= i < |c.tms| ==> was[i] == 0
    requires Play(b, v.(tdo := Bits(was)), Bits(c.tms), Bits(c.tdi), 0, c.len).tdo == Bits(now)
    ensures Play(b, v.(tdo := Bits(was)), Bits(c.tms), Bits(c.tdi), 0, c.len).(tdo := [])
        == Shifted(b, v, c).(tdo := [])
    ensures now[..|c.tms|] == PackAll(Shifted(b, v, c).tdo)
  {
    hide Bits, Play, PackAll, Splice;
    var n := |c.tms|;
    var t, d := Bits(c.tms), Bits(c.tdi);
    var whole, chunk := v.(tdo := Bits(was)), Zeros(8 * n);
    ZeroBits(was[..n]);
    BitsSlice(was, 0, n);
    assert was[0..n] == was[..n];
    ChunkIsPiece(b, whole, t, d, 0, c.len, chunk, t, d);
    assert whole.(tdo := chunk) == v.(tdo := chunk);
    var q := Shifted(b, v, c).tdo;
    FrontOfSplice(Bits(was), q);
    BitsSlice(now, 0, n);
    assert now[0..n] == now[..n];
    BitsOfPackAll(q);
    BitsInjective(now[..n], PackAll(q));
  }

  lemma FrontOfSplice(w: seq<bool>, q: seq<bool>)
    requires |q| <= |w|
    ensures Splice(w, 0, q, 0, |q|)[0..|q|] == q
  {
  }

  lemma WireLength(c: Command)
    requires c.SetTck? && |c.period| == 4
    ensures |Wire(c)| == 11
  {
  }

  /** The vector limit a connection gets. */
  function VectorLimit(maxVectorSize: int): nat {
    if maxVectorSize <= 0 then DEFAULT_MAX_VECTOR_SIZE
    else if maxVectorSize > MAX_VECTOR_SIZE_LIMIT then MAX_VECTOR_SIZE_LIMIT
    else maxVectorSize
  }

  /** In numbers: 2048 bytes when none is given, and never more than 256 KiB. */
  lemma VectorLimits(size: int)
    ensures size <= 0 ==> VectorLimit(size) == 2048
    ensures 1 <= size <= 262144 ==> VectorLimit(size) == size
    ensures size > 262144 ==> VectorLimit(size) == 262144
  {
  }
}
