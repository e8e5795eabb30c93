/**
  What an XVC connection means: each command, in order, changes the session and earns one
  reply. Shifts run on the reference machine, so this says what the client sees end to end.
*/
module XvcSession {
  import opened Bytes
  import opened Jtag
  import opened Probe
  import opened Frequency
  import opened Observers
  import opened Segments
  import opened Text
  import opened XvcTap
  import opened XvcWire

  /**
    Fixed for a connection: the board, the vector limit, a forced frequency (0 for none), and the largest
    byte command.
  */
  datatype Setup = Setup(board: Board, limit: nat, frequency: nat, room: nat)

  /**
    The handler's tracked TAP state and history flag, the adapter's view, the chip's clock setting, and the
    statistics.
  */
  datatype Session = Session(tap: Tap, seenTlr: bool, view: View, divisor: nat, divideBy5: bool,
                             received: nat, sent: nat, commands: nat)

  function Zeros(n: nat): (r: seq<bool>)
    ensures |r| == n
  {
    seq(n, i => false)
  }

  /** The two TMS patterns in Exit1 that are answered with zeros and not forwarded. */
  predicate Bogus(tap: Tap, len: nat, tms: seq<byte>)
    requires tms != []
  {
    (tap == Exit1Ir && len == 5 && tms[0] == 0x17) || (tap == Exit1Dr && len == 4 && tms[0] == 0x0B)
  }

  /** The history flag after a shift boundary in the given state. */
  predicate SeenAfter(tap: Tap, seenTlr: bool) {
    (seenTlr || tap == TestLogicReset) && tap != CaptureDr && tap != CaptureIr
  }

  /** The adapter after a forwarded shift, the TDO vector starting from zeros. */
  function Shifted(b: Board, v: View, c: Command): (r: View)
    requires c.Shift? && c.len <= 8 * |c.tms| && |c.tms| == |c.tdi|
    ensures |r.tdo| == 8 * |c.tms|
  {
    Play(b, v.(tdo := Zeros(8 * |c.tms|)), Bits(c.tms), Bits(c.tdi), 0, c.len)
  }

  /** The period asked for: the client's four bytes as an unsigned number, unless a frequency is forced. */
  function PeriodAsked(frequency: nat, period: seq<byte>): nat
    requires |period| == 4
  {
    if frequency == 0 then GetInt32(period) % TWO32 else NS_PER_S / frequency
  }

  /** The bits a shift is answered with. */
  function AnswerBits(e: Setup, s: Session, c: Command): (r: seq<bool>)
    requires WellFormed(c, e.limit) && c.Shift?
    ensures |r| % 8 == 0
  {
    if Bogus(s.tap, c.len, c.tms) then Zeros(8 * |c.tms|) else Shifted(e.board, s.view, c).tdo
  }

  function Reply(e: Setup, s: Session, c: Command): seq<byte>
    requires WellFormed(c, e.limit)
  {
    match c
    case GetInfo => InfoReply(e.limit)
    case SetTck(period) => PutInt32(PeriodReported(PeriodAsked(e.frequency, period)))
    case Shift(len, tms, tdi) => PackAll(AnswerBits(e, s, c))
  }

  function Serve(e: Setup, s: Session, c: Command): Session
    requires WellFormed(c, e.limit)
  {
    var t := s.(received := s.received + |Wire(c)|, sent := s.sent + |Reply(e, s, c)|, commands := s.commands + 1);
    match c
    case GetInfo => t
    case SetTck(period) =>
      t.(divisor := DivisorFor(FrequencyOfPeriod(PeriodAsked(e.frequency, period))), divideBy5 := false)
    case Shift(len, tms, tdi) =>
      var u := t.(seenTlr := SeenAfter(s.tap, s.seenTlr));
      if Bogus(s.tap, len, tms) then u
      else u.(tap := Walk(s.tap, Bits(tms), 0, len), view := Shifted(e.board, s.view, c).(tdo := []))
  }

  /** The adapter can scan the shift, if it gets it: its Shift runs fit, and the pool lasts. */
  ghost predicate Scannable(e: Setup, s: Session, c: Command)
    requires WellFormed(c, e.limit)
  {
    c.Shift? && !Bogus(s.tap, c.len, c.tms) ==>
      && RunsFit(s.view.tap, Bits(c.tms), 0, c.len, e.room)
      && PoolUse(s.view.tap, Bits(c.tms), c.len, c.len) <= POOL_SIZE
  }

  /** The session after a run of commands. */
  function ServeAll(e: Setup, s: Session, cs: seq<Command>): Session
    requires AllWellFormed(cs, e.limit)
  {
    if cs == [] then s else Serve(e, ServeAll(e, s, cs[..|cs| - 1]), cs[|cs| - 1])
  }

  /** Everything the client is sent for a run of commands. */
  function Replies(e: Setup, s: Session, cs: seq<Command>): seq<byte>
    requires AllWellFormed(cs, e.limit)
  {
    if cs == [] then []
    else Replies(e, s, cs[..|cs| - 1]) + Reply(e, ServeAll(e, s, cs[..|cs| - 1]), cs[|cs| - 1])
  }

  /** The adapter can scan every shift of a run of commands. */
  ghost predicate AllScannable(e: Setup, s: Session, cs: seq<Command>)
    requires AllWellFormed(cs, e.limit)
  {
    forall k :: 0 <= k < |cs| ==> Scannable(e, ServeAll(e, s, cs[..k]), cs[k])
  }

  /** It always can when no vector is longer than the largest byte command. */
  lemma ShortShiftsScannable(e: Setup, s: Session, cs: seq<Command>)
    requires AllWellFormed(cs, e.limit) && e.room <= 0x1_0000
    requires forall k :: 0 <= k < |cs| && cs[k].Shift? ==> |cs[k].tms| <= e.room
    ensures AllScannable(e, s, cs)
  {
    hide Bits, RunsFit, PoolUse, ServeAll, Bogus;
    forall k | 0 <= k < |cs| ensures Scannable(e, ServeAll(e, s, cs[..k]), cs[k]) {
      if cs[k].Shift? {
        var tap := ServeAll(e, s, cs[..k]).view.tap;
        ShortVectorFits(tap, Bits(cs[k].tms), 0, cs[k].len, e.room);
        ShortVectorPools(tap, Bits(cs[k].tms), cs[k].len);
      }
    }
  }

  /** Serving a run of commands in several calls is serving it in one. */
  lemma {:induction false} ServeSplit(e: Setup, s: Session, a: seq<Command>, c: seq<Command>)
    requires AllWellFormed(a, e.limit) && AllWellFormed(c, e.limit)
    ensures AllWellFormed(a + c, e.limit)
    ensures ServeAll(e, s, a + c) == ServeAll(e, ServeAll(e, s, a), c)
    ensures Replies(e, s, a + c) == Replies(e, s, a) + Replies(e, ServeAll(e, s, a), c)
    decreases |c|
  {
    hide Serve, Reply, WellFormed;
    if c == [] {
      assert a + c == a;
    } else {
      var d := c[..|c| - 1];
      assert (a + c)[..|a + c| - 1] == a + d;
      ServeSplit(e, s, a, d);
    }
  }

  /** The first TMS bits of a shift, and clear bits after them. */
  predicate Pads(tms: seq<bool>, first: seq<bool>) {
    |first| <= |tms| && tms[..|first|] == first && forall i :: |first| <= i < |tms| ==> !tms[i]
  }

  /** The shifts that are answered without the adapter: TMS 1,1,1,0,1 from Exit1-IR, and 1,1,0,1 from Exit1-DR. */
  ghost predicate Detour(tap: Tap, len: nat, tms: seq<bool>) {
    || (tap == Exit1Ir && len == 5 && Pads(tms, [true, true, true, false, true]))
    || (tap == Exit1Dr && len == 4 && Pads(tms, [true, true, false, true]))
  }

  /** One byte of TMS, bit by bit. */
  lemma OneByteIs(x: byte, y: byte)
    ensures x == y <==> Bits([x]) == Bits([y])
  {
    hide Bits;
    if Bits([x]) == Bits([y]) {
      BitsInjective([x], [y]);
    }
  }

  lemma DetourBytes()
    ensures Bits([0x17]) == [true, true, true, false, true, false, false, false]
    ensures Bits([0x0B]) == [true, true, false, true, false, false, false, false]
  {
  }

  lemma BogusIsDetour(tap: Tap, len: nat, tms: seq<byte>)
    requires |tms| == (len + 7) / 8 && len >= 1
    ensures Bogus(tap, len, tms) <==> Detour(tap, len, Bits(tms))
  {
    hide Bits;
    DetourBytes();
    if len <= 8 {
      assert tms == [tms[0]];
      OneByteIs(tms[0], 0x17);
      OneByteIs(tms[0], 0x0B);
      var t := Bits(tms);
      if Detour(tap, len, t) {
        assert t == if len == 5 then Bits([0x17]) else Bits([0x0B]);
      }
    }
  }

  /** A shift is withheld from the adapter, so that nothing is clocked, exactly when it is one of those two. */
  lemma WithheldIff(e: Setup, s: Session, c: Command)
    requires WellFormed(c, e.limit) && c.Shift?
    ensures Serve(e, s, c).view.wave == s.view.wave <==> Detour(s.tap, c.len, Bits(c.tms))
    ensures !Detour(s.tap, c.len, Bits(c.tms)) ==> |Serve(e, s, c).view.wave| == |s.view.wave| + c.len
  {
    hide Bits, Reply, Wire, Play, Bogus, Detour, Walk;
    BogusIsDetour(s.tap, c.len, c.tms);
  }

  /** Such a walk goes round through Capture and back to where it started, without shifting. */
  lemma DetourReturns(tap: Tap, len: nat, tms: seq<bool>)
    requires Detour(tap, len, tms)
    ensures len <= |tms| && Walk(tap, tms, 0, len) == tap
    ensures forall i :: 0 <= i <= len ==> !InShift(Walk(tap, tms, 0, i))
    ensures Walk(tap, tms, 0, len - 1) == if tap == Exit1Ir then CaptureIr else CaptureDr
  {
    hide Walk, InShift, Next;
    var first := tms[..len];
    assert forall i :: 0 <= i < len ==> tms[i] == first[i];
    FiveSteps(tap, tms, len);
    DetourSteps();
    NotShifting(tap);
  }

  lemma NotShifting(s: Tap)
    ensures !InShift(Exit1Ir) && !InShift(UpdateIr) && !InShift(SelectDr) && !InShift(SelectIr) && !InShift(CaptureIr)
    ensures !InShift(Exit1Dr) && !InShift(UpdateDr) && !InShift(CaptureDr)
  {
  }

  lemma DetourSteps()
    ensures Next(Exit1Ir, true) == UpdateIr && Next(UpdateIr, true) == SelectDr && Next(SelectDr, true) == SelectIr
    ensures Next(SelectIr, false) == CaptureIr && Next(CaptureIr, true) == Exit1Ir
    ensures Next(Exit1Dr, true) == UpdateDr && Next(UpdateDr, true) == SelectDr && Next(SelectDr, false) == CaptureDr
    ensures Next(CaptureDr, true) == Exit1Dr
  {
  }

  lemma FiveSteps(s: Tap, tms: seq<bool>, len: nat)
    requires 4 <= len <= 5 && len <= |tms|
    ensures Walk(s, tms, 0, 0) == s && Walk(s, tms, 0, 1) == Next(s, tms[0])
    ensures Walk(s, tms, 0, 2) == Next(Walk(s, tms, 0, 1), tms[1])
    ensures Walk(s, tms, 0, 3) == Next(Walk(s, tms, 0, 2), tms[2])
    ensures Walk(s, tms, 0, 4) == Next(Walk(s, tms, 0, 3), tms[3])
    ensures len == 5 ==> Walk(s, tms, 0, 5) == Next(Walk(s, tms, 0, 4), tms[4])
  {
    hide Next;
  }

  /**
    Withholding a shift leaves both trackers alone and answers zeros: what forwarding it would have done but
    for the clocks.
  */
  lemma WithheldLooksForwarded(e: Setup, s: Session, c: Command)
    requires WellFormed(c, e.limit) && c.Shift? && Detour(s.tap, c.len, Bits(c.tms))
    ensures Serve(e, s, c).tap == s.tap == Walk(s.tap, Bits(c.tms), 0, c.len)
    ensures Serve(e, s, c).view.tap == s.view.tap
    ensures s.view.tap == s.tap ==> Walk(s.view.tap, Bits(c.tms), 0, c.len) == s.view.tap
    ensures Bits(Reply(e, s, c)) == Zeros(8 * |c.tms|)
    ensures s.view.tap == s.tap ==> Shifted(e.board, s.view, c).tdo == Zeros(8 * |c.tms|)
  {
    hide Bits, Wire, Play, Bogus, Detour, Walk, PackAll, InShift;
    BogusIsDetour(s.tap, c.len, c.tms);
    DetourReturns(s.tap, c.len, Bits(c.tms));
    BitsOfPackAll(Zeros(8 * |c.tms|));
    if s.view.tap == s.tap {
      var z := Zeros(8 * |c.tms|);
      forall i | 0 <= i < |z| ensures Shifted(e.board, s.view, c).tdo[i] == z[i] {
        PlayTdo(e.board, s.view.(tdo := z), Bits(c.tms), Bits(c.tdi), 0, c.len, i);
      }
    }
  }

  /** The answer to a settck is the period, in nanoseconds, of the frequency the clock is then at. */
  lemma SetTckReply(e: Setup, s: Session, c: Command)
    requires WellFormed(c, e.limit) && c.SetTck?
    ensures |Reply(e, s, c)| == 4
    ensures Tck(Serve(e, s, c).divisor) > 0
    ensures GetInt32(Reply(e, s, c)) == 1000000000 / Tck(Serve(e, s, c).divisor) && !Serve(e, s, c).divideBy5
  {
    hide GetInt32, PutInt32, DivisorFor, PeriodAsked, Tck, Wire;
    var asked := PeriodAsked(e.frequency, c.period);
    FrequencyIsOptimal(FrequencyOfPeriod(asked));
    Int32RoundTrip(PeriodReported(asked));
  }

  /** A forced frequency is reached whatever the client asks for; a settck then always sets the same clock. */
  lemma ForcedFrequency(e: Setup, s: Session, c: Command, d: Command)
    requires WellFormed(c, e.limit) && WellFormed(d, e.limit) && c.SetTck? && d.SetTck?
    requires 1 <= e.frequency <= 1000000000
    ensures Tck(Serve(e, s, c).divisor) >= if e.frequency > 30000000 then 30000000 else e.frequency
    ensures Serve(e, s, c).divisor == Serve(e, s, d).divisor
  {
    hide Wire, Reply, Tck, DivisorFor, GetInt32;
    QuotientOfQuotient(NS_PER_S, e.frequency);
    FrequencyIsOptimal(NS_PER_S / (NS_PER_S / e.frequency));
  }

  /** With none, the clock follows the client's four bytes, lowest first, read as a number of nanoseconds. */
  lemma ClientPeriod(e: Setup, s: Session, c: Command)
    requires WellFormed(c, e.limit) && c.SetTck? && e.frequency == 0
    ensures var p := ToNat(c.period[0]) + 0x100 * ToNat(c.period[1]) + 0x1_0000 * ToNat(c.period[2])
                     + 0x100_0000 * ToNat(c.period[3]);
      Tck(Serve(e, s, c).divisor) == FrequencySet(p)
  {
    hide Wire, Reply, Tck, DivisorFor, ToNat, GetInt32, FrequencyOfPeriod;
    UnsignedWord(c.period);
  }

  lemma UnsignedWord(data: seq<byte>)
    requires |data| == 4
    ensures GetInt32(data) % TWO32 ==
            ToNat(data[0]) + 0x100 * ToNat(data[1]) + 0x1_0000 * ToNat(data[2]) + 0x100_0000 * ToNat(data[3])
  {
    hide ToNat;
  }

  /** The answer to getinfo is the version, a colon, the vector limit in decimal, and a newline. */
  lemma GetInfoReply(e: Setup, s: Session)
    ensures var t := AsText(Reply(e, s, GetInfo));
      && |t| > 16 && t[..15] == "xvcServer_v1.0:" && t[|t| - 1] == '\n'
      && Digits(t[15..|t| - 1]) && Atoi(t[15..|t| - 1]) == e.limit
    ensures Serve(e, s, GetInfo).view == s.view && Serve(e, s, GetInfo).tap == s.tap
  {
    hide Wire, Atoi, Decimal, ToByte, ToNat;
    var text := "xvcServer_v1.0:" + Decimal(e.limit) + "\n";
    InfoReplyText(e.limit);
    AtoiOfInteger(e.limit);
    assert text[15..|text| - 1] == Decimal(e.limit);
  }

  lemma InfoReplyText(limit: nat)
    ensures AsText(InfoReply(limit)) == "xvcServer_v1.0:" + Decimal(limit) + "\n"
  {
    hide Decimal, ToByte, ToNat;
    var text := "xvcServer_v1.0:" + Decimal(limit) + "\n";
    PlainText(Decimal(limit));
    forall i | 0 <= i < |text| ensures AsText(InfoReply(limit))[i] == text[i] {
      assert 0 <= text[i] as int < 256;
      ByteOfNat(text[i] as nat);
    }
  }

  lemma PlainText(digits: string)
    requires Digits(digits)
    ensures forall i :: 0 <= i < |digits| ==> 0 <= digits[i] as int < 256
  {
  }

  /** The answer to a shift has one bit for each TMS bit, rounded up to whole bytes. */
  lemma ShiftReplyLength(e: Setup, s: Session, c: Command)
    requires WellFormed(c, e.limit) && c.Shift?
    ensures |Reply(e, s, c)| == (c.len + 7) / 8
  {
    hide Bits, Pack;
  }

  /**
    Bit i of the answer to a forwarded shift is TDO sampled at its cycle i if the TAP was shifting then, and
    0 otherwise.
  */
  lemma ShiftReplyBits(e: Setup, s: Session, c: Command, i: nat)
    requires WellFormed(c, e.limit) && c.Shift? && !Bogus(s.tap, c.len, c.tms) && i < 8 * |c.tms|
    ensures |Bits(Reply(e, s, c))| == 8 * |c.tms|
    ensures Bits(Reply(e, s, c))[i] ==
            (i < c.len && InShift(Walk(s.view.tap, Bits(c.tms), 0, i))
                && Serve(e, s, c).view.wave[|s.view.wave| + i].tdo)
  {
    hide Bits, PackAll, Play, Walk, InShift, Bogus, Wire;
    BitsOfPackAll(Shifted(e.board, s.view, c).tdo);
    PlayTdo(e.board, s.view.(tdo := Zeros(8 * |c.tms|)), Bits(c.tms), Bits(c.tdi), 0, c.len, i);
  }

  lemma WireAllSnoc(cs: seq<Command>, limit: nat)
    requires AllWellFormed(cs, limit) && cs != []
    ensures WireAll(cs, limit) == WireAll(cs[..|cs| - 1], limit) + Wire(cs[|cs| - 1])
  {
    hide Wire, WellFormed;
    if |cs| == 1 {
      assert cs[1..] == [] && cs[..0] == [];
    } else {
      var d := cs[..|cs| - 1];
      assert d[1..] == cs[1..][..|cs[1..]| - 1];
      WireAllSnoc(cs[1..], limit);
    }
  }

  /** The statistics are the true totals. */
  lemma {:induction false} Totals(e: Setup, s: Session, cs: seq<Command>)
    requires AllWellFormed(cs, e.limit)
    ensures var r := ServeAll(e, s, cs);
      && r.received == s.received + |WireAll(cs, e.limit)|
      && r.sent == s.sent + |Replies(e, s, cs)|
      && r.commands == s.commands + |cs|
    decreases |cs|
  {
    hide Reply, Wire, WellFormed, Shifted, Bogus, Walk, Bits, SeenAfter, DivisorFor, PeriodAsked;
    if cs != [] {
      Totals(e, s, cs[..|cs| - 1]);
      WireAllSnoc(cs, e.limit);
    }
  }

  /** Trackers that agree keep agreeing, whether shifts are forwarded or skipped. */
  lemma {:induction false} TrackersStayTogether(e: Setup, s: Session, cs: seq<Command>)
    requires AllWellFormed(cs, e.limit) && s.tap == s.view.tap
    ensures ServeAll(e, s, cs).tap == ServeAll(e, s, cs).view.tap
    decreases |cs|
  {
    hide Reply, Wire, Play, Walk, Bits;
    if cs != [] {
      var c := cs[|cs| - 1];
      var p := ServeAll(e, s, cs[..|cs| - 1]);
      TrackersStayTogether(e, s, cs[..|cs| - 1]);
      if c.Shift? {
        PlayTap(e.board, p.view.(tdo := Zeros(8 * |c.tms|)), Bits(c.tms), Bits(c.tdi), 0, c.len);
      }
    }
  }

  /** The TMS bits that reach the adapter: those of every shift that is not skipped, one after the other. */
  function Forwarded(e: Setup, s: Session, cs: seq<Command>): seq<bool>
    requires AllWellFormed(cs, e.limit)
  {
    if cs == [] then []
    else
      var c := cs[|cs| - 1];
      Forwarded(e, s, cs[..|cs| - 1]) +
      if c.Shift? && !Bogus(ServeAll(e, s, cs[..|cs| - 1]).tap, c.len, c.tms) then Bits(c.tms)[..c.len] else []
  }

  /** A walk goes on along appended bits. */
  lemma WalkAppend(t: Tap, a: seq<bool>, tms: seq<bool>, n: nat)
    requires n <= |tms|
    ensures Walk(t, a + tms[..n], 0, |a| + n) == Walk(Walk(t, a, 0, |a|), tms, 0, n)
  {
    hide Walk;
    var w := a + tms[..n];
    assert w[0..|a|] == a[0..|a|] && w[|a|..|a| + n] == tms[0..n];
    WalkSplit(t, w, 0, |a|, |a| + n);
    WalkWindow(t, w, 0, a, 0, |a|);
    WalkWindow(Walk(t, a, 0, |a|), w, |a|, tms, 0, n);
  }

  /** Both trackers walk along the forwarded bits, each from where it started. */
  lemma {:induction false} TrackersWalk(e: Setup, s: Session, cs: seq<Command>)
    requires AllWellFormed(cs, e.limit)
    ensures var r, w := ServeAll(e, s, cs), Forwarded(e, s, cs);
      r.tap == Walk(s.tap, w, 0, |w|) && r.view.tap == Walk(s.view.tap, w, 0, |w|)
    decreases |cs|
  {
    hide Reply, Wire, Play, Walk, Bits, Bogus;
    if cs == [] {
      WalkNone(s.tap, [], 0);
      WalkNone(s.view.tap, [], 0);
    } else {
      var c, p := cs[|cs| - 1], cs[..|cs| - 1];
      var q, w := ServeAll(e, s, p), Forwarded(e, s, p);
      TrackersWalk(e, s, p);
      if c.Shift? && !Bogus(q.tap, c.len, c.tms) {
        PlayTap(e.board, q.view.(tdo := Zeros(8 * |c.tms|)), Bits(c.tms), Bits(c.tdi), 0, c.len);
        WalkAppend(s.tap, w, Bits(c.tms), c.len);
        WalkAppend(s.view.tap, w, Bits(c.tms), c.len);
      } else {
        assert w + [] == w;
      }
    }
  }

  /**
    Whatever the two trackers held, they agree once five TMS ones in a row have been forwarded, in one shift
    or across several.
  */
  lemma TrackersMeetAgain(e: Setup, s: Session, cs: seq<Command>, k: nat)
    requires AllWellFormed(cs, e.limit) && k + 5 <= |Forwarded(e, s, cs)|
    requires forall i :: k <= i < k + 5 ==> Forwarded(e, s, cs)[i]
    ensures ServeAll(e, s, cs).tap == ServeAll(e, s, cs).view.tap
  {
    hide ServeAll, Forwarded, Walk;
    var w := Forwarded(e, s, cs);
    TrackersWalk(e, s, cs);
    TrackersMeet(s.tap, s.view.tap, w, 0, k, |w|);
  }

  /** TCK runs at the frequency of the last settck, whatever is shifted or asked after it. */
  lemma {:induction false} LastSetTckHolds(e: Setup, s: Session, cs: seq<Command>, k: nat)
    requires AllWellFormed(cs, e.limit) && k < |cs| && cs[k].SetTck?
    requires forall j :: k < j < |cs| ==> !cs[j].SetTck?
    ensures |cs[k].period| == 4
    ensures var r := ServeAll(e, s, cs);
      Tck(r.divisor) == FrequencySet(PeriodAsked(e.frequency, cs[k].period)) && !r.divideBy5
    decreases |cs|
  {
    hide Reply, Wire, Shifted, Walk, Bits, Bogus, Tck, DivisorFor, PeriodAsked;
    if k < |cs| - 1 {
      LastSetTckHolds(e, s, cs[..|cs| - 1], k);
    }
  }

  /** Serving a run of commands from the k-th on, after serving the first k, is serving the whole run. */
  lemma ServeOn(e: Setup, s: Session, cs: seq<Command>, k: nat, n: nat)
    requires AllWellFormed(cs, e.limit) && k + n <= |cs|
    ensures AllWellFormed(cs[k..], e.limit) && cs[k..][..n] == cs[k..k + n]
    ensures ServeAll(e, ServeAll(e, s, cs[..k]), cs[k..][..n]) == ServeAll(e, s, cs[..k + n])
    ensures Replies(e, s, cs[..k + n]) == Replies(e, s, cs[..k]) + Replies(e, ServeAll(e, s, cs[..k]), cs[k..][..n])
  {
    hide ServeAll, Replies, WellFormed;
    assert cs[..k + n] == cs[..k] + cs[k..][..n];
    ServeSplit(e, s, cs[..k], cs[k..][..n]);
  }

  lemma ScannableOn(e: Setup, s: Session, cs: seq<Command>, k: nat)
    requires AllWellFormed(cs, e.limit) && k <= |cs| && AllScannable(e, s, cs)
    ensures AllWellFormed(cs[k..], e.limit) && AllScannable(e, ServeAll(e, s, cs[..k]), cs[k..])
  {
    hide ServeAll, Scannable, WellFormed;
    forall n | 0 <= n < |cs| - k ensures Scannable(e, ServeAll(e, ServeAll(e, s, cs[..k]), cs[k..][..n]), cs[k..][n]) {
      ServeOn(e, s, cs, k, n);
    }
  }

  /** The handler's TAP state at each shift boundary of a run, oldest first. */
  function Boundaries(e: Setup, s: Session, cs: seq<Command>): seq<Tap>
    requires AllWellFormed(cs, e.limit)
  {
    if cs == [] then []
    else Boundaries(e, s, cs[..|cs| - 1]) +
         (if cs[|cs| - 1].Shift? then [ServeAll(e, s, cs[..|cs| - 1]).tap] else [])
  }

  /** Some boundary was in Test-Logic-Reset, and none from there on was in a Capture state. */
  ghost predicate ResetSeen(bs: seq<Tap>) {
    exists i :: 0 <= i < |bs| && bs[i] == TestLogicReset &&
        forall j :: i <= j < |bs| ==> bs[j] != CaptureDr && bs[j] != CaptureIr
  }

  lemma ResetSeenSnoc(bs: seq<Tap>, tap: Tap)
    ensures ResetSeen(bs + [tap]) == SeenAfter(tap, ResetSeen(bs))
  {
    var cs := bs + [tap];
    if ResetSeen(bs) && tap != CaptureDr && tap != CaptureIr {
      var i :| 0 <= i < |bs| && bs[i] == TestLogicReset &&
        forall j :: i <= j < |bs| ==> bs[j] != CaptureDr && bs[j] != CaptureIr;
      assert cs[i] == TestLogicReset;
    }
    if tap == TestLogicReset {
      assert cs[|bs|] == TestLogicReset;
    }
    if ResetSeen(cs) {
      var i :| 0 <= i < |cs| && cs[i] == TestLogicReset &&
        forall j :: i <= j < |cs| ==> cs[j] != CaptureDr && cs[j] != CaptureIr;
      assert cs[|bs|] == tap;
      if i < |bs| {
        assert bs[i] == TestLogicReset;
        assert forall j :: i <= j < |bs| ==> bs[j] == cs[j];
      }
    }
  }

  ghost predicate NoCapture(bs: seq<Tap>) {
    forall j :: 0 <= j < |bs| ==> bs[j] != CaptureDr && bs[j] != CaptureIr
  }

  /** Test-Logic-Reset has been seen, at one of the boundaries or before them, and no Capture state since. */
  ghost predicate ResetHolds(before: bool, bs: seq<Tap>) {
    ResetSeen(bs) || (before && NoCapture(bs))
  }

  lemma ResetHoldsSnoc(before: bool, bs: seq<Tap>, tap: Tap)
    ensures ResetHolds(before, bs + [tap]) == SeenAfter(tap, ResetHolds(before, bs))
  {
    hide ResetSeen;
    ResetSeenSnoc(bs, tap);
    var cs := bs + [tap];
    assert cs[|bs|] == tap;
    assert forall j :: 0 <= j < |bs| ==> cs[j] == bs[j];
    if NoCapture(cs) {
      forall j | 0 <= j < |bs| ensures bs[j] != CaptureDr && bs[j] != CaptureIr {
        assert cs[j] != CaptureDr && cs[j] != CaptureIr;
      }
    }
  }

  /** The history flag says exactly what the boundaries were. */
  lemma {:induction false} SeenTlrIsHistory(e: Setup, s: Session, cs: seq<Command>)
    requires AllWellFormed(cs, e.limit)
    ensures ServeAll(e, s, cs).seenTlr == ResetHolds(s.seenTlr, Boundaries(e, s, cs))
    ensures !s.seenTlr ==> ServeAll(e, s, cs).seenTlr == ResetSeen(Boundaries(e, s, cs))
    decreases |cs|
  {
    hide Reply, Wire, Shifted, Walk, Bits, ResetSeen, Bogus, NoCapture;
    if cs == [] {
      NoBoundaries();
    } else {
      var d := cs[..|cs| - 1];
      SeenTlrIsHistory(e, s, d);
      ResetHoldsSnoc(s.seenTlr, Boundaries(e, s, d), ServeAll(e, s, d).tap);
      assert Boundaries(e, s, d) + [] == Boundaries(e, s, d);
    }
  }

  lemma NoBoundaries()
    ensures !ResetSeen([]) && NoCapture([])
  {
  }

  /** After the first k commands the real TAP is in Run-Test/Idle, with a reset behind it and no Capture state since. */
  ghost predicate SafePoint(e: Setup, s: Session, cmds: seq<Command>, k: nat)
    requires k <= |cmds| && AllWellFormed(cmds, e.limit)
  {
    ServeAll(e, s, cmds[..k]).view.tap == RunTestIdle && ResetHolds(s.seenTlr, Boundaries(e, s, cmds[..k]))
  }

  /**
    From agreeing trackers, the handler's flag and tracker say that the client may be switched exactly at
    such points.
  */
  lemma SwitchIsSafe(e: Setup, s: Session, cmds: seq<Command>, k: nat)
    requires k <= |cmds| && AllWellFormed(cmds, e.limit) && s.tap == s.view.tap
    ensures var t := ServeAll(e, s, cmds[..k]);
      t.seenTlr && t.tap == RunTestIdle <==> SafePoint(e, s, cmds, k)
  {
    hide ResetHolds, Boundaries, ServeAll, WellFormed;
    TrackersStayTogether(e, s, cmds[..k]);
    SeenTlrIsHistory(e, s, cmds[..k]);
  }

  /** Whenever the handler would let the client be switched, the real TAP is in Run-Test/Idle. */
  ghost predicate SwitchesSafely(e: Setup, s: Session) {
    forall cs :: AllWellFormed(cs, e.limit) && ServeAll(e, s, cs).seenTlr && ServeAll(e, s, cs).tap == RunTestIdle ==>
      ServeAll(e, s, cs).view.tap == RunTestIdle
  }

  /** One shift of the given length with one byte of TMS. */
  lemma OneShift(e: Setup, s: Session, len: nat, tms: byte)
    requires e.limit >= 1 && 1 <= len <= 2 && s.tap == TestLogicReset
    ensures var c := Shift(len, [tms], [0]);
      && AllWellFormed([c], e.limit)
      && ServeAll(e, s, [c]).tap == Walk(TestLogicReset, Bits([tms]), 0, len)
      && ServeAll(e, s, [c]).view.tap == Walk(s.view.tap, Bits([tms]), 0, len)
      && ServeAll(e, s, [c]).seenTlr
  {
    hide Bits, Reply, Wire, Play, Walk, Zeros;
    var c := Shift(len, [tms], [0]);
    assert [c][..0] == [];
    PlayTap(e.board, s.view.(tdo := Zeros(8)), Bits([tms]), Bits([0]), 0, len);
  }

  lemma WalkTwo(s: Tap, tms: seq<bool>)
    requires |tms| >= 2
    ensures Walk(s, tms, 0, 1) == Next(s, tms[0]) && Walk(s, tms, 0, 2) == Next(Next(s, tms[0]), tms[1])
  {
    hide Next;
    assert Walk(s, tms, 0, 1) == Next(Walk(s, tms, 0, 0), tms[0]);
    assert Walk(s, tms, 0, 2) == Next(Walk(s, tms, 0, 1), tms[1]);
  }

  /** From every state but Test-Logic-Reset, TMS 0 or TMS 1, 0 ends outside Run-Test/Idle. */
  lemma LeavesIdle(s: Tap)
    requires s != TestLogicReset
    ensures Next(s, false) != RunTestIdle || Next(Next(s, true), false) != RunTestIdle
  {
  }

  lemma SmallBytes()
    ensures !Bits([0x00])[0] && Bits([0x01])[0] && !Bits([0x01])[1]
  {
  }

  /**
    A new connection resets only the handler's tracker. It may be trusted about client switching
    exactly when the adapter was in Test-Logic-Reset at that moment.
  */
  lemma ReconnectSafeIff(e: Setup, s: Session)
    requires e.limit >= 1 && s.tap == TestLogicReset && !s.seenTlr
    ensures SwitchesSafely(e, s) <==> s.view.tap == TestLogicReset
  {
    hide ServeAll, Bits, Next, Walk;
    if s.view.tap == TestLogicReset {
      forall cs | AllWellFormed(cs, e.limit) && ServeAll(e, s, cs).seenTlr && ServeAll(e, s, cs).tap == RunTestIdle
        ensures ServeAll(e, s, cs).view.tap == RunTestIdle
      {
        TrackersStayTogether(e, s, cs);
      }
    } else {
      SmallBytes();
      OneShift(e, s, 1, 0x00);
      OneShift(e, s, 2, 0x01);
      WalkTwo(TestLogicReset, Bits([0x00]));
      WalkTwo(TestLogicReset, Bits([0x01]));
      WalkTwo(s.view.tap, Bits([0x00]));
      WalkTwo(s.view.tap, Bits([0x01]));
      ResetToIdle();
      LeavesIdle(s.view.tap);
    }
  }

  lemma ResetToIdle()
    ensures Next(TestLogicReset, false) == RunTestIdle && Next(TestLogicReset, true) == TestLogicReset
  {
  }
}
