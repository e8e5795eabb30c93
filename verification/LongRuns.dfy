/**
  A Shift run of any length, as `append_tdi_shift` emits it. The loop is meant to send long runs
  in several byte commands of at most `limit` bytes. It does not: the test for trailing bits
  fires after the first of them, and the last one's observer copies every byte of the run from
  the answers of the last command alone. This module keeps the code as it is and settles when a
  run is compiled faithfully: exactly when its whole bytes fit one command.
*/
module LongRuns {
  import opened Bytes
  import opened Jtag
  import opened Probe
  import opened Chip
  import opened Commands
  import opened Options
  import opened ShiftRun

  /** What an observer copies: `count` bits of its answer from bit `from`, to TDO bit `to` on. */
  datatype Fill = Fill(from: nat, to: nat, count: nat)

  /** One append: bytes for the chip, the answer bytes it is said to bring, and its observer. */
  datatype Piece = Piece(data: seq<byte>, rxBytes: nat, fill: Option<Fill>)

  /** The arguments of one call, and the largest byte command. */
  datatype Job = Job(tdi: seq<byte>, from: nat, to: nat, lastTms: bool, limit: nat)

  predicate Sound(r: Job) {
    r.from < r.to <= 8 * |r.tdi| && 1 <= r.limit <= 0x1_0000
  }

  function CutOf(r: Job): Cut
    requires Sound(r)
  {
    CutRun(r.from, r.to)
  }

  function LastBit(r: Job): nat
    requires Sound(r)
  {
    r.to - 1
  }

  function InnerStart(r: Job): nat
    requires Sound(r)
  {
    r.from + CutOf(r).leading
  }

  function InnerEnd(r: Job): (e: nat)
    requires Sound(r)
    ensures e == InnerStart(r) + 8 * CutOf(r).inner && e + CutOf(r).trailing == LastBit(r)
  {
    CutCovers(r.from, r.to);
    LastBit(r) - CutOf(r).trailing
  }

  /** The header with its two length bytes masked, so that a length of 0 becomes 0xFFFF. */
  function Header(n: nat): seq<byte> {
    [CLK_DATA_BYTES, ToByte((n - 1) % 256), ToByte((n - 1) / 256 % 256)]
  }

  /** The first byte, its run bits moved down to bit 0. */
  function LeadByte(r: Job): byte
    requires Sound(r)
  {
    r.tdi[r.from / 8] >> (r.from % 8)
  }

  function LeadPieces(r: Job, cur: nat): seq<Piece>
    requires Sound(r)
  {
    var n := CutOf(r).leading;
    CutCovers(r.from, r.to);
    if cur == r.from && n > 0
    then [Piece(Command(CLK_DATA_BITS, n, LeadByte(r)), 1, Some(Fill(8 - n, r.from, n)))]
    else []
  }

  function AfterLead(r: Job, cur: nat): (next: nat)
    requires Sound(r)
    ensures next >= cur && (cur == r.from ==> next == InnerStart(r))
  {
    if cur == r.from then cur + CutOf(r).leading else cur
  }

  predicate SendsBytes(r: Job, cur: nat)
    requires Sound(r)
  {
    cur < LastBit(r) && InnerEnd(r) > cur
  }

  function Octets(r: Job, cur: nat): (n: nat)
    requires Sound(r) && SendsBytes(r, cur)
    ensures n <= r.limit && cur + 8 * n <= InnerEnd(r)
  {
    var n := (InnerEnd(r) - cur) / 8;
    if n < r.limit then n else r.limit
  }

  function BytePieces(r: Job, cur: nat): seq<Piece>
    requires Sound(r) && cur >= InnerStart(r)
  {
    if !SendsBytes(r, cur) then []
    else
      var n := Octets(r, cur);
      var remaining := CutOf(r).inner - (cur - InnerStart(r)) / 8;
      [Piece(Header(n), 0, None),
       Piece(r.tdi[cur / 8..cur / 8 + n], n,
             if n == 0 then None
             else if n >= remaining then Some(Fill(0, 8 * (InnerStart(r) / 8), 8 * CutOf(r).inner))
             else Some(Fill(0, 8 * (cur / 8), 8 * n)))]
  }

  function AfterBytes(r: Job, cur: nat): (next: nat)
    requires Sound(r)
    ensures next >= cur
  {
    if SendsBytes(r, cur) then cur + 8 * Octets(r, cur) else cur
  }

  function TrailPieces(r: Job, cur: nat): seq<Piece>
    requires Sound(r)
  {
    var n := CutOf(r).trailing;
    CutCovers(r.from, r.to);
    if n > 0 && cur < LastBit(r)
    then [Piece(Command(CLK_DATA_BITS, n, r.tdi[InnerEnd(r) / 8]), 1, Some(Fill(8 - n, InnerEnd(r), n)))]
    else []
  }

  function AfterTrail(r: Job, cur: nat): (next: nat)
    requires Sound(r)
    ensures next >= cur
  {
    if CutOf(r).trailing > 0 && cur < LastBit(r) then cur + CutOf(r).trailing else cur
  }

  function EndPieces(r: Job, cur: nat): seq<Piece>
    requires Sound(r)
  {
    if cur == LastBit(r)
    then [Piece(Command(CLK_TMS_READ_NEG, 1, LastByte(Bit(r.tdi[cur / 8], cur % 8), r.lastTms)), 1,
        Some(Fill(7, cur, 1)))]
    else []
  }

  /** The positions the loop can be at. */
  predicate Reached(r: Job, cur: nat)
    requires Sound(r)
  {
    && r.from <= cur
    && (cur > r.from ==> cur >= InnerStart(r) && (CutOf(r).trailing == 0 && cur < r.to ==>
        (cur - InnerStart(r)) % 8 == 0))
  }

  /** One pass of the loop. */
  function Pass(r: Job, cur: nat): seq<Piece>
    requires Sound(r) && Reached(r, cur)
  {
    var c1 := AfterLead(r, cur);
    var c2 := AfterBytes(r, c1);
    var c3 := AfterTrail(r, c2);
    LeadPieces(r, cur) + BytePieces(r, c1) + TrailPieces(r, c2) + EndPieces(r, c3)
  }

  /** Where the next pass starts; every pass makes progress. */
  function NextPass(r: Job, cur: nat): (next: nat)
    requires Sound(r) && Reached(r, cur) && cur < r.to
    ensures next > cur && Reached(r, next)
  {
    CutCovers(r.from, r.to);
    var c3 := AfterTrail(r, AfterBytes(r, AfterLead(r, cur)));
    if c3 == LastBit(r) then c3 + 1 else c3
  }

  /** The loop from `cur` on. */
  function Emit(r: Job, cur: nat): seq<Piece>
    requires Sound(r) && Reached(r, cur)
    decreases r.to - cur
  {
    if cur >= r.to then [] else Pass(r, cur) + Emit(r, NextPass(r, cur))
  }

  /** Everything sent. */
  function Sent(ps: seq<Piece>): seq<byte> {
    if ps == [] then [] else ps[0].data + Sent(ps[1..])
  }

  /** The answer bytes waited for. */
  function Expected(ps: seq<Piece>): nat {
    if ps == [] then 0 else ps[0].rxBytes + Expected(ps[1..])
  }

  /** The RX buffer: the answers, and past them whatever was there before. */
  function RxByte(answers: seq<byte>, stale: nat -> byte, i: nat): byte {
    if i < |answers| then answers[i] else stale(i)
  }

  function Window(answers: seq<byte>, stale: nat -> byte, at: nat, n: nat): (w: seq<byte>)
    ensures |w| == n
  {
    seq(n, i requires 0 <= i < n => RxByte(answers, stale, at + i))
  }

  /** One observer, its answer starting at RX byte `at`. */
  function Copied(f: Fill, tdo: seq<bool>, answers: seq<byte>, stale: nat -> byte, at: nat): (r: seq<bool>)
    ensures |r| == |tdo|
  {
    if f.to + f.count <= |tdo|
    then Splice(tdo, f.to, Bits(Window(answers, stale, at, (f.from + f.count + 7) / 8)), f.from, f.count)
    else tdo
  }

  /** The TDO vector after all observers, the first one's answer at RX byte `at`. */
  function Collect(ps: seq<Piece>, tdo: seq<bool>, answers: seq<byte>, stale: nat -> byte, at: nat): (r: seq<bool>)
    ensures |r| == |tdo|
    decreases |ps|
  {
    if ps == [] then tdo
    else
      var t := if ps[0].fill.Some? then Copied(ps[0].fill.value, tdo, answers, stale, at) else tdo;
      Collect(ps[1..], t, answers, stale, at + ps[0].rxBytes)
  }

  /** The RX buffer once answers have been read over what it held. */
  function Overwritten(answers: seq<byte>, stale: nat -> byte): nat -> byte {
    (i: nat) => RxByte(answers, stale, i)
  }

  /**
    The TDO vector when flushes fall inside the run: the first after cuts[0] pieces, the next after
    cuts[1] more, and so on. Each starts again at RX byte 0, over the answers read before.
  */
  function CollectFlushed(ps: seq<Piece>, cuts: seq<nat>, tdo: seq<bool>, answers: seq<byte>,
                          stale: nat -> byte): (r: seq<bool>)
    ensures |r| == |tdo|
    decreases |cuts|
  {
    if cuts == [] || cuts[0] >= |ps| then Collect(ps, tdo, answers, stale, 0)
    else
      var first := ps[..cuts[0]];
      var n := if Expected(first) < |answers| then Expected(first) else |answers|;
      CollectFlushed(ps[cuts[0]..], cuts[1..], Collect(first, tdo, answers[..n], stale, 0), answers[n..],
                     Overwritten(answers[..n], stale))
  }

  lemma {:induction false} SentConcat(a: seq<Piece>, c: seq<Piece>)
    ensures Sent(a + c) == Sent(a) + Sent(c) && Expected(a + c) == Expected(a) + Expected(c)
    decreases |a|
  {
    if a == [] {
      assert a + c == c;
    } else {
      assert (a + c)[1..] == a[1..] + c;
      SentConcat(a[1..], c);
    }
  }

  lemma {:induction false} CollectConcat(a: seq<Piece>, c: seq<Piece>, tdo: seq<bool>, answers: seq<byte>,
                                         stale: nat -> byte, at: nat)
    ensures Collect(a + c, tdo, answers, stale, at)
        == Collect(c, Collect(a, tdo, answers, stale, at), answers, stale, at + Expected(a))
    decreases |a|
  {
    hide Copied;
    if a == [] {
      assert a + c == c;
    } else {
      assert (a + c)[1..] == a[1..] + c;
      var t := if a[0].fill.Some? then Copied(a[0].fill.value, tdo, answers, stale, at) else tdo;
      CollectConcat(a[1..], c, t, answers, stale, at + a[0].rxBytes);
    }
  }

  /** A run ready to be clocked: the engine idle, TMS low, the TAP shifting up to the last bit. */
  ghost predicate Start(r: Job, c: Chip, v: View, tms: seq<bool>)
    requires Sound(r)
  {
    && c.phase.Idle? && !c.tms && c.wave == v.wave
    && |v.tdo| == 8 * |r.tdi| && r.to <= |tms|
    && Uniform(v.tap, tms, r.from, r.to, true) && tms[r.to - 1] == r.lastTms
  }

  /** The emitted run does what the reference machine does, and every answer is accounted for. */
  ghost predicate Faithful(r: Job, b: Board, stale: nat -> byte, cuts: seq<nat>, c: Chip, v: View, tms: seq<bool>)
    requires Sound(r) && Start(r, c, v, tms)
  {
    var ps := Emit(r, r.from);
    var d := Run(b, c, Sent(ps));
    var p := Play(b, v, tms, Bits(r.tdi), r.from, r.to);
    && d.phase.Idle? && d.wave == p.wave && d.tms == r.lastTms
    && |NewAnswers(b, c, ps)| == Expected(ps)
    && CollectFlushed(ps, cuts, v.tdo, NewAnswers(b, c, ps), stale) == p.tdo
  }

  /** The answers a stream of bytes brings. */
  ghost function Brought(b: Board, c: Chip, s: seq<byte>): (got: seq<byte>)
    ensures Run(b, c, s).answers == c.answers + got
  {
    RunGrows(b, c, s);
    var all := Run(b, c, s).answers;
    assert all == c.answers + all[|c.answers|..];
    all[|c.answers|..]
  }

  /** The answers a list of pieces brings. */
  ghost function NewAnswers(b: Board, c: Chip, ps: seq<Piece>): seq<byte>
  {
    Brought(b, c, Sent(ps))
  }

  /** After the pieces `ps` the run stands at bit `cur`, as the reference machine does. */
  ghost predicate Staged(r: Job, b: Board, stale: nat -> byte, c: Chip, v: View, tms: seq<bool>, ps: seq<Piece>,
                         cur: nat, answers: seq<byte>)
  {
    && Sound(r) && Start(r, c, v, tms) && r.from <= cur <= r.to
    && var d := Run(b, c, Sent(ps));
       var p := Play(b, v, tms, Bits(r.tdi), r.from, cur);
       && d.phase.Idle? && d.wave == p.wave && d.tms == (cur == r.to && r.lastTms)
       && |NewAnswers(b, c, ps)| == Expected(ps)
       && Collect(ps, v.tdo, answers, stale, 0) == p.tdo
  }

  lemma SentTwo(x: Piece, y: Piece)
    ensures Sent([x]) == x.data && Expected([x]) == x.rxBytes
    ensures Sent([x, y]) == x.data + y.data && Expected([x, y]) == x.rxBytes + y.rxBytes
  {
    assert [x][1..] == [] && [x, y][1..] == [y] && [y][1..] == [];
  }

  lemma CollectTwo(x: Piece, y: Piece, tdo: seq<bool>, answers: seq<byte>, stale: nat -> byte, at: nat)
    requires x.fill.Some? ==> y.fill.Some?
    ensures x.fill.Some? ==> Collect([x], tdo, answers, stale, at) == Copied(x.fill.value, tdo, answers, stale, at)
    ensures x.fill.None? && y.fill.Some? ==>
      Collect([x, y], tdo, answers, stale, at) == Copied(y.fill.value, tdo, answers, stale, at + x.rxBytes)
  {
    hide Copied;
    assert [x][1..] == [] && [x, y][1..] == [y] && [y][1..] == [];
    if x.fill.None? && y.fill.Some? {
      assert Collect([x, y], tdo, answers, stale, at) == Collect([y], tdo, answers, stale, at + x.rxBytes);
      assert Collect([y], tdo, answers, stale, at + x.rxBytes)
          == Collect([], Copied(y.fill.value, tdo, answers, stale, at + x.rxBytes), answers, stale,
              at + x.rxBytes + y.rxBytes);
    }
  }

  lemma WindowOfAnswers(answers: seq<byte>, stale: nat -> byte, got: seq<byte>, at: nat, n: nat)
    requires |got| == at + n && got <= answers
    ensures Window(answers, stale, at, n) == got[at..]
  {
    var w := Window(answers, stale, at, n);
    forall i | 0 <= i < n ensures w[i] == got[at..][i] {
      assert w[i] == RxByte(answers, stale, at + i);
      assert got[at + i] == answers[at + i];
    }
  }

  /** Leading or trailing bits. */
  lemma StageBits(r: Job, b: Board, stale: nat -> byte, c: Chip, v: View, tms: seq<bool>, ps: seq<Piece>, cur: nat,
                  n: nat, x: byte, answers: seq<byte>)
    requires Staged(r, b, stale, c, v, tms, ps, cur, answers) && 1 <= n <= 7 && cur + n < r.to
    requires forall i :: 0 <= i < n ==> Bit(x, i) == Bits(r.tdi)[cur + i]
    requires NewAnswers(b, c, ps + [Piece(Command(CLK_DATA_BITS, n, x), 1, Some(Fill(8 - n, cur, n)))]) <= answers
    ensures Staged(r, b, stale, c, v, tms, ps + [Piece(Command(CLK_DATA_BITS, n, x), 1, Some(Fill(8 - n, cur, n)))],
        cur + n, answers)
  {
    hide Run, Play, Bits, Bit, Uniform, Splice, Command, Collect, Sent, Window;
    var piece := Piece(Command(CLK_DATA_BITS, n, x), 1, Some(Fill(8 - n, cur, n)));
    var t := Bits(r.tdi);
    var d, m := Run(b, c, Sent(ps)), Play(b, v, tms, t, r.from, cur);
    SentConcat(ps, [piece]);
    SentTwo(piece, piece);
    RunConcat(b, c, Sent(ps), piece.data);
    Advance(b, v, tms, t, r.from, cur, cur + n, r.to);
    DataCommandPlays(b, d, m, tms, t, cur, n, x);
    CollectConcat(ps, [piece], v.tdo, answers, stale, 0);
    CollectTwo(piece, piece, m.tdo, answers, stale, Expected(ps));
    var got := NewAnswers(b, c, ps + [piece]);
    WindowOfAnswers(answers, stale, got, Expected(ps), 1);
    assert got[Expected(ps)..] == [Answer(b, Play(b, v, tms, t, r.from, cur + n).wave, n, |d.answers|)];
  }

  /** Header and payload on the engine. */
  lemma PairPlays(r: Job, b: Board, stale: nat -> byte, c: Chip, v: View, tms: seq<bool>, ps: seq<Piece>, cur: nat,
                  n: nat, answers: seq<byte>)
    requires Staged(r, b, stale, c, v, tms, ps, cur, answers) && 1 <= n <= 0x1_0000 && cur + 8 * n < r.to
    requires cur % 8 == 0
    ensures var t := Bits(r.tdi);
      var d, m := Run(b, c, Sent(ps)), Play(b, v, tms, t, r.from, cur);
      && Sent(ps + BytesPair(r, cur, n)) == Sent(ps) + Sent(BytesPair(r, cur, n))
      && BytesDone(b, d.(phase := Payload(n)), Run(b, c, Sent(ps + BytesPair(r, cur, n))), m, tms, t, cur, n, n)
      && Play(b, m, tms, t, cur, cur + 8 * n) == Play(b, v, tms, t, r.from, cur + 8 * n)
  {
    hide Run, Play, Bits, Uniform, Splice, Collect, Sent, Window, Header, BytesDone, Expected, NewAnswers;
    var pair := BytesPair(r, cur, n);
    var data := pair[1].data;
    var t := Bits(r.tdi);
    var d, m := Run(b, c, Sent(ps)), Play(b, v, tms, t, r.from, cur);
    SentConcat(ps, pair);
    SentTwo(pair[0], pair[1]);
    RunConcat(b, c, Sent(ps), pair[0].data + data);
    RunConcat(b, d, pair[0].data, data);
    HeaderIsBytesHeader(n);
    RunBytesHeader(b, d, n);
    Advance(b, v, tms, t, r.from, cur, cur + 8 * n, r.to);
    BitsSlice(r.tdi, cur / 8, cur / 8 + n);
    PayloadPlays(b, d.(phase := Payload(n)), m, tms, t, cur, data, n);
  }

  /** The whole bytes of a run that one command carries. */
  lemma StageBytes(r: Job, b: Board, stale: nat -> byte, c: Chip, v: View, tms: seq<bool>, ps: seq<Piece>, cur: nat,
                   n: nat, answers: seq<byte>)
    requires Staged(r, b, stale, c, v, tms, ps, cur, answers) && 1 <= n <= 0x1_0000 && cur + 8 * n < r.to
    requires cur % 8 == 0
    requires NewAnswers(b, c, ps + BytesPair(r, cur, n)) <= answers
    ensures Staged(r, b, stale, c, v, tms, ps + BytesPair(r, cur, n), cur + 8 * n, answers)
  {
    hide Run, Play, Bits, Uniform, Splice, Collect, Sent, Window, Header;
    var pair := BytesPair(r, cur, n);
    var t := Bits(r.tdi);
    var d, m := Run(b, c, Sent(ps)), Play(b, v, tms, t, r.from, cur);
    SentConcat(ps, pair);
    SentTwo(pair[0], pair[1]);
    PairPlays(r, b, stale, c, v, tms, ps, cur, n, answers);
    CollectConcat(ps, pair, v.tdo, answers, stale, 0);
    CollectTwo(pair[0], pair[1], m.tdo, answers, stale, Expected(ps));
    var got := NewAnswers(b, c, ps + pair);
    WindowOfAnswers(answers, stale, got, Expected(ps), n);
  }

  /** Header and payload of n whole bytes, copied to where they belong. */
  function BytesPair(r: Job, cur: nat, n: nat): (ps: seq<Piece>)
    requires cur + 8 * n <= 8 * |r.tdi|
    ensures |ps| == 2
  {
    [Piece(Header(n), 0, None), Piece(r.tdi[cur / 8..cur / 8 + n], n, Some(Fill(0, 8 * (cur / 8), 8 * n)))]
  }

  lemma HeaderIsBytesHeader(n: nat)
    requires 1 <= n <= 0x1_0000
    ensures Header(n) == BytesHeader(n)
  {
    hide ToByte;
  }

  /** The last bit. */
  lemma StageEnd(r: Job, b: Board, stale: nat -> byte, c: Chip, v: View, tms: seq<bool>, ps: seq<Piece>, cur: nat,
                 answers: seq<byte>)
    requires Staged(r, b, stale, c, v, tms, ps, cur, answers) && cur + 1 == r.to
    requires NewAnswers(b, c, ps + EndPieces(r, cur)) <= answers
    ensures Staged(r, b, stale, c, v, tms, ps + EndPieces(r, cur), cur + 1, answers)
  {
    hide Run, Play, Bits, Bit, Splice, Command, Collect, Sent, Window, LastByte;
    var piece := EndPieces(r, cur)[0];
    var t := Bits(r.tdi);
    var d, m := Run(b, c, Sent(ps)), Play(b, v, tms, t, r.from, cur);
    assert EndPieces(r, cur) == [piece];
    SentConcat(ps, [piece]);
    SentTwo(piece, piece);
    RunConcat(b, c, Sent(ps), piece.data);
    PlaySplit(b, v, tms, t, r.from, cur, cur + 1);
    PlayTap(b, v, tms, t, r.from, cur);
    assert InShift(Walk(v.tap, tms, r.from, cur));
    BitsAt(r.tdi, cur);
    LastCommandPlays(b, d, m, tms, t, cur, LastByte(Bit(r.tdi[cur / 8], cur % 8), r.lastTms));
    CollectConcat(ps, [piece], v.tdo, answers, stale, 0);
    CollectTwo(piece, piece, m.tdo, answers, stale, Expected(ps));
    var got := NewAnswers(b, c, ps + [piece]);
    WindowOfAnswers(answers, stale, got, Expected(ps), 1);
    assert got[Expected(ps)..] == [Answer(b, Play(b, v, tms, t, r.from, cur + 1).wave, 1, |d.answers|)];
  }

  /** Pieces sent later only add answers. */
  lemma PrefixAnswers(b: Board, c: Chip, ps: seq<Piece>, rest: seq<Piece>, all: seq<Piece>)
    requires all == ps + rest
    ensures NewAnswers(b, c, ps) <= NewAnswers(b, c, all)
  {
    hide Run, Sent;
    SentConcat(ps, rest);
    RunConcat(b, c, Sent(ps), Sent(rest));
    RunGrows(b, Run(b, c, Sent(ps)), Sent(rest));
  }

  lemma NothingStaged(r: Job, b: Board, stale: nat -> byte, c: Chip, v: View, tms: seq<bool>, answers: seq<byte>)
    requires Sound(r) && Start(r, c, v, tms)
    ensures Staged(r, b, stale, c, v, tms, [], r.from, answers)
  {
    hide Uniform, Bits;
    RunNone(b, c);
    PlayNone(b, v, tms, Bits(r.tdi), r.from);
  }

  lemma LeadByteBits(r: Job)
    requires Sound(r) && CutOf(r).leading > 0
    ensures forall i :: 0 <= i < CutOf(r).leading ==> Bit(LeadByte(r), i) == Bits(r.tdi)[r.from + i]
  {
    hide Bit, Bits;
    CutCovers(r.from, r.to);
    LeadingByte(r.tdi, r.from, CutOf(r).leading, LeadByte(r));
  }

  /** The leading bits, if the run starts off a byte boundary. */
  lemma StageLead(r: Job, b: Board, stale: nat -> byte, c: Chip, v: View, tms: seq<bool>, rest: seq<Piece>)
    requires Sound(r) && Start(r, c, v, tms)
    ensures var ps := LeadPieces(r, r.from);
      Staged(r, b, stale, c, v, tms, ps, InnerStart(r), NewAnswers(b, c, ps + rest))
  {
    hide Run, Sent, Staged, Bits, Bit, Start, Command, LeadByte, NewAnswers;
    var ps := LeadPieces(r, r.from);
    PrefixAnswers(b, c, ps, rest, ps + rest);
    var answers := NewAnswers(b, c, ps + rest);
    NothingStaged(r, b, stale, c, v, tms, answers);
    CutCovers(r.from, r.to);
    var n := CutOf(r).leading;
    if n > 0 {
      LeadByteBits(r);
      assert [] + ps == ps;
      StageBits(r, b, stale, c, v, tms, [], r.from, n, LeadByte(r), answers);
    }
  }

  /** The trailing bits, if the run ends off a byte boundary. */
  lemma StageTrail(r: Job, b: Board, stale: nat -> byte, c: Chip, v: View, tms: seq<bool>, ps: seq<Piece>,
                   rest: seq<Piece>, answers: seq<byte>)
    requires Sound(r) && Staged(r, b, stale, c, v, tms, ps, InnerEnd(r), answers)
    requires answers == NewAnswers(b, c, ps + TrailPieces(r, InnerEnd(r)) + rest)
    ensures Staged(r, b, stale, c, v, tms, ps + TrailPieces(r, InnerEnd(r)), LastBit(r), answers)
  {
    hide Run, Sent, Bits, Bit, Command, Start, Collect, Play;
    var tail := TrailPieces(r, InnerEnd(r));
    PrefixAnswers(b, c, ps + tail, rest, ps + tail + rest);
    CutCovers(r.from, r.to);
    var n := CutOf(r).trailing;
    if n > 0 {
      TrailingByte(r.tdi, InnerEnd(r), n);
      StageBits(r, b, stale, c, v, tms, ps, InnerEnd(r), n, r.tdi[InnerEnd(r) / 8], answers);
    } else {
      assert ps + tail == ps;
    }
  }

  /** The whole bytes, if they fit one command. */
  lemma StageInner(r: Job, b: Board, stale: nat -> byte, c: Chip, v: View, tms: seq<bool>, ps: seq<Piece>,
                   rest: seq<Piece>, answers: seq<byte>)
    requires Sound(r) && Staged(r, b, stale, c, v, tms, ps, InnerStart(r), answers) && CutOf(r).inner <= r.limit
    requires answers == NewAnswers(b, c, ps + BytePieces(r, InnerStart(r)) + rest)
    ensures Staged(r, b, stale, c, v, tms, ps + BytePieces(r, InnerStart(r)), InnerEnd(r), answers)
  {
    hide Run, Sent, Bits, Start, Collect, Play, Header;
    var s := InnerStart(r);
    var inner := BytePieces(r, s);
    PrefixAnswers(b, c, ps + inner, rest, ps + inner + rest);
    CutCovers(r.from, r.to);
    if SendsBytes(r, s) {
      assert inner == BytesPair(r, s, CutOf(r).inner);
      StageBytes(r, b, stale, c, v, tms, ps, s, CutOf(r).inner, answers);
    } else {
      assert ps + inner == ps;
    }
  }

  /** A run whose whole bytes fit one command is one pass of the loop. */
  lemma OnePass(r: Job)
    requires Sound(r) && CutOf(r).inner <= r.limit
    ensures Emit(r, r.from) == LeadPieces(r, r.from) + BytePieces(r, InnerStart(r)) + TrailPieces(r, InnerEnd(r))
        + EndPieces(r, LastBit(r))
  {
    hide LeadPieces, BytePieces, TrailPieces, EndPieces;
    CutCovers(r.from, r.to);
    assert AfterBytes(r, InnerStart(r)) == InnerEnd(r);
    assert AfterTrail(r, InnerEnd(r)) == LastBit(r);
    assert NextPass(r, r.from) == r.to;
    assert Emit(r, r.to) == [];
  }

  lemma BytesSent(r: Job)
    requires Sound(r) && CutOf(r).inner <= r.limit
    ensures Sent(BytePieces(r, InnerStart(r))) == InnerBytes(r.tdi, InnerStart(r), CutOf(r).inner)
  {
    hide Header, BytesHeader, CutRun, Sent;
    CutCovers(r.from, r.to);
    NothingIsSent();
    if CutOf(r).inner > 0 {
      var b := BytePieces(r, InnerStart(r));
      SentTwo(b[0], b[1]);
      assert b == [b[0], b[1]];
      HeaderIsBytesHeader(CutOf(r).inner);
    }
  }

  lemma PiecesSent(r: Job)
    requires Sound(r) && CutOf(r).inner <= r.limit
    ensures Sent(LeadPieces(r, r.from)) == LeadBytes(r.tdi, r.from, CutOf(r).leading)
    ensures Sent(TrailPieces(r, InnerEnd(r))) == TrailBytes(r.tdi, InnerEnd(r), CutOf(r).trailing)
    ensures Sent(EndPieces(r, LastBit(r))) == EndBytes(r.tdi, LastBit(r), r.lastTms)
  {
    hide Command, LastByte, CutRun, Sent;
    CutCovers(r.from, r.to);
    var a, c, d := LeadPieces(r, r.from), TrailPieces(r, InnerEnd(r)), EndPieces(r, LastBit(r));
    NothingIsSent();
    if CutOf(r).leading > 0 { SentTwo(a[0], a[0]); assert a == [a[0]]; }
    if CutOf(r).trailing > 0 { SentTwo(c[0], c[0]); assert c == [c[0]]; }
    SentTwo(d[0], d[0]);
    assert d == [d[0]];
  }

  lemma NothingIsSent()
    ensures Sent([]) == []
  {
  }

  /** The bytes of a run that fits: each piece once, in order. */
  lemma RunSent(r: Job)
    requires Sound(r) && CutOf(r).inner <= r.limit
    ensures Sent(Emit(r, r.from)) == RegularBytes(r.tdi, r.from, r.to) + EndBytes(r.tdi, LastBit(r), r.lastTms)
  {
    hide Sent, Expected, Emit, LeadPieces, BytePieces, TrailPieces, EndPieces, LeadBytes, InnerBytes, TrailBytes,
        EndBytes, CutRun;
    OnePass(r);
    PiecesSent(r);
    BytesSent(r);
    CutCovers(r.from, r.to);
    var a, b, c, d := LeadPieces(r, r.from), BytePieces(r, InnerStart(r)), TrailPieces(r, InnerEnd(r)),
        EndPieces(r, LastBit(r));
    SentConcat(a + b + c, d);
    SentConcat(a + b, c);
    SentConcat(a, b);
  }

  /** The observers of a piece look at no answer but its own. */
  predicate Local(p: Piece) {
    p.fill.Some? ==> (p.fill.value.from + p.fill.value.count + 7) / 8 <= p.rxBytes
  }

  predicate AllLocal(ps: seq<Piece>) {
    forall i :: 0 <= i < |ps| ==> Local(ps[i])
  }

  lemma SameCopied(f: Fill, tdo: seq<bool>, n: nat, x: seq<byte>, s: nat -> byte, i: nat, y: seq<byte>, t: nat -> byte,
                   j: nat)
    requires (f.from + f.count + 7) / 8 <= n && i + n <= |x| && j + n <= |y| && x[i..i + n] == y[j..j + n]
    ensures Copied(f, tdo, x, s, i) == Copied(f, tdo, y, t, j)
  {
    hide Bits, Splice;
    var m := (f.from + f.count + 7) / 8;
    forall k | 0 <= k < m ensures Window(x, s, i, m)[k] == Window(y, t, j, m)[k] {
      assert x[i..i + n][k] == x[i + k] && y[j..j + n][k] == y[j + k];
      assert RxByte(x, s, i + k) == RxByte(y, t, j + k);
    }
    assert Window(x, s, i, m) == Window(y, t, j, m);
  }

  /** Local pieces collect the same from wherever their answers lie. */
  lemma {:induction false} SameCollected(ps: seq<Piece>, tdo: seq<bool>,
                                         x: seq<byte>, s: nat -> byte, i: nat, y: seq<byte>, t: nat -> byte, j: nat)
    requires AllLocal(ps) && i + Expected(ps) <= |x| && j + Expected(ps) <= |y|
    requires x[i..i + Expected(ps)] == y[j..j + Expected(ps)]
    ensures Collect(ps, tdo, x, s, i) == Collect(ps, tdo, y, t, j)
    decreases |ps|
  {
    hide Copied, Local;
    if ps != [] {
      var n, e := ps[0].rxBytes, Expected(ps);
      assert x[i..i + e][..n] == x[i..i + n] && y[j..j + e][..n] == y[j..j + n];
      assert x[i..i + e][n..] == x[i + n..i + e] && y[j..j + e][n..] == y[j + n..j + e];
      if ps[0].fill.Some? {
        LocalFill(ps[0]);
        SameCopied(ps[0].fill.value, tdo, n, x, s, i, y, t, j);
      }
      var u := if ps[0].fill.Some? then Copied(ps[0].fill.value, tdo, x, s, i) else tdo;
      assert AllLocal(ps[1..]);
      SameCollected(ps[1..], u, x, s, i + n, y, t, j + n);
    }
  }

  lemma LocalFill(p: Piece)
    requires Local(p) && p.fill.Some?
    ensures (p.fill.value.from + p.fill.value.count + 7) / 8 <= p.rxBytes
  {
  }

  /** When every piece is local and every answer accounted for, it does not matter where flushes fall. */
  lemma {:induction false} FlushesInvisible(ps: seq<Piece>, cuts: seq<nat>, tdo: seq<bool>, answers: seq<byte>,
                                            stale: nat -> byte)
    requires AllLocal(ps) && |answers| == Expected(ps)
    ensures CollectFlushed(ps, cuts, tdo, answers, stale) == Collect(ps, tdo, answers, stale, 0)
    decreases |cuts|
  {
    hide Collect, Local, Expected;
    if cuts != [] && cuts[0] < |ps| {
      var p, q := ps[..cuts[0]], ps[cuts[0]..];
      var n := Expected(p);
      assert ps == p + q && AllLocal(p) && AllLocal(q);
      SentConcat(p, q);
      CollectConcat(p, q, tdo, answers, stale, 0);
      assert answers[..n][0..n] == answers[0..n];
      SameCollected(p, tdo, answers, stale, 0, answers[..n], stale, 0);
      var t, later := Collect(p, tdo, answers, stale, 0), Overwritten(answers[..n], stale);
      assert answers[n..][0..|answers| - n] == answers[n..n + (|answers| - n)];
      SameCollected(q, t, answers, stale, n, answers[n..], later, 0);
      FlushesInvisible(q, cuts[1..], t, answers[n..], later);
    }
  }

  lemma PassIsLocal(r: Job)
    requires Sound(r) && CutOf(r).inner <= r.limit
    ensures AllLocal(LeadPieces(r, r.from) + BytePieces(r, InnerStart(r)) + TrailPieces(r, InnerEnd(r))
        + EndPieces(r, LastBit(r)))
  {
    hide Command, Header, LastByte, CutRun, LeadByte;
    CutCovers(r.from, r.to);
  }

  /**
    Runs that fit are compiled faithfully, on every board, whatever the RX buffer held before and wherever
    flushes fall.
  */
  lemma ShortRunFaithful(r: Job, b: Board, stale: nat -> byte, cuts: seq<nat>, c: Chip, v: View, tms: seq<bool>)
    requires Sound(r) && Start(r, c, v, tms) && CutOf(r).inner <= r.limit
    ensures Faithful(r, b, stale, cuts, c, v, tms)
  {
    hide Run, Sent, Bits, Start, Collect, CollectFlushed, Play, LeadPieces, BytePieces, TrailPieces, EndPieces, Emit,
        Expected, AllLocal;
    var p1, p2, p3, p4 := LeadPieces(r, r.from), BytePieces(r, InnerStart(r)), TrailPieces(r, InnerEnd(r)),
        EndPieces(r, LastBit(r));
    OnePass(r);
    var all := p1 + p2 + p3 + p4;
    var answers := NewAnswers(b, c, all);
    assert all == p1 + (p2 + p3 + p4) && all == p1 + p2 + (p3 + p4);
    StageLead(r, b, stale, c, v, tms, p2 + p3 + p4);
    StageInner(r, b, stale, c, v, tms, p1, p3 + p4, answers);
    StageTrail(r, b, stale, c, v, tms, p1 + p2, p4, answers);
    PrefixAnswers(b, c, all, [], all);
    StageEnd(r, b, stale, c, v, tms, p1 + p2 + p3, LastBit(r), answers);
    PassIsLocal(r);
    FlushesInvisible(all, cuts, v.tdo, answers, stale);
  }

  /** Where the reference machine expects the second byte command of a long run. */
  function Second(r: Job): nat
    requires Sound(r)
  {
    InnerStart(r) + 8 * r.limit
  }

  lemma FirstPassStops(r: Job)
    requires Sound(r) && CutOf(r).inner > r.limit
    ensures var s, x, t := InnerStart(r), Second(r), CutOf(r).trailing;
      && x < InnerEnd(r) <= LastBit(r) && s % 8 == 0
      && SendsBytes(r, s) && Octets(r, s) == r.limit && AfterBytes(r, s) == x
      && AfterTrail(r, x) == x + t < LastBit(r) && NextPass(r, r.from) == x + t
      && Reached(r, x + t)
  {
    hide CutRun;
    CutCovers(r.from, r.to);
  }

  lemma FirstChunk(r: Job)
    requires Sound(r) && CutOf(r).inner > r.limit
    ensures BytePieces(r, InnerStart(r)) == BytesPair(r, InnerStart(r), r.limit)
  {
    hide CutRun, Header;
    FirstPassStops(r);
  }

  /** The first pass over a long run: leading bits, one full byte command, and already the trailing bits. */
  lemma FirstPass(r: Job)
    requires Sound(r) && CutOf(r).inner > r.limit
    ensures Second(r) < InnerEnd(r) <= LastBit(r) && Reached(r, Second(r) + CutOf(r).trailing)
    ensures Emit(r, r.from) == LeadPieces(r, r.from) + BytesPair(r, InnerStart(r), r.limit)
      + (TrailPieces(r, Second(r)) + Emit(r, Second(r) + CutOf(r).trailing))
  {
    hide LeadPieces, TrailPieces, BytePieces, BytesPair, CutRun, AfterTrail, AfterBytes, NextPass, Octets, SendsBytes;
    FirstPassStops(r);
    FirstChunk(r);
    var x, t := Second(r), CutOf(r).trailing;
    var p1, p2, p3, rest := LeadPieces(r, r.from), BytesPair(r, InnerStart(r), r.limit), TrailPieces(r, x),
        Emit(r, x + t);
    assert EndPieces(r, x + t) == [];
    assert Pass(r, r.from) == p1 + p2 + p3 + [];
    assert p1 + p2 + p3 + [] + rest == p1 + p2 + (p3 + rest);
  }

  /** Up to there a long run is as it should be. */
  lemma FirstPassStaged(r: Job, b: Board, stale: nat -> byte, c: Chip, v: View, tms: seq<bool>)
    requires Sound(r) && Start(r, c, v, tms) && CutOf(r).inner > r.limit
    ensures var ps := LeadPieces(r, r.from) + BytesPair(r, InnerStart(r), r.limit);
      Staged(r, b, stale, c, v, tms, ps, Second(r), NewAnswers(b, c, Emit(r, r.from)))
  {
    hide Run, Sent, Bits, Start, Collect, Play, LeadPieces, BytesPair, TrailPieces, Emit, NewAnswers;
    FirstPass(r);
    CutCovers(r.from, r.to);
    var p1, p2 := LeadPieces(r, r.from), BytesPair(r, InnerStart(r), r.limit);
    var rest := TrailPieces(r, Second(r)) + Emit(r, Second(r) + CutOf(r).trailing);
    var all := Emit(r, r.from);
    assert all == p1 + (p2 + rest);
    StageLead(r, b, stale, c, v, tms, p2 + rest);
    PrefixAnswers(b, c, p1 + p2, rest, all);
    StageBytes(r, b, stale, c, v, tms, p1, InnerStart(r), r.limit, NewAnswers(b, c, all));
  }

  lemma ClockDataFirst(b: Board, wave: seq<Clock>, tms: bool, x: byte, n: nat)
    requires 1 <= n <= 8
    ensures ClockData(b, wave, tms, x, n)[|wave|].tdi == Bit(x, 0)
    decreases n
  {
    hide Bit;
    if n > 1 {
      ClockDataFirst(b, wave, tms, x, n - 1);
    } else {
      assert ClockData(b, wave, tms, x, 0) == wave;
    }
  }

  /** The next cycle a long run with trailing bits clocks carries the first trailing bit. */
  lemma EarlyTrail(r: Job, b: Board, stale: nat -> byte, c: Chip, v: View, tms: seq<bool>)
    requires Sound(r) && Start(r, c, v, tms) && CutOf(r).inner > r.limit && CutOf(r).trailing > 0
    ensures var w := Run(b, c, Sent(Emit(r, r.from))).wave;
      var k := |v.wave| + (Second(r) - r.from);
      k < |w| && w[k].tdi == Bits(r.tdi)[InnerEnd(r)]
  {
    hide Run, Bits, Bit, Start, Collect, Play, LeadPieces, BytesPair, Emit, ClockData, Command;
    FirstPass(r);
    FirstPassStaged(r, b, stale, c, v, tms);
    CutCovers(r.from, r.to);
    var ps := LeadPieces(r, r.from) + BytesPair(r, InnerStart(r), r.limit);
    var trail := TrailPieces(r, Second(r));
    var rest := Emit(r, Second(r) + CutOf(r).trailing);
    var y, t := r.tdi[InnerEnd(r) / 8], CutOf(r).trailing;
    var d := Run(b, c, Sent(ps));
    SentConcat(ps, trail + rest);
    SentConcat(trail, rest);
    SentTwo(trail[0], trail[0]);
    assert trail == [trail[0]];
    RunConcat(b, c, Sent(ps), trail[0].data + Sent(rest));
    RunConcat(b, d, trail[0].data, Sent(rest));
    RunDataBits(b, d, t, y);
    ClockDataFirst(b, d.wave, d.tms, y, t);
    RunExtends(b, Run(b, d, trail[0].data), Sent(rest));
    TrailingByte(r.tdi, InnerEnd(r), t);
    assert Bit(y, 0) == Bits(r.tdi)[InnerEnd(r) + 0];
  }

  /** So a long run with trailing bits drives TDI wrongly whenever the two bits concerned differ. */
  lemma LongRunDrivesWrongTdi(r: Job, b: Board, stale: nat -> byte, cuts: seq<nat>, c: Chip, v: View, tms: seq<bool>)
    requires Sound(r) && Start(r, c, v, tms) && CutOf(r).inner > r.limit && CutOf(r).trailing > 0
    requires Bits(r.tdi)[Second(r)] != Bits(r.tdi)[InnerEnd(r)]
    ensures !Faithful(r, b, stale, cuts, c, v, tms)
  {
    hide Run, Bits, CollectFlushed, Play, Emit, Sent, Walk;
    FirstPass(r);
    EarlyTrail(r, b, stale, c, v, tms);
    PlayCycle(b, v, tms, Bits(r.tdi), r.from, r.to, Second(r));
    assert InShift(Walk(v.tap, tms, r.from, Second(r)));
  }

  /** From `len` cycles on the board is silent, and the undefined bits of answers are 0. */
  ghost predicate SilentFrom(b: Board, len: nat) {
    && (forall h, tms, tdi :: |h| >= len ==> !b.sample(h, tms, tdi))
    && (forall i :: b.noise(i) == 0)
  }

  ghost predicate Silent(wave: seq<Clock>, from: nat) {
    forall i :: from <= i < |wave| ==> !wave[i].tdo
  }

  lemma {:induction false} SilentTms(b: Board, wave: seq<Clock>, x: byte, n: nat)
    requires n <= 7 && SilentFrom(b, |wave|)
    ensures Silent(ClockTms(b, wave, x, n), |wave|)
  {
    if n > 0 {
      SilentTms(b, wave, x, n - 1);
    }
  }

  lemma {:induction false} SilentData(b: Board, wave: seq<Clock>, tms: bool, x: byte, n: nat)
    requires n <= 8 && SilentFrom(b, |wave|)
    ensures Silent(ClockData(b, wave, tms, x, n), |wave|)
  {
    if n > 0 {
      SilentData(b, wave, tms, x, n - 1);
    }
  }

  lemma SilentAnswer(b: Board, wave: seq<Clock>, n: nat, index: nat)
    requires n <= 8 && n <= |wave| && Silent(wave, |wave| - n) && b.noise(index) == 0
    ensures Answer(b, wave, n, index) == 0
  {
    hide Bit, Pack;
    var s := seq(8, i requires 0 <= i < 8 => if i < 8 - n then Bit(b.noise(index), i) else wave[|wave| - 8 + i].tdo);
    ZeroByte();
    forall i | 0 <= i < 8 ensures Bit(Answer(b, wave, n, index), i) == Bit(0, i) {
      BitOfPack(s, i);
    }
    ByteExtensional(Answer(b, wave, n, index), 0);
  }

  /** Answers from index `from` on are zero bytes. */
  ghost predicate ZeroFrom(answers: seq<byte>, from: nat) {
    forall i :: from <= i < |answers| ==> answers[i] == 0
  }

  lemma SilentClocking(b: Board, c: Chip, op: Shifter, n: nat, x: byte)
    requires CanClock(op, n) && SilentFrom(b, |c.wave|)
    ensures ZeroFrom(Clocking(b, c, op, n, x).answers, |c.answers|)
  {
    hide Answer, ClockTms, ClockData;
    if op.writesTms {
      SilentTms(b, c.wave, x, n);
    } else {
      SilentData(b, c.wave, c.tms, x, n);
    }
    SilentAnswer(b, Clocking(b, c, op, n, x).wave, n, |c.answers|);
  }

  lemma SilentByte(b: Board, c: Chip, left: nat, x: byte)
    requires left >= 1 && SilentFrom(b, |c.wave|)
    ensures ZeroFrom(ClockByte(b, c, left, x).answers, |c.answers|)
  {
    hide Answer, ClockData;
    SilentData(b, c.wave, c.tms, x, 8);
    SilentAnswer(b, ClockByte(b, c, left, x).wave, 8, |c.answers|);
  }

  lemma SilentStep(b: Board, c: Chip, x: byte)
    requires SilentFrom(b, |c.wave|)
    ensures ZeroFrom(Step(b, c, x).answers, |c.answers|)
  {
    hide Clocking, ClockByte, Opcode;
    match c.phase
    case BitData(op, n) => if CanClock(op, n) { SilentClocking(b, c, op, n, x); }
    case Payload(left) => if left >= 1 { SilentByte(b, c, left, x); }
    case _ =>
  }

  /** Once the board is silent every further answer is zero, whatever is sent. */
  lemma {:induction false} SilentRun(b: Board, c: Chip, s: seq<byte>)
    requires SilentFrom(b, |c.wave|)
    ensures ZeroFrom(Run(b, c, s).answers, |c.answers|)
    decreases |s|
  {
    hide Step;
    if s != [] {
      var d := Run(b, c, s[..|s| - 1]);
      SilentRun(b, c, s[..|s| - 1]);
      RunExtends(b, c, s[..|s| - 1]);
      RunGrows(b, c, s[..|s| - 1]);
      SilentStep(b, d, s[|s| - 1]);
      StepGrows(b, d, s[|s| - 1]);
    }
  }

  /** Without trailing bits, a pass from a byte boundary inside the run sends at least one byte. */
  lemma LaterPassStops(r: Job, cur: nat)
    requires Sound(r) && CutOf(r).trailing == 0 && InnerStart(r) < cur < LastBit(r) && (cur - InnerStart(r)) % 8 == 0
    requires CutOf(r).inner > 0
    ensures SendsBytes(r, cur) && Octets(r, cur) >= 1
    ensures var next := cur + 8 * Octets(r, cur);
      && next <= LastBit(r) && (next - InnerStart(r)) % 8 == 0
      && AfterLead(r, cur) == cur && AfterBytes(r, cur) == next && AfterTrail(r, next) == next
      && Reached(r, cur) && Reached(r, if next == LastBit(r) then next + 1 else next)
  {
    hide CutRun;
    CutCovers(r.from, r.to);
  }

  /** It is one byte command, then perhaps the last bit. */
  lemma LaterPass(r: Job, cur: nat)
    requires Sound(r) && CutOf(r).trailing == 0 && InnerStart(r) < cur < LastBit(r) && (cur - InnerStart(r)) % 8 == 0
    requires CutOf(r).inner > 0
    ensures SendsBytes(r, cur) && Octets(r, cur) >= 1
    ensures var next := cur + 8 * Octets(r, cur);
      && next <= LastBit(r) && (next - InnerStart(r)) % 8 == 0
      && Reached(r, cur) && Reached(r, if next == LastBit(r) then next + 1 else next)
      && Emit(r, cur) == BytePieces(r, cur) + EndPieces(r, next)
          + Emit(r, if next == LastBit(r) then next + 1 else next)
  {
    hide CutRun, BytePieces, EndPieces, Octets, SendsBytes, AfterBytes, AfterTrail, AfterLead, Reached, InnerEnd;
    LaterPassStops(r, cur);
    var next := cur + 8 * Octets(r, cur);
    assert LeadPieces(r, cur) == [] && TrailPieces(r, next) == [];
    assert Pass(r, cur) == [] + BytePieces(r, cur) + [] + EndPieces(r, next);
  }

  /** The final byte command's observer copies the whole run from its own answer; then comes the last bit. */
  lemma FinalPass(r: Job, cur: nat)
    requires Sound(r) && CutOf(r).trailing == 0 && InnerStart(r) < cur < LastBit(r) && (cur - InnerStart(r)) % 8 == 0
    requires CutOf(r).inner > 0 && SendsBytes(r, cur) && cur + 8 * Octets(r, cur) == LastBit(r)
    ensures var b, e := BytePieces(r, cur), EndPieces(r, LastBit(r));
      && |b| == 2 && |e| == 1 && b[0].fill.None? && b[0].rxBytes == 0 && b[1].rxBytes >= 1
      && b[1].fill == Some(Fill(0, InnerStart(r), 8 * CutOf(r).inner)) && e[0].fill == Some(Fill(7, LastBit(r), 1))
    ensures InnerStart(r) + 8 * CutOf(r).inner == LastBit(r)
  {
    hide CutRun, Header, Command, LastByte, Bit;
    CutCovers(r.from, r.to);
    assert Octets(r, cur) >= CutOf(r).inner - (cur - InnerStart(r)) / 8;
  }

  /** After the pieces `ps` the engine is idle again and has answered exactly what is waited for. */
  ghost predicate Counted(b: Board, c: Chip, ps: seq<Piece>) {
    Run(b, c, Sent(ps)).phase.Idle? && |NewAnswers(b, c, ps)| == Expected(ps)
  }

  lemma CountedConcat(b: Board, c: Chip, a: seq<Piece>, z: seq<Piece>)
    requires Counted(b, c, a) && Counted(b, Run(b, c, Sent(a)), z)
    ensures Counted(b, c, a + z)
  {
    hide Run, Sent, Expected;
    SentConcat(a, z);
    RunConcat(b, c, Sent(a), Sent(z));
  }

  /** Payload bytes are answered one for one. */
  lemma {:induction false} PayloadCounted(b: Board, c: Chip, data: seq<byte>, total: nat)
    requires c.phase == Payload(total) && |data| <= total && total >= 1
    ensures var d := Run(b, c, data);
      d.phase == (if |data| == total then Idle else Payload(total - |data|)) && |d.answers| == |c.answers| + |data|
    decreases |data|
  {
    hide Answer, ClockData;
    if data != [] {
      PayloadCounted(b, c, data[..|data| - 1], total);
    }
  }

  lemma PairCounted(b: Board, c: Chip, h: Piece, d: Piece)
    requires c.phase.Idle? && 1 <= |d.data| <= 0x1_0000 && h.data == Header(|d.data|) && h.rxBytes == 0
    requires d.rxBytes == |d.data|
    ensures Counted(b, c, [h, d])
  {
    hide Run, Sent, Expected, Header, BytesHeader;
    var n := |d.data|;
    SentTwo(h, d);
    RunConcat(b, c, h.data, d.data);
    HeaderIsBytesHeader(n);
    RunBytesHeader(b, c, n);
    PayloadCounted(b, c.(phase := Payload(n)), d.data, n);
  }

  lemma EndCounted(b: Board, c: Chip, e: Piece, x: byte)
    requires c.phase.Idle? && e.data == Command(CLK_TMS_READ_NEG, 1, x) && e.rxBytes == 1
    ensures Counted(b, c, [e])
  {
    hide Run, Sent, Expected, Command, Answer, ClockTms;
    SentTwo(e, e);
    RunLastBit(b, c, x);
  }

  lemma NothingCounted(b: Board, c: Chip)
    requires c.phase.Idle?
    ensures Counted(b, c, [])
  {
    RunNone(b, c);
  }

  /** One later pass keeps the count. */
  lemma LaterPassCounted(r: Job, cur: nat, b: Board, c: Chip)
    requires Sound(r) && CutOf(r).trailing == 0 && InnerStart(r) < cur < LastBit(r) && (cur - InnerStart(r)) % 8 == 0
    requires CutOf(r).inner > 0 && c.phase.Idle?
    ensures SendsBytes(r, cur) && Counted(b, c, BytePieces(r, cur) + EndPieces(r, cur + 8 * Octets(r, cur)))
  {
    hide CutRun, Header, Command, LastByte, Bit, Counted;
    LaterPassStops(r, cur);
    var next := cur + 8 * Octets(r, cur);
    var p, e := BytePieces(r, cur), EndPieces(r, next);
    PairCounted(b, c, p[0], p[1]);
    assert p == [p[0], p[1]];
    CountedIsIdle(b, c, p);
    if next == LastBit(r) {
      EndCounted(b, Run(b, c, Sent(p)), e[0], LastByte(Bit(r.tdi[next / 8], next % 8), r.lastTms));
      assert e == [e[0]];
    } else {
      NothingCounted(b, Run(b, c, Sent(p)));
    }
    CountedConcat(b, c, p, e);
  }

  lemma CountedIsIdle(b: Board, c: Chip, ps: seq<Piece>)
    requires Counted(b, c, ps)
    ensures Run(b, c, Sent(ps)).phase.Idle? && |NewAnswers(b, c, ps)| == Expected(ps)
  {
  }

  /**
    A run without trailing bits ends with the observer that copies all its bytes, and the last bit; every
    answer comes.
  */
  lemma {:induction false} EndsInBulk(r: Job, cur: nat, b: Board, c: Chip) returns (pre: seq<Piece>, d: Piece, e: Piece)
    requires Sound(r) && CutOf(r).trailing == 0 && InnerStart(r) < cur < LastBit(r) && (cur - InnerStart(r)) % 8 == 0
    requires CutOf(r).inner > 0 && Reached(r, cur) && c.phase.Idle?
    ensures Emit(r, cur) == pre + [d, e] && Counted(b, c, Emit(r, cur)) && d.rxBytes >= 1
    ensures d.fill == Some(Fill(0, InnerStart(r), 8 * CutOf(r).inner)) && e.fill == Some(Fill(7, LastBit(r), 1))
    decreases r.to - cur
  {
    hide CutRun, Emit, BytePieces, EndPieces, Octets, SendsBytes, InnerEnd, Counted, Run, Sent;
    LaterPass(r, cur);
    LaterPassCounted(r, cur, b, c);
    var next := cur + 8 * Octets(r, cur);
    var here := BytePieces(r, cur) + EndPieces(r, next);
    CountedIsIdle(b, c, here);
    if next == LastBit(r) {
      LoopOver(r);
      FinalPass(r, cur);
      var p, q := BytePieces(r, cur), EndPieces(r, next);
      pre, d, e := [p[0]], p[1], q[0];
      assert Emit(r, cur) == here;
      assert here == pre + [d, e];
    } else {
      pre, d, e := EndsInBulk(r, next, b, Run(b, c, Sent(here)));
      CountedConcat(b, c, here, Emit(r, next));
      assert here + (pre + [d, e]) == (here + pre) + [d, e];
      pre := here + pre;
    }
  }

  lemma LoopOver(r: Job)
    requires Sound(r) && Reached(r, r.to)
    ensures Emit(r, r.to) == []
  {
  }

  /** An observer reading a zero byte first clears its first bit. */
  lemma CopiedZero(f: Fill, tdo: seq<bool>, answers: seq<byte>, stale: nat -> byte, at: nat)
    requires at < |answers| && answers[at] == 0 && f.from == 0 && f.count > 0 && f.to + f.count <= |tdo|
    ensures !Copied(f, tdo, answers, stale, at)[f.to]
  {
    hide Bits, Splice, Bit;
    var w := Window(answers, stale, at, (f.from + f.count + 7) / 8);
    SpliceAt(tdo, f.to, Bits(w), 0, f.count, f.to);
    BitsAt(w, 0);
    assert w[0] == RxByte(answers, stale, at + 0);
    ZeroByte();
  }

  lemma CopiedElsewhere(f: Fill, tdo: seq<bool>, answers: seq<byte>, stale: nat -> byte, at: nat, bit: nat)
    requires bit < |tdo| && !(f.to <= bit < f.to + f.count)
    ensures Copied(f, tdo, answers, stale, at)[bit] == tdo[bit]
  {
    hide Bits, Splice;
    if f.to + f.count <= |tdo| {
      SpliceAt(tdo, f.to, Bits(Window(answers, stale, at, (f.from + f.count + 7) / 8)), f.from, f.count, bit);
    }
  }

  /** The last bit's observer leaves the other bits alone, however often the buffer is flushed before it. */
  lemma {:induction false} LastLeaves(e: Piece, cuts: seq<nat>, tdo: seq<bool>, answers: seq<byte>, stale: nat -> byte,
                                      bit: nat)
    requires e.fill.Some? && bit < |tdo| && !(e.fill.value.to <= bit < e.fill.value.to + e.fill.value.count)
    ensures CollectFlushed([e], cuts, tdo, answers, stale)[bit] == tdo[bit]
    decreases |cuts|
  {
    hide Copied, Collect;
    if cuts == [] || cuts[0] >= 1 {
      CollectTwo(e, e, tdo, answers, stale, 0);
      CopiedElsewhere(e.fill.value, tdo, answers, stale, 0, bit);
    } else {
      assert [e][..0] == [] && [e][0..] == [e];
      CollectNone(tdo, answers[..0], stale);
      assert answers[0..] == answers;
      LastLeaves(e, cuts[1..], tdo, answers, Overwritten(answers[..0], stale), bit);
    }
  }

  lemma CollectNone(tdo: seq<bool>, answers: seq<byte>, stale: nat -> byte)
    ensures Collect([], tdo, answers, stale, 0) == tdo && Expected([]) == 0
  {
  }

  /** Collected in one go, a first answer byte of zero leaves the first bit of the bulk observer clear. */
  lemma BulkClears(pre: seq<Piece>, d: Piece, tdo: seq<bool>, answers: seq<byte>, stale: nat -> byte)
    requires d.fill.Some? && d.fill.value.from == 0 && d.fill.value.count > 0
    requires d.fill.value.to + d.fill.value.count <= |tdo| && Expected(pre) < |answers| && answers[Expected(pre)] == 0
    ensures !Collect(pre + [d], tdo, answers, stale, 0)[d.fill.value.to]
  {
    hide Copied, Collect, Expected;
    CollectConcat(pre, [d], tdo, answers, stale, 0);
    var t := Collect(pre, tdo, answers, stale, 0);
    CollectTwo(d, d, t, answers, stale, Expected(pre));
    CopiedZero(d.fill.value, t, answers, stale, Expected(pre));
  }

  /** The same wherever flushes fall. */
  lemma {:induction false} BulkClearsFlushed(pre: seq<Piece>, d: Piece, e: Piece, cuts: seq<nat>, tdo: seq<bool>,
                                             answers: seq<byte>, stale: nat -> byte)
    requires d.fill.Some? && d.fill.value.from == 0 && d.fill.value.count > 0 && e.fill.Some? && d.rxBytes >= 1
    requires d.fill.value.to + d.fill.value.count <= e.fill.value.to && d.fill.value.to + d.fill.value.count <= |tdo|
    requires |answers| == Expected(pre + [d, e]) && Expected(pre) < |answers| && answers[Expected(pre)] == 0
    ensures !CollectFlushed(pre + [d, e], cuts, tdo, answers, stale)[d.fill.value.to]
    decreases |cuts|
  {
    hide Collect, Expected;
    var all, bit := pre + [d, e], d.fill.value.to;
    assert all == pre + [d] + [e];
    SentConcat(pre + [d], [e]);
    SentConcat(pre, [d]);
    if cuts == [] || cuts[0] >= |all| {
      CollectConcat(pre + [d], [e], tdo, answers, stale, 0);
      BulkClears(pre, d, tdo, answers, stale);
      var t := Collect(pre + [d], tdo, answers, stale, 0);
      CollectTwo(e, e, t, answers, stale, Expected(pre + [d]));
      CopiedElsewhere(e.fill.value, t, answers, stale, Expected(pre + [d]), bit);
    } else if cuts[0] == |pre| + 1 {
      assert all[..cuts[0]] == pre + [d] && all[cuts[0]..] == [e];
      SentTwo(d, e);
      var n := Expected(pre + [d]);
      BulkClears(pre, d, tdo, answers[..n], stale);
      LastLeaves(e, cuts[1..], Collect(pre + [d], tdo, answers[..n], stale, 0), answers[n..],
          Overwritten(answers[..n], stale), bit);
    } else {
      var p, q := pre[..cuts[0]], pre[cuts[0]..];
      assert all[..cuts[0]] == p && all[cuts[0]..] == q + [d, e] && pre == p + q;
      SentConcat(p, q);
      SentConcat(q, [d, e]);
      SentConcat(pre, [d, e]);
      var n := Expected(p);
      BulkClearsFlushed(q, d, e, cuts[1..], Collect(p, tdo, answers[..n], stale, 0), answers[n..],
          Overwritten(answers[..n], stale));
    }
  }

  /**
    So a long run without trailing bits loses its first inner TDO bit whenever the board raises TDO only
    before its second command, whatever the RX buffer held and wherever flushes fall.
  */
  lemma LongRunLosesTdo(r: Job, b: Board, stale: nat -> byte, cuts: seq<nat>, c: Chip, v: View, tms: seq<bool>)
    requires Sound(r) && Start(r, c, v, tms) && CutOf(r).inner > r.limit && CutOf(r).trailing == 0
    requires SilentFrom(b, |v.wave| + (Second(r) - r.from))
    requires Play(b, v, tms, Bits(r.tdi), r.from, r.to).tdo[InnerStart(r)]
    ensures !Faithful(r, b, stale, cuts, c, v, tms)
  {
    hide Run, Bits, Collect, CollectFlushed, Play, Emit, Sent, Uniform, LeadPieces, BytesPair, CutRun, Expected,
        NewAnswers;
    FirstPass(r);
    FirstPassStaged(r, b, stale, c, v, tms);
    var ps := LeadPieces(r, r.from) + BytesPair(r, InnerStart(r), r.limit);
    var rest := Emit(r, Second(r));
    var all := Emit(r, r.from);
    assert TrailPieces(r, Second(r)) == [] && [] + rest == rest;
    InnerIsAligned(r);
    var pre, d, e := EndsInBulk(r, Second(r), b, Run(b, c, Sent(ps)));
    CountedConcat(b, c, ps, rest);
    SilentTail(b, c, ps, rest, all);
    assert all == (ps + pre) + [d, e];
    SentConcat(ps, pre);
    SentConcat(ps + pre, [d, e]);
    SentTwo(d, e);
    BulkClearsFlushed(ps + pre, d, e, cuts, v.tdo, NewAnswers(b, c, all), stale);
  }

  lemma InnerIsAligned(r: Job)
    requires Sound(r) && CutOf(r).inner > r.limit
    ensures (Second(r) - InnerStart(r)) % 8 == 0 && InnerStart(r) < Second(r) < LastBit(r) + 1
    ensures CutOf(r).trailing == 0 ==> Second(r) < LastBit(r)
  {
    hide CutRun;
    CutCovers(r.from, r.to);
  }

  /** Answers that come after the board fell silent are zero. */
  lemma SilentTail(b: Board, c: Chip, ps: seq<Piece>, rest: seq<Piece>, all: seq<Piece>)
    requires all == ps + rest && SilentFrom(b, |Run(b, c, Sent(ps)).wave|)
    ensures ZeroFrom(NewAnswers(b, c, all), |NewAnswers(b, c, ps)|)
  {
    hide Run, Sent;
    SentConcat(ps, rest);
    RunConcat(b, c, Sent(ps), Sent(rest));
    var d := Run(b, c, Sent(ps));
    SilentRun(b, d, Sent(rest));
    var x, y := NewAnswers(b, c, ps), NewAnswers(b, c, all);
    forall i | |x| <= i < |y| ensures y[i] == 0 {
      assert Run(b, d, Sent(rest)).answers[|c.answers| + i] == y[i];
    }
  }

  /**
    With flushes at the given places, whatever is shifted, answered and held by the RX buffer before, the
    run means what it should.
  */
  ghost predicate AlwaysFaithful(from: nat, to: nat, limit: nat, lastTms: bool, cuts: seq<nat>) {
    forall tdi: seq<byte>, b: Board, stale: nat -> byte, c: Chip, v: View, tms: seq<bool> ::
      Sound(Job(tdi, from, to, lastTms, limit)) && Start(Job(tdi, from, to, lastTms, limit), c, v, tms) ==>
      Faithful(Job(tdi, from, to, lastTms, limit), b, stale, cuts, c, v, tms)
  }

  /** A TMS vector that stays in Shift to its last bit. */
  function Stay(to: nat, lastTms: bool): (tms: seq<bool>)
    requires to > 0
    ensures |tms| == to
  {
    seq(to - 1, i => false) + [lastTms]
  }

  lemma {:induction false} StayShifts(to: nat, lastTms: bool, from: nat, j: nat)
    requires from <= j < to
    ensures Walk(ShiftDr, Stay(to, lastTms), from, j) == ShiftDr
    decreases j
  {
    if from < j {
      StayShifts(to, lastTms, from, j - 1);
    }
  }

  const FRESH: Chip := Chip(Idle, false, [], [], 0, false)

  function ShiftingView(n: nat): View {
    View(ShiftDr, false, [], seq(8 * n, i => false))
  }

  lemma FreshStart(r: Job)
    requires Sound(r)
    ensures Start(r, FRESH, ShiftingView(|r.tdi|), Stay(r.to, r.lastTms))
  {
    forall j | r.from <= j < r.to ensures InShift(Walk(ShiftDr, Stay(r.to, r.lastTms), r.from, j)) {
      StayShifts(r.to, r.lastTms, r.from, j);
    }
  }

  /** A board that raises TDO for its first `cycles` cycles only. */
  function EarlyBoard(cycles: nat): Board {
    Board((h, x, y) => |h| < cycles, i => 0)
  }

  function MarkedBytes(n: nat, mark: nat): (s: seq<byte>)
    ensures |s| == n
  {
    seq(n, i => if i == mark then 0xFF else 0)
  }

  lemma MarkedBits(n: nat, mark: nat, k: nat)
    requires k < 8 * n
    ensures Bits(MarkedBytes(n, mark))[k] == (k / 8 == mark)
  {
    hide Bits, Bit;
    BitsAt(MarkedBytes(n, mark), k);
    ZeroByte();
    OnesByte();
  }

  lemma OnesByte()
    ensures forall i :: 0 <= i < 8 ==> Bit(0xFF, i)
  {
  }

  lemma SecondByte(from: nat, to: nat, limit: nat)
    requires from < to && 1 <= limit <= 0x1_0000 && CutRun(from, to).inner > limit
    ensures var c, n := CutRun(from, to), (to + 7) / 8;
      var second := from + c.leading + 8 * limit;
      && second % 8 == 0 && second / 8 < (to - 1 - c.trailing) / 8 && second < to - 1 - c.trailing < to <= 8 * n
  {
    hide CutRun;
    CutCovers(from, to);
  }

  /** With trailing bits: ones in the byte that should come second. */
  lemma TrailCounterexample(from: nat, to: nat, limit: nat, lastTms: bool, stale: nat -> byte, cuts: seq<nat>)
      returns (r: Job)
    requires from < to && 1 <= limit <= 0x1_0000 && CutRun(from, to).inner > limit && CutRun(from, to).trailing > 0
    ensures Sound(r) && r == Job(r.tdi, from, to, lastTms, limit)
    ensures Start(r, FRESH, ShiftingView(|r.tdi|), Stay(to, lastTms))
    ensures !Faithful(r, EarlyBoard(0), stale, cuts, FRESH, ShiftingView(|r.tdi|), Stay(to, lastTms))
  {
    hide Bits, CutRun, Start, Faithful, MarkedBytes, Stay, EarlyBoard, ShiftingView, Emit, Reached, TrailPieces,
         LeadPieces, BytesPair;
    var n := (to + 7) / 8;
    var second := from + CutRun(from, to).leading + 8 * limit;
    SecondByte(from, to, limit);
    r := Job(MarkedBytes(n, second / 8), from, to, lastTms, limit);
    FirstPass(r);
    FreshStart(r);
    MarkedBits(n, second / 8, Second(r));
    MarkedBits(n, second / 8, InnerEnd(r));
    LongRunDrivesWrongTdi(r, EarlyBoard(0), stale, cuts, FRESH, ShiftingView(n), Stay(to, lastTms));
  }

  lemma EarlyBoardIsSilent(cycles: nat)
    ensures SilentFrom(EarlyBoard(cycles), cycles)
  {
  }

  /** The reference machine collects a one from a board that is still raising TDO. */
  lemma EarlyBit(r: Job, cycles: nat, k: nat)
    requires Sound(r) && r.from <= k < r.to && k - r.from < cycles
    ensures Play(EarlyBoard(cycles), ShiftingView(|r.tdi|), Stay(r.to, r.lastTms), Bits(r.tdi), r.from, r.to).tdo[k]
  {
    hide Bits, Play, Walk, Stay;
    var b, v, tms := EarlyBoard(cycles), ShiftingView(|r.tdi|), Stay(r.to, r.lastTms);
    PlayTdo(b, v, tms, Bits(r.tdi), r.from, r.to, k);
    PlayCycle(b, v, tms, Bits(r.tdi), r.from, r.to, k);
    StayShifts(r.to, r.lastTms, r.from, k);
  }

  /** Without trailing bits: a board that raises TDO only before the second byte command. */
  lemma BulkCounterexample(from: nat, to: nat, limit: nat, lastTms: bool, stale: nat -> byte, cuts: seq<nat>)
      returns (r: Job, cycles: nat)
    requires from < to && 1 <= limit <= 0x1_0000 && CutRun(from, to).inner > limit && CutRun(from, to).trailing == 0
    ensures Sound(r) && r == Job(r.tdi, from, to, lastTms, limit)
    ensures Start(r, FRESH, ShiftingView(|r.tdi|), Stay(to, lastTms))
    ensures !Faithful(r, EarlyBoard(cycles), stale, cuts, FRESH, ShiftingView(|r.tdi|), Stay(to, lastTms))
  {
    hide Bits, CutRun, Start, Faithful, Play, Stay, EarlyBoard, MarkedBytes;
    CutCovers(from, to);
    r := Job(MarkedBytes((to + 7) / 8, 0), from, to, lastTms, limit);
    FirstPass(r);
    FreshStart(r);
    cycles := Second(r) - from;
    EarlyBoardIsSilent(cycles);
    EarlyBit(r, cycles, InnerStart(r));
    LongRunLosesTdo(r, EarlyBoard(cycles), stale, cuts, FRESH, ShiftingView(|r.tdi|), Stay(to, lastTms));
  }

  /**
    A Shift run is always compiled faithfully exactly when its whole bytes fit one byte command, wherever
    flushes fall.
  */
  lemma FaithfulIffFits(from: nat, to: nat, limit: nat, lastTms: bool, cuts: seq<nat>)
    requires from < to && 1 <= limit <= 0x1_0000
    ensures AlwaysFaithful(from, to, limit, lastTms, cuts) <==> CutRun(from, to).inner <= limit
  {
    hide CutRun, Start, Faithful;
    if CutRun(from, to).inner <= limit {
      forall tdi: seq<byte>, b: Board, stale: nat -> byte, c: Chip, v: View, tms: seq<bool>
        | Sound(Job(tdi, from, to, lastTms, limit)) && Start(Job(tdi, from, to, lastTms, limit), c, v, tms)
        ensures Faithful(Job(tdi, from, to, lastTms, limit), b, stale, cuts, c, v, tms)
      {
        ShortRunFaithful(Job(tdi, from, to, lastTms, limit), b, stale, cuts, c, v, tms);
      }
    } else {
      if CutRun(from, to).trailing > 0 {
        var r := TrailCounterexample(from, to, limit, lastTms, i => 0, cuts);
      } else {
        var r, cycles := BulkCounterexample(from, to, limit, lastTms, i => 0, cuts);
      }
    }
  }
}
