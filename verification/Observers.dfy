/**
  Deferred reads. Each answer the adapter will need later is recorded as an observer that
  knows where in the RX buffer the answer will be and which TDO bits it fills.
*/
module Observers {
  import opened Bytes

  /** The observer pool, and the sizes of its records with 64-bit pointers. */
  const POOL_SIZE: nat := 65536 * 256
  const NODE_SIZE: nat := 32
  const BIT_COPIER_SIZE: nat := 24
  const BULK_COPIER_SIZE: nat := 16

  /** The observer functions and the data each one carries. */
  datatype Copier =
    | BitCopier(fromBit: nat, dst: array<byte>, toBit: nat, numBits: nat)
    | ByteCopier(dst: array<byte>, at: nat, numBytes: nat)
    | BulkByteCopier(dst: array<byte>, at: nat, totalBytes: nat, bytesCopied: nat)
  {
    /** First bit read of the answer. */
    function From(): nat {
      if BitCopier? then fromBit else 0
    }

    /** First TDO bit written. */
    function To(): nat {
      match this
      case BitCopier(_, _, toBit, _) => toBit
      case ByteCopier(_, at, _) => 8 * at
      case BulkByteCopier(_, at, _, bytesCopied) => 8 * (at + bytesCopied)
    }

    /** How many answer bytes the observer covers. */
    function Span(): int {
      match this
      case BitCopier(_, _, _, _) => 1
      case ByteCopier(_, _, numBytes) => numBytes
      case BulkByteCopier(_, _, totalBytes, bytesCopied) => totalBytes - bytesCopied
    }

    /** How many TDO bits the observer writes. */
    function Count(): int {
      if BitCopier? then numBits else 8 * Span()
    }

    /** The observer stays inside its answer and inside a TDO vector of that many bits. */
    predicate Fits(bits: nat) {
      1 <= Span() && 0 <= Count() && From() + Count() <= 8 * Span() && To() + Count() <= bits
    }
  }

  /** A queued observer: `data` is the offset of its answer in the RX buffer. */
  datatype Observer = Observer(fn: Copier, data: nat)

  /** The observers cover [0, n) of the RX buffer in queue order, without gap or overlap. */
  ghost predicate Tiles(os: seq<Observer>, n: nat, bits: nat)
    decreases |os|
  {
    if os == [] then n == 0
    else
      var o := os[|os| - 1];
      o.fn.Fits(bits) && o.data + o.fn.Span() == n && Tiles(os[..|os| - 1], o.data, bits)
  }

  /** The TDO bits after one observer has seen its answer. */
  ghost function Landed(fn: Copier, tdo: seq<bool>, answer: seq<byte>): (r: seq<bool>)
    requires fn.Fits(|tdo|) && |answer| == fn.Span()
    ensures |r| == |tdo|
  {
    Splice(tdo, fn.To(), Bits(answer), fn.From(), fn.Count())
  }

  /** The TDO bits after all observers have seen the RX bytes `rx`. */
  ghost function LandAll(os: seq<Observer>, tdo: seq<bool>, rx: seq<byte>): (r: seq<bool>)
    requires Tiles(os, |rx|, |tdo|)
    ensures |r| == |tdo|
    decreases |os|
  {
    if os == [] then tdo
    else
      var o := os[|os| - 1];
      Landed(o.fn, LandAll(os[..|os| - 1], tdo, rx[..o.data]), rx[o.data..])
  }

  lemma LandOneMore(os: seq<Observer>, tdo: seq<bool>, rx: seq<byte>, fn: Copier, answer: seq<byte>)
    requires Tiles(os, |rx|, |tdo|) && fn.Fits(|tdo|) && |answer| == fn.Span()
    ensures Tiles(os + [Observer(fn, |rx|)], |rx + answer|, |tdo|)
    ensures LandAll(os + [Observer(fn, |rx|)], tdo, rx + answer) == Landed(fn, LandAll(os, tdo, rx), answer)
  {
    hide Landed;
    var o := Observer(fn, |rx|);
    assert (os + [o])[..|os|] == os;
    assert (rx + answer)[..|rx|] == rx && (rx + answer)[|rx|..] == answer;
  }

  /** A prefix of the queue tiles the RX bytes before the next observer. */
  lemma {:induction false} TilesPrefix(os: seq<Observer>, n: nat, bits: nat, i: nat)
    requires Tiles(os, n, bits) && i < |os|
    ensures os[i].fn.Fits(bits) && Tiles(os[..i], os[i].data, bits)
    ensures os[i].data + os[i].fn.Span() <= n
    ensures Tiles(os[..i + 1], os[i].data + os[i].fn.Span(), bits)
    decreases |os|
  {
    if i == |os| - 1 {
      assert os[..|os|] == os;
    } else {
      var p := os[..|os| - 1];
      assert p[..i] == os[..i] && p[..i + 1] == os[..i + 1];
      TilesPrefix(p, os[|os| - 1].data, bits, i);
    }
  }

  lemma LandLast(os: seq<Observer>, tdo: seq<bool>, rx: seq<byte>)
    requires Tiles(os, |rx|, |tdo|) && os != []
    ensures var o, p := os[|os| - 1], os[..|os| - 1];
      && o.data <= |rx| && Tiles(p, o.data, |tdo|) && o.fn.Fits(|tdo|) && |rx| - o.data == o.fn.Span()
      && LandAll(os, tdo, rx) == Landed(o.fn, LandAll(p, tdo, rx[..o.data]), rx[o.data..])
  {
    hide Landed;
  }

  lemma LandPrefix(os: seq<Observer>, tdo: seq<bool>, rx: seq<byte>, i: nat, start: nat, end: nat)
    requires i < |os| && start <= end <= |rx| && os[i].data == start && end - start == os[i].fn.Span()
    requires os[i].fn.Fits(|tdo|)
    requires Tiles(os[..i], start, |tdo|) && Tiles(os[..i + 1], end, |tdo|)
    ensures LandAll(os[..i + 1], tdo, rx[..end]) == Landed(os[i].fn, LandAll(os[..i], tdo, rx[..start]), rx[start..end])
  {
    hide Landed, LandAll, Tiles;
    SliceOfPrefix(os, i, i + 1);
    SliceOfPrefix(rx, start, end);
    LandLast(os[..i + 1], tdo, rx[..end]);
  }

  lemma SliceOfPrefix<T>(s: seq<T>, i: nat, j: nat)
    requires i <= j <= |s|
    ensures s[..j][..i] == s[..i] && s[..j][i..] == s[i..j]
  {
  }
}
