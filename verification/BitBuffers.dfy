/** In-place bit operations on byte buffers: `get_bit`, `set_bit`, `copy_bits` and `memcpy`. */
module BitBuffers {
  import opened Bytes

  function GetBit(p: seq<byte>, idx: nat): (r: bool)
    requires idx < 8 * |p|
    ensures r == Bits(p)[idx]
  {
    BitsAt(p, idx);
    Bit(p[idx / 8], idx % 8)
  }

  method SetBitAt(p: array<byte>, idx: nat, bit: bool)
    requires idx < 8 * p.Length
    modifies p
    ensures Bits(p[..]) == old(Bits(p[..]))[idx := bit]
  {
    hide Bits, SetBit, Bit;
    ghost var was := p[..];
    p[idx / 8] := SetBit(p[idx / 8], idx % 8, bit);
    assert p[..] == was[idx / 8 := SetBit(was[idx / 8], idx % 8, bit)];
    BitsUpdate(was, idx, bit);
  }

  lemma SpliceSnoc(dst: seq<bool>, to: nat, src: seq<bool>, from: nat, n: nat)
    requires to + n + 1 <= |dst| && from + n + 1 <= |src|
    ensures Splice(dst, to, src, from, n)[to + n := src[from + n]] == Splice(dst, to, src, from, n + 1)
  {
  }

  method CopyBits(src: seq<byte>, fromIdx: nat, dst: array<byte>, toIdx: nat, numBits: nat, duplicateLastBit: bool)
    requires fromIdx + numBits <= 8 * |src|
    requires toIdx + numBits + (if duplicateLastBit then 1 else 0) <= 8 * dst.Length
    requires duplicateLastBit ==> fromIdx + numBits > 0
    modifies dst
    ensures Bits(dst[..]) == var s := Splice(old(Bits(dst[..])), toIdx, Bits(src), fromIdx, numBits);
      if duplicateLastBit then s[toIdx + numBits := Bits(src)[fromIdx + numBits - 1]] else s
  {
    hide Bits, Splice;
    ghost var was := Bits(dst[..]);
    SpliceNone(was, toIdx, Bits(src), fromIdx);
    for i := 0 to numBits
      invariant Bits(dst[..]) == Splice(was, toIdx, Bits(src), fromIdx, i)
    {
      SpliceSnoc(was, toIdx, Bits(src), fromIdx, i);
      var bit := GetBit(src, fromIdx + i);
      SetBitAt(dst, toIdx + i, bit);
    }
    if duplicateLastBit {
      var bit := GetBit(src, fromIdx + numBits - 1);
      SetBitAt(dst, toIdx + numBits, bit);
    }
  }

  lemma SpliceNone(dst: seq<bool>, to: nat, src: seq<bool>, from: nat)
    requires to <= |dst| && from <= |src|
    ensures Splice(dst, to, src, from, 0) == dst
  {
  }

  /** `memcpy(dst + at, src, |src|)`. */
  method MemCpy(dst: array<byte>, at: nat, src: seq<byte>)
    requires at + |src| <= dst.Length
    modifies dst
    ensures dst[..] == old(dst[..at]) + src + old(dst[at + |src|..])
  {
    forall i | 0 <= i < |src| {
      dst[at + i] := src[i];
    }
  }

  /** Copying whole bytes is splicing their bits. */
  lemma BytesSplice(dst: seq<byte>, at: nat, src: seq<byte>)
    requires at + |src| <= |dst|
    ensures Bits(dst[..at] + src + dst[at + |src|..]) == Splice(Bits(dst), 8 * at, Bits(src), 0, 8 * |src|)
  {
    hide Bits;
    BitsConcat(dst[..at] + src, dst[at + |src|..]);
    BitsConcat(dst[..at], src);
    BitsSlice(dst, 0, at);
    BitsSlice(dst, at + |src|, |dst|);
    assert dst[0..at] == dst[..at] && dst[at + |src|..|dst|] == dst[at + |src|..];
    assert Bits(src)[0..8 * |src|] == Bits(src);
  }
}
