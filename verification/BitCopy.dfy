/** The bit-level copies of `bit_copy.h`: any offsets, with a byte-wise fast path. */
module BitCopy {
  import opened Bytes
  import opened BitBuffers

  /** Copies bits between any two offsets; whole aligned bytes are copied as bytes. */
  method Copy(dst: array<byte>, dstOffset: nat, src: seq<byte>, srcOffset: nat, bitCount: nat)
    requires dstOffset + bitCount <= 8 * dst.Length && srcOffset + bitCount <= 8 * |src|
    modifies dst
    ensures Bits(dst[..]) == Splice(old(Bits(dst[..])), dstOffset, Bits(src), srcOffset, bitCount)
  {
    hide Bits, Splice, Bit;
    var srcBase, dstBase := srcOffset / 8, dstOffset / 8;
    var si, di := srcOffset % 8, dstOffset % 8;
    ghost var was := Bits(dst[..]);
    if si == 0 && di == 0 && bitCount % 8 == 0 {
      CopyWholeBytes(dst, dstBase, src, srcBase, bitCount / 8);
      return;
    }
    SpliceNone(was, dstOffset, Bits(src), srcOffset);
    for i := 0 to bitCount
      invariant Bits(dst[..]) == Splice(was, dstOffset, Bits(src), srcOffset, i)
    {
      SpliceSnoc(was, dstOffset, Bits(src), srcOffset, i);
      var bit := Bit(src[srcBase + (si + i) / 8], (si + i) % 8);
      BitsAt(src, srcOffset + i);
      SetBitAt(dst, dstOffset + i, bit);
    }
  }

  /** The fast path. */
  method CopyWholeBytes(dst: array<byte>, dstBase: nat, src: seq<byte>, srcBase: nat, n: nat)
    requires dstBase + n <= dst.Length && srcBase + n <= |src|
    modifies dst
    ensures Bits(dst[..]) == Splice(old(Bits(dst[..])), 8 * dstBase, Bits(src), 8 * srcBase, 8 * n)
  {
    hide Bits;
    ghost var was := dst[..];
    for i := 0 to n
      invariant dst[..] == was[..dstBase] + src[srcBase..srcBase + i] + was[dstBase + i..]
    {
      dst[dstBase + i] := src[srcBase + i];
      assert src[srcBase..srcBase + (i + 1)] == src[srcBase..srcBase + i] + [src[srcBase + i]];
    }
    BytesSplice(was, dstBase, src[srcBase..srcBase + n]);
    BitsSlice(src, srcBase, srcBase + n);
    assert Bits(src)[8 * srcBase..8 * (srcBase + n)][0..8 * n] == Bits(src)[8 * srcBase..8 * srcBase + 8 * n];
  }

  /** Copies the answer to an n-bit TMS read, which sits at the top of its byte. */
  method CopyTms(dst: array<byte>, dstOffset: nat, src: seq<byte>, bitCount: nat)
    requires src != [] && bitCount <= 8 && dstOffset + bitCount <= 8 * dst.Length
    modifies dst
    ensures Bits(dst[..]) == Splice(old(Bits(dst[..])), dstOffset, Bits(src), 8 - bitCount, bitCount)
  {
    hide Bits, Splice, Bit;
    ghost var was := Bits(dst[..]);
    var srcByte := src[0] >> (8 - bitCount);
    SpliceNone(was, dstOffset, Bits(src), 8 - bitCount);
    for i := 0 to bitCount
      invariant Bits(dst[..]) == Splice(was, dstOffset, Bits(src), 8 - bitCount, i)
    {
      SpliceSnoc(was, dstOffset, Bits(src), 8 - bitCount, i);
      BitOfShiftRight(src[0], 8 - bitCount, i);
      BitsAt(src, 8 - bitCount + i);
      SetBitAt(dst, dstOffset + i, Bit(srcByte, i));
    }
  }

  /** Copies whole answer bytes to any bit offset. */
  method CopyBytes(dst: array<byte>, dstOffset: nat, src: seq<byte>, byteCount: nat)
    requires byteCount <= |src| && dstOffset + 8 * byteCount <= 8 * dst.Length
    modifies dst
    ensures Bits(dst[..]) == Splice(old(Bits(dst[..])), dstOffset, Bits(src), 0, 8 * byteCount)
  {
    hide Bits, Splice, Bit;
    ghost var was := Bits(dst[..]);
    SpliceNone(was, dstOffset, Bits(src), 0);
    for i := 0 to 8 * byteCount
      invariant Bits(dst[..]) == Splice(was, dstOffset, Bits(src), 0, i)
    {
      SpliceSnoc(was, dstOffset, Bits(src), 0, i);
      BitsAt(src, i);
      SetBitAt(dst, dstOffset + i, Bit(src[i / 8], i % 8));
    }
  }
}
