/**
  Bytes and the bit strings they carry. A `uint8_t` buffer is a sequence of
  bytes; its bits are numbered from the least significant bit of byte 0, which
  is how `get_bit`, `set_bit` and JTAG vectors number them.
*/
module Bytes {

  type byte = bv8

  /** The value of `1 << i`. */
  function Mask(i: nat): byte
    requires i < 8
  {
    if i == 0 then 0x01 else if i == 1 then 0x02 else if i == 2 then 0x04 else if i == 3 then 0x08
    else if i == 4 then 0x10 else if i == 5 then 0x20 else if i == 6 then 0x40 else 0x80
  }

  predicate Bit(b: byte, i: nat)
    requires i < 8
  {
    b & Mask(i) != 0
  }

  function SetBit(b: byte, i: nat, v: bool): byte
    requires i < 8
  {
    if v then b | Mask(i) else b & !Mask(i)
  }

  /** Bit i is the one that a right shift by i brings to the bottom: bit 0 is the least significant. */
  lemma BitIsShifted(b: byte, i: nat)
    requires i < 8
    ensures Bit(b, i) <==> (b >> i) & 1 == 1
  {
  }

  lemma BitOfSetBit(b: byte, i: nat, v: bool, j: nat)
    requires i < 8 && j < 8
    ensures Bit(SetBit(b, i, v), j) == if i == j then v else Bit(b, j)
  {
  }

  lemma BitsOfSetBit(b: byte, i: nat, v: bool)
    requires i < 8
    ensures forall j :: 0 <= j < 8 ==> Bit(SetBit(b, i, v), j) == if i == j then v else Bit(b, j)
  {
    forall j | 0 <= j < 8 ensures Bit(SetBit(b, i, v), j) == if i == j then v else Bit(b, j) {
      BitOfSetBit(b, i, v, j);
    }
  }

  /** Two bytes with the same eight bits are the same byte. */
  lemma ByteExtensional(a: byte, b: byte)
    requires forall i :: 0 <= i < 8 ==> Bit(a, i) == Bit(b, i)
    ensures a == b
  {
    assert Bit(a, 0) == Bit(b, 0) && Bit(a, 1) == Bit(b, 1);
    assert Bit(a, 2) == Bit(b, 2) && Bit(a, 3) == Bit(b, 3);
    assert Bit(a, 4) == Bit(b, 4) && Bit(a, 5) == Bit(b, 5);
    assert Bit(a, 6) == Bit(b, 6) && Bit(a, 7) == Bit(b, 7);
  }

  lemma BitOfShiftRight(b: byte, k: nat, j: nat)
    requires k + j < 8
    ensures Bit(b >> k, j) == Bit(b, k + j)
  {
  }

  /** A number kept in one byte. */
  function ToByte(n: nat): byte
    requires n < 256
  {
    n as byte
  }

  function ToNat(b: byte): (n: nat)
    ensures n < 256
  {
    b as nat
  }

  lemma ByteOfNat(n: nat)
    requires n < 256
    ensures ToNat(ToByte(n)) == n
  {
    if n < 128 {
      if n < 64 {} else {}
    } else {
      if n < 192 {} else {}
    }
  }

  lemma NatOfByte(b: byte)
    ensures ToByte(ToNat(b)) == b
  {
  }

  /** A number stored low byte first is read back. */
  lemma CountBytes(n: nat)
    requires n < 0x1_0000
    ensures ToNat(ToByte(n % 256)) + 256 * ToNat(ToByte(n / 256)) == n
  {
    hide ToByte, ToNat;
    ByteOfNat(n % 256);
    ByteOfNat(n / 256);
  }

  /** The byte with the given eight bits. */
  function Pack(s: seq<bool>): byte
    requires |s| == 8
  {
    (if s[0] then 0x01 else 0) | (if s[1] then 0x02 else 0) | (if s[2] then 0x04 else 0) | (if s[3] then 0x08 else 0) |
    (if s[4] then 0x10 else 0) | (if s[5] then 0x20 else 0) | (if s[6] then 0x40 else 0) | (if s[7] then 0x80 else 0)
  }

  lemma BitOfPack(s: seq<bool>, i: nat)
    requires |s| == 8 && i < 8
    ensures Bit(Pack(s), i) == s[i]
  {
  }

  /** All bits of a buffer, least significant bit of the first byte first. */
  function Bits(s: seq<byte>): (r: seq<bool>)
    ensures |r| == 8 * |s|
  {
    seq(8 * |s|, i requires 0 <= i < 8 * |s| => Bit(s[i / 8], i % 8))
  }

  lemma BitsAt(s: seq<byte>, i: nat)
    requires i < 8 * |s|
    ensures Bits(s)[i] == Bit(s[i / 8], i % 8)
  {
  }

  lemma BitsConcat(a: seq<byte>, b: seq<byte>)
    ensures Bits(a + b) == Bits(a) + Bits(b)
  {
    hide Bit;
  }

  lemma BitsSlice(s: seq<byte>, lo: nat, hi: nat)
    requires lo <= hi <= |s|
    ensures Bits(s[lo..hi]) == Bits(s)[8 * lo..8 * hi]
  {
    hide Bit;
  }

  lemma BitsOfOne(b: byte)
    ensures forall j :: 0 <= j < 8 ==> Bits([b])[j] == Bit(b, j)
  {
    hide Bit;
  }

  /** Buffers of one length with equal bits are equal. */
  lemma BitsInjective(a: seq<byte>, b: seq<byte>)
    requires |a| == |b| && Bits(a) == Bits(b)
    ensures a == b
  {
    hide Bit;
    forall k | 0 <= k < |a| ensures a[k] == b[k] {
      forall i | 0 <= i < 8 ensures Bit(a[k], i) == Bit(b[k], i) {
        BitsAt(a, 8 * k + i);
        BitsAt(b, 8 * k + i);
      }
      ByteExtensional(a[k], b[k]);
    }
  }

  /** `dst` with its bits [to, to + n) replaced by the bits [from, from + n) of `src`. */
  function Splice(dst: seq<bool>, to: nat, src: seq<bool>, from: nat, n: nat): (r: seq<bool>)
    requires to + n <= |dst| && from + n <= |src|
    ensures |r| == |dst|
  {
    dst[..to] + src[from..from + n] + dst[to + n..]
  }

  lemma SpliceAt(dst: seq<bool>, to: nat, src: seq<bool>, from: nat, n: nat, j: nat)
    requires to + n <= |dst| && from + n <= |src| && j < |dst|
    ensures Splice(dst, to, src, from, n)[j] == if to <= j < to + n then src[from + (j - to)] else dst[j]
  {
  }

  /** Two adjacent pieces spliced in one after the other are one piece. */
  lemma SpliceAppend(dst: seq<bool>, to: nat, s: seq<bool>, t: seq<bool>)
    requires to + |s| + |t| <= |dst|
    ensures Splice(Splice(dst, to, s, 0, |s|), to + |s|, t, 0, |t|) == Splice(dst, to, s + t, 0, |s| + |t|)
  {
  }

  /** Writing bit `idx` of a buffer. */
  lemma BitsUpdate(s: seq<byte>, idx: nat, v: bool)
    requires idx < 8 * |s|
    ensures Bits(s[idx / 8 := SetBit(s[idx / 8], idx % 8, v)]) == Bits(s)[idx := v]
  {
    hide Bit, SetBit;
    BitsOfSetBit(s[idx / 8], idx % 8, v);
    var r := s[idx / 8 := SetBit(s[idx / 8], idx % 8, v)];
    forall j | 0 <= j < 8 * |s| ensures Bits(r)[j] == Bits(s)[idx := v][j] {
      assert j / 8 == idx / 8 && j % 8 == idx % 8 ==> j == idx;
    }
  }

  /** The buffer whose bits are given. */
  function PackAll(bits: seq<bool>): seq<byte>
    requires |bits| % 8 == 0
  {
    seq(|bits| / 8, i requires 0 <= i < |bits| / 8 => Pack(bits[8 * i..8 * i + 8]))
  }

  lemma BitsOfPackAll(bits: seq<bool>)
    requires |bits| % 8 == 0
    ensures Bits(PackAll(bits)) == bits
  {
    hide Bit, Pack, Bits;
    var s := PackAll(bits);
    forall k | 0 <= k < |bits| ensures Bits(s)[k] == bits[k] {
      BitsAt(s, k);
      BitOfPack(bits[8 * (k / 8)..8 * (k / 8) + 8], k % 8);
    }
  }

  lemma ZeroByte()
    ensures forall i :: 0 <= i < 8 ==> !Bit(0, i)
  {
  }

  lemma ZeroBits(s: seq<byte>)
    requires forall i :: 0 <= i < |s| ==> s[i] == 0
    ensures Bits(s) == seq(8 * |s|, i => false)
  {
    hide Bit, Bits;
    ZeroByte();
    forall k | 0 <= k < 8 * |s| ensures !Bits(s)[k] {
      BitsAt(s, k);
      assert s[k / 8] == 0;
    }
  }
}
