/** A client connection: bytes arrive and leave in pieces of any size, and any call may fail. */
module Sockets {
  import opened Bytes
  import opened BitBuffers

  class Socket {
    /** What the client still sends, and what it has been sent. */
    var incoming: seq<byte>
    var outgoing: seq<byte>
    /** Whether a read has failed before the end of what the client sends, and whether a write has failed. */
    ghost var cut: bool
    ghost var broken: bool

    constructor (incoming: seq<byte>)
      ensures this.incoming == incoming && outgoing == []
    {
      this.incoming := incoming;
      outgoing := [];
      cut, broken := false, false;
    }

    /** `read`: at least one and at most n bytes, or r <= 0 at the end of the stream or on an error. */
    method Read(n: nat) returns (r: int, data: seq<byte>)
      requires n > 0
      modifies this`incoming, this`cut
      ensures r <= n && (r > 0 ==> r <= |old(incoming)| && data == old(incoming)[..r] && incoming == old(incoming)[r..])
      ensures r <= 0 ==> incoming == old(incoming) && (incoming != [] ==> cut)
    {
      r :| -1 <= r <= n && r <= |incoming|;
      data := [];
      if r > 0 {
        data := incoming[..r];
        incoming := incoming[r..];
      } else {
        cut := cut || incoming != [];
      }
    }

    /** `write`: at least one and at most all of the bytes, or w <= 0 on an error. */
    method Write(data: seq<byte>) returns (w: int)
      requires data != []
      modifies this`outgoing, this`broken
      ensures w <= 0 ==> broken
      ensures w <= |data| && outgoing == old(outgoing) + (if w > 0 then data[..w] else [])
    {
      w :| -1 <= w <= |data|;
      if w > 0 {
        outgoing := outgoing + data[..w];
      } else {
        broken := true;
      }
    }
  }

  /** Two adjacent stretches written one after the other are one stretch. */
  lemma Written(was: seq<byte>, at: nat, got: seq<byte>, data: seq<byte>)
    requires at + |got| + |data| <= |was|
    ensures var s := was[..at] + got + was[at + |got|..];
      s[..at + |got|] + data + s[at + |got| + |data|..] == was[..at] + (got + data) + was[at + |got| + |data|..]
  {
    var s := was[..at] + got + was[at + |got|..];
    assert s[..at + |got|] == was[..at] + got;
    assert s[at + |got| + |data|..] == was[at + |got| + |data|..];
  }

  /** One `read` into buf + at. */
  method ReadInto(fd: Socket, buf: array<byte>, at: nat, n: nat) returns (r: int)
    requires 0 < n && at + n <= buf.Length
    modifies fd`incoming, fd`cut, buf
    ensures r <= n && (r > 0 ==> r <= |old(fd.incoming)| && fd.incoming == old(fd.incoming)[r..])
    ensures r > 0 ==> buf[..] == old(buf[..at]) + old(fd.incoming)[..r] + old(buf[..])[at + r..]
    ensures r <= 0 ==> fd.incoming == old(fd.incoming) && (fd.incoming != [] ==> fd.cut)
  {
    var data;
    r, data := fd.Read(n);
    if r > 0 {
      MemCpy(buf, at, data);
    }
  }

  /** Reads exactly len bytes into buf + at; 1 on success. */
  method ReadExact(fd: Socket, buf: array<byte>, at: nat, len: nat) returns (r: int)
    requires at + len <= buf.Length
    modifies fd`incoming, fd`cut, buf
    ensures r != 1 ==> fd.cut || |old(fd.incoming)| < len
    ensures r == 1 ==> len <= |old(fd.incoming)| && fd.incoming == old(fd.incoming)[len..]
    ensures r == 1 ==> buf[..] == old(buf[..at]) + old(fd.incoming)[..len] + old(buf[at + len..])
  {
    var got := 0;
    ghost var was, all := buf[..], fd.incoming;
    while got < len
      invariant 0 <= got <= len && got <= |all| && fd.incoming == all[got..]
      invariant buf[..] == was[..at] + all[..got] + was[at + got..]
    {
      var n := ReadInto(fd, buf, at + got, len - got);
      if n <= 0 {
        return n;
      }
      Written(was, at, all[..got], all[got..][..n]);
      assert all[..got + n] == all[..got] + all[got..][..n];
      got := got + n;
    }
    r := 1;
  }

  /** Writes all the bytes; 0 on success. */
  method WriteExact(fd: Socket, data: seq<byte>) returns (r: int)
    modifies fd`outgoing, fd`broken
    ensures r != 0 ==> fd.broken
    ensures r == 0 ==> fd.outgoing == old(fd.outgoing) + data
    ensures r == 0 || r == -1
  {
    var sent := 0;
    ghost var was := fd.outgoing;
    while sent < |data|
      invariant 0 <= sent <= |data| && fd.outgoing == was + data[..sent]
    {
      var w := fd.Write(data[sent..]);
      if w <= 0 {
        return -1;
      }
      assert data[..sent + w] == data[..sent] + data[sent..][..w];
      sent := sent + w;
    }
    assert data[..sent] == data;
    r := 0;
  }
}
