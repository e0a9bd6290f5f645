/**
 * ByteUtil as the request builders use it: a growing byte buffer that, when
 * built with PenCommV2.Escape, stuffs every byte put through it, while
 * `Put(b, false)` writes a frame marker as it is.
 */
module Buffers {
  import opened Base
  import opened Codec

  /** The bytes a ByteUtil writes for a run of escaped puts. */
  function Stuff(escaping: bool, s: seq<byte>): (r: seq<byte>)
    ensures !escaping ==> r == s
  {
    if escaping then EscapeAll(s) else s
  }

  lemma StuffAppend(escaping: bool, a: seq<byte>, b: seq<byte>)
    ensures Stuff(escaping, a + b) == Stuff(escaping, a) + Stuff(escaping, b)
  {
    if escaping {
      EscapeAllAppend(a, b);
    }
  }

  function Zeros(n: nat): (r: seq<byte>)
    ensures |r| == n && forall i :: 0 <= i < n ==> r[i] == 0
  {
    seq(n, _ => 0)
  }

  /** `Put(bytes, n)`: the bytes cut or zero-padded to exactly n. */
  function Fixed(bs: seq<byte>, n: nat): (r: seq<byte>)
    ensures |r| == n
    ensures forall i :: 0 <= i < n ==> r[i] == if i < |bs| then bs[i] else 0
  {
    if |bs| >= n then bs[..n] else bs + Zeros(n - |bs|)
  }

  /** Little-endian 4-byte images of a run of ints, in order (a PutInt per element). */
  function Ints(xs: seq<int>): (r: seq<byte>)
    ensures |r| == 4 * |xs|
    decreases |xs|
  {
    if xs == [] then [] else Ints(xs[..|xs| - 1]) + LE(xs[|xs| - 1], 4)
  }

  lemma IntsSnoc(p: seq<byte>, xs: seq<int>, i: int)
    requires 0 <= i < |xs|
    ensures p + Ints(xs[..i]) + LE(xs[i], 4) == p + Ints(xs[..i + 1])
  {
    assert xs[..i + 1][..i] == xs[..i];
  }

  class ByteUtil {
    /** Built with the Escape function (true) or plain (false). */
    const escaping: bool
    /** Everything written so far. */
    var wire: seq<byte>
    /** The bytes up to and including the last unescaped put. */
    ghost var settled: seq<byte>
    /** The bytes put through the escape function since then, before stuffing. */
    ghost var pending: seq<byte>

    ghost predicate Valid()
      reads this
    {
      wire == settled + Stuff(escaping, pending)
    }

    constructor(escaping: bool)
      ensures this.escaping == escaping && wire == [] && pending == [] && Valid()
    {
      this.escaping := escaping;
      wire := [];
      settled := [];
      pending := [];
    }

    /** `Put(b, false)`: a frame marker, never stuffed. */
    method PutRaw(b: byte)
      modifies this
      ensures wire == old(wire) + [b] && settled == wire && pending == [] && Valid()
    {
      wire := wire + [b];
      settled := wire;
      pending := [];
    }

    /** `Put(b)`: one byte through the escape function. */
    method Put(b: byte)
      requires Valid()
      modifies this
      ensures pending == old(pending) + [b] && settled == old(settled) && Valid()
    {
      StuffAppend(escaping, pending, [b]);
      wire := wire + Stuff(escaping, [b]);
      pending := pending + [b];
    }

    /** `Put(bytes)`: the bytes one by one. */
    method PutBytes(bs: seq<byte>)
      requires Valid()
      modifies this
      ensures pending == old(pending) + bs && settled == old(settled) && Valid()
    {
      var i := 0;
      while i < |bs|
        invariant 0 <= i <= |bs|
        invariant pending == old(pending) + bs[..i] && settled == old(settled) && Valid()
      {
        Put(bs[i]);
        assert bs[..i + 1] == bs[..i] + [bs[i]];
        i := i + 1;
      }
      assert bs[..i] == bs;
    }

    /** `Put(bytes, n)`. */
    method PutFixed(bs: seq<byte>, n: nat)
      requires Valid()
      modifies this
      ensures pending == old(pending) + Fixed(bs, n) && settled == old(settled) && Valid()
    {
      PutBytes(Fixed(bs, n));
    }

    /** `PutNull(n)`: n zero bytes. */
    method PutNull(n: nat)
      requires Valid()
      modifies this
      ensures pending == old(pending) + Zeros(n) && settled == old(settled) && Valid()
    {
      PutBytes(Zeros(n));
    }

    /** `PutShort(v)`: the two low bytes of v, low byte first. */
    method PutShort(v: int)
      requires Valid()
      modifies this
      ensures pending == old(pending) + LE(v, 2) && settled == old(settled) && Valid()
    {
      PutBytes(LE(v, 2));
    }

    /** `PutInt(v)`: the four low bytes of v, low byte first. */
    method PutInt(v: int)
      requires Valid()
      modifies this
      ensures pending == old(pending) + LE(v, 4) && settled == old(settled) && Valid()
    {
      PutBytes(LE(v, 4));
    }

    /** `PutLong(v)`: the eight low bytes of v, low byte first. */
    method PutLong(v: int)
      requires Valid()
      modifies this
      ensures pending == old(pending) + LE(v, 8) && settled == old(settled) && Valid()
    {
      PutBytes(LE(v, 8));
    }
  }
}
