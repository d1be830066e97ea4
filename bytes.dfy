/**
 * Byte strings as the gateway handles them: Python-style clipped slices, fixed-width
 * little-endian integers (`struct` formats `<L` and `<Q`), and buffers built by writing
 * pieces one after another.
 */
module Bytes {

  type byte = x: int | 0 <= x < 256

  /** A 32-byte digest (block and transaction hashes). */
  type Hash = s: seq<byte> | |s| == 32 witness seq(32, _ => 0)

  function Zeros(n: nat): (r: seq<byte>)
    ensures |r| == n && forall k :: 0 <= k < n ==> r[k] == 0
  {
    seq(n, _ => 0)
  }

  /** Python's `s[i:j]` on a bytes-like object: out-of-range bounds are clipped, never an error. */
  function Slice<T>(s: seq<T>, i: nat, j: nat): (r: seq<T>)
    ensures i <= j <= |s| ==> r == s[i..j]
    ensures j <= i || |s| <= i ==> r == []
    ensures i <= |s| <= j ==> r == s[i..]
  {
    var hi := if j <= |s| then j else |s|;
    if i <= hi then s[i..hi] else []
  }

  function Pow256(width: nat): (r: nat)
    ensures r >= 1
  {
    if width == 0 then 1 else 256 * Pow256(width - 1)
  }

  /** `n` packed as `width` little-endian bytes. */
  function LittleEndian(n: nat, width: nat): (r: seq<byte>)
    requires n < Pow256(width)
    ensures |r| == width
  {
    if width == 0 then [] else [n % 256] + LittleEndian(n / 256, width - 1)
  }

  /** The unsigned integer that little-endian bytes `s` stand for. */
  function FromLittleEndian(s: seq<byte>): nat
  {
    if s == [] then 0 else s[0] + 256 * FromLittleEndian(s[1..])
  }

  /** Unpacking a packed integer gives the integer back. */
  lemma {:induction false} LittleEndianRoundTrip(n: nat, width: nat)
    requires n < Pow256(width)
    ensures FromLittleEndian(LittleEndian(n, width)) == n
  {
    if width > 0 {
      LittleEndianRoundTrip(n / 256, width - 1);
      assert LittleEndian(n, width)[1..] == LittleEndian(n / 256, width - 1);
    }
  }

  /** The bytes of `pieces` written one after another. */
  function Concat(pieces: seq<seq<byte>>): seq<byte>
  {
    if pieces == [] then [] else Concat(pieces[..|pieces| - 1]) + pieces[|pieces| - 1]
  }

  /** The sum of the lengths of `pieces`, as the gateway's `size +=` bookkeeping computes it. */
  function TotalLength(pieces: seq<seq<byte>>): nat
  {
    if pieces == [] then 0 else TotalLength(pieces[..|pieces| - 1]) + |pieces[|pieces| - 1]|
  }

  lemma {:induction false} ConcatLength(pieces: seq<seq<byte>>)
    ensures |Concat(pieces)| == TotalLength(pieces)
  {
    if pieces != [] {
      ConcatLength(pieces[..|pieces| - 1]);
    }
  }

  lemma ConcatAppend(pieces: seq<seq<byte>>, p: seq<byte>)
    ensures Concat(pieces + [p]) == Concat(pieces) + p
    ensures TotalLength(pieces + [p]) == TotalLength(pieces) + |p|
  {
    assert (pieces + [p])[..|pieces|] == pieces;
  }

  lemma {:induction false} ConcatCons(p: seq<byte>, pieces: seq<seq<byte>>)
    ensures Concat([p] + pieces) == p + Concat(pieces)
    ensures TotalLength([p] + pieces) == |p| + TotalLength(pieces)
  {
    if pieces == [] {
      assert [p] + pieces == [] + [p];
      ConcatAppend([], p);
    } else {
      var init := pieces[..|pieces| - 1];
      var last := pieces[|pieces| - 1];
      assert pieces == init + [last];
      assert [p] + pieces == ([p] + init) + [last];
      ConcatCons(p, init);
      ConcatAppend([p] + init, last);
      ConcatAppend(init, last);
    }
  }

  lemma {:induction false} TotalLengthPrefix(pieces: seq<seq<byte>>, i: nat)
    requires i <= |pieces|
    ensures TotalLength(pieces[..i]) <= TotalLength(pieces)
  {
    if i < |pieces| {
      TotalLengthPrefix(pieces[..|pieces| - 1], i);
      assert pieces[..|pieces| - 1][..i] == pieces[..i];
    } else {
      assert pieces[..i] == pieces;
    }
  }

  /** `buf[off:off + len(s)] = s` on a bytearray: the bytes before and after the window are kept. */
  method WriteAt(a: array<byte>, off: nat, s: seq<byte>)
    requires off + |s| <= a.Length
    modifies a
    ensures a[..off + |s|] == old(a[..off]) + s
    ensures a[off + |s|..] == old(a[off + |s|..])
  {
    forall k | off <= k < off + |s| {
      a[k] := s[k - off];
    }
    assert a[..off + |s|] == a[..off] + a[off..off + |s|];
  }

  /**
   * Allocates a zeroed buffer of `size` bytes and copies `pieces` into it back to back,
   * advancing a write offset (the `block[off:next_off] = blob` loops of the converter).
   * The returned offset is the sum of the pieces' lengths; bytes past it stay zero.
   */
  method WritePieces(pieces: seq<seq<byte>>, size: nat) returns (buf: seq<byte>, written: nat)
    requires TotalLength(pieces) <= size
    ensures written == TotalLength(pieces)
    ensures |buf| == size
    ensures buf[..written] == Concat(pieces)
    ensures buf[written..] == Zeros(size - written)
  {
    var a := new byte[size](_ => 0);
    var off := 0;
    var i := 0;
    while i < |pieces|
      invariant 0 <= i <= |pieces|
      invariant off == TotalLength(pieces[..i]) <= size
      invariant a[..off] == Concat(pieces[..i])
      invariant forall k :: off <= k < size ==> a[k] == 0
    {
      var piece := pieces[i];
      TotalLengthPrefix(pieces, i + 1);
      ConcatAppend(pieces[..i], piece);
      assert pieces[..i + 1] == pieces[..i] + [piece];
      var nextOff := off + |piece|;
      WriteAt(a, off, piece);
      assert forall k :: nextOff <= k < size ==> a[k] == a[nextOff..][k - nextOff];
      off := nextOff;
      i := i + 1;
    }
    assert pieces[..i] == pieces;
    buf, written := a[..], off;
    assert buf[written..] == Zeros(size - written);
  }

  /**
   * `item` occurs in `buf` at position `start`. Stated byte by byte, so that a proof
   * unfolds it only as far as it needs to; `AtIff` gives the slice form.
   */
  predicate At<T(==)>(buf: seq<T>, start: nat, item: seq<T>)
    decreases |item|
  {
    if item == [] then start <= |buf|
    else start < |buf| && buf[start] == item[0] && At(buf, start + 1, item[1..])
  }

  lemma {:induction false} AtIff<T>(buf: seq<T>, start: nat, item: seq<T>)
    ensures At(buf, start, item) <==> start + |item| <= |buf| && buf[start..start + |item|] == item
    decreases |item|
  {
    if item != [] {
      AtIff(buf, start + 1, item[1..]);
      if start + |item| <= |buf| {
        assert buf[start..start + |item|] == [buf[start]] + buf[start + 1..start + |item|];
      }
    }
  }

  /** Two items written one after the other occur one after the other. */
  lemma AtSplit<T>(buf: seq<T>, start: nat, a: seq<T>, b: seq<T>)
    requires At(buf, start, a + b)
    ensures At(buf, start, a) && At(buf, start + |a|, b)
  {
    AtIff(buf, start, a + b);
    AtIff(buf, start, a);
    AtIff(buf, start + |a|, b);
    assert buf[start..start + |a|] == (a + b)[..|a|] == a;
    assert buf[start + |a|..start + |a| + |b|] == (a + b)[|a|..] == b;
  }

  /** The pieces of a concatenation occur in it where they were put. */
  lemma AtConcat(a: seq<byte>, b: seq<byte>)
    ensures At(a + b, 0, a) && At(a + b, |a|, b)
  {
    AtIff(a + b, 0, a + b);
    AtSplit(a + b, 0, a, b);
  }

  /** The two middle pieces of a four-piece concatenation occur where they were put. */
  lemma AtMiddle(a: seq<byte>, b: seq<byte>, c: seq<byte>, d: seq<byte>)
    ensures At(a + b + c + d, |a|, b) && At(a + b + c + d, |a| + |b|, c)
  {
    AtConcat(a + b + c, d);
    AtSplit(a + b + c + d, 0, a + b, c);
    AtSplit(a + b + c + d, 0, a, b);
  }

  /** A part of an item occurs within the item's occurrence. */
  lemma AtPart<T>(buf: seq<T>, start: nat, item: seq<T>, i: nat, j: nat)
    requires At(buf, start, item) && i <= j <= |item|
    ensures start + j <= |buf| && buf[start + i..start + j] == item[i..j]
  {
    AtIff(buf, start, item);
    forall k | 0 <= k < j - i
      ensures buf[start + i..start + j][k] == item[i..j][k]
    {
      assert buf[start + i + k] == buf[start..start + |item|][i + k];
    }
  }

  /** The bytes at an occurrence are the item, as a Python slice reads them. */
  lemma AtSlice(buf: seq<byte>, start: nat, item: seq<byte>)
    requires At(buf, start, item)
    ensures Slice(buf, start, start + |item|) == item
  {
    AtIff(buf, start, item);
  }

  /** No element occurs twice. */
  predicate Distinct<T(==)>(s: seq<T>)
  {
    forall i, j :: 0 <= i < j < |s| ==> s[i] != s[j]
  }

  function Elements<T(==)>(s: seq<T>): set<T>
  {
    set x | x in s
  }
}
