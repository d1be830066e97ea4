/**
 * Recursive Length Prefix encoding as Appendix B of the Ethereum Yellow Paper defines it,
 * restricted to what the NewBlock message builder and its accessors use: minimal
 * big-endian integers, string and list length prefixes, reading a prefix back, and
 * decoding an integer item.
 *
 * Decoding reads prefixes without rejecting non-canonical forms, and reads a long length
 * through a clipped slice, so a truncated buffer gives a short length rather than an
 * error; reading a prefix byte past the end of the buffer is an error (`None`).
 */
module Rlp {
  import opened Wrappers
  import opened Bytes

  /** BE(n): the minimal big-endian bytes of `n`, empty for zero. */
  function BigEndian(n: nat): (r: seq<byte>)
    ensures n == 0 <==> r == []
    ensures r != [] ==> r[0] != 0
  {
    if n == 0 then [] else BigEndian(n / 256) + [n % 256]
  }

  /** `big_endian_to_int`. */
  function FromBigEndian(s: seq<byte>): nat
  {
    if s == [] then 0 else FromBigEndian(s[..|s| - 1]) * 256 + s[|s| - 1]
  }

  lemma {:induction false} BigEndianRoundTrip(n: nat)
    ensures FromBigEndian(BigEndian(n)) == n
  {
    if n > 0 {
      BigEndianRoundTrip(n / 256);
      var s := BigEndian(n);
      assert s[..|s| - 1] == BigEndian(n / 256);
    }
  }

  /** A number below 256^w takes at most w big-endian bytes. */
  lemma {:induction false} BigEndianLength(n: nat, w: nat)
    requires n < Pow256(w)
    ensures |BigEndian(n)| <= w
  {
    if n > 0 {
      assert w > 0;
      BigEndianLength(n / 256, w - 1);
    }
  }

  /** Every length a prefix carries is below 256^8 = 2^64. */
  const MaxItemLength: nat := 0x1_0000_0000_0000_0000

  lemma MaxItemLengthIsPow256()
    ensures Pow256(8) == MaxItemLength
  {
  }

  /** Offsets of the short string and short list prefixes. */
  const StringOffset: nat := 0x80
  const ListOffset: nat := 0xc0

  /**
   * The prefix for an item payload of `length` bytes: one byte `offset + length` below 56,
   * otherwise `offset + 55 + |BE(length)|` followed by BE(length). Lengths of 256^8 or
   * more cannot be encoded.
   */
  function LengthPrefix(length: nat, offset: nat): (r: Option<seq<byte>>)
    requires offset == StringOffset || offset == ListOffset
    ensures r.Some? <==> length < MaxItemLength
    ensures r.Some? ==> 1 <= |r.value| <= 9
  {
    if length < 56 then Some([offset + length])
    else if length < MaxItemLength then
      MaxItemLengthIsPow256();
      BigEndianLength(length, 8);
      Some([offset + 55 + |BigEndian(length)|] + BigEndian(length))
    else None
  }

  /** `get_length_prefix_list`. */
  function ListPrefix(length: nat): (r: Option<seq<byte>>)
    ensures r.Some? <==> length < MaxItemLength
  {
    LengthPrefix(length, ListOffset)
  }

  /** A list item: the list prefix followed by the encoded items. */
  function EncodeList(payload: seq<byte>): (r: Option<seq<byte>>)
    ensures r.Some? <==> |payload| < MaxItemLength
  {
    match ListPrefix(|payload|)
    case None => None
    case Some(p) => Some(p + payload)
  }

  /** A string item: one byte below 0x80 stands for itself, otherwise prefix and bytes. */
  function EncodeBytes(b: seq<byte>): (r: Option<seq<byte>>)
    ensures r.Some? <==> |b| < MaxItemLength
  {
    if |b| == 1 && b[0] < 0x80 then Some(b)
    else match LengthPrefix(|b|, StringOffset)
      case None => None
      case Some(p) => Some(p + b)
  }

  /** `encode_int`: the string item of BE(n). */
  function EncodeInt(n: nat): (r: Option<seq<byte>>)
  {
    EncodeBytes(BigEndian(n))
  }

  /** Every integer the gateway handles has an encoding: BE(n) of n < 256^8 has at most 8 bytes. */
  lemma EncodeIntDefined(n: nat)
    requires n < MaxItemLength
    ensures EncodeInt(n).Some?
  {
    MaxItemLengthIsPow256();
    BigEndianLength(n, 8);
  }

  /** What `consume_length_prefix` reports: the item kind, payload length and absolute payload start. */
  datatype Prefix = Prefix(isList: bool, length: nat, contentStart: nat)

  /** The big-endian number in `buf[from:from + count]`, clipped as a Python slice is. */
  function BigEndianAt(buf: seq<byte>, from: nat, count: nat): nat
    decreases count
  {
    if count == 0 || |buf| <= from then 0
    else if |buf| < from + count then BigEndianAt(buf, from, |buf| - from)
    else BigEndianAt(buf, from, count - 1) * 256 + buf[from + count - 1]
  }

  /** The clipped read agrees with decoding the clipped slice. */
  lemma {:induction false} BigEndianAtSlice(buf: seq<byte>, from: nat, count: nat)
    ensures BigEndianAt(buf, from, count) == FromBigEndian(Slice(buf, from, from + count))
    decreases count
  {
    if count == 0 || |buf| <= from {
    } else if |buf| < from + count {
      BigEndianAtSlice(buf, from, |buf| - from);
    } else {
      BigEndianAtSlice(buf, from, count - 1);
      var s := Slice(buf, from, from + count);
      assert s[..|s| - 1] == Slice(buf, from, from + count - 1);
    }
  }

  /** `consume_length_prefix(buf, start)`; `None` when `start` is past the end of `buf`. */
  function ConsumeLengthPrefix(buf: seq<byte>, start: nat): Option<Prefix>
  {
    if start >= |buf| then None
    else
      var b0 := buf[start];
      if b0 < 0x80 then Some(Prefix(false, 1, start))
      else if b0 < 0xb8 then Some(Prefix(false, b0 - 0x80, start + 1))
      else if b0 < 0xc0 then
        var ll := b0 - 0xb7;
        Some(Prefix(false, BigEndianAt(buf, start + 1, ll), start + 1 + ll))
      else if b0 < 0xf8 then Some(Prefix(true, b0 - 0xc0, start + 1))
      else
        var ll := b0 - 0xf7;
        Some(Prefix(true, BigEndianAt(buf, start + 1, ll), start + 1 + ll))
  }

  datatype Decoded = Decoded(value: nat, length: nat)

  /** `decode_int(buf, start)`: the integer item at `start` and the item's total length. */
  function DecodeInt(buf: seq<byte>, start: nat): Option<Decoded>
  {
    match ConsumeLengthPrefix(buf, start)
    case None => None
    case Some(p) =>
      Some(Decoded(BigEndianAt(buf, p.contentStart, p.length), p.contentStart - start + p.length))
  }

  /** A one-byte prefix `offset + length` reads back as `length`, payload right after it. */
  lemma ReadShortPrefix(buf: seq<byte>, start: nat, offset: nat, length: nat)
    requires offset == StringOffset || offset == ListOffset
    requires length < 56 && start < |buf| && buf[start] == offset + length
    ensures ConsumeLengthPrefix(buf, start) == Some(Prefix(offset == ListOffset, length, start + 1))
  {
  }

  /** A prefix `offset + 55 + ll` followed by `ll` bytes of value `v` reads back as `v`. */
  lemma ReadLongPrefix(buf: seq<byte>, start: nat, offset: nat, ll: nat, v: nat)
    requires offset == StringOffset || offset == ListOffset
    requires 1 <= ll <= 8
    requires start < |buf| && buf[start] == offset + 55 + ll
    requires BigEndianAt(buf, start + 1, ll) == v
    ensures ConsumeLengthPrefix(buf, start) == Some(Prefix(offset == ListOffset, v, start + 1 + ll))
  {
  }

  /** The shape of a long prefix. */
  lemma LongPrefixShape(length: nat, offset: nat)
    requires offset == StringOffset || offset == ListOffset
    requires 56 <= length < MaxItemLength
    ensures var be := BigEndian(length);
      && 1 <= |be| <= 8
      && LengthPrefix(length, offset).value == [offset + 55 + |be|] + be
  {
    MaxItemLengthIsPow256();
    BigEndianLength(length, 8);
  }

  /**
   * Reading back a length prefix `p`, wherever it sits in a buffer, yields the length it
   * encodes and the position right after it.
   */
  lemma ConsumeEncodedPrefix(buf: seq<byte>, start: nat, length: nat, offset: nat, p: seq<byte>)
    requires offset == StringOffset || offset == ListOffset
    requires LengthPrefix(length, offset) == Some(p)
    requires At(buf, start, p)
    ensures ConsumeLengthPrefix(buf, start) == Some(Prefix(offset == ListOffset, length, start + |p|))
  {
    if length < 56 {
      ReadShortPrefix(buf, start, offset, length);
    } else {
      ConsumeLongPrefix(buf, start, length, offset, p);
    }
  }

  lemma ConsumeLongPrefix(buf: seq<byte>, start: nat, length: nat, offset: nat, p: seq<byte>)
    requires offset == StringOffset || offset == ListOffset
    requires 56 <= length && LengthPrefix(length, offset) == Some(p)
    requires At(buf, start, p)
    ensures ConsumeLengthPrefix(buf, start) == Some(Prefix(offset == ListOffset, length, start + |p|))
  {
    var be := BigEndian(length);
    LongPrefixShape(length, offset);
    LongPrefixAt(buf, start, [offset + 55 + |be|], be);
    BigEndianRoundTrip(length);
    ReadLongPrefix(buf, start, offset, |be|, length);
  }

  /** A long prefix in a buffer: its first byte, then the big-endian length it carries. */
  lemma LongPrefixAt(buf: seq<byte>, start: nat, first: seq<byte>, be: seq<byte>)
    requires |first| == 1 && At(buf, start, first + be)
    ensures start < |buf| && buf[start] == first[0]
    ensures BigEndianAt(buf, start + 1, |be|) == FromBigEndian(be)
  {
    AtSplit(buf, start, first, be);
    BigEndianAtItem(buf, start + 1, be);
  }

  /** The big-endian integer read at an occurrence of `be` is the one `be` stands for. */
  lemma BigEndianAtItem(buf: seq<byte>, from: nat, be: seq<byte>)
    requires At(buf, from, be)
    ensures BigEndianAt(buf, from, |be|) == FromBigEndian(be)
  {
    AtSlice(buf, from, be);
    BigEndianAtSlice(buf, from, |be|);
  }

  /** Once the prefix of a string item is read, the integer is the big-endian value of its payload. */
  lemma DecodeAt(buf: seq<byte>, start: nat, be: seq<byte>, prefixLength: nat)
    requires ConsumeLengthPrefix(buf, start) == Some(Prefix(false, |be|, start + prefixLength))
    requires At(buf, start + prefixLength, be)
    ensures DecodeInt(buf, start).Some?
    ensures DecodeInt(buf, start).value.value == FromBigEndian(be)
    ensures DecodeInt(buf, start).value.length == prefixLength + |be|
  {
    AtSlice(buf, start + prefixLength, be);
    BigEndianAtSlice(buf, start + prefixLength, |be|);
  }

  /** Decoding a string item as an integer gives the big-endian value of its payload. */
  lemma DecodeStringItem(buf: seq<byte>, start: nat, be: seq<byte>)
    requires EncodeBytes(be).Some?
    requires At(buf, start, EncodeBytes(be).value)
    ensures DecodeInt(buf, start).Some?
    ensures DecodeInt(buf, start).value.value == FromBigEndian(be)
    ensures DecodeInt(buf, start).value.length == |EncodeBytes(be).value|
  {
    if |be| == 1 && be[0] < 0x80 {
      DecodeAt(buf, start, be, 0);
    } else {
      var p := LengthPrefix(|be|, StringOffset).value;
      DecodePrefixedString(buf, start, be, p);
    }
  }

  lemma DecodePrefixedString(buf: seq<byte>, start: nat, be: seq<byte>, p: seq<byte>)
    requires LengthPrefix(|be|, StringOffset) == Some(p)
    requires At(buf, start, p + be)
    ensures DecodeInt(buf, start).Some?
    ensures DecodeInt(buf, start).value.value == FromBigEndian(be)
    ensures DecodeInt(buf, start).value.length == |p| + |be|
  {
    AtSplit(buf, start, p, be);
    ConsumeEncodedPrefix(buf, start, |be|, StringOffset, p);
    DecodeAt(buf, start, be, |p|);
  }

  /** Decoding an encoded integer, wherever it sits in a buffer, gives the integer and the item's length. */
  lemma DecodeEncodedInt(buf: seq<byte>, start: nat, n: nat)
    requires EncodeInt(n).Some?
    requires At(buf, start, EncodeInt(n).value)
    ensures DecodeInt(buf, start).Some?
    ensures DecodeInt(buf, start).value.value == n
    ensures DecodeInt(buf, start).value.length == |EncodeInt(n).value|
  {
    DecodeStringItem(buf, start, BigEndian(n));
    BigEndianRoundTrip(n);
  }

  /**
   * Reading the prefix of an encoded list gives where its payload starts and how long it
   * is, and the payload is there.
   */
  lemma ConsumeEncodedList(buf: seq<byte>, start: nat, payload: seq<byte>)
    requires EncodeList(payload).Some?
    requires At(buf, start, EncodeList(payload).value)
    ensures ConsumeLengthPrefix(buf, start)
      == Some(Prefix(true, |payload|, start + |EncodeList(payload).value| - |payload|))
    ensures At(buf, start + |EncodeList(payload).value| - |payload|, payload)
  {
    var p := ListPrefix(|payload|).value;
    AtSplit(buf, start, p, payload);
    ConsumeEncodedPrefix(buf, start, |payload|, ListOffset, p);
  }
}
