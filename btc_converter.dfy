/**
 * The gateway's Bitcoin block codec. A block is compressed into a bloXroute ("bx")
 * block by replacing every transaction the transaction service knows by a one-byte
 * indicator and listing the short ids of those transactions after the block:
 *
 *   short-id offset (8 bytes, little-endian) ‖ block header ‖ transaction pieces ‖ short ids
 *
 * where the short-id section is a 4-byte little-endian count followed by one 4-byte
 * little-endian word per short id. Decompression reverses this with the transaction
 * service's contents. Compact blocks (BIP 152) are rebuilt into full blocks and, once
 * every transaction is known, compressed the same way.
 *
 * Hash functions, SipHash and the transaction-size parser are functions fixed at
 * construction of the converter.
 */
module BtcConverter {
  import opened Wrappers
  import opened Bytes
  import opened TxService

  /** `BTC_SHORT_ID_INDICATOR`: the byte that stands for a transaction given by short id. */
  const ShortIdIndicator: byte := 0xff
  /** `UL_ULL_SIZE_IN_BYTES`: the width of the short-id offset field; the block begins after it. */
  const OffsetFieldSize: nat := 8
  /** `BTC_HDR_COMMON_OFF`: magic, command, payload length and checksum of a Bitcoin message. */
  const HdrCommonOff: nat := 24
  /** `BTC_HEADER_MINUS_CHECKSUM`: where the 4-byte checksum starts in a message header. */
  const HeaderMinusChecksum: nat := 20
  /** `BTC_BLOCK_HDR_SIZE`. */
  const BlockHdrSize: nat := 80
  /** The width of a serialised short id and of the short-id count. */
  const ShortIdWidth: nat := 4
  /** `BtcMessageType.BLOCK`, `b"block"`. */
  const BlockCommand: seq<byte> := [0x62, 0x6c, 0x6f, 0x63, 0x6b]

  type u32 = n: nat | n < 0x1_0000_0000

  /** A SipHash-2-4 digest. */
  type SipDigest = s: seq<byte> | |s| == 8 witness seq(8, _ => 0)

  /** A transaction size as the transaction parser reports it: never zero. */
  type TxSize = n: nat | n > 0 witness 1

  /** A Bitcoin `block` message: everything up to and including the transaction count, then the transactions. */
  datatype BtcBlock = BtcBlock(header: seq<byte>, txns: seq<seq<byte>>)

  function BlockBytes(b: BtcBlock): (r: seq<byte>)
    ensures |r| == |b.header| + TotalLength(b.txns)
  {
    ConcatLength(b.txns);
    b.header + Concat(b.txns)
  }

  /** Every short id fits the 4-byte serialised form. */
  predicate FitsShortIdWidth(sids: seq<nat>)
  {
    forall k :: 0 <= k < |sids| ==> sids[k] < Pow256(ShortIdWidth)
  }

  /** `serialize_short_ids_into_bytes`: the count, then each short id, as 4-byte little-endian words. */
  function SerializeShortIds(sids: seq<nat>): (r: seq<byte>)
    requires |sids| < Pow256(ShortIdWidth) && FitsShortIdWidth(sids)
    ensures |r| == ShortIdWidth * (|sids| + 1)
  {
    LittleEndian(|sids|, ShortIdWidth) + ShortIdWords(sids)
  }

  function ShortIdWords(sids: seq<nat>): (r: seq<byte>)
    requires FitsShortIdWidth(sids)
    ensures |r| == ShortIdWidth * |sids|
  {
    if sids == [] then [] else LittleEndian(sids[0], ShortIdWidth) + ShortIdWords(sids[1..])
  }

  /** The n-th 4-byte word of a serialised list. */
  function WordAt(buf: seq<byte>, off: nat): (r: Option<nat>)
    ensures r.Some? <==> off + ShortIdWidth <= |buf|
  {
    if off + ShortIdWidth <= |buf| then Some(FromLittleEndian(buf[off..off + ShortIdWidth])) else None
  }

  /** `count` 4-byte words read back from `off` on. */
  function ReadWords(buf: seq<byte>, off: nat, count: nat): (r: Option<seq<nat>>)
    ensures r.Some? ==> |r.value| == count
    decreases count
  {
    if count == 0 then Some([])
    else
      match WordAt(buf, off)
      case None => None
      case Some(w) =>
        match ReadWords(buf, off + ShortIdWidth, count - 1)
        case None => None
        case Some(ws) => Some([w] + ws)
  }

  /** `deserialize_short_ids_from_buffer`: the count at `off`, then that many short ids. */
  function DeserializeShortIds(buf: seq<byte>, off: nat): Option<seq<nat>>
  {
    match WordAt(buf, off)
    case None => None
    case Some(count) => ReadWords(buf, off + ShortIdWidth, count)
  }

  /** Bitcoin's CompactSize integer (`btc_varint_to_int`): the value and the number of bytes it takes. */
  function ReadCompactSize(buf: seq<byte>, off: nat): (r: Option<(nat, nat)>)
    ensures r.Some? ==> off + r.value.1 <= |buf| && r.value.1 in {1, 3, 5, 9}
  {
    if off >= |buf| then None
    else
      var width := if buf[off] < 0xfd then 0 else if buf[off] == 0xfd then 2 else if buf[off] == 0xfe then 4 else 8;
      if width == 0 then Some((buf[off], 1))
      else if off + 1 + width <= |buf| then Some((FromLittleEndian(buf[off + 1..off + 1 + width]), 1 + width))
      else None
  }

  /** `pack_int_to_btc_varint`. */
  function CompactSize(n: nat): (r: seq<byte>)
    requires n < Pow256(8)
    ensures ReadCompactSize(r, 0) == Some((n, |r|))
  {
    if n < 0xfd then [n]
    else if n < 0x1_0000 then CompactSizeWide(n, 0xfd, 2); [0xfd] + LittleEndian(n, 2)
    else if n < 0x1_0000_0000 then CompactSizeWide(n, 0xfe, 4); [0xfe] + LittleEndian(n, 4)
    else CompactSizeWide(n, 0xff, 8); [0xff] + LittleEndian(n, 8)
  }

  lemma CompactSizeWide(n: nat, marker: byte, width: nat)
    requires (marker, width) in {(0xfd, 2), (0xfe, 4), (0xff, 8)} && n < Pow256(width)
    ensures ReadCompactSize([marker] + LittleEndian(n, width), 0) == Some((n, 1 + width))
  {
    var r := [marker] + LittleEndian(n, width);
    assert r[1..1 + width] == LittleEndian(n, width);
    LittleEndianRoundTrip(n, width);
  }

  /** A Bitcoin message header: magic, the command padded to 12 bytes, payload length and checksum. */
  function MessageHeader(magic: u32, command: seq<byte>, length: nat, checksum: seq<byte>): (r: seq<byte>)
    requires |command| <= 12 && length < Pow256(4) && |checksum| == 4
    ensures |r| == HdrCommonOff
    ensures r[HeaderMinusChecksum..] == checksum
  {
    LittleEndian(magic, 4) + command + Zeros(12 - |command|) + LittleEndian(length, 4) + checksum
  }

  lemma MessageHeaderFields(magic: u32, command: seq<byte>, length: nat, checksum: seq<byte>)
    requires |command| <= 12 && length < Pow256(4) && |checksum| == 4
    ensures var h := MessageHeader(magic, command, length, checksum);
      && FromLittleEndian(h[..4]) == magic
      && h[4..4 + |command|] == command
      && (forall k :: 4 + |command| <= k < 16 ==> h[k] == 0)
      && FromLittleEndian(h[16..20]) == length
  {
    var h := MessageHeader(magic, command, length, checksum);
    assert h[..4] == LittleEndian(magic, 4);
    assert h[16..20] == LittleEndian(length, 4);
    LittleEndianRoundTrip(magic, 4);
    LittleEndianRoundTrip(length, 4);
  }

  /** Serialised short ids read back word by word give the short ids. */
  lemma {:induction false} ReadWordsAt(buf: seq<byte>, off: nat, sids: seq<nat>)
    requires FitsShortIdWidth(sids) && At(buf, off, ShortIdWords(sids))
    ensures ReadWords(buf, off, |sids|) == Some(sids)
    decreases |sids|
  {
    if sids != [] {
      var word := LittleEndian(sids[0], ShortIdWidth);
      AtSplit(buf, off, word, ShortIdWords(sids[1..]));
      AtIff(buf, off, word);
      LittleEndianRoundTrip(sids[0], ShortIdWidth);
      ReadWordsAt(buf, off + ShortIdWidth, sids[1..]);
      assert [sids[0]] + sids[1..] == sids;
    }
  }

  /** The short-id section, wherever it is written, deserialises to the short ids it was made of. */
  lemma ShortIdsRoundTrip(buf: seq<byte>, off: nat, sids: seq<nat>)
    requires |sids| < Pow256(ShortIdWidth) && FitsShortIdWidth(sids)
    requires At(buf, off, SerializeShortIds(sids))
    ensures DeserializeShortIds(buf, off) == Some(sids)
  {
    var count := LittleEndian(|sids|, ShortIdWidth);
    AtSplit(buf, off, count, ShortIdWords(sids));
    AtIff(buf, off, count);
    LittleEndianRoundTrip(|sids|, ShortIdWidth);
    ReadWordsAt(buf, off + ShortIdWidth, sids);
  }

  /** A CompactSize integer reads the same inside any buffer it is copied into. */
  lemma CompactSizeAt(buf: seq<byte>, off: nat, item: seq<byte>, i: nat)
    requires At(buf, off, item) && ReadCompactSize(item, i).Some?
    ensures ReadCompactSize(buf, off + i) == ReadCompactSize(item, i)
  {
    AtIff(buf, off, item);
    var w := ReadCompactSize(item, i).value.1;
    assert i + w <= |item|;
    assert buf[off + i] == item[i];
    forall k | i + 1 <= k < i + w
      ensures buf[off + k] == item[k]
    {
      assert buf[off..off + |item|][k] == item[k];
    }
    assert buf[off + i + 1..off + i + w] == item[i + 1..i + w];
  }

  /**
   * The code the converter calls but that is not part of this model: `get_txid`,
   * `crypto.bitcoin_hash` (double SHA-256), `hashlib.sha256`, `siphash24` and
   * `get_next_tx_size` (the size of the transaction that starts the given bytes).
   */
  datatype Primitives = Primitives(
    txid: seq<byte> -> Hash,
    bitcoinHash: seq<byte> -> Hash,
    sha256: seq<byte> -> Hash,
    siphash: (seq<byte>, seq<byte>) -> SipDigest,
    txSize: seq<byte> -> TxSize)

  /** What a transaction becomes in a bx block: itself when it has no short id, else the indicator. */
  function TxPiece(p: Primitives, t: TxState, tx: seq<byte>): seq<byte>
  {
    if GetShortId(t, p.txid(tx)) == NullTxSid then tx else [ShortIdIndicator]
  }

  function TxPieces(p: Primitives, t: TxState, txns: seq<seq<byte>>): (r: seq<seq<byte>>)
    ensures |r| == |txns|
  {
    if txns == [] then [] else TxPieces(p, t, txns[..|txns| - 1]) + [TxPiece(p, t, txns[|txns| - 1])]
  }

  lemma {:induction false} TxPiecesAt(p: Primitives, t: TxState, txns: seq<seq<byte>>, k: nat)
    requires k < |txns|
    ensures TxPieces(p, t, txns)[k] == TxPiece(p, t, txns[k])
  {
    var n := |txns| - 1;
    if k < n {
      assert txns[..n][k] == txns[k];
      TxPiecesAt(p, t, txns[..n], k);
    }
  }

  /** The short id a transaction contributes to the short-id section: none when it has none. */
  function SidOf(p: Primitives, t: TxState, tx: seq<byte>): seq<nat>
  {
    var sid := GetShortId(t, p.txid(tx));
    if sid == NullTxSid then [] else [sid]
  }

  /** The short ids of the block's transactions that have one, in block order. */
  function BlockShortIds(p: Primitives, t: TxState, txns: seq<seq<byte>>): seq<nat>
  {
    if txns == [] then [] else SidOf(p, t, txns[0]) + BlockShortIds(p, t, txns[1..])
  }

  lemma {:induction false} BlockShortIdsAppend(p: Primitives, t: TxState, txns: seq<seq<byte>>, tx: seq<byte>)
    ensures BlockShortIds(p, t, txns + [tx]) == BlockShortIds(p, t, txns) + SidOf(p, t, tx)
  {
    if txns == [] {
      assert [tx][1..] == [];
    } else {
      assert (txns + [tx])[1..] == txns[1..] + [tx];
      BlockShortIdsAppend(p, t, txns[1..], tx);
    }
  }

  /** Where the short-id section of the block's bx block starts: after the offset field, header and pieces. */
  function ShortIdOffset(p: Primitives, t: TxState, b: BtcBlock): nat
  {
    OffsetFieldSize + |b.header| + TotalLength(TxPieces(p, t, b.txns))
  }

  /** The block's bx block can be written: the offset fits 8 bytes and the short ids fit 4 bytes each. */
  predicate Compressible(p: Primitives, t: TxState, b: BtcBlock)
  {
    var sids := BlockShortIds(p, t, b.txns);
    ShortIdOffset(p, t, b) < Pow256(OffsetFieldSize) && |sids| < Pow256(ShortIdWidth) && FitsShortIdWidth(sids)
  }

  /** The bx block of a block: short-id offset, header, pieces, serialised short ids. */
  function BxBlock(p: Primitives, t: TxState, b: BtcBlock): seq<byte>
    requires Compressible(p, t, b)
  {
    LittleEndian(ShortIdOffset(p, t, b), OffsetFieldSize) + b.header + Concat(TxPieces(p, t, b.txns))
      + SerializeShortIds(BlockShortIds(p, t, b.txns))
  }

  /**
   * The layout of a bx block: the first 8 bytes give the offset of the short-id section,
   * the header and the pieces follow, and the short-id section holds the short ids and
   * ends the buffer.
   */
  lemma BxBlockLayout(p: Primitives, t: TxState, b: BtcBlock)
    requires Compressible(p, t, b)
    ensures var bx := BxBlock(p, t, b); var sids := BlockShortIds(p, t, b.txns);
      && |bx| == ShortIdOffset(p, t, b) + ShortIdWidth * (|sids| + 1)
      && FromLittleEndian(bx[..OffsetFieldSize]) == ShortIdOffset(p, t, b)
      && At(bx, OffsetFieldSize, b.header)
      && At(bx, OffsetFieldSize + |b.header|, Concat(TxPieces(p, t, b.txns)))
      && DeserializeShortIds(bx, ShortIdOffset(p, t, b)) == Some(sids)
  {
    var offset := LittleEndian(ShortIdOffset(p, t, b), OffsetFieldSize);
    var pieces := Concat(TxPieces(p, t, b.txns));
    var sids := BlockShortIds(p, t, b.txns);
    var section := SerializeShortIds(sids);
    var bx := BxBlock(p, t, b);
    ConcatLength(TxPieces(p, t, b.txns));
    AtMiddle(offset, b.header, pieces, section);
    AtConcat(offset + b.header + pieces, section);
    assert bx[..OffsetFieldSize] == offset;
    LittleEndianRoundTrip(ShortIdOffset(p, t, b), OffsetFieldSize);
    ShortIdsRoundTrip(bx, ShortIdOffset(p, t, b), sids);
  }

  /** Two pieces, a run of pieces and a last piece, written one after another. */
  lemma ConcatAround(first: seq<byte>, second: seq<byte>, pieces: seq<seq<byte>>, last: seq<byte>)
    ensures Concat([first, second] + pieces + [last]) == first + second + Concat(pieces) + last
    ensures TotalLength([first, second] + pieces + [last]) == |first| + |second| + TotalLength(pieces) + |last|
  {
    ConcatCons(first, [second] + pieces);
    ConcatCons(second, pieces);
    ConcatAppend([first, second] + pieces, last);
    assert [first, second] + pieces == [first] + ([second] + pieces);
  }

  /** The pieces `block_to_bx_block` writes, with their total, make up the bx block. */
  lemma BxBlockPieces(p: Primitives, t: TxState, b: BtcBlock, buf: seq<seq<byte>>, sids: seq<nat>)
    requires buf == TxPieces(p, t, b.txns) && sids == BlockShortIds(p, t, b.txns)
    requires Compressible(p, t, b)
    ensures var offsetBuf := LittleEndian(OffsetFieldSize + |b.header| + TotalLength(buf), OffsetFieldSize);
      var pieces := [offsetBuf, b.header] + buf + [SerializeShortIds(sids)];
      && Concat(pieces) == BxBlock(p, t, b)
      && TotalLength(pieces) == OffsetFieldSize + |b.header| + TotalLength(buf) + ShortIdWidth * (|sids| + 1)
  {
    var offsetBuf := LittleEndian(OffsetFieldSize + |b.header| + TotalLength(buf), OffsetFieldSize);
    ConcatAround(offsetBuf, b.header, buf, SerializeShortIds(sids));
  }

  /** One more transaction adds its piece, the piece's bytes and its short id, if any. */
  lemma CompressStep(p: Primitives, t: TxState, txns: seq<seq<byte>>, i: nat)
    requires i < |txns|
    ensures TxPieces(p, t, txns[..i + 1]) == TxPieces(p, t, txns[..i]) + [TxPiece(p, t, txns[i])]
    ensures TotalLength(TxPieces(p, t, txns[..i + 1])) == TotalLength(TxPieces(p, t, txns[..i])) + |TxPiece(p, t, txns[i])|
    ensures BlockShortIds(p, t, txns[..i + 1]) == BlockShortIds(p, t, txns[..i]) + SidOf(p, t, txns[i])
  {
    assert txns[..i + 1] == txns[..i] + [txns[i]];
    assert txns[..i + 1][..i] == txns[..i];
    BlockShortIdsAppend(p, t, txns[..i], txns[i]);
    ConcatAppend(TxPieces(p, t, txns[..i]), TxPiece(p, t, txns[i]));
  }

  /** The transaction loop of `block_to_bx_block`: the pieces, their byte count and the short ids. */
  method CompressTransactions(p: Primitives, txns: seq<seq<byte>>, t: TxState)
      returns (buf: seq<seq<byte>>, size: nat, shortIds: seq<nat>)
    ensures buf == TxPieces(p, t, txns)
    ensures size == TotalLength(buf)
    ensures shortIds == BlockShortIds(p, t, txns)
  {
    buf, size, shortIds := [], 0, [];
    var i := 0;
    while i < |txns|
      invariant 0 <= i <= |txns|
      invariant buf == TxPieces(p, t, txns[..i])
      invariant size == TotalLength(buf)
      invariant shortIds == BlockShortIds(p, t, txns[..i])
    {
      var tx := txns[i];
      CompressStep(p, t, txns, i);
      var shortId := GetShortId(t, p.txid(tx));
      if shortId == NullTxSid {
        buf := buf + [tx];
        size := size + |tx|;
      } else {
        shortIds := shortIds + [shortId];
        buf := buf + [[ShortIdIndicator]];
        size := size + 1;
      }
      i := i + 1;
    }
    assert txns[..i] == txns;
  }

  /**
   * `block_to_bx_block`: every transaction with a short id becomes the indicator and its
   * short id is listed; the others are copied. The pieces are written into a buffer behind
   * the short-id offset, and the short-id section closes it. An offset or short id too
   * large for its field is the packing error.
   */
  method BlockToBxBlock(p: Primitives, b: BtcBlock, t: TxState) returns (r: Result<(seq<byte>, seq<nat>)>)
    ensures Compressible(p, t, b) ==> r == Success((BxBlock(p, t, b), BlockShortIds(p, t, b.txns)))
    ensures !Compressible(p, t, b) ==> r.Failure?
  {
    var buf, size, shortIds := CompressTransactions(p, b.txns, t);
    size := size + |b.header|;
    if !(|shortIds| < Pow256(ShortIdWidth) && FitsShortIdWidth(shortIds)) {
      return Failure(MalformedBuffer);
    }
    var serialized := SerializeShortIds(shortIds);
    size := size + OffsetFieldSize;
    if !(size < Pow256(OffsetFieldSize)) {
      return Failure(MalformedBuffer);
    }
    var offsetBuf := LittleEndian(size, OffsetFieldSize);
    size := size + |serialized|;
    var pieces := [offsetBuf, b.header] + buf + [serialized];
    BxBlockPieces(p, t, b, buf, shortIds);
    ConcatLength(pieces);
    var block, written := WritePieces(pieces, size);
    assert block == block[..written];
    r := Success((block, shortIds));
  }

  /** Where the transaction count starts in a bx block: after the offset field, the message header and the block header. */
  const BlockHeaderEnd: nat := OffsetFieldSize + HdrCommonOff + BlockHdrSize

  /** `BlockHeaderInfo`: what `parse_bx_block_header` reads, and the header piece it appends. */
  datatype HeaderInfo = HeaderInfo(
    shortIdOffset: nat, shortIds: seq<nat>, blockHash: Hash, offset: nat, txnCount: nat, headerPiece: seq<byte>)

  /**
   * `parse_bx_block_header`: the short-id offset and the short ids it points at, the hash
   * of the 80-byte block header, and the block's leading piece up to and including the
   * transaction count. A buffer too short for any of these is malformed.
   */
  function ParseBxBlockHeader(p: Primitives, bx: seq<byte>): (r: Result<HeaderInfo>)
    ensures r.Success? ==>
      && |bx| >= OffsetFieldSize && r.value.shortIdOffset == FromLittleEndian(bx[..OffsetFieldSize])
      && DeserializeShortIds(bx, r.value.shortIdOffset) == Some(r.value.shortIds)
      && ReadCompactSize(bx, BlockHeaderEnd) == Some((r.value.txnCount, r.value.offset - BlockHeaderEnd))
      && BlockHeaderEnd < r.value.offset <= |bx|
      && r.value.headerPiece == bx[OffsetFieldSize..r.value.offset]
      && r.value.blockHash == p.bitcoinHash(bx[OffsetFieldSize + HdrCommonOff..BlockHeaderEnd])
    ensures r.Failure? <==>
      || |bx| < OffsetFieldSize
      || DeserializeShortIds(bx, FromLittleEndian(bx[..OffsetFieldSize])).None?
      || ReadCompactSize(bx, BlockHeaderEnd).None?
  {
    if |bx| < OffsetFieldSize then Failure(MalformedBuffer)
    else
      var shortIdOffset := FromLittleEndian(bx[..OffsetFieldSize]);
      match DeserializeShortIds(bx, shortIdOffset)
      case None => Failure(MalformedBuffer)
      case Some(shortIds) =>
        var blockHash := p.bitcoinHash(Slice(bx, OffsetFieldSize + HdrCommonOff, BlockHeaderEnd));
        match ReadCompactSize(bx, BlockHeaderEnd)
        case None => Failure(MalformedBuffer)
        case Some((txnCount, countSize)) =>
          var offset := BlockHeaderEnd + countSize;
          Success(HeaderInfo(shortIdOffset, shortIds, blockHash, offset, txnCount, Slice(bx, OffsetFieldSize, offset)))
  }

  /** A piece in front of the pieces that follow it, unless reading those failed. */
  function Prepend(piece: seq<byte>, rest: Result<seq<seq<byte>>>): Result<seq<seq<byte>>>
  {
    if rest.Success? then Success([piece] + rest.value) else rest
  }

  /** The pieces gathered so far in front of the pieces still to come, unless reading those failed. */
  function Join(gathered: seq<seq<byte>>, rest: Result<seq<seq<byte>>>): Result<seq<seq<byte>>>
  {
    if rest.Success? then Success(gathered + rest.value) else rest
  }

  lemma JoinEnds(pieces: seq<seq<byte>>, rest: Result<seq<seq<byte>>>)
    ensures Join([], rest) == rest
    ensures Join(pieces, Success([])) == Success(pieces)
  {
    if rest.Success? {
      assert [] + rest.value == rest.value;
    }
    assert pieces + [] == pieces;
  }

  lemma JoinPrepend(gathered: seq<seq<byte>>, piece: seq<byte>, rest: Result<seq<seq<byte>>>)
    ensures Join(gathered, Prepend(piece, rest)) == Join(gathered + [piece], rest)
  {
    if rest.Success? {
      assert gathered + ([piece] + rest.value) == gathered + [piece] + rest.value;
    }
  }

  /** One piece read, and where reading goes on: the next offset and the next short-id index. */
  datatype Step = Step(piece: seq<byte>, offset: nat, next: nat)

  /**
   * One round of the loop of `parse_bx_block_transactions`: an indicator byte takes the
   * next short id's contents, any other byte starts a transaction whose size the parser
   * reports. Reading past the buffer, or an indicator with no short id left, is an error.
   */
  function ParseStep(p: Primitives, bx: seq<byte>, offset: nat, sids: seq<nat>, next: nat, t: TxState): (r: Result<Step>)
    ensures r.Success? ==> r.value.offset > offset
  {
    if offset >= |bx| then Failure(MalformedBuffer)
    else if bx[offset] == ShortIdIndicator then
      if next >= |sids| then Failure(ConversionError)
      else if !Resolves(t, sids[next]) then Failure(MalformedBuffer)
      else Success(Step(t.contents[t.hashOf[sids[next]]], offset + 1, next + 1))
    else
      var size := p.txSize(bx[offset..]);
      Success(Step(Slice(bx, offset, offset + size), offset + size, next))
  }

  /** The transaction pieces between `offset` and `end`, read one `ParseStep` after another. */
  function ParsePieces(p: Primitives, bx: seq<byte>, offset: nat, end: nat, sids: seq<nat>, next: nat, t: TxState)
    : Result<seq<seq<byte>>>
    decreases end - offset
  {
    if offset >= end then Success([])
    else
      match ParseStep(p, bx, offset, sids, next, t)
      case Failure(e) => Failure(e)
      case Success(step) => Prepend(step.piece, ParsePieces(p, bx, step.offset, end, sids, step.next, t))
  }

  /** A step that reads a piece puts it in front of the pieces after it. */
  lemma ParseAdvance(p: Primitives, bx: seq<byte>, offset: nat, end: nat, sids: seq<nat>, next: nat, t: TxState,
                     gathered: seq<seq<byte>>, step: Step)
    requires offset < end && ParseStep(p, bx, offset, sids, next, t) == Success(step)
    ensures Join(gathered, ParsePieces(p, bx, offset, end, sids, next, t))
      == Join(gathered + [step.piece], ParsePieces(p, bx, step.offset, end, sids, step.next, t))
  {
    JoinPrepend(gathered, step.piece, ParsePieces(p, bx, step.offset, end, sids, step.next, t));
  }

  lemma ParseUnfold(p: Primitives, bx: seq<byte>, offset: nat, end: nat, sids: seq<nat>, next: nat, t: TxState, step: Step)
    requires offset < end && ParseStep(p, bx, offset, sids, next, t) == Success(step)
    ensures ParsePieces(p, bx, offset, end, sids, next, t)
      == Prepend(step.piece, ParsePieces(p, bx, step.offset, end, sids, step.next, t))
  {
  }

  /** `parse_bx_block_transactions`' result: the unknown short ids and hashes, the pieces and the output offset. */
  datatype ParsedTransactions = ParsedTransactions(
    unknownShortIds: seq<nat>, unknownHashes: seq<Hash>, pieces: seq<seq<byte>>, outputOffset: nat)

  predicate HasMissing(t: TxState, sids: seq<nat>)
  {
    UnknownShortIds(t, sids) != [] || UnknownHashes(t, sids) != []
  }

  /** The `while offset < short_id_offset` loop of `parse_bx_block_transactions`. */
  method ReadPieces(p: Primitives, bx: seq<byte>, offset: nat, end: nat, sids: seq<nat>, t: TxState)
      returns (r: Result<seq<seq<byte>>>, outputOffset: nat)
    ensures r == ParsePieces(p, bx, offset, end, sids, 0, t)
    ensures r.Success? ==> outputOffset == offset + TotalLength(r.value)
  {
    var pieces: seq<seq<byte>> := [];
    var shortTxIndex := 0;
    outputOffset := offset;
    var off := offset;
    JoinEnds(pieces, ParsePieces(p, bx, offset, end, sids, 0, t));
    while off < end
      invariant Join(pieces, ParsePieces(p, bx, off, end, sids, shortTxIndex, t)) == ParsePieces(p, bx, offset, end, sids, 0, t)
      invariant outputOffset == offset + TotalLength(pieces)
      decreases end - off
    {
      if off >= |bx| {
        return Failure(MalformedBuffer), outputOffset;
      }
      var tx;
      if bx[off] == ShortIdIndicator {
        if shortTxIndex >= |sids| {
          return Failure(ConversionError), outputOffset;
        }
        var sid := sids[shortTxIndex];
        if !Resolves(t, sid) {
          return Failure(MalformedBuffer), outputOffset;
        }
        tx := t.contents[t.hashOf[sid]];
        ParseAdvance(p, bx, off, end, sids, shortTxIndex, t, pieces, Step(tx, off + 1, shortTxIndex + 1));
        off := off + 1;
        shortTxIndex := shortTxIndex + 1;
      } else {
        var txSize := p.txSize(bx[off..]);
        tx := Slice(bx, off, off + txSize);
        ParseAdvance(p, bx, off, end, sids, shortTxIndex, t, pieces, Step(tx, off + txSize, shortTxIndex));
        off := off + txSize;
      }
      ConcatAppend(pieces, tx);
      pieces := pieces + [tx];
      outputOffset := outputOffset + |tx|;
    }
    JoinEnds(pieces, ParsePieces(p, bx, off, end, sids, shortTxIndex, t));
    r := Success(pieces);
  }

  /**
   * `parse_bx_block_transactions`: with a short id the service cannot resolve, the unknown
   * short ids and hashes come back with the offset unchanged and no piece read. Otherwise
   * the pieces are those of `ParsePieces`, and the output offset grows by each piece's length.
   */
  method ParseBxBlockTransactions(p: Primitives, bx: seq<byte>, offset: nat, sids: seq<nat>, shortIdOffset: nat, t: TxState)
      returns (r: Result<ParsedTransactions>)
    ensures HasMissing(t, sids) ==>
      r == Success(ParsedTransactions(UnknownShortIds(t, sids), UnknownHashes(t, sids), [], offset))
    ensures !HasMissing(t, sids) ==>
      var parsed := ParsePieces(p, bx, offset, shortIdOffset, sids, 0, t);
      && (parsed.Failure? ==> r == Failure(parsed.error))
      && (parsed.Success? ==> r == Success(ParsedTransactions([], [], parsed.value, offset + TotalLength(parsed.value))))
  {
    var unknownShortIds := UnknownShortIds(t, sids);
    var unknownHashes := UnknownHashes(t, sids);
    if unknownShortIds != [] || unknownHashes != [] {
      return Success(ParsedTransactions(unknownShortIds, unknownHashes, [], offset));
    }
    var pieces, outputOffset := ReadPieces(p, bx, offset, shortIdOffset, sids, t);
    if pieces.Failure? {
      return Failure(pieces.error);
    }
    r := Success(ParsedTransactions([], [], pieces.value, outputOffset));
  }

  /** A buffer of `size` bytes holding the pieces back to back, zero after them. */
  function BuiltBlock(pieces: seq<seq<byte>>, size: nat): seq<byte>
    requires TotalLength(pieces) <= size
  {
    Concat(pieces) + Zeros(size - TotalLength(pieces))
  }

  /** `build_btc_block`: the pieces written contiguously in order; the returned offset is their total length. */
  method BuildBtcBlock(pieces: seq<seq<byte>>, size: nat) returns (block: seq<byte>, offset: nat)
    requires TotalLength(pieces) <= size
    ensures offset == TotalLength(pieces)
    ensures block == BuiltBlock(pieces, size)
  {
    block, offset := WritePieces(pieces, size);
    assert block == block[..offset] + block[offset..];
  }

  /** What `bx_block_to_block` returns: the block, or none while transactions are missing, and what it learnt. */
  datatype Decompressed = Decompressed(
    block: Option<seq<byte>>, blockHash: Hash, shortIds: seq<nat>, unknownShortIds: seq<nat>, unknownHashes: seq<Hash>)

  /**
   * Decompression as `bx_block_to_block` performs it: the header is parsed; with a short id
   * the service cannot resolve there is no block; otherwise the header piece and the
   * transaction pieces are written into a buffer as long as the output offset.
   */
  function DecompressBxBlock(p: Primitives, bx: seq<byte>, t: TxState): Result<Decompressed>
  {
    match ParseBxBlockHeader(p, bx)
    case Failure(e) => Failure(e)
    case Success(info) =>
      if HasMissing(t, info.shortIds) then
        Success(Decompressed(None, info.blockHash, info.shortIds, UnknownShortIds(t, info.shortIds), UnknownHashes(t, info.shortIds)))
      else
        match ParsePieces(p, bx, info.offset, info.shortIdOffset, info.shortIds, 0, t)
        case Failure(e) => Failure(e)
        case Success(txs) =>
          var pieces := [info.headerPiece] + txs;
          ConcatCons(info.headerPiece, txs);
          Success(Decompressed(Some(BuiltBlock(pieces, info.offset + TotalLength(txs))), info.blockHash, info.shortIds, [], []))
  }

  /** `bx_block_to_block`. */
  method BxBlockToBlock(p: Primitives, bx: seq<byte>, t: TxState) returns (r: Result<Decompressed>)
    ensures r == DecompressBxBlock(p, bx, t)
  {
    var headerInfo := ParseBxBlockHeader(p, bx);
    if headerInfo.Failure? {
      return Failure(headerInfo.error);
    }
    var info := headerInfo.value;
    var parsed := ParseBxBlockTransactions(p, bx, info.offset, info.shortIds, info.shortIdOffset, t);
    if parsed.Failure? {
      return Failure(parsed.error);
    }
    var unknownShortIds, unknownHashes := parsed.value.unknownShortIds, parsed.value.unknownHashes;
    if unknownShortIds == [] && unknownHashes == [] {
      var pieces := [info.headerPiece] + parsed.value.pieces;
      ConcatCons(info.headerPiece, parsed.value.pieces);
      var block, _ := BuildBtcBlock(pieces, parsed.value.outputOffset);
      r := Success(Decompressed(Some(block), info.blockHash, info.shortIds, [], []));
    } else {
      r := Success(Decompressed(None, info.blockHash, info.shortIds, unknownShortIds, unknownHashes));
    }
  }

  /**
   * A transaction comes back from its piece: one with a short id resolves to it in the
   * transaction service; one without is not empty, does not start with the indicator and
   * is parsed to its own length whatever follows it.
   */
  ghost predicate TxRestores(p: Primitives, t: TxState, tx: seq<byte>)
  {
    var sid := GetShortId(t, p.txid(tx));
    if sid == NullTxSid then |tx| > 0 && tx[0] != ShortIdIndicator && forall rest :: p.txSize(tx + rest) == |tx|
    else Resolves(t, sid) && t.contents[t.hashOf[sid]] == tx
  }

  /** Every transaction of the list can be restored, first to last. */
  ghost predicate AllRestore(p: Primitives, t: TxState, txns: seq<seq<byte>>)
  {
    txns == [] || (TxRestores(p, t, txns[0]) && AllRestore(p, t, txns[1..]))
  }

  lemma {:induction false} AllRestoreIff(p: Primitives, t: TxState, txns: seq<seq<byte>>)
    ensures AllRestore(p, t, txns) <==> forall k :: 0 <= k < |txns| ==> TxRestores(p, t, txns[k])
  {
    if txns != [] {
      AllRestoreIff(p, t, txns[1..]);
      assert forall k :: 1 <= k < |txns| ==> txns[k] == txns[1..][k - 1];
    }
  }

  /** A message header, 80-byte block header and transaction count, nothing more. */
  predicate HeaderShape(header: seq<byte>)
  {
    var countAt := HdrCommonOff + BlockHdrSize;
    var count := ReadCompactSize(header, countAt);
    count.Some? && countAt + count.value.1 == |header|
  }

  lemma {:induction false} TxPiecesCons(p: Primitives, t: TxState, tx: seq<byte>, txns: seq<seq<byte>>)
    ensures TxPieces(p, t, [tx] + txns) == [TxPiece(p, t, tx)] + TxPieces(p, t, txns)
  {
    var l := TxPieces(p, t, [tx] + txns);
    var r := [TxPiece(p, t, tx)] + TxPieces(p, t, txns);
    forall k | 0 <= k < |l|
      ensures l[k] == r[k]
    {
      TxPiecesAt(p, t, [tx] + txns, k);
      if k > 0 {
        TxPiecesAt(p, t, txns, k - 1);
      }
    }
  }

  /** Every short id the compression lists resolves, when every transaction can be restored. */
  lemma {:induction false} ShortIdsResolve(p: Primitives, t: TxState, txns: seq<seq<byte>>)
    requires AllRestore(p, t, txns)
    ensures forall k :: 0 <= k < |BlockShortIds(p, t, txns)| ==> Resolves(t, BlockShortIds(p, t, txns)[k])
  {
    if txns != [] {
      ShortIdsResolve(p, t, txns[1..]);
    }
  }

  /** The transaction pieces laid end to end, first piece first. */
  function Compressed(p: Primitives, t: TxState, txns: seq<seq<byte>>): seq<byte>
  {
    if txns == [] then [] else TxPiece(p, t, txns[0]) + Compressed(p, t, txns[1..])
  }

  lemma {:induction false} CompressedIsConcat(p: Primitives, t: TxState, txns: seq<seq<byte>>)
    ensures Compressed(p, t, txns) == Concat(TxPieces(p, t, txns))
    ensures |Compressed(p, t, txns)| == TotalLength(TxPieces(p, t, txns))
  {
    if txns != [] {
      CompressedIsConcat(p, t, txns[1..]);
      assert txns == [txns[0]] + txns[1..];
      TxPiecesCons(p, t, txns[0], txns[1..]);
      ConcatCons(TxPiece(p, t, txns[0]), TxPieces(p, t, txns[1..]));
    }
    ConcatLength(TxPieces(p, t, txns));
  }

  /** One restorable transaction is read back from its piece. */
  lemma RestoreStep(p: Primitives, t: TxState, bx: seq<byte>, off: nat, tx: seq<byte>, sids: seq<nat>, next: nat)
    requires TxRestores(p, t, tx) && At(bx, off, TxPiece(p, t, tx))
    requires At(sids, next, SidOf(p, t, tx))
    ensures ParseStep(p, bx, off, sids, next, t)
      == Success(Step(tx, off + |TxPiece(p, t, tx)|, next + |SidOf(p, t, tx)|))
  {
    AtIff(bx, off, TxPiece(p, t, tx));
    if GetShortId(t, p.txid(tx)) == NullTxSid {
      assert bx[off..] == tx + bx[off + |tx|..];
    }
  }

  lemma CompressedFirst(p: Primitives, t: TxState, bx: seq<byte>, off: nat, txns: seq<seq<byte>>)
    requires txns != [] && At(bx, off, Compressed(p, t, txns))
    ensures At(bx, off, TxPiece(p, t, txns[0]))
    ensures At(bx, off + |TxPiece(p, t, txns[0])|, Compressed(p, t, txns[1..]))
    ensures |Compressed(p, t, txns)| == |TxPiece(p, t, txns[0])| + |Compressed(p, t, txns[1..])|
  {
    AtSplit(bx, off, TxPiece(p, t, txns[0]), Compressed(p, t, txns[1..]));
  }

  lemma ShortIdsFirst(p: Primitives, t: TxState, txns: seq<seq<byte>>, sids: seq<nat>, next: nat)
    requires txns != [] && At(sids, next, BlockShortIds(p, t, txns))
    ensures At(sids, next, SidOf(p, t, txns[0]))
    ensures At(sids, next + |SidOf(p, t, txns[0])|, BlockShortIds(p, t, txns[1..]))
  {
    AtSplit(sids, next, SidOf(p, t, txns[0]), BlockShortIds(p, t, txns[1..]));
  }

  /** What compressing the first of the transactions leaves for the rest: a step past its piece and short id. */
  lemma RestoreFirst(p: Primitives, t: TxState, bx: seq<byte>, off: nat, end: nat,
                     txns: seq<seq<byte>>, sids: seq<nat>, next: nat)
      returns (step: Step)
    requires txns != [] && AllRestore(p, t, txns)
    requires At(bx, off, Compressed(p, t, txns)) && end == off + |Compressed(p, t, txns)|
    requires At(sids, next, BlockShortIds(p, t, txns))
    ensures off < end && ParseStep(p, bx, off, sids, next, t) == Success(step) && step.piece == txns[0]
    ensures AllRestore(p, t, txns[1..])
    ensures At(bx, step.offset, Compressed(p, t, txns[1..])) && end == step.offset + |Compressed(p, t, txns[1..])|
    ensures At(sids, step.next, BlockShortIds(p, t, txns[1..]))
  {
    var tx := txns[0];
    CompressedFirst(p, t, bx, off, txns);
    ShortIdsFirst(p, t, txns, sids, next);
    RestoreStep(p, t, bx, off, tx, sids, next);
    step := Step(tx, off + |TxPiece(p, t, tx)|, next + |SidOf(p, t, tx)|);
  }

  /**
   * Parsing the pieces of restorable transactions, with their short ids next in line,
   * gives the transactions back.
   */
  lemma {:induction false} ParseRestores(p: Primitives, t: TxState, bx: seq<byte>, off: nat, end: nat,
                                         txns: seq<seq<byte>>, sids: seq<nat>, next: nat)
    requires AllRestore(p, t, txns)
    requires At(bx, off, Compressed(p, t, txns)) && end == off + |Compressed(p, t, txns)|
    requires At(sids, next, BlockShortIds(p, t, txns))
    ensures ParsePieces(p, bx, off, end, sids, next, t) == Success(txns)
    decreases |txns|
  {
    if txns != [] {
      var step := RestoreFirst(p, t, bx, off, end, txns, sids, next);
      ParseRestores(p, t, bx, step.offset, end, txns[1..], sids, step.next);
      ParseUnfold(p, bx, off, end, sids, next, t, step);
      assert txns == [txns[0]] + txns[1..];
    }
  }

  /** The header of a block's bx block parses back to the block header and the block's short ids. */
  lemma HeaderRoundTrip(p: Primitives, t: TxState, b: BtcBlock)
    requires Compressible(p, t, b) && HeaderShape(b.header)
    ensures var info := ParseBxBlockHeader(p, BxBlock(p, t, b));
      && info.Success?
      && info.value.shortIdOffset == ShortIdOffset(p, t, b)
      && info.value.shortIds == BlockShortIds(p, t, b.txns)
      && info.value.offset == OffsetFieldSize + |b.header|
      && info.value.headerPiece == b.header
      && info.value.blockHash == p.bitcoinHash(b.header[HdrCommonOff..HdrCommonOff + BlockHdrSize])
  {
    var bx := BxBlock(p, t, b);
    BxBlockLayout(p, t, b);
    CompactSizeAt(bx, OffsetFieldSize, b.header, HdrCommonOff + BlockHdrSize);
    AtPart(bx, OffsetFieldSize, b.header, 0, |b.header|);
    AtPart(bx, OffsetFieldSize, b.header, HdrCommonOff, HdrCommonOff + BlockHdrSize);
  }

  /** Decompression once the header and the pieces have been read and nothing is missing. */
  lemma DecompressParsed(p: Primitives, bx: seq<byte>, t: TxState, info: HeaderInfo, txs: seq<seq<byte>>)
    requires ParseBxBlockHeader(p, bx) == Success(info) && !HasMissing(t, info.shortIds)
    requires ParsePieces(p, bx, info.offset, info.shortIdOffset, info.shortIds, 0, t) == Success(txs)
    requires info.offset >= |info.headerPiece|
    ensures TotalLength([info.headerPiece] + txs) == |info.headerPiece| + TotalLength(txs)
    ensures DecompressBxBlock(p, bx, t) == Success(Decompressed(
        Some(BuiltBlock([info.headerPiece] + txs, info.offset + TotalLength(txs))), info.blockHash, info.shortIds, [], []))
  {
    ConcatCons(info.headerPiece, txs);
  }

  /** The rebuilt buffer is the block followed by `extra` zero bytes. */
  lemma BuiltBlockOf(b: BtcBlock, extra: nat)
    ensures TotalLength([b.header] + b.txns) == |b.header| + TotalLength(b.txns)
    ensures BuiltBlock([b.header] + b.txns, extra + |b.header| + TotalLength(b.txns)) == BlockBytes(b) + Zeros(extra)
  {
    ConcatCons(b.header, b.txns);
  }

  /** The pieces of a block's bx block parse back to its transactions, whose short ids all resolve. */
  lemma TransactionsRoundTrip(p: Primitives, t: TxState, b: BtcBlock)
    requires Compressible(p, t, b)
    requires forall k :: 0 <= k < |b.txns| ==> TxRestores(p, t, b.txns[k])
    ensures var sids := BlockShortIds(p, t, b.txns);
      && !HasMissing(t, sids)
      && ParsePieces(p, BxBlock(p, t, b), OffsetFieldSize + |b.header|, ShortIdOffset(p, t, b), sids, 0, t)
         == Success(b.txns)
  {
    var sids := BlockShortIds(p, t, b.txns);
    BxBlockLayout(p, t, b);
    CompressedIsConcat(p, t, b.txns);
    AllRestoreIff(p, t, b.txns);
    ShortIdsResolve(p, t, b.txns);
    NothingMissing(t, sids);
    AtIff(sids, 0, sids);
    ParseRestores(p, t, BxBlock(p, t, b), OffsetFieldSize + |b.header|, ShortIdOffset(p, t, b), b.txns, sids, 0);
  }

  /** A buffer whose header and pieces read back as a block's decompresses to that block and 8 zero bytes. */
  lemma DecompressTo(p: Primitives, bx: seq<byte>, t: TxState, b: BtcBlock, sids: seq<nat>, blockHash: Hash)
    requires var info := ParseBxBlockHeader(p, bx);
      && info.Success? && info.value.shortIds == sids
      && info.value.offset == OffsetFieldSize + |b.header| && info.value.headerPiece == b.header
      && info.value.blockHash == blockHash
      && ParsePieces(p, bx, info.value.offset, info.value.shortIdOffset, sids, 0, t) == Success(b.txns)
    requires !HasMissing(t, sids)
    ensures DecompressBxBlock(p, bx, t)
      == Success(Decompressed(Some(BlockBytes(b) + Zeros(OffsetFieldSize)), blockHash, sids, [], []))
  {
    DecompressParsed(p, bx, t, ParseBxBlockHeader(p, bx).value, b.txns);
    BuiltBlockOf(b, OffsetFieldSize);
  }

  /**
   * Decompression undoes compression: a block whose header is a message header, block
   * header and transaction count, and whose transactions can all be restored, is rebuilt
   * byte for byte, followed by as many zero bytes as the offset field is long, since the
   * buffer is sized by the output offset, which counts that field.
   */
  lemma BxBlockRoundTrip(p: Primitives, t: TxState, b: BtcBlock)
    requires Compressible(p, t, b) && HeaderShape(b.header)
    requires forall k :: 0 <= k < |b.txns| ==> TxRestores(p, t, b.txns[k])
    ensures DecompressBxBlock(p, BxBlock(p, t, b), t)
      == Success(Decompressed(Some(BlockBytes(b) + Zeros(OffsetFieldSize)),
                              p.bitcoinHash(b.header[HdrCommonOff..HdrCommonOff + BlockHdrSize]),
                              BlockShortIds(p, t, b.txns), [], []))
  {
    var bx := BxBlock(p, t, b);
    HeaderRoundTrip(p, t, b);
    TransactionsRoundTrip(p, t, b);
    DecompressTo(p, bx, t, b, BlockShortIds(p, t, b.txns), p.bitcoinHash(b.header[HdrCommonOff..HdrCommonOff + BlockHdrSize]));
  }
}
