/**
 * The eth/63 NewBlock message `[[header, transactions, uncles], total_difficulty]`: building
 * its bytes from a separately received header and body, and reading the chain
 * difficulty, the header, the block hash, the parent hash and the timestamp back out of
 * the encoding without decoding the whole message.
 */
module NewBlockMessage {
  import opened Wrappers
  import opened Bytes
  import opened Rlp

  /**
   * `BlockHeader.FIXED_LENGTH_FIELD_OFFSET`: where the difficulty item starts in a header
   * payload, after five 33-byte hash items, the 21-byte beneficiary item and the 259-byte
   * bloom item.
   */
  const FixedLengthFieldOffset: nat := 5 * 33 + 21 + 259

  /** The body's content: everything after the body's own list prefix. */
  function BodyContent(body: seq<byte>): Option<seq<byte>>
  {
    match ConsumeLengthPrefix(body, 0)
    case None => None
    case Some(p) => Some(Slice(body, p.contentStart, |body|))
  }

  /** The five pieces `from_new_block_parts` writes, in order. */
  datatype Layout = Layout(
    outerPrefix: seq<byte>,
    blockPrefix: seq<byte>,
    header: seq<byte>,
    bodyContent: seq<byte>,
    tdItem: seq<byte>)

  /**
   * The layout for a header, a body and a total difficulty; `None` when the body is empty
   * or a length cannot be encoded (the exceptions of `rlp_utils`).
   */
  function NewBlockLayout(header: seq<byte>, body: seq<byte>, td: nat): Option<Layout>
  {
    match BodyContent(body)
    case None => None
    case Some(c) =>
      match ListPrefix(|header| + |c|)
      case None => None
      case Some(bp) =>
        match EncodeInt(td)
        case None => None
        case Some(ti) =>
          match ListPrefix(|header| + |c| + |bp| + |ti|)
          case None => None
          case Some(op) => Some(Layout(op, bp, header, c, ti))
  }

  /** The payload of the block item: the header followed by the body content. */
  function BlockPayload(l: Layout): seq<byte>
  {
    l.header + l.bodyContent
  }

  /** The payload of the outer list: the block item followed by the difficulty item. */
  function BlockMsg(l: Layout): seq<byte>
  {
    l.blockPrefix + BlockPayload(l) + l.tdItem
  }

  function LayoutBytes(l: Layout): seq<byte>
  {
    l.outerPrefix + BlockMsg(l)
  }

  /** The message bytes for a header, a body and a total difficulty. */
  function NewBlockBytes(header: seq<byte>, body: seq<byte>, td: nat): Option<seq<byte>>
  {
    match NewBlockLayout(header, body, td)
    case None => None
    case Some(l) => Some(LayoutBytes(l))
  }

  /**
   * `from_new_block_parts`: sizes the message, then writes the outer prefix, the block
   * prefix, the header, the body content and the difficulty item into one buffer,
   * advancing a written-bytes counter.
   */
  method FromNewBlockParts(header: seq<byte>, body: seq<byte>, td: nat) returns (r: Option<seq<byte>>)
    ensures r == NewBlockBytes(header, body, td)
  {
    var content := BodyContent(body);
    if content.None? {
      return None;
    }
    var bodyContent := content.value;
    var contentSize := |header| + |bodyContent|;
    var blockPrefix := ListPrefix(contentSize);
    if blockPrefix.None? {
      return None;
    }
    contentSize := contentSize + |blockPrefix.value|;
    var tdItem := EncodeInt(td);
    if tdItem.None? {
      return None;
    }
    contentSize := contentSize + |tdItem.value|;
    var outerPrefix := ListPrefix(contentSize);
    if outerPrefix.None? {
      return None;
    }
    contentSize := contentSize + |outerPrefix.value|;

    var l := Layout(outerPrefix.value, blockPrefix.value, header, bodyContent, tdItem.value);
    LayoutOf(header, body, td, l);

    r := WriteLayout(l, contentSize);
  }

  /** Lines 59-75: the five pieces written one after another into a zeroed buffer of `size` bytes. */
  method WriteLayout(l: Layout, size: nat) returns (r: Option<seq<byte>>)
    requires size == |l.outerPrefix| + |l.blockPrefix| + |l.header| + |l.bodyContent| + |l.tdItem|
    ensures r == Some(LayoutBytes(l))
  {
    var buf := new byte[size](_ => 0);
    var written := 0;
    WriteAt(buf, written, l.outerPrefix);
    written := written + |l.outerPrefix|;
    WriteAt(buf, written, l.blockPrefix);
    written := written + |l.blockPrefix|;
    assert buf[..written] == l.outerPrefix + l.blockPrefix;
    WriteAt(buf, written, l.header);
    written := written + |l.header|;
    assert buf[..written] == l.outerPrefix + l.blockPrefix + l.header;
    WriteAt(buf, written, l.bodyContent);
    written := written + |l.bodyContent|;
    assert buf[..written] == l.outerPrefix + l.blockPrefix + l.header + l.bodyContent;
    WriteAt(buf, written, l.tdItem);
    written := written + |l.tdItem|;
    assert buf[..written] == l.outerPrefix + l.blockPrefix + l.header + l.bodyContent + l.tdItem;
    assert buf[..] == buf[..written];
    r := Some(buf[..]);
    LayoutBytesFlat(l);
  }

  /** The layout whose pieces are the ones `from_new_block_parts` computes for its arguments. */
  lemma LayoutOf(header: seq<byte>, body: seq<byte>, td: nat, l: Layout)
    requires l.header == header && BodyContent(body) == Some(l.bodyContent)
    requires ListPrefix(|header| + |l.bodyContent|) == Some(l.blockPrefix)
    requires EncodeInt(td) == Some(l.tdItem)
    requires ListPrefix(|header| + |l.bodyContent| + |l.blockPrefix| + |l.tdItem|) == Some(l.outerPrefix)
    ensures NewBlockLayout(header, body, td) == Some(l)
  {
  }

  lemma LayoutBytesFlat(l: Layout)
    ensures LayoutBytes(l) == l.outerPrefix + l.blockPrefix + l.header + l.bodyContent + l.tdItem
  {
  }

  /** The outer list prefix of a message (line 90). */
  function OuterItem(msg: seq<byte>): Option<Prefix>
  {
    ConsumeLengthPrefix(msg, 0)
  }

  /** The payload of the outer list: the block item followed by the difficulty item. */
  function BlockMsgBytes(msg: seq<byte>): Option<seq<byte>>
  {
    match OuterItem(msg)
    case None => None
    case Some(p) => Some(Slice(msg, p.contentStart, p.contentStart + p.length))
  }

  /** The integer item right after the block item of an outer payload. */
  function DifficultyIn(blockMsg: seq<byte>): Option<nat>
  {
    match ConsumeLengthPrefix(blockMsg, 0)
    case None => None
    case Some(b) =>
      match DecodeInt(blockMsg, b.contentStart + b.length)
      case None => None
      case Some(d) => Some(d.value)
  }

  /** `chain_difficulty`: the integer item right after the block item. */
  function ChainDifficultyOf(msg: seq<byte>): Option<nat>
  {
    match BlockMsgBytes(msg)
    case None => None
    case Some(blockMsg) => DifficultyIn(blockMsg)
  }

  /** The payload of the block item of an outer payload. */
  function BlockItemIn(blockMsg: seq<byte>): Option<seq<byte>>
  {
    match ConsumeLengthPrefix(blockMsg, 0)
    case None => None
    case Some(b) => Some(Slice(blockMsg, b.contentStart, b.contentStart + b.length))
  }

  /** The payload of the block item: the header item followed by the body content. */
  function BlockItemBytes(msg: seq<byte>): Option<seq<byte>>
  {
    match BlockMsgBytes(msg)
    case None => None
    case Some(blockMsg) => BlockItemIn(blockMsg)
  }

  /**
   * The block item payload as lines 105, 124 and 146 slice it: from the position of the
   * outer payload in the message rather than the position of the block payload in the
   * outer payload.
   */
  function BlockItemBytesAsWritten(msg: seq<byte>): Option<seq<byte>>
  {
    match OuterItem(msg)
    case None => None
    case Some(outer) =>
      var blockMsg := Slice(msg, outer.contentStart, outer.contentStart + outer.length);
      match ConsumeLengthPrefix(blockMsg, 0)
      case None => None
      case Some(b) => Some(Slice(blockMsg, outer.contentStart, outer.contentStart + b.length))
  }

  /** The first item of a block payload, prefix included (lines 107-108). */
  function HeaderItem(blockItem: seq<byte>): Option<seq<byte>>
  {
    match ConsumeLengthPrefix(blockItem, 0)
    case None => None
    case Some(h) => Some(Slice(blockItem, 0, h.contentStart + h.length))
  }

  /** The payload of the first item of a block payload (lines 129-130, 148-149). */
  function HeaderPayload(blockItem: seq<byte>): Option<seq<byte>>
  {
    match ConsumeLengthPrefix(blockItem, 0)
    case None => None
    case Some(h) => Some(Slice(blockItem, h.contentStart, h.contentStart + h.length))
  }

  /** `block_header`: the header item bytes. */
  function BlockHeaderOf(msg: seq<byte>): Option<seq<byte>>
  {
    match BlockItemBytes(msg)
    case None => None
    case Some(blockItem) => HeaderItem(blockItem)
  }

  /** `block_header` as written, on the as-written block payload. */
  function BlockHeaderAsWritten(msg: seq<byte>): Option<seq<byte>>
  {
    match BlockItemBytesAsWritten(msg)
    case None => None
    case Some(blockItem) => HeaderItem(blockItem)
  }

  /**
   * `prev_block_hash`: the payload of the header's first item. The difficulty item's
   * prefix is read too (line 126), so a message without one is an error.
   */
  function PrevBlockHashOf(msg: seq<byte>): Option<seq<byte>>
  {
    match BlockMsgBytes(msg)
    case None => None
    case Some(blockMsg) => PrevBlockHashIn(blockMsg)
  }

  /** The parent hash in an outer payload, once the difficulty item's prefix has been read. */
  function PrevBlockHashIn(blockMsg: seq<byte>): Option<seq<byte>>
  {
    match ConsumeLengthPrefix(blockMsg, 0)
    case None => None
    case Some(b) =>
      match ConsumeLengthPrefix(blockMsg, b.contentStart + b.length)
      case None => None
      case Some(_) =>
        match HeaderPayload(Slice(blockMsg, b.contentStart, b.contentStart + b.length))
        case None => None
        case Some(hp) => HeaderPayload(hp)
  }

  /** The offset reached after decoding `count` integer items one after another from `offset`. */
  function SkipInts(buf: seq<byte>, offset: nat, count: nat): Option<nat>
    decreases count
  {
    if count == 0 then Some(offset)
    else
      var d := DecodeInt(buf, offset);
      if d.None? then None else SkipInts(buf, offset + d.value.length, count - 1)
  }

  /**
   * The header's timestamp in a header payload: the difficulty, number, gas limit and gas
   * used items are decoded one after another from the end of the fixed-length fields, and
   * the item after them is the timestamp.
   */
  function TimestampOfPayload(hp: seq<byte>): Option<nat>
  {
    match SkipInts(hp, FixedLengthFieldOffset, 4)
    case None => None
    case Some(offset) =>
      match DecodeInt(hp, offset)
      case None => None
      case Some(d) => Some(d.value)
  }

  /** `timestamp`: seconds since the epoch, read from the header payload. */
  function TimestampOf(msg: seq<byte>): Option<nat>
  {
    match BlockItemBytes(msg)
    case None => None
    case Some(blockItem) =>
      match HeaderPayload(blockItem)
      case None => None
      case Some(hp) => TimestampOfPayload(hp)
  }

  /** Stripping the body's prefix leaves exactly the payload of the body list. */
  lemma BodyPrefixStripped(payload: seq<byte>)
    requires EncodeList(payload).Some?
    ensures BodyContent(EncodeList(payload).value) == Some(payload)
  {
    var body := EncodeList(payload).value;
    AtIff(body, 0, body);
    ConsumeEncodedList(body, 0, payload);
    AtSlice(body, |body| - |payload|, payload);
  }

  /** What a layout holds: the prefixes encode the lengths of what follows them. */
  lemma LayoutShape(header: seq<byte>, body: seq<byte>, td: nat)
    requires NewBlockLayout(header, body, td).Some?
    ensures var l := NewBlockLayout(header, body, td).value;
      && l.header == header
      && BodyContent(body) == Some(l.bodyContent)
      && EncodeInt(td) == Some(l.tdItem)
      && ListPrefix(|BlockPayload(l)|) == Some(l.blockPrefix)
      && ListPrefix(|BlockMsg(l)|) == Some(l.outerPrefix)
  {
  }

  /** The outer prefix of a message is read back as the length of the outer payload. */
  lemma OuterRead(l: Layout)
    requires ListPrefix(|BlockMsg(l)|) == Some(l.outerPrefix)
    ensures BlockMsgBytes(LayoutBytes(l)) == Some(BlockMsg(l))
  {
    var m := LayoutBytes(l);
    AtConcat(l.outerPrefix, BlockMsg(l));
    ConsumeEncodedPrefix(m, 0, |BlockMsg(l)|, ListOffset, l.outerPrefix);
    AtSlice(m, |l.outerPrefix|, BlockMsg(l));
  }

  /**
   * The block prefix of an outer payload is read back as the length of the block payload,
   * which is followed by the difficulty item.
   */
  lemma BlockRead(l: Layout)
    requires ListPrefix(|BlockPayload(l)|) == Some(l.blockPrefix)
    ensures ConsumeLengthPrefix(BlockMsg(l), 0) == Some(Prefix(true, |BlockPayload(l)|, |l.blockPrefix|))
    ensures At(BlockMsg(l), |l.blockPrefix|, BlockPayload(l))
    ensures At(BlockMsg(l), |l.blockPrefix| + |BlockPayload(l)|, l.tdItem)
  {
    var bm := BlockMsg(l);
    AtConcat(l.blockPrefix + BlockPayload(l), l.tdItem);
    AtSplit(bm, 0, l.blockPrefix, BlockPayload(l));
    ConsumeEncodedPrefix(bm, 0, |BlockPayload(l)|, ListOffset, l.blockPrefix);
  }

  /** A built message's block payload is the header followed by the body content. */
  lemma NewBlockItem(header: seq<byte>, body: seq<byte>, td: nat)
    requires NewBlockLayout(header, body, td).Some?
    ensures var l := NewBlockLayout(header, body, td).value;
      BlockItemBytes(LayoutBytes(l)) == Some(BlockPayload(l))
  {
    var l := NewBlockLayout(header, body, td).value;
    LayoutShape(header, body, td);
    OuterRead(l);
    BlockItemRead(l);
  }

  lemma BlockItemRead(l: Layout)
    requires ListPrefix(|BlockPayload(l)|) == Some(l.blockPrefix)
    ensures BlockItemIn(BlockMsg(l)) == Some(BlockPayload(l))
  {
    BlockRead(l);
    AtSlice(BlockMsg(l), |l.blockPrefix|, BlockPayload(l));
  }

  /** The chain difficulty of a message laid out as `l` is the integer its difficulty item encodes. */
  lemma LayoutChainDifficulty(l: Layout, td: nat)
    requires ListPrefix(|BlockPayload(l)|) == Some(l.blockPrefix)
    requires ListPrefix(|BlockMsg(l)|) == Some(l.outerPrefix)
    requires EncodeInt(td) == Some(l.tdItem)
    ensures ChainDifficultyOf(LayoutBytes(l)) == Some(td)
  {
    OuterRead(l);
    BlockDifficulty(l, td);
  }

  /** In the outer payload, the difficulty item follows the block item. */
  lemma BlockDifficulty(l: Layout, td: nat)
    requires ListPrefix(|BlockPayload(l)|) == Some(l.blockPrefix)
    requires EncodeInt(td) == Some(l.tdItem)
    ensures DifficultyIn(BlockMsg(l)) == Some(td)
  {
    BlockRead(l);
    DecodeEncodedInt(BlockMsg(l), |l.blockPrefix| + |BlockPayload(l)|, td);
    DifficultyJoin(BlockMsg(l), |l.blockPrefix|, |BlockPayload(l)|, td);
  }

  lemma DifficultyJoin(blockMsg: seq<byte>, prefixLength: nat, payloadLength: nat, td: nat)
    requires ConsumeLengthPrefix(blockMsg, 0) == Some(Prefix(true, payloadLength, prefixLength))
    requires DecodeInt(blockMsg, prefixLength + payloadLength).Some?
    requires DecodeInt(blockMsg, prefixLength + payloadLength).value.value == td
    ensures DifficultyIn(blockMsg) == Some(td)
  {
  }

  /** Round trip: the chain difficulty of a built message is the total difficulty it was built with. */
  lemma ChainDifficultyRoundTrip(header: seq<byte>, body: seq<byte>, td: nat)
    requires NewBlockBytes(header, body, td).Some?
    ensures ChainDifficultyOf(NewBlockBytes(header, body, td).value) == Some(td)
  {
    var l := NewBlockLayout(header, body, td).value;
    LayoutShape(header, body, td);
    LayoutChainDifficulty(l, td);
  }

  /** The header item and its payload, read from a block payload that starts with the header. */
  lemma HeaderRead(headerPayload: seq<byte>, rest: seq<byte>)
    requires EncodeList(headerPayload).Some?
    ensures HeaderItem(EncodeList(headerPayload).value + rest) == Some(EncodeList(headerPayload).value)
    ensures HeaderPayload(EncodeList(headerPayload).value + rest) == Some(headerPayload)
  {
    var header := EncodeList(headerPayload).value;
    var item := header + rest;
    AtConcat(header, rest);
    ConsumeEncodedList(item, 0, headerPayload);
    AtSlice(item, 0, header);
    AtSlice(item, |header| - |headerPayload|, headerPayload);
  }

  /** Round trip: the header read back from a built message is the header item it was built with. */
  lemma BlockHeaderRoundTrip(headerPayload: seq<byte>, body: seq<byte>, td: nat)
    requires EncodeList(headerPayload).Some?
    requires NewBlockBytes(EncodeList(headerPayload).value, body, td).Some?
    ensures var header := EncodeList(headerPayload).value;
      BlockHeaderOf(NewBlockBytes(header, body, td).value) == Some(header)
  {
    var header := EncodeList(headerPayload).value;
    var l := NewBlockLayout(header, body, td).value;
    NewBlockItem(header, body, td);
    HeaderRead(headerPayload, l.bodyContent);
  }

  /** The first item of a header payload that starts with a 32-byte string is that string. */
  lemma ParentRead(parent: Hash, fields: seq<byte>)
    ensures HeaderPayload(EncodeBytes(parent).value + fields) == Some(parent)
  {
    var p := LengthPrefix(32, StringOffset).value;
    var hp := EncodeBytes(parent).value + fields;
    assert hp == p + parent + fields;
    AtConcat(p + parent, fields);
    AtSplit(hp, 0, p, parent);
    ConsumeEncodedPrefix(hp, 0, 32, StringOffset, p);
    AtSlice(hp, |p|, parent);
  }

  /** Round trip: the parent hash read back is the payload of the header's first item. */
  lemma PrevBlockHashRoundTrip(parent: Hash, fields: seq<byte>, body: seq<byte>, td: nat)
    requires EncodeList(EncodeBytes(parent).value + fields).Some?
    requires NewBlockBytes(EncodeList(EncodeBytes(parent).value + fields).value, body, td).Some?
    ensures var header := EncodeList(EncodeBytes(parent).value + fields).value;
      PrevBlockHashOf(NewBlockBytes(header, body, td).value) == Some(parent)
  {
    var header := EncodeList(EncodeBytes(parent).value + fields).value;
    var l := NewBlockLayout(header, body, td).value;
    LayoutShape(header, body, td);
    OuterRead(l);
    BlockParentRead(l, parent, fields, td);
  }

  lemma BlockParentRead(l: Layout, parent: Hash, fields: seq<byte>, td: nat)
    requires EncodeList(EncodeBytes(parent).value + fields) == Some(l.header)
    requires ListPrefix(|BlockPayload(l)|) == Some(l.blockPrefix)
    requires EncodeInt(td) == Some(l.tdItem)
    ensures PrevBlockHashIn(BlockMsg(l)) == Some(parent)
  {
    var hp := EncodeBytes(parent).value + fields;
    BlockRead(l);
    DecodeEncodedInt(BlockMsg(l), |l.blockPrefix| + |BlockPayload(l)|, td);
    AtSlice(BlockMsg(l), |l.blockPrefix|, BlockPayload(l));
    HeaderRead(hp, l.bodyContent);
    ParentRead(parent, fields);
    PrevBlockHashJoin(BlockMsg(l), |l.blockPrefix|, |BlockPayload(l)|, BlockPayload(l), hp, parent);
  }

  lemma PrevBlockHashJoin(blockMsg: seq<byte>, prefixLength: nat, payloadLength: nat,
                          blockItem: seq<byte>, hp: seq<byte>, parent: seq<byte>)
    requires ConsumeLengthPrefix(blockMsg, 0) == Some(Prefix(true, payloadLength, prefixLength))
    requires DecodeInt(blockMsg, prefixLength + payloadLength).Some?
    requires Slice(blockMsg, prefixLength, prefixLength + payloadLength) == blockItem
    requires HeaderPayload(blockItem) == Some(hp)
    requires HeaderPayload(hp) == Some(parent)
    ensures PrevBlockHashIn(blockMsg) == Some(parent)
  {
  }

  /** Integer items written one after another. */
  function EncodeInts(ns: seq<nat>): seq<byte>
    requires forall k :: 0 <= k < |ns| ==> EncodeInt(ns[k]).Some?
  {
    if ns == [] then [] else EncodeInt(ns[0]).value + EncodeInts(ns[1..])
  }

  /** Skipping one more item in front of a run of skipped items. */
  lemma SkipOne(buf: seq<byte>, start: nat, length: nat, count: nat, after: nat)
    requires DecodeInt(buf, start).Some? && DecodeInt(buf, start).value.length == length
    requires SkipInts(buf, start + length, count) == Some(after)
    ensures SkipInts(buf, start, count + 1) == Some(after)
  {
  }

  /** Skipping encoded integers, wherever they sit, lands right after them. */
  lemma {:induction false} SkipEncodedInts(buf: seq<byte>, start: nat, ns: seq<nat>)
    requires forall k :: 0 <= k < |ns| ==> EncodeInt(ns[k]).Some?
    requires At(buf, start, EncodeInts(ns))
    ensures SkipInts(buf, start, |ns|) == Some(start + |EncodeInts(ns)|)
    decreases |ns|
  {
    if ns != [] {
      var length := FirstEncodedInt(buf, start, ns);
      SkipEncodedInts(buf, start + length, ns[1..]);
      SkipOne(buf, start, length, |ns| - 1, start + |EncodeInts(ns)|);
    }
  }

  /** The first of some encoded integers decodes, and the others follow it. */
  lemma FirstEncodedInt(buf: seq<byte>, start: nat, ns: seq<nat>) returns (length: nat)
    requires ns != [] && forall k :: 0 <= k < |ns| ==> EncodeInt(ns[k]).Some?
    requires At(buf, start, EncodeInts(ns))
    ensures DecodeInt(buf, start).Some? && DecodeInt(buf, start).value.length == length
    ensures |EncodeInts(ns)| == length + |EncodeInts(ns[1..])|
    ensures At(buf, start + length, EncodeInts(ns[1..]))
  {
    var item := EncodeInt(ns[0]).value;
    assert EncodeInts(ns) == item + EncodeInts(ns[1..]);
    AtSplit(buf, start, item, EncodeInts(ns[1..]));
    DecodeEncodedInt(buf, start, ns[0]);
    length := |item|;
  }

  /**
   * The timestamp is the integer item that follows the fixed-length fields and four more
   * integer items in a header payload.
   */
  lemma TimestampRead(fixed: seq<byte>, ints: seq<nat>, timestamp: nat, rest: seq<byte>)
    requires |fixed| == FixedLengthFieldOffset
    requires |ints| == 4 && forall k :: 0 <= k < 4 ==> EncodeInt(ints[k]).Some?
    requires EncodeInt(timestamp).Some?
    ensures TimestampOfPayload(fixed + EncodeInts(ints) + EncodeInt(timestamp).value + rest) == Some(timestamp)
  {
    var item := EncodeInt(timestamp).value;
    AtMiddle(fixed, EncodeInts(ints), item, rest);
    TimestampAt(fixed + EncodeInts(ints) + item + rest, ints, timestamp);
  }

  lemma TimestampAt(hp: seq<byte>, ints: seq<nat>, timestamp: nat)
    requires |ints| == 4 && forall k :: 0 <= k < 4 ==> EncodeInt(ints[k]).Some?
    requires EncodeInt(timestamp).Some?
    requires At(hp, FixedLengthFieldOffset, EncodeInts(ints))
    requires At(hp, FixedLengthFieldOffset + |EncodeInts(ints)|, EncodeInt(timestamp).value)
    ensures TimestampOfPayload(hp) == Some(timestamp)
  {
    SkipEncodedInts(hp, FixedLengthFieldOffset, ints);
    DecodeEncodedInt(hp, FixedLengthFieldOffset + |EncodeInts(ints)|, timestamp);
  }

  /** Round trip: the timestamp read back from a built message is the header's fifth integer field. */
  lemma TimestampRoundTrip(fixed: seq<byte>, ints: seq<nat>, timestamp: nat, rest: seq<byte>,
                           body: seq<byte>, td: nat)
    requires |fixed| == FixedLengthFieldOffset
    requires |ints| == 4 && forall k :: 0 <= k < 4 ==> EncodeInt(ints[k]).Some?
    requires EncodeInt(timestamp).Some?
    requires EncodeList(fixed + EncodeInts(ints) + EncodeInt(timestamp).value + rest).Some?
    requires NewBlockBytes(EncodeList(fixed + EncodeInts(ints) + EncodeInt(timestamp).value + rest).value, body, td).Some?
    ensures var header := EncodeList(fixed + EncodeInts(ints) + EncodeInt(timestamp).value + rest).value;
      TimestampOf(NewBlockBytes(header, body, td).value) == Some(timestamp)
  {
    var hp := fixed + EncodeInts(ints) + EncodeInt(timestamp).value + rest;
    var header := EncodeList(hp).value;
    var l := NewBlockLayout(header, body, td).value;
    NewBlockItem(header, body, td);
    HeaderRead(hp, l.bodyContent);
    TimestampRead(fixed, ints, timestamp, rest);
  }

  /** The as-written slice is right whenever the outer and the block prefix have the same length. */
  lemma BlockItemAsWrittenAgrees(header: seq<byte>, body: seq<byte>, td: nat)
    requires NewBlockLayout(header, body, td).Some?
    requires var l := NewBlockLayout(header, body, td).value; |l.outerPrefix| == |l.blockPrefix|
    ensures var m := NewBlockBytes(header, body, td).value;
      BlockItemBytesAsWritten(m) == BlockItemBytes(m)
  {
    var l := NewBlockLayout(header, body, td).value;
    LayoutShape(header, body, td);
    OuterRead(l);
    BlockRead(l);
  }

  /**
   * A message whose outer prefix is two bytes long while its block prefix is one byte
   * long: header `[0xc0]`, a body with 53 bytes of content, total difficulty 1. The
   * block payload as written starts one byte late, and its header reads as `[0x00]`.
   */
  lemma BlockHeaderAsWrittenMisreads()
    ensures var body := [0xf5] + Zeros(53);
      && NewBlockBytes([0xc0], body, 1) == Some(MisreadExample())
      && BlockHeaderOf(MisreadExample()) == Some([0xc0])
      && BlockHeaderAsWritten(MisreadExample()) == Some([0x00])
  {
    MisreadBuilt();
    MisreadRead();
    MisreadAsWritten();
  }

  /** The message of the counterexample: outer prefix `f8 38`, block prefix `f6`, header `c0`. */
  function MisreadExample(): seq<byte>
  {
    [0xf8, 0x38, 0xf6, 0xc0] + Zeros(53) + [0x01]
  }

  function MisreadLayout(): Layout
  {
    Layout([0xf8, 0x38], [0xf6], [0xc0], Zeros(53), [0x01])
  }

  lemma EmptyListEncoding()
    ensures EncodeList([]) == Some([0xc0])
  {
    assert ListPrefix(0) == Some([0xc0]);
    assert [0xc0] + [] == [0xc0];
  }

  lemma MisreadBuilt()
    ensures NewBlockBytes([0xc0], [0xf5] + Zeros(53), 1) == Some(MisreadExample())
  {
    MisreadLayoutBuilt();
    assert LayoutBytes(MisreadLayout()) == MisreadExample();
  }

  lemma MisreadLayoutBuilt()
    ensures NewBlockLayout([0xc0], [0xf5] + Zeros(53), 1) == Some(MisreadLayout())
  {
    var body := [0xf5] + Zeros(53);
    assert ConsumeLengthPrefix(body, 0) == Some(Prefix(true, 53, 1));
    assert BodyContent(body) == Some(Zeros(53)) by {
      assert Slice(body, 1, |body|) == Zeros(53);
    }
    assert ListPrefix(54) == Some([0xf6]);
    assert BigEndian(0) == [];
    assert BigEndian(1) == [1];
    assert EncodeInt(1) == Some([0x01]);
    assert BigEndian(56) == [56];
    LongPrefixShape(56, ListOffset);
    assert [0xf8] + [56] == [0xf8, 0x38];
    assert ListPrefix(56) == Some([0xf8, 0x38]);
    LayoutOf([0xc0], body, 1, MisreadLayout());
  }

  /** The counterexample's outer payload and block item, read with the right offsets. */
  lemma MisreadRead()
    ensures BlockHeaderOf(MisreadExample()) == Some([0xc0])
  {
    var m := MisreadExample();
    MisreadOuter();
    var blockMsg := m[2..];
    assert blockMsg[0] == 0xf6;
    assert ConsumeLengthPrefix(blockMsg, 0) == Some(Prefix(true, 54, 1));
    var blockItem := [0xc0] + Zeros(53);
    assert Slice(blockMsg, 1, 55) == blockItem;
    assert ConsumeLengthPrefix(blockItem, 0) == Some(Prefix(true, 0, 1));
    assert Slice(blockItem, 0, 1) == [0xc0];
  }

  lemma MisreadOuter()
    ensures OuterItem(MisreadExample()) == Some(Prefix(true, 56, 2))
    ensures BlockMsgBytes(MisreadExample()) == Some(MisreadExample()[2..])
  {
    var m := MisreadExample();
    assert FromBigEndian([0x38]) == 56 by { assert [0x38][..0] == []; }
    assert Slice(m, 1, 2) == [0x38];
    assert BigEndianAt(m, 1, 1) == 56;
    assert Slice(m, 2, 58) == m[2..];
  }

  lemma MisreadAsWritten()
    ensures BlockItemBytesAsWritten(MisreadExample()) == Some(Zeros(53) + [0x01])
    ensures BlockHeaderAsWritten(MisreadExample()) == Some([0x00])
  {
    var m := MisreadExample();
    MisreadOuter();
    var blockMsg := m[2..];
    assert blockMsg[0] == 0xf6;
    assert ConsumeLengthPrefix(blockMsg, 0) == Some(Prefix(true, 54, 1));
    assert Slice(blockMsg, 2, 56) == Zeros(53) + [0x01];
    var asWritten := Zeros(53) + [0x01];
    assert ConsumeLengthPrefix(asWritten, 0) == Some(Prefix(false, 1, 0));
    assert Slice(asWritten, 0, 1) == [0x00];
  }

  /**
   * A NewBlock message with the caches of its accessors. `keccak` stands for
   * `crypto_utils.keccak_hash`. Each accessor computes its value once and then returns the
   * cached value, which is always the value computed from the message bytes.
   */
  class NewBlockEthProtocolMessage {
    const raw: seq<byte>
    const keccak: seq<byte> -> Hash

    var cachedHeader: Option<seq<byte>>
    var cachedHash: Option<Hash>
    var cachedDifficulty: Option<nat>
    var cachedTimestamp: Option<nat>

    ghost predicate Valid()
      reads this
    {
      && (cachedHeader.Some? ==> cachedHeader == BlockHeaderOf(raw))
      && (cachedHash.Some? ==> BlockHeaderOf(raw).Some? && cachedHash.value == keccak(BlockHeaderOf(raw).value))
      && (cachedDifficulty.Some? ==> cachedDifficulty == ChainDifficultyOf(raw))
      && (cachedTimestamp.Some? ==> cachedTimestamp == TimestampOf(raw))
    }

    constructor (raw: seq<byte>, keccak: seq<byte> -> Hash)
      ensures Valid()
      ensures this.raw == raw && this.keccak == keccak
      ensures cachedHeader.None? && cachedHash.None? && cachedDifficulty.None? && cachedTimestamp.None?
    {
      this.raw, this.keccak := raw, keccak;
      cachedHeader, cachedHash, cachedDifficulty, cachedTimestamp := None, None, None, None;
    }

    /** `chain_difficulty`; `None` is a malformed message. */
    method ChainDifficulty() returns (r: Option<nat>)
      requires Valid()
      modifies this`cachedDifficulty
      ensures Valid()
      ensures r == ChainDifficultyOf(raw) && cachedDifficulty == r
    {
      if cachedDifficulty.None? {
        cachedDifficulty := ChainDifficultyOf(raw);
      }
      r := cachedDifficulty;
    }

    /** `block_header`. */
    method BlockHeader() returns (r: Option<seq<byte>>)
      requires Valid()
      modifies this`cachedHeader
      ensures Valid()
      ensures r == BlockHeaderOf(raw) && cachedHeader == r
    {
      if cachedHeader.None? {
        cachedHeader := BlockHeaderOf(raw);
      }
      r := cachedHeader;
    }

    /** `block_hash`: the Keccak-256 digest of the header item. */
    method BlockHash() returns (r: Option<Hash>)
      requires Valid()
      modifies this`cachedHeader, this`cachedHash
      ensures Valid()
      ensures r == match BlockHeaderOf(raw) { case None => None case Some(h) => Some(keccak(h)) }
      ensures cachedHash == r
      ensures cachedHeader == old(cachedHeader) || cachedHeader == BlockHeaderOf(raw)
    {
      if cachedHash.None? {
        var header := BlockHeader();
        if header.None? {
          return None;
        }
        cachedHash := Some(keccak(header.value));
      }
      r := cachedHash;
    }

    /** `timestamp`. */
    method Timestamp() returns (r: Option<nat>)
      requires Valid()
      modifies this`cachedTimestamp
      ensures Valid()
      ensures r == TimestampOf(raw) && cachedTimestamp == r
    {
      if cachedTimestamp.None? {
        cachedTimestamp := TimestampOf(raw);
      }
      r := cachedTimestamp;
    }
  }
}
