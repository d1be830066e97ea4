# bloXroute gateway message-handling core in Dafny

A Dafny model of the sequential message-handling core of the bloXroute BTC/ETH
gateway, with proofs about it. The gateway runs between a blockchain node and the
bloXroute distribution network (BDN). It compresses the blocks its node produces into
"bx blocks" and propagates them. It decompresses bx blocks received from the BDN and
hands them to its node. It also assembles Ethereum blocks from the headers and bodies
the node sends.

The model covers these parts, one module each:

- `BlockProcessing` (`block_processing.dfy`) is the block processing service. It
  places holds on block hashes announced by other gateways. It decides whether a block
  is propagated at once or when its hold times out. It routes decompressed blocks and
  runs transaction recovery with the bounded back-off table.
- `BtcConverter` (`btc_converter.dfy`) is the Bitcoin bx-block codec. It covers
  `block_to_bx_block`, `parse_bx_block_header`, `parse_bx_block_transactions`,
  `build_btc_block`, `bx_block_to_block`, Bitcoin message headers, CompactSize
  integers and the short-id section.
- `BtcCompact` (`btc_compact.dfy`) rebuilds BIP 152 compact blocks:
  - the SipHash key and short ids;
  - matching the transaction service's hashes against the short ids;
  - laying out prefilled and matched transactions;
  - the recovery items kept by `BtcNormalMessageConverter`;
  - filling in recovered transactions and rebuilding the `block` message.
- `EthNodeProtocol` (`eth_node_protocol.dfy`) is the new-block assembly of the
  connection to an Ethereum node. It keeps a pending table of header and body parts, a
  ready stack and the bounded queue of body requests.
- `NewBlockMessage` (`new_block_message.dfy`) covers the eth/63 `NewBlock` message:
  `from_new_block_parts` and the accessors `chain_difficulty`, `block_header`,
  `block_hash`, `prev_block_hash` and `timestamp`, with their caches.
- `Rlp` (`rlp.dfy`) is the RLP encoding (Ethereum Yellow Paper, Appendix B) that the
  NewBlock message uses.
- `RelayConnection` (`relay_connection.dfy`) covers the relay connection's handlers
  `msg_tx`, `msg_txs`, `msg_broadcast`, `msg_key` and `msg_block_holding`.
- `BtcProtocol` (`btc_protocol.dfy`) covers the Bitcoin node connection protocols:
  - the handshake a connection opens with;
  - ping, pong, getaddr, block and inv handling;
  - the handler tables;
  - `msg_version`, which flushes the messages queued while no node was connected.
- `GatewayConstants` (`gateway_constants.dfy`) holds the recovery back-off table and
  its limits, the ping interval and the neutrality policy codes.
- `TxService` (`tx_service.dfy`) is the part of the transaction service the core
  reads and writes.
- `Bytes` and `Wrappers` are shared helpers: bytes, little-endian words, writing
  pieces into buffers, `Option` and `Result`.

Some code of the repository is not part of this model. This includes the helpers
the core calls (`rlp_utils`, `compact_block_short_ids_serializer`,
`btc_messages_util`, `btc_constants`) and the services and base classes of the
`bxcommon` library. Where a behaviour of theirs matters, the model states it:

- cryptographic and parsing functions are function-typed parameters fixed at
  construction;
- services the core only calls are logs of the calls made, or sets and maps it reads;
- the few constants of theirs the core depends on are written out, with the standard
  they come from.

Time is an integer number of milliseconds passed in as a parameter.

## Model

| member | source | states |
|---|---|---|
| GatewayConstants.MaxRetryAttemptsIsTableLength | src/bxgateway/gateway_constants.py:13-14 | the retry limit equals the length of the interval table, 5, so a retry index below the limit is in range |
| GatewayConstants.RecoveryIntervalsIncrease | src/bxgateway/gateway_constants.py:13 | the recovery intervals are strictly increasing |
| GatewayConstants.RecoveryIntervalsFitQueueTime | src/bxgateway/gateway_constants.py:13-15 | the intervals add up to 8.6 s, below the 15 s maximal queue time |
| GatewayConstants.RecoveryIntervalsHalveExactly | src/bxgateway/services/block_processing_service.py:490-492 | every interval, in milliseconds, halves exactly, so the slack `delay / 2` is exact |
| GatewayConstants.NeutralityPolicyCodes | src/bxgateway/gateway_constants.py:19-32 | the four policy codes are distinct; the configured policy is one of them; the expected receipt percentage is in 0..100 |
| TxService.AssignShortId | src/bxgateway/connections/abstract_relay_connection.py:118-119 | assigning a short id leaves the stored contents unchanged |
| TxService.SetTransactionContents | src/bxgateway/connections/abstract_relay_connection.py:141-143 | setting contents leaves both short-id maps unchanged |
| TxService.UnknownShortIds | src/bxgateway/messages/btc/btc_normal_message_converter.py:83-86 | every reported short id is one of the block's and is unknown to the service; none are reported exactly when every short id is known |
| TxService.UnknownHashes | src/bxgateway/messages/btc/btc_normal_message_converter.py:83-86 | no hash is reported exactly when every known short id's hash has contents |
| TxService.NothingMissing | src/bxgateway/messages/btc/btc_normal_message_converter.py:83-86 | nothing is missing if and only if every short id resolves to a hash with stored contents |
| BlockProcessing.ShortIdsOf | src/bxgateway/services/block_processing_service.py:444-451 | one short id per hash |
| BlockProcessing.ShortIdsOfAt | src/bxgateway/services/block_processing_service.py:444-451 | the k-th short id is the service's short id of the k-th hash |
| BlockProcessing.RecoveryRequestShortIds | src/bxgateway/services/block_processing_service.py:444-451 | the request loop builds the unknown short ids followed by the short ids of the unknown hashes |
| BlockProcessing.RecoveryRequestOrder | src/bxgateway/services/block_processing_service.py:444-451 | the request lists the unknown short ids in input order, then the unknown hashes' short ids in input order, and nothing else |
| BlockProcessing.RetryDelaysBackOff | src/bxgateway/services/block_processing_service.py:482-493 | while recovery goes on, a later attempt waits strictly longer than an earlier one |
| BlockProcessing.BlockProcessingService.constructor | src/bxgateway/services/block_processing_service.py:66-88 | the service starts with no holds, alarms, broadcasts, propagations, queued blocks, recoveries or transaction-service calls |
| BlockProcessing.BlockProcessingService.AtMostOneHoldAlarm | src/bxgateway/services/block_processing_service.py:98-108 | under the object invariant, two hold-timeout alarms for the same hash are the same alarm |
| BlockProcessing.BlockProcessingService.RegisterAlarm | src/bxgateway/services/block_processing_service.py:104-106 | a registered alarm gets a fresh id and the next id moves past it, and no other alarm changes |
| BlockProcessing.BlockProcessingService.PlaceHold | src/bxgateway/services/block_processing_service.py:66-88 | a seen or already held hash changes nothing, so the first hold's time is kept; otherwise exactly one hold is added and one hold message is broadcast |
| BlockProcessing.BlockProcessingService.ProcessAndBroadcastBlock | src/bxgateway/services/block_processing_service.py:264-312 | the block is compressed against the current transaction service; on success the bx block is propagated once and the delayed tracking of its short ids is requested; on a conversion error nothing is propagated or requested |
| BlockProcessing.BlockProcessingService.QueueBlockForProcessing | src/bxgateway/services/block_processing_service.py:90-119 | with a hold and no alarm, one alarm is registered and the block is stored, with nothing propagated; with a hold that has an alarm, nothing changes; without a hold, a hold message is broadcast and the block is propagated, with its short ids tracked |
| BlockProcessing.BlockProcessingService.CancelHoldTimeout | src/bxgateway/services/block_processing_service.py:121-135 | the hold is removed and its alarm, if any, unregistered; an unheld hash changes nothing |
| BlockProcessing.BlockProcessingService.FireHoldingTimeout | src/bxgateway/services/block_processing_service.py:258-262 | a fired hold timeout removes its alarm and propagates exactly the block its hold stored, compressed against the current transaction service |
| BlockProcessing.BlockProcessingService.StartTransactionRecovery | src/bxgateway/services/block_processing_service.py:442-454 | one recovery request is broadcast: the unknown short ids, then the unknown hashes' short ids |
| BlockProcessing.BlockProcessingService.HandleDecryptedBlock | src/bxgateway/services/block_processing_service.py:329-440 | without a node connection nothing changes; a block that fails to decompress against the current transaction service changes nothing except one clean-up call for the block the error names; otherwise the hold and its alarm are dropped and the block is routed as `Routed` says |
| BlockProcessing.BlockProcessingService.RouteDecompressed | src/bxgateway/services/block_processing_service.py:369-440 | a seen block only has its short ids tracked as seen; a complete block is pushed, or updated if recovered or already queued, marked seen and its short ids tracked; an incomplete block starts recovery with its attempt counter registered at 0 and is queued waiting for recovery, unless it is already queued and not recovered; only that branch changes the counters |
| BlockProcessing.BlockProcessingService.ScheduleRecoveryRetry | src/bxgateway/services/block_processing_service.py:475-493 | past the retry limit or the timeout, recovery is cancelled, the block removed from the queue and no alarm registered; otherwise exactly one alarm under a fresh id, with the table delay for the attempt count and half of it as slack |
| BlockProcessing.BlockProcessingService.TriggerRecoveryRetryNow | src/bxgateway/services/block_processing_service.py:495-500 | the attempt counter grows by exactly one and the recovery request is sent again |
| BlockProcessing.BlockProcessingService.FireRecoveryRetry | src/bxgateway/services/block_processing_service.py:495-500 | a fired retry alarm is consumed, counts one attempt and resends the request |
| BtcConverter.BlockBytes | src/bxgateway/messages/btc/btc_normal_message_converter.py:131-145 | a block's bytes are its header and transactions, with lengths adding up |
| BtcConverter.SerializeShortIds | src/bxgateway/messages/btc/btc_normal_message_converter.py:163-170 | the short-id section takes four bytes for the count and four per short id |
| BtcConverter.ShortIdWords | src/bxgateway/messages/btc/btc_normal_message_converter.py:163-170 | four bytes per short id |
| BtcConverter.WordAt | src/bxgateway/messages/btc/btc_normal_message_converter.py:42-71 | a word is read exactly when four bytes remain |
| BtcConverter.ReadWords | src/bxgateway/messages/btc/btc_normal_message_converter.py:42-71 | a successful read gives the requested number of words |
| BtcConverter.ReadCompactSize | src/bxgateway/messages/btc/btc_normal_message_converter.py:42-71 | a CompactSize integer takes 1, 3, 5 or 9 bytes, all inside the buffer |
| BtcConverter.CompactSize | src/bxgateway/messages/btc/btc_normal_message_converter.py:401-403 | an encoded count reads back as the count and its own length |
| BtcConverter.CompactSizeWide | src/bxgateway/messages/btc/btc_normal_message_converter.py:401-403 | the 3-, 5- and 9-byte forms read back as their value |
| BtcConverter.MessageHeader | src/bxgateway/messages/btc/btc_normal_message_converter.py:411-424 | a message header is 24 bytes and ends with the checksum |
| BtcConverter.MessageHeaderFields | src/bxgateway/messages/btc/btc_normal_message_converter.py:411-412 | the header's magic and length read back, and the command is zero-padded to 12 bytes |
| BtcConverter.ReadWordsAt | src/bxgateway/messages/btc/btc_normal_message_converter.py:42-71 | serialised short ids read back word by word give the short ids |
| BtcConverter.ShortIdsRoundTrip | src/bxgateway/messages/btc/btc_normal_message_converter.py:42-71 | the short-id section, wherever it is written, deserialises to its short ids |
| BtcConverter.CompactSizeAt | src/bxgateway/messages/btc/btc_normal_message_converter.py:42-71 | a CompactSize integer reads the same inside any buffer it is copied into |
| BtcConverter.TxPieces | src/bxgateway/messages/btc/btc_normal_message_converter.py:146-156 | one piece per transaction |
| BtcConverter.TxPiecesAt | src/bxgateway/messages/btc/btc_normal_message_converter.py:146-156 | a transaction with a short id becomes the one-byte indicator, and any other is copied verbatim |
| BtcConverter.BlockShortIdsAppend | src/bxgateway/messages/btc/btc_normal_message_converter.py:146-156 | short ids are collected in block order, one per transaction that has one |
| BtcConverter.BxBlockLayout | src/bxgateway/messages/btc/btc_normal_message_converter.py:158-170 | the first 8 bytes give the offset `8 + header + pieces`; then come the header and the pieces; the short-id section at that offset holds the block's short ids and ends the buffer |
| BtcConverter.ConcatAround | src/bxgateway/messages/btc/btc_normal_message_converter.py:163-170 | pieces written back to back concatenate, and their lengths add up |
| BtcConverter.BxBlockPieces | src/bxgateway/messages/btc/btc_normal_message_converter.py:158-170 | the pieces the converter writes make up the bx block, and their total is the buffer size |
| BtcConverter.CompressStep | src/bxgateway/messages/btc/btc_normal_message_converter.py:146-156 | one more transaction adds its piece, its bytes and its short id, if any |
| BtcConverter.CompressTransactions | src/bxgateway/messages/btc/btc_normal_message_converter.py:146-156 | the transaction loop computes the pieces, their byte count and the block's short ids |
| BtcConverter.BlockToBxBlock | src/bxgateway/messages/btc/btc_normal_message_converter.py:131-189 | a compressible block gives its bx block and short ids; a block whose offset or short ids do not fit their fields is an error |
| BtcConverter.ParseBxBlockHeader | src/bxgateway/messages/btc/btc_normal_message_converter.py:42-71 | success gives the offset from the first 8 bytes, the short ids there, the transaction count, the header piece up to the count, and the hash of the 80-byte header; failure happens exactly for a short buffer, an unreadable short-id section or an unreadable count |
| BtcConverter.JoinEnds | src/bxgateway/messages/btc/btc_normal_message_converter.py:89-108 | joining nothing, or joining onto an empty rest, is the identity |
| BtcConverter.JoinPrepend | src/bxgateway/messages/btc/btc_normal_message_converter.py:89-108 | a piece put in front of the rest is the last piece gathered |
| BtcConverter.ParseStep | src/bxgateway/messages/btc/btc_normal_message_converter.py:89-108 | a successful step advances the offset |
| BtcConverter.ParseAdvance | src/bxgateway/messages/btc/btc_normal_message_converter.py:89-108 | a step that reads a piece moves it from the pieces still to read to the gathered ones |
| BtcConverter.ParseUnfold | src/bxgateway/messages/btc/btc_normal_message_converter.py:89-108 | the pieces from an offset are the step's piece followed by the pieces after it |
| BtcConverter.ReadPieces | src/bxgateway/messages/btc/btc_normal_message_converter.py:89-108 | the parse loop gives the pieces `ParsePieces` defines, and the output offset grows by each piece's length |
| BtcConverter.ParseBxBlockTransactions | src/bxgateway/messages/btc/btc_normal_message_converter.py:74-110 | with an unresolvable short id, the unknown lists come back with the offset unchanged and no pieces; otherwise the pieces or the parse error, with the offset advanced by their total length |
| BtcConverter.BuildBtcBlock | src/bxgateway/messages/btc/btc_normal_message_converter.py:113-122 | the pieces are written contiguously in order, and the returned offset is their total length |
| BtcConverter.BxBlockToBlock | src/bxgateway/messages/btc/btc_normal_message_converter.py:191-238 | decompression as `DecompressBxBlock` defines it: no block while transactions are missing; otherwise the header piece and the transaction pieces in a buffer sized by the output offset |
| BtcConverter.AllRestoreIff | src/bxgateway/messages/btc/btc_normal_message_converter.py:89-108 | a list can be restored first to last if and only if each of its transactions can |
| BtcConverter.TxPiecesCons | src/bxgateway/messages/btc/btc_normal_message_converter.py:146-156 | the first transaction's piece comes first |
| BtcConverter.ShortIdsResolve | src/bxgateway/messages/btc/btc_normal_message_converter.py:146-156 | every listed short id resolves when every transaction can be restored |
| BtcConverter.CompressedIsConcat | src/bxgateway/messages/btc/btc_normal_message_converter.py:146-170 | the compressed transactions are the pieces laid end to end |
| BtcConverter.RestoreStep | src/bxgateway/messages/btc/btc_normal_message_converter.py:89-108 | one parse step reads a restorable transaction back from its piece, past the piece and its short id |
| BtcConverter.CompressedFirst | src/bxgateway/messages/btc/btc_normal_message_converter.py:146-156 | the first piece leads the compressed bytes, and the rest follow it |
| BtcConverter.ShortIdsFirst | src/bxgateway/messages/btc/btc_normal_message_converter.py:146-156 | the first transaction's short id, if any, leads the short ids |
| BtcConverter.RestoreFirst | src/bxgateway/messages/btc/btc_normal_message_converter.py:89-108 | parsing the first piece gives the first transaction and leaves the rest in place |
| BtcConverter.ParseRestores | src/bxgateway/messages/btc/btc_normal_message_converter.py:89-108 | parsing the compressed pieces of restorable transactions gives the transactions back |
| BtcConverter.HeaderRoundTrip | src/bxgateway/messages/btc/btc_normal_message_converter.py:42-71 | a block's bx block parses back to the block's header, short-id offset, short ids and header hash |
| BtcConverter.DecompressParsed | src/bxgateway/messages/btc/btc_normal_message_converter.py:191-238 | with the header parsed and nothing missing, decompression builds the header and transactions into a buffer of the output offset's size |
| BtcConverter.BuiltBlockOf | src/bxgateway/messages/btc/btc_normal_message_converter.py:113-122 | the rebuilt buffer is the block followed by zero bytes |
| BtcConverter.TransactionsRoundTrip | src/bxgateway/messages/btc/btc_normal_message_converter.py:74-110 | the pieces of a block's bx block parse back to its transactions, with nothing missing |
| BtcConverter.DecompressTo | src/bxgateway/messages/btc/btc_normal_message_converter.py:191-238 | a bx block whose header and pieces read back as a block decompresses to that block and 8 zero bytes |
| BtcConverter.BxBlockRoundTrip | src/bxgateway/messages/btc/btc_normal_message_converter.py:131-238 | decompression undoes compression: the block comes back byte for byte, followed by 8 zero bytes, with its hash and short ids and nothing missing |
| BtcCompact.Reversed | src/bxgateway/messages/btc/btc_normal_message_converter.py:262 | reversal keeps the length |
| BtcCompact.ReversedAt | src/bxgateway/messages/btc/btc_normal_message_converter.py:262 | reversal puts byte `i` at the mirrored position |
| BtcCompact.SipKey | src/bxgateway/messages/btc/btc_normal_message_converter.py:249-255 | the key is the first 16 bytes of SHA-256 over the block header and the nonce |
| BtcCompact.ComputeShortId | src/bxgateway/messages/btc/btc_normal_message_converter.py:125-126 | a short id is the first 6 bytes of SipHash-2-4 of the hash in internal byte order |
| BtcCompact.MatchShortIds | src/bxgateway/messages/btc/btc_normal_message_converter.py:259-271 | the matching loop, including its early exit, computes `MatchFrom` |
| BtcCompact.MatchSound | src/bxgateway/messages/btc/btc_normal_message_converter.py:261-269 | every recorded short id is one the block lists, and its content is the content of a service hash with that short id |
| BtcCompact.MatchComplete | src/bxgateway/messages/btc/btc_normal_message_converter.py:261-271 | with distinct short ids, every service hash with contents whose short id the block lists gets its short id recorded |
| BtcCompact.CountFreeOrder | src/bxgateway/messages/btc/btc_normal_message_converter.py:290-294 | a later index without a prefilled transaction takes a later short id |
| BtcCompact.CountFreeGrows | src/bxgateway/messages/btc/btc_normal_message_converter.py:290-294 | the short ids used up never decrease along the indices |
| BtcCompact.Layout | src/bxgateway/messages/btc/btc_normal_message_converter.py:292-308 | one entry per index |
| BtcCompact.LayoutAt | src/bxgateway/messages/btc/btc_normal_message_converter.py:292-308 | entry `i` is the transaction at index `i` |
| BtcCompact.LayoutNext | src/bxgateway/messages/btc/btc_normal_message_converter.py:292-308 | one more index adds its transaction, its missing entry and its short id |
| BtcCompact.MissingIndicesExact | src/bxgateway/messages/btc/btc_normal_message_converter.py:302-303 | the missing indices are strictly increasing and are exactly the positions left empty |
| BtcCompact.LayoutAdvance | src/bxgateway/messages/btc/btc_normal_message_converter.py:292-308 | one more index keeps the layout loop's state |
| BtcCompact.CountFreeStep | src/bxgateway/messages/btc/btc_normal_message_converter.py:293-294 | an index without a prefilled transaction uses one short id |
| BtcCompact.LayoutExhausted | src/bxgateway/messages/btc/btc_normal_message_converter.py:294 | a free index met with every short id used up leaves more free indices than short ids |
| BtcCompact.LayoutFails | src/bxgateway/messages/btc/btc_normal_message_converter.py:294 | the layout fails when more indices are free than there are short ids, as `next` on the exhausted iterator raises |
| BtcCompact.LayoutDone | src/bxgateway/messages/btc/btc_normal_message_converter.py:292-308 | the loop's state after the last index is the layout's result |
| BtcCompact.TransactionAt | src/bxgateway/messages/btc/btc_normal_message_converter.py:293-308 | an index fails exactly when it is free and no short id is left; otherwise it gives the prefilled transaction or the next short id's match |
| BtcCompact.LayOutTransactions | src/bxgateway/messages/btc/btc_normal_message_converter.py:273-308 | the layout loop computes `CompactTransactions` |
| BtcCompact.Fill | src/bxgateway/messages/btc/btc_normal_message_converter.py:389-391 | filling keeps the number of positions |
| BtcCompact.FillAt | src/bxgateway/messages/btc/btc_normal_message_converter.py:389-391 | filling succeeds exactly when every missing index is in range; with distinct indices each missing position gets its recovered transaction and every other position is kept |
| BtcCompact.FillFails | src/bxgateway/messages/btc/btc_normal_message_converter.py:389-391 | a fill that fails part way fails as a whole |
| BtcCompact.Present | src/bxgateway/messages/btc/btc_normal_message_converter.py:407-409 | the transactions, when present, keep the number of positions |
| BtcCompact.PresentAt | src/bxgateway/messages/btc/btc_normal_message_converter.py:407-409 | the transactions are present if and only if every position holds one, and then they are those positions' transactions |
| BtcCompact.FilledTransactions | src/bxgateway/messages/btc/btc_normal_message_converter.py:389-409 | a successful fill keeps the number of positions |
| BtcCompact.FilledTransactionsAt | src/bxgateway/messages/btc/btc_normal_message_converter.py:389-409 | with distinct indices, filling succeeds if and only if all are in range and every other position holds a transaction; then the missing positions hold the recovered transactions in order and the others their own |
| BtcCompact.RebuiltPayload | src/bxgateway/messages/btc/btc_normal_message_converter.py:393-409 | the payload's length is the header, the count and the transactions' lengths |
| BtcCompact.FramedFields | src/bxgateway/messages/btc/btc_normal_message_converter.py:411-424 | a framed payload starts with the magic, the `block` command padded with zeros, the payload length and the checksum, then the payload |
| BtcCompact.RebuiltBytes | src/bxgateway/messages/btc/btc_normal_message_converter.py:411-424 | the rebuilt message is its message header followed by its payload |
| BtcCompact.RebuiltBlockFields | src/bxgateway/messages/btc/btc_normal_message_converter.py:393-424 | the rebuilt message holds the magic, the `block` command, the length of what follows the header, the first four bytes of that part's double SHA-256, then the header, count and transactions |
| BtcCompact.RebuiltShape | src/bxgateway/messages/btc/btc_normal_message_converter.py:411-414 | an 80-byte block header behind a message header, followed by a count, has the header shape decompression expects |
| BtcCompact.ReadCompactSizeAfter | src/bxgateway/messages/btc/btc_normal_message_converter.py:401-404 | the count reads back where it was written |
| BtcCompact.LayoutShape | src/bxgateway/messages/btc/btc_normal_message_converter.py:290-308 | prefilled indices hold their transactions; the other indices hold the next short id's match or nothing; the missing indices are increasing and exact |
| BtcCompact.LayoutIndexHolds | src/bxgateway/messages/btc/btc_normal_message_converter.py:292-308 | one index of the layout, as `LayoutShape` says |
| BtcCompact.CompactTransactionsShape | src/bxgateway/messages/btc/btc_normal_message_converter.py:273-308 | the laid-out block has one position per prefilled transaction and short id; prefilled indices hold their transactions; the others take the short ids in order; the missing indices are strictly increasing and are exactly the empty positions |
| BtcCompact.IncreasingDistinct | src/bxgateway/messages/btc/btc_normal_message_converter.py:302 | increasing missing indices are distinct |
| BtcCompact.CompactRecoveryComplete | src/bxgateway/messages/btc/btc_normal_message_converter.py:389-391 | recovering as many transactions as were missing fills every position: the recovered ones at the missing indices in order, the laid-out ones elsewhere |
| BtcCompact.RebuildCompact | src/bxgateway/messages/btc/btc_normal_message_converter.py:368-443 | a count mismatch is an unsuccessful result carrying the lists back; a success carries a bx block, compressed against the transaction service as it is at recovery, no recovery index and empty lists |
| BtcCompact.RebuildCompactBlock | src/bxgateway/messages/btc/btc_normal_message_converter.py:389-427 | a successful rebuild is the bx block of the `block` message rebuilt over the filled transactions |
| BtcCompact.RebuildRoundTrip | src/bxgateway/messages/btc/btc_normal_message_converter.py:368-443 | the rebuilt bx block decompresses to the rebuilt `block` message followed by 8 zero bytes |
| BtcCompact.RebuiltHeaderAt | src/bxgateway/messages/btc/btc_normal_message_converter.py:411-414 | the block header sits right behind the 24-byte message header |
| BtcCompact.BtcNormalMessageConverter.constructor | src/bxgateway/messages/btc/btc_normal_message_converter.py:328-331 | the converter starts with no recovery items and index 0 |
| BtcCompact.BtcNormalMessageConverter.CompactBlockToBxBlock | src/bxgateway/messages/btc/btc_normal_message_converter.py:240-341 | with missing transactions, the laid-out block is kept under a fresh recovery index, the index is incremented and the unsuccessful result carries it with the missing indices; with none missing, the block is rebuilt and compressed at once against the same transaction service |
| BtcCompact.BtcNormalMessageConverter.RecoveredCompactBlockToBxBlock | src/bxgateway/messages/btc/btc_normal_message_converter.py:343-366 | the item under the result's index is popped and the block rebuilt from it, against the transaction service as it is now; an index with no item is an error and nothing changes |
| BtcCompact.BtcNormalMessageConverter.RecoverFromItem | src/bxgateway/messages/btc/btc_normal_message_converter.py:368-443 | the fill, collect and rebuild steps compute `RebuildCompact` against the transaction service passed in |
| BtcCompact.CollectTransactions | src/bxgateway/messages/btc/btc_normal_message_converter.py:407-409 | the loop gives the transactions when every position holds one, and their total length |
| BtcCompact.PresentStep | src/bxgateway/messages/btc/btc_normal_message_converter.py:407-409 | one more position adds its transaction or fails |
| BtcCompact.PresentMissing | src/bxgateway/messages/btc/btc_normal_message_converter.py:409 | an empty position makes the collection fail |
| BtcCompact.FillMissing | src/bxgateway/messages/btc/btc_normal_message_converter.py:389-391 | the fill loop computes `Fill` |
| EthNodeProtocol.HashesOf | src/bxgateway/connections/eth/eth_node_connection_protocol.py:104-110 | the hashes of the pairs, in order |
| EthNodeProtocol.Unseen | src/bxgateway/connections/eth/eth_node_connection_protocol.py:80-99 | the kept pairs are exactly the announced pairs whose hash was not seen |
| EthNodeProtocol.UnseenDistinct | src/bxgateway/connections/eth/eth_node_connection_protocol.py:80-99 | distinct announced hashes leave distinct unseen hashes |
| EthNodeProtocol.AddPendingEntries | src/bxgateway/connections/eth/eth_node_connection_protocol.py:104-106 | each unseen hash gets an empty entry with its block number, and every other entry is kept |
| EthNodeProtocol.HeaderRequests | src/bxgateway/connections/eth/eth_node_connection_protocol.py:104-108 | one header request per unseen hash, for that hash alone |
| EthNodeProtocol.BoundedAppend | src/bxgateway/connections/eth/eth_node_connection_protocol.py:56 | the queue never exceeds its maximum length; below it the entry is appended, and at it the oldest entry is dropped |
| EthNodeProtocol.AttachBody | src/bxgateway/connections/eth/eth_node_connection_protocol.py:171-188 | matching one body keeps the pending keys, and only the body's hash can become ready |
| EthNodeProtocol.AttachBodies | src/bxgateway/connections/eth/eth_node_connection_protocol.py:171-188 | matching bodies keeps the pending keys, and only requested pending hashes become ready |
| EthNodeProtocol.AttachBodiesBody | src/bxgateway/connections/eth/eth_node_connection_protocol.py:171-188 | a pending hash gets the body at its position in the request |
| EthNodeProtocol.AttachBodiesKeeps | src/bxgateway/connections/eth/eth_node_connection_protocol.py:171-188 | a hash that was not requested keeps its entry and its place on the ready stack |
| EthNodeProtocol.AttachBodiesReadyAt | src/bxgateway/connections/eth/eth_node_connection_protocol.py:171-188 | a requested hash becomes ready if and only if it is pending and its header is already there |
| EthNodeProtocol.AttachBodiesDrainable | src/bxgateway/connections/eth/eth_node_connection_protocol.py:171-190 | matching distinct hashes keeps the ready stack free of repeats and pending |
| EthNodeProtocol.UnknownBodiesIgnored | src/bxgateway/connections/eth/eth_node_connection_protocol.py:171-188 | bodies for hashes neither pending nor marked for cleanup change nothing |
| EthNodeProtocol.EthNodeConnectionProtocol.constructor | src/bxgateway/connections/eth/eth_node_connection_protocol.py:29-56 | the connection starts with empty tables, stack, queue and logs |
| EthNodeProtocol.EthNodeConnectionProtocol.DrainedExactly | src/bxgateway/connections/eth/eth_node_connection_protocol.py:206-226 | the blocks queued for processing are exactly the ready entries with a valid timestamp |
| EthNodeProtocol.EthNodeConnectionProtocol.HeaderHashes | src/bxgateway/connections/eth/eth_node_connection_protocol.py:150-154 | the first header's parent hash comes first, then each header's hash |
| EthNodeProtocol.EthNodeConnectionProtocol.HeaderHashesOf | src/bxgateway/connections/eth/eth_node_connection_protocol.py:150-154 | each header's Keccak-256 hash, in order |
| EthNodeProtocol.EthNodeConnectionProtocol.CheckPendingNewBlock | src/bxgateway/connections/eth/eth_node_connection_protocol.py:199-204 | a hash goes on the ready stack once its header and body are both there |
| EthNodeProtocol.EthNodeConnectionProtocol.ProcessReadyNewBlocks | src/bxgateway/connections/eth/eth_node_connection_protocol.py:206-226 | the ready stack ends empty; each popped hash leaves the pending table; only timestamp-valid blocks are queued, last ready first |
| EthNodeProtocol.EthNodeConnectionProtocol.RequestBlockBody | src/bxgateway/connections/eth/eth_node_connection_protocol.py:112-118 | one body request goes to the node, and the hashes enter the bounded request queue |
| EthNodeProtocol.EthNodeConnectionProtocol.ReportAnnounced | src/bxgateway/connections/eth/eth_node_connection_protocol.py:80-99 | every announced hash is reported seen, and the unseen pairs are kept |
| EthNodeProtocol.EthNodeConnectionProtocol.RequestHeaders | src/bxgateway/connections/eth/eth_node_connection_protocol.py:104-108 | an empty pending entry and a header request per unseen pair |
| EthNodeProtocol.EthNodeConnectionProtocol.MsgNewBlockHashes | src/bxgateway/connections/eth/eth_node_connection_protocol.py:78-110 | seen hashes are skipped; each unseen hash gets a pending entry and a header request; one body request covers all unseen hashes in order; nothing is requested when every hash was seen |
| EthNodeProtocol.EthNodeConnectionProtocol.MsgBlockHeaders | src/bxgateway/connections/eth/eth_node_connection_protocol.py:135-154 | only a single header whose hash is pending, with a non-empty table, is attached and the ready blocks processed; otherwise the headers, with the parent hash in front, go to cleanup and to seen-marking |
| EthNodeProtocol.EthNodeConnectionProtocol.MsgBlockBodies | src/bxgateway/connections/eth/eth_node_connection_protocol.py:156-190 | the oldest request is taken; a count mismatch clears the queue and changes nothing else; otherwise bodies are matched by position and the ready blocks processed |
| Rlp.BigEndian | src/bxgateway/messages/eth/protocol/new_block_eth_protocol_message.py:53 | the big-endian bytes of a number have no leading zero |
| Rlp.BigEndianRoundTrip | src/bxgateway/messages/eth/protocol/new_block_eth_protocol_message.py:95 | big-endian bytes decode back to the number |
| Rlp.BigEndianLength | src/bxgateway/messages/eth/protocol/new_block_eth_protocol_message.py:50-56 | a number below 256^w takes at most w bytes |
| Rlp.MaxItemLengthIsPow256 | src/bxgateway/messages/eth/protocol/new_block_eth_protocol_message.py:50-56 | the largest encodable length is 256^8 |
| Rlp.LengthPrefix | src/bxgateway/messages/eth/protocol/new_block_eth_protocol_message.py:50-56 | a prefix is one byte below 56, and otherwise a marker byte followed by the big-endian length |
| Rlp.ListPrefix | src/bxgateway/messages/eth/protocol/new_block_eth_protocol_message.py:50-56 | the list prefix is the length prefix at offset 0xc0 |
| Rlp.EncodeList | src/bxgateway/messages/eth/protocol/new_block_eth_protocol_message.py:45-46 | a list item is its prefix followed by its payload |
| Rlp.EncodeBytes | src/bxgateway/messages/eth/protocol/new_block_eth_protocol_message.py:132-133 | a single byte below 0x80 stands for itself; any other string is prefixed |
| Rlp.EncodeIntDefined | src/bxgateway/messages/eth/protocol/new_block_eth_protocol_message.py:53 | every integer below 2^64 has an encoding |
| Rlp.BigEndianAtSlice | src/bxgateway/messages/eth/protocol/new_block_eth_protocol_message.py:90-95 | reading a length in place agrees with decoding the clipped slice |
| Rlp.ReadShortPrefix | src/bxgateway/messages/eth/protocol/new_block_eth_protocol_message.py:90 | a one-byte prefix reads back as its length, with the payload right after it |
| Rlp.ReadLongPrefix | src/bxgateway/messages/eth/protocol/new_block_eth_protocol_message.py:90 | a long prefix reads back as the big-endian length it carries |
| Rlp.LongPrefixShape | src/bxgateway/messages/eth/protocol/new_block_eth_protocol_message.py:50-56 | a long prefix is its marker byte and the big-endian length |
| Rlp.ConsumeEncodedPrefix | src/bxgateway/messages/eth/protocol/new_block_eth_protocol_message.py:90-93 | a prefix, wherever it sits, reads back as its length and payload start |
| Rlp.ConsumeLongPrefix | src/bxgateway/messages/eth/protocol/new_block_eth_protocol_message.py:90-93 | the same for long prefixes |
| Rlp.LongPrefixAt | src/bxgateway/messages/eth/protocol/new_block_eth_protocol_message.py:90-93 | a long prefix in a buffer is its marker byte followed by the length bytes |
| Rlp.BigEndianAtItem | src/bxgateway/messages/eth/protocol/new_block_eth_protocol_message.py:90-95 | the number read at the big-endian bytes is the one they stand for |
| Rlp.DecodeAt | src/bxgateway/messages/eth/protocol/new_block_eth_protocol_message.py:95 | once a string item's prefix is read, the integer is its payload's value |
| Rlp.DecodeStringItem | src/bxgateway/messages/eth/protocol/new_block_eth_protocol_message.py:95 | decoding a string item as an integer gives its payload's value |
| Rlp.DecodePrefixedString | src/bxgateway/messages/eth/protocol/new_block_eth_protocol_message.py:95 | the same for a prefixed string |
| Rlp.DecodeEncodedInt | src/bxgateway/messages/eth/protocol/new_block_eth_protocol_message.py:95 | an encoded integer, wherever it sits, decodes to the integer and its item length |
| Rlp.ConsumeEncodedList | src/bxgateway/messages/eth/protocol/new_block_eth_protocol_message.py:90-93 | an encoded list's prefix reads back as its payload's length and start |
| NewBlockMessage.FromNewBlockParts | src/bxgateway/messages/eth/protocol/new_block_eth_protocol_message.py:39-77 | the written buffer is the message `NewBlockBytes` defines, or an error for an empty body or an unencodable length |
| NewBlockMessage.WriteLayout | src/bxgateway/messages/eth/protocol/new_block_eth_protocol_message.py:59-75 | the five pieces written one after another fill the buffer of the computed size exactly |
| NewBlockMessage.LayoutOf | src/bxgateway/messages/eth/protocol/new_block_eth_protocol_message.py:42-57 | the layout holds the pieces `from_new_block_parts` computes |
| NewBlockMessage.LayoutBytesFlat | src/bxgateway/messages/eth/protocol/new_block_eth_protocol_message.py:59-75 | the message is outer prefix, block prefix, header, body content, difficulty item |
| NewBlockMessage.BodyPrefixStripped | src/bxgateway/messages/eth/protocol/new_block_eth_protocol_message.py:45-46 | stripping the body's prefix leaves exactly the body list's payload |
| NewBlockMessage.LayoutShape | src/bxgateway/messages/eth/protocol/new_block_eth_protocol_message.py:45-57 | the block prefix encodes the header and body content length; the outer prefix encodes the block item and difficulty item length |
| NewBlockMessage.OuterRead | src/bxgateway/messages/eth/protocol/new_block_eth_protocol_message.py:90-91 | the outer prefix reads back as the outer payload |
| NewBlockMessage.BlockRead | src/bxgateway/messages/eth/protocol/new_block_eth_protocol_message.py:93 | the block prefix reads back as the block payload, followed by the difficulty item |
| NewBlockMessage.NewBlockItem | src/bxgateway/messages/eth/protocol/new_block_eth_protocol_message.py:101-104 | a built message's block payload is the header followed by the body content |
| NewBlockMessage.BlockItemRead | src/bxgateway/messages/eth/protocol/new_block_eth_protocol_message.py:104 | the block payload is read from the outer payload |
| NewBlockMessage.LayoutChainDifficulty | src/bxgateway/messages/eth/protocol/new_block_eth_protocol_message.py:88-97 | the chain difficulty of a laid-out message is the integer its difficulty item encodes |
| NewBlockMessage.BlockDifficulty | src/bxgateway/messages/eth/protocol/new_block_eth_protocol_message.py:93-95 | the difficulty item follows the block item |
| NewBlockMessage.DifficultyJoin | src/bxgateway/messages/eth/protocol/new_block_eth_protocol_message.py:93-95 | the difficulty is the integer decoded after the block item |
| NewBlockMessage.ChainDifficultyRoundTrip | src/bxgateway/messages/eth/protocol/new_block_eth_protocol_message.py:39-97 | the chain difficulty of a built message is the total difficulty it was built with |
| NewBlockMessage.HeaderRead | src/bxgateway/messages/eth/protocol/new_block_eth_protocol_message.py:107-108 | a header item at the start of the block payload is read back with its payload |
| NewBlockMessage.BlockHeaderRoundTrip | src/bxgateway/messages/eth/protocol/new_block_eth_protocol_message.py:99-110 | the header read back from a built message is the header item it was built with, once the block payload is sliced at its own offset |
| NewBlockMessage.ParentRead | src/bxgateway/messages/eth/protocol/new_block_eth_protocol_message.py:132-133 | the first item of a header payload that starts with a 32-byte string is that string |
| NewBlockMessage.PrevBlockHashRoundTrip | src/bxgateway/messages/eth/protocol/new_block_eth_protocol_message.py:119-135 | the parent hash read back is the payload of the header's first item |
| NewBlockMessage.BlockParentRead | src/bxgateway/messages/eth/protocol/new_block_eth_protocol_message.py:123-133 | the parent hash is found in the outer payload |
| NewBlockMessage.PrevBlockHashJoin | src/bxgateway/messages/eth/protocol/new_block_eth_protocol_message.py:123-133 | the parent hash is the payload of the header's first item, once the difficulty prefix has been read |
| NewBlockMessage.SkipOne | src/bxgateway/messages/eth/protocol/new_block_eth_protocol_message.py:152-159 | skipping one more integer item in front of a run |
| NewBlockMessage.SkipEncodedInts | src/bxgateway/messages/eth/protocol/new_block_eth_protocol_message.py:152-159 | skipping encoded integers lands right after them |
| NewBlockMessage.FirstEncodedInt | src/bxgateway/messages/eth/protocol/new_block_eth_protocol_message.py:152-159 | the first of some encoded integers decodes, and the others follow it |
| NewBlockMessage.TimestampRead | src/bxgateway/messages/eth/protocol/new_block_eth_protocol_message.py:151-162 | the timestamp is the integer after the fixed-length fields and four more integers |
| NewBlockMessage.TimestampAt | src/bxgateway/messages/eth/protocol/new_block_eth_protocol_message.py:151-162 | the same, for integers found in place |
| NewBlockMessage.TimestampRoundTrip | src/bxgateway/messages/eth/protocol/new_block_eth_protocol_message.py:137-164 | the timestamp of a built message is the header's fifth integer field after the fixed-length fields |
| NewBlockMessage.BlockItemAsWrittenAgrees | src/bxgateway/messages/eth/protocol/new_block_eth_protocol_message.py:105 | the slice as written is right whenever the outer and block prefixes have equal length |
| NewBlockMessage.BlockHeaderAsWrittenMisreads | src/bxgateway/messages/eth/protocol/new_block_eth_protocol_message.py:101-108 | a built message with a two-byte outer prefix and a one-byte block prefix whose header is read wrongly as written |
| NewBlockMessage.EmptyListEncoding | src/bxgateway/messages/eth/protocol/new_block_eth_protocol_message.py:50 | the empty list encodes as `0xc0` |
| NewBlockMessage.MisreadBuilt | src/bxgateway/messages/eth/protocol/new_block_eth_protocol_message.py:39-77 | the counterexample message is the one built from its parts |
| NewBlockMessage.MisreadLayoutBuilt | src/bxgateway/messages/eth/protocol/new_block_eth_protocol_message.py:42-57 | the counterexample's layout |
| NewBlockMessage.MisreadRead | src/bxgateway/messages/eth/protocol/new_block_eth_protocol_message.py:99-110 | read at the right offsets, the counterexample's header is `[0xc0]` |
| NewBlockMessage.MisreadOuter | src/bxgateway/messages/eth/protocol/new_block_eth_protocol_message.py:101-102 | the counterexample's outer prefix is two bytes long |
| NewBlockMessage.MisreadAsWritten | src/bxgateway/messages/eth/protocol/new_block_eth_protocol_message.py:105-108 | read as written, the counterexample's header is `[0x00]` |
| NewBlockMessage.NewBlockEthProtocolMessage.constructor | src/bxgateway/messages/eth/protocol/new_block_eth_protocol_message.py:26-33 | a message starts with empty caches |
| NewBlockMessage.NewBlockEthProtocolMessage.ChainDifficulty | src/bxgateway/messages/eth/protocol/new_block_eth_protocol_message.py:88-97 | every call returns the chain difficulty of the message bytes, and the cache then holds that value |
| NewBlockMessage.NewBlockEthProtocolMessage.BlockHeader | src/bxgateway/messages/eth/protocol/new_block_eth_protocol_message.py:99-110 | every call returns the header item of the message bytes, and the cache then holds that value |
| NewBlockMessage.NewBlockEthProtocolMessage.BlockHash | src/bxgateway/messages/eth/protocol/new_block_eth_protocol_message.py:112-117 | every call returns the Keccak-256 hash of the header item, and the hash cache then holds that value; the header cache is kept or filled with the header |
| NewBlockMessage.NewBlockEthProtocolMessage.Timestamp | src/bxgateway/messages/eth/protocol/new_block_eth_protocol_message.py:137-164 | every call returns the timestamp of the message bytes, and the cache then holds that value |
| RelayConnection.MsgTxIgnored | src/bxgateway/connections/abstract_relay_connection.py:90-110 | off a transaction relay, or for a duplicate without a short id, `msg_tx` changes nothing |
| RelayConnection.MsgTxAssigns | src/bxgateway/connections/abstract_relay_connection.py:118-119 | a truthy short id is assigned to the message's hash, both ways |
| RelayConnection.MsgTxContents | src/bxgateway/connections/abstract_relay_connection.py:129-148 | stored contents are never overwritten; only the message's non-empty value is added, under its hash and only when none was stored; only then does the transaction reach the node, exactly when a node is connected |
| RelayConnection.MsgTxRetries | src/bxgateway/connections/abstract_relay_connection.py:101-154 | the recovered blocks are retried once if and only if some recovery check answered yes |
| RelayConnection.ApplyEntryKeeps | src/bxgateway/connections/abstract_relay_connection.py:174-182 | one `txs` entry keeps what was known, makes its short id known and gives its hash contents |
| RelayConnection.ApplyTxsSnoc | src/bxgateway/connections/abstract_relay_connection.py:171-182 | the entries are applied in order |
| RelayConnection.TxsChecks | src/bxgateway/connections/abstract_relay_connection.py:174-179 | two checks per entry |
| RelayConnection.TxsChecksSnoc | src/bxgateway/connections/abstract_relay_connection.py:174-179 | per entry, its short id is checked, then its hash |
| RelayConnection.ScheduleAll | src/bxgateway/connections/abstract_relay_connection.py:190-191 | one recovery retry per block awaiting recovery |
| RelayConnection.ScheduleAllSnoc | src/bxgateway/connections/abstract_relay_connection.py:190-191 | the retries are scheduled in order |
| RelayConnection.ScheduleAllAt | src/bxgateway/connections/abstract_relay_connection.py:190-191 | the k-th retry is for the k-th block awaiting recovery |
| RelayConnection.ApplyTxsKeeps | src/bxgateway/connections/abstract_relay_connection.py:171-182 | a known short id keeps its hash and stored contents keep their value; afterwards every entry's short id is known and every entry's hash has contents |
| RelayConnection.EntryHashes | src/bxgateway/connections/abstract_relay_connection.py:171-182 | every entry's hash is among the entry hashes |
| RelayConnection.ApplyTxsFirstContents | src/bxgateway/connections/abstract_relay_connection.py:181-182 | the first entry for a hash without contents gives it its contents, and later entries do not replace them |
| RelayConnection.ContentsKeysAbsent | src/bxgateway/connections/abstract_relay_connection.py:171-182 | a hash no entry has is not among the entry hashes |
| RelayConnection.AbstractRelayConnection.constructor | src/bxgateway/connections/abstract_relay_connection.py:66-199 | a connection starts with the given transaction service and empty logs |
| RelayConnection.AbstractRelayConnection.MsgBroadcast | src/bxgateway/connections/abstract_relay_connection.py:66-74 | an encrypted block reaches the block processing service only on a block relay |
| RelayConnection.AbstractRelayConnection.MsgKey | src/bxgateway/connections/abstract_relay_connection.py:76-84 | a block key reaches the block processing service only on a block relay |
| RelayConnection.AbstractRelayConnection.MsgBlockHolding | src/bxgateway/connections/abstract_relay_connection.py:193-199 | a hold is placed on exactly the message's block hash |
| RelayConnection.AbstractRelayConnection.MsgTx | src/bxgateway/connections/abstract_relay_connection.py:86-154 | the handler's new state is `MsgTxEffect` of the old one |
| RelayConnection.AbstractRelayConnection.MsgTxs | src/bxgateway/connections/abstract_relay_connection.py:156-191 | off a transaction relay nothing changes; otherwise every entry is applied and checked, one retry of the recovered blocks follows, then one recovery retry per block awaiting recovery |
| RelayConnection.AbstractRelayConnection.StoreEntries | src/bxgateway/connections/abstract_relay_connection.py:171-186 | the entry loop applies and checks every entry in order |
| RelayConnection.AbstractRelayConnection.StoreEntry | src/bxgateway/connections/abstract_relay_connection.py:172-182 | one entry: both checks; the short id assigned only when unknown; contents set only when absent |
| RelayConnection.AbstractRelayConnection.ScheduleRetries | src/bxgateway/connections/abstract_relay_connection.py:190-191 | one recovery retry per block awaiting recovery, in order |
| BtcProtocol.Digits | src/bxgateway/connections/btc/btc_base_connection_protocol.py:38 | at least one ASCII digit, and a leading zero only for zero |
| BtcProtocol.DigitsRoundTrip | src/bxgateway/connections/btc/btc_base_connection_protocol.py:38 | the digits of a number denote that number |
| BtcProtocol.DecimalBytes | src/bxgateway/connections/btc/btc_base_connection_protocol.py:38 | a minus sign leads exactly for a negative number |
| BtcProtocol.DecimalRoundTrip | src/bxgateway/connections/btc/btc_base_connection_protocol.py:38 | the user agent reads back as the protocol version |
| BtcProtocol.VersionMessage | src/bxgateway/connections/btc/btc_base_connection_protocol.py:35-39 | the version message carries the configured magic, version, addresses, nonce and services, start height 0, and the protocol version as its user agent |
| BtcProtocol.BaseHandlersExact | src/bxgateway/connections/btc/btc_base_connection_protocol.py:27-31 | the base table answers exactly ping, pong and getaddr |
| BtcProtocol.NodeHandlersKeys | src/bxgateway/connections/btc/btc_node_connection_protocol.py:15-23 | the node table holds the base commands plus version, inv, block, tx, getblocks, getheaders and getdata |
| BtcProtocol.NodeHandlersKeepBase | src/bxgateway/connections/btc/btc_node_connection_protocol.py:15-23 | the node table keeps the base entries |
| BtcProtocol.NodeHandlersAdded | src/bxgateway/connections/btc/btc_node_connection_protocol.py:15-23 | the node table adds the version, inv, block and tx handlers and routes the three requests to the proxy handler |
| BtcProtocol.RawMessagesAt | src/bxgateway/connections/btc/btc_node_connection_protocol.py:38-39 | every queued message becomes one outbound entry at its own position |
| BtcProtocol.RawMessagesSnoc | src/bxgateway/connections/btc/btc_node_connection_protocol.py:38-39 | the queued messages are enqueued in order |
| BtcProtocol.SetFlagsPreservesOthers | src/bxgateway/connections/btc/btc_node_connection_protocol.py:31 | setting flags keeps every other bit and sets the given ones |
| BtcProtocol.BtcGatewayNode.constructor | src/bxgateway/connections/btc/btc_node_connection_protocol.py:37-44 | a node starts with no queued messages, no node connection and empty logs |
| BtcProtocol.BtcGatewayNode.RegisterPingAlarm | src/bxgateway/connections/btc/btc_node_connection_protocol.py:34-35 | one alarm is added |
| BtcProtocol.BtcGatewayNode.SendMsgToNode | src/bxgateway/connections/btc/btc_base_connection_protocol.py:61 | one message is sent to the node |
| BtcProtocol.BtcConnection.constructor | src/bxgateway/connections/btc/btc_base_connection_protocol.py:18-25 | a connection starts with an empty outbound queue and handler table |
| BtcProtocol.BtcConnection.EnqueueMsg | src/bxgateway/connections/btc/btc_base_connection_protocol.py:40 | one message is appended to the outbound queue |
| BtcProtocol.BtcConnection.EnqueueAllBytes | src/bxgateway/connections/btc/btc_node_connection_protocol.py:38-39 | every serialised message is appended, in order |
| BtcProtocol.BtcBaseConnectionProtocol.constructor | src/bxgateway/connections/btc/btc_base_connection_protocol.py:18-40 | the base handler table, the 24-byte header size and the ping message are installed, and exactly one version message with the configured values is enqueued |
| BtcProtocol.BtcBaseConnectionProtocol.MsgBlock | src/bxgateway/connections/btc/btc_base_connection_protocol.py:42-61 | a block marked for cleanup is cleaned and not passed on; any other is passed on and not cleaned; either way exactly one inventory of the block goes to the node |
| BtcProtocol.BtcBaseConnectionProtocol.MsgPing | src/bxgateway/connections/btc/btc_base_connection_protocol.py:63-68 | one pong with the ping's nonce and the connection's magic is enqueued |
| BtcProtocol.BtcBaseConnectionProtocol.MsgPong | src/bxgateway/connections/btc/btc_base_connection_protocol.py:70-74 | a pong changes nothing |
| BtcProtocol.BtcBaseConnectionProtocol.MsgGetAddr | src/bxgateway/connections/btc/btc_base_connection_protocol.py:76-81 | one addr message with no address is enqueued |
| BtcProtocol.BtcNodeConnectionProtocol.constructor | src/bxgateway/connections/btc/btc_node_connection_protocol.py:12-23 | the base setup, then the node handler table |
| BtcProtocol.BtcNodeConnectionProtocol.MsgVersion | src/bxgateway/connections/btc/btc_node_connection_protocol.py:25-44 | the established bits are set and the others kept; one verack and one ping alarm; when active, the queued node messages go out in order, the queue ends empty and this connection becomes the node connection; when inactive, the queue and the node connection are unchanged |
| BtcProtocol.BtcNodeConnectionProtocol.MsgInv | src/bxgateway/connections/btc/btc_node_connection_protocol.py:46-52 | one getdata with the inventory's magic and its vectors in order is enqueued |

## Left out

- Statistics, logging and `BlockInfo`: the stats services, `logger` calls and the
  fields of `BlockInfo` are observability only. The compression result keeps its other
  fields.
- Cryptography: double SHA-256, SHA-256, Keccak-256, SipHash-2-4 and `get_txid` are
  function parameters. Block encryption and decryption, `in_progress_blocks` and
  `process_block_broadcast`/`process_block_key` are left out. The decrypted bx block is
  an input of `HandleDecryptedBlock`.
- The alarm queue's timing, `ExpiringDict` expiry and the clock are not modelled.
  Alarms are a map of registered callbacks, fired explicitly. Time is a parameter in
  milliseconds.
- The file write of the short-id mapping at
  `src/bxgateway/services/block_processing_service.py:304-310` is left out.
- `rlp_utils`, `compact_block_short_ids_serializer`, `btc_messages_util` and
  `btc_constants` are not part of this model. The model defines them as follows:
  - RLP as in Appendix B of the Ethereum Yellow Paper, without canonical-form checks;
  - short ids as a 4-byte little-endian count followed by 4-byte little-endian words;
  - CompactSize as in the Bitcoin protocol;
  - a message header of 24 bytes with the checksum at bytes 20..24, and a block
    header of 80 bytes.
- `get_next_tx_size` is a parameter. A Bitcoin block is given already split into its
  header and transactions.
- `bxcommon` (`TransactionService`, `ConnectionState`, `is_active`, `enqueue_msg`,
  the alarm queue, the block queuing, recovery and cleanup services) is not part of
  this model. The calls the core makes on them are logs or maps:
  - `has_transaction_short_id` is membership in the hash-to-short-id map;
  - the `ESTABLISHED` flags and `is_active` are constructor parameters;
  - the recovery service's `add_block` (`src/bxgateway/services/block_processing_service.py:423`)
    registers the block's attempt counter at 0, and `RouteDecompressed` does the same
    each time a block enters recovery, so a block that gave up and comes back starts
    counting again. The source then indexes the counter directly (`:483` and `:497`);
    the model reads an absent counter as 0 attempts instead of a `KeyError`. Giving up
    and completing leave the counter in the map, where the next `add_block` resets it;
  - `check_missing_sid` and `check_missing_tx_hash` of the recovery service are fixed
    functions of the connection, so a connection gets the same answer for the same
    short id or hash on every message. The real service changes its answer once a
    check has been made. The lemmas about `MsgTx` and `MsgTxs` hold for every such
    function, but the model does not follow the service from one message to the next;
  - `iter_transaction_hashes` of the transaction service
    (`src/bxgateway/messages/btc/btc_normal_message_converter.py:261`) is the parameter
    `order` of the short-id matching, the service's iteration order. When two hashes of
    the service share a short id, that order decides which one is matched.
- `AbstractBlockchainConnectionProtocol` (its `msg_block`, `msg_tx`,
  `msg_proxy_request` and `send_ping`) is not part of this model either. The node table
  names these handlers; passing a block on to them is recorded in a log.
- `send_msg_to_node` is a log of messages. The routing it does through `node_conn` or
  the node queue is not modelled.
- `bx_tx_to_tx` is not part of this model. Forwarding a transaction to the node is
  recorded as the `TxMessage` itself, appended to `toNode`; the conversion at
  `src/bxgateway/connections/abstract_relay_connection.py:146` is not modelled.
- The ping nonce is a parameter, since `PingBtcMessage` draws it at random.
- `hello_messages` and `message_factory` are left out. So are the `block_hash()` of a
  Bitcoin `block` message, which is a field of the message, and serialising messages
  other than the bx block and the rebuilt `block` message.
- Handlers the core does not name are left out: `msg_get_block_headers` and
  `msg_get_block_bodies` on the Ethereum side, and the gateway hello and ack handling.
- `compact_block_to_bx_block` builds a list of parts and a size at
  `src/bxgateway/messages/btc/btc_normal_message_converter.py:278-308` that nothing
  reads afterwards. The model does not build them.
- Python exceptions (`IndexError`, `KeyError`, `TypeError`, `struct.error` and the
  conversion errors) are modelled as `Failure` results. Which of several failing checks
  raises first is not distinguished.
- `TxMessage.EMPTY_TX_VAL` is the empty byte string.
- BtcConverter.BxBlockToBlock: the decompressed buffer is sized by the output offset,
  and that offset also counts the 8-byte offset field. So the buffer ends in 8 zero
  bytes behind the block, as the round-trip lemmas state. `BlockBtcMessage` reads its
  length from the message header, which this model does not include, so the zero bytes
  are kept as written rather than reported as a fault.
- EthNodeProtocol.EthNodeConnectionProtocol.MsgNewBlockHashes requires the announced
  hashes to be distinct. A repeated hash would go on the ready stack twice, and the
  second pop would fail its lookup in `_process_ready_new_blocks`.
- EthNodeProtocol.EthNodeConnectionProtocol.RequestBlockBody requires distinct hashes,
  for the same reason.
- `eth_constants.REQUESTED_NEW_BLOCK_BODIES_MAX_COUNT`, read at
  `src/bxgateway/connections/eth/eth_node_connection_protocol.py:56`, has no definition in
  `src/bxgateway/eth_constants.py`. It is a constructor parameter.
- `BlockHeader.FIXED_LENGTH_FIELD_OFFSET` (read at
  `src/bxgateway/messages/eth/protocol/new_block_eth_protocol_message.py:151`) belongs to
  the `BlockHeader` serializer class, which is not part of this model. It is derived
  from the header layout: five 33-byte hash items, a 21-byte address item and a
  259-byte bloom item, 445 bytes in all.
- ETH hashes are a type parameter of `EthNodeProtocol`, and Keccak-256 is a function
  into it.
- `try_calculate_total_difficulty` and `is_valid_block_timestamp` of the Ethereum node
  are function parameters fixed at construction.
- NewBlockMessage.PrevBlockHashOf and NewBlockMessage.TimestampOf slice the block
  payload at its own offset, the corrected slice of the finding below. Lines 124 and 146
  repeat the slice of line 105, so the model of these two accessors is the intended one,
  not the code as written.
- NewBlockMessage.BlockHeaderOf reads the header through the corrected slice, not the
  slice of line 105; the code as written is `BlockHeaderAsWritten`, about which the
  finding below is proved.
- NewBlockMessage.NewBlockEthProtocolMessage.BlockHeader returns `BlockHeaderOf`, the
  corrected read, not the header as line 105 reads it.
- NewBlockMessage.NewBlockEthProtocolMessage.BlockHash hashes the corrected header, not
  the header as line 105 reads it; the two differ only when the finding's misread occurs.
- NewBlockMessage.NewBlockEthProtocolMessage.Timestamp returns `TimestampOf`, with the
  corrected slice.
- BtcCompact.BtcNormalMessageConverter.CompactBlockToBxBlock requires the compact
  block's short ids to be distinct. The deserialiser hands them over as the keys of a
  dict, so a repeated short id never reaches the converter.
- BtcConverter.TxSize is never zero. If `get_next_tx_size` reported a size of 0, the
  parsing loop at `src/bxgateway/messages/btc/btc_normal_message_converter.py:89-108`
  would never end. The model leaves that case out.
- `_process_and_broadcast_compressed_block` hands the bx block to the neutrality
  service, which is not part of this model. It is recorded as one propagation, and the
  delayed tracking of seen short ids it requests as one transaction-service call.
- `_on_block_decompressed` and `track_block_from_bdn_handling_ended` of the node are
  statistics and timing, and are left out.
- The message converter the block processing service calls is a pair of functions of
  the block and the transaction service's current state. The service is generic over
  the blockchain, so they are not tied to the Bitcoin converter of `BtcConverter`.

## Findings

| source | as written | input that shows it | evidently intended | confidence | as-written member | corrected member |
|---|---|---|---|---|---|---|
| src/bxgateway/messages/eth/protocol/new_block_eth_protocol_message.py:105 (also :124 and :146) | the block item's payload is sliced out of the outer payload starting at `block_msg_itm_start`, the length of the outer prefix in the whole message | a NewBlock message built from header `[0xc0]`, a body with 53 bytes of content and total difficulty 1: its outer prefix is two bytes (`f8 38`) and its block prefix one (`f6`), so the slice starts one byte late and the header reads as `[0x00]` | slice at `block_itm_start`, the block prefix's length in the outer payload, so that `block_header()` returns the header the message was built with | not executed | NewBlockMessage.BlockHeaderAsWrittenMisreads | NewBlockMessage.BlockHeaderRoundTrip |
