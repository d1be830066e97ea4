/**
 * The gateway's connection to a bloXroute relay: the handlers for transactions and
 * transaction batches from the BDN, for encrypted blocks and their keys, and for block
 * holds.
 *
 * The connection type is a set of relay flags. The node's transaction service is a
 * `TxState` field of the connection. The calls the handlers make on the block processing
 * service, the block recovery service and the blockchain node are appended to logs. The
 * block recovery service's answers ("was this short id / hash missing?") are two
 * functions fixed at construction.
 */
module RelayConnection {
  import opened Wrappers
  import opened Bytes
  import opened TxService
  import BlockProcessing

  datatype ConnectionFlag = RelayTransaction | RelayBlock

  /** `ConnectionType.RELAY_ALL`, the type of `AbstractRelayConnection` itself. */
  const RelayAll: set<ConnectionFlag> := {RelayTransaction, RelayBlock}

  /** A `tx` message: the short id is optional, and an empty value is `EMPTY_TX_VAL`. */
  datatype TxMessage = TxMessage(shortId: Option<nat>, txHash: Hash, networkNum: nat, txVal: seq<byte>)

  /** One `(hash, contents, short id)` entry of a `txs` message. */
  datatype TxsEntry = TxsEntry(txHash: Hash, contents: seq<byte>, shortId: nat)

  /** A call made on the block processing service. */
  datatype ServiceCall =
    | ProcessBlockBroadcast(broadcast: seq<byte>)
    | ProcessBlockKey(key: seq<byte>)
    | PlaceHold(blockHash: Hash)
    | RetryBroadcastRecoveredBlocks
    | ScheduleRecoveryRetry(block: BlockProcessing.RecoveryInfo)

  /** A question put to the block recovery service. */
  datatype RecoveryCheck = CheckMissingSid(sid: nat) | CheckMissingTxHash(txHash: Hash)

  /** What the handlers change: the transaction service and the three logs. */
  datatype RelayState = RelayState(
    txs: TxState, checks: seq<RecoveryCheck>, calls: seq<ServiceCall>, toNode: seq<TxMessage>)

  /** Python truthiness of a short id: `None` and `0` are both "no short id". */
  predicate Truthy(sid: Option<nat>)
  {
    sid.Some? && sid.value != 0
  }

  /** The block recovery service's answer to one check. */
  function Answer(missingSid: nat -> bool, missingHash: Hash -> bool, c: RecoveryCheck): bool
  {
    match c
    case CheckMissingSid(sid) => missingSid(sid)
    case CheckMissingTxHash(h) => missingHash(h)
  }

  /** The retry call, made exactly when `attempt` holds. */
  function RetryIf(attempt: bool): seq<ServiceCall>
  {
    if attempt then [RetryBroadcastRecoveredBlocks] else []
  }

  /**
   * `msg_tx` on a connection of type `conn`. Off a transaction relay nothing changes. A
   * transaction without a short id whose hash already has one and has contents is a
   * duplicate. A short id is assigned and checked; a hash with contents stops there; new
   * non-empty contents are stored, checked and forwarded when a node is connected. The
   * recovered blocks are retried when a check answered yes.
   */
  function MsgTxEffect(conn: set<ConnectionFlag>, missingSid: nat -> bool, missingHash: Hash -> bool,
                       nodeConnected: bool, s: RelayState, msg: TxMessage): RelayState
  {
    var h := msg.txHash;
    if RelayTransaction !in conn then s
    else if !Truthy(msg.shortId) && h in s.txs.sidOf && h in s.txs.contents then s
    else
      var t1 := if Truthy(msg.shortId) then AssignShortId(s.txs, h, msg.shortId.value) else s.txs;
      var checks1 := if Truthy(msg.shortId) then s.checks + [CheckMissingSid(msg.shortId.value)] else s.checks;
      var attempt1 := Truthy(msg.shortId) && missingSid(msg.shortId.value);
      if h in t1.contents then RelayState(t1, checks1, s.calls + RetryIf(attempt1), s.toNode)
      else if msg.txVal != [] then
        var attempt2 := missingHash(h) || attempt1;
        RelayState(SetTransactionContents(t1, h, msg.txVal), checks1 + [CheckMissingTxHash(h)],
                   s.calls + RetryIf(attempt2), s.toNode + (if nodeConnected then [msg] else []))
      else RelayState(t1, checks1, s.calls + RetryIf(attempt1), s.toNode)
  }

  /** Off a transaction relay, and for a duplicate without a short id, `msg_tx` changes nothing. */
  lemma MsgTxIgnored(conn: set<ConnectionFlag>, missingSid: nat -> bool, missingHash: Hash -> bool,
                     nodeConnected: bool, s: RelayState, msg: TxMessage)
    requires || RelayTransaction !in conn
             || (!Truthy(msg.shortId) && msg.txHash in s.txs.sidOf && msg.txHash in s.txs.contents)
    ensures MsgTxEffect(conn, missingSid, missingHash, nodeConnected, s, msg) == s
  {
  }

  /** A short id in the message is always assigned to the message's hash, both ways. */
  lemma MsgTxAssigns(conn: set<ConnectionFlag>, missingSid: nat -> bool, missingHash: Hash -> bool,
                     nodeConnected: bool, s: RelayState, msg: TxMessage)
    requires RelayTransaction in conn && Truthy(msg.shortId)
    ensures var r := MsgTxEffect(conn, missingSid, missingHash, nodeConnected, s, msg);
      && r.txs.sidOf == s.txs.sidOf[msg.txHash := msg.shortId.value]
      && r.txs.hashOf == s.txs.hashOf[msg.shortId.value := msg.txHash]
  {
  }

  /**
   * Contents are never overwritten: contents already stored for the hash stay, and the
   * only contents ever added are the message's non-empty value, under its hash and only
   * when none were stored. Only then does the transaction reach the node, and then
   * exactly when a node is connected.
   */
  lemma MsgTxContents(conn: set<ConnectionFlag>, missingSid: nat -> bool, missingHash: Hash -> bool,
                      nodeConnected: bool, s: RelayState, msg: TxMessage)
    ensures var r := MsgTxEffect(conn, missingSid, missingHash, nodeConnected, s, msg);
      var stores := RelayTransaction in conn && msg.txHash !in s.txs.contents && msg.txVal != [];
      && (stores ==> r.txs.contents == s.txs.contents[msg.txHash := msg.txVal])
      && (!stores ==> r.txs.contents == s.txs.contents)
      && r.toNode == s.toNode + (if stores && nodeConnected then [msg] else [])
  {
  }

  /**
   * `retry_broadcast_recovered_blocks` is called once when some check put to the block
   * recovery service answered yes, and otherwise not at all. The checks are only
   * appended to.
   */
  lemma MsgTxRetries(conn: set<ConnectionFlag>, missingSid: nat -> bool, missingHash: Hash -> bool,
                     nodeConnected: bool, s: RelayState, msg: TxMessage)
    ensures var r := MsgTxEffect(conn, missingSid, missingHash, nodeConnected, s, msg);
      && |s.checks| <= |r.checks| && r.checks[..|s.checks|] == s.checks
      && r.calls == s.calls + RetryIf(exists k :: |s.checks| <= k < |r.checks| && Answer(missingSid, missingHash, r.checks[k]))
  {
    var r := MsgTxEffect(conn, missingSid, missingHash, nodeConnected, s, msg);
    var n := |s.checks|;
    assert r.checks[..n] == s.checks;
    var sidCheck := if Truthy(msg.shortId) then [CheckMissingSid(msg.shortId.value)] else [];
    if RelayTransaction in conn && !(!Truthy(msg.shortId) && msg.txHash in s.txs.sidOf && msg.txHash in s.txs.contents) {
      if Truthy(msg.shortId) {
        assert r.checks[n] == CheckMissingSid(msg.shortId.value);
      }
      var t1 := if Truthy(msg.shortId) then AssignShortId(s.txs, msg.txHash, msg.shortId.value) else s.txs;
      if msg.txHash !in t1.contents && msg.txVal != [] {
        assert r.checks[n + |sidCheck|] == CheckMissingTxHash(msg.txHash);
      }
    }
  }

  /** One `txs` entry: its short id assigned when unknown, its contents set when absent. */
  function ApplyEntry(t: TxState, e: TxsEntry): TxState
  {
    var t1 := if e.shortId in t.hashOf then t else AssignShortId(t, e.txHash, e.shortId);
    if e.txHash in t1.contents then t1 else SetTransactionContents(t1, e.txHash, e.contents)
  }

  /** One entry keeps what was known, makes its short id known and gives its hash contents. */
  lemma ApplyEntryKeeps(t: TxState, e: TxsEntry)
    ensures var r := ApplyEntry(t, e);
      && (forall sid :: sid in t.hashOf ==> sid in r.hashOf && r.hashOf[sid] == t.hashOf[sid])
      && (forall h :: h in t.contents ==> h in r.contents && r.contents[h] == t.contents[h])
      && e.shortId in r.hashOf
      && r.contents.Keys == t.contents.Keys + {e.txHash}
      && (e.txHash !in t.contents ==> r.contents[e.txHash] == e.contents)
  {
  }

  /** The transaction service after the `txs` entries, in order. */
  function ApplyTxs(t: TxState, entries: seq<TxsEntry>): TxState
    decreases |entries|
  {
    if entries == [] then t else ApplyEntry(ApplyTxs(t, entries[..|entries| - 1]), entries[|entries| - 1])
  }

  lemma ApplyTxsSnoc(t: TxState, entries: seq<TxsEntry>, i: nat)
    requires i < |entries|
    ensures ApplyTxs(t, entries[..i + 1]) == ApplyEntry(ApplyTxs(t, entries[..i]), entries[i])
  {
    assert entries[..i + 1][..i] == entries[..i];
  }

  /** The checks `msg_txs` puts to the block recovery service: per entry, its short id, then its hash. */
  function TxsChecks(entries: seq<TxsEntry>): (r: seq<RecoveryCheck>)
    ensures |r| == 2 * |entries|
    decreases |entries|
  {
    if entries == [] then []
    else
      var e := entries[|entries| - 1];
      TxsChecks(entries[..|entries| - 1]) + [CheckMissingSid(e.shortId), CheckMissingTxHash(e.txHash)]
  }

  lemma TxsChecksSnoc(entries: seq<TxsEntry>, i: nat)
    requires i < |entries|
    ensures TxsChecks(entries[..i + 1]) == TxsChecks(entries[..i]) + [CheckMissingSid(entries[i].shortId), CheckMissingTxHash(entries[i].txHash)]
  {
    assert entries[..i + 1][..i] == entries[..i];
  }

  /** One recovery retry per block awaiting recovery, in the recovery service's order. */
  function ScheduleAll(awaiting: seq<BlockProcessing.RecoveryInfo>): (r: seq<ServiceCall>)
    ensures |r| == |awaiting|
    decreases |awaiting|
  {
    if awaiting == [] then []
    else ScheduleAll(awaiting[..|awaiting| - 1]) + [ScheduleRecoveryRetry(awaiting[|awaiting| - 1])]
  }

  lemma ScheduleAllSnoc(awaiting: seq<BlockProcessing.RecoveryInfo>, i: nat)
    requires i < |awaiting|
    ensures ScheduleAll(awaiting[..i + 1]) == ScheduleAll(awaiting[..i]) + [ScheduleRecoveryRetry(awaiting[i])]
  {
    assert awaiting[..i + 1][..i] == awaiting[..i];
  }

  lemma {:induction false} ScheduleAllAt(awaiting: seq<BlockProcessing.RecoveryInfo>, k: nat)
    requires k < |awaiting|
    ensures ScheduleAll(awaiting)[k] == ScheduleRecoveryRetry(awaiting[k])
    decreases |awaiting|
  {
    if k < |awaiting| - 1 {
      ScheduleAllAt(awaiting[..|awaiting| - 1], k);
    }
  }

  /**
   * The `txs` entries never replace what the service knows: a short id already known keeps
   * its hash and stored contents keep their value. Afterwards every entry's short id is
   * known and every entry's hash has contents, and the hashes with contents are exactly
   * the old ones and the entries' hashes.
   */
  lemma {:induction false} ApplyTxsKeeps(t: TxState, entries: seq<TxsEntry>)
    ensures var r := ApplyTxs(t, entries);
      && (forall sid :: sid in t.hashOf ==> sid in r.hashOf && r.hashOf[sid] == t.hashOf[sid])
      && (forall h :: h in t.contents ==> h in r.contents && r.contents[h] == t.contents[h])
      && (forall k :: 0 <= k < |entries| ==> entries[k].shortId in r.hashOf)
      && r.contents.Keys == t.contents.Keys + EntryHashes(entries)
    decreases |entries|
  {
    if entries != [] {
      var n := |entries| - 1;
      var init := entries[..n];
      ApplyTxsKeeps(t, init);
      ApplyEntryKeeps(ApplyTxs(t, init), entries[n]);
      assert forall k :: 0 <= k < n ==> init[k] == entries[k];
    }
  }

  /** The hashes of the entries. */
  function EntryHashes(entries: seq<TxsEntry>): (r: set<Hash>)
    ensures forall k :: 0 <= k < |entries| ==> entries[k].txHash in r
    decreases |entries|
  {
    if entries == [] then {} else EntryHashes(entries[..|entries| - 1]) + {entries[|entries| - 1].txHash}
  }

  /** The first entry for a hash without contents gives it its contents, and later ones do not replace them. */
  lemma {:induction false} ApplyTxsFirstContents(t: TxState, entries: seq<TxsEntry>, k: nat)
    requires k < |entries| && entries[k].txHash !in t.contents
    requires forall j :: 0 <= j < k ==> entries[j].txHash != entries[k].txHash
    ensures entries[k].txHash in ApplyTxs(t, entries).contents
    ensures ApplyTxs(t, entries).contents[entries[k].txHash] == entries[k].contents
    decreases |entries|
  {
    var n := |entries| - 1;
    var init := entries[..n];
    if k < n {
      ApplyTxsFirstContents(t, init, k);
      ApplyEntryKeeps(ApplyTxs(t, init), entries[n]);
    } else {
      ApplyTxsKeeps(t, init);
      ContentsKeysAbsent(init, entries[k].txHash);
      ApplyEntryKeeps(ApplyTxs(t, init), entries[n]);
    }
  }

  /** A hash no entry has is not among the entries' hashes. */
  lemma {:induction false} ContentsKeysAbsent(entries: seq<TxsEntry>, h: Hash)
    requires forall j :: 0 <= j < |entries| ==> entries[j].txHash != h
    ensures h !in EntryHashes(entries)
    decreases |entries|
  {
    if entries != [] {
      ContentsKeysAbsent(entries[..|entries| - 1], h);
    }
  }

  /** A relay connection with the calls its handlers made. */
  class AbstractRelayConnection {
    /** `CONNECTION_TYPE`. */
    const connectionType: set<ConnectionFlag>
    /** `block_recovery_service.check_missing_sid`. */
    const missingSid: nat -> bool
    /** `block_recovery_service.check_missing_tx_hash`. */
    const missingHash: Hash -> bool
    var txs: TxState
    var checks: seq<RecoveryCheck>
    var calls: seq<ServiceCall>
    var toNode: seq<TxMessage>

    function State(): RelayState
      reads this
    {
      RelayState(txs, checks, calls, toNode)
    }

    constructor (connectionType: set<ConnectionFlag>, missingSid: nat -> bool, missingHash: Hash -> bool, txs: TxState)
      ensures this.connectionType == connectionType && this.missingSid == missingSid && this.missingHash == missingHash
      ensures State() == RelayState(txs, [], [], [])
    {
      this.connectionType, this.missingSid, this.missingHash := connectionType, missingSid, missingHash;
      this.txs := txs;
      checks, calls, toNode := [], [], [];
    }

    /** `msg_broadcast`: an encrypted block goes to the block processing service only on a block relay. */
    method MsgBroadcast(msg: seq<byte>)
      modifies this`calls
      ensures calls == old(calls) + if RelayBlock in connectionType then [ProcessBlockBroadcast(msg)] else []
    {
      if RelayBlock in connectionType {
        calls := calls + [ProcessBlockBroadcast(msg)];
      }
    }

    /** `msg_key`: a block key goes to the block processing service only on a block relay. */
    method MsgKey(msg: seq<byte>)
      modifies this`calls
      ensures calls == old(calls) + if RelayBlock in connectionType then [ProcessBlockKey(msg)] else []
    {
      if RelayBlock in connectionType {
        calls := calls + [ProcessBlockKey(msg)];
      }
    }

    /** `msg_block_holding`: a hold on exactly the message's block hash. */
    method MsgBlockHolding(blockHash: Hash)
      modifies this`calls
      ensures calls == old(calls) + [PlaceHold(blockHash)]
    {
      calls := calls + [PlaceHold(blockHash)];
    }

    /** `msg_tx`, proved against `MsgTxEffect`; `nodeConnected` is `node.node_conn is not None`. */
    method MsgTx(msg: TxMessage, nodeConnected: bool)
      modifies this
      ensures State() == MsgTxEffect(connectionType, missingSid, missingHash, nodeConnected, old(State()), msg)
    {
      if RelayTransaction !in connectionType {
        return;
      }
      var shortId, txHash, txVal := msg.shortId, msg.txHash, msg.txVal;
      var attemptRecovery := false;
      if !Truthy(shortId) && txHash in txs.sidOf && txHash in txs.contents {
        return;
      }
      if Truthy(shortId) {
        txs := AssignShortId(txs, txHash, shortId.value);
        var wasMissing := missingSid(shortId.value);
        checks := checks + [CheckMissingSid(shortId.value)];
        attemptRecovery := attemptRecovery || wasMissing;
      }
      if txHash in txs.contents {
        if attemptRecovery {
          calls := calls + [RetryBroadcastRecoveredBlocks];
        }
        return;
      }
      if txVal != [] {
        txs := SetTransactionContents(txs, txHash, txVal);
        var wasMissing := missingHash(txHash);
        checks := checks + [CheckMissingTxHash(txHash)];
        attemptRecovery := wasMissing || attemptRecovery;
        if nodeConnected {
          toNode := toNode + [msg];
        }
      }
      if attemptRecovery {
        calls := calls + [RetryBroadcastRecoveredBlocks];
      }
    }

    /**
     * `msg_txs`: per entry, the short id is checked and assigned when unknown, the hash
     * checked and its contents set when absent; then one retry of the recovered blocks and
     * one recovery retry per block awaiting recovery. Off a transaction relay nothing changes.
     */
    method MsgTxs(entries: seq<TxsEntry>, awaiting: seq<BlockProcessing.RecoveryInfo>)
      modifies this
      ensures RelayTransaction !in connectionType ==> State() == old(State())
      ensures RelayTransaction in connectionType ==>
        State() == RelayState(ApplyTxs(old(txs), entries), old(checks) + TxsChecks(entries),
                              old(calls) + [RetryBroadcastRecoveredBlocks] + ScheduleAll(awaiting), old(toNode))
    {
      if RelayTransaction !in connectionType {
        return;
      }
      StoreEntries(entries);
      calls := calls + [RetryBroadcastRecoveredBlocks];
      ScheduleRetries(awaiting);
    }

    /** The loop of `msg_txs` over its entries. */
    method StoreEntries(entries: seq<TxsEntry>)
      modifies this`txs, this`checks
      ensures txs == ApplyTxs(old(txs), entries) && checks == old(checks) + TxsChecks(entries)
    {
      ghost var t0, checks0 := txs, checks;
      for i := 0 to |entries|
        invariant txs == ApplyTxs(t0, entries[..i])
        invariant checks == checks0 + TxsChecks(entries[..i])
      {
        ApplyTxsSnoc(t0, entries, i);
        TxsChecksSnoc(entries, i);
        StoreEntry(entries[i]);
      }
      assert entries[..|entries|] == entries;
    }

    /** One entry of `msg_txs`: both checks, the short id assigned when unknown, the contents set when absent. */
    method StoreEntry(e: TxsEntry)
      modifies this`txs, this`checks
      ensures txs == ApplyEntry(old(txs), e)
      ensures checks == old(checks) + [CheckMissingSid(e.shortId), CheckMissingTxHash(e.txHash)]
    {
      checks := checks + [CheckMissingSid(e.shortId)];
      if e.shortId !in txs.hashOf {
        txs := AssignShortId(txs, e.txHash, e.shortId);
      }
      checks := checks + [CheckMissingTxHash(e.txHash)];
      if e.txHash !in txs.contents {
        txs := SetTransactionContents(txs, e.txHash, e.contents);
      }
    }

    /** The loop of `msg_txs` over the blocks awaiting recovery. */
    method ScheduleRetries(awaiting: seq<BlockProcessing.RecoveryInfo>)
      modifies this`calls
      ensures calls == old(calls) + ScheduleAll(awaiting)
    {
      for i := 0 to |awaiting|
        invariant calls == old(calls) + ScheduleAll(awaiting[..i])
      {
        ScheduleAllSnoc(awaiting, i);
        calls := calls + [ScheduleRecoveryRetry(awaiting[i])];
      }
      assert awaiting[..|awaiting|] == awaiting;
    }
  }
}
