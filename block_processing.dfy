/**
 * The gateway's block processing service: holds on block hashes announced by other
 * gateways, the decision to propagate a block at once or after a hold times out, the
 * routing of blocks decompressed from the BDN, and transaction recovery with a bounded
 * back-off.
 *
 * The node's collaborators are fields of the service: the alarm queue is a map from
 * alarm ids to alarms, broadcasts and propagations are logs, the block queuing service
 * is the set of queued hashes plus a log of its operations, the block recovery service
 * is the map of blocks being recovered plus the attempt counters, and the calls made on
 * the transaction service are a log. The message converter is a pair of functions of a
 * block and the transaction service's current state, fixed at construction. Time is in
 * milliseconds.
 */
module BlockProcessing {
  import opened Wrappers
  import opened Bytes
  import opened TxService
  import GatewayConstants

  type ConnId = nat
  type AlarmId = nat

  datatype ConnectionType = RelayTransaction | RelayBlock | Gateway

  datatype BlockMessage = BlockMessage(hash: Hash, bytes: seq<byte>)

  /** A hold on a block hash; the last three fields are set once a block for it arrives. */
  datatype BlockHold = BlockHold(
    holdMessageTime: int,
    holdingConnection: ConnId,
    blockMessage: Option<BlockMessage>,
    alarm: Option<AlarmId>,
    connection: Option<ConnId>)

  /** What the block recovery service keeps about a block that misses transactions. */
  datatype RecoveryInfo = RecoveryInfo(
    blockHash: Hash,
    bxBlock: seq<byte>,
    unknownShortIds: seq<nat>,
    unknownHashes: seq<Hash>,
    recoveryStartTime: int)

  datatype AlarmCallback = HoldingTimeout(blockHash: Hash) | TriggerRecoveryRetry(info: RecoveryInfo)

  datatype Alarm = Alarm(delayMs: nat, slackMs: nat, callback: AlarmCallback)

  datatype GatewayMessage = BlockHolding(blockHash: Hash, networkNum: nat) | GetTxs(shortIds: seq<nat>)

  datatype Broadcast = Broadcast(
    msg: GatewayMessage,
    connectionTypes: set<ConnectionType>,
    broadcastingConn: Option<ConnId>,
    prependToQueue: bool)

  /** A compressed block handed to the neutrality service for propagation to the network. */
  datatype Propagation = Propagation(block: BlockMessage, bxBlock: seq<byte>, connection: ConnId)

  datatype QueueOp =
    | Push(blockHash: Hash, block: BlockMessage)
    | PushWaitingForRecovery(blockHash: Hash)
    | UpdateRecoveredBlock(blockHash: Hash, block: BlockMessage)
    | Remove(blockHash: Hash)

  /**
   * The result of `bx_block_to_block`: the block when every transaction was found, the
   * block's short ids (`block_info.short_ids`) and what is missing.
   */
  datatype Decompressed = Decompressed(
    block: Option<BlockMessage>,
    blockHash: Hash,
    shortIds: seq<nat>,
    unknownShortIds: seq<nat>,
    unknownHashes: seq<Hash>)

  /** The result of `block_to_bx_block`: the bx block and the short ids it used (`block_info.short_ids`). */
  datatype Compressed = Compressed(bxBlock: seq<byte>, shortIds: seq<nat>)

  /** A call into the message converter: its result, or a `MessageConversionError` naming the block. */
  datatype Conversion<+T> = Converted(value: T) | ConversionFailed(msgHash: Hash)

  /** The calls the service makes on the transaction service about a block. */
  datatype TxServiceCall =
    | OnBlockCleanedUp(blockHash: Hash)
    | TrackSeenShortIds(blockHash: Hash, shortIds: seq<nat>)
    | TrackSeenShortIdsDelayed(blockHash: Hash, shortIds: seq<nat>)

  /** The short ids of `hashes`, in order, as the transaction service reports them. */
  function ShortIdsOf(t: TxState, hashes: seq<Hash>): (r: seq<nat>)
    ensures |r| == |hashes|
  {
    if hashes == [] then [] else ShortIdsOf(t, hashes[..|hashes| - 1]) + [GetShortId(t, hashes[|hashes| - 1])]
  }

  lemma {:induction false} ShortIdsOfAt(t: TxState, hashes: seq<Hash>, k: nat)
    requires k < |hashes|
    ensures ShortIdsOf(t, hashes)[k] == GetShortId(t, hashes[k])
  {
    if k < |hashes| - 1 {
      ShortIdsOfAt(t, hashes[..|hashes| - 1], k);
    }
  }

  /**
   * The short ids a recovery request asks for: the unknown short ids, then the short ids
   * of the transactions whose contents are unknown, both in input order.
   */
  method RecoveryRequestShortIds(unknownShortIds: seq<nat>, unknownHashes: seq<Hash>, t: TxState)
    returns (ids: seq<nat>)
    ensures ids == unknownShortIds + ShortIdsOf(t, unknownHashes)
  {
    ids := [];
    ids := ids + unknownShortIds;
    var i := 0;
    while i < |unknownHashes|
      invariant 0 <= i <= |unknownHashes|
      invariant ids == unknownShortIds + ShortIdsOf(t, unknownHashes[..i])
    {
      assert unknownHashes[..i + 1][..i] == unknownHashes[..i];
      ids := ids + [GetShortId(t, unknownHashes[i])];
      i := i + 1;
    }
    assert unknownHashes[..i] == unknownHashes;
  }

  /** Each position of the recovery request holds the short id that its input position names. */
  lemma RecoveryRequestOrder(unknownShortIds: seq<nat>, unknownHashes: seq<Hash>, t: TxState)
    ensures var ids := unknownShortIds + ShortIdsOf(t, unknownHashes);
      && |ids| == |unknownShortIds| + |unknownHashes|
      && (forall k :: 0 <= k < |unknownShortIds| ==> ids[k] == unknownShortIds[k])
      && (forall k :: 0 <= k < |unknownHashes| ==> ids[|unknownShortIds| + k] == GetShortId(t, unknownHashes[k]))
  {
    forall k | 0 <= k < |unknownHashes| {
      ShortIdsOfAt(t, unknownHashes, k);
    }
  }

  /** A missing counter reads as zero attempts. */
  function AttemptsOf(attempts: map<Hash, nat>, h: Hash): nat
  {
    if h in attempts then attempts[h] else 0
  }

  /** `schedule_recovery_retry` gives up on a block after the last back-off step or after the recovery timeout. */
  predicate GivesUp(attempts: nat, elapsedMs: int, recoveryTimeoutMs: nat)
  {
    attempts >= GatewayConstants.BlockRecoveryMaxRetryAttempts || elapsedMs >= recoveryTimeoutMs
  }

  /** While recovery goes on, the next delay is the table entry for the attempt count, so retries back off. */
  lemma RetryDelaysBackOff(attempts: nat, later: nat, elapsedMs: int, laterElapsedMs: int, timeoutMs: nat)
    requires attempts < later
    requires !GivesUp(attempts, elapsedMs, timeoutMs) && !GivesUp(later, laterElapsedMs, timeoutMs)
    ensures GatewayConstants.BlockRecoveryIntervalsMs[attempts] < GatewayConstants.BlockRecoveryIntervalsMs[later]
  {
    GatewayConstants.RecoveryIntervalsIncrease();
  }

  class BlockProcessingService {
    const networkNum: nat
    /** `blockchain_block_hold_timeout_s`, in milliseconds. */
    const holdTimeoutMs: nat
    /** `blockchain_block_recovery_timeout_s`, in milliseconds. */
    const recoveryTimeoutMs: nat
    /** `block_to_bx_block` of the message converter, against the transaction service. */
    const compress: (BlockMessage, TxState) -> Conversion<Compressed>
    /** `bx_block_to_block` of the message converter, against the transaction service. */
    const decompress: (seq<byte>, TxState) -> Conversion<Decompressed>

    var holds: map<Hash, BlockHold>
    var blocksSeen: set<Hash>
    /** The node has a connection to a (local or remote) blockchain node. */
    var nodeConnected: bool
    var alarms: map<AlarmId, Alarm>
    var nextAlarmId: AlarmId
    var broadcasts: seq<Broadcast>
    var propagated: seq<Propagation>
    var queued: set<Hash>
    var queueOps: seq<QueueOp>
    var recovering: map<Hash, RecoveryInfo>
    var recoveryAttempts: map<Hash, nat>
    var txServiceCalls: seq<TxServiceCall>

    predicate AlarmIdsFresh()
      reads this
    {
      forall id | id in alarms :: id < nextAlarmId
    }

    /** A hold-timeout alarm belongs to the hold on its hash, which stores the held block. */
    predicate OwnedByHold(id: AlarmId)
      reads this
      requires id in alarms && alarms[id].callback.HoldingTimeout?
    {
      var h := alarms[id].callback.blockHash;
      h in holds && holds[h].alarm == Some(id) && holds[h].blockMessage.Some? && holds[h].connection.Some?
    }

    /** The object invariant; it implies at most one hold-timeout alarm per held hash. */
    ghost predicate Valid()
      reads this
    {
      && AlarmIdsFresh()
      && forall id | id in alarms && alarms[id].callback.HoldingTimeout? :: OwnedByHold(id)
    }

    constructor (networkNum: nat, holdTimeoutMs: nat, recoveryTimeoutMs: nat,
                 compress: (BlockMessage, TxState) -> Conversion<Compressed>,
                 decompress: (seq<byte>, TxState) -> Conversion<Decompressed>,
                 blocksSeen: set<Hash>, nodeConnected: bool)
      ensures Valid()
      ensures this.networkNum == networkNum && this.holdTimeoutMs == holdTimeoutMs
      ensures this.recoveryTimeoutMs == recoveryTimeoutMs
      ensures this.compress == compress && this.decompress == decompress
      ensures this.blocksSeen == blocksSeen && this.nodeConnected == nodeConnected
      ensures holds == map[] && alarms == map[] && broadcasts == [] && propagated == []
      ensures queued == {} && queueOps == [] && recovering == map[] && recoveryAttempts == map[]
      ensures txServiceCalls == []
    {
      this.networkNum, this.holdTimeoutMs, this.recoveryTimeoutMs := networkNum, holdTimeoutMs, recoveryTimeoutMs;
      this.compress, this.decompress := compress, decompress;
      this.blocksSeen, this.nodeConnected := blocksSeen, nodeConnected;
      holds, alarms, nextAlarmId := map[], map[], 0;
      broadcasts, propagated := [], [];
      queued, queueOps := {}, [];
      recovering, recoveryAttempts := map[], map[];
      txServiceCalls := [];
    }

    /** Two hold-timeout alarms for the same hash are the same alarm. */
    lemma AtMostOneHoldAlarm(id1: AlarmId, id2: AlarmId)
      requires Valid()
      requires id1 in alarms && id2 in alarms
      requires alarms[id1].callback.HoldingTimeout? && alarms[id2].callback.HoldingTimeout?
      requires alarms[id1].callback.blockHash == alarms[id2].callback.blockHash
      ensures id1 == id2
    {
      assert OwnedByHold(id1) && OwnedByHold(id2);
    }

    function HoldBroadcast(h: Hash, connection: ConnId, prepend: bool): Broadcast
    {
      Broadcast(BlockHolding(h, networkNum), {RelayBlock, Gateway}, Some(connection), prepend)
    }

    function RecoveryBroadcast(ids: seq<nat>): Broadcast
    {
      Broadcast(GetTxs(ids), {RelayTransaction}, None, false)
    }

    /** What `_process_and_broadcast_block` propagates: nothing when compression fails. */
    function PropagationOf(block: BlockMessage, connection: ConnId, t: TxState): seq<Propagation>
    {
      match compress(block, t)
      case ConversionFailed(_) => []
      case Converted(c) => [Propagation(block, c.bxBlock, connection)]
    }

    /** The delayed tracking of the compressed block's short ids that the propagation requests. */
    function TrackingOf(block: BlockMessage, t: TxState): seq<TxServiceCall>
    {
      match compress(block, t)
      case ConversionFailed(_) => []
      case Converted(c) => [TrackSeenShortIdsDelayed(block.hash, c.shortIds)]
    }

    method RegisterAlarm(delayMs: nat, slackMs: nat, callback: AlarmCallback) returns (id: AlarmId)
      requires AlarmIdsFresh()
      modifies this`alarms, this`nextAlarmId
      ensures AlarmIdsFresh()
      ensures id == old(nextAlarmId) && id !in old(alarms) && nextAlarmId == old(nextAlarmId) + 1
      ensures alarms == old(alarms)[id := Alarm(delayMs, slackMs, callback)]
    {
      id := nextAlarmId;
      alarms := alarms[id := Alarm(delayMs, slackMs, callback)];
      nextAlarmId := nextAlarmId + 1;
    }

    /** `place_hold`: a first hold on an unseen hash is stored and announced to relays and gateways. */
    method PlaceHold(blockHash: Hash, connection: ConnId, now: int)
      requires Valid()
      modifies this`holds, this`broadcasts
      ensures Valid()
      ensures blockHash in blocksSeen || blockHash in old(holds) ==>
        holds == old(holds) && broadcasts == old(broadcasts)
      ensures blockHash !in blocksSeen && blockHash !in old(holds) ==>
        && holds == old(holds)[blockHash := BlockHold(now, connection, None, None, None)]
        && broadcasts == old(broadcasts) + [HoldBroadcast(blockHash, connection, false)]
    {
      if blockHash in blocksSeen {
        return;
      }
      if blockHash !in holds {
        holds := holds[blockHash := BlockHold(now, connection, None, None, None)];
        broadcasts := broadcasts + [HoldBroadcast(blockHash, connection, false)];
      }
    }

    /**
     * `_process_and_broadcast_block`: compress against the transaction service, then
     * propagate and ask the service to track the block's short ids, unless compression failed.
     */
    method ProcessAndBroadcastBlock(block: BlockMessage, connection: ConnId, t: TxState)
      modifies this`propagated, this`txServiceCalls
      ensures propagated == old(propagated) + PropagationOf(block, connection, t)
      ensures txServiceCalls == old(txServiceCalls) + TrackingOf(block, t)
    {
      var c := compress(block, t);
      if c.ConversionFailed? {
        return;
      }
      propagated := propagated + [Propagation(block, c.value.bxBlock, connection)];
      txServiceCalls := txServiceCalls + [TrackSeenShortIdsDelayed(block.hash, c.value.shortIds)];
    }

    /**
     * `queue_block_for_processing`: a held block waits for one hold-timeout alarm (only the
     * first block for a hold registers it); a block without a hold is announced and propagated.
     */
    method QueueBlockForProcessing(block: BlockMessage, connection: ConnId, t: TxState)
      requires Valid()
      modifies this`holds, this`alarms, this`nextAlarmId, this`broadcasts, this`propagated, this`txServiceCalls
      ensures Valid()
      ensures block.hash in old(holds) && old(holds)[block.hash].alarm.None? ==>
        && alarms == old(alarms)[old(nextAlarmId) := Alarm(holdTimeoutMs, 0, HoldingTimeout(block.hash))]
        && holds == old(holds)[block.hash := old(holds)[block.hash].(
             blockMessage := Some(block), alarm := Some(old(nextAlarmId)), connection := Some(connection))]
        && broadcasts == old(broadcasts) && propagated == old(propagated)
        && txServiceCalls == old(txServiceCalls)
      ensures block.hash in old(holds) && old(holds)[block.hash].alarm.Some? ==>
        && alarms == old(alarms) && holds == old(holds)
        && broadcasts == old(broadcasts) && propagated == old(propagated)
        && txServiceCalls == old(txServiceCalls)
      ensures block.hash !in old(holds) ==>
        && alarms == old(alarms) && holds == old(holds)
        && broadcasts == old(broadcasts) + [HoldBroadcast(block.hash, connection, true)]
        && propagated == old(propagated) + PropagationOf(block, connection, t)
        && txServiceCalls == old(txServiceCalls) + TrackingOf(block, t)
    {
      var h := block.hash;
      if h in holds {
        var hold := holds[h];
        if hold.alarm.None? {
          var id := RegisterAlarm(holdTimeoutMs, 0, HoldingTimeout(h));
          holds := holds[h := hold.(blockMessage := Some(block), alarm := Some(id), connection := Some(connection))];
        }
      } else {
        broadcasts := broadcasts + [HoldBroadcast(h, connection, true)];
        ProcessAndBroadcastBlock(block, connection, t);
      }
    }

    /** `cancel_hold_timeout`: drops the hold and its alarm, if any; an unheld hash changes nothing. */
    method CancelHoldTimeout(blockHash: Hash)
      requires Valid()
      modifies this`holds, this`alarms
      ensures Valid()
      ensures holds == old(holds) - {blockHash}
      ensures alarms ==
        if blockHash in old(holds) && old(holds)[blockHash].alarm.Some?
        then old(alarms) - {old(holds)[blockHash].alarm.value}
        else old(alarms)
    {
      if blockHash in holds {
        var hold := holds[blockHash];
        if hold.alarm.Some? {
          alarms := alarms - {hold.alarm.value};
        }
        holds := holds - {blockHash};
      }
    }

    /** The alarm queue fires a hold timeout: `_holding_timeout` propagates the block the hold stored. */
    method FireHoldingTimeout(id: AlarmId, t: TxState)
      requires Valid()
      requires id in alarms && alarms[id].callback.HoldingTimeout?
      modifies this`alarms, this`propagated, this`txServiceCalls
      ensures Valid()
      ensures alarms == old(alarms) - {id}
      ensures var hold := holds[old(alarms)[id].callback.blockHash];
        && propagated == old(propagated) + PropagationOf(hold.blockMessage.value, hold.connection.value, t)
        && txServiceCalls == old(txServiceCalls) + TrackingOf(hold.blockMessage.value, t)
    {
      assert OwnedByHold(id);
      var hold := holds[alarms[id].callback.blockHash];
      alarms := alarms - {id};
      ProcessAndBroadcastBlock(hold.blockMessage.value, hold.connection.value, t);
    }

    /** `start_transaction_recovery`: one request for the missing short ids to the transaction relays. */
    method StartTransactionRecovery(unknownShortIds: seq<nat>, unknownHashes: seq<Hash>, t: TxState)
      modifies this`broadcasts
      ensures broadcasts == old(broadcasts) + [RecoveryBroadcast(unknownShortIds + ShortIdsOf(t, unknownHashes))]
    {
      var ids := RecoveryRequestShortIds(unknownShortIds, unknownHashes, t);
      broadcasts := broadcasts + [RecoveryBroadcast(ids)];
    }

    /**
     * `_handle_decrypted_block`, decompressing against the transaction service. Without a
     * node connection nothing happens; when decompression fails the service is told to clean
     * up the block the error names. Otherwise the hold is lifted; a seen block goes
     * no further; a complete block is queued (updated if recovered or already queued) and
     * marked seen; an incomplete one starts recovery and is queued to wait for it, unless
     * it is already queued and this is not a recovery.
     */
    method HandleDecryptedBlock(bxBlock: seq<byte>, recovered: bool, t: TxState, now: int)
      requires Valid()
      modifies this`holds, this`alarms, this`blocksSeen, this`queued, this`queueOps,
               this`recovering, this`recoveryAttempts, this`broadcasts, this`txServiceCalls
      ensures Valid()
      ensures !nodeConnected || decompress(bxBlock, t).ConversionFailed? ==>
        && holds == old(holds) && alarms == old(alarms) && blocksSeen == old(blocksSeen)
        && queued == old(queued) && queueOps == old(queueOps) && recovering == old(recovering)
        && recoveryAttempts == old(recoveryAttempts) && broadcasts == old(broadcasts)
      ensures !nodeConnected ==> txServiceCalls == old(txServiceCalls)
      ensures nodeConnected && decompress(bxBlock, t).ConversionFailed? ==>
        txServiceCalls == old(txServiceCalls) + [OnBlockCleanedUp(decompress(bxBlock, t).msgHash)]
      ensures nodeConnected && decompress(bxBlock, t).Converted? ==>
        var h := decompress(bxBlock, t).value.blockHash;
        && holds == old(holds) - {h}
        && alarms == (if h in old(holds) && old(holds)[h].alarm.Some?
                      then old(alarms) - {old(holds)[h].alarm.value} else old(alarms))
        && Routed(decompress(bxBlock, t).value, bxBlock, recovered, t, now, old(blocksSeen), old(queued),
                  old(queueOps), old(recovering), old(recoveryAttempts), old(broadcasts), old(txServiceCalls))
    {
      if !nodeConnected {
        return;
      }
      var result := decompress(bxBlock, t);
      if result.ConversionFailed? {
        txServiceCalls := txServiceCalls + [OnBlockCleanedUp(result.msgHash)];
        return;
      }
      var d := result.value;
      CancelHoldTimeout(d.blockHash);
      RouteDecompressed(d, bxBlock, recovered, t, now);
    }

    /**
     * Where a decompressed block goes, as a relation between the bookkeeping before and
     * after: a seen block only has its short ids tracked as seen; a complete block is queued
     * (updated if recovered or already queued), marked seen and its short ids tracked; an
     * incomplete one starts recovery, with its attempt counter registered at 0, and is queued
     * to wait for it, unless it is already queued and this is not a recovery.
     */
    ghost predicate Routed(d: Decompressed, bxBlock: seq<byte>, recovered: bool, t: TxState, now: int,
                           seen0: set<Hash>, queued0: set<Hash>, ops0: seq<QueueOp>,
                           recovering0: map<Hash, RecoveryInfo>, attempts0: map<Hash, nat>,
                           broadcasts0: seq<Broadcast>, calls0: seq<TxServiceCall>)
      reads this
    {
      var h := d.blockHash;
      && (h in seen0 || d.block.Some? ==> txServiceCalls == calls0 + [TrackSeenShortIds(h, d.shortIds)])
      && (h !in seen0 && d.block.None? ==> txServiceCalls == calls0)
      && (h in seen0 ==>
            blocksSeen == seen0 && queued == queued0 && queueOps == ops0
            && recovering == recovering0 && recoveryAttempts == attempts0 && broadcasts == broadcasts0)
      && (h !in seen0 && d.block.Some? ==>
            && blocksSeen == seen0 + {h}
            && queued == queued0 + {h}
            && queueOps == ops0 + [if recovered || h in queued0
                                   then UpdateRecoveredBlock(h, d.block.value)
                                   else Push(h, d.block.value)]
            && recovering == recovering0 - {h}
            && recoveryAttempts == attempts0
            && broadcasts == broadcasts0)
      && (h !in seen0 && d.block.None? && h in queued0 && !recovered ==>
            blocksSeen == seen0 && queued == queued0 && queueOps == ops0
            && recovering == recovering0 && recoveryAttempts == attempts0 && broadcasts == broadcasts0)
      && (h !in seen0 && d.block.None? && (h !in queued0 || recovered) ==>
            && blocksSeen == seen0
            && recovering == recovering0[h := RecoveryInfo(h, bxBlock, d.unknownShortIds, d.unknownHashes, now)]
            && recoveryAttempts == attempts0[h := 0]
            && broadcasts == broadcasts0 + [RecoveryBroadcast(d.unknownShortIds + ShortIdsOf(t, d.unknownHashes))]
            && queued == (if recovered then queued0 else queued0 + {h})
            && queueOps == ops0 + (if recovered then [] else [PushWaitingForRecovery(h)]))
    }

    method RouteDecompressed(d: Decompressed, bxBlock: seq<byte>, recovered: bool, t: TxState, now: int)
      modifies this`blocksSeen, this`queued, this`queueOps, this`recovering, this`recoveryAttempts,
               this`broadcasts, this`txServiceCalls
      ensures Routed(d, bxBlock, recovered, t, now, old(blocksSeen), old(queued), old(queueOps),
                     old(recovering), old(recoveryAttempts), old(broadcasts), old(txServiceCalls))
    {
      var h := d.blockHash;
      if h in blocksSeen {
        txServiceCalls := txServiceCalls + [TrackSeenShortIds(h, d.shortIds)];
        return;
      }
      if d.block.Some? {
        if recovered || h in queued {
          queueOps := queueOps + [UpdateRecoveredBlock(h, d.block.value)];
        } else {
          queueOps := queueOps + [Push(h, d.block.value)];
        }
        queued := queued + {h};
        recovering := recovering - {h};
        blocksSeen := blocksSeen + {h};
        txServiceCalls := txServiceCalls + [TrackSeenShortIds(h, d.shortIds)];
      } else {
        if h in queued && !recovered {
          return;
        }
        recovering := recovering[h := RecoveryInfo(h, bxBlock, d.unknownShortIds, d.unknownHashes, now)];
        recoveryAttempts := recoveryAttempts[h := 0];
        StartTransactionRecovery(d.unknownShortIds, d.unknownHashes, t);
        if !recovered {
          queueOps := queueOps + [PushWaitingForRecovery(h)];
          queued := queued + {h};
        }
      }
    }

    /**
     * `schedule_recovery_retry`: past the last back-off step or the recovery timeout the
     * block is given up (recovery cancelled, removed from the queue); otherwise one alarm is
     * registered with the table delay for the attempt count and half of it as slack.
     */
    method ScheduleRecoveryRetry(info: RecoveryInfo, now: int)
      requires Valid()
      modifies this`recovering, this`queued, this`queueOps, this`alarms, this`nextAlarmId
      ensures Valid()
      ensures var attempts := AttemptsOf(recoveryAttempts, info.blockHash);
        GivesUp(attempts, now - info.recoveryStartTime, recoveryTimeoutMs) ==>
          && recovering == old(recovering) - {info.blockHash}
          && queued == old(queued) - {info.blockHash}
          && queueOps == old(queueOps) + [Remove(info.blockHash)]
          && alarms == old(alarms) && nextAlarmId == old(nextAlarmId)
      ensures var attempts := AttemptsOf(recoveryAttempts, info.blockHash);
        !GivesUp(attempts, now - info.recoveryStartTime, recoveryTimeoutMs) ==>
          var delay := GatewayConstants.BlockRecoveryIntervalsMs[attempts];
          && alarms == old(alarms)[old(nextAlarmId) := Alarm(delay, delay / 2, TriggerRecoveryRetry(info))]
          && nextAlarmId == old(nextAlarmId) + 1
          && recovering == old(recovering) && queued == old(queued) && queueOps == old(queueOps)
    {
      var h := info.blockHash;
      var attempts := AttemptsOf(recoveryAttempts, h);
      var timedOut := now - info.recoveryStartTime >= recoveryTimeoutMs;
      if attempts >= GatewayConstants.BlockRecoveryMaxRetryAttempts || timedOut {
        recovering := recovering - {h};
        queued := queued - {h};
        queueOps := queueOps + [Remove(h)];
      } else {
        var delay := GatewayConstants.BlockRecoveryIntervalsMs[attempts];
        var _ := RegisterAlarm(delay, delay / 2, TriggerRecoveryRetry(info));
      }
    }

    /** `_trigger_recovery_retry`: one more attempt is counted and the recovery request is sent again. */
    method TriggerRecoveryRetryNow(info: RecoveryInfo, t: TxState)
      modifies this`recoveryAttempts, this`broadcasts
      ensures recoveryAttempts == old(recoveryAttempts)[info.blockHash := AttemptsOf(old(recoveryAttempts), info.blockHash) + 1]
      ensures broadcasts == old(broadcasts) + [RecoveryBroadcast(info.unknownShortIds + ShortIdsOf(t, info.unknownHashes))]
    {
      var h := info.blockHash;
      recoveryAttempts := recoveryAttempts[h := AttemptsOf(recoveryAttempts, h) + 1];
      StartTransactionRecovery(info.unknownShortIds, info.unknownHashes, t);
    }

    /** The alarm queue fires a recovery-retry alarm. */
    method FireRecoveryRetry(id: AlarmId, t: TxState)
      requires Valid()
      requires id in alarms && alarms[id].callback.TriggerRecoveryRetry?
      modifies this`alarms, this`recoveryAttempts, this`broadcasts
      ensures Valid()
      ensures alarms == old(alarms) - {id}
      ensures var info := old(alarms)[id].callback.info;
        && recoveryAttempts == old(recoveryAttempts)[info.blockHash := AttemptsOf(old(recoveryAttempts), info.blockHash) + 1]
        && broadcasts == old(broadcasts) + [RecoveryBroadcast(info.unknownShortIds + ShortIdsOf(t, info.unknownHashes))]
    {
      var info := alarms[id].callback.info;
      alarms := alarms - {id};
      TriggerRecoveryRetryNow(info, t);
    }
  }
}
