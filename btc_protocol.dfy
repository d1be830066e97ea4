/**
 * The gateway's protocol handlers for its connection to a Bitcoin node: the handshake
 * the connection opens with, the answers to ping and getaddr, the handling of blocks,
 * and, on the node connection, the version handshake that flushes the messages queued
 * while no node was connected.
 *
 * The connection and the gateway node are classes whose fields the handlers update:
 * the connection's outbound queue, its state flags and its handler table; the node's
 * queue of messages waiting for a node connection, its current node connection, its
 * alarms and the logs of what it sent to the node and asked of its services. A flag
 * word is the set of its 1-bit positions, so `state |= F` is a set union.
 */
module BtcProtocol {
  import opened Wrappers
  import opened Bytes
  import GatewayConstants
  import BtcConverter

  /**
   * The message types the handler tables are keyed by (`BtcMessageType`), sent under the
   * command names version, ping, pong, getaddr, inv, getdata, getheaders, getblocks, tx
   * and block.
   */
  datatype Command =
    | Version | Ping | Pong | GetAddress | Inventory | GetData | GetHeaders | GetBlocks
    | Transactions | Block

  /** Inventory type of a block, as in the Bitcoin `inv` message. */
  const MsgBlockInventory: nat := 2

  datatype InvVect = InvVect(invType: nat, hash: Hash)

  /** The Bitcoin messages the handlers receive and send. */
  datatype BtcMessage =
    | VersionMsg(magic: nat, version: nat, dstIp: string, dstPort: nat, srcIp: string, srcPort: nat,
                 nonce: nat, startHeight: nat, userAgent: seq<byte>, services: nat)
    | VerackMsg(magic: nat)
    | PingMsg(magic: nat, nonce: nat)
    | PongMsg(magic: nat, nonce: nat)
    | GetAddrMsg(magic: nat)
    | AddrMsg(magic: nat, addresses: seq<(string, nat)>)
    | InvMsg(magic: nat, inventory: seq<InvVect>)
    | GetDataMsg(magic: nat, inventory: seq<InvVect>)
    | BlockMsg(magic: nat, blockHash: Hash)

  /** An entry of the outbound queue: a message object, or bytes already serialised. */
  datatype Outbound = Message(msg: BtcMessage) | RawBytes(bytes: seq<byte>)

  /** The bound handler methods a connection's handler table refers to. */
  datatype Handler =
    | PingHandler | PongHandler | GetAddrHandler
    | VersionHandler | InvHandler | BlockHandler | TxHandler | ProxyRequestHandler

  /** The node options the protocol reads. */
  datatype GatewayOpts = GatewayOpts(
    blockchainNetMagic: nat, blockchainVersion: nat, externalIp: string, externalPort: nat,
    blockchainNonce: nat, protocolVersion: int, blockchainServices: nat)

  /** An alarm: after `delayMs`, `send_ping` runs on `connection`. */
  datatype PingAlarm = PingAlarm(delayMs: nat, connection: BtcConnection)

  // ---------------------------------------------------------------------------------
  // The user agent: the protocol version written in decimal ASCII.

  /** The decimal digits of `n`, most significant first, without leading zeros. */
  function Digits(n: nat): (s: seq<byte>)
    ensures |s| >= 1
    ensures forall i :: 0 <= i < |s| ==> '0' as byte <= s[i] <= '9' as byte
    ensures s[0] == '0' as byte <==> n == 0
    decreases n
  {
    if n < 10 then ['0' as byte + n] else Digits(n / 10) + ['0' as byte + n % 10]
  }

  /** The number a string of decimal digits denotes. */
  function DigitsValue(s: seq<byte>): int
  {
    if s == [] then 0 else DigitsValue(s[..|s| - 1]) * 10 + (s[|s| - 1] - '0' as byte)
  }

  lemma {:induction false} DigitsRoundTrip(n: nat)
    ensures DigitsValue(Digits(n)) == n
    decreases n
  {
    if n >= 10 {
      DigitsRoundTrip(n / 10);
      var s := Digits(n);
      assert s[..|s| - 1] == Digits(n / 10);
    }
  }

  /** `str(n).encode("utf-8")`: an optional minus sign, then the digits of `|n|`. */
  function DecimalBytes(n: int): (s: seq<byte>)
    ensures |s| >= 1
    ensures s[0] == '-' as byte <==> n < 0
  {
    if n < 0 then ['-' as byte] + Digits(-n) else Digits(n)
  }

  /** The integer a decimal string denotes. */
  function DecimalValue(s: seq<byte>): int
  {
    if |s| > 0 && s[0] == '-' as byte then -DigitsValue(s[1..]) else DigitsValue(s)
  }

  /** The user agent decodes back to the protocol version. */
  lemma DecimalRoundTrip(n: int)
    ensures DecimalValue(DecimalBytes(n)) == n
  {
    if n < 0 {
      DigitsRoundTrip(-n);
      assert DecimalBytes(n)[1..] == Digits(-n);
    } else {
      DigitsRoundTrip(n);
    }
  }

  // ---------------------------------------------------------------------------------
  // The handshake message and the handler tables.

  /** The version message a connection to `peerIp:peerPort` opens with. */
  function VersionMessage(opts: GatewayOpts, peerIp: string, peerPort: nat): (m: BtcMessage)
    ensures m.VersionMsg?
    ensures m.magic == opts.blockchainNetMagic && m.version == opts.blockchainVersion
    ensures m.dstIp == peerIp && m.dstPort == peerPort
    ensures m.srcIp == opts.externalIp && m.srcPort == opts.externalPort
    ensures m.nonce == opts.blockchainNonce && m.services == opts.blockchainServices
    ensures m.startHeight == 0
    ensures DecimalValue(m.userAgent) == opts.protocolVersion
  {
    DecimalRoundTrip(opts.protocolVersion);
    VersionMsg(opts.blockchainNetMagic, opts.blockchainVersion, peerIp, peerPort,
               opts.externalIp, opts.externalPort, opts.blockchainNonce, 0,
               DecimalBytes(opts.protocolVersion), opts.blockchainServices)
  }

  /** The handler table `BtcBaseConnectionProtocol` installs. */
  const BaseHandlers: map<Command, Handler> :=
    map[Ping := PingHandler, Pong := PongHandler, GetAddress := GetAddrHandler]

  /** The entries `BtcNodeConnectionProtocol` adds to it. */
  const NodeHandlerUpdates: map<Command, Handler> :=
    map[Version := VersionHandler, Inventory := InvHandler, Block := BlockHandler,
        Transactions := TxHandler, GetBlocks := ProxyRequestHandler,
        GetHeaders := ProxyRequestHandler, GetData := ProxyRequestHandler]

  /** The base table answers exactly ping, pong and getaddr. */
  lemma BaseHandlersExact()
    ensures BaseHandlers.Keys == {Ping, Pong, GetAddress}
    ensures BaseHandlers[Ping] == PingHandler && BaseHandlers[Pong] == PongHandler
    ensures BaseHandlers[GetAddress] == GetAddrHandler
  {
  }

  /** The table a node connection ends up with. */
  const NodeHandlers: map<Command, Handler> := BaseHandlers + NodeHandlerUpdates

  /** The node table holds the base commands and version, inv, block, tx and the three requests. */
  lemma NodeHandlersKeys()
    ensures NodeHandlers.Keys
         == BaseHandlers.Keys + {Version, Inventory, Block, Transactions, GetBlocks, GetHeaders, GetData}
  {
  }

  /** The node table keeps the base entries. */
  lemma NodeHandlersKeepBase()
    ensures NodeHandlers[Ping] == PingHandler && NodeHandlers[Pong] == PongHandler
    ensures NodeHandlers[GetAddress] == GetAddrHandler
  {
  }

  /**
   * The node table adds the version, inv, block and tx handlers, and routes getblocks,
   * getheaders and getdata to the proxy handler.
   */
  lemma NodeHandlersAdded()
    ensures NodeHandlers[Version] == VersionHandler && NodeHandlers[Inventory] == InvHandler
    ensures NodeHandlers[Block] == BlockHandler && NodeHandlers[Transactions] == TxHandler
    ensures NodeHandlers[GetBlocks] == ProxyRequestHandler
    ensures NodeHandlers[GetHeaders] == ProxyRequestHandler
    ensures NodeHandlers[GetData] == ProxyRequestHandler
  {
  }

  // ---------------------------------------------------------------------------------
  // Flushing the node message queue.

  /** The outbound entries for serialised messages `q`, in order. */
  function RawMessages(q: seq<seq<byte>>): seq<Outbound>
  {
    if q == [] then [] else RawMessages(q[..|q| - 1]) + [RawBytes(q[|q| - 1])]
  }

  /** Every queued message becomes one outbound entry, at its own position. */
  lemma {:induction false} RawMessagesAt(q: seq<seq<byte>>)
    ensures |RawMessages(q)| == |q|
    ensures forall i :: 0 <= i < |q| ==> RawMessages(q)[i] == RawBytes(q[i])
  {
    if q != [] {
      RawMessagesAt(q[..|q| - 1]);
    }
  }

  lemma RawMessagesSnoc(q: seq<seq<byte>>, i: nat)
    requires i < |q|
    ensures RawMessages(q[..i + 1]) == RawMessages(q[..i]) + [RawBytes(q[i])]
  {
    assert q[..i + 1][..i] == q[..i];
  }

  /** `a | b` on flag words preserves every bit of `a` outside `b` and sets those of `b`. */
  lemma SetFlagsPreservesOthers(state: set<nat>, flags: set<nat>, bit: nat)
    ensures bit in flags ==> bit in state + flags
    ensures bit !in flags ==> (bit in state + flags <==> bit in state)
  {
  }

  // ---------------------------------------------------------------------------------
  // The gateway node and the connection.

  /** The parts of the BTC gateway node the protocol handlers use. */
  class BtcGatewayNode {
    const opts: GatewayOpts
    /** Serialised messages waiting for a node connection (`node_msg_queue`). */
    var nodeMsgQueue: seq<seq<byte>>
    /** `node_conn`; `null` is `None`. */
    var nodeConn: BtcConnection?
    /** Alarms registered on the alarm queue. */
    var alarms: seq<PingAlarm>
    /** Messages passed to `send_msg_to_node`. */
    var sentToNode: seq<BtcMessage>
    /** Blocks the block cleanup service has marked for cleanup. */
    var markedForCleanup: set<Hash>
    /** Blocks passed to `clean_block_transactions`. */
    var cleanedBlocks: seq<BtcMessage>
    /** Blocks passed on to the generic blockchain protocol's `msg_block`. */
    var forwardedBlocks: seq<BtcMessage>

    constructor (opts: GatewayOpts, markedForCleanup: set<Hash>)
      ensures this.opts == opts && this.markedForCleanup == markedForCleanup
      ensures nodeMsgQueue == [] && nodeConn == null && alarms == []
      ensures sentToNode == [] && cleanedBlocks == [] && forwardedBlocks == []
    {
      this.opts := opts;
      this.markedForCleanup := markedForCleanup;
      nodeMsgQueue := [];
      nodeConn := null;
      alarms := [];
      sentToNode := [];
      cleanedBlocks := [];
      forwardedBlocks := [];
    }

    method RegisterPingAlarm(delayMs: nat, connection: BtcConnection)
      modifies this`alarms
      ensures alarms == old(alarms) + [PingAlarm(delayMs, connection)]
    {
      alarms := alarms + [PingAlarm(delayMs, connection)];
    }

    method SendMsgToNode(msg: BtcMessage)
      modifies this`sentToNode
      ensures sentToNode == old(sentToNode) + [msg]
    {
      sentToNode := sentToNode + [msg];
    }
  }

  /** The connection's socket-facing state. */
  class BtcConnection {
    const peerIp: string
    const peerPort: nat
    const node: BtcGatewayNode
    /** The flags of `ConnectionState.ESTABLISHED`. */
    const established: set<nat>
    /** `is_active()` on a state word. */
    const isActive: set<nat> -> bool
    var state: set<nat>
    var outbound: seq<Outbound>
    var handlers: map<Command, Handler>
    var headerSize: nat
    var pingMessage: Option<BtcMessage>

    constructor (peerIp: string, peerPort: nat, node: BtcGatewayNode, established: set<nat>,
                 isActive: set<nat> -> bool, state: set<nat>)
      ensures this.peerIp == peerIp && this.peerPort == peerPort && this.node == node
      ensures this.established == established && this.isActive == isActive && this.state == state
      ensures outbound == [] && handlers == map[] && headerSize == 0 && pingMessage == None
    {
      this.peerIp := peerIp;
      this.peerPort := peerPort;
      this.node := node;
      this.established := established;
      this.isActive := isActive;
      this.state := state;
      outbound := [];
      handlers := map[];
      headerSize := 0;
      pingMessage := None;
    }

    method EnqueueMsg(msg: BtcMessage)
      modifies this`outbound
      ensures outbound == old(outbound) + [Message(msg)]
    {
      outbound := outbound + [Message(msg)];
    }

    /** Appends every serialised message of `q`, in order. */
    method EnqueueAllBytes(q: seq<seq<byte>>)
      modifies this`outbound
      ensures outbound == old(outbound) + RawMessages(q)
    {
      for i := 0 to |q|
        invariant outbound == old(outbound) + RawMessages(q[..i])
      {
        RawMessagesSnoc(q, i);
        outbound := outbound + [RawBytes(q[i])];
      }
      assert q[..|q|] == q;
    }
  }

  // ---------------------------------------------------------------------------------
  // The protocols.

  class BtcBaseConnectionProtocol {
    const connection: BtcConnection
    const node: BtcGatewayNode
    const magic: nat
    const version: nat

    /**
     * Installs the base handler table and the 24-byte header size, prepares the ping
     * message and enqueues exactly one version message carrying the configured values.
     */
    constructor (connection: BtcConnection, pingNonce: nat)
      modifies connection`handlers, connection`headerSize, connection`pingMessage, connection`outbound
      ensures this.connection == connection && node == connection.node
      ensures magic == connection.node.opts.blockchainNetMagic
      ensures version == connection.node.opts.blockchainVersion
      ensures connection.handlers == BaseHandlers
      ensures connection.headerSize == BtcConverter.HdrCommonOff
      ensures connection.pingMessage == Some(PingMsg(magic, pingNonce))
      ensures connection.outbound == old(connection.outbound)
        + [Message(VersionMessage(connection.node.opts, connection.peerIp, connection.peerPort))]
    {
      this.connection := connection;
      node := connection.node;
      magic := connection.node.opts.blockchainNetMagic;
      version := connection.node.opts.blockchainVersion;
      new;
      connection.headerSize := BtcConverter.HdrCommonOff;
      connection.handlers := BaseHandlers;
      connection.pingMessage := Some(PingMsg(magic, pingNonce));
      var versionMsg := VersionMessage(node.opts, connection.peerIp, connection.peerPort);
      connection.EnqueueMsg(versionMsg);
    }

    /**
     * A block marked for cleanup is cleaned and not passed on; any other block is passed
     * on and not cleaned. Either way one inventory of the block goes to the node.
     */
    method MsgBlock(msg: BtcMessage)
      requires msg.BlockMsg?
      modifies node`cleanedBlocks, node`forwardedBlocks, node`sentToNode
      ensures msg.blockHash in node.markedForCleanup ==>
        node.cleanedBlocks == old(node.cleanedBlocks) + [msg] && node.forwardedBlocks == old(node.forwardedBlocks)
      ensures msg.blockHash !in node.markedForCleanup ==>
        node.forwardedBlocks == old(node.forwardedBlocks) + [msg] && node.cleanedBlocks == old(node.cleanedBlocks)
      ensures node.sentToNode == old(node.sentToNode)
        + [InvMsg(node.opts.blockchainNetMagic, [InvVect(MsgBlockInventory, msg.blockHash)])]
    {
      var blockHash := msg.blockHash;
      if blockHash in node.markedForCleanup {
        node.cleanedBlocks := node.cleanedBlocks + [msg];
      } else {
        node.forwardedBlocks := node.forwardedBlocks + [msg];
      }
      var invMsg := InvMsg(node.opts.blockchainNetMagic, [InvVect(MsgBlockInventory, msg.blockHash)]);
      node.SendMsgToNode(invMsg);
    }

    /** Answers a ping with one pong carrying its nonce and the connection's magic. */
    method MsgPing(msg: BtcMessage)
      requires msg.PingMsg?
      modifies connection`outbound
      ensures connection.outbound == old(connection.outbound) + [Message(PongMsg(magic, msg.nonce))]
    {
      var reply := PongMsg(magic, msg.nonce);
      connection.EnqueueMsg(reply);
    }

    /** A pong changes nothing. */
    method MsgPong(msg: BtcMessage)
      ensures unchanged(connection, node)
    {
    }

    /** Answers getaddr with one addr message listing no address. */
    method MsgGetAddr(msg: BtcMessage)
      modifies connection`outbound
      ensures connection.outbound == old(connection.outbound) + [Message(AddrMsg(magic, []))]
    {
      var reply := AddrMsg(magic, []);
      connection.EnqueueMsg(reply);
    }
  }

  class BtcNodeConnectionProtocol {
    const base: BtcBaseConnectionProtocol
    const connection: BtcConnection
    const node: BtcGatewayNode

    /** The base protocol's setup, then the node handler entries. */
    constructor (connection: BtcConnection, pingNonce: nat)
      modifies connection`handlers, connection`headerSize, connection`pingMessage, connection`outbound
      ensures this.connection == connection && node == connection.node
      ensures base.connection == connection && base.node == connection.node
      ensures base.magic == connection.node.opts.blockchainNetMagic
      ensures connection.handlers == NodeHandlers
      ensures connection.headerSize == BtcConverter.HdrCommonOff
      ensures connection.pingMessage == Some(PingMsg(base.magic, pingNonce))
      ensures connection.outbound == old(connection.outbound)
        + [Message(VersionMessage(connection.node.opts, connection.peerIp, connection.peerPort))]
    {
      var b := new BtcBaseConnectionProtocol(connection, pingNonce);
      base := b;
      this.connection := connection;
      node := connection.node;
      new;
      connection.handlers := connection.handlers + NodeHandlerUpdates;
    }

    /**
     * Records the version, answers with a verack and starts pinging. When the connection
     * is then active, the messages queued for the node go out in order, the queue is
     * emptied and this connection becomes the node connection.
     */
    method MsgVersion(msg: BtcMessage)
      modifies connection`state, connection`outbound, node`alarms, node`nodeMsgQueue, node`nodeConn
      ensures connection.state == old(connection.state) + connection.established
      ensures node.alarms == old(node.alarms) + [PingAlarm(GatewayConstants.BlockchainPingIntervalMs, connection)]
      ensures connection.isActive(connection.state) ==>
        && connection.outbound == old(connection.outbound) + [Message(VerackMsg(base.magic))]
                                  + RawMessages(old(node.nodeMsgQueue))
        && node.nodeMsgQueue == []
        && node.nodeConn == connection
      ensures !connection.isActive(connection.state) ==>
        && connection.outbound == old(connection.outbound) + [Message(VerackMsg(base.magic))]
        && node.nodeMsgQueue == old(node.nodeMsgQueue)
        && node.nodeConn == old(node.nodeConn)
    {
      connection.state := connection.state + connection.established;
      var reply := VerackMsg(base.magic);
      connection.EnqueueMsg(reply);
      node.RegisterPingAlarm(GatewayConstants.BlockchainPingIntervalMs, connection);
      if connection.isActive(connection.state) {
        connection.EnqueueAllBytes(node.nodeMsgQueue);
        if node.nodeMsgQueue != [] {
          node.nodeMsgQueue := [];
        }
        node.nodeConn := connection;
      }
    }

    /** Asks for everything announced: one getdata with the inventory's magic and vectors. */
    method MsgInv(msg: BtcMessage)
      requires msg.InvMsg?
      modifies connection`outbound
      ensures connection.outbound == old(connection.outbound) + [Message(GetDataMsg(msg.magic, msg.inventory))]
    {
      var getdata := GetDataMsg(msg.magic, msg.inventory);
      connection.EnqueueMsg(getdata);
    }
  }
}
