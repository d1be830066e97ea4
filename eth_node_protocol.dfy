/**
 * The new-block assembly of the gateway's connection to an Ethereum node. A node
 * announces new blocks by hash; the gateway asks for each header and, in one request per
 * announcement, for the bodies. Headers and bodies are kept per block hash until both
 * have arrived; the hash then goes on a ready stack, and the ready stack is drained into
 * the block processing service.
 *
 * The node's collaborators are fields of the connection: the messages sent to the node
 * and the calls made on the block cleanup, block queuing and block processing services
 * are logs, the node's `blocks_seen` and the cleanup service's marked blocks are sets.
 * Keccak-256, the node's total-difficulty calculation and the block timestamp check are
 * functions fixed at construction.
 */
module EthNodeProtocol {
  import opened Wrappers
  import opened Bytes

  /** `NewBlockParts`: the header and body bytes received so far, and the announced block number. */
  datatype NewBlockParts = NewBlockParts(header: Option<seq<byte>>, body: Option<seq<byte>>, number: nat)

  predicate Complete(p: NewBlockParts)
  {
    p.header.Some? && p.body.Some?
  }

  /** A header of a `BlockHeaders` message: its RLP bytes and its parent hash. */
  datatype EthHeader<H> = EthHeader(bytes: seq<byte>, prevHash: H)

  datatype NodeMessage<H> =
    | GetBlockHeaders(blockHash: H, amount: nat, skip: nat, reverse: bool)
    | GetBlockBodies(blockHashes: seq<H>)

  /** `InternalEthBlockInfo.from_new_block_parts`: the parts of a block with its total difficulty. */
  datatype InternalBlock<H> = InternalBlock(blockHash: H, parts: NewBlockParts, totalDifficulty: Option<nat>)

  /** A call of `clean_block_transactions_by_block_components` for a block body. */
  datatype CleanedBlock<H> = CleanedBlock(blockHash: H, body: seq<byte>)

  function HashesOf<H(==)>(pairs: seq<(H, nat)>): (r: seq<H>)
    ensures |r| == |pairs| && forall k :: 0 <= k < |pairs| ==> r[k] == pairs[k].0
  {
    if pairs == [] then [] else HashesOf(pairs[..|pairs| - 1]) + [pairs[|pairs| - 1].0]
  }

  /** The announced (hash, number) pairs whose hash was not seen, in announcement order. */
  function Unseen<H(==)>(pairs: seq<(H, nat)>, seen: set<H>): (r: seq<(H, nat)>)
    ensures forall k :: 0 <= k < |r| ==> r[k] in pairs && r[k].0 !in seen
    ensures forall k :: 0 <= k < |pairs| && pairs[k].0 !in seen ==> pairs[k] in r
  {
    if pairs == [] then []
    else
      var last := pairs[|pairs| - 1];
      Unseen(pairs[..|pairs| - 1], seen) + (if last.0 in seen then [] else [last])
  }

  /** An announcement without repeated hashes leaves unseen hashes without repeats. */
  lemma {:induction false} UnseenDistinct<H>(pairs: seq<(H, nat)>, seen: set<H>)
    requires Distinct(HashesOf(pairs))
    ensures Distinct(HashesOf(Unseen(pairs, seen)))
  {
    if pairs != [] {
      var init := pairs[..|pairs| - 1];
      var last := pairs[|pairs| - 1];
      assert HashesOf(init) == HashesOf(pairs)[..|pairs| - 1];
      UnseenDistinct(init, seen);
      var u := Unseen(init, seen);
      forall k | 0 <= k < |u|
        ensures u[k].0 != last.0
      {
        var j :| 0 <= j < |init| && init[j] == u[k];
        assert HashesOf(pairs)[j] == u[k].0 && HashesOf(pairs)[|pairs| - 1] == last.0;
      }
    }
  }

  /** The pending table after a `(None, None, number)` entry is added for each pair in order. */
  function AddPending<H(==)>(pending: map<H, NewBlockParts>, pairs: seq<(H, nat)>): map<H, NewBlockParts>
  {
    if pairs == [] then pending
    else
      var last := pairs[|pairs| - 1];
      AddPending(pending, pairs[..|pairs| - 1])[last.0 := NewBlockParts(None, None, last.1)]
  }

  /**
   * Each announced hash has an empty entry with its block number; every other entry is
   * kept as it was.
   */
  lemma {:induction false} AddPendingEntries<H>(pending: map<H, NewBlockParts>, pairs: seq<(H, nat)>)
    requires Distinct(HashesOf(pairs))
    ensures var r := AddPending(pending, pairs);
      && r.Keys == pending.Keys + Elements(HashesOf(pairs))
      && (forall k :: 0 <= k < |pairs| ==> r[pairs[k].0] == NewBlockParts(None, None, pairs[k].1))
      && (forall h :: h in pending && h !in HashesOf(pairs) ==> r[h] == pending[h])
  {
    if pairs != [] {
      var init := pairs[..|pairs| - 1];
      var last := pairs[|pairs| - 1];
      assert HashesOf(init) == HashesOf(pairs)[..|pairs| - 1];
      assert HashesOf(pairs) == HashesOf(init) + [last.0];
      AddPendingEntries(pending, init);
      forall k | 0 <= k < |init|
        ensures init[k].0 != last.0
      {
        assert HashesOf(pairs)[k] == init[k].0 && HashesOf(pairs)[|pairs| - 1] == last.0;
      }
    }
  }

  function HeaderRequests<H(==)>(pairs: seq<(H, nat)>): (r: seq<NodeMessage<H>>)
    ensures |r| == |pairs|
    ensures forall k :: 0 <= k < |pairs| ==> r[k] == GetBlockHeaders(pairs[k].0, 1, 0, false)
  {
    if pairs == [] then []
    else HeaderRequests(pairs[..|pairs| - 1]) + [GetBlockHeaders(pairs[|pairs| - 1].0, 1, 0, false)]
  }

  /** `deque.append` on a deque with `maxlen`: the oldest entries are dropped to keep the length. */
  function BoundedAppend<T>(q: seq<T>, x: T, maxLength: nat): (r: seq<T>)
    ensures |q| <= maxLength ==> |r| <= maxLength
    ensures |q| < maxLength ==> r == q + [x]
    ensures 0 < maxLength == |q| ==> r == q[1..] + [x]
    ensures forall y :: y in r ==> y in q || y == x
  {
    var appended := q + [x];
    if |appended| <= maxLength then appended else appended[|appended| - maxLength..]
  }

  /** `_check_pending_new_block`: a hash goes on the ready stack once its header and body are both there. */
  function ReadyAfter<H(==)>(pending: map<H, NewBlockParts>, ready: seq<H>, h: H): seq<H>
  {
    if h in pending && Complete(pending[h]) then ready + [h] else ready
  }

  /** The pending table and ready stack, and the cleaned blocks, while block bodies are matched. */
  datatype Assembly<H> = Assembly(pending: map<H, NewBlockParts>, ready: seq<H>, cleaned: seq<CleanedBlock<H>>)

  /** One body of a `BlockBodies` message, matched to the hash at its position in the request. */
  function AttachBody<H(==)>(a: Assembly<H>, h: H, body: seq<byte>, marked: set<H>): (r: Assembly<H>)
    ensures r.pending.Keys == a.pending.Keys
    ensures forall x :: x in r.ready ==> x in a.ready || (x == h && h in a.pending)
  {
    if h in a.pending then
      var pending := a.pending[h := a.pending[h].(body := Some(body))];
      Assembly(pending, ReadyAfter(pending, a.ready, h), a.cleaned)
    else if h in marked then
      a.(cleaned := a.cleaned + [CleanedBlock(h, body)])
    else
      a
  }

  /** The bodies matched to the requested hashes one position after another. */
  function AttachBodies<H(==)>(a: Assembly<H>, hashes: seq<H>, bodies: seq<seq<byte>>, marked: set<H>): (r: Assembly<H>)
    requires |hashes| == |bodies|
    ensures r.pending.Keys == a.pending.Keys
    ensures forall x :: x in r.ready ==> x in a.ready || (x in hashes && x in a.pending)
  {
    if hashes == [] then a
    else
      var n := |hashes| - 1;
      AttachBody(AttachBodies(a, hashes[..n], bodies[..n], marked), hashes[n], bodies[n], marked)
  }

  /** A ready stack that can be drained: no hash twice, every hash pending. */
  predicate Drainable<H(==)>(pending: map<H, NewBlockParts>, ready: seq<H>)
  {
    Distinct(ready) && forall k :: 0 <= k < |ready| ==> ready[k] in pending
  }

  /** A pending hash gets the body at its position in the request. */
  lemma {:induction false} AttachBodiesBody<H>(a: Assembly<H>, hashes: seq<H>, bodies: seq<seq<byte>>, marked: set<H>, k: nat)
    requires |hashes| == |bodies| && Distinct(hashes)
    requires k < |hashes| && hashes[k] in a.pending
    ensures AttachBodies(a, hashes, bodies, marked).pending[hashes[k]] == a.pending[hashes[k]].(body := Some(bodies[k]))
  {
    var n := |hashes| - 1;
    var s := AttachBodies(a, hashes[..n], bodies[..n], marked);
    assert AttachBodies(a, hashes, bodies, marked) == AttachBody(s, hashes[n], bodies[n], marked);
    if k < n {
      assert hashes[..n][k] == hashes[k] && bodies[..n][k] == bodies[k];
      assert hashes[k] != hashes[n];
      AttachBodiesBody(a, hashes[..n], bodies[..n], marked, k);
    } else {
      AttachBodiesKeeps(a, hashes[..n], bodies[..n], marked, hashes[n]);
    }
  }

  /** A hash that was not requested keeps its entry and its place on the ready stack, or its absence. */
  lemma {:induction false} AttachBodiesKeeps<H>(a: Assembly<H>, hashes: seq<H>, bodies: seq<seq<byte>>, marked: set<H>, h: H)
    requires |hashes| == |bodies| && h !in hashes
    ensures var r := AttachBodies(a, hashes, bodies, marked);
      && (h in a.pending ==> r.pending[h] == a.pending[h])
      && (h in r.ready <==> h in a.ready)
  {
    if hashes != [] {
      var n := |hashes| - 1;
      assert h !in hashes[..n];
      AttachBodiesKeeps(a, hashes[..n], bodies[..n], marked, h);
    }
  }

  /** A requested hash becomes ready exactly when it is pending with its header already there. */
  lemma {:induction false} AttachBodiesReadyAt<H>(a: Assembly<H>, hashes: seq<H>, bodies: seq<seq<byte>>, marked: set<H>, k: nat)
    requires |hashes| == |bodies| && Distinct(hashes)
    requires k < |hashes| && hashes[k] !in a.ready
    ensures hashes[k] in AttachBodies(a, hashes, bodies, marked).ready
      <==> hashes[k] in a.pending && a.pending[hashes[k]].header.Some?
  {
    var n := |hashes| - 1;
    var s := AttachBodies(a, hashes[..n], bodies[..n], marked);
    assert AttachBodies(a, hashes, bodies, marked) == AttachBody(s, hashes[n], bodies[n], marked);
    if k < n {
      assert hashes[..n][k] == hashes[k];
      assert hashes[k] != hashes[n];
      AttachBodiesReadyAt(a, hashes[..n], bodies[..n], marked, k);
    } else {
      AttachBodiesKeeps(a, hashes[..n], bodies[..n], marked, hashes[n]);
    }
  }

  /** Matching distinct hashes that are not ready yet keeps the ready stack drainable. */
  lemma {:induction false} AttachBodiesDrainable<H>(a: Assembly<H>, hashes: seq<H>, bodies: seq<seq<byte>>, marked: set<H>)
    requires |hashes| == |bodies| && Distinct(hashes)
    requires Drainable(a.pending, a.ready)
    requires forall k :: 0 <= k < |hashes| ==> hashes[k] !in a.ready
    ensures var r := AttachBodies(a, hashes, bodies, marked);
      Drainable(r.pending, r.ready)
  {
    if hashes != [] {
      var n := |hashes| - 1;
      var init := hashes[..n];
      assert Distinct(init);
      AttachBodiesDrainable(a, init, bodies[..n], marked);
      var s := AttachBodies(a, init, bodies[..n], marked);
      assert hashes[n] !in init;
      assert hashes[n] !in s.ready;
    }
  }

  /** Bodies for hashes that are neither pending nor marked for cleanup change nothing. */
  lemma {:induction false} UnknownBodiesIgnored<H>(a: Assembly<H>, hashes: seq<H>, bodies: seq<seq<byte>>, marked: set<H>)
    requires |hashes| == |bodies|
    requires forall k :: 0 <= k < |hashes| ==> hashes[k] !in a.pending && hashes[k] !in marked
    ensures AttachBodies(a, hashes, bodies, marked) == a
  {
    if hashes != [] {
      var n := |hashes| - 1;
      UnknownBodiesIgnored(a, hashes[..n], bodies[..n], marked);
    }
  }

  class EthNodeConnectionProtocol<H(==)> {
    /** `REQUESTED_NEW_BLOCK_BODIES_MAX_COUNT`, the `maxlen` of the body-request queue. */
    const maxBodyRequests: nat
    /** `crypto_utils.keccak_hash`. */
    const keccak: seq<byte> -> H
    /** `node.try_calculate_total_difficulty`. */
    const totalDifficulty: (H, NewBlockParts) -> Option<nat>
    /** `is_valid_block_timestamp`. */
    const validTimestamp: InternalBlock<H> -> bool

    var pending: map<H, NewBlockParts>
    /** `_ready_new_blocks`: appended to and popped at the right end. */
    var ready: seq<H>
    /** `_block_bodies_requests`: appended at the right end, taken from the left. */
    var bodiesRequests: seq<seq<H>>
    /** The node's `blocks_seen`. */
    var blocksSeen: set<H>
    /** The block cleanup service's `is_marked_for_cleanup`. */
    var markedForCleanup: set<H>
    var sentToNode: seq<NodeMessage<H>>
    /** Calls of `on_block_seen_by_blockchain_node`. */
    var seenByNode: seq<H>
    /** Calls of `mark_blocks_and_request_cleanup`. */
    var cleanupRequests: seq<seq<H>>
    /** Calls of `mark_blocks_seen_by_blockchain_node` on the block queuing service. */
    var seenMarks: seq<seq<H>>
    var cleaned: seq<CleanedBlock<H>>
    /** Calls of `queue_block_for_processing` on the block processing service. */
    var processed: seq<InternalBlock<H>>

    /** Between messages the ready stack is empty and the request queue is bounded. */
    ghost predicate Valid()
      reads this
    {
      && ready == []
      && |bodiesRequests| <= maxBodyRequests
      && forall k :: 0 <= k < |bodiesRequests| ==> Distinct(bodiesRequests[k])
    }

    constructor (maxBodyRequests: nat, keccak: seq<byte> -> H,
                 totalDifficulty: (H, NewBlockParts) -> Option<nat>, validTimestamp: InternalBlock<H> -> bool,
                 blocksSeen: set<H>, markedForCleanup: set<H>)
      ensures Valid()
      ensures this.maxBodyRequests == maxBodyRequests && this.keccak == keccak
      ensures this.totalDifficulty == totalDifficulty && this.validTimestamp == validTimestamp
      ensures this.blocksSeen == blocksSeen && this.markedForCleanup == markedForCleanup
      ensures pending == map[] && ready == [] && bodiesRequests == [] && sentToNode == []
      ensures seenByNode == [] && cleanupRequests == [] && seenMarks == [] && cleaned == [] && processed == []
    {
      this.maxBodyRequests, this.keccak := maxBodyRequests, keccak;
      this.totalDifficulty, this.validTimestamp := totalDifficulty, validTimestamp;
      this.blocksSeen, this.markedForCleanup := blocksSeen, markedForCleanup;
      pending, ready, bodiesRequests, sentToNode := map[], [], [], [];
      seenByNode, cleanupRequests, seenMarks, cleaned, processed := [], [], [], [], [];
    }

    function Entry(p: map<H, NewBlockParts>, h: H): InternalBlock<H>
      requires h in p
    {
      InternalBlock(h, p[h], totalDifficulty(h, p[h]))
    }

    /**
     * What draining the ready stack queues for processing: the stack is popped from its
     * right end, so the last hash comes first, and only blocks with a valid timestamp go on.
     */
    function Drained(p: map<H, NewBlockParts>, r: seq<H>): seq<InternalBlock<H>>
      requires forall k :: 0 <= k < |r| ==> r[k] in p
    {
      if r == [] then []
      else Drained(p, r[1..]) + (if validTimestamp(Entry(p, r[0])) then [Entry(p, r[0])] else [])
    }

    /**
     * Every block queued by a drain is the entry of a ready hash and has a valid timestamp,
     * and the entry of every ready hash with a valid timestamp is queued.
     */
    lemma {:induction false} DrainedExactly(p: map<H, NewBlockParts>, r: seq<H>)
      requires forall k :: 0 <= k < |r| ==> r[k] in p
      ensures forall b :: b in Drained(p, r) ==> b.blockHash in r && b == Entry(p, b.blockHash) && validTimestamp(b)
      ensures forall k :: 0 <= k < |r| && validTimestamp(Entry(p, r[k])) ==> Entry(p, r[k]) in Drained(p, r)
    {
      if r != [] {
        DrainedExactly(p, r[1..]);
        forall k | 0 < k < |r| && validTimestamp(Entry(p, r[k]))
          ensures Entry(p, r[k]) in Drained(p, r)
        {
          assert r[1..][k - 1] == r[k];
        }
      }
    }

    /** The hashes sent to cleanup and seen-marking for headers that are not attached. */
    function HeaderHashes(headers: seq<EthHeader<H>>): (r: seq<H>)
      requires |headers| > 0
      ensures |r| == |headers| + 1 && r[0] == headers[0].prevHash
      ensures forall k :: 0 <= k < |headers| ==> r[k + 1] == keccak(headers[k].bytes)
    {
      [headers[0].prevHash] + HeaderHashesOf(headers)
    }

    function HeaderHashesOf(headers: seq<EthHeader<H>>): (r: seq<H>)
      ensures |r| == |headers| && forall k :: 0 <= k < |headers| ==> r[k] == keccak(headers[k].bytes)
    {
      if headers == [] then [] else HeaderHashesOf(headers[..|headers| - 1]) + [keccak(headers[|headers| - 1].bytes)]
    }

    /** `_check_pending_new_block`. */
    method CheckPendingNewBlock(h: H)
      modifies this`ready
      ensures ready == ReadyAfter(pending, old(ready), h)
    {
      if h in pending {
        var parts := pending[h];
        if parts.header.Some? && parts.body.Some? {
          ready := ready + [h];
        }
      }
    }

    /**
     * `_process_ready_new_blocks`: pops the ready stack to empty, removes each popped hash
     * from the pending table and queues the blocks with a valid timestamp for processing.
     */
    method ProcessReadyNewBlocks()
      requires Drainable(pending, ready)
      modifies this`ready, this`pending, this`processed
      ensures ready == []
      ensures pending == old(pending) - Elements(old(ready))
      ensures processed == old(processed) + Drained(old(pending), old(ready))
    {
      ghost var p0, r0 := pending, ready;
      while ready != []
        modifies this`ready, this`pending, this`processed
        invariant |ready| <= |r0| && ready == r0[..|ready|]
        invariant pending == p0 - Elements(r0[|ready|..])
        invariant processed == old(processed) + Drained(p0, r0[|ready|..])
        decreases |ready|
      {
        var n := |ready| - 1;
        var h := ready[n];
        assert h == r0[n];
        assert forall k :: n < k < |r0| ==> r0[k] != h;
        assert r0[n..] == [h] + r0[n + 1..];
        assert Elements(r0[n..]) == Elements(r0[n + 1..]) + {h};
        ready := ready[..n];
        var parts := pending[h];
        var td := totalDifficulty(h, parts);
        var block := InternalBlock(h, parts, td);
        pending := pending - {h};
        if validTimestamp(block) {
          processed := processed + [block];
        }
      }
      assert r0[0..] == r0;
    }

    /** `request_block_body`: one `GetBlockBodies` to the node, and the request queued. */
    method RequestBlockBody(hashes: seq<H>)
      requires Valid() && Distinct(hashes)
      modifies this`sentToNode, this`bodiesRequests
      ensures Valid()
      ensures sentToNode == old(sentToNode) + [GetBlockBodies(hashes)]
      ensures bodiesRequests == BoundedAppend(old(bodiesRequests), hashes, maxBodyRequests)
    {
      sentToNode := sentToNode + [GetBlockBodies(hashes)];
      bodiesRequests := BoundedAppend(bodiesRequests, hashes, maxBodyRequests);
    }

    /** The first loop of `msg_new_block_hashes`: each announced hash is reported seen; the unseen pairs are kept. */
    method ReportAnnounced(pairs: seq<(H, nat)>) returns (unseen: seq<(H, nat)>)
      modifies this`seenByNode
      ensures unseen == Unseen(pairs, blocksSeen)
      ensures seenByNode == old(seenByNode) + HashesOf(pairs)
    {
      unseen := [];
      var i := 0;
      while i < |pairs|
        invariant 0 <= i <= |pairs|
        invariant unseen == Unseen(pairs[..i], blocksSeen)
        invariant seenByNode == old(seenByNode) + HashesOf(pairs[..i])
      {
        var (h, number) := pairs[i];
        assert pairs[..i + 1][..i] == pairs[..i];
        if h !in blocksSeen {
          unseen := unseen + [(h, number)];
        }
        seenByNode := seenByNode + [h];
        i := i + 1;
      }
      assert pairs[..i] == pairs;
    }

    /** The second loop of `msg_new_block_hashes`: an empty pending entry and a header request per pair. */
    method RequestHeaders(unseen: seq<(H, nat)>)
      modifies this`pending, this`sentToNode
      ensures pending == AddPending(old(pending), unseen)
      ensures sentToNode == old(sentToNode) + HeaderRequests(unseen)
    {
      var j := 0;
      while j < |unseen|
        invariant 0 <= j <= |unseen|
        invariant pending == AddPending(old(pending), unseen[..j])
        invariant sentToNode == old(sentToNode) + HeaderRequests(unseen[..j])
      {
        var (h, number) := unseen[j];
        assert unseen[..j + 1][..j] == unseen[..j];
        pending := pending[h := NewBlockParts(None, None, number)];
        sentToNode := sentToNode + [GetBlockHeaders(h, 1, 0, false)];
        j := j + 1;
      }
      assert unseen[..j] == unseen;
    }

    /**
     * `msg_new_block_hashes`: every announced hash is reported seen to the node; the unseen
     * ones get an empty pending entry and a header request each, and one body request
     * covers them all. When every hash was seen nothing is requested.
     */
    method MsgNewBlockHashes(pairs: seq<(H, nat)>)
      requires Valid() && Distinct(HashesOf(pairs))
      modifies this`seenByNode, this`pending, this`sentToNode, this`bodiesRequests
      ensures Valid()
      ensures seenByNode == old(seenByNode) + HashesOf(pairs)
      ensures var unseen := Unseen(pairs, blocksSeen);
        unseen == [] ==>
          pending == old(pending) && sentToNode == old(sentToNode) && bodiesRequests == old(bodiesRequests)
      ensures var unseen := Unseen(pairs, blocksSeen);
        unseen != [] ==>
          && pending == AddPending(old(pending), unseen)
          && sentToNode == old(sentToNode) + HeaderRequests(unseen) + [GetBlockBodies(HashesOf(unseen))]
          && bodiesRequests == BoundedAppend(old(bodiesRequests), HashesOf(unseen), maxBodyRequests)
    {
      var unseen := ReportAnnounced(pairs);
      if unseen == [] {
        return;
      }
      RequestHeaders(unseen);
      UnseenDistinct(pairs, blocksSeen);
      RequestBlockBody(HashesOf(unseen));
    }

    /**
     * `msg_block_headers`: a single header whose hash is pending is attached to its entry
     * and the ready blocks are processed; otherwise any headers, with the first one's
     * parent hash in front, go to cleanup and to seen-marking.
     */
    method MsgBlockHeaders(headers: seq<EthHeader<H>>)
      requires Valid()
      modifies this`pending, this`ready, this`processed, this`cleanupRequests, this`seenMarks
      ensures Valid()
      ensures var attach := |old(pending)| > 0 && |headers| == 1 && keccak(headers[0].bytes) in old(pending);
        attach ==>
          var h := keccak(headers[0].bytes);
          var p := old(pending)[h := old(pending)[h].(header := Some(headers[0].bytes))];
          var r := ReadyAfter(p, [], h);
          && pending == p - Elements(r)
          && processed == old(processed) + Drained(p, r)
          && cleanupRequests == old(cleanupRequests) && seenMarks == old(seenMarks)
      ensures var attach := |old(pending)| > 0 && |headers| == 1 && keccak(headers[0].bytes) in old(pending);
        !attach ==>
          && pending == old(pending) && processed == old(processed)
          && cleanupRequests == old(cleanupRequests) + (if headers == [] then [] else [HeaderHashes(headers)])
          && seenMarks == old(seenMarks) + (if headers == [] then [] else [HeaderHashes(headers)])
    {
      if |pending| > 0 && |headers| == 1 {
        var headerBytes := headers[0].bytes;
        var h := keccak(headerBytes);
        if h in pending {
          pending := pending[h := pending[h].(header := Some(headerBytes))];
          CheckPendingNewBlock(h);
          ProcessReadyNewBlocks();
          return;
        }
      }
      if |headers| > 0 {
        var hashes := HeaderHashes(headers);
        cleanupRequests := cleanupRequests + [hashes];
        seenMarks := seenMarks + [hashes];
      }
    }

    /**
     * `msg_block_bodies`: the oldest body request is taken from the queue. A response with
     * a different number of bodies clears the queue and changes nothing else. Otherwise
     * each body goes to the pending entry of the hash at its position, or to cleanup when
     * the hash is marked for it, and the ready blocks are processed.
     */
    method MsgBlockBodies(bodies: seq<seq<byte>>)
      requires Valid()
      modifies this`bodiesRequests, this`pending, this`ready, this`cleaned, this`processed
      ensures Valid()
      ensures old(bodiesRequests) == [] ==>
        && bodiesRequests == [] && pending == old(pending) && cleaned == old(cleaned) && processed == old(processed)
      ensures old(bodiesRequests) != [] && |old(bodiesRequests)[0]| != |bodies| ==>
        && bodiesRequests == [] && pending == old(pending) && cleaned == old(cleaned) && processed == old(processed)
      ensures old(bodiesRequests) != [] && |old(bodiesRequests)[0]| == |bodies| ==>
        var a := AttachBodies(Assembly(old(pending), [], old(cleaned)), old(bodiesRequests)[0], bodies, markedForCleanup);
        && bodiesRequests == old(bodiesRequests)[1..]
        && cleaned == a.cleaned
        && pending == a.pending - Elements(a.ready)
        && processed == old(processed) + Drained(a.pending, a.ready)
    {
      if bodiesRequests == [] {
        return;
      }
      var requested := bodiesRequests[0];
      bodiesRequests := bodiesRequests[1..];
      if |requested| != |bodies| {
        bodiesRequests := [];
        return;
      }
      ghost var a0 := Assembly(pending, ready, cleaned);
      var i := 0;
      while i < |requested|
        modifies this`pending, this`ready, this`cleaned
        invariant 0 <= i <= |requested|
        invariant Assembly(pending, ready, cleaned) == AttachBodies(a0, requested[..i], bodies[..i], markedForCleanup)
      {
        var h := requested[i];
        assert requested[..i + 1][..i] == requested[..i] && bodies[..i + 1][..i] == bodies[..i];
        if h in pending {
          pending := pending[h := pending[h].(body := Some(bodies[i]))];
          CheckPendingNewBlock(h);
        } else if h in markedForCleanup {
          cleaned := cleaned + [CleanedBlock(h, bodies[i])];
        }
        i := i + 1;
      }
      assert requested[..i] == requested && bodies[..i] == bodies;
      AttachBodiesDrainable(a0, requested, bodies, markedForCleanup);
      ProcessReadyNewBlocks();
    }
  }
}
