/**
 * The compact-block half of the Bitcoin message converter (BIP 152). A compact block
 * carries its header, a nonce, the 6-byte short ids of the transactions the peer expects
 * the gateway to know, and prefilled transactions at their block index. The converter
 * matches the transaction service's hashes against the short ids, lays the block's
 * transactions out in order, and either compresses the rebuilt block into a bx block or
 * keeps what it has under a recovery index until the missing transactions arrive.
 */
module BtcCompact {
  import opened Wrappers
  import opened Bytes
  import opened TxService
  import opened BtcConverter

  /** A BIP 152 short transaction id: 6 bytes. */
  type ShortTxId = s: seq<byte> | |s| == 6 witness seq(6, _ => 0)

  /**
   * A `cmpctblock` message: the short ids in message order and the prefilled transactions
   * by index. The deserialiser gives the short ids as a dict's keys, so a block the
   * converter sees lists each short id once; `CompactBlockToBxBlock` requires that.
   */
  datatype CompactBlock = CompactBlock(
    header: seq<byte>, nonce: seq<byte>, shortIds: seq<ShortTxId>, prefilled: map<nat, seq<byte>>, magic: u32)

  function Reversed(s: seq<byte>): (r: seq<byte>)
    ensures |r| == |s|
  {
    if s == [] then [] else [s[|s| - 1]] + Reversed(s[..|s| - 1])
  }

  lemma {:induction false} ReversedAt(s: seq<byte>, i: nat)
    requires i < |s|
    ensures Reversed(s)[i] == s[|s| - 1 - i]
  {
    if i > 0 {
      ReversedAt(s[..|s| - 1], i - 1);
    }
  }

  /** The SipHash key: the first 16 bytes of SHA-256 over the block header and the nonce. */
  function SipKey(p: Primitives, cb: CompactBlock): (r: seq<byte>)
    ensures |r| == 16 && r == p.sha256(cb.header + cb.nonce)[..16]
  {
    Slice(p.sha256(cb.header + cb.nonce), 0, 16)
  }

  /** `compute_short_id`: the first 6 bytes of SipHash-2-4 under `key` of the hash in internal byte order. */
  function ComputeShortId(p: Primitives, key: seq<byte>, txHash: Hash): (r: ShortTxId)
    ensures r == p.siphash(key, Reversed(txHash))[..6]
  {
    Slice(p.siphash(key, Reversed(txHash)), 0, 6)
  }

  // Matching the transaction service's hashes against the short ids.

  /** One hash of the service: its content is recorded under its short id if the block lists that id. */
  function MatchStep(p: Primitives, key: seq<byte>, sids: seq<ShortTxId>, t: TxState,
                     found: map<ShortTxId, seq<byte>>, h: Hash): map<ShortTxId, seq<byte>>
  {
    var sid := ComputeShortId(p, key, h);
    if sid in sids && h in t.contents then found[sid := t.contents[h]] else found
  }

  /** The hashes in service order, stopping once every short id has a content. */
  function MatchFrom(p: Primitives, key: seq<byte>, sids: seq<ShortTxId>, t: TxState,
                     order: seq<Hash>, found: map<ShortTxId, seq<byte>>): map<ShortTxId, seq<byte>>
    decreases |order|
  {
    if order == [] then found
    else
      var next := MatchStep(p, key, sids, t, found, order[0]);
      if |next| == |sids| then next else MatchFrom(p, key, sids, t, order[1..], next)
  }

  /** The matching loop of `compact_block_to_bx_block` over the service's hashes in `order`. */
  method MatchShortIds(p: Primitives, key: seq<byte>, sids: seq<ShortTxId>, t: TxState, order: seq<Hash>)
      returns (found: map<ShortTxId, seq<byte>>)
    ensures found == MatchFrom(p, key, sids, t, order, map[])
  {
    found := map[];
    var i := 0;
    while i < |order|
      invariant i <= |order|
      invariant MatchFrom(p, key, sids, t, order[i..], found) == MatchFrom(p, key, sids, t, order, map[])
    {
      assert order[i..][0] == order[i] && order[i..][1..] == order[i + 1..];
      var h := order[i];
      var sid := ComputeShortId(p, key, h);
      if sid in sids {
        if h in t.contents {
          found := found[sid := t.contents[h]];
        }
      }
      if |found| == |sids| {
        return;
      }
      i := i + 1;
    }
  }

  /**
   * Whatever the matching records comes from a hash of the service: the short id is one
   * the block lists and the content is that hash's content.
   */
  lemma {:induction false} MatchSound(p: Primitives, key: seq<byte>, sids: seq<ShortTxId>, t: TxState,
                                      order: seq<Hash>, found: map<ShortTxId, seq<byte>>)
    ensures var r := MatchFrom(p, key, sids, t, order, found);
      forall s :: s in r ==>
        || (s in found && r[s] == found[s])
        || (s in sids && exists k :: 0 <= k < |order| && order[k] in t.contents
                                     && ComputeShortId(p, key, order[k]) == s && r[s] == t.contents[order[k]])
    decreases |order|
  {
    if order != [] {
      var next := MatchStep(p, key, sids, t, found, order[0]);
      if |next| != |sids| {
        MatchSound(p, key, sids, t, order[1..], next);
        var r := MatchFrom(p, key, sids, t, order, found);
        forall s | s in r
          ensures || (s in found && r[s] == found[s])
                  || (s in sids && exists k :: 0 <= k < |order| && order[k] in t.contents
                                               && ComputeShortId(p, key, order[k]) == s && r[s] == t.contents[order[k]])
        {
          if !(s in next && r[s] == next[s]) {
            var k :| 0 <= k < |order[1..]| && order[1..][k] in t.contents
                     && ComputeShortId(p, key, order[1..][k]) == s && r[s] == t.contents[order[1..][k]];
            assert order[k + 1] == order[1..][k];
          } else if !(s in found && r[s] == found[s]) {
            assert order[0] in t.contents && ComputeShortId(p, key, order[0]) == s;
          }
        }
      }
    }
  }

  lemma DistinctElements<T>(s: seq<T>)
    requires Distinct(s)
    ensures |Elements(s)| == |s|
    decreases |s|
  {
    if s != [] {
      var init := s[..|s| - 1];
      DistinctElements(init);
      assert Elements(s) == Elements(init) + {s[|s| - 1]};
    }
  }

  lemma FullSubset<T>(a: set<T>, b: set<T>)
    requires a <= b && |a| == |b|
    ensures a == b
  {
    assert |b - a| == 0;
  }

  /**
   * With distinct short ids the matching misses nothing: a hash of the service with a
   * content whose short id the block lists has its short id recorded.
   */
  lemma {:induction false} MatchComplete(p: Primitives, key: seq<byte>, sids: seq<ShortTxId>, t: TxState,
                                         order: seq<Hash>, found: map<ShortTxId, seq<byte>>)
    requires Distinct(sids) && found.Keys <= Elements(sids)
    ensures var r := MatchFrom(p, key, sids, t, order, found);
      && found.Keys <= r.Keys
      && forall k :: 0 <= k < |order| && order[k] in t.contents && ComputeShortId(p, key, order[k]) in sids
           ==> ComputeShortId(p, key, order[k]) in r
    decreases |order|
  {
    if order != [] {
      var next := MatchStep(p, key, sids, t, found, order[0]);
      assert next.Keys <= Elements(sids);
      if |next| == |sids| {
        DistinctElements(sids);
        FullSubset(next.Keys, Elements(sids));
      } else {
        MatchComplete(p, key, sids, t, order[1..], next);
        var r := MatchFrom(p, key, sids, t, order, found);
        forall k | 0 <= k < |order| && order[k] in t.contents && ComputeShortId(p, key, order[k]) in sids
          ensures ComputeShortId(p, key, order[k]) in r
        {
          if k > 0 {
            assert order[k] == order[1..][k - 1];
          }
        }
      }
    }
  }

  // Laying out the block's transactions.

  /** How many of the indices below `i` have no prefilled transaction: the short ids used up before `i`. */
  function CountFree(prefilled: map<nat, seq<byte>>, i: nat): nat
  {
    if i == 0 then 0 else CountFree(prefilled, i - 1) + (if i - 1 in prefilled then 0 else 1)
  }

  /** An index without a prefilled transaction takes a later short id than every such index before it. */
  lemma {:induction false} CountFreeOrder(prefilled: map<nat, seq<byte>>, i: nat, j: nat)
    requires i < j && i !in prefilled
    ensures CountFree(prefilled, i) < CountFree(prefilled, j)
    decreases j
  {
    if j > i + 1 {
      CountFreeOrder(prefilled, i, j - 1);
    }
  }

  lemma {:induction false} CountFreeGrows(prefilled: map<nat, seq<byte>>, i: nat, j: nat)
    requires i <= j
    ensures CountFree(prefilled, i) <= CountFree(prefilled, j)
    decreases j
  {
    if j > i {
      CountFreeGrows(prefilled, i, j - 1);
    }
  }

  /**
   * The transaction at block index `i`: the prefilled one, or else the content matched for
   * the next unused short id, or none when that short id was not matched. Generic in the
   * short-id type, as the layout only compares short ids.
   */
  function TxAt<K(==)>(prefilled: map<nat, seq<byte>>, sids: seq<K>, found: map<K, seq<byte>>, i: nat)
    : Option<seq<byte>>
  {
    if i in prefilled then Some(prefilled[i])
    else
      var k := CountFree(prefilled, i);
      if k < |sids| && sids[k] in found then Some(found[sids[k]]) else None
  }

  /** The transactions at block indices below `n`. */
  function Layout<K(==)>(prefilled: map<nat, seq<byte>>, sids: seq<K>, found: map<K, seq<byte>>, n: nat)
    : (r: seq<Option<seq<byte>>>)
    ensures |r| == n
  {
    if n == 0 then [] else Layout(prefilled, sids, found, n - 1) + [TxAt(prefilled, sids, found, n - 1)]
  }

  lemma {:induction false} LayoutAt<K>(prefilled: map<nat, seq<byte>>, sids: seq<K>, found: map<K, seq<byte>>,
                                       n: nat, i: nat)
    requires i < n
    ensures Layout(prefilled, sids, found, n)[i] == TxAt(prefilled, sids, found, i)
  {
    if i < n - 1 {
      LayoutAt(prefilled, sids, found, n - 1, i);
    }
  }

  /** One more index of the layout: its transaction, its missing entry and its short id. */
  lemma LayoutNext<K>(prefilled: map<nat, seq<byte>>, sids: seq<K>, found: map<K, seq<byte>>, n: nat, m: nat)
    requires n < m
    ensures Layout(prefilled, sids, found, n + 1) == Layout(prefilled, sids, found, n) + [TxAt(prefilled, sids, found, n)]
    ensures MissingIndices(Layout(prefilled, sids, found, m), n + 1) == MissingIndices(Layout(prefilled, sids, found, m), n)
      + (if TxAt(prefilled, sids, found, n).None? then [n] else [])
    ensures CountFree(prefilled, n + 1) == CountFree(prefilled, n) + (if n in prefilled then 0 else 1)
  {
    LayoutAt(prefilled, sids, found, m, n);
  }

  /** The indices below `n` left without a transaction, in increasing order. */
  function MissingIndices(txs: seq<Option<seq<byte>>>, n: nat): seq<nat>
    requires n <= |txs|
  {
    if n == 0 then [] else MissingIndices(txs, n - 1) + (if txs[n - 1].None? then [n - 1] else [])
  }

  predicate Increasing(s: seq<nat>)
  {
    forall i, j :: 0 <= i < j < |s| ==> s[i] < s[j]
  }

  /** The missing indices are increasing and are exactly the positions left none. */
  lemma {:induction false} MissingIndicesExact(txs: seq<Option<seq<byte>>>, n: nat)
    requires n <= |txs|
    ensures var m := MissingIndices(txs, n);
      && Increasing(m)
      && (forall k :: 0 <= k < |m| ==> m[k] < n && txs[m[k]].None?)
      && (forall i :: 0 <= i < n && txs[i].None? ==> i in m)
  {
    if n > 0 {
      MissingIndicesExact(txs, n - 1);
    }
  }

  /**
   * The layout loop of `compact_block_to_bx_block`: as many transactions as prefilled
   * ones and short ids together, each as `TxAt` gives it. Running out of short ids (a
   * prefilled index beyond the count) fails, as `next` on the exhausted iterator raises.
   */
  function CompactTransactions<K(==)>(prefilled: map<nat, seq<byte>>, sids: seq<K>, found: map<K, seq<byte>>)
    : Result<(seq<Option<seq<byte>>>, seq<nat>)>
  {
    var total := |prefilled| + |sids|;
    if CountFree(prefilled, total) > |sids| then Failure(MalformedBuffer)
    else
      var txs := Layout(prefilled, sids, found, total);
      Success((txs, MissingIndices(txs, total)))
  }

  /** The layout loop's state after `index` indices. */
  ghost predicate LayoutSoFar<K>(prefilled: map<nat, seq<byte>>, sids: seq<K>, found: map<K, seq<byte>>,
                                 index: nat, total: nat, next: nat,
                                 blockTransactions: seq<Option<seq<byte>>>, missing: seq<nat>)
  {
    && index <= total
    && next == CountFree(prefilled, index) <= |sids|
    && blockTransactions == Layout(prefilled, sids, found, index)
    && missing == MissingIndices(Layout(prefilled, sids, found, total), index)
  }

  /** One more index laid out keeps the loop's state. */
  lemma LayoutAdvance<K>(prefilled: map<nat, seq<byte>>, sids: seq<K>, found: map<K, seq<byte>>,
                         index: nat, total: nat, next: nat,
                         blockTransactions: seq<Option<seq<byte>>>, missing: seq<nat>, tx: Option<seq<byte>>)
    requires index < total && LayoutSoFar(prefilled, sids, found, index, total, CountFree(prefilled, index), blockTransactions, missing)
    requires tx == TxAt(prefilled, sids, found, index) && next == CountFree(prefilled, index + 1) && next <= |sids|
    ensures LayoutSoFar(prefilled, sids, found, index + 1, total, next, blockTransactions + [tx],
                        missing + (if tx.None? then [index] else []))
  {
    LayoutNext(prefilled, sids, found, index, total);
  }

  lemma CountFreeStep(prefilled: map<nat, seq<byte>>, i: nat)
    ensures CountFree(prefilled, i + 1) == CountFree(prefilled, i) + (if i in prefilled then 0 else 1)
  {
  }

  /** A free index met with every short id used up leaves more free indices than short ids. */
  lemma LayoutExhausted(prefilled: map<nat, seq<byte>>, n: nat, index: nat, total: nat)
    requires index < total && index !in prefilled && CountFree(prefilled, index) >= n
    ensures CountFree(prefilled, total) > n
  {
    CountFreeStep(prefilled, index);
    CountFreeGrows(prefilled, index + 1, total);
  }

  /** The layout fails exactly when more indices are free than there are short ids. */
  lemma LayoutFails<K>(prefilled: map<nat, seq<byte>>, sids: seq<K>, found: map<K, seq<byte>>, total: nat)
    requires total == |prefilled| + |sids| && CountFree(prefilled, total) > |sids|
    ensures CompactTransactions(prefilled, sids, found) == Failure(MalformedBuffer)
  {
  }

  /** The loop's state after the last index is the layout's result. */
  lemma LayoutDone<K>(prefilled: map<nat, seq<byte>>, sids: seq<K>, found: map<K, seq<byte>>,
                      total: nat, next: nat, blockTransactions: seq<Option<seq<byte>>>, missing: seq<nat>)
    requires total == |prefilled| + |sids| && LayoutSoFar(prefilled, sids, found, total, total, next, blockTransactions, missing)
    ensures CompactTransactions(prefilled, sids, found) == Success((blockTransactions, missing))
  {
  }

  /**
   * One index of the layout loop: the prefilled transaction, or the next short id's
   * match; with no short id left the iterator is exhausted.
   */
  method TransactionAt<K(==)>(prefilled: map<nat, seq<byte>>, sids: seq<K>, found: map<K, seq<byte>>,
                              index: nat, next: nat)
      returns (tx: Result<Option<seq<byte>>>, nextAfter: nat)
    requires next == CountFree(prefilled, index)
    ensures tx.Failure? <==> index !in prefilled && next >= |sids|
    ensures tx.Success? ==> tx.value == TxAt(prefilled, sids, found, index) && nextAfter == CountFree(prefilled, index + 1)
  {
    nextAfter := next;
    if index !in prefilled {
      if next >= |sids| {
        return Failure(MalformedBuffer), nextAfter;
      }
      var shortId := sids[next];
      nextAfter := next + 1;
      if shortId in found {
        tx := Success(Some(found[shortId]));
      } else {
        tx := Success(None);
      }
    } else {
      tx := Success(Some(prefilled[index]));
    }
  }

  /** The layout loop of `compact_block_to_bx_block`, proved against `CompactTransactions`. */
  method LayOutTransactions<K(==)>(prefilled: map<nat, seq<byte>>, sids: seq<K>, found: map<K, seq<byte>>)
      returns (r: Result<(seq<Option<seq<byte>>>, seq<nat>)>)
    ensures r == CompactTransactions(prefilled, sids, found)
  {
    var total := |prefilled| + |sids|;
    var blockTransactions: seq<Option<seq<byte>>> := [];
    var missing: seq<nat> := [];
    var next := 0;
    for index := 0 to total
      invariant LayoutSoFar(prefilled, sids, found, index, total, next, blockTransactions, missing)
    {
      var tx;
      tx, next := TransactionAt(prefilled, sids, found, index, next);
      if tx.Failure? {
        LayoutExhausted(prefilled, |sids|, index, total);
        LayoutFails(prefilled, sids, found, total);
        return Failure(MalformedBuffer);
      }
      LayoutAdvance(prefilled, sids, found, index, total, next, blockTransactions, missing, tx.value);
      if tx.value.None? {
        missing := missing + [index];
      }
      blockTransactions := blockTransactions + [tx.value];
    }
    LayoutDone(prefilled, sids, found, total, next, blockTransactions, missing);
    return Success((blockTransactions, missing));
  }

  // Recovery: filling in the missing transactions and rebuilding the block.

  /**
   * `CompactBlockRecoveryData`: the laid-out transactions, the header and the network
   * magic. The item also refers to the node's transaction service; since that is the one
   * live service, its state when the block is rebuilt is passed in at that point.
   */
  datatype RecoveryData = RecoveryData(blockTransactions: seq<Option<seq<byte>>>, header: seq<byte>, magic: u32)

  /** `CompactBlockCompressionResult` without its statistics. */
  datatype CompactResult = CompactResult(
    success: bool, bxBlock: Option<seq<byte>>, recoveryIndex: Option<nat>,
    missingIndices: seq<nat>, recoveredTransactions: seq<seq<byte>>)

  /** The `i`-th recovered transaction written at the `i`-th missing index, in order; an index past the end fails. */
  function Fill(txs: seq<Option<seq<byte>>>, missing: seq<nat>, recovered: seq<seq<byte>>)
    : (r: Result<seq<Option<seq<byte>>>>)
    requires |missing| == |recovered|
    ensures r.Success? ==> |r.value| == |txs|
    decreases |missing|
  {
    if missing == [] then Success(txs)
    else
      var n := |missing| - 1;
      match Fill(txs, missing[..n], recovered[..n])
      case Failure(e) => Failure(e)
      case Success(filled) =>
        if missing[n] < |filled| then Success(filled[missing[n] := Some(recovered[n])]) else Failure(MalformedBuffer)
  }

  /**
   * Filling succeeds exactly when every missing index is in range; with distinct indices
   * each missing position gets its recovered transaction and every other position is kept.
   */
  lemma {:induction false} FillAt(txs: seq<Option<seq<byte>>>, missing: seq<nat>, recovered: seq<seq<byte>>)
    requires |missing| == |recovered|
    ensures Fill(txs, missing, recovered).Success? <==> forall k :: 0 <= k < |missing| ==> missing[k] < |txs|
    ensures Fill(txs, missing, recovered).Success? && Distinct(missing) ==>
      var filled := Fill(txs, missing, recovered).value;
      && (forall k :: 0 <= k < |missing| ==> filled[missing[k]] == Some(recovered[k]))
      && (forall i :: 0 <= i < |txs| && i !in missing ==> filled[i] == txs[i])
    decreases |missing|
  {
    if missing != [] {
      var n := |missing| - 1;
      FillAt(txs, missing[..n], recovered[..n]);
      assert forall k :: 0 <= k < n ==> missing[..n][k] == missing[k] && recovered[..n][k] == recovered[k];
      assert forall i :: i in missing[..n] ==> i in missing;
    }
  }

  /** A filling that fails part way fails as a whole. */
  lemma {:induction false} FillFails(txs: seq<Option<seq<byte>>>, missing: seq<nat>, recovered: seq<seq<byte>>, i: nat)
    requires |missing| == |recovered| && i <= |missing|
    requires Fill(txs, missing[..i], recovered[..i]) == Failure(MalformedBuffer)
    ensures Fill(txs, missing, recovered) == Failure(MalformedBuffer)
    decreases |missing| - i
  {
    if i < |missing| {
      assert missing[..i + 1][..i] == missing[..i] && recovered[..i + 1][..i] == recovered[..i];
      FillFails(txs, missing, recovered, i + 1);
    } else {
      assert missing[..i] == missing && recovered[..i] == recovered;
    }
  }

  /** The transactions themselves when every position holds one. */
  function Present(filled: seq<Option<seq<byte>>>): (r: Option<seq<seq<byte>>>)
    ensures r.Some? ==> |r.value| == |filled|
  {
    if filled == [] then Some([])
    else
      var n := |filled| - 1;
      match Present(filled[..n])
      case None => None
      case Some(txs) => if filled[n].Some? then Some(txs + [filled[n].value]) else None
  }

  lemma {:induction false} PresentAt(filled: seq<Option<seq<byte>>>)
    ensures Present(filled).Some? <==> forall i :: 0 <= i < |filled| ==> filled[i].Some?
    ensures Present(filled).Some? ==> forall i :: 0 <= i < |filled| ==> Present(filled).value[i] == filled[i].value
  {
    if filled != [] {
      var n := |filled| - 1;
      PresentAt(filled[..n]);
      assert forall i :: 0 <= i < n ==> filled[..n][i] == filled[i];
    }
  }

  /** The transactions after filling, when every position then holds one: filling, then `len(transaction)` on each. */
  function FilledTransactions(txs: seq<Option<seq<byte>>>, missing: seq<nat>, recovered: seq<seq<byte>>)
    : (r: Result<seq<seq<byte>>>)
    requires |missing| == |recovered|
    ensures r.Success? ==> |r.value| == |txs|
  {
    match Fill(txs, missing, recovered)
    case Failure(e) => Failure(e)
    case Success(filled) =>
      match Present(filled)
      case None => Failure(MalformedBuffer)
      case Some(full) => Success(full)
  }

  /**
   * Filling with distinct indices succeeds exactly when they are all in range and every
   * other position already holds a transaction; the missing positions then hold the
   * recovered transactions in order, and every other position its own.
   */
  lemma FilledTransactionsAt(txs: seq<Option<seq<byte>>>, missing: seq<nat>, recovered: seq<seq<byte>>)
    requires |missing| == |recovered| && Distinct(missing)
    ensures FilledTransactions(txs, missing, recovered).Success? <==>
      && (forall k :: 0 <= k < |missing| ==> missing[k] < |txs|)
      && (forall i :: 0 <= i < |txs| && i !in missing ==> txs[i].Some?)
    ensures FilledTransactions(txs, missing, recovered).Success? ==>
      var full := FilledTransactions(txs, missing, recovered).value;
      && (forall k :: 0 <= k < |missing| ==> full[missing[k]] == recovered[k])
      && (forall i :: 0 <= i < |txs| && i !in missing ==> Some(full[i]) == txs[i])
  {
    FillAt(txs, missing, recovered);
    var f := Fill(txs, missing, recovered);
    if f.Success? {
      PresentAt(f.value);
      if forall i :: 0 <= i < |txs| && i !in missing ==> txs[i].Some? {
        forall i | 0 <= i < |f.value|
          ensures f.value[i].Some?
        {
          if i in missing {
            var k :| 0 <= k < |missing| && missing[k] == i;
          }
        }
      }
    }
  }

  /** The payload of the rebuilt `block` message: the block header, the transaction count, the transactions. */
  function RebuiltPayload(header: seq<byte>, txs: seq<seq<byte>>): (r: seq<byte>)
    requires |txs| < Pow256(8)
    ensures |r| == |header| + |CompactSize(|txs|)| + TotalLength(txs)
  {
    ConcatLength(txs);
    header + CompactSize(|txs|) + Concat(txs)
  }

  /**
   * The `block` message rebuilt from a block header and its transactions, behind a message
   * header with the network magic, the `block` command, the payload length and the first
   * four bytes of the payload's double SHA-256.
   */
  function RebuiltBlock(p: Primitives, magic: u32, header: seq<byte>, txs: seq<seq<byte>>): BtcBlock
    requires |txs| < Pow256(8) && |RebuiltPayload(header, txs)| < Pow256(4)
  {
    var payload := RebuiltPayload(header, txs);
    BtcBlock(MessageHeader(magic, BlockCommand, |payload|, p.bitcoinHash(payload)[..4]) + header + CompactSize(|txs|), txs)
  }

  /** A message header followed by its payload: the header's fields read back in front of the payload. */
  lemma FramedFields(magic: u32, payload: seq<byte>, checksum: seq<byte>)
    requires |payload| < Pow256(4) && |checksum| == 4
    ensures var bytes := MessageHeader(magic, BlockCommand, |payload|, checksum) + payload;
      && |bytes| == HdrCommonOff + |payload|
      && FromLittleEndian(bytes[..4]) == magic
      && bytes[4..9] == BlockCommand
      && (forall k :: 9 <= k < 16 ==> bytes[k] == 0)
      && FromLittleEndian(bytes[16..20]) == |payload|
      && bytes[HeaderMinusChecksum..HdrCommonOff] == checksum
      && bytes[HdrCommonOff..] == payload
  {
    var h := MessageHeader(magic, BlockCommand, |payload|, checksum);
    MessageHeaderFields(magic, BlockCommand, |payload|, checksum);
    var bytes := h + payload;
    assert bytes[..4] == h[..4] && bytes[4..9] == h[4..9] && bytes[16..20] == h[16..20];
    assert bytes[HeaderMinusChecksum..HdrCommonOff] == h[HeaderMinusChecksum..];
  }

  /** The rebuilt message is its message header followed by the payload. */
  lemma RebuiltBytes(p: Primitives, magic: u32, header: seq<byte>, txs: seq<seq<byte>>)
    requires |txs| < Pow256(8) && |RebuiltPayload(header, txs)| < Pow256(4)
    ensures var payload := RebuiltPayload(header, txs);
      BlockBytes(RebuiltBlock(p, magic, header, txs))
      == MessageHeader(magic, BlockCommand, |payload|, p.bitcoinHash(payload)[..4]) + payload
  {
  }

  /**
   * The rebuilt message's bytes start with the magic, the `block` command padded with
   * zeros, the length of what follows the 24-byte message header and the checksum of
   * what follows it; then come the block header, the count and the transactions. An
   * 80-byte block header gives the header shape the bx-block converter expects.
   */
  lemma RebuiltBlockFields(p: Primitives, magic: u32, header: seq<byte>, txs: seq<seq<byte>>)
    requires |txs| < Pow256(8) && |RebuiltPayload(header, txs)| < Pow256(4)
    ensures var bytes := BlockBytes(RebuiltBlock(p, magic, header, txs));
      && |bytes| >= HdrCommonOff
      && FromLittleEndian(bytes[..4]) == magic
      && bytes[4..9] == BlockCommand
      && (forall k :: 9 <= k < 16 ==> bytes[k] == 0)
      && FromLittleEndian(bytes[16..20]) == |bytes| - HdrCommonOff
      && bytes[HeaderMinusChecksum..HdrCommonOff] == p.bitcoinHash(bytes[HdrCommonOff..])[..4]
      && bytes[HdrCommonOff..] == header + CompactSize(|txs|) + Concat(txs)
    ensures |header| == BlockHdrSize ==> HeaderShape(RebuiltBlock(p, magic, header, txs).header)
  {
    var payload := RebuiltPayload(header, txs);
    RebuiltBytes(p, magic, header, txs);
    FramedFields(magic, payload, p.bitcoinHash(payload)[..4]);
    if |header| == BlockHdrSize {
      RebuiltShape(magic, header, |txs|, p.bitcoinHash(payload)[..4], |payload|);
    }
  }

  /** A message header, an 80-byte block header and a count have the header shape. */
  lemma RebuiltShape(magic: u32, header: seq<byte>, n: nat, checksum: seq<byte>, length: nat)
    requires |header| == BlockHdrSize && n < Pow256(8) && length < Pow256(4) && |checksum| == 4
    ensures HeaderShape(MessageHeader(magic, BlockCommand, length, checksum) + header + CompactSize(n))
  {
    var prefix := MessageHeader(magic, BlockCommand, length, checksum) + header;
    ReadCompactSizeAfter(prefix, CompactSize(n));
  }

  /** CompactSize bytes read back where they were written, whatever comes before them. */
  lemma ReadCompactSizeAfter(prefix: seq<byte>, count: seq<byte>)
    ensures ReadCompactSize(prefix + count, |prefix|) == ReadCompactSize(count, 0)
  {
    var buf := prefix + count;
    if count != [] {
      assert buf[|prefix|] == count[0];
      var width := if count[0] < 0xfd then 0 else if count[0] == 0xfd then 2 else if count[0] == 0xfe then 4 else 8;
      if 1 + width <= |count| {
        assert buf[|prefix| + 1..|prefix| + 1 + width] == count[1..1 + width];
      }
    }
  }

  /** The layout of the first `total` indices, when no more of them are free than there are short ids. */
  lemma LayoutShape<K>(prefilled: map<nat, seq<byte>>, sids: seq<K>, found: map<K, seq<byte>>, total: nat)
    requires CountFree(prefilled, total) <= |sids|
    ensures var txs := Layout(prefilled, sids, found, total); var missing := MissingIndices(txs, total);
      && (forall i :: 0 <= i < total && i in prefilled ==> txs[i] == Some(prefilled[i]))
      && (forall i :: 0 <= i < total && i !in prefilled ==>
            && CountFree(prefilled, i) < |sids|
            && txs[i] == (if sids[CountFree(prefilled, i)] in found then Some(found[sids[CountFree(prefilled, i)]]) else None))
      && Increasing(missing)
      && (forall k :: 0 <= k < |missing| ==> missing[k] < total && txs[missing[k]].None?)
      && (forall i :: 0 <= i < total && txs[i].None? ==> i in missing)
  {
    var txs := Layout(prefilled, sids, found, total);
    MissingIndicesExact(txs, total);
    forall i | 0 <= i < total
      ensures i in prefilled ==> txs[i] == Some(prefilled[i])
      ensures i !in prefilled ==>
            && CountFree(prefilled, i) < |sids|
            && txs[i] == (if sids[CountFree(prefilled, i)] in found then Some(found[sids[CountFree(prefilled, i)]]) else None)
    {
      LayoutIndexHolds(prefilled, sids, found, total, i);
    }
  }

  lemma LayoutIndexHolds<K>(prefilled: map<nat, seq<byte>>, sids: seq<K>, found: map<K, seq<byte>>, total: nat, i: nat)
    requires i < total && CountFree(prefilled, total) <= |sids|
    ensures var txs := Layout(prefilled, sids, found, total);
      && (i in prefilled ==> txs[i] == Some(prefilled[i]))
      && (i !in prefilled ==>
            && CountFree(prefilled, i) < |sids|
            && txs[i] == (if sids[CountFree(prefilled, i)] in found then Some(found[sids[CountFree(prefilled, i)]]) else None))
  {
    LayoutAt(prefilled, sids, found, total, i);
    if i !in prefilled {
      CountFreeStep(prefilled, i);
      CountFreeGrows(prefilled, i + 1, total);
    }
  }

  /**
   * The laid-out block: one position per prefilled transaction and short id; a prefilled
   * index holds its transaction; any other index takes the next unused short id (a later
   * index a later one, by `CountFreeOrder`) and holds its match or none; the missing
   * indices are increasing and are exactly the positions holding none.
   */
  lemma CompactTransactionsShape<K>(prefilled: map<nat, seq<byte>>, sids: seq<K>, found: map<K, seq<byte>>)
    requires CompactTransactions(prefilled, sids, found).Success?
    ensures var (txs, missing) := CompactTransactions(prefilled, sids, found).value;
      && |txs| == |prefilled| + |sids|
      && (forall i :: 0 <= i < |txs| && i in prefilled ==> txs[i] == Some(prefilled[i]))
      && (forall i :: 0 <= i < |txs| && i !in prefilled ==>
            && CountFree(prefilled, i) < |sids|
            && txs[i] == (if sids[CountFree(prefilled, i)] in found then Some(found[sids[CountFree(prefilled, i)]]) else None))
      && Increasing(missing)
      && (forall k :: 0 <= k < |missing| ==> missing[k] < |txs| && txs[missing[k]].None?)
      && (forall i :: 0 <= i < |txs| && txs[i].None? ==> i in missing)
  {
    LayoutShape(prefilled, sids, found, |prefilled| + |sids|);
  }

  lemma IncreasingDistinct(s: seq<nat>)
    requires Increasing(s)
    ensures Distinct(s)
  {
  }

  /**
   * Recovering exactly as many transactions as were missing fills the block: every
   * position then holds a transaction, the recovered ones at the missing indices in
   * order and the laid-out ones everywhere else.
   */
  lemma CompactRecoveryComplete<K>(prefilled: map<nat, seq<byte>>, sids: seq<K>, found: map<K, seq<byte>>,
                                       recovered: seq<seq<byte>>)
    requires CompactTransactions(prefilled, sids, found).Success?
    requires |recovered| == |CompactTransactions(prefilled, sids, found).value.1|
    ensures var (txs, missing) := CompactTransactions(prefilled, sids, found).value;
      var full := FilledTransactions(txs, missing, recovered);
      && full.Success?
      && (forall k :: 0 <= k < |missing| ==> missing[k] < |txs|)
      && (forall k :: 0 <= k < |missing| ==> full.value[missing[k]] == recovered[k])
      && (forall i :: 0 <= i < |txs| && i !in missing ==> Some(full.value[i]) == txs[i])
  {
    var (txs, missing) := CompactTransactions(prefilled, sids, found).value;
    CompactTransactionsShape(prefilled, sids, found);
    IncreasingDistinct(missing);
    FilledTransactionsAt(txs, missing, recovered);
  }

  /**
   * `_recovered_compact_block_to_bx_block` without its statistics: a count mismatch is an
   * unsuccessful result carrying the lists back; otherwise the missing positions are
   * filled, the `block` message is rebuilt and compressed. An index out of range, a
   * position still empty, a count or length too large for its field, or a block that
   * cannot be compressed is an error.
   */
  function RebuildCompact(p: Primitives, missing: seq<nat>, recovered: seq<seq<byte>>, item: RecoveryData, t: TxState)
    : (r: Result<CompactResult>)
    ensures r.Success? ==> (r.value.success <==> |missing| == |recovered|)
    ensures r.Success? && !r.value.success ==> r.value == CompactResult(false, None, None, missing, recovered)
    ensures r.Success? && r.value.success ==>
      && r.value.bxBlock.Some? && r.value.recoveryIndex.None?
      && r.value.missingIndices == [] && r.value.recoveredTransactions == []
  {
    if |missing| != |recovered| then Success(CompactResult(false, None, None, missing, recovered))
    else
      match FilledTransactions(item.blockTransactions, missing, recovered)
      case Failure(e) => Failure(e)
      case Success(txs) =>
        if |txs| >= Pow256(8) || |RebuiltPayload(item.header, txs)| >= Pow256(4) then Failure(MalformedBuffer)
        else
          var b := RebuiltBlock(p, item.magic, item.header, txs);
          if Compressible(p, t, b) then Success(CompactResult(true, Some(BxBlock(p, t, b)), None, [], []))
          else Failure(MalformedBuffer)
  }

  /** A successful rebuild is the bx block of the rebuilt message over the filled transactions. */
  lemma RebuildCompactBlock(p: Primitives, missing: seq<nat>, recovered: seq<seq<byte>>, item: RecoveryData, t: TxState)
    requires RebuildCompact(p, missing, recovered, item, t).Success? && RebuildCompact(p, missing, recovered, item, t).value.success
    ensures |missing| == |recovered| && FilledTransactions(item.blockTransactions, missing, recovered).Success?
    ensures var txs := FilledTransactions(item.blockTransactions, missing, recovered).value;
      && |txs| < Pow256(8) && |RebuiltPayload(item.header, txs)| < Pow256(4)
      && Compressible(p, t, RebuiltBlock(p, item.magic, item.header, txs))
      && RebuildCompact(p, missing, recovered, item, t).value.bxBlock
         == Some(BxBlock(p, t, RebuiltBlock(p, item.magic, item.header, txs)))
  {
  }

  /**
   * The rebuilt bx block decompresses to the rebuilt `block` message (and the eight zero
   * bytes decompression appends) whenever the block header is 80 bytes and every filled
   * transaction can be restored from the transaction service.
   */
  lemma RebuildRoundTrip(p: Primitives, missing: seq<nat>, recovered: seq<seq<byte>>, item: RecoveryData, t: TxState)
    requires RebuildCompact(p, missing, recovered, item, t).Success? && RebuildCompact(p, missing, recovered, item, t).value.success
    requires |item.header| == BlockHdrSize
    requires |missing| == |recovered| && FilledTransactions(item.blockTransactions, missing, recovered).Success?
    requires var txs := FilledTransactions(item.blockTransactions, missing, recovered).value;
      forall k :: 0 <= k < |txs| ==> TxRestores(p, t, txs[k])
    ensures var txs := FilledTransactions(item.blockTransactions, missing, recovered).value;
      && |txs| < Pow256(8) && |RebuiltPayload(item.header, txs)| < Pow256(4)
      && DecompressBxBlock(p, RebuildCompact(p, missing, recovered, item, t).value.bxBlock.value, t)
         == Success(Decompressed(Some(BlockBytes(RebuiltBlock(p, item.magic, item.header, txs)) + Zeros(OffsetFieldSize)),
                                 p.bitcoinHash(item.header),
                                 BlockShortIds(p, t, txs), [], []))
  {
    RebuildCompactBlock(p, missing, recovered, item, t);
    var txs := FilledTransactions(item.blockTransactions, missing, recovered).value;
    var b := RebuiltBlock(p, item.magic, item.header, txs);
    RebuiltBlockFields(p, item.magic, item.header, txs);
    RebuiltHeaderAt(p, item.magic, item.header, txs);
    BxBlockRoundTrip(p, t, b);
  }

  /** The block header sits right behind the message header of the rebuilt message. */
  lemma RebuiltHeaderAt(p: Primitives, magic: u32, header: seq<byte>, txs: seq<seq<byte>>)
    requires |txs| < Pow256(8) && |RebuiltPayload(header, txs)| < Pow256(4) && |header| == BlockHdrSize
    ensures RebuiltBlock(p, magic, header, txs).header[HdrCommonOff..HdrCommonOff + BlockHdrSize] == header
  {
    var payload := RebuiltPayload(header, txs);
    var h := MessageHeader(magic, BlockCommand, |payload|, p.bitcoinHash(payload)[..4]);
    assert RebuiltBlock(p, magic, header, txs).header == h + header + CompactSize(|txs|);
  }

  /** The matching and the layout together: what `compact_block_to_bx_block` lays out for `cb`. */
  function LaidOut(p: Primitives, cb: CompactBlock, t: TxState, order: seq<Hash>)
    : Result<(seq<Option<seq<byte>>>, seq<nat>)>
  {
    CompactTransactions(cb.prefilled, cb.shortIds, MatchFrom(p, SipKey(p, cb), cb.shortIds, t, order, map[]))
  }

  /**
   * The compact-block state of `BtcNormalMessageConverter`: the items kept for blocks
   * awaiting their missing transactions, by recovery index, and the next index to hand out.
   */
  class BtcNormalMessageConverter {
    const p: Primitives
    var recoveryItems: map<nat, RecoveryData>
    var lastRecoveryIdx: nat

    /** Every kept item sits under an index already handed out, so the next index is free. */
    ghost predicate Valid()
      reads this
    {
      forall i :: i in recoveryItems ==> i < lastRecoveryIdx
    }

    constructor (p: Primitives)
      ensures Valid()
      ensures this.p == p && recoveryItems == map[] && lastRecoveryIdx == 0
    {
      this.p := p;
      recoveryItems := map[];
      lastRecoveryIdx := 0;
    }

    /**
     * `compact_block_to_bx_block`: the hashes of the service are matched against the
     * short ids under the block's SipHash key and the transactions laid out. With none
     * missing the block is rebuilt and compressed at once; otherwise what was laid out is
     * kept under a fresh recovery index, which the unsuccessful result carries with the
     * missing indices.
     */
    method CompactBlockToBxBlock(cb: CompactBlock, t: TxState, order: seq<Hash>) returns (r: Result<CompactResult>)
      requires Valid() && Distinct(cb.shortIds)
      modifies this
      ensures Valid()
      ensures LaidOut(p, cb, t, order).Failure? ==>
        && r.Failure?
        && recoveryItems == old(recoveryItems) && lastRecoveryIdx == old(lastRecoveryIdx)
      ensures LaidOut(p, cb, t, order).Success? && LaidOut(p, cb, t, order).value.1 != [] ==>
        var (txs, missing) := LaidOut(p, cb, t, order).value;
        && old(lastRecoveryIdx) !in old(recoveryItems)
        && r == Success(CompactResult(false, None, Some(old(lastRecoveryIdx)), missing, []))
        && recoveryItems == old(recoveryItems)[old(lastRecoveryIdx) := RecoveryData(txs, cb.header, cb.magic)]
        && lastRecoveryIdx == old(lastRecoveryIdx) + 1
      ensures LaidOut(p, cb, t, order).Success? && LaidOut(p, cb, t, order).value.1 == [] ==>
        && r == RebuildCompact(p, [], [], RecoveryData(LaidOut(p, cb, t, order).value.0, cb.header, cb.magic), t)
        && recoveryItems == old(recoveryItems) && lastRecoveryIdx == old(lastRecoveryIdx)
    {
      var key := SipKey(p, cb);
      var found := MatchShortIds(p, key, cb.shortIds, t, order);
      var laid := LayOutTransactions(cb.prefilled, cb.shortIds, found);
      if laid.Failure? {
        return Failure(laid.error);
      }
      var (blockTransactions, missing) := laid.value;
      var item := RecoveryData(blockTransactions, cb.header, cb.magic);
      if |missing| > 0 {
        var recoveryIndex := lastRecoveryIdx;
        lastRecoveryIdx := lastRecoveryIdx + 1;
        recoveryItems := recoveryItems[recoveryIndex := item];
        return Success(CompactResult(false, None, Some(recoveryIndex), missing, []));
      }
      r := RecoverFromItem([], [], item, t);
    }

    /**
     * `recovered_compact_block_to_bx_block`: the item kept under the result's recovery
     * index is popped and the block rebuilt from it with the recovered transactions,
     * against the transaction service as it is now. An index with no item is the
     * `KeyError` of the pop, and nothing changes.
     */
    method RecoveredCompactBlockToBxBlock(result: CompactResult, t: TxState) returns (r: Result<CompactResult>)
      requires Valid()
      modifies this
      ensures Valid()
      ensures lastRecoveryIdx == old(lastRecoveryIdx)
      ensures result.recoveryIndex.None? || result.recoveryIndex.value !in old(recoveryItems) ==>
        r.Failure? && recoveryItems == old(recoveryItems)
      ensures result.recoveryIndex.Some? && result.recoveryIndex.value in old(recoveryItems) ==>
        && recoveryItems == old(recoveryItems) - {result.recoveryIndex.value}
        && r == RebuildCompact(p, result.missingIndices, result.recoveredTransactions,
                               old(recoveryItems)[result.recoveryIndex.value], t)
    {
      if result.recoveryIndex.None? || result.recoveryIndex.value !in recoveryItems {
        return Failure(MalformedBuffer);
      }
      var index := result.recoveryIndex.value;
      var item := recoveryItems[index];
      recoveryItems := recoveryItems - {index};
      r := RecoverFromItem(result.missingIndices, result.recoveredTransactions, item, t);
    }

    /**
     * `_recovered_compact_block_to_bx_block`: the recovered transactions are written at
     * the missing indices in order, the `block` message is rebuilt around the filled
     * transactions and handed to `block_to_bx_block`.
     */
    method RecoverFromItem(missing: seq<nat>, recovered: seq<seq<byte>>, item: RecoveryData, t: TxState)
        returns (r: Result<CompactResult>)
      ensures r == RebuildCompact(p, missing, recovered, item, t)
    {
      if |missing| != |recovered| {
        return Success(CompactResult(false, None, None, missing, recovered));
      }
      var filled := FillMissing(item.blockTransactions, missing, recovered);
      if filled.Failure? {
        return Failure(filled.error);
      }
      var present, size := CollectTransactions(filled.value);
      if present.None? {
        return Failure(MalformedBuffer);
      }
      var txs := present.value;
      if |txs| >= Pow256(8) {
        return Failure(MalformedBuffer);
      }
      var countBuf := CompactSize(|txs|);
      size := size + |item.header| + |countBuf|;
      if size >= Pow256(4) {
        return Failure(MalformedBuffer);
      }
      var payload := item.header + countBuf + Concat(txs);
      var msgHeader := MessageHeader(item.magic, BlockCommand, size, p.bitcoinHash(payload)[..4]);
      var b := BtcBlock(msgHeader + item.header + countBuf, txs);
      assert b == RebuiltBlock(p, item.magic, item.header, txs);
      var compressed := BlockToBxBlock(p, b, t);
      if compressed.Failure? {
        return Failure(MalformedBuffer);
      }
      r := Success(CompactResult(true, Some(compressed.value.0), None, [], []));
    }
  }

  /** The loop adding up the transactions' lengths: a position left empty is the `TypeError` of `len(None)`. */
  method CollectTransactions(blockTransactions: seq<Option<seq<byte>>>)
      returns (r: Option<seq<seq<byte>>>, size: nat)
    ensures r == Present(blockTransactions)
    ensures r.Some? ==> size == TotalLength(r.value)
  {
    var txs: seq<seq<byte>> := [];
    size := 0;
    for i := 0 to |blockTransactions|
      invariant Present(blockTransactions[..i]) == Some(txs)
      invariant size == TotalLength(txs)
    {
      PresentStep(blockTransactions, i, txs);
      if blockTransactions[i].None? {
        PresentMissing(blockTransactions, i);
        return None, size;
      }
      ConcatAppend(txs, blockTransactions[i].value);
      txs := txs + [blockTransactions[i].value];
      size := size + |blockTransactions[i].value|;
    }
    assert blockTransactions[..|blockTransactions|] == blockTransactions;
    r := Some(txs);
  }

  lemma PresentStep(filled: seq<Option<seq<byte>>>, i: nat, txs: seq<seq<byte>>)
    requires i < |filled| && Present(filled[..i]) == Some(txs)
    ensures Present(filled[..i + 1]) == if filled[i].Some? then Some(txs + [filled[i].value]) else None
  {
    assert filled[..i + 1][..i] == filled[..i];
  }

  lemma PresentMissing(filled: seq<Option<seq<byte>>>, i: nat)
    requires i < |filled| && filled[i].None?
    ensures Present(filled) == None
  {
    PresentAt(filled);
  }

  /** The fill loop of `_recovered_compact_block_to_bx_block`: an index past the end is the `IndexError`. */
  method FillMissing(txs: seq<Option<seq<byte>>>, missing: seq<nat>, recovered: seq<seq<byte>>)
      returns (r: Result<seq<Option<seq<byte>>>>)
    requires |missing| == |recovered|
    ensures r == Fill(txs, missing, recovered)
  {
    var blockTransactions := txs;
    for i := 0 to |missing|
      invariant Fill(txs, missing[..i], recovered[..i]) == Success(blockTransactions)
    {
      assert missing[..i + 1][..i] == missing[..i] && recovered[..i + 1][..i] == recovered[..i];
      if missing[i] >= |blockTransactions| {
        FillFails(txs, missing, recovered, i + 1);
        return Failure(MalformedBuffer);
      }
      blockTransactions := blockTransactions[missing[i] := Some(recovered[i])];
    }
    assert missing[..|missing|] == missing && recovered[..|recovered|] == recovered;
    r := Success(blockTransactions);
  }
}
