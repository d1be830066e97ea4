/**
 * The part of the node's transaction service that the core reads and writes: short id to
 * transaction hash, transaction hash to short id, and transaction hash to contents.
 * The service itself lives outside the core; these definitions fix the meaning of the
 * calls the core makes on it.
 */
module TxService {
  import opened Bytes

  /** Short id 0 stands for "no short id" (`NULL_TX_SID`). */
  const NullTxSid: nat := 0

  datatype TxState = TxState(
    sidOf: map<Hash, nat>,
    hashOf: map<nat, Hash>,
    contents: map<Hash, seq<byte>>)

  /** `get_short_id`: the short id assigned to a hash, or `NullTxSid`. */
  function GetShortId(t: TxState, h: Hash): nat
  {
    if h in t.sidOf then t.sidOf[h] else NullTxSid
  }

  /** `assign_short_id`: ties `sid` and `h` to each other. */
  function AssignShortId(t: TxState, h: Hash, sid: nat): (r: TxState)
    ensures r.contents == t.contents
  {
    t.(sidOf := t.sidOf[h := sid], hashOf := t.hashOf[sid := h])
  }

  /** `set_transaction_contents`. */
  function SetTransactionContents(t: TxState, h: Hash, c: seq<byte>): (r: TxState)
    ensures r.sidOf == t.sidOf && r.hashOf == t.hashOf
  {
    t.(contents := t.contents[h := c])
  }

  /** `get_transaction(sid)` found both the hash and the contents. */
  predicate Resolves(t: TxState, sid: nat)
  {
    sid in t.hashOf && t.hashOf[sid] in t.contents
  }

  /**
   * `get_missing_transactions`: the short ids the service does not know, and the hashes of
   * known short ids whose contents are missing, both in the order of `sids`.
   */
  function UnknownShortIds(t: TxState, sids: seq<nat>): (r: seq<nat>)
    ensures forall k :: 0 <= k < |r| ==> r[k] in sids && r[k] !in t.hashOf
    ensures r == [] <==> forall k :: 0 <= k < |sids| ==> sids[k] in t.hashOf
  {
    if sids == [] then []
    else (if sids[0] in t.hashOf then [] else [sids[0]]) + UnknownShortIds(t, sids[1..])
  }

  function UnknownHashes(t: TxState, sids: seq<nat>): (r: seq<Hash>)
    ensures r == [] <==> forall k :: 0 <= k < |sids| && sids[k] in t.hashOf ==> t.hashOf[sids[k]] in t.contents
  {
    if sids == [] then []
    else
      (if sids[0] in t.hashOf && t.hashOf[sids[0]] !in t.contents then [t.hashOf[sids[0]]] else [])
      + UnknownHashes(t, sids[1..])
  }

  /** Nothing is missing exactly when every short id resolves to stored contents. */
  lemma NothingMissing(t: TxState, sids: seq<nat>)
    ensures (UnknownShortIds(t, sids) == [] && UnknownHashes(t, sids) == [])
        <==> forall k :: 0 <= k < |sids| ==> Resolves(t, sids[k])
  {
  }
}
