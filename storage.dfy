/**
 * The key/value store and its write batch. A batch is an ordered list of set
 * and delete operations; committing it applies them to a table in order.
 */
module Storage {
  import opened Wrappers
  import opened Ledger
  import opened Account

  type Table = map<Key, Bytes>

  datatype Op = SetOp(key: Key, value: Bytes) | DeleteOp(key: Key)

  /** A write batch: operations are recorded, never applied, by the indexer. */
  class Batch {
    var ops: seq<Op>

    constructor ()
      ensures ops == []
    {
      ops := [];
    }

    method Set(key: Key, value: Bytes)
      modifies this
      ensures ops == old(ops) + [SetOp(key, value)]
    {
      ops := ops + [SetOp(key, value)];
    }

    method Delete(key: Key)
      modifies this
      ensures ops == old(ops) + [DeleteOp(key)]
    {
      ops := ops + [DeleteOp(key)];
    }
  }

  /** A read: None stands for the nil slice a missing key returns. */
  function Get(t: Table, k: Key): (value: Option<Bytes>) {
    if k in t then Some(t[k]) else None
  }

  function Step(t: Table, op: Op): (after: Table) {
    match op
    case SetOp(k, v) => t[k := v]
    case DeleteOp(k) => t - {k}
  }

  /** The table after committing `ops` on top of `t`, first operation first. */
  function Apply(t: Table, ops: seq<Op>): (after: Table)
    decreases |ops|
  {
    if ops == [] then t else Step(Apply(t, ops[..|ops| - 1]), ops[|ops| - 1])
  }

  /** The last operation of `ops` on key `k`, if any. */
  function LastOn(ops: seq<Op>, k: Key): (last: Option<Op>)
    decreases |ops|
  {
    if ops == [] then None
    else if ops[|ops| - 1].key == k then Some(ops[|ops| - 1])
    else LastOn(ops[..|ops| - 1], k)
  }

  /** What a key reads after an operation `last` (if any) lands on a key that read `before`. */
  function Effect(last: Option<Op>, before: Option<Bytes>): (after: Option<Bytes>) {
    match last
    case None => before
    case Some(SetOp(_, v)) => Some(v)
    case Some(DeleteOp(_)) => None
  }

  /** One unconditional delete per output id, in order. */
  function DeleteOps(ids: seq<Hash>): (ops: seq<Op>)
  {
    seq(|ids|, i requires 0 <= i < |ids| => DeleteOp(AccountUTXOKey(ids[i])))
  }

  lemma DeleteOpsAppend(ids: seq<Hash>, id: Hash)
    ensures DeleteOps(ids + [id]) == DeleteOps(ids) + [DeleteOp(AccountUTXOKey(id))]
  {
    assert DeleteOps(ids + [id])[|ids|] == DeleteOp(AccountUTXOKey(id));
  }

  /** LastOn finds the last operation on `k`, and finds none exactly when no operation touches `k`. */
  lemma {:induction false} LastOnSpec(ops: seq<Op>, k: Key)
    ensures LastOn(ops, k).None? <==> forall i | 0 <= i < |ops| :: ops[i].key != k
    ensures LastOn(ops, k).Some? ==> LastOn(ops, k).value in ops && LastOn(ops, k).value.key == k
  {
    if ops != [] {
      var init := ops[..|ops| - 1];
      LastOnSpec(init, k);
      if ops[|ops| - 1].key != k {
        assert forall i | 0 <= i < |init| :: init[i] == ops[i];
      }
    }
  }

  /** A committed key reads what the last operation on it wrote, or what it read before when none touched it. */
  lemma {:induction false} ApplyAt(t: Table, ops: seq<Op>, k: Key)
    ensures Get(Apply(t, ops), k) == Effect(LastOn(ops, k), Get(t, k))
  {
    if ops != [] {
      ApplyAt(t, ops[..|ops| - 1], k);
    }
  }

  lemma GetExtensional(a: Table, b: Table)
    requires forall k :: Get(a, k) == Get(b, k)
    ensures a == b
  {
    forall k | k in a ensures k in b && a[k] == b[k] {
      assert Get(a, k) == Get(b, k);
    }
    forall k | k in b ensures k in a {
      assert Get(a, k) == Get(b, k);
    }
    assert a.Keys == b.Keys;
  }

  /** Committing the same batch twice leaves the same table as committing it once. */
  lemma ApplyIdempotent(t: Table, ops: seq<Op>)
    ensures Apply(Apply(t, ops), ops) == Apply(t, ops)
  {
    var once := Apply(t, ops);
    var twice := Apply(once, ops);
    forall k ensures Get(twice, k) == Get(once, k) {
      ApplyAt(once, ops, k);
      ApplyAt(t, ops, k);
    }
    GetExtensional(twice, once);
  }

  /** A key no operation touches keeps what it read before. */
  lemma ApplyUntouched(t: Table, ops: seq<Op>, k: Key)
    requires forall i | 0 <= i < |ops| :: ops[i].key != k
    ensures Get(Apply(t, ops), k) == Get(t, k)
  {
    ApplyAt(t, ops, k);
    LastOnSpec(ops, k);
  }

  /** Every operation of a run of deletes is the delete of one of its ids. */
  lemma DeleteOpsKeys(ids: seq<Hash>, op: Op)
    requires op in DeleteOps(ids)
    ensures op.DeleteOp? && op.key.AccountUTXOKey? && op.key.outputId in ids
  {
  }

  /** Deletes issued last win: none of their keys survives the commit, whatever came before. */
  lemma {:induction false} DeletedKeysAbsent(t: Table, ops: seq<Op>, ids: seq<Hash>, id: Hash)
    requires id in ids
    ensures AccountUTXOKey(id) !in Apply(t, ops + DeleteOps(ids))
  {
    var n := |ids| - 1;
    var all := ops + DeleteOps(ids);
    assert all[|all| - 1] == DeleteOp(AccountUTXOKey(ids[n]));
    if ids[n] != id {
      assert id in ids[..n];
      assert ids == ids[..n] + [ids[n]];
      DeleteOpsAppend(ids[..n], ids[n]);
      assert all[..|all| - 1] == ops + DeleteOps(ids[..n]);
      DeletedKeysAbsent(t, ops, ids[..n], id);
    }
  }

  /** A key that some set touches and no delete touches is present after the commit. */
  lemma PresentAfterSets(t: Table, ops: seq<Op>, k: Key)
    requires exists op :: op in ops && op.key == k
    requires forall op | op in ops && op.key == k :: op.SetOp?
    ensures k in Apply(t, ops)
  {
    ApplyAt(t, ops, k);
    LastOnSpec(ops, k);
  }

  /** A key absent before the commit and present after it was written by a set of the batch, with the value it holds. */
  lemma IntroducedBySet(t: Table, ops: seq<Op>, k: Key)
    requires k !in t && k in Apply(t, ops)
    ensures SetOp(k, Apply(t, ops)[k]) in ops
  {
    ApplyAt(t, ops, k);
    LastOnSpec(ops, k);
  }

  /** Committing two batches one after the other is committing their concatenation. */
  lemma {:induction false} ApplyConcat(t: Table, first: seq<Op>, second: seq<Op>)
    ensures Apply(t, first + second) == Apply(Apply(t, first), second)
  {
    if second != [] {
      var all := first + second;
      assert all[..|all| - 1] == first + second[..|second| - 1];
      ApplyConcat(t, first, second[..|second| - 1]);
    } else {
      assert first + second == first;
    }
  }

  /** When every operation of `sets` on `k` writes `v`, and one does, `k` reads `v` after `pre` and then `sets` are committed. */
  lemma SetsDecide(t: Table, pre: seq<Op>, sets: seq<Op>, k: Key, v: Bytes)
    requires exists op :: op in sets && op.key == k
    requires forall op | op in sets && op.key == k :: op == SetOp(k, v)
    ensures Get(Apply(t, pre + sets), k) == Some(v)
  {
    ApplyConcat(t, pre, sets);
    ApplyAt(Apply(t, pre), sets, k);
    LastOnSpec(sets, k);
  }
}
