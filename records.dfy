/**
 * The persisted record of an owned output and the upserts that write it.
 * Upserting walks the owned outputs in order and stops at the first record
 * that fails to encode.
 */
module Records {
  import opened Wrappers
  import opened Ledger
  import opened Account
  import opened Storage
  import opened Extraction
  import opened Ownership

  /** The persisted record of an owned output. */
  function ToUTXO(a: AccountOutput): (u: UTXO) {
    UTXO(a.raw.outputId, a.raw.assetAmount.assetId, a.raw.assetAmount.amount, a.accountId,
         a.keyIndex, a.raw.controlProgram, a.raw.sourceId, a.raw.sourcePos, a.raw.refData, a.change)
  }

  /** The set operation that upserts `a`, or None when its record fails to encode. */
  function Encoded(w: Wallet, a: AccountOutput): (op: Option<Op>) {
    match w.encodeUTXO(ToUTXO(a))
    case None => None
    case Some(raw) => Some(SetOp(AccountUTXOKey(a.raw.outputId), raw))
  }

  predicate AllEncodable(w: Wallet, outs: seq<AccountOutput>) {
    forall a | a in outs :: Encoded(w, a).Some?
  }

  /** The set operations issued for a list of owned outputs, and whether all of them were issued. */
  datatype Upserts = Upserts(ops: seq<Op>, complete: bool)

  function UpsertOps(w: Wallet, outs: seq<AccountOutput>): (upserts: Upserts)
    decreases |outs|
  {
    if outs == [] then Upserts([], true)
    else
      match Encoded(w, outs[0])
      case None => Upserts([], false)
      case Some(op) =>
        var rest := UpsertOps(w, outs[1..]);
        Upserts([op] + rest.ops, rest.complete)
  }

  /**
   * The set operations issued are those of the owned outputs in front of the
   * first one that fails to encode: all of them when none fails, and then the
   * upsert is complete.
   */
  lemma {:induction false} UpsertOpsPrefix(w: Wallet, outs: seq<AccountOutput>)
    ensures var r := UpsertOps(w, outs);
      && |r.ops| <= |outs|
      && (forall i | 0 <= i < |r.ops| :: Encoded(w, outs[i]) == Some(r.ops[i]))
      && (r.complete <==> |r.ops| == |outs|)
      && (!r.complete ==> Encoded(w, outs[|r.ops|]).None?)
  {
    if outs != [] && Encoded(w, outs[0]).Some? {
      UpsertOpsPrefix(w, outs[1..]);
    }
  }

  /** The upsert completes exactly when every owned output encodes, whatever their order. */
  lemma {:induction false} UpsertOpsComplete(w: Wallet, outs: seq<AccountOutput>)
    ensures UpsertOps(w, outs).complete <==> AllEncodable(w, outs)
  {
    if outs != [] {
      UpsertOpsComplete(w, outs[1..]);
      assert outs == [outs[0]] + outs[1..];
    }
  }

  /** Each upsert is a set keyed by the output id, of the encoding of a record copied from the owned output. */
  lemma EncodedRecord(w: Wallet, a: AccountOutput, op: Op)
    requires Encoded(w, a) == Some(op)
    ensures op.SetOp? && op.key == AccountUTXOKey(a.raw.outputId)
    ensures w.encodeUTXO(UTXO(a.raw.outputId, a.raw.assetAmount.assetId, a.raw.assetAmount.amount,
                              a.accountId, a.keyIndex, a.raw.controlProgram, a.raw.sourceId,
                              a.raw.sourcePos, a.raw.refData, a.change)) == Some(op.value)
  {
  }

  /**
   * `sets` is what upserting `owned` issues when the owned outputs are taken
   * in some order (the order a Go map iteration happens to produce).
   */
  ghost predicate UpsertedInSomeOrder(w: Wallet, owned: seq<AccountOutput>, sets: seq<Op>) {
    exists order: seq<AccountOutput> :: multiset(order) == multiset(owned) && UpsertOps(w, order).ops == sets
  }

  /** Every set issued, in whatever order, is the upsert of one owned output. */
  lemma UpsertedFromOwned(w: Wallet, owned: seq<AccountOutput>, sets: seq<Op>)
    requires UpsertedInSomeOrder(w, owned, sets)
    ensures forall op | op in sets :: exists a :: a in owned && Encoded(w, a) == Some(op)
  {
    var order :| multiset(order) == multiset(owned) && UpsertOps(w, order).ops == sets;
    UpsertOpsPrefix(w, order);
    forall op | op in sets ensures exists a :: a in owned && Encoded(w, a) == Some(op) {
      var i :| 0 <= i < |sets| && sets[i] == op;
      assert order[i] in multiset(owned);
      assert Encoded(w, order[i]) == Some(op);
    }
  }

  /** When every owned output encodes, one set is issued per owned output, in whatever order. */
  lemma UpsertedAll(w: Wallet, owned: seq<AccountOutput>, sets: seq<Op>)
    requires UpsertedInSomeOrder(w, owned, sets)
    requires AllEncodable(w, owned)
    ensures |sets| == |owned|
    ensures forall a | a in owned :: Encoded(w, a).Some? && Encoded(w, a).value in sets
  {
    var order :| multiset(order) == multiset(owned) && UpsertOps(w, order).ops == sets;
    assert forall a :: a in order <==> a in multiset(owned);
    UpsertOpsComplete(w, order);
    UpsertOpsPrefix(w, order);
    assert |order| == |multiset(order)| == |owned|;
    forall a | a in owned ensures Encoded(w, a).value in sets {
      assert a in multiset(order);
      var i :| 0 <= i < |order| && order[i] == a;
      assert sets[i] == Encoded(w, a).value;
    }
  }

  /** Upserting only ever sets. */
  lemma UpsertedAreSets(w: Wallet, owned: seq<AccountOutput>, sets: seq<Op>)
    requires UpsertedInSomeOrder(w, owned, sets)
    ensures forall op | op in sets :: op.SetOp?
  {
    UpsertedFromOwned(w, owned, sets);
    forall op | op in sets ensures op.SetOp? {
      var a :| a in owned && Encoded(w, a) == Some(op);
      EncodedRecord(w, a, op);
    }
  }

  /** Whether every owned output encodes does not depend on the order they are taken in. */
  lemma AllEncodableReordered(w: Wallet, xs: seq<AccountOutput>, ys: seq<AccountOutput>)
    requires multiset(xs) == multiset(ys)
    ensures AllEncodable(w, xs) <==> AllEncodable(w, ys)
  {
    assert forall a :: a in xs <==> a in multiset(ys);
  }
}
