/**
 * The wallet's account-UTXO indexer: confirming a block writes the deletes of
 * every output it spends and the upserts of every owned output it creates into
 * a batch; reversing a block re-upserts the owned outputs it spent and then
 * deletes every output it created. The batch is committed by the caller.
 */
module Indexer {
  import opened Wrappers
  import opened Ledger
  import opened Account
  import opened Storage
  import opened Extraction
  import opened Ownership
  import opened Records

  /** The ids of the outputs spent by the inputs of `txs`, transaction by transaction, input by input. */
  method PrevoutDBKeys(txs: seq<Tx>) returns (outputIDs: seq<Hash>)
    ensures outputIDs == SpentOutputIDs(txs)
  {
    outputIDs := [];
    for i := 0 to |txs|
      invariant outputIDs == SpentOutputIDs(txs[..i])
    {
      var tx := txs[i];
      for k := 0 to |tx.inputs|
        invariant outputIDs == SpentOutputIDs(txs[..i]) + TxSpentOutputIDs(tx, k)
      {
        // tx.Spend fails for every input whose entry is not a spend
        if tx.inputs[k].entry.SpendEntry? {
          outputIDs := outputIDs + [tx.inputs[k].entry.spentOutputId];
        }
      }
      assert txs[..i + 1][..i] == txs[..i];
    }
    assert txs[..|txs|] == txs;
  }

  /** The first pass of loading account info: outputs bucketed by script bytes, each bucket in input order. */
  method GroupOutputsByScript(outs: seq<RawOutput>) returns (outsByScript: map<Bytes, seq<RawOutput>>)
    ensures outsByScript == GroupByScript(outs)
  {
    outsByScript := map[];
    for i := 0 to |outs|
      invariant outsByScript == GroupByScript(outs[..i])
    {
      var scriptStr := outs[i].controlProgram;
      var group := if scriptStr in outsByScript then outsByScript[scriptStr] else [];
      outsByScript := outsByScript[scriptStr := group + [outs[i]]];
      GroupByScriptStep(outs, i);
    }
    assert outs[..|outs|] == outs;
  }

  /**
   * The lookup of one script during loading: it fails when its hash names no
   * stored control program, when the stored program does not decode, or when
   * the account it names is absent; otherwise it yields the decoded program.
   */
  method LookupControlProgram(w: Wallet, script: Bytes) returns (cp: Option<CtrlProgram>)
    ensures cp == Resolve(w, script)
    ensures cp.None? <==>
      || AccountCPKey(w.sum256(script)) !in w.db
      || w.decodeCtrlProgram(w.db[AccountCPKey(w.sum256(script))]).None?
      || AccountKey(w.decodeCtrlProgram(w.db[AccountCPKey(w.sum256(script))]).value.accountId) !in w.db
    ensures cp.Some? ==>
      && AccountCPKey(w.sum256(script)) in w.db
      && w.decodeCtrlProgram(w.db[AccountCPKey(w.sum256(script))]) == cp
      && AccountKey(cp.value.accountId) in w.db
  {
    cp := None;
    var hash := w.sum256(script);
    var bytes := Get(w.db, AccountCPKey(hash));
    if bytes.Some? {
      var decoded := w.decodeCtrlProgram(bytes.value);
      if decoded.Some? && Get(w.db, AccountKey(decoded.value.accountId)).Some? {
        cp := decoded;
      }
    }
  }

  /** Appends to `result` every output of `group`, all of whose scripts resolve to `cp`, annotated with that owner. */
  method AppendGroup(w: Wallet, group: seq<RawOutput>, cp: CtrlProgram, result: seq<AccountOutput>)
    returns (extended: seq<AccountOutput>)
    requires forall k | 0 <= k < |group| :: Resolve(w, group[k].controlProgram) == Some(cp)
    ensures extended == result + AccountOutputs(w, group)
  {
    extended := result;
    for k := 0 to |group|
      invariant extended == result + AccountOutputs(w, group[..k])
    {
      var newOut := AccountOutput(group[k], cp.accountId, cp.keyIndex, cp.change);
      AppendOwnedStep(w, group, k, cp, result, extended);
      extended := extended + [newOut];
    }
    assert group[..|group|] == group;
  }

  /**
   * Annotates each output whose script resolves with its owner and drops the
   * rest. The scripts are visited in an unspecified order (a Go map), so the
   * result is a permutation of the in-order reference definition.
   */
  method LoadAccountInfo(w: Wallet, outs: seq<RawOutput>) returns (result: seq<AccountOutput>)
    ensures multiset(result) == multiset(AccountOutputs(w, outs))
  {
    var outsByScript := GroupOutputsByScript(outs);

    result := [];
    var pending := outsByScript.Keys;
    ghost var done: set<Bytes> := {};
    WithScriptsNone(outs);
    while pending != {}
      invariant pending !! done && pending + done == outsByScript.Keys
      invariant multiset(result) == multiset(AccountOutputs(w, WithScripts(outs, done)))
      decreases pending
    {
      var s :| s in pending;
      pending := pending - {s};
      ghost var handled := done;
      done := done + {s};

      var cp := LookupControlProgram(w, s);
      if cp.None? {
        SkipUnresolved(w, outs, handled, s, result);
        continue;
      }

      ghost var before := result;
      GroupByScriptShares(outs, s);
      result := AppendGroup(w, outsByScript[s], cp.value, result);
      AppendResolved(w, outs, handled, s, before, result);
    }
    GroupByScriptCovers(outs);
  }

  /**
   * Issues one set per owned output, keyed by its output id, in order; stops
   * with an error at the first record that fails to encode.
   */
  method UpsertConfirmedAccountOutputs(w: Wallet, outs: seq<AccountOutput>, batch: Batch) returns (err: Option<string>)
    modifies batch
    ensures batch.ops == old(batch.ops) + UpsertOps(w, outs).ops
    ensures err.None? <==> UpsertOps(w, outs).complete
  {
    for i := 0 to |outs|
      invariant batch.ops + UpsertOps(w, outs[i..]).ops == old(batch.ops) + UpsertOps(w, outs).ops
      invariant UpsertOps(w, outs[i..]).complete == UpsertOps(w, outs).complete
    {
      var out := outs[i];
      var u := UTXO(out.raw.outputId, out.raw.assetAmount.assetId, out.raw.assetAmount.amount, out.accountId,
                    out.keyIndex, out.raw.controlProgram, out.raw.sourceId, out.raw.sourcePos, out.raw.refData, out.change);
      var rawUTXO := w.encodeUTXO(u);
      if rawUTXO.None? {
        return Some("failed marshal accountutxo");
      }
      batch.Set(AccountUTXOKey(u.outputId), rawUTXO.value);
      assert outs[i..][1..] == outs[i + 1..];
    }
    return None;
  }

  /** The first pass of a confirmation: one delete per spent output id, in order. */
  method DeleteOutputs(batch: Batch, ids: seq<Hash>)
    modifies batch
    ensures batch.ops == old(batch.ops) + DeleteOps(ids)
  {
    ghost var base := batch.ops;
    for k := 0 to |ids|
      invariant batch.ops == base + DeleteOps(ids[..k])
    {
      DeleteOpsAppend(ids[..k], ids[k]);
      assert ids[..k + 1] == ids[..k] + [ids[k]];
      batch.Delete(AccountUTXOKey(ids[k]));
    }
    assert ids[..|ids|] == ids;
  }

  /** The second pass of a confirmation: the raw record of every non-retirement output of `txs`, in block order. */
  method CollectCreatedOutputs(txs: seq<Tx>) returns (outs: seq<RawOutput>)
    ensures outs == CreatedOutputs(txs)
  {
    outs := [];
    for i := 0 to |txs|
      invariant outs == CreatedOutputs(txs[..i])
    {
      var tx := txs[i];
      for j := 0 to |tx.outputs|
        invariant outs == CreatedOutputs(txs[..i]) + TxCreatedOutputs(tx, j)
      {
        if !tx.outputs[j].result.OutputResult? {
          continue; // retirement
        }
        var resOut := tx.outputs[j].result.output;
        var out := RawOutput(tx.outputs[j].id, tx.outputs[j].assetAmount, tx.outputs[j].controlProgram, tx.id,
                             j % Uint32Modulus, resOut.source.ref, resOut.source.position, resOut.data);
        outs := outs + [out];
      }
      assert txs[..i + 1][..i] == txs[..i];
    }
    assert txs[..|txs|] == txs;
  }

  /**
   * Confirms block `b`: deletes the record of every output it spends, then
   * upserts the record of every owned output it creates. An upsert that fails
   * to encode ends the confirmation with the sets issued so far.
   */
  method BuildAccountUTXOs(w: Wallet, batch: Batch, b: Block)
    modifies batch
    ensures var base, dels := old(batch.ops), DeleteOps(SpentOutputIDs(b.transactions));
      |base| + |dels| <= |batch.ops| && batch.ops[..|base| + |dels|] == base + dels &&
      UpsertedInSomeOrder(w, AccountOutputs(w, CreatedOutputs(b.transactions)), batch.ops[|base| + |dels|..])
  {
    ghost var base := batch.ops;
    var txs := b.transactions;

    // handle spent outputs
    var delOutputIDs := PrevoutDBKeys(txs);
    DeleteOutputs(batch, delOutputIDs);
    ghost var deleted := batch.ops;

    // handle created outputs
    var outs := CollectCreatedOutputs(txs);

    var accOuts := LoadAccountInfo(w, outs);
    var err := UpsertConfirmedAccountOutputs(w, accOuts, batch);
    // an error is logged and the confirmation ends either way
    assert batch.ops[|deleted|..] == UpsertOps(w, accOuts).ops;
  }

  /** The second pass of a reversal: one delete per non-retirement output of `txs`, in block order. */
  method DeleteCreatedOutputs(batch: Batch, txs: seq<Tx>)
    modifies batch
    ensures batch.ops == old(batch.ops) + DeleteOps(CreatedOutputIDs(txs))
  {
    ghost var before := batch.ops;
    for i := 0 to |txs|
      invariant batch.ops == before + DeleteOps(CreatedOutputIDs(txs[..i]))
    {
      var tx := txs[i];
      for j := 0 to |tx.outputs|
        invariant batch.ops == before + DeleteOps(CreatedOutputIDs(txs[..i]) + TxCreatedOutputIDs(tx, j))
      {
        if !tx.outputs[j].result.OutputResult? {
          continue; // retirement
        }
        DeleteOpsAppend(CreatedOutputIDs(txs[..i]) + TxCreatedOutputIDs(tx, j), tx.outputs[j].id);
        batch.Delete(AccountUTXOKey(tx.outputs[j].id));
      }
      assert txs[..i + 1][..i] == txs[..i];
    }
    assert txs[..|txs|] == txs;
  }

  /**
   * Reverses block `b` (an orphaned block being rolled back): re-upserts the
   * record of every owned output it spent, then deletes the record of every
   * output it created. An upsert that fails to encode ends the reversal before
   * any delete is issued.
   */
  method ReverseAccountUTXOs(w: Wallet, batch: Batch, b: Block)
    modifies batch
    ensures var base := old(batch.ops);
      |base| <= |batch.ops| && batch.ops[..|base|] == base
    ensures var base, owned := old(batch.ops), AccountOutputs(w, RestoredOutputs(b.transactions));
      var dels := DeleteOps(CreatedOutputIDs(b.transactions));
      AllEncodable(w, owned) ==>
        |base| + |dels| <= |batch.ops| &&
        UpsertedInSomeOrder(w, owned, batch.ops[|base|..|batch.ops| - |dels|]) &&
        batch.ops[|batch.ops| - |dels|..] == dels
    ensures var base, owned := old(batch.ops), AccountOutputs(w, RestoredOutputs(b.transactions));
      !AllEncodable(w, owned) ==> UpsertedInSomeOrder(w, owned, batch.ops[|base|..])
  {
    ghost var base := batch.ops;
    var txs := b.transactions;

    // handle spent outputs
    var reverseOuts: seq<RawOutput> := [];
    for i := 0 to |txs|
      invariant reverseOuts == RestoredOutputs(txs[..i])
    {
      var tx := txs[i];
      for k := 0 to |tx.inputs|
        invariant reverseOuts == RestoredOutputs(txs[..i]) + TxRestoredOutputs(tx, k)
      {
        if !tx.inputs[k].entry.SpendEntry? {
          continue; // not a spend
        }
        var sp := tx.inputs[k].entry;
        if sp.spentOutput.None? {
          continue; // the spent entry is not an output
        }
        var resOut := sp.spentOutput.value;
        var out := RawOutput(sp.spentOutputId, resOut.source.value, resOut.controlProgram, tx.id, 0,
                             resOut.source.ref, resOut.source.position, resOut.data);
        reverseOuts := reverseOuts + [out];
      }
      assert txs[..i + 1][..i] == txs[..i];
    }
    assert txs[..|txs|] == txs;

    var accOuts := LoadAccountInfo(w, reverseOuts);
    var err := UpsertConfirmedAccountOutputs(w, accOuts, batch);
    ghost var owned := AccountOutputs(w, reverseOuts);
    UpsertOpsComplete(w, accOuts);
    AllEncodableReordered(w, accOuts, owned);
    assert batch.ops[|base|..] == UpsertOps(w, accOuts).ops;
    if err.Some? {
      return; // logged
    }

    // handle created outputs
    ghost var upserted := batch.ops;
    DeleteCreatedOutputs(batch, txs);
    assert batch.ops[|base|..|upserted|] == UpsertOps(w, accOuts).ops;
  }

  /** The records of the non-retirement outputs of `txs` whose ids are not in `spent`, in block order. */
  method UnspentCreatedOutputs(txs: seq<Tx>, spent: seq<Hash>) returns (outs: seq<RawOutput>)
    ensures outs == Unspent(CreatedOutputs(txs), spent)
  {
    var created := CollectCreatedOutputs(txs);
    outs := [];
    for i := 0 to |created|
      invariant outs == Unspent(created[..i], spent)
    {
      assert created[..i + 1] == created[..i] + [created[i]];
      UnspentSnoc(created[..i], created[i], spent);
      if created[i].outputId !in spent {
        outs := outs + [created[i]];
      }
    }
    assert created[..|created|] == created;
  }

  /**
   * Confirmation as evidently intended: like BuildAccountUTXOs, except that a
   * created output which a later transaction of the same block spends is not
   * upserted, since the deletes of the block's spent outputs come first.
   */
  method BuildUnspentAccountUTXOs(w: Wallet, batch: Batch, b: Block)
    modifies batch
    ensures var base, spent := old(batch.ops), SpentOutputIDs(b.transactions);
      var dels := DeleteOps(spent);
      |base| + |dels| <= |batch.ops| && batch.ops[..|base| + |dels|] == base + dels &&
      UpsertedInSomeOrder(w, AccountOutputs(w, Unspent(CreatedOutputs(b.transactions), spent)), batch.ops[|base| + |dels|..])
  {
    ghost var base := batch.ops;
    var txs := b.transactions;

    // handle spent outputs
    var delOutputIDs := PrevoutDBKeys(txs);
    DeleteOutputs(batch, delOutputIDs);
    ghost var deleted := batch.ops;

    // handle created outputs that stay unspent
    var outs := UnspentCreatedOutputs(txs, delOutputIDs);

    var accOuts := LoadAccountInfo(w, outs);
    var err := UpsertConfirmedAccountOutputs(w, accOuts, batch);
    assert batch.ops[|deleted|..] == UpsertOps(w, accOuts).ops;
  }

  // ---- what a committed batch leaves in the table ----

  /** Each set issued for the owned outputs of `outs` writes the record of one of them, owner included, under its id. */
  lemma UpsertedSetSource(w: Wallet, outs: seq<RawOutput>, sets: seq<Op>, op: Op) returns (r: RawOutput)
    requires UpsertedInSomeOrder(w, AccountOutputs(w, outs), sets)
    requires op in sets
    ensures r in outs && Resolve(w, r.controlProgram).Some?
    ensures op.SetOp? && op.key == AccountUTXOKey(r.outputId)
    ensures w.encodeUTXO(ToUTXO(Annotate(r, Resolve(w, r.controlProgram).value))) == Some(op.value)
  {
    var owned := AccountOutputs(w, outs);
    UpsertedFromOwned(w, owned, sets);
    var a :| a in owned && Encoded(w, a) == Some(op);
    EncodedRecord(w, a, op);
    AccountOutputsSpec(w, outs, a);
    r := a.raw;
  }

  /** Each set a confirmation issues writes the record of an owned output the block creates, under that output's id. */
  lemma ConfirmedSetSource(w: Wallet, txs: seq<Tx>, sets: seq<Op>, op: Op) returns (i: int, j: int)
    requires UpsertedInSomeOrder(w, AccountOutputs(w, CreatedOutputs(txs)), sets)
    requires op in sets
    ensures 0 <= i < |txs| && CreatesAt(txs[i], j) && Resolve(w, txs[i].outputs[j].controlProgram).Some?
    ensures op.SetOp? && op.key == AccountUTXOKey(txs[i].outputs[j].id)
    ensures w.encodeUTXO(ToUTXO(Annotate(CreatedRaw(txs[i], j), Resolve(w, txs[i].outputs[j].controlProgram).value)))
      == Some(op.value)
  {
    var r := UpsertedSetSource(w, CreatedOutputs(txs), sets, op);
    CreatedOutputsSpec(txs, r);
    i, j :| 0 <= i < |txs| && CreatesAt(txs[i], j) && r == CreatedRaw(txs[i], j);
  }

  /**
   * After confirming a block on a table without the key, a record keyed by
   * `id` exists only for a non-retirement output of the block whose script
   * resolves, and it holds the encoding of that output annotated with its owner.
   */
  lemma ConfirmationIndexesOnlyOwned(w: Wallet, txs: seq<Tx>, t: Table, sets: seq<Op>, id: Hash)
    requires UpsertedInSomeOrder(w, AccountOutputs(w, CreatedOutputs(txs)), sets)
    requires AccountUTXOKey(id) !in t
    requires AccountUTXOKey(id) in Apply(t, DeleteOps(SpentOutputIDs(txs)) + sets)
    ensures exists i, j ::
      && 0 <= i < |txs| && CreatesAt(txs[i], j) && txs[i].outputs[j].id == id
      && Resolve(w, txs[i].outputs[j].controlProgram).Some?
      && w.encodeUTXO(ToUTXO(Annotate(CreatedRaw(txs[i], j), Resolve(w, txs[i].outputs[j].controlProgram).value)))
         == Some(Apply(t, DeleteOps(SpentOutputIDs(txs)) + sets)[AccountUTXOKey(id)])
  {
    var dels := DeleteOps(SpentOutputIDs(txs));
    var k := AccountUTXOKey(id);
    var v := Apply(t, dels + sets)[k];
    IntroducedBySet(t, dels + sets, k);
    if SetOp(k, v) in dels {
      DeleteOpsKeys(SpentOutputIDs(txs), SetOp(k, v));
    }
    var i, j := ConfirmedSetSource(w, txs, sets, SetOp(k, v));
  }

  /**
   * When every owned output a block creates encodes, confirming it leaves a
   * record for each of them, even for one the block itself spends: the
   * upserts come after the deletes.
   */
  lemma ConfirmationIndexesOwned(w: Wallet, txs: seq<Tx>, t: Table, sets: seq<Op>, i: int, j: int)
    requires UpsertedInSomeOrder(w, AccountOutputs(w, CreatedOutputs(txs)), sets)
    requires AllEncodable(w, AccountOutputs(w, CreatedOutputs(txs)))
    requires 0 <= i < |txs| && CreatesAt(txs[i], j) && Resolve(w, txs[i].outputs[j].controlProgram).Some?
    ensures AccountUTXOKey(txs[i].outputs[j].id) in Apply(t, DeleteOps(SpentOutputIDs(txs)) + sets)
  {
    var owned, dels := AccountOutputs(w, CreatedOutputs(txs)), DeleteOps(SpentOutputIDs(txs));
    var r := CreatedRaw(txs[i], j);
    var k := AccountUTXOKey(r.outputId);
    var a := Annotate(r, Resolve(w, r.controlProgram).value);
    CreatedOutputsSpec(txs, r);
    AccountOutputsSpec(w, CreatedOutputs(txs), a);
    UpsertedAll(w, owned, sets);
    EncodedRecord(w, a, Encoded(w, a).value);
    UpsertedAreSets(w, owned, sets);
    PresentAfterSets(Apply(t, dels), sets, k);
    ApplyConcat(t, dels, sets);
  }

  /**
   * When every owned output a block creates encodes and no other output of
   * the block has the same id, confirming the block leaves under that id the
   * encoding of the output's record, whatever the table held there before: an
   * existing row is overwritten with the confirmed data.
   */
  lemma ConfirmationWritesRecord(w: Wallet, txs: seq<Tx>, t: Table, sets: seq<Op>, i: int, j: int)
    requires UpsertedInSomeOrder(w, AccountOutputs(w, CreatedOutputs(txs)), sets)
    requires AllEncodable(w, AccountOutputs(w, CreatedOutputs(txs)))
    requires 0 <= i < |txs| && CreatesAt(txs[i], j) && Resolve(w, txs[i].outputs[j].controlProgram).Some?
    requires forall i2, j2 | 0 <= i2 < |txs| && CreatesAt(txs[i2], j2) && txs[i2].outputs[j2].id == txs[i].outputs[j].id ::
      i2 == i && j2 == j
    ensures Get(Apply(t, DeleteOps(SpentOutputIDs(txs)) + sets), AccountUTXOKey(txs[i].outputs[j].id))
      == w.encodeUTXO(ToUTXO(Annotate(CreatedRaw(txs[i], j), Resolve(w, txs[i].outputs[j].controlProgram).value)))
  {
    var owned, dels := AccountOutputs(w, CreatedOutputs(txs)), DeleteOps(SpentOutputIDs(txs));
    var r := CreatedRaw(txs[i], j);
    var k := AccountUTXOKey(r.outputId);
    var a := Annotate(r, Resolve(w, r.controlProgram).value);
    CreatedOutputsSpec(txs, r);
    AccountOutputsSpec(w, CreatedOutputs(txs), a);
    UpsertedAll(w, owned, sets);
    EncodedRecord(w, a, Encoded(w, a).value);
    var v := Encoded(w, a).value.value;
    forall op | op in sets && op.key == k ensures op == SetOp(k, v) {
      var i2, j2 := ConfirmedSetSource(w, txs, sets, op);
    }
    SetsDecide(t, dels, sets, k, v);
  }

  /** Confirming a block removes the record of every output it spends, unless the block also creates that output. */
  lemma ConfirmationRemovesSpent(w: Wallet, txs: seq<Tx>, t: Table, sets: seq<Op>, id: Hash)
    requires UpsertedInSomeOrder(w, AccountOutputs(w, CreatedOutputs(txs)), sets)
    requires id in SpentOutputIDs(txs)
    requires forall i, j | 0 <= i < |txs| && CreatesAt(txs[i], j) :: txs[i].outputs[j].id != id
    ensures AccountUTXOKey(id) !in Apply(t, DeleteOps(SpentOutputIDs(txs)) + sets)
  {
    var dels := DeleteOps(SpentOutputIDs(txs));
    var k := AccountUTXOKey(id);
    DeletedKeysAbsent(t, [], SpentOutputIDs(txs), id);
    assert [] + dels == dels;
    forall n | 0 <= n < |sets| ensures sets[n].key != k {
      var _, _ := ConfirmedSetSource(w, txs, sets, sets[n]);
    }
    ApplyUntouched(Apply(t, dels), sets, k);
    ApplyConcat(t, dels, sets);
  }

  /** Reversing a block leaves no record of any output it created, whatever the batch held before the deletes. */
  lemma ReversalRemovesCreated(t: Table, ops: seq<Op>, txs: seq<Tx>, i: int, j: int)
    requires 0 <= i < |txs| && CreatesAt(txs[i], j)
    ensures AccountUTXOKey(txs[i].outputs[j].id) !in Apply(t, ops + DeleteOps(CreatedOutputIDs(txs)))
  {
    CreatedOutputIDsSpec(txs, txs[i].outputs[j].id);
    DeletedKeysAbsent(t, ops, CreatedOutputIDs(txs), txs[i].outputs[j].id);
  }

  /**
   * When every owned output a block spent encodes, reversing it leaves a
   * record for each spent output entry whose script resolves, unless the
   * block also created that output.
   */
  lemma ReversalRestoresOwned(w: Wallet, txs: seq<Tx>, t: Table, sets: seq<Op>, i: int, k: int)
    requires UpsertedInSomeOrder(w, AccountOutputs(w, RestoredOutputs(txs)), sets)
    requires AllEncodable(w, AccountOutputs(w, RestoredOutputs(txs)))
    requires 0 <= i < |txs| && RestoresAt(txs[i], k) && Resolve(w, RestoredAt(txs[i], k).controlProgram).Some?
    requires RestoredAt(txs[i], k).outputId !in CreatedOutputIDs(txs)
    ensures AccountUTXOKey(RestoredAt(txs[i], k).outputId) in Apply(t, sets + DeleteOps(CreatedOutputIDs(txs)))
  {
    var owned, dels := AccountOutputs(w, RestoredOutputs(txs)), DeleteOps(CreatedOutputIDs(txs));
    var r := RestoredAt(txs[i], k);
    var key := AccountUTXOKey(r.outputId);
    var a := Annotate(r, Resolve(w, r.controlProgram).value);
    RestoredOutputsSpec(txs, r);
    AccountOutputsSpec(w, RestoredOutputs(txs), a);
    UpsertedAll(w, owned, sets);
    EncodedRecord(w, a, Encoded(w, a).value);
    forall op | op in dels ensures op.key != key {
      DeleteOpsKeys(CreatedOutputIDs(txs), op);
    }
    UpsertedAreSets(w, owned, sets);
    PresentAfterSets(t, sets + dels, key);
  }

  /**
   * When every owned output a block spent encodes and no other input of the
   * block spends the same output, reversing the block leaves under that
   * output's id the encoding of its restored record, unless the block also
   * created that output.
   */
  lemma ReversalRestoresRecord(w: Wallet, txs: seq<Tx>, t: Table, sets: seq<Op>, i: int, k: int)
    requires UpsertedInSomeOrder(w, AccountOutputs(w, RestoredOutputs(txs)), sets)
    requires AllEncodable(w, AccountOutputs(w, RestoredOutputs(txs)))
    requires 0 <= i < |txs| && RestoresAt(txs[i], k) && Resolve(w, RestoredAt(txs[i], k).controlProgram).Some?
    requires RestoredAt(txs[i], k).outputId !in CreatedOutputIDs(txs)
    requires forall i2, k2 | 0 <= i2 < |txs| && RestoresAt(txs[i2], k2) && RestoredAt(txs[i2], k2).outputId == RestoredAt(txs[i], k).outputId ::
      i2 == i && k2 == k
    ensures Get(Apply(t, sets + DeleteOps(CreatedOutputIDs(txs))), AccountUTXOKey(RestoredAt(txs[i], k).outputId))
      == w.encodeUTXO(ToUTXO(Annotate(RestoredAt(txs[i], k), Resolve(w, RestoredAt(txs[i], k).controlProgram).value)))
  {
    var owned, dels := AccountOutputs(w, RestoredOutputs(txs)), DeleteOps(CreatedOutputIDs(txs));
    var r := RestoredAt(txs[i], k);
    var key := AccountUTXOKey(r.outputId);
    var a := Annotate(r, Resolve(w, r.controlProgram).value);
    RestoredOutputsSpec(txs, r);
    AccountOutputsSpec(w, RestoredOutputs(txs), a);
    UpsertedAll(w, owned, sets);
    EncodedRecord(w, a, Encoded(w, a).value);
    var v := Encoded(w, a).value.value;
    forall op | op in sets && op.key == key ensures op == SetOp(key, v) {
      var r2 := UpsertedSetSource(w, RestoredOutputs(txs), sets, op);
      RestoredOutputsSpec(txs, r2);
      var i2, k2 :| 0 <= i2 < |txs| && RestoresAt(txs[i2], k2) && r2 == RestoredAt(txs[i2], k2);
    }
    SetsDecide(t, [], sets, key, v);
    assert [] + sets == sets;
    forall n | 0 <= n < |dels| ensures dels[n].key != key {
      DeleteOpsKeys(CreatedOutputIDs(txs), dels[n]);
    }
    ApplyConcat(t, sets, dels);
    ApplyUntouched(Apply(t, sets), dels, key);
  }

  // ---- reversing a confirmation ----

  /**
   * `t` is the table as it stood before a block with transactions `txs` was
   * confirmed: no output the block creates has a record, and an output the
   * block spends and does not create has one exactly when the wallet owns it,
   * holding the record a reversal writes back.
   */
  predicate BeforeBlock(w: Wallet, txs: seq<Tx>, t: Table) {
    var created, restored := CreatedOutputIDs(txs), AccountOutputs(w, RestoredOutputs(txs));
    && (forall id | id in created :: AccountUTXOKey(id) !in t)
    && (forall id | id in SpentOutputIDs(txs) && id !in created ::
          AccountUTXOKey(id) in t <==> exists a :: a in restored && a.raw.outputId == id)
    && (forall a | a in restored && a.raw.outputId !in created ::
          Get(t, AccountUTXOKey(a.raw.outputId)) == w.encodeUTXO(ToUTXO(a)))
  }

  /** Every set a confirmation issues is keyed by the id of an output the block creates. */
  lemma ConfirmedKeyCreated(w: Wallet, txs: seq<Tx>, sets: seq<Op>, op: Op)
    requires UpsertedInSomeOrder(w, AccountOutputs(w, CreatedOutputs(txs)), sets)
    requires op in sets
    ensures op.key.AccountUTXOKey? && op.key.outputId in CreatedOutputIDs(txs)
  {
    var i, j := ConfirmedSetSource(w, txs, sets, op);
    CreatedOutputIDsSpec(txs, txs[i].outputs[j].id);
  }

  /** Every set a reversal issues writes the record of an owned restored output under its id, which the block spends. */
  lemma RestoredSetSource(w: Wallet, txs: seq<Tx>, sets: seq<Op>, op: Op) returns (a: AccountOutput)
    requires UpsertedInSomeOrder(w, AccountOutputs(w, RestoredOutputs(txs)), sets)
    requires op in sets
    ensures a in AccountOutputs(w, RestoredOutputs(txs)) && a.raw.outputId in SpentOutputIDs(txs)
    ensures op.SetOp? && op.key == AccountUTXOKey(a.raw.outputId) && w.encodeUTXO(ToUTXO(a)) == Some(op.value)
  {
    UpsertedFromOwned(w, AccountOutputs(w, RestoredOutputs(txs)), sets);
    a :| a in AccountOutputs(w, RestoredOutputs(txs)) && Encoded(w, a) == Some(op);
    AccountOutputsSpec(w, RestoredOutputs(txs), a);
    RestoredAreSpent(txs, a.raw);
  }

  /**
   * On a table where the confirmation left no record for a spent output, the
   * reversal's upserts put back what that output's key read before the block.
   */
  lemma ReversalRewritesSpent(w: Wallet, txs: seq<Tx>, t: Table, t1: Table, sets: seq<Op>, id: Hash)
    requires UpsertedInSomeOrder(w, AccountOutputs(w, RestoredOutputs(txs)), sets)
    requires AllEncodable(w, AccountOutputs(w, RestoredOutputs(txs)))
    requires BeforeBlock(w, txs, t)
    requires id in SpentOutputIDs(txs) && id !in CreatedOutputIDs(txs)
    requires AccountUTXOKey(id) !in t1
    ensures Get(Apply(t1, sets), AccountUTXOKey(id)) == Get(t, AccountUTXOKey(id))
  {
    var k := AccountUTXOKey(id);
    var restored := AccountOutputs(w, RestoredOutputs(txs));
    ApplyAt(t1, sets, k);
    LastOnSpec(sets, k);
    if exists a :: a in restored && a.raw.outputId == id {
      var a :| a in restored && a.raw.outputId == id;
      UpsertedAll(w, restored, sets);
      EncodedRecord(w, a, Encoded(w, a).value);
      var n :| 0 <= n < |sets| && sets[n] == Encoded(w, a).value;
      var a2 := RestoredSetSource(w, txs, sets, LastOn(sets, k).value);
    } else {
      forall n | 0 <= n < |sets| ensures sets[n].key != k {
        var a2 := RestoredSetSource(w, txs, sets, sets[n]);
      }
    }
  }

  /** One key of the round trip: confirming and then reversing a block gives it back what it read before. */
  lemma ConfirmThenReverseAt(w: Wallet, txs: seq<Tx>, t: Table, csets: seq<Op>, rsets: seq<Op>, k: Key)
    requires UpsertedInSomeOrder(w, AccountOutputs(w, CreatedOutputs(txs)), csets)
    requires UpsertedInSomeOrder(w, AccountOutputs(w, RestoredOutputs(txs)), rsets)
    requires AllEncodable(w, AccountOutputs(w, RestoredOutputs(txs)))
    requires BeforeBlock(w, txs, t)
    ensures Get(Apply(Apply(t, DeleteOps(SpentOutputIDs(txs)) + csets), rsets + DeleteOps(CreatedOutputIDs(txs))), k)
      == Get(t, k)
  {
    var spent, created := SpentOutputIDs(txs), CreatedOutputIDs(txs);
    var dels1, dels2 := DeleteOps(spent), DeleteOps(created);
    var t1 := Apply(t, dels1 + csets);
    if k.AccountUTXOKey? && k.outputId in created {
      DeletedKeysAbsent(t1, rsets, created, k.outputId);
    } else {
      forall n | 0 <= n < |dels2| ensures dels2[n].key != k {
        DeleteOpsKeys(created, dels2[n]);
      }
      ApplyConcat(t1, rsets, dels2);
      ApplyUntouched(Apply(t1, rsets), dels2, k);
      forall n | 0 <= n < |csets| ensures csets[n].key != k {
        ConfirmedKeyCreated(w, txs, csets, csets[n]);
      }
      ApplyConcat(t, dels1, csets);
      ApplyUntouched(Apply(t, dels1), csets, k);
      if k.AccountUTXOKey? && k.outputId in spent {
        DeletedKeysAbsent(t, [], spent, k.outputId);
        assert [] + dels1 == dels1;
        ReversalRewritesSpent(w, txs, t, t1, rsets, k.outputId);
      } else {
        forall n | 0 <= n < |dels1| ensures dels1[n].key != k {
          DeleteOpsKeys(spent, dels1[n]);
        }
        ApplyUntouched(t, dels1, k);
        forall n | 0 <= n < |rsets| ensures rsets[n].key != k {
          var a := RestoredSetSource(w, txs, rsets, rsets[n]);
        }
        ApplyUntouched(t1, rsets, k);
      }
    }
  }

  /**
   * Reversing a confirmed block gives back the table from before the block:
   * when every owned output the block spent encodes, committing the
   * confirmation's batch and then the reversal's batch leaves that table as it was.
   */
  lemma ConfirmThenReverse(w: Wallet, txs: seq<Tx>, t: Table, csets: seq<Op>, rsets: seq<Op>)
    requires UpsertedInSomeOrder(w, AccountOutputs(w, CreatedOutputs(txs)), csets)
    requires UpsertedInSomeOrder(w, AccountOutputs(w, RestoredOutputs(txs)), rsets)
    requires AllEncodable(w, AccountOutputs(w, RestoredOutputs(txs)))
    requires BeforeBlock(w, txs, t)
    ensures Apply(Apply(t, DeleteOps(SpentOutputIDs(txs)) + csets), rsets + DeleteOps(CreatedOutputIDs(txs))) == t
  {
    var after := Apply(Apply(t, DeleteOps(SpentOutputIDs(txs)) + csets), rsets + DeleteOps(CreatedOutputIDs(txs)));
    forall k ensures Get(after, k) == Get(t, k) {
      ConfirmThenReverseAt(w, txs, t, csets, rsets, k);
    }
    GetExtensional(after, t);
  }

  /** With the intended confirmation, no output the block spends keeps a record, whatever else the block does. */
  lemma ConfirmationRemovesEverySpent(w: Wallet, txs: seq<Tx>, t: Table, sets: seq<Op>, id: Hash)
    requires UpsertedInSomeOrder(w, AccountOutputs(w, Unspent(CreatedOutputs(txs), SpentOutputIDs(txs))), sets)
    requires id in SpentOutputIDs(txs)
    ensures AccountUTXOKey(id) !in Apply(t, DeleteOps(SpentOutputIDs(txs)) + sets)
  {
    var spent := SpentOutputIDs(txs);
    var owned, dels := AccountOutputs(w, Unspent(CreatedOutputs(txs), spent)), DeleteOps(spent);
    var k := AccountUTXOKey(id);
    DeletedKeysAbsent(t, [], spent, id);
    assert [] + dels == dels;
    forall n | 0 <= n < |sets| ensures sets[n].key != k {
      var r := UpsertedSetSource(w, Unspent(CreatedOutputs(txs), spent), sets, sets[n]);
      UnspentSpec(CreatedOutputs(txs), spent, r);
    }
    ApplyUntouched(Apply(t, dels), sets, k);
    ApplyConcat(t, dels, sets);
  }

  /**
   * With the intended confirmation, when every owned output left unspent
   * encodes, each owned output the block creates and does not spend keeps a record.
   */
  lemma ConfirmationIndexesUnspentOwned(w: Wallet, txs: seq<Tx>, t: Table, sets: seq<Op>, i: int, j: int)
    requires UpsertedInSomeOrder(w, AccountOutputs(w, Unspent(CreatedOutputs(txs), SpentOutputIDs(txs))), sets)
    requires AllEncodable(w, AccountOutputs(w, Unspent(CreatedOutputs(txs), SpentOutputIDs(txs))))
    requires 0 <= i < |txs| && CreatesAt(txs[i], j) && Resolve(w, txs[i].outputs[j].controlProgram).Some?
    requires txs[i].outputs[j].id !in SpentOutputIDs(txs)
    ensures AccountUTXOKey(txs[i].outputs[j].id) in Apply(t, DeleteOps(SpentOutputIDs(txs)) + sets)
  {
    var spent := SpentOutputIDs(txs);
    var unspent := Unspent(CreatedOutputs(txs), spent);
    var owned, dels := AccountOutputs(w, unspent), DeleteOps(spent);
    var r := CreatedRaw(txs[i], j);
    var k := AccountUTXOKey(r.outputId);
    var a := Annotate(r, Resolve(w, r.controlProgram).value);
    CreatedOutputsSpec(txs, r);
    UnspentSpec(CreatedOutputs(txs), spent, r);
    AccountOutputsSpec(w, unspent, a);
    UpsertedAll(w, owned, sets);
    EncodedRecord(w, a, Encoded(w, a).value);
    forall op | op in dels ensures op.key != k {
      DeleteOpsKeys(spent, op);
    }
    UpsertedAreSets(w, owned, sets);
    PresentAfterSets(t, dels + sets, k);
  }

  // ---- a block that spends an output it creates ----

  /** A wallet that owns script [7] through account "acct" and encodes every record as [0]. */
  function ChainWallet(): (w: Wallet) {
    Wallet(map[AccountCPKey([7]) := [1], AccountKey("acct") := [1]],
           script => script, bytes => Some(CtrlProgram("acct", 0, false)), u => Some([0]))
  }

  /** Transaction [10] creates output [1] paying to script [7]; transaction [11] of the same block spends it. */
  function ChainTxs(): (txs: seq<Tx>) {
    var entry := OutputEntry(ValueSource([3], AssetAmount([2], 5), 0), [7], [4]);
    var create := Tx([10], [], [], [TxOutput(AssetAmount([2], 5), [7], [], [1], OutputResult(entry))]);
    var spend := Tx([11], [], [TxInput(AssetAmount([2], 5), [], [7], [], SpendEntry([1], Some(entry)))], []);
    [create, spend]
  }

  /** The one output ChainTxs creates is output [1], spent by its second transaction. */
  lemma ChainExtraction()
    ensures SpentOutputIDs(ChainTxs()) == [[1]]
    ensures CreatedOutputs(ChainTxs()) == [CreatedRaw(ChainTxs()[0], 0)]
  {
    var txs := ChainTxs();
    assert txs[..1] == [txs[0]] && [txs[0]][..0] == [];
  }

  /** ChainWallet owns output [1]. */
  lemma ChainOwnership(r: RawOutput)
    requires r == CreatedRaw(ChainTxs()[0], 0)
    ensures AccountOutputs(ChainWallet(), [r]) == [Annotate(r, CtrlProgram("acct", 0, false))]
  {
    assert Resolve(ChainWallet(), r.controlProgram) == Some(CtrlProgram("acct", 0, false));
    assert [r][..0] == [];
  }

  /**
   * Confirming ChainTxs as written deletes output [1] before upserting it, so
   * the record of an output the block itself spends survives the commit.
   */
  lemma IntraBlockSpendKeepsRecord(t: Table, sets: seq<Op>)
    requires UpsertedInSomeOrder(ChainWallet(), AccountOutputs(ChainWallet(), CreatedOutputs(ChainTxs())), sets)
    ensures [1] in SpentOutputIDs(ChainTxs())
    ensures AccountUTXOKey([1]) in Apply(t, DeleteOps(SpentOutputIDs(ChainTxs())) + sets)
  {
    var w := ChainWallet();
    ChainExtraction();
    var r := CreatedRaw(ChainTxs()[0], 0);
    ChainOwnership(r);
    var a := Annotate(r, CtrlProgram("acct", 0, false));
    var order :| multiset(order) == multiset([a]) && UpsertOps(w, order).ops == sets;
    assert |order| == 1 && order[0] in multiset([a]);
    assert order == [a];
    assert sets == [SetOp(AccountUTXOKey([1]), [0])];
    var all := DeleteOps([[1]]) + sets;
    assert all[..|all| - 1] == DeleteOps([[1]]);
  }
}
