/**
 * What the indexer extracts from a block before ownership is resolved:
 * the ids of the outputs the block spends, the outputs it creates, the ids of
 * those created outputs and, for a reversal, the spent outputs to restore.
 *
 * Each list is defined transaction by transaction, input (or output) by input,
 * in block order; the per-transaction functions take a prefix length so that
 * the nested loops of the indexer can be stated against them.
 */
module Extraction {
  import opened Wrappers
  import opened Ledger

  /** An output being created or spent (`rawOutput`). `outputIndex` is meaningless for a spent one. */
  datatype RawOutput = RawOutput(
    outputId: Hash,
    assetAmount: AssetAmount,
    controlProgram: Bytes,
    txHash: Hash,
    outputIndex: Uint32,
    sourceId: Hash,
    sourcePos: nat,
    refData: Hash)

  /** Input `k` of `tx` is a spend (the entry graph yields a spend for it). */
  predicate SpendsAt(tx: Tx, k: int) {
    0 <= k < |tx.inputs| && tx.inputs[k].entry.SpendEntry?
  }

  /** Output `j` of `tx` resolves to an output entry, not a retirement. */
  predicate CreatesAt(tx: Tx, j: int) {
    0 <= j < |tx.outputs| && tx.outputs[j].result.OutputResult?
  }

  /** Input `k` of `tx` is a spend whose spent entry is an output entry. */
  predicate RestoresAt(tx: Tx, k: int) {
    SpendsAt(tx, k) && tx.inputs[k].entry.spentOutput.Some?
  }

  /** The record of created output `j` of `tx`: value and script from the legacy output, provenance from its entry. */
  function CreatedRaw(tx: Tx, j: nat): (r: RawOutput)
    requires CreatesAt(tx, j)
  {
    var out := tx.outputs[j];
    var entry := out.result.output;
    RawOutput(out.id, out.assetAmount, out.controlProgram, tx.id, j % Uint32Modulus,
              entry.source.ref, entry.source.position, entry.data)
  }

  /** The record of a spent output, rebuilt from its output entry; its output index stays zero. */
  function RestoredRaw(tx: Tx, spentOutputId: Hash, entry: OutputEntry): (r: RawOutput) {
    RawOutput(spentOutputId, entry.source.value, entry.controlProgram, tx.id, 0,
              entry.source.ref, entry.source.position, entry.data)
  }

  /** The record rebuilt from the output entry spent by input `k` of `tx`. */
  function RestoredAt(tx: Tx, k: int): (r: RawOutput)
    requires RestoresAt(tx, k)
  {
    RestoredRaw(tx, tx.inputs[k].entry.spentOutputId, tx.inputs[k].entry.spentOutput.value)
  }

  // ---- spent output ids ----

  function TxSpentOutputIDs(tx: Tx, n: nat): (ids: seq<Hash>)
    requires n <= |tx.inputs|
  {
    if n == 0 then []
    else TxSpentOutputIDs(tx, n - 1) + (if SpendsAt(tx, n - 1) then [tx.inputs[n - 1].entry.spentOutputId] else [])
  }

  function SpentOutputIDs(txs: seq<Tx>): (ids: seq<Hash>)
    decreases |txs|
  {
    if txs == [] then []
    else SpentOutputIDs(txs[..|txs| - 1]) + TxSpentOutputIDs(txs[|txs| - 1], |txs[|txs| - 1].inputs|)
  }

  // ---- created outputs ----

  function TxCreatedOutputs(tx: Tx, n: nat): (outs: seq<RawOutput>)
    requires n <= |tx.outputs|
  {
    if n == 0 then []
    else TxCreatedOutputs(tx, n - 1) + (if CreatesAt(tx, n - 1) then [CreatedRaw(tx, n - 1)] else [])
  }

  function CreatedOutputs(txs: seq<Tx>): (outs: seq<RawOutput>)
    decreases |txs|
  {
    if txs == [] then []
    else CreatedOutputs(txs[..|txs| - 1]) + TxCreatedOutputs(txs[|txs| - 1], |txs[|txs| - 1].outputs|)
  }

  // ---- ids of created outputs ----

  function TxCreatedOutputIDs(tx: Tx, n: nat): (ids: seq<Hash>)
    requires n <= |tx.outputs|
  {
    if n == 0 then []
    else TxCreatedOutputIDs(tx, n - 1) + (if CreatesAt(tx, n - 1) then [tx.outputs[n - 1].id] else [])
  }

  function CreatedOutputIDs(txs: seq<Tx>): (ids: seq<Hash>)
    decreases |txs|
  {
    if txs == [] then []
    else CreatedOutputIDs(txs[..|txs| - 1]) + TxCreatedOutputIDs(txs[|txs| - 1], |txs[|txs| - 1].outputs|)
  }

  // ---- spent outputs to restore ----

  function TxRestoredOutputs(tx: Tx, n: nat): (outs: seq<RawOutput>)
    requires n <= |tx.inputs|
  {
    if n == 0 then []
    else TxRestoredOutputs(tx, n - 1) + (if RestoresAt(tx, n - 1) then [RestoredAt(tx, n - 1)] else [])
  }

  function RestoredOutputs(txs: seq<Tx>): (outs: seq<RawOutput>)
    decreases |txs|
  {
    if txs == [] then []
    else RestoredOutputs(txs[..|txs| - 1]) + TxRestoredOutputs(txs[|txs| - 1], |txs[|txs| - 1].inputs|)
  }

  // ---- what each list holds ----

  /** A spent output id is listed exactly when some input of some transaction is a spend of it. */
  lemma SpentOutputIDsSpec(txs: seq<Tx>, id: Hash)
    ensures id in SpentOutputIDs(txs) <==>
      exists i, k :: 0 <= i < |txs| && SpendsAt(txs[i], k) && id == txs[i].inputs[k].entry.spentOutputId
  {
    if id in SpentOutputIDs(txs) {
      SpentOutputIDsSound(txs, id);
    }
    if exists i, k :: 0 <= i < |txs| && SpendsAt(txs[i], k) && id == txs[i].inputs[k].entry.spentOutputId {
      var i, k :| 0 <= i < |txs| && SpendsAt(txs[i], k) && id == txs[i].inputs[k].entry.spentOutputId;
      SpentOutputIDsComplete(txs, i, k);
    }
  }

  lemma {:induction false} SpentOutputIDsSound(txs: seq<Tx>, id: Hash)
    requires id in SpentOutputIDs(txs)
    ensures exists i, k :: 0 <= i < |txs| && SpendsAt(txs[i], k) && id == txs[i].inputs[k].entry.spentOutputId
  {
    var init, tx := txs[..|txs| - 1], txs[|txs| - 1];
    if id in SpentOutputIDs(init) {
      SpentOutputIDsSound(init, id);
      var i, k :| 0 <= i < |init| && SpendsAt(init[i], k) && id == init[i].inputs[k].entry.spentOutputId;
      assert txs[i] == init[i];
    } else {
      TxSpentOutputIDsSpec(tx, |tx.inputs|, id);
      var k :| 0 <= k < |tx.inputs| && SpendsAt(tx, k) && id == tx.inputs[k].entry.spentOutputId;
      assert txs[|txs| - 1] == tx;
    }
  }

  lemma {:induction false} SpentOutputIDsComplete(txs: seq<Tx>, i: int, k: int)
    requires 0 <= i < |txs| && SpendsAt(txs[i], k)
    ensures txs[i].inputs[k].entry.spentOutputId in SpentOutputIDs(txs)
  {
    var init, tx := txs[..|txs| - 1], txs[|txs| - 1];
    if i < |init| {
      assert init[i] == txs[i];
      SpentOutputIDsComplete(init, i, k);
    } else {
      TxSpentOutputIDsSpec(tx, |tx.inputs|, tx.inputs[k].entry.spentOutputId);
    }
  }

  lemma {:induction false} TxSpentOutputIDsSpec(tx: Tx, n: nat, id: Hash)
    requires n <= |tx.inputs|
    ensures id in TxSpentOutputIDs(tx, n) <==>
      exists k :: 0 <= k < n && SpendsAt(tx, k) && id == tx.inputs[k].entry.spentOutputId
  {
    if n > 0 {
      TxSpentOutputIDsSpec(tx, n - 1, id);
    }
  }

  /** A record is extracted as created exactly when it is the record of a non-retirement output of the block. */
  lemma CreatedOutputsSpec(txs: seq<Tx>, r: RawOutput)
    ensures r in CreatedOutputs(txs) <==>
      exists i, j :: 0 <= i < |txs| && CreatesAt(txs[i], j) && r == CreatedRaw(txs[i], j)
  {
    if r in CreatedOutputs(txs) {
      CreatedOutputsSound(txs, r);
    }
    if exists i, j :: 0 <= i < |txs| && CreatesAt(txs[i], j) && r == CreatedRaw(txs[i], j) {
      var i, j :| 0 <= i < |txs| && CreatesAt(txs[i], j) && r == CreatedRaw(txs[i], j);
      CreatedOutputsComplete(txs, i, j);
    }
  }

  lemma {:induction false} CreatedOutputsSound(txs: seq<Tx>, r: RawOutput)
    requires r in CreatedOutputs(txs)
    ensures exists i, j :: 0 <= i < |txs| && CreatesAt(txs[i], j) && r == CreatedRaw(txs[i], j)
  {
    var init, tx := txs[..|txs| - 1], txs[|txs| - 1];
    if r in CreatedOutputs(init) {
      CreatedOutputsSound(init, r);
      var i, j :| 0 <= i < |init| && CreatesAt(init[i], j) && r == CreatedRaw(init[i], j);
      assert txs[i] == init[i];
    } else {
      TxCreatedOutputsSpec(tx, |tx.outputs|, r);
      var j :| 0 <= j < |tx.outputs| && CreatesAt(tx, j) && r == CreatedRaw(tx, j);
      assert txs[|txs| - 1] == tx;
    }
  }

  lemma {:induction false} CreatedOutputsComplete(txs: seq<Tx>, i: int, j: int)
    requires 0 <= i < |txs| && CreatesAt(txs[i], j)
    ensures CreatedRaw(txs[i], j) in CreatedOutputs(txs)
  {
    var init, tx := txs[..|txs| - 1], txs[|txs| - 1];
    if i < |init| {
      assert init[i] == txs[i];
      CreatedOutputsComplete(init, i, j);
    } else {
      TxCreatedOutputsSpec(tx, |tx.outputs|, CreatedRaw(tx, j));
    }
  }

  lemma {:induction false} TxCreatedOutputsSpec(tx: Tx, n: nat, r: RawOutput)
    requires n <= |tx.outputs|
    ensures r in TxCreatedOutputs(tx, n) <==> exists j :: 0 <= j < n && CreatesAt(tx, j) && r == CreatedRaw(tx, j)
  {
    if n > 0 {
      TxCreatedOutputsSpec(tx, n - 1, r);
    }
  }

  /** The ids a reversal deletes are, position by position, the ids of the records a confirmation extracts. */
  lemma {:induction false} CreatedOutputIDsMatch(txs: seq<Tx>)
    ensures |CreatedOutputIDs(txs)| == |CreatedOutputs(txs)|
    ensures forall k | 0 <= k < |CreatedOutputIDs(txs)| :: CreatedOutputIDs(txs)[k] == CreatedOutputs(txs)[k].outputId
  {
    if txs != [] {
      var init, tx := txs[..|txs| - 1], txs[|txs| - 1];
      CreatedOutputIDsMatch(init);
      TxCreatedOutputIDsMatch(tx, |tx.outputs|);
    }
  }

  lemma {:induction false} TxCreatedOutputIDsMatch(tx: Tx, n: nat)
    requires n <= |tx.outputs|
    ensures |TxCreatedOutputIDs(tx, n)| == |TxCreatedOutputs(tx, n)|
    ensures forall k | 0 <= k < |TxCreatedOutputIDs(tx, n)| :: TxCreatedOutputIDs(tx, n)[k] == TxCreatedOutputs(tx, n)[k].outputId
  {
    if n > 0 {
      TxCreatedOutputIDsMatch(tx, n - 1);
    }
  }

  /** An id is deleted by a reversal exactly when it is the id of a non-retirement output of the block. */
  lemma CreatedOutputIDsSpec(txs: seq<Tx>, id: Hash)
    ensures id in CreatedOutputIDs(txs) <==>
      exists i, j :: 0 <= i < |txs| && CreatesAt(txs[i], j) && txs[i].outputs[j].id == id
  {
    var ids, outs := CreatedOutputIDs(txs), CreatedOutputs(txs);
    CreatedOutputIDsMatch(txs);
    if id in ids {
      var k :| 0 <= k < |ids| && ids[k] == id;
      CreatedOutputsSpec(txs, outs[k]);
      var i, j :| 0 <= i < |txs| && CreatesAt(txs[i], j) && outs[k] == CreatedRaw(txs[i], j);
      assert txs[i].outputs[j].id == id;
    }
    if exists i, j :: 0 <= i < |txs| && CreatesAt(txs[i], j) && txs[i].outputs[j].id == id {
      var i, j :| 0 <= i < |txs| && CreatesAt(txs[i], j) && txs[i].outputs[j].id == id;
      CreatedOutputsSpec(txs, CreatedRaw(txs[i], j));
      var k :| 0 <= k < |outs| && outs[k] == CreatedRaw(txs[i], j);
      assert ids[k] == id;
    }
  }

  /**
   * A record is restored by a reversal exactly when some input of the block
   * spends its id and the spent entry is an output entry.
   */
  lemma RestoredOutputsSpec(txs: seq<Tx>, r: RawOutput)
    ensures r in RestoredOutputs(txs) <==>
      exists i, k :: 0 <= i < |txs| && RestoresAt(txs[i], k) && r == RestoredAt(txs[i], k)
  {
    if r in RestoredOutputs(txs) {
      RestoredOutputsSound(txs, r);
    }
    if exists i, k :: 0 <= i < |txs| && RestoresAt(txs[i], k) && r == RestoredAt(txs[i], k) {
      var i, k :| 0 <= i < |txs| && RestoresAt(txs[i], k) && r == RestoredAt(txs[i], k);
      RestoredOutputsComplete(txs, i, k);
    }
  }

  lemma {:induction false} RestoredOutputsSound(txs: seq<Tx>, r: RawOutput)
    requires r in RestoredOutputs(txs)
    ensures exists i, k :: 0 <= i < |txs| && RestoresAt(txs[i], k) && r == RestoredAt(txs[i], k)
  {
    var init, tx := txs[..|txs| - 1], txs[|txs| - 1];
    if r in RestoredOutputs(init) {
      RestoredOutputsSound(init, r);
      var i, k :| 0 <= i < |init| && RestoresAt(init[i], k) && r == RestoredAt(init[i], k);
      assert txs[i] == init[i];
    } else {
      TxRestoredOutputsSpec(tx, |tx.inputs|, r);
      var k :| 0 <= k < |tx.inputs| && RestoresAt(tx, k) && r == RestoredAt(tx, k);
      assert txs[|txs| - 1] == tx;
    }
  }

  lemma {:induction false} RestoredOutputsComplete(txs: seq<Tx>, i: int, k: int)
    requires 0 <= i < |txs| && RestoresAt(txs[i], k)
    ensures RestoredAt(txs[i], k) in RestoredOutputs(txs)
  {
    var init, tx := txs[..|txs| - 1], txs[|txs| - 1];
    if i < |init| {
      assert init[i] == txs[i];
      RestoredOutputsComplete(init, i, k);
    } else {
      TxRestoredOutputsSpec(tx, |tx.inputs|, RestoredAt(tx, k));
    }
  }

  lemma {:induction false} TxRestoredOutputsSpec(tx: Tx, n: nat, r: RawOutput)
    requires n <= |tx.inputs|
    ensures r in TxRestoredOutputs(tx, n) <==> exists k :: 0 <= k < n && RestoresAt(tx, k) && r == RestoredAt(tx, k)
  {
    if n > 0 {
      TxRestoredOutputsSpec(tx, n - 1, r);
    }
  }

  /** Every output a reversal restores is one whose key the confirmation of the same block deletes. */
  lemma RestoredAreSpent(txs: seq<Tx>, r: RawOutput)
    requires r in RestoredOutputs(txs)
    ensures r.outputId in SpentOutputIDs(txs)
  {
    RestoredOutputsSpec(txs, r);
    SpentOutputIDsSpec(txs, r.outputId);
  }

  // ---- outputs left unspent by the block ----

  /** The records of `outs` whose id is not among `spent`, in order. */
  function Unspent(outs: seq<RawOutput>, spent: seq<Hash>): (kept: seq<RawOutput>)
    decreases |outs|
  {
    if outs == [] then []
    else Unspent(outs[..|outs| - 1], spent) + (if outs[|outs| - 1].outputId in spent then [] else [outs[|outs| - 1]])
  }

  lemma UnspentSnoc(outs: seq<RawOutput>, o: RawOutput, spent: seq<Hash>)
    ensures Unspent(outs + [o], spent) == Unspent(outs, spent) + (if o.outputId in spent then [] else [o])
  {
    assert (outs + [o])[..|outs|] == outs;
  }

  /** A record survives the filter exactly when it was given and its id is not spent. */
  lemma {:induction false} UnspentSpec(outs: seq<RawOutput>, spent: seq<Hash>, r: RawOutput)
    ensures r in Unspent(outs, spent) <==> r in outs && r.outputId !in spent
  {
    if outs != [] {
      var init := outs[..|outs| - 1];
      UnspentSpec(init, spent, r);
      assert outs == init + [outs[|outs| - 1]];
    }
  }
}
