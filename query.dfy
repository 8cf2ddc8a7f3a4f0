/**
 * The query layer's projection of a legacy transaction into its annotated,
 * JSON-facing form, and the `"yes"`/`"no"` boolean codec it uses.
 *
 * `IsValidJSON` (a full JSON parse) and `vmutil.IsUnspendable` (a check of the
 * program's first opcode) are left abstract, as the two predicates of `Checks`.
 */
module Query {
  import opened Wrappers
  import opened Ledger

  /** The JSON text `"yes"`, quotes included. */
  const Yes: Bytes := [0x22, 0x79, 0x65, 0x73, 0x22]

  /** The JSON text `"no"`, quotes included. */
  const No: Bytes := [0x22, 0x6e, 0x6f, 0x22]

  /** The JSON text `{}`, substituted for reference data, asset definitions and tags. */
  const EmptyJSONObject: Bytes := [0x7b, 0x7d]

  /** A boolean that reads and writes itself as `"yes"` or `"no"`. */
  class Bool {
    var value: bool

    constructor (b: bool)
      ensures value == b
    {
      value := b;
    }

    /** Never fails; `"yes"` exactly for true and `"no"` for false. */
    function MarshalJSON(): (r: Result<Bytes>)
      reads this
      ensures r.Ok?
      ensures r.value == Yes <==> value
      ensures r.value == No <==> !value
    {
      if value then Ok(Yes) else Ok(No)
    }

    /** Never fails; true exactly when the raw bytes are `"yes"`, false for anything else, malformed input included. */
    method UnmarshalJSON(raw: Bytes) returns (err: Option<string>)
      modifies this
      ensures value <==> raw == Yes
      ensures err.None?
    {
      value := false;
      if raw == Yes {
        value := true;
      }
      return None;
    }
  }

  /** Unmarshalling what a boolean marshals to gives that boolean back. */
  method MarshalRoundTrip(b: bool) returns (decoded: bool)
    ensures decoded == b
  {
    var original := new Bool(b);
    var raw := original.MarshalJSON();
    var target := new Bool(false);
    var err := target.UnmarshalJSON(raw.value);
    decoded := target.value;
  }

  /** The two foreign predicates the projection consults. */
  datatype Checks = Checks(isValidJSON: Bytes -> bool, isUnspendable: Bytes -> bool)

  /**
   * An annotated input. `issuanceProgram` and `controlProgram` stay empty
   * unless the input's entry is an issuance, respectively a spend.
   */
  datatype AnnotatedInput = AnnotatedInput(
    kind: string,
    assetId: Hash,
    assetDefinition: Bytes,
    assetTags: Bytes,
    amount: nat,
    issuanceProgram: Bytes,
    controlProgram: Bytes,
    spentOutputId: Option<Hash>,
    referenceData: Bytes)

  /** An annotated output; `transactionId` is never filled in by the projection. */
  datatype AnnotatedOutput = AnnotatedOutput(
    kind: string,
    outputId: Hash,
    transactionId: Option<Hash>,
    position: int,
    assetId: Hash,
    assetDefinition: Bytes,
    assetTags: Bytes,
    amount: nat,
    controlProgram: Bytes,
    referenceData: Bytes)

  /** An annotated transaction (block time and block hash are not part of this model). */
  datatype AnnotatedTx = AnnotatedTx(
    id: Hash,
    blockHeight: nat,
    position: Uint32,
    blockTransactionsCount: Uint32,
    referenceData: Bytes,
    inputs: seq<AnnotatedInput>,
    outputs: seq<AnnotatedOutput>)

  // ---- what an annotation says about its original ----

  /** `shown` is `raw` when `raw` is valid JSON and the `{}` sentinel otherwise. */
  predicate ShowsReferenceData(c: Checks, raw: Bytes, shown: Bytes) {
    && (c.isValidJSON(raw) ==> shown == raw)
    && (!c.isValidJSON(raw) ==> shown == EmptyJSONObject)
  }

  /** `a` annotates input `orig`: value copied, classified by its entry, reference data screened. */
  predicate AnnotatesInput(c: Checks, orig: TxInput, a: AnnotatedInput) {
    && a.assetId == orig.assetAmount.assetId && a.amount == orig.assetAmount.amount
    && a.assetDefinition == EmptyJSONObject && a.assetTags == EmptyJSONObject
    && ShowsReferenceData(c, orig.referenceData, a.referenceData)
    && (a.kind == "spend" <==> orig.entry.SpendEntry?)
    && (a.kind == "issue" <==> orig.entry.IssuanceEntry?)
    && (a.kind == "" <==> orig.entry.OtherEntry?)
    && (orig.entry.SpendEntry? ==>
          a.spentOutputId == Some(orig.entry.spentOutputId) && a.controlProgram == orig.controlProgram)
    && (!orig.entry.SpendEntry? ==> a.spentOutputId.None? && a.controlProgram == [])
    && (orig.entry.IssuanceEntry? ==> a.issuanceProgram == orig.issuanceProgram)
    && (!orig.entry.IssuanceEntry? ==> a.issuanceProgram == [])
  }

  /** `a` annotates output `idx` of `tx`: id, position and value copied, retirements told apart by their program. */
  predicate AnnotatesOutput(c: Checks, tx: Tx, idx: int, a: AnnotatedOutput)
    requires 0 <= idx < |tx.outputs|
  {
    var orig := tx.outputs[idx];
    && a.outputId == orig.id && a.transactionId.None? && a.position == idx
    && a.assetId == orig.assetAmount.assetId && a.amount == orig.assetAmount.amount
    && a.assetDefinition == EmptyJSONObject && a.assetTags == EmptyJSONObject
    && a.controlProgram == orig.controlProgram
    && ShowsReferenceData(c, orig.referenceData, a.referenceData)
    && (a.kind == "retire" <==> c.isUnspendable(orig.controlProgram))
    && (a.kind == "control" <==> !c.isUnspendable(orig.controlProgram))
  }

  // ---- the projection ----

  /** Annotates input `i` of `tx`. */
  method BuildAnnotatedInput(c: Checks, tx: Tx, i: Uint32) returns (a: AnnotatedInput)
    requires i < |tx.inputs|
    ensures AnnotatesInput(c, tx.inputs[i], a)
  {
    var orig := tx.inputs[i];
    a := AnnotatedInput("", orig.assetAmount.assetId, EmptyJSONObject, EmptyJSONObject, orig.assetAmount.amount,
                        [], [], None, EmptyJSONObject);
    if c.isValidJSON(orig.referenceData) {
      a := a.(referenceData := orig.referenceData);
    }
    match orig.entry
    case SpendEntry(spentOutputId, _) =>
      a := a.(kind := "spend", controlProgram := orig.controlProgram, spentOutputId := Some(spentOutputId));
    case IssuanceEntry =>
      a := a.(kind := "issue", issuanceProgram := orig.issuanceProgram);
    case OtherEntry =>
  }

  /** Annotates output `idx` of `tx`. */
  method BuildAnnotatedOutput(c: Checks, tx: Tx, idx: int) returns (a: AnnotatedOutput)
    requires 0 <= idx < |tx.outputs|
    ensures AnnotatesOutput(c, tx, idx, a)
  {
    var orig := tx.outputs[idx];
    a := AnnotatedOutput("", orig.id, None, idx, orig.assetAmount.assetId, EmptyJSONObject, EmptyJSONObject,
                         orig.assetAmount.amount, orig.controlProgram, EmptyJSONObject);
    if c.isValidJSON(orig.referenceData) {
      a := a.(referenceData := orig.referenceData);
    }
    if c.isUnspendable(a.controlProgram) {
      a := a.(kind := "retire");
    } else {
      a := a.(kind := "control");
    }
  }

  /**
   * Annotates transaction `orig`, found at `indexInBlock` in block `b`: one
   * annotated input per input and one annotated output per output, in order.
   * Each input index passes through a `uint32`, so input `i` is annotated from
   * input `i mod 2^32`; the block's transaction count is likewise truncated.
   */
  method BuildAnnotatedTransaction(c: Checks, orig: Tx, b: Block, indexInBlock: Uint32) returns (tx: AnnotatedTx)
    ensures tx.id == orig.id && tx.blockHeight == b.height
    ensures tx.position == indexInBlock
    ensures tx.blockTransactionsCount == |b.transactions| % Uint32Modulus
    ensures ShowsReferenceData(c, orig.referenceData, tx.referenceData)
    ensures |tx.inputs| == |orig.inputs|
    ensures forall i | 0 <= i < |orig.inputs| ::
      i % Uint32Modulus < |orig.inputs| && AnnotatesInput(c, orig.inputs[i % Uint32Modulus], tx.inputs[i])
    ensures |tx.outputs| == |orig.outputs|
    ensures forall i | 0 <= i < |orig.outputs| :: AnnotatesOutput(c, orig, i, tx.outputs[i])
  {
    tx := AnnotatedTx(orig.id, b.height, indexInBlock, |b.transactions| % Uint32Modulus, EmptyJSONObject, [], []);
    if c.isValidJSON(orig.referenceData) {
      tx := tx.(referenceData := orig.referenceData);
    }
    for i := 0 to |orig.inputs|
      invariant tx.id == orig.id && tx.blockHeight == b.height && tx.position == indexInBlock
      invariant tx.blockTransactionsCount == |b.transactions| % Uint32Modulus
      invariant ShowsReferenceData(c, orig.referenceData, tx.referenceData)
      invariant tx.outputs == [] && |tx.inputs| == i
      invariant forall k | 0 <= k < i ::
        k % Uint32Modulus < |orig.inputs| && AnnotatesInput(c, orig.inputs[k % Uint32Modulus], tx.inputs[k])
    {
      var a := BuildAnnotatedInput(c, orig, i % Uint32Modulus);
      tx := tx.(inputs := tx.inputs + [a]);
    }
    for i := 0 to |orig.outputs|
      invariant tx.id == orig.id && tx.blockHeight == b.height && tx.position == indexInBlock
      invariant tx.blockTransactionsCount == |b.transactions| % Uint32Modulus
      invariant ShowsReferenceData(c, orig.referenceData, tx.referenceData)
      invariant |tx.inputs| == |orig.inputs|
      invariant forall k | 0 <= k < |orig.inputs| ::
        k % Uint32Modulus < |orig.inputs| && AnnotatesInput(c, orig.inputs[k % Uint32Modulus], tx.inputs[k])
      invariant |tx.outputs| == i
      invariant forall k | 0 <= k < i :: AnnotatesOutput(c, orig, k, tx.outputs[k])
    {
      var a := BuildAnnotatedOutput(c, orig, i);
      tx := tx.(outputs := tx.outputs + [a]);
    }
  }
}
