/**
 * The parts of a block, of its legacy transactions and of their entry graph
 * that the wallet indexer and the query annotator read.
 *
 * The entry graph is reduced to what the two readers look at: for each input,
 * the variant of its entry (spend, issuance or anything else) and, for a spend,
 * the spent output entry when it is an output entry; for each output, its
 * result id and whether its entry is an output entry or a retirement.
 */
module Ledger {
  import opened Wrappers

  type Bytes = seq<bv8>

  /** A 32-byte content hash (output ids, asset ids, transaction ids); only equality matters. */
  type Hash = Bytes

  const Uint32Modulus: nat := 0x1_0000_0000

  /** Go's `uint32`. */
  type Uint32 = x: nat | x < Uint32Modulus

  datatype AssetAmount = AssetAmount(assetId: Hash, amount: nat)

  /** Where the value of an output entry comes from: `Source.Ref`, `Source.Value`, `Source.Position`. */
  datatype ValueSource = ValueSource(ref: Hash, value: AssetAmount, position: nat)

  /** A `bc.Output` entry: its value source, its control program and the hash of its reference data. */
  datatype OutputEntry = OutputEntry(source: ValueSource, controlProgram: Bytes, data: Hash)

  /**
   * The entry an input id resolves to. For a spend, `spentOutput` is the entry
   * stored under the spent output id when that entry is a `bc.Output`, and None
   * when it is anything else.
   */
  datatype InputEntry =
    | SpendEntry(spentOutputId: Hash, spentOutput: Option<OutputEntry>)
    | IssuanceEntry
    | OtherEntry

  /** The entry a result id resolves to: a payment output, or anything else (a retirement). */
  datatype ResultEntry = OutputResult(output: OutputEntry) | Retirement

  /**
   * A legacy transaction input together with the entry of its input id.
   * `controlProgram` is what the legacy input reports for a spend and
   * `issuanceProgram` what it reports for an issuance.
   */
  datatype TxInput = TxInput(
    assetAmount: AssetAmount,
    referenceData: Bytes,
    controlProgram: Bytes,
    issuanceProgram: Bytes,
    entry: InputEntry)

  /**
   * A legacy transaction output together with its output id (the same id as
   * its result id) and the entry that id resolves to.
   */
  datatype TxOutput = TxOutput(
    assetAmount: AssetAmount,
    controlProgram: Bytes,
    referenceData: Bytes,
    id: Hash,
    result: ResultEntry)

  datatype Tx = Tx(id: Hash, referenceData: Bytes, inputs: seq<TxInput>, outputs: seq<TxOutput>)

  datatype Block = Block(height: nat, transactions: seq<Tx>)
}
