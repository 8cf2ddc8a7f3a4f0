/** The records and storage keys of the account package that the indexer reads and writes. */
module Account {
  import opened Ledger

  /**
   * Storage keys. Each constructor stands for one of the key builders
   * (`AccountUTXOKey`, `AccountCPKey`, `AccountKey`); as constructors they are
   * injective and never collide with each other.
   */
  datatype Key =
    | AccountUTXOKey(outputId: Hash)
    | AccountCPKey(scriptHash: Hash)
    | AccountKey(accountId: string)

  /** The ownership metadata registered for a control program. */
  datatype CtrlProgram = CtrlProgram(accountId: string, keyIndex: nat, change: bool)

  /** The persisted unspent-output record (`account.UTXO`). */
  datatype UTXO = UTXO(
    outputId: Hash,
    assetId: Hash,
    amount: nat,
    accountId: string,
    programIndex: nat,
    program: Bytes,
    sourceId: Hash,
    sourcePos: nat,
    refData: Hash,
    change: bool)
}
