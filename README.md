# Account-UTXO indexer and annotated transactions

This project models two parts of the wallet and query layers of a Bytom node.

The first part is the wallet's account-UTXO indexer. It keeps, for each
unspent output that belongs to one of the wallet's accounts, a record keyed
by the output's id:

- Confirming a block (`BuildAccountUTXOs`) writes into a write batch:
  - an unconditional delete for every output the block spends;
  - then an upsert of the persisted record for every output the block
    creates that the wallet owns.
- Reversing a block (`ReverseAccountUTXOs`) does the mirror image:
  - it upserts the records of the owned outputs the block spent;
  - unless an upsert fails to encode, it then deletes every output the
    block created.
- Ownership is resolved once per distinct script (`loadAccountInfo`). The
  script's hash names a stored control program. That program must decode,
  and the account it names must exist.
- The batch is committed by the caller. The model commits it with
  `Storage.Apply` to state what a confirmation or a reversal leaves in the
  table.

The second part is the query layer's projection of a legacy transaction into
its annotated, JSON-facing form (`BuildAnnotatedTransaction`). It also models
the `Bool` type that reads and writes itself as `"yes"`/`"no"`.

Modules, in dependency order:

- `Wrappers`: `Option`, `Result`.
- `Ledger`: hashes, `uint32`, asset amounts, the entry variants of a legacy transaction, transactions and blocks.
- `Account`: storage keys, the stored control program and the persisted UTXO record.
- `Storage`: the key/value table and the `Batch` class, a list of set/delete operations, with the meaning of committing them.
- `Extraction`: `rawOutput` and the reference definitions of what a block spends, creates and restores.
- `Ownership`: the wallet's read-only view (store, hash, decoder, encoder), `Resolve`, and the in-order reference `AccountOutputs`.
- `Records`: the persisted record of an owned output and the sets an upsert issues.
- `Indexer`: the indexer's functions as methods, and lemmas about the table a committed batch leaves.
- `Query`: `Bool` and the annotated transaction, input and output.

## Model

| member | source | states |
|---|---|---|
| Indexer.PrevoutDBKeys | blockchain/wallet/indexer.go:129-138 | returns the spent-output ids of the block, transaction by transaction and input by input, skipping inputs that are not spends |
| Extraction.SpentOutputIDsSpec | blockchain/wallet/indexer.go:129-138 | an id is listed exactly when some input of some transaction is a spend of that output |
| Extraction.SpentOutputIDsSound | blockchain/wallet/indexer.go:130-134 | every listed id comes from a spend input of the block |
| Extraction.SpentOutputIDsComplete | blockchain/wallet/indexer.go:130-134 | every spend input of the block contributes its id |
| Extraction.CreatedOutputsSpec | blockchain/wallet/indexer.go:99-120 | a raw record is extracted as created exactly when it is the record of a non-retirement output of the block, with that output's id, value, script, transaction, truncated position and provenance |
| Extraction.CreatedOutputsSound | blockchain/wallet/indexer.go:101-119 | every extracted record is the record of some non-retirement output |
| Extraction.CreatedOutputsComplete | blockchain/wallet/indexer.go:101-119 | every non-retirement output is extracted |
| Extraction.CreatedOutputIDsSpec | blockchain/wallet/indexer.go:74-85 | an id is deleted by a reversal exactly when it is the id of a non-retirement output of the block |
| Extraction.CreatedOutputIDsMatch | blockchain/wallet/indexer.go:74-85 | the ids a reversal deletes are, position by position, the ids of the records a confirmation extracts |
| Extraction.RestoredOutputsSpec | blockchain/wallet/indexer.go:41-66 | a record is restored exactly when it is rebuilt from the output entry that some spend input of the block consumes, when that entry is present |
| Extraction.RestoredOutputsSound | blockchain/wallet/indexer.go:42-65 | every restored record comes from such a spend input |
| Extraction.RestoredOutputsComplete | blockchain/wallet/indexer.go:42-65 | every spend input whose spent entry is present contributes its record |
| Extraction.RestoredAreSpent | blockchain/wallet/indexer.go:41-66 | every output a reversal restores is one whose key the confirmation of the same block deletes |
| Indexer.GroupOutputsByScript | blockchain/wallet/indexer.go:144-148 | buckets the outputs by script bytes, each bucket in input order |
| Ownership.GroupByScriptSpec | blockchain/wallet/indexer.go:144-148 | there is a bucket exactly for each script of the input, and the bucket of each script holds exactly the outputs with that script, in input order |
| Ownership.ResolveIgnoresUTXORecords | blockchain/wallet/indexer.go:156-166 | the registry lookup reads only control-program and account keys of the store, so committing a batch that touches only UTXO records changes no lookup |
| Indexer.LookupControlProgram | blockchain/wallet/indexer.go:155-169 | the lookup fails exactly when the script's hash names no stored control program, the stored program does not decode, or the account it names is absent; otherwise it yields the decoded program, whose account is stored |
| Indexer.AppendGroup | blockchain/wallet/indexer.go:171-179 | appends every output of a bucket, annotated with the bucket's owner, in bucket order |
| Indexer.LoadAccountInfo | blockchain/wallet/indexer.go:143-183 | for every visiting order of the scripts, the result is a permutation of the in-order reference: each output annotated with its owner, and outputs whose script does not resolve dropped |
| Ownership.AccountOutputsSpec | blockchain/wallet/indexer.go:140-183 | an annotated output is in the result exactly when its raw output was given, unchanged, and its script resolves to the owner it carries |
| Ownership.AccountOutputsKeep | blockchain/wallet/indexer.go:154-170 | a given output is kept exactly when its script resolves |
| Ownership.AccountOutputsBound | blockchain/wallet/indexer.go:150-182 | the result is never longer than the input |
| Ownership.SameScriptSameOwner | blockchain/wallet/indexer.go:171-179 | outputs with byte-identical scripts get the same account, key index and change flag |
| Ownership.SameScriptDroppedTogether | blockchain/wallet/indexer.go:154-170 | outputs with byte-identical scripts are kept together or dropped together |
| Indexer.UpsertConfirmedAccountOutputs | blockchain/wallet/indexer.go:188-211 | appends one set per owned output, in order, and stops at the first record that fails to encode; it reports success exactly when every set was issued |
| Records.UpsertOpsPrefix | blockchain/wallet/indexer.go:191-209 | the sets issued are, in order, the encodings of a prefix of the outputs; the upsert is complete exactly when that prefix is all of them, and otherwise it stopped at an output that fails to encode |
| Records.UpsertOpsComplete | blockchain/wallet/indexer.go:203-206 | an upsert completes exactly when every owned output encodes |
| Records.EncodedRecord | blockchain/wallet/indexer.go:192-208 | each upsert is a set under the output's id, of the encoding of a record whose fields are copied from the owned output |
| Records.UpsertedFromOwned | blockchain/wallet/indexer.go:191-209 | every set issued, in whatever order, is the upsert of one owned output |
| Records.UpsertedAll | blockchain/wallet/indexer.go:191-209 | when every owned output encodes, exactly one set is issued per owned output |
| Records.UpsertedAreSets | blockchain/wallet/indexer.go:191-209 | an upsert issues no deletes |
| Records.AllEncodableReordered | blockchain/wallet/indexer.go:191-209 | whether every owned output encodes does not depend on their order |
| Indexer.DeleteOutputs | blockchain/wallet/indexer.go:95-97 | appends one delete per spent id, in order |
| Indexer.CollectCreatedOutputs | blockchain/wallet/indexer.go:100-120 | returns the raw records of the non-retirement outputs of the block, in block order |
| Indexer.BuildAccountUTXOs | blockchain/wallet/indexer.go:89-127 | keeps what the batch held and appends the deletes of every spent id; every further operation is, in some order, the upsert of an owned created output |
| Indexer.DeleteCreatedOutputs | blockchain/wallet/indexer.go:74-85 | appends one delete per non-retirement output of the block, in block order |
| Indexer.ReverseAccountUTXOs | blockchain/wallet/indexer.go:34-87 | keeps what the batch held and appends the upserts of the owned restored outputs, in some order; the deletes of the created outputs follow exactly when every restored record encodes |
| Indexer.UpsertedSetSource | blockchain/wallet/indexer.go:188-211 | each set of an upsert writes, under its id, the encoded record of one owned output of the list |
| Indexer.ConfirmedSetSource | blockchain/wallet/indexer.go:99-126 | each set of a confirmation writes, under its id, the encoded record of an owned non-retirement output the block creates |
| Indexer.ConfirmationIndexesOnlyOwned | blockchain/wallet/indexer.go:89-127 | after committing a confirmation, a record that was absent belongs to a non-retirement output of the block whose script resolves, and holds that output's encoded record |
| Indexer.ConfirmationIndexesOwned | blockchain/wallet/indexer.go:89-127 | when every record encodes, every owned created output has a record after the commit, including one the block itself spends |
| Indexer.ConfirmationWritesRecord | blockchain/wallet/indexer.go:185-211 | when every record encodes and no other output of the block shares its id, an owned created output's key holds the encoding of that output's record after the commit, whatever the table held there before |
| Indexer.ConfirmationRemovesSpent | blockchain/wallet/indexer.go:93-97 | after committing a confirmation, no output the block spends has a record, provided the block does not also create that output |
| Indexer.ReversalRemovesCreated | blockchain/wallet/indexer.go:74-85 | after committing a reversal, no output the block created has a record, whatever came before the deletes |
| Indexer.ReversalRestoresOwned | blockchain/wallet/indexer.go:34-87 | when every restored record encodes, every owned spent output that the block did not create has a record after the commit |
| Indexer.ReversalRestoresRecord | blockchain/wallet/indexer.go:34-87 | when, in addition, no other input of the block spends the same output, that output's key holds the encoding of its restored record after the commit |
| Indexer.RestoredSetSource | blockchain/wallet/indexer.go:41-72 | each set of a reversal writes, under its id, the encoded record of an owned restored output, and that id is one the block spends |
| Indexer.ConfirmedKeyCreated | blockchain/wallet/indexer.go:99-126 | each set of a confirmation is keyed by the id of an output the block creates |
| Indexer.ReversalRewritesSpent | blockchain/wallet/indexer.go:41-72 | on a table from before the block, once the confirmation has removed a spent output's record, the reversal's upserts give that key back exactly what it read before the block |
| Indexer.ConfirmThenReverse | blockchain/wallet/indexer.go:34-127 | on a table from before the block (no created output has a record, and a spent output the block did not create has one exactly when the wallet owns it, holding the record a reversal rebuilds), committing the confirmation and then the reversal gives back that table unchanged, provided every restored record encodes: every earlier record is unchanged and no created output keeps a record |
| Indexer.IntraBlockSpendKeepsRecord | blockchain/wallet/indexer.go:93-126 | for a block whose second transaction spends the owned output its first transaction creates, that output is among the spent ids and still has a record after the confirmation is committed |
| Indexer.UnspentCreatedOutputs | blockchain/wallet/indexer.go:100-120 | returns the raw records of the non-retirement outputs of the block whose ids are not spent, in block order |
| Extraction.UnspentSpec | blockchain/wallet/indexer.go:93-120 | a record survives the filter exactly when it was given and its id is not spent |
| Indexer.BuildUnspentAccountUTXOs | blockchain/wallet/indexer.go:89-127 | as the confirmation, but the upserts cover only the owned created outputs that the block does not spend |
| Indexer.ConfirmationRemovesEverySpent | blockchain/wallet/indexer.go:93-97 | with the corrected confirmation, no output the block spends has a record after the commit, with no side condition |
| Indexer.ConfirmationIndexesUnspentOwned | blockchain/wallet/indexer.go:99-126 | with the corrected confirmation, when every record encodes, every owned created output the block does not spend has a record after the commit |
| Storage.ApplyAt | blockchain/wallet/indexer.go:95-97 | a committed key reads what the last operation of the batch on it wrote, or what it read before when no operation touched it |
| Storage.LastOnSpec | blockchain/wallet/indexer.go:95-97 | the last operation on a key is an operation of the batch on that key, and there is none exactly when no operation touches the key |
| Storage.ApplyIdempotent | blockchain/wallet/indexer.go:185-187 | committing the same batch twice leaves the same table as committing it once, so an upsert overwrites rather than duplicates |
| Storage.ApplyUntouched | blockchain/wallet/indexer.go:95-97 | a key no operation touches keeps what it read |
| Storage.ApplyConcat | blockchain/wallet/indexer.go:93-126 | committing two batches one after the other is committing their concatenation |
| Storage.DeletedKeysAbsent | blockchain/wallet/indexer.go:74-85 | deletes issued last win: none of their keys survives the commit |
| Storage.PresentAfterSets | blockchain/wallet/indexer.go:208 | a key that some operation sets and no operation deletes is present after the commit |
| Storage.IntroducedBySet | blockchain/wallet/indexer.go:208 | a key absent before the commit and present after it was written by a set of the batch, with the value it holds |
| Storage.DeleteOpsKeys | blockchain/wallet/indexer.go:96 | every operation of a run of deletes is the delete of the record of one of its ids |
| Query.Bool.MarshalJSON | blockchain/query/annotated.go:92-97 | never fails, and gives `"yes"` exactly for true and `"no"` exactly for false |
| Query.Bool.UnmarshalJSON | blockchain/query/annotated.go:99-105 | never fails, and sets true exactly when the raw bytes are `"yes"`; anything else, malformed input included, sets false |
| Query.MarshalRoundTrip | blockchain/query/annotated.go:92-105 | unmarshalling what a boolean marshals to gives that boolean back |
| Query.BuildAnnotatedInput | blockchain/query/annotated.go:140-167 | copies asset id and amount; the reference data is kept when it is valid JSON and is `{}` otherwise; the type is "spend", "issue" or "" by entry kind; the control program and spent id are set only for a spend, and the issuance program only for an issuance |
| Query.BuildAnnotatedOutput | blockchain/query/annotated.go:169-192 | copies the id, position, asset, amount and control program, leaves the transaction id unset, and screens the reference data; the type is "retire" exactly when the program is unspendable, and "control" otherwise |
| Query.BuildAnnotatedTransaction | blockchain/query/annotated.go:115-138 | copies the id, height and position; the transaction count is truncated to 32 bits; the reference data is screened; there is one annotated input per input, where input `i` is built from input `i mod 2^32`, and one annotated output per output, in order |

## Left out

- Storage: the database engine, its snapshots and the atomic commit of a batch are not modelled. A batch is a list of operations, and committing it is the fold `Storage.Apply`.
- Storage, single store: the registry keys and the UTXO records live in one store. The commit lemmas are stated over a table `t` apart from `Wallet.db`, from which the registry is read. This loses nothing: the indexer's batches touch only UTXO keys, and `Ownership.ResolveIgnoresUTXORecords` shows such a commit changes no lookup.
- Hashing, JSON encoding and decoding: SHA3-256, the decoding of a stored control program and the encoding of a UTXO record are abstract functions of the wallet (`Ownership.Wallet`). Whether they succeed is a parameter of the model.
- Query.Checks: `IsValidJSON` (a full JSON parse) and `vmutil.IsUnspendable` (an opcode check) are abstract predicates. The model does not define them.
- Indexer.LookupControlProgram: the Go code decodes each stored program into one `CtrlProgram` value that it reuses across scripts. A stored record that omits fields would therefore inherit them from the previous script. The model decodes each record on its own.
- Indexer.LoadAccountInfo: Go's map iteration order is not modelled, because the language leaves it unspecified. The loop picks any remaining script, and the contract states the result only up to permutation.
- Indexer.BuildAccountUTXOs, Indexer.ReverseAccountUTXOs: the logging of an upsert error is not modelled. The error ends the method, as in the source.
- Indexer.UpsertConfirmedAccountOutputs: the block parameter, which the source never reads, is dropped.
- Indexer.UpsertConfirmedAccountOutputs: the error text wrapped around the encoder's error is reduced to a fixed message.
- Indexer: the grouping, deleting, collecting and per-bucket loops are separate methods (`GroupOutputsByScript`, `DeleteOutputs`, `CollectCreatedOutputs`, `DeleteCreatedOutputs`, `AppendGroup`, `LookupControlProgram`). They perform the same steps in the same order as the inline loops of the source.
- Ledger: the transaction entry graph is reduced to what the indexer and the projection read.
  - Each input entry is a spend (with its spent id and the spent output entry, when the transaction holds it), an issuance, or another kind.
  - Each output's result is an output entry or a retirement.
  - Output ids are given, not computed.
- Query: the block timestamp and block hash of an annotated transaction are not modelled. Neither are the alias and account fields of annotated inputs and outputs (asset alias, account id, account alias, account tags), which this projection never fills.
- Query: the difference between a nil and an empty hex byte string is not modelled. Both are the empty sequence.
- Query.BuildAnnotatedTransaction: inputs and outputs are numbered by unbounded integers. Only the explicit `uint32` conversions of the source are modelled.
- Widths: the `uint64` amounts, key indexes and source positions are unbounded naturals. The source never does arithmetic on them.
- Indexer.ConfirmThenReverse: the round trip is proved only for tables whose records of the spent outputs are exactly what a reversal rebuilds from the spent entries. A record that was written with other data, for example from a local transaction before confirmation, comes back as the rebuilt record, not as it was.
- Output ids are content hashes, yet a transaction may spend an output created earlier in the same block, so the order of the two confirmation steps matters. The model follows the code; see Findings.

## Findings

| source | as written | input that shows it | evidently intended | confidence | as-written member | corrected member |
|---|---|---|---|---|---|---|
| blockchain/wallet/indexer.go:93-126 | a confirmation issues the deletes of the spent outputs before the upserts of the created outputs, and the upserts are not filtered by the spent ids | a block whose first transaction creates output `[1]`, paying to a script the wallet owns, and whose second transaction spends `[1]`: after the commit, `[1]` still has a record | an output spent within the block it was created in is not indexed as unspent | medium, not executed | Indexer.IntraBlockSpendKeepsRecord (about Indexer.BuildAccountUTXOs); Indexer.ConfirmationIndexesOwned states it for every block | Indexer.BuildUnspentAccountUTXOs, with Indexer.ConfirmationRemovesEverySpent and Indexer.ConfirmationIndexesUnspentOwned |
