# Supply-chain product lifecycle, modelled in Dafny

This project models the Hyperledger Fabric chaincode `SupplyChainContract`. The chaincode keeps
`Product` records in the ledger's world state. Each record is stored as one JSON document under
the key equal to the product's id. Its operations are:

- `InitLedger` seeds two fixed records, `p1` (Laptop) and `p2` (Smartphone).
- `CreateProduct` inserts a fresh record with status `"Manufactured"`.
- `UpdateProduct` merges new status, owner, description and category into a record.
- `TransferOwnership` changes a record's owner.
- `QueryProduct` and `ProductExists` read one record.
- `GetAllProducts` lists every record through a full range scan (assumed to return every
  stored key; see "## Left out").

The model is functional:

- `Ledger` (`ledger.dfy`) defines the `Product` record and the world state. The world state is
  an immutable `map<string, Product>`, where a key is present exactly when a record is stored
  under it. The module also defines the error kinds, a `Result` type usable with `:-`, and
  the write `Put`, which stores a record under its own `id` field as `putProduct` does.
  `Wf` (well keyed) says every record sits under its own id; `Valid` adds that nothing is stored under the
  empty id.
- `SupplyChain` (`supply_chain.dfy`) holds the operations. Each is a pure function from the
  state, the string arguments and the transaction timestamp to `Ok(new state)` or `Err(kind)`.
  A failed invocation commits nothing, so an `Err` carries no state. The read-only operations
  return only their answer.
- `KeyOrder` (`key_order.dfy`) defines the order in which the ledger's range scan is assumed
  to visit keys: byte-wise on UTF-8, which is the lexicographic order of characters. It proves the order is
  a strict total order and that an ascending listing of a key set is unique.
- `RangeScan` (`range_scan.dfy`) holds `GetAllProducts`, a method that visits the keys in
  ascending order with loop invariants.
- `Lifecycle` (`lifecycle.dfy`) holds lemmas that relate the operations: create-then-query,
  the update upsert, the listing after seeding, and invariants over any run of transactions.

The transaction timestamp is a parameter `TxTime`. It is either `Stamp(time)`, an opaque,
already formatted string, or `Unavailable`. This keeps the point at which each operation
reads the clock, and so which error it reports, as in the source.

The source's quirks are kept, not fixed:

- `CreateProduct` checks for a duplicate before it checks for an empty id. Nothing is ever
  stored under the empty id in a state reached from the empty ledger, so there the order is
  never observed (`Lifecycle.ReachableCreateEmptyId`).
- `UpdateProduct` creates a blank record for a missing id and ignores that creation's outcome.
  So with no timestamp, updating a missing id reports `DoesNotExist`, not `NoTimestamp`.
- `UpdateProduct` writes the merged record twice.
- `TransferOwnership` discards the existence check's error and the write's error.
- `InitLedger` writes with `putProduct` directly, so it overwrites existing `p1`/`p2`,
  including their `createdAt`.

`SupplyChain` assumes that a read sees the transaction's own earlier writes. Fabric's
`GetState` is documented not to do that. `CommittedReads` (`committed_reads.dfy`) models
`CreateProduct` and `UpdateProduct` with reads answered from the committed state; see
"## Findings".

## Model

| member | source | states |
|---|---|---|
| Ledger.Put | smartcontract.go:211-218 | A write stores the record under its own id, adds exactly that key, and leaves every other key's record as it was. |
| Ledger.GetTimestamp | smartcontract.go:29-35 | Reading the transaction timestamp yields the host's time exactly when it is available and fails with `NoTimestamp` otherwise; each operation reads it at the point the source does. |
| Ledger.PutTwice | smartcontract.go:152-156 | The double write of the merged record at the end of an update leaves the same state as a single write. |
| SupplyChain.ProductExists | smartcontract.go:220-227 | The existence check is true exactly when a record is stored under the id. |
| SupplyChain.QueryProduct | smartcontract.go:190-209 | The query succeeds exactly when the id is stored, returns exactly the stored record, and otherwise fails with `DoesNotExist`. |
| SupplyChain.PutAll | smartcontract.go:50-55 | Writing records in order adds exactly their ids as keys, leaves the records under other keys alone, and leaves the last record stored. |
| SupplyChain.InitLedger | smartcontract.go:38-58 | Seeding fails only when there is no timestamp. On success `p1` and `p2` hold the fixed Laptop and Smartphone records with one shared timestamp, overwriting earlier values, and no other key changes. |
| SupplyChain.CreateProduct | smartcontract.go:61-109 | Creation succeeds exactly for a fresh, non-empty id when a timestamp is available. A stored id gives `AlreadyExists`, checked before the empty-id `EmptyId`. On success the new record has the given fields, status "Manufactured" and `createdAt == updatedAt == timestamp`, and the existing records are untouched. |
| SupplyChain.UpdateProduct | smartcontract.go:112-159 | An empty id fails with `EmptyId`. Otherwise the update succeeds exactly when a timestamp is available; without one it reports `NoTimestamp` on a stored id and `DoesNotExist` on a missing one. On a stored id each of status, owner, description and category is replaced only by a non-empty argument, id, name and `createdAt` are kept, and `updatedAt` becomes the timestamp. A missing id is created blank with status "Manufactured" unless one is given. On well-keyed states no other key changes. |
| SupplyChain.TransferOwnership | smartcontract.go:162-188 | The transfer fails with `EmptyId`, `EmptyNewOwner`, `DoesNotExist` or `NoTimestamp`, in that order of checking, and otherwise succeeds. On well-keyed states only the record's owner and `updatedAt` change, and no key is added or altered elsewhere. |
| RangeScan.GetAllProducts | smartcontract.go:230-251 | Assuming the store's full scan returns every stored key, it visits each exactly once in ascending key order and returns the stored record for each key visited, in that order. |
| RangeScan.ScanUnique | smartcontract.go:231-231 | The full-range scan order is determined by the state alone: two ascending listings of the same state are identical. |
| Lifecycle.CreateThenQuery | smartcontract.go:93-106 | After a successful create, the existence check is true and the query returns a record with the given name, owner, description and category, status "Manufactured" and equal creation and update times. |
| Lifecycle.CreateChecksDuplicateFirst | smartcontract.go:63-74 | With a record under the empty key, creating the empty id reports a duplicate rather than an empty id. |
| Lifecycle.UpdateStatusOnly | smartcontract.go:133-150 | On well-keyed states, updating a stored record with only a new status changes exactly its status and `updatedAt`. |
| Lifecycle.UpdateUpserts | smartcontract.go:119-127 | Updating a missing non-empty id succeeds and creates the record with empty name, the given owner, `createdAt` set to the timestamp, and status "Manufactured" unless a status is given. |
| Lifecycle.InitThenListAll | smartcontract.go:44-48 | After seeding an empty ledger, the full scan lists exactly the keys `p1`, `p2` in that order and returns exactly the two seed records. |
| Lifecycle.ListedAreQueryable | smartcontract.go:237-249 | On well-keyed states, every record the full scan returns can be fetched again by the query under its own id, with the same value. |
| Lifecycle.StepFrame | smartcontract.go:37-188 | On well-keyed states, any one transaction, successful or not, keeps every stored key and adds only keys it names. It leaves the records under other keys unchanged and preserves well-keyedness and the absence of the empty id. |
| Lifecycle.StepKeepsCreatedAt | smartcontract.go:112-188 | On well-keyed states, create, update and transfer never change the creation time of a record that is already stored. |
| Lifecycle.RunValid | smartcontract.go:211-218 | Along any sequence of transactions from a valid state, every record stays keyed by its own id and nothing is ever stored under the empty id. |
| Lifecycle.RunKeepsKeys | smartcontract.go:220-227 | Records are never deleted: in every state, once the existence check is true for an id, it stays true after any further transactions. |
| Lifecycle.RunUntouched | smartcontract.go:220-227 | Along a run from a well-keyed state, an id that no transaction of the run names keeps its presence or absence and its record; from the empty ledger, the existence check stays false for it. |
| Lifecycle.ReachableValid | smartcontract.go:211-218 | Every state reached from the empty ledger by any transactions keeps each record under its own id and stores nothing under the empty id. |
| Lifecycle.NeverNamedNeverExists | smartcontract.go:221-227 | From the empty ledger, the existence check is false for every id that no transaction names. |
| Lifecycle.ReachableCreateEmptyId | smartcontract.go:63-74 | From the empty ledger, after any transactions, creating the empty id reports the empty id, never a duplicate. |
| CommittedReads.CreateProductOnPeer | smartcontract.go:61-109 | With reads that see only committed state, create never succeeds. It reports a duplicate, the empty id or a missing timestamp as the source checks them, and otherwise `CreationFailed` from the re-check after the write. |
| CommittedReads.UpdateProductOnPeer | smartcontract.go:112-159 | With reads that see only committed state, update of a missing non-empty id fails with `DoesNotExist`; on a stored id it behaves as `SupplyChain.UpdateProduct`. |
| CommittedReads.CreateFailsOnPeer | smartcontract.go:99-106 | On a fresh non-empty id with a timestamp, the intended create succeeds while the code as written on a committed-read peer returns `CreationFailed`. |
| CommittedReads.UpsertFailsOnPeer | smartcontract.go:124-131 | On a missing non-empty id with a timestamp, the intended update creates the record while the code as written on a committed-read peer returns `DoesNotExist`. |
| Lifecycle.RunKeepsCreatedAt | smartcontract.go:93-93 | Along a run without seeding from a well-keyed state, a stored record's creation time is written once and never changed. |

## Left out

- JSON encoding and decoding of records (`encoding/json`) is not modelled. Records are stored
  as values, so the encode and decode errors cannot occur, and neither can decoding a stored
  `null` into a nil record.
- Arguments that are not valid UTF-8 are not modelled. A Dafny `string` is a sequence of
  Unicode scalar values, while a Go `string` and a Fabric argument hold arbitrary bytes. On
  such an argument `json.Marshal` in `putProduct` replaces the invalid bytes with U+FFFD while
  `PutState` keys the record by the raw id. So, where the state database accepts such keys,
  the stored record's id differs from its key, a query returns the coerced fields rather than
  the given ones, and a later update writes under the coerced id. `Wf`, `ReachableValid` and
  `CreateThenQuery` hold only for valid UTF-8 arguments.
- Store I/O failures of `GetState`, `PutState` and `GetStateByRange`, and iterator errors, are
  not modelled: the map is total. So the ignored write errors in `UpdateProduct` and
  `TransferOwnership` have nothing to ignore, and the ignored existence-check error has no
  effect.
- SupplyChain.CreateProduct: the re-read after the write is modelled as a `CreationFailed`
  branch. It is never taken, because the model assumes a read sees the transaction's own
  write. `CommittedReads.CreateProductOnPeer` is the variant in which it is always taken.
- SupplyChain.TransferOwnership: the source's `QueryProduct` call after its own existence check
  can only succeed, so it is modelled as a direct lookup with no error branch.
- SupplyChain.UpdateProduct: the record-level postconditions for a stored id are stated for
  well-keyed states (`Wf`), the states the contract can reach (`Lifecycle.RunValid`). On a
  state with a record under a foreign key, the write would go to that record's own id. The
  same holds for the statement that no other key changes.
- SupplyChain.TransferOwnership: the postconditions on the key set, the untouched records and
  the new record are stated for well-keyed states (`Wf`) only. On a state with a record under
  a foreign key, the write goes to that record's own id and can add that key.
- Deriving the timestamp from the transaction header and formatting it as RFC 3339 are not
  modelled; the timestamp is an opaque input, with a possible failure. The source formats the
  header's seconds in the executing peer's local time zone and drops the sub-second part, so
  the string is not a function of the transaction alone. The single `Stamp` per transaction
  assumes every endorsing peer formats the same instant identically; peers in different time
  zones would produce different write sets.
- That `updatedAt` never decreases is not modelled, because timestamps are opaque strings
  and their order is the host's.
- Error message text is not modelled, including the `%v` of a possibly nil error in the
  not-found messages. Only the error kind is.
- Within one invocation, `SupplyChain` assumes a read sees the invocation's earlier writes.
  Fabric documents that `GetState` does not read a transaction's own uncommitted writes. The
  re-check in `CreateProduct`, the query after the upsert in `UpdateProduct`, and the lemmas
  `Lifecycle.CreateThenQuery` and `Lifecycle.UpdateUpserts` rest on this assumption. Without
  it, the code as written fails every create with "Product creation failed" and never
  upserts; `CommittedReads` models that behaviour.
- SupplyChain.PutAll: the contract promises only the last record and the untouched keys, not
  every record whose id is not repeated later. `InitLedger` states both seeded records.
- The scan order is assumed to be byte-wise on the UTF-8 keys, which is the order Fabric's
  state databases use for range queries. The source does not fix this order itself.
- The iterator's `Close` on every exit path is not modelled: there is no resource in a map
  model.
- RangeScan.GetAllProducts: the full scan is assumed to return every stored key. Fabric's
  shim turns the empty start key of `GetStateByRange("", "")` into `"\x01"`, so a record whose
  id begins with U+0000 is never listed. A non-paginated range query is also capped at the
  peer's `totalQueryLimit` (100000 by default). Ids beginning with U+0000 and listings longer
  than that limit are outside the model. `PutState` rejecting a key counts among the store
  failures above; that covers a leading U+0000 and, on CouchDB, a leading `_`.
- RangeScan.GetAllProducts: it also returns the keys it visited, so that the scan order can be
  stated. The source returns only the records.
- `main`, chaincode registration and the embedded `contractapi.Contract` are host plumbing and
  are not modelled.

## Findings

| source | as written | input that shows it | evidently intended | confidence | as-written member | corrected member |
|---|---|---|---|---|---|---|
| smartcontract.go:99-106 | After `putProduct`, `CreateProduct` re-reads existence with `GetState`. On a peer, `GetState` does not see the transaction's own pending write. | Empty ledger, `CreateProduct("p9", …)` with a timestamp: the re-read finds `p9` absent and returns "Product creation failed". | A fresh non-empty id is created and the call succeeds. | medium, not executed; relies on Fabric's documented `GetState` semantics | CommittedReads.CreateFailsOnPeer | Lifecycle.CreateThenQuery |
| smartcontract.go:124-131 | `UpdateProduct` on a missing id calls `CreateProduct`, ignores its result, then queries the id with `GetState`. | Empty ledger, `UpdateProduct("p9", "Shipped", "", "", "")` with a timestamp: the query finds `p9` absent and the update fails. | A missing id is upserted, as the implicit create intends. | medium, not executed; relies on Fabric's documented `GetState` semantics | CommittedReads.UpsertFailsOnPeer | Lifecycle.UpdateUpserts |
