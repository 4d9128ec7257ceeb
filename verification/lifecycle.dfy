/** Properties that relate several lifecycle operations, and invariants over runs of
    committed transactions starting from the empty ledger. */
module Lifecycle {
  import opened Ledger
  import opened KeyOrder
  import opened SupplyChain
  import opened RangeScan

  /** A successful create is seen by the existence check and by the query, with the
      given fields, status "Manufactured" and equal timestamps. */
  lemma CreateThenQuery(ws: WorldState, id: string, name: string, owner: string,
                        description: string, category: string, clock: TxTime)
    requires CreateProduct(ws, id, name, owner, description, category, clock).Ok?
    ensures var ws' := CreateProduct(ws, id, name, owner, description, category, clock).value;
      && ProductExists(ws', id)
      && QueryProduct(ws', id).Ok?
      && var p := QueryProduct(ws', id).value;
      && p.id == id && p.name == name && p.owner == owner
      && p.description == description && p.category == category
      && p.status == Manufactured
      && p.createdAt == p.updatedAt == clock.time
  {
  }

  /** The duplicate check runs before the empty-id check: when a record is stored under
      the empty key, creating the empty id reports a duplicate, not an empty id. */
  lemma CreateChecksDuplicateFirst(ws: WorldState, name: string, owner: string,
                                   description: string, category: string, clock: TxTime)
    requires "" in ws
    ensures CreateProduct(ws, "", name, owner, description, category, clock) == Err(AlreadyExists)
  {
  }

  /** Updating only the status of a stored record changes its status and `updatedAt`
      and nothing else. */
  lemma UpdateStatusOnly(ws: WorldState, id: string, newStatus: string, time: string)
    requires Wf(ws) && id in ws && id != "" && newStatus != ""
    ensures UpdateProduct(ws, id, newStatus, "", "", "", Stamp(time))
         == Ok(ws[id := ws[id].(status := newStatus, updatedAt := time)])
  {
    var r := UpdateProduct(ws, id, newStatus, "", "", "", Stamp(time));
    var expected := ws[id := ws[id].(status := newStatus, updatedAt := time)];
    assert r.value.Keys == expected.Keys;
    forall k | k in expected
      ensures r.value[k] == expected[k]
    {
      if k == id {
        assert ws[id].id == id;
      }
    }
    assert r.value == expected;
  }

  /** Updating a missing id does not fail: it creates a record holding only the id,
      the timestamps and the given fields, with status "Manufactured" when none is given. */
  lemma UpdateUpserts(ws: WorldState, id: string, newStatus: string, newOwner: string,
                      newDescription: string, newCategory: string, time: string)
    requires id != "" && id !in ws
    ensures var r := UpdateProduct(ws, id, newStatus, newOwner, newDescription, newCategory, Stamp(time));
      && r.Ok?
      && ProductExists(r.value, id)
      && r.value[id].name == ""
      && r.value[id].status == (if newStatus == "" then Manufactured else newStatus)
      && r.value[id].owner == newOwner
      && r.value[id].createdAt == time
  {
  }

  /** The record that `InitLedger` on an empty ledger leaves is listed by the full scan
      as exactly the two seed records, laptop first. */
  lemma InitThenListAll(clock: TxTime, keys: seq<string>, products: seq<Product>)
    requires InitLedger(map[], clock).Ok?
    requires Lists(InitLedger(map[], clock).value, keys, products)
    ensures keys == [LaptopId, SmartphoneId]
    ensures products == SeedProducts(clock.time)
  {
    var ws := InitLedger(map[], clock).value;
    assert Before(LaptopId, SmartphoneId) by {
      assert LaptopId[0] == SmartphoneId[0];
      assert LaptopId[1..] == "1" && SmartphoneId[1..] == "2";
    }
    assert IsScan(ws, [LaptopId, SmartphoneId]);
    ScanUnique(ws, keys, [LaptopId, SmartphoneId]);
  }

  /** Every listed record can be fetched again by its own id. */
  lemma ListedAreQueryable(ws: WorldState, keys: seq<string>, products: seq<Product>)
    requires Wf(ws) && Lists(ws, keys, products)
    ensures forall i :: 0 <= i < |products| ==> QueryProduct(ws, products[i].id) == Ok(products[i])
  {
  }

  /** One committed or rejected transaction, with the timestamp the host supplies. */
  datatype Tx =
    | Init(clock: TxTime)
    | Create(id: string, name: string, owner: string, description: string, category: string, clock: TxTime)
    | Update(id: string, newStatus: string, newOwner: string, newDescription: string,
             newCategory: string, clock: TxTime)
    | Transfer(id: string, newOwner: string, clock: TxTime)

  function Apply(ws: WorldState, tx: Tx): Result<WorldState> {
    match tx
    case Init(clock) => InitLedger(ws, clock)
    case Create(id, name, owner, description, category, clock) =>
      CreateProduct(ws, id, name, owner, description, category, clock)
    case Update(id, newStatus, newOwner, newDescription, newCategory, clock) =>
      UpdateProduct(ws, id, newStatus, newOwner, newDescription, newCategory, clock)
    case Transfer(id, newOwner, clock) => TransferOwnership(ws, id, newOwner, clock)
  }

  /** The state after a transaction: a failed one commits nothing. */
  function Step(ws: WorldState, tx: Tx): WorldState {
    Apply(ws, tx).GetOr(ws)
  }

  /** The keys a transaction may write. */
  function Touched(tx: Tx): set<string> {
    match tx
    case Init(_) => {LaptopId, SmartphoneId}
    case Create(id, _, _, _, _, _) => {id}
    case Update(id, _, _, _, _, _) => {id}
    case Transfer(id, _, _) => {id}
  }

  /** Transactions applied in order. */
  function Run(ws: WorldState, txs: seq<Tx>): WorldState
    decreases |txs|
  {
    if txs == [] then ws else Run(Step(ws, txs[0]), txs[1..])
  }

  /** One transaction keeps every stored key, adds only keys it touches, and leaves the
      records under untouched keys alone. */
  lemma StepFrame(ws: WorldState, tx: Tx)
    requires Wf(ws)
    ensures ws.Keys <= Step(ws, tx).Keys <= ws.Keys + Touched(tx)
    ensures forall k :: k in ws && k !in Touched(tx) ==> Step(ws, tx)[k] == ws[k]
    ensures Wf(Step(ws, tx))
    ensures Valid(ws) ==> Valid(Step(ws, tx))
  {
  }

  /** A transaction other than seeding never changes a stored record's creation time. */
  lemma StepKeepsCreatedAt(ws: WorldState, tx: Tx, k: string)
    requires Wf(ws) && k in ws && !tx.Init?
    ensures k in Step(ws, tx) && Step(ws, tx)[k].createdAt == ws[k].createdAt
  {
  }

  /** Every state reachable from a valid one is valid: records are keyed by their own id
      and none is stored under the empty id. */
  lemma {:induction false} RunValid(ws: WorldState, txs: seq<Tx>)
    requires Valid(ws)
    ensures Valid(Run(ws, txs))
    decreases |txs|
  {
    if txs != [] {
      StepFrame(ws, txs[0]);
      RunValid(Step(ws, txs[0]), txs[1..]);
    }
  }

  /** Records are never deleted: a key stored once stays stored. */
  lemma {:induction false} RunKeepsKeys(ws: WorldState, txs: seq<Tx>)
    ensures ws.Keys <= Run(ws, txs).Keys
    decreases |txs|
  {
    if txs != [] {
      RunKeepsKeys(Step(ws, txs[0]), txs[1..]);
    }
  }

  /** A key no transaction of the run touches keeps its presence and its record. */
  lemma {:induction false} RunUntouched(ws: WorldState, txs: seq<Tx>, k: string)
    requires Wf(ws)
    requires forall i :: 0 <= i < |txs| ==> k !in Touched(txs[i])
    ensures k in Run(ws, txs) <==> k in ws
    ensures k in ws ==> Run(ws, txs)[k] == ws[k]
    decreases |txs|
  {
    if txs != [] {
      StepFrame(ws, txs[0]);
      RunUntouched(Step(ws, txs[0]), txs[1..], k);
    }
  }

  /** Without seeding, a stored record's creation time is never rewritten. */
  lemma {:induction false} RunKeepsCreatedAt(ws: WorldState, txs: seq<Tx>, k: string)
    requires Wf(ws) && k in ws
    requires forall i :: 0 <= i < |txs| ==> !txs[i].Init?
    ensures k in Run(ws, txs) && Run(ws, txs)[k].createdAt == ws[k].createdAt
    decreases |txs|
  {
    if txs != [] {
      StepFrame(ws, txs[0]);
      StepKeepsCreatedAt(ws, txs[0], k);
      RunKeepsCreatedAt(Step(ws, txs[0]), txs[1..], k);
    }
  }

  /** Every state the contract reaches from the empty ledger is valid. */
  lemma ReachableValid(txs: seq<Tx>)
    ensures Valid(Run(map[], txs))
  {
    RunValid(map[], txs);
  }

  /** From the empty ledger, an id that no transaction names is never reported to exist. */
  lemma NeverNamedNeverExists(txs: seq<Tx>, k: string)
    requires forall i :: 0 <= i < |txs| ==> k !in Touched(txs[i])
    ensures !ProductExists(Run(map[], txs), k)
  {
    RunUntouched(map[], txs, k);
  }

  /** From the empty ledger nothing is ever stored under the empty id, so creating the
      empty id always reports the empty id: the duplicate-first order is never observed. */
  lemma ReachableCreateEmptyId(txs: seq<Tx>, name: string, owner: string,
                               description: string, category: string, clock: TxTime)
    ensures CreateProduct(Run(map[], txs), "", name, owner, description, category, clock) == Err(EmptyId)
  {
    ReachableValid(txs);
  }
}
