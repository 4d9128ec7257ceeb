/** The lifecycle operations of the supply-chain contract.

    Every operation is a pure function of the world state it reads, its string
    arguments and the transaction timestamp. A mutating operation returns the
    new world state on success; on failure the host discards the invocation's
    writes, so an `Err` carries no state. The read-only operations return only
    their answer: they cannot change the state.
 */
module SupplyChain {
  import opened Ledger

  /** The status every newly created record starts with. */
  const Manufactured := "Manufactured"

  /** Ids of the two records the ledger is seeded with. */
  const LaptopId := "p1"
  const SmartphoneId := "p2"

  /** A merge argument: the empty string means "keep the current value". */
  function KeepUnlessEmpty(current: string, given: string): string {
    if given != "" then given else current
  }

  /** The record `CreateProduct` stores. */
  function NewProduct(id: string, name: string, owner: string, description: string,
                      category: string, time: string): Product
  {
    Product(id, name, Manufactured, owner, time, time, description, category)
  }

  /** The record `UpdateProduct` stores, given the record it loaded. */
  function Merged(p: Product, newStatus: string, newOwner: string, newDescription: string,
                  newCategory: string, time: string): Product
  {
    p.(status := KeepUnlessEmpty(p.status, newStatus),
       owner := KeepUnlessEmpty(p.owner, newOwner),
       description := KeepUnlessEmpty(p.description, newDescription),
       category := KeepUnlessEmpty(p.category, newCategory),
       updatedAt := time)
  }

  /** The seed records, sharing one timestamp. */
  function SeedProducts(time: string): seq<Product> {
    [ Product(LaptopId, "Laptop", Manufactured, "CompanyA", time, time,
              "High-end gaming laptop", "Electronics"),
      Product(SmartphoneId, "Smartphone", Manufactured, "CompanyB", time, time,
              "Latest model smartphone", "Electronics") ]
  }

  /** Whether a record is stored under `id`. */
  function ProductExists(ws: WorldState, id: string): (r: bool)
    ensures r <==> id in ws
  {
    id in ws
  }

  /** The stored record under `id`, or `DoesNotExist`. */
  function QueryProduct(ws: WorldState, id: string): (r: Result<Product>)
    ensures r.Ok? <==> id in ws
    ensures r.Ok? ==> r.value == ws[id]
    ensures r.Err? ==> r.error == DoesNotExist
  {
    if !ProductExists(ws, id) then Err(DoesNotExist) else Ok(ws[id])
  }

  /** The ids of a sequence of records. */
  function Ids(ps: seq<Product>): set<string> {
    if ps == [] then {} else {ps[0].id} + Ids(ps[1..])
  }

  /** Writes the records in order; a later record with the same id wins. */
  function PutAll(ws: WorldState, ps: seq<Product>): (after: WorldState)
    ensures after.Keys == ws.Keys + Ids(ps)
    ensures forall k :: k in ws && k !in Ids(ps) ==> after[k] == ws[k]
    ensures |ps| > 0 ==> ps[|ps| - 1].id in after && after[ps[|ps| - 1].id] == ps[|ps| - 1]
    decreases ps
  {
    if ps == [] then ws
    else
      PutAll(Put(ws, ps[0]), ps[1..])
  }

  /** Seeds the ledger with the two fixed records, overwriting any stored under their ids. */
  function InitLedger(ws: WorldState, clock: TxTime): (r: Result<WorldState>)
    ensures r.Ok? <==> clock.Stamp?
    ensures r.Err? ==> r.error == NoTimestamp
    ensures r.Ok? ==> r.value.Keys == ws.Keys + {LaptopId, SmartphoneId}
    ensures r.Ok? ==> r.value[LaptopId] == SeedProducts(clock.time)[0]
    ensures r.Ok? ==> r.value[SmartphoneId] == SeedProducts(clock.time)[1]
    ensures r.Ok? ==> forall k :: k in ws && k != LaptopId && k != SmartphoneId ==> r.value[k] == ws[k]
    ensures r.Ok? && Valid(ws) ==> Valid(r.value)
  {
    var time :- GetTimestamp(clock);
    var seeds := SeedProducts(time);
    assert seeds[1..] == [seeds[1]];
    assert PutAll(ws, seeds) == PutAll(Put(ws, seeds[0]), [seeds[1]]);
    Ok(PutAll(ws, seeds))
  }

  /** Creates a record for a fresh, non-empty id. The duplicate check runs before the
      empty-id check, and the record is re-read after the write. */
  function CreateProduct(ws: WorldState, id: string, name: string, owner: string,
                         description: string, category: string, clock: TxTime): (r: Result<WorldState>)
    ensures r.Ok? <==> id !in ws && id != "" && clock.Stamp?
    ensures id in ws ==> r == Err(AlreadyExists)
    ensures id !in ws && id == "" ==> r == Err(EmptyId)
    ensures id !in ws && id != "" && clock.Unavailable? ==> r == Err(NoTimestamp)
    ensures r.Ok? ==> r.value.Keys == ws.Keys + {id}
    ensures r.Ok? ==> forall k :: k in ws ==> r.value[k] == ws[k]
    ensures r.Ok? ==> r.value[id] == NewProduct(id, name, owner, description, category, clock.time)
    ensures r.Ok? && Valid(ws) ==> Valid(r.value)
  {
    if ProductExists(ws, id) then Err(AlreadyExists)
    else if id == "" then Err(EmptyId)
    else
      var time :- GetTimestamp(clock);
      var ws' := Put(ws, NewProduct(id, name, owner, description, category, time));
      if !ProductExists(ws', id) then Err(CreationFailed) else Ok(ws')
  }

  /** Field-wise merge of status, owner, description and category into the record under
      `id`; an empty argument keeps the old value and `updatedAt` is refreshed. A missing
      id is first created as a blank record (the outcome of that creation is ignored),
      and the merged record is written twice. */
  function UpdateProduct(ws: WorldState, id: string, newStatus: string, newOwner: string,
                         newDescription: string, newCategory: string, clock: TxTime): (r: Result<WorldState>)
    ensures r.Ok? <==> id != "" && clock.Stamp?
    ensures id == "" ==> r == Err(EmptyId)
    ensures id != "" && clock.Unavailable? ==> r == Err(if id in ws then NoTimestamp else DoesNotExist)
    ensures r.Ok? ==> id in r.value
    ensures r.Ok? && Wf(ws) ==> r.value.Keys == ws.Keys + {id}
    ensures r.Ok? && Wf(ws) ==> forall k :: k in ws && k != id ==> r.value[k] == ws[k]
    ensures r.Ok? && Wf(ws) && id in ws ==>
      var prior := ws[id];
      r.value[id] == Product(id, prior.name,
                             KeepUnlessEmpty(prior.status, newStatus),
                             KeepUnlessEmpty(prior.owner, newOwner),
                             prior.createdAt, clock.time,
                             KeepUnlessEmpty(prior.description, newDescription),
                             KeepUnlessEmpty(prior.category, newCategory))
    ensures r.Ok? && id !in ws ==>
      r.value[id] == Product(id, "", KeepUnlessEmpty(Manufactured, newStatus), newOwner,
                             clock.time, clock.time, newDescription, newCategory)
    ensures r.Ok? && Valid(ws) ==> Valid(r.value)
  {
    if id == "" then Err(EmptyId)
    else
      var ws1 := if ProductExists(ws, id) then ws
                 else CreateProduct(ws, id, "", "", "", "", clock).GetOr(ws);
      var product :- QueryProduct(ws1, id);
      var time :- GetTimestamp(clock);
      var updated := Merged(product, newStatus, newOwner, newDescription, newCategory, time);
      var ws2 := Put(ws1, updated);
      Ok(Put(ws2, updated))
  }

  /** Hands the record under `id` to `newOwner`, refreshing `updatedAt`. */
  function TransferOwnership(ws: WorldState, id: string, newOwner: string, clock: TxTime): (r: Result<WorldState>)
    ensures r.Ok? <==> id != "" && newOwner != "" && id in ws && clock.Stamp?
    ensures id == "" ==> r == Err(EmptyId)
    ensures id != "" && newOwner == "" ==> r == Err(EmptyNewOwner)
    ensures id != "" && newOwner != "" && id !in ws ==> r == Err(DoesNotExist)
    ensures id != "" && newOwner != "" && id in ws && clock.Unavailable? ==> r == Err(NoTimestamp)
    ensures r.Ok? && Wf(ws) ==> r.value.Keys == ws.Keys
    ensures r.Ok? && Wf(ws) ==> forall k :: k in ws && k != id ==> r.value[k] == ws[k]
    ensures r.Ok? && Wf(ws) ==> r.value[id] == ws[id].(owner := newOwner, updatedAt := clock.time)
    ensures r.Ok? && Valid(ws) ==> Valid(r.value)
  {
    if id == "" then Err(EmptyId)
    else if newOwner == "" then Err(EmptyNewOwner)
    else if !ProductExists(ws, id) then Err(DoesNotExist)
    else
      var product := QueryProduct(ws, id).value;
      var time :- GetTimestamp(clock);
      Ok(Put(ws, product.(owner := newOwner, updatedAt := time)))
  }
}
