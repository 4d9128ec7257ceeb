/** Create and update as they behave on a peer whose reads see only committed state.

    On a Fabric peer, `GetState` does not return values written by `PutState` earlier in
    the same transaction. Under that behaviour the re-check after the write in
    `CreateProduct` reads the state before the write, and the query after the implicit
    create in `UpdateProduct` does not see the created record. The operations in
    `SupplyChain` are the intended behaviour, in which a read sees the transaction's own
    writes; the variants here show what the code as written does without that.
 */
module CommittedReads {
  import opened Ledger
  import opened SupplyChain

  /** `CreateProduct` with every read answered from the committed state `ws`. */
  function CreateProductOnPeer(ws: WorldState, id: string, name: string, owner: string,
                               description: string, category: string, clock: TxTime): (r: Result<WorldState>)
    ensures r.Err?
    ensures id in ws ==> r.error == AlreadyExists
    ensures id !in ws && id == "" ==> r.error == EmptyId
    ensures id !in ws && id != "" && clock.Unavailable? ==> r.error == NoTimestamp
    ensures id !in ws && id != "" && clock.Stamp? ==> r.error == CreationFailed
  {
    if ProductExists(ws, id) then Err(AlreadyExists)
    else if id == "" then Err(EmptyId)
    else
      var time :- GetTimestamp(clock);
      var pending := Put(ws, NewProduct(id, name, owner, description, category, time));
      if !ProductExists(ws, id) then Err(CreationFailed) else Ok(pending)
  }

  /** `UpdateProduct` with every read answered from the committed state `ws`. */
  function UpdateProductOnPeer(ws: WorldState, id: string, newStatus: string, newOwner: string,
                               newDescription: string, newCategory: string, clock: TxTime): (r: Result<WorldState>)
    ensures id == "" ==> r == Err(EmptyId)
    ensures id != "" && id !in ws ==> r == Err(DoesNotExist)
    ensures id in ws ==> r == UpdateProduct(ws, id, newStatus, newOwner, newDescription, newCategory, clock)
  {
    if id == "" then Err(EmptyId)
    else
      var ws1 := if ProductExists(ws, id) then ws
                 else CreateProductOnPeer(ws, id, "", "", "", "", clock).GetOr(ws);
      var product :- QueryProduct(ws, id);
      var time :- GetTimestamp(clock);
      var updated := Merged(product, newStatus, newOwner, newDescription, newCategory, time);
      var ws2 := Put(ws1, updated);
      Ok(Put(ws2, updated))
  }

  /** The discrepancy: on a fresh non-empty id with a timestamp, the intended create
      succeeds and stores the record, while the code as written on such a peer always
      reports a failed creation. */
  lemma CreateFailsOnPeer(ws: WorldState, id: string, name: string, owner: string,
                          description: string, category: string, time: string)
    requires id !in ws && id != ""
    ensures CreateProduct(ws, id, name, owner, description, category, Stamp(time)).Ok?
    ensures CreateProductOnPeer(ws, id, name, owner, description, category, Stamp(time))
         == Err(CreationFailed)
  {
  }

  /** The discrepancy for update: on a missing non-empty id with a timestamp, the intended
      update creates the record, while the code as written on such a peer reports that
      it does not exist. */
  lemma UpsertFailsOnPeer(ws: WorldState, id: string, newStatus: string, newOwner: string,
                          newDescription: string, newCategory: string, time: string)
    requires id !in ws && id != ""
    ensures UpdateProduct(ws, id, newStatus, newOwner, newDescription, newCategory, Stamp(time)).Ok?
    ensures UpdateProductOnPeer(ws, id, newStatus, newOwner, newDescription, newCategory, Stamp(time))
         == Err(DoesNotExist)
  {
  }
}
