/** The entity model of the supply-chain contract and the world state it lives in.

    The host ledger is a key-value store; this contract stores one `Product`
    under the key equal to the product's id. Here the world state is an
    immutable map: a key is present exactly when a record is stored under it.
 */
module Ledger {

  /** The kinds of failure an operation can report. Message text is not modelled. */
  datatype Error =
    | EmptyId          // the product id argument is empty
    | EmptyNewOwner    // the new owner argument of a transfer is empty
    | AlreadyExists    // duplicate id on create
    | DoesNotExist     // the operation needs a stored record and there is none
    | NoTimestamp      // the transaction timestamp could not be obtained
    | CreationFailed   // the record is absent when re-read right after being written

  /** Success with a value, or one of the error kinds above; usable with `:-`. */
  datatype Result<+T> = Ok(value: T) | Err(error: Error) {

    predicate IsFailure() {
      Err?
    }

    function PropagateFailure<U>(): Result<U>
      requires Err?
    {
      Err(error)
    }

    function Extract(): T
      requires Ok?
    {
      value
    }

    /** The value on success; `default` when the error is to be ignored. */
    function GetOr(default: T): T {
      match this
      case Ok(v) => v
      case Err(_) => default
    }
  }

  /** One product record, with the fields of the stored JSON document. */
  datatype Product = Product(
    id: string,
    name: string,
    status: string,
    owner: string,
    createdAt: string,
    updatedAt: string,
    description: string,
    category: string)

  /** The world state: stored records by key. */
  type WorldState = map<string, Product>

  /** The transaction timestamp as the host supplies it: already formatted, or unavailable. */
  datatype TxTime = Stamp(time: string) | Unavailable

  /** Reading the transaction timestamp. */
  function GetTimestamp(clock: TxTime): (r: Result<string>)
    ensures r.Ok? <==> clock.Stamp?
    ensures r.Ok? ==> r.value == clock.time
    ensures r.Err? ==> r.error == NoTimestamp
  {
    match clock
    case Stamp(t) => Ok(t)
    case Unavailable => Err(NoTimestamp)
  }

  /** Writing a record: it is stored under its own id, replacing whatever was there. */
  function Put(ws: WorldState, p: Product): (ws': WorldState)
    ensures ws'.Keys == ws.Keys + {p.id}
    ensures ws'[p.id] == p
    ensures forall k :: k in ws && k != p.id ==> ws'[k] == ws[k]
  {
    ws[p.id := p]
  }

  /** Writing the same record twice leaves the same state as writing it once. */
  lemma PutTwice(ws: WorldState, p: Product)
    ensures Put(Put(ws, p), p) == Put(ws, p)
  {
  }

  /** Every stored record sits under the key equal to its own id. */
  predicate Wf(ws: WorldState) {
    forall k :: k in ws ==> ws[k].id == k
  }

  /** The states this contract can reach: well keyed, and no record under the empty id. */
  predicate Valid(ws: WorldState) {
    Wf(ws) && "" !in ws
  }
}
