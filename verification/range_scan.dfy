/** Listing every stored record through the ledger's full range scan. */
module RangeScan {
  import opened Ledger
  import opened KeyOrder

  /** `keys` is the order a full scan of `ws` visits: every stored key once, ascending. */
  predicate IsScan(ws: WorldState, keys: seq<string>) {
    && Ascending(keys)
    && (forall k :: k in keys ==> k in ws)
    && (forall k :: k in ws ==> k in keys)
  }

  /** `products` holds the record under each key of `keys`, in the same order. */
  predicate Lists(ws: WorldState, keys: seq<string>, products: seq<Product>) {
    && IsScan(ws, keys)
    && |products| == |keys|
    && forall i :: 0 <= i < |keys| ==> products[i] == ws[keys[i]]
  }

  /** The full scan visits keys in a single order. */
  lemma ScanUnique(ws: WorldState, a: seq<string>, b: seq<string>)
    requires IsScan(ws, a) && IsScan(ws, b)
    ensures a == b
  {
    AscendingUnique(a, b);
  }

  /** One record per stored key, in scan order. Beside the records, the keys the scan
      visited are returned, so that the order can be stated. */
  method GetAllProducts(ws: WorldState) returns (keys: seq<string>, products: seq<Product>)
    ensures Lists(ws, keys, products)
  {
    var rest := ws.Keys;
    keys := [];
    products := [];
    while rest != {}
      invariant rest <= ws.Keys
      invariant forall k :: k in keys ==> k in ws && k !in rest
      invariant forall k :: k in ws ==> k in keys || k in rest
      invariant Ascending(keys)
      invariant forall i, k :: 0 <= i < |keys| && k in rest ==> Before(keys[i], k)
      invariant |products| == |keys|
      invariant forall i :: 0 <= i < |keys| ==> products[i] == ws[keys[i]]
      decreases rest
    {
      var m := Least(rest);
      keys := keys + [m];
      products := products + [ws[m]];
      rest := rest - {m};
    }
  }
}
