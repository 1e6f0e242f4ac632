/**
 * The browser-side product store of
 * apps/frontend/src/features/products/api/indexed-db.service.ts: one
 * IndexedDB object store with out-of-line numeric keys. Each operation runs
 * in its own transaction, which either commits all its requests or none.
 */
module ProductIndexedDb {
  /** The record fields the store touches; the rest of a product travels unchanged. */
  datatype StoredStock = StoredStock(currentQuantity: int, desiredQuantity: int)
  datatype StoredProduct = StoredProduct(id: int, name: string, unit: string, stock: StoredStock)

  /**
   * Why a transaction aborted: `add` of a key already present, or an
   * `onsuccess` handler reading `stock` of the missing record (`undefined`).
   */
  datatype StoreError = ConstraintError | MissingRecord

  datatype Outcome = Committed | Aborted(error: StoreError)

  /** The record with its current quantity moved by `delta`. */
  function Adjusted(p: StoredProduct, delta: int): (q: StoredProduct)
    ensures q.stock.currentQuantity == p.stock.currentQuantity + delta
    ensures q.(stock := q.stock.(currentQuantity := p.stock.currentQuantity)) == p
  {
    p.(stock := p.stock.(currentQuantity := p.stock.currentQuantity + delta))
  }

  lemma NonEmptyHasKey(keys: set<int>)
    requires keys != {}
    ensures exists k :: k in keys
  {
    assert (forall k :: k !in keys) ==> keys == {};
  }

  lemma {:induction false} MinExists(keys: set<int>)
    requires keys != {}
    ensures exists m :: m in keys && forall k :: k in keys ==> m <= k
    decreases |keys|
  {
    NonEmptyHasKey(keys);
    var x :| x in keys;
    var rest := keys - {x};
    if rest == {} {
      forall k | k in keys ensures x <= k {
        assert k !in rest;
      }
    } else {
      MinExists(rest);
      var m :| m in rest && forall k :: k in rest ==> m <= k;
      var lo := if x < m then x else m;
      forall k | k in keys ensures lo <= k {
        if k != x { assert k in rest; }
      }
      assert lo in keys;
    }
  }

  /** The state of a walk over the keys in ascending order: `keys` visited with their values in `r`, `remaining` still to come. */
  ghost predicate Walked(records: map<int, StoredProduct>, remaining: set<int>, keys: seq<int>, r: seq<StoredProduct>) {
    && remaining <= records.Keys
    && (forall k :: k in keys <==> k in records && k !in remaining)
    && |keys| + |remaining| == |records.Keys|
    && (forall i, j :: 0 <= i < j < |keys| ==> keys[i] < keys[j])
    && (forall i, k :: 0 <= i < |keys| && k in remaining ==> keys[i] < k)
    && |r| == |keys| && (forall i :: 0 <= i < |keys| ==> keys[i] in records && r[i] == records[keys[i]])
  }

  /** Visiting the least remaining key keeps the walk in order. */
  lemma WalkStep(records: map<int, StoredProduct>, remaining: set<int>, keys: seq<int>, r: seq<StoredProduct>, m: int)
    requires Walked(records, remaining, keys, r)
    requires m in remaining && forall k :: k in remaining ==> m <= k
    ensures Walked(records, remaining - {m}, keys + [m], r + [records[m]])
  {
    assert forall i :: 0 <= i < |keys| ==> keys[i] < m;
  }

  class ProductStore {
    var records: map<int, StoredProduct>

    constructor ()
      ensures records == map[]
    {
      records := map[];
    }

    /** `add(p)`: stores p under `p.id`; an existing key aborts the transaction and nothing changes. */
    method Add(product: StoredProduct) returns (o: Outcome)
      modifies this
      ensures o == Aborted(ConstraintError) <==> product.id in old(records)
      ensures o.Committed? <==> product.id !in old(records)
      ensures o.Committed? ==> records == old(records)[product.id := product]
      ensures o.Aborted? ==> records == old(records)
    {
      if product.id in records {
        return Aborted(ConstraintError);
      }
      records := records[product.id := product];
      o := Committed;
    }

    /** `addQuantity(id)` and `decreaseQuantity(id)`: get, move `stock.currentQuantity` by delta, put back. */
    method Step(id: int, delta: int) returns (o: Outcome)
      modifies this
      ensures o.Committed? <==> id in old(records)
      ensures o.Aborted? ==> o.error == MissingRecord && records == old(records)
      ensures o.Committed? ==> records == old(records)[id := Adjusted(old(records)[id], delta)]
    {
      if id !in records {
        return Aborted(MissingRecord);
      }
      records := records[id := Adjusted(records[id], delta)];
      o := Committed;
    }

    /** `addQuantity(id)`: exactly one more of that product. */
    method AddQuantity(id: int) returns (o: Outcome)
      modifies this
      ensures o.Committed? <==> id in old(records)
      ensures o.Aborted? ==> o.error == MissingRecord && records == old(records)
      ensures o.Committed? ==> records == old(records)[id := Adjusted(old(records)[id], 1)]
    {
      o := Step(id, 1);
    }

    /** `decreaseQuantity(id)`: exactly one fewer, with no floor at zero. */
    method DecreaseQuantity(id: int) returns (o: Outcome)
      modifies this
      ensures o.Committed? <==> id in old(records)
      ensures o.Aborted? ==> o.error == MissingRecord && records == old(records)
      ensures o.Committed? ==> records == old(records)[id := Adjusted(old(records)[id], -1)]
    {
      o := Step(id, -1);
    }

    /** `getAll`: every stored record exactly once, in ascending key order (the order IndexedDB walks a store). */
    method GetAll() returns (r: seq<StoredProduct>, ghost keys: seq<int>)
      ensures |keys| == |records| && forall k :: k in keys <==> k in records
      ensures forall i, j :: 0 <= i < j < |keys| ==> keys[i] < keys[j]
      ensures |r| == |keys| && forall i :: 0 <= i < |keys| ==> keys[i] in records && r[i] == records[keys[i]]
      ensures |r| == |records| && forall k :: k in records ==> records[k] in r
    {
      var remaining := records.Keys;
      r, keys := [], [];
      while remaining != {}
        invariant Walked(records, remaining, keys, r)
        decreases |remaining|
      {
        MinExists(remaining);
        var m :| m in remaining && forall k :: k in remaining ==> m <= k;
        WalkStep(records, remaining, keys, r, m);
        r, keys := r + [records[m]], keys + [m];
        remaining := remaining - {m};
      }
      assert |records.Keys| == |records|;
      forall k | k in records ensures records[k] in r {
        var i :| 0 <= i < |keys| && keys[i] == k;
        assert r[i] == records[k];
      }
    }

    /**
     * `update(id, p)`: `delete(id)` then `add(p, id)` in one transaction;
     * the add never meets its key, so the commit always happens.
     */
    method Update(id: int, product: StoredProduct) returns (o: Outcome)
      modifies this
      ensures o.Committed?
      ensures records == old(records)[id := product]
    {
      var pending := records - {id};
      assert id !in pending;
      records := pending[id := product];
      o := Committed;
    }

    /** `delete(id)`: removes key id, present or not. */
    method Delete(id: int) returns (o: Outcome)
      modifies this
      ensures o.Committed?
      ensures records == old(records) - {id}
    {
      records := records - {id};
      o := Committed;
    }
  }

  /** A step leaves every other record as it was and every other field of this one. */
  lemma StepTouchesOnlyItsQuantity(records: map<int, StoredProduct>, id: int, delta: int, k: int)
    requires id in records && k in records
    ensures var after := records[id := Adjusted(records[id], delta)];
      && after.Keys == records.Keys
      && (k != id ==> after[k] == records[k])
      && after[id].id == records[id].id && after[id].name == records[id].name
      && after[id].unit == records[id].unit
      && after[id].stock.desiredQuantity == records[id].stock.desiredQuantity
  {
  }

  /** `addQuantity` then `decreaseQuantity` on the same key gives back the store as it was. */
  lemma IncrementThenDecrementRestores(records: map<int, StoredProduct>, id: int)
    requires id in records
    ensures var up := records[id := Adjusted(records[id], 1)];
      up[id := Adjusted(up[id], -1)] == records
  {
    var up := records[id := Adjusted(records[id], 1)];
    assert Adjusted(up[id], -1) == records[id];
  }

  /** A decrement below zero is stored as it is. */
  lemma DecrementHasNoFloor(p: StoredProduct)
    requires p.stock.currentQuantity == 0
    ensures Adjusted(p, -1).stock.currentQuantity == -1
  {
  }

  /** The methods in sequence: add, raise by one, lower by one, and the store holds the added record. */
  method AddStepBack(store: ProductStore, product: StoredProduct) returns (added: Outcome)
    modifies store
    ensures added.Committed? ==> store.records == old(store.records)[product.id := product]
    ensures added.Aborted? ==> store.records == old(store.records)
  {
    added := store.Add(product);
    if added.Committed? {
      IncrementThenDecrementRestores(store.records, product.id);
      var up := store.AddQuantity(product.id);
      var down := store.DecreaseQuantity(product.id);
    }
  }
}
