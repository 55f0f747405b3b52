/**
 * The stale-status repair script: every product marked 'sold' that still has
 * stock goes back to 'available', and the number of rows changed is reported.
 */
module StockRepair {
  import opened Domain
  import Tables

  /** A row the sweep's WHERE clause selects: 'sold' with stock above zero. */
  predicate Stale(p: Product) {
    p.status == Sold && p.stock > 0
  }

  /** The row after the UPDATE. */
  function Repaired(p: Product): (q: Product)
    ensures !Stale(q) && q.stock == p.stock
    ensures !Stale(p) ==> q == p
  {
    if Stale(p) then p.(status := Available) else p
  }

  /** The whole table after the sweep. */
  function RepairAll(products: map<ProductId, Product>): (r: map<ProductId, Product>)
    ensures r.Keys == products.Keys
    ensures forall id :: id in r ==> r[id] == Repaired(products[id])
  {
    map id | id in products :: Repaired(products[id])
  }

  function StaleIds(products: map<ProductId, Product>): set<ProductId> {
    set id | id in products && Stale(products[id])
  }

  /**
   * Afterwards no row is stale, no stock changes, rows that were not stale
   * are untouched, and the rows that were become 'available' and nothing else.
   */
  lemma RepairEffect(products: map<ProductId, Product>)
    ensures StaleIds(RepairAll(products)) == {}
    ensures forall id :: id in products ==> RepairAll(products)[id].stock == products[id].stock
    ensures forall id :: id in products && !Stale(products[id]) ==> RepairAll(products)[id] == products[id]
    ensures forall id :: id in StaleIds(products) ==> RepairAll(products)[id] == products[id].(status := Available)
  {
  }

  /** Running the sweep again changes nothing and selects no row. */
  lemma RepairIdempotent(products: map<ProductId, Product>)
    ensures RepairAll(RepairAll(products)) == RepairAll(products)
    ensures |StaleIds(RepairAll(products))| == 0
  {
    RepairEffect(products);
  }

  /** The stale rows with ids below `id`. */
  function StaleBelow(before: map<ProductId, Product>, id: int): set<ProductId> {
    set k | k in before && k < id && Stale(before[k])
  }

  /**
   * Part-way through a scan in id order, standing at `id`: the rows before
   * it are repaired, the rest are as they were, and `changes` counts the
   * stale rows passed.
   */
  ghost predicate ScannedBelow(current: map<ProductId, Product>, before: map<ProductId, Product>,
                               id: int, changes: int)
  {
    && current.Keys == before.Keys
    && (forall k :: k in before ==> current[k] == if k < id then Repaired(before[k]) else before[k])
    && changes == |StaleBelow(before, id)|
  }

  /** Visiting `id` (a row, or a gap in the ids) keeps the scan's bookkeeping one step further on. */
  lemma ScanStep(current: map<ProductId, Product>, before: map<ProductId, Product>, id: int, changes: int)
    requires ScannedBelow(current, before, id, changes)
    ensures id in current ==> current[id] == before[id]
    ensures id in current ==> ScannedBelow(current[id := Repaired(before[id])], before, id + 1,
                                           changes + if Stale(before[id]) then 1 else 0)
    ensures id !in current ==> ScannedBelow(current, before, id + 1, changes)
  {
    if id in before && Stale(before[id]) {
      assert StaleBelow(before, id + 1) == StaleBelow(before, id) + {id};
    } else {
      assert StaleBelow(before, id + 1) == StaleBelow(before, id);
    }
  }

  /** The scan starts with nothing done. */
  lemma ScanStart(before: map<ProductId, Product>, lo: int)
    requires forall k :: k in before ==> lo <= k
    ensures ScannedBelow(before, before, lo, 0)
  {
    assert StaleBelow(before, lo) == {};
  }

  /** Once past every id, the scan has repaired the whole table and counted every stale row. */
  lemma ScanDone(current: map<ProductId, Product>, before: map<ProductId, Product>, hi: int, changes: int)
    requires ScannedBelow(current, before, hi, changes)
    requires forall k :: k in before ==> k < hi
    ensures current == RepairAll(before)
    ensures changes == |StaleIds(before)|
  {
    assert StaleBelow(before, hi) == StaleIds(before);
    var after := RepairAll(before);
    assert current.Keys == after.Keys;
    forall k | k in current ensures current[k] == after[k] {
      assert k in before && k < hi;
    }
  }

  /** The sweep changes no id, so rows stay stored under their own id. */
  lemma RepairKeepsIds(products: map<ProductId, Product>, next: int)
    requires forall id :: id in products ==> products[id].id == id && 1 <= id < next
    ensures forall id :: id in RepairAll(products) ==> RepairAll(products)[id].id == id && 1 <= id < next
  {
  }

  /** One row of the UPDATE: a stale row becomes 'available'; reports whether it was selected. */
  method RepairRow(db: Tables.Database, id: ProductId) returns (changed: bool)
    requires id in db.products
    modifies db`products
    ensures changed == Stale(old(db.products)[id])
    ensures db.products == old(db.products)[id := Repaired(old(db.products)[id])]
  {
    var row := db.products[id];
    changed := row.status == Sold && row.stock > 0;
    if changed {
      db.products := db.products[id := row.(status := Available)];
    }
  }

  /**
   * The UPDATE over the whole table, visiting rows in id order: returns the
   * number of rows it selected.
   */
  method Sweep(db: Tables.Database) returns (changes: nat)
    requires forall id :: id in db.products ==> 1 <= id < db.nextProductId
    modifies db`products
    ensures db.products == RepairAll(old(db.products))
    ensures changes == |StaleIds(old(db.products))|
  {
    ghost var before := db.products;
    ScanStart(before, 1);
    changes := 0;
    var id := 1;
    while id < db.nextProductId
      invariant id <= db.nextProductId || id == 1
      invariant ScannedBelow(db.products, before, id, changes)
    {
      ScanStep(db.products, before, id, changes);
      if id in db.products {
        var changed := RepairRow(db, id);
        if changed {
          changes := changes + 1;
        }
      }
      id := id + 1;
    }
    ScanDone(db.products, before, id, changes);
  }

  /** The repair script: the sweep, reporting `result.changes`; the table stays well formed. */
  method RepairStatuses(db: Tables.Database) returns (changes: nat)
    requires db.Valid()
    modifies db`products
    ensures db.Valid()
    ensures db.products == RepairAll(old(db.products))
    ensures changes == |StaleIds(old(db.products))|
  {
    changes := Sweep(db);
    RepairKeepsIds(old(db.products), db.nextProductId);
  }
}
