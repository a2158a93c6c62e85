/** EfProductStore and ProductsController as they are written, proved against module Products. */
module ProductsApi {
  import opened Common
  import opened Products

  class EfProductStore {
    var rows: map<int, Product>
    var nextId: nat
    var nextVersion: nat

    constructor ()
      ensures Value() == Db(map[], 1, 1)
    {
      rows, nextId, nextVersion := map[], 1, 1;
    }

    function Value(): Db
      reads this
    {
      Db(rows, nextId, nextVersion)
    }

    method SkuExistsAsync(sku: string) returns (found: bool)
      ensures found <==> SkuExists(Value(), sku)
    {
      found := exists id :: id in rows && rows[id].sku == sku;
    }

    /** One insert; the unique index refuses a SKU that is already there. */
    method AddAsync(d: Draft, s: Saving) returns (r: Result<int>)
      modifies this
      ensures (Value(), r) == TryAdd(old(Value()), d, s)
    {
      var refused := SkuExistsAsync(d.sku);
      if !refused && (s.Fine? || s.committed) {
        rows := rows[nextId := Product(d.sku, d.name, d.price, nextVersion)];
      }
      r := if s.Fault? then Threw(ExceptionOf(s)) else if refused then Threw(DbUpdate) else Ok(nextId);
      nextId, nextVersion := nextId + 1, nextVersion + 1;
    }

    /** The transactional loop: whatever it inserted is gone if any insert raises. */
    method AddRangeAsync(drafts: seq<Draft>, saves: seq<Saving>, commit: Saving) returns (raised: Option<Exception>)
      requires |saves| == |drafts|
      modifies this
      ensures (Value(), raised) == TryAddRange(old(Value()), drafts, saves, commit)
    {
      hide TryAdd;
      var rows0 := rows;     // BeginTransaction: what a rollback returns to
      for i := 0 to |drafts|
        invariant AddAll(Value(), drafts[i..], saves[i..]) == AddAll(old(Value()), drafts, saves)
      {
        assert drafts[i..][1..] == drafts[i + 1..] && saves[i..][1..] == saves[i + 1..];
        var r := AddAsync(drafts[i], saves[i]);
        if r.Threw? {
          rows := rows0;
          return Some(r.exception);
        }
      }
      if commit.Fault? && !commit.committed {
        rows := rows0;
      }
      raised := if commit.Fault? then Some(ExceptionOf(commit)) else None;
    }

    /** Null (Ok(None)) when the product is gone; otherwise one UPDATE guarded by the submitted version. */
    method UpdateAsync(id: int, name: string, price: int, rowVersion: nat, s: Saving, quiet: bool)
      returns (r: Result<Option<Product>>)
      modifies this
      ensures id !in old(rows) ==> Value() == old(Value()) && r == Ok(None)
      ensures id in old(rows) ==>
                var (db, r') := SaveUpdate(old(Value()), Update(id, old(rows)[id], name, price, rowVersion), s, quiet);
                Value() == db && r == (if r'.Ok? then Ok(Some(r'.value)) else Threw(r'.exception))
    {
      if id !in rows { return Ok(None); }
      var product := rows[id];
      if name == product.name && price == product.price && quiet { return Ok(Some(product)); }
      product := product.(name := name);
      product := product.(price := price);
      var matched := rows[id].rowVersion == rowVersion;
      product := product.(rowVersion := nextVersion);
      if matched && (s.Fine? || s.committed) {
        rows, nextVersion := rows[id := product], nextVersion + 1;
      }
      r :=
        if s.Fault? then Threw(ExceptionOf(s)) else if matched then Ok(Some(product)) else Threw(DbUpdateConcurrency);
    }

    method RemoveAsync(id: int, s: Saving) returns (r: Result<bool>)
      modifies this
      ensures id !in old(rows) ==> Value() == old(Value()) && r == Ok(false)
      ensures id in old(rows) ==> (Value(), r) == SaveRemove(old(Value()), id, old(rows)[id], s)
    {
      if id !in rows { return Ok(false); }
      if s.Fine? || s.committed {
        rows := rows - {id};
      }
      r := if s.Fault? then Threw(ExceptionOf(s)) else Ok(true);
    }
  }

  /** What an action answers; `Unhandled` is an exception it does not catch. */
  datatype Answer =
    | Created(id: int) | CreatedAll | Updated(product: Product) | NoContent | NotFound | Conflict | Unhandled

  class ProductsController {
    const store: EfProductStore

    constructor (store: EfProductStore)
      ensures this.store == store
    {
      this.store := store;
    }

    /** Created exactly when the SKU is new and nothing faults; a duplicate is a conflict, found early or late. */
    method Create(d: Draft, s: Saving) returns (a: Answer)
      modifies store
      ensures old(SkuExists(store.Value(), d.sku)) ==> a.Conflict? && store.Value() == old(store.Value())
      ensures !old(SkuExists(store.Value(), d.sku)) ==>
                && store.Value() == TryAdd(old(store.Value()), d, s).0
                && (s.Fine? ==> store.rows == old(store.rows)[old(store.nextId) :=
                                  Product(d.sku, d.name, d.price, old(store.nextVersion))])
                && a == if s.Fine? then Created(old(store.nextId)) else if s.wrapped then Conflict else Unhandled
    {
      var duplicate := store.SkuExistsAsync(d.sku);
      if duplicate { return Conflict; }
      var r := store.AddAsync(d, s);
      if r.Threw? { return if r.exception.Other? then Unhandled else Conflict; }
      a := Created(r.value);
    }

    /** Created exactly when the SKUs are pairwise distinct and new and nothing faults; then every product
        is there. A duplicate anywhere is a conflict (unless some save before it faults) and nothing is kept. */
    method BulkCreate(drafts: seq<Draft>, saves: seq<Saving>, commit: Saving) returns (a: Answer)
      requires |saves| == |drafts| && forall id :: id in store.rows ==> id < store.nextId
      modifies store
      ensures a in {CreatedAll, Conflict, Unhandled}
      ensures a.CreatedAll? <==> Fresh(old(store.Value()), drafts) && AllFine(saves) && commit.Fine?
      ensures a.CreatedAll? ==> AllAdded(old(store.Value()), store.Value(), drafts)
      ensures !a.CreatedAll? && !(commit.Fault? && commit.committed) ==> store.rows == old(store.rows)
      ensures AllFine(saves) && commit.Fine? && !Fresh(old(store.Value()), drafts) ==> a.Conflict?
    {
      BulkInsertIsAllOrNothing(store.Value(), drafts, saves, commit);
      DuplicatesConflict(store.Value(), drafts, saves);
      var raised := store.AddRangeAsync(drafts, saves, commit);
      if raised.Some? { return if raised.value.Other? then Unhandled else Conflict; }
      a := CreatedAll;
    }

    /** Not found, conflict or updated: exactly as the row is gone, has another version, or still has the submitted
        one. */
    method Update(id: int, name: string, price: int, rowVersion: nat, s: Saving, quiet: bool) returns (a: Answer)
      modifies store
      ensures a.NotFound? <==> id !in old(store.rows)
      ensures id in old(store.rows) && s.Fine?
              && (name != old(store.rows)[id].name || price != old(store.rows)[id].price) ==>
                var row, version := old(store.rows)[id], old(store.nextVersion);
                if row.rowVersion == rowVersion
                then && a == Updated(Product(row.sku, name, price, version))
                     && store.rows == old(store.rows)[id := Product(row.sku, name, price, version)]
                else a.Conflict? && store.Value() == old(store.Value())
      ensures forall k :: k in old(store.rows) && k != id ==> k in store.rows && store.rows[k] == old(store.rows)[k]
    {
      var r := store.UpdateAsync(id, name, price, rowVersion, s, quiet);
      if r.Threw? { return if r.exception.DbUpdateConcurrency? then Conflict else Unhandled; }
      if r.value.None? { return NotFound; }
      a := Updated(r.value.value);
    }

    method Delete(id: int, s: Saving) returns (a: Answer)
      modifies store
      ensures a == if id !in old(store.rows) then NotFound else if s.Fine? then NoContent else Unhandled
      ensures store.rows == if s.Fine? || s.committed then old(store.rows) - {id} else old(store.rows)
    {
      var r := store.RemoveAsync(id, s);
      if r.Threw? { return Unhandled; }
      a := if r.value then NoContent else NotFound;
    }
  }

  /** Without faults the only exception of the loop is the index's. */
  lemma {:induction false} DuplicatesConflict(db: Db, drafts: seq<Draft>, saves: seq<Saving>)
    requires |saves| == |drafts|
    ensures AllFine(saves) && AddAll(db, drafts, saves).1.Some? ==> AddAll(db, drafts, saves).1 == Some(DbUpdate)
    decreases |drafts|
  {
    if drafts != [] {
      assert saves == [saves[0]] + saves[1..];
      DuplicatesConflict(TryAdd(db, drafts[0], saves[0]).0, drafts[1..], saves[1..]);
    }
  }
}
