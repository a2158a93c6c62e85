/** StockPilot's product table: a unique SKU index, a row version that every write replaces, and what
    interleaved clients can and cannot do to each other through them. */
module Products {
  import opened Common

  /** `price` counts hundredths, as the column does. */
  datatype Product = Product(sku: string, name: string, price: int, rowVersion: nat)

  /** A product as a request describes it. */
  datatype Draft = Draft(sku: string, name: string, price: int)

  /** The committed table. Identity values and row versions are never reused. */
  datatype Db = Db(rows: map<int, Product>, nextId: nat, nextVersion: nat)

  /** How a SaveChanges or a commit goes, apart from what the database itself refuses. A fault may be
      wrapped in a DbUpdateException or not, and may hide a commit that happened. */
  datatype Saving = Fine | Fault(wrapped: bool, committed: bool)

  datatype Exception = DbUpdate | DbUpdateConcurrency | Other

  datatype Result<T> = Ok(value: T) | Threw(exception: Exception)

  function ExceptionOf(s: Saving): Exception
    requires s.Fault?
  {
    if s.wrapped then DbUpdate else Other
  }

  predicate SkuExists(db: Db, sku: string) {
    exists id :: id in db.rows && db.rows[id].sku == sku
  }

  // ---------- adding ----------

  function Inserted(db: Db, d: Draft): Db {
    Db(db.rows[db.nextId := Product(d.sku, d.name, d.price, db.nextVersion)], db.nextId + 1, db.nextVersion + 1)
  }

  /** A refused insert leaves no row, only used-up identity values. */
  function Burned(db: Db): Db {
    db.(nextId := db.nextId + 1, nextVersion := db.nextVersion + 1)
  }

  /** AddAsync: the unique index is the final authority. */
  function TryAdd(db: Db, d: Draft, s: Saving): (Db, Result<int>) {
    if SkuExists(db, d.sku) then (Burned(db), Threw(if s.Fault? then ExceptionOf(s) else DbUpdate))
    else
      match s
      case Fine => (Inserted(db, d), Ok(db.nextId))
      case Fault(_, committed) => (if committed then Inserted(db, d) else Burned(db), Threw(ExceptionOf(s)))
  }

  /** The loop of AddRangeAsync: one insert after the other until one raises. */
  function AddAll(db: Db, drafts: seq<Draft>, saves: seq<Saving>): (Db, Option<Exception>)
    requires |saves| == |drafts|
    decreases |drafts|
  {
    if drafts == [] then (db, None)
    else
      var (db1, r) := TryAdd(db, drafts[0], saves[0]);
      if r.Threw? then (db1, Some(r.exception)) else AddAll(db1, drafts[1..], saves[1..])
  }

  /** A rollback restores the rows, not the identity values. */
  function RolledBack(before: Db, after: Db): Db { after.(rows := before.rows) }

  function TryAddRange(db: Db, drafts: seq<Draft>, saves: seq<Saving>, commit: Saving): (Db, Option<Exception>)
    requires |saves| == |drafts|
  {
    var (db1, raised) := AddAll(db, drafts, saves);
    if raised.Some? then (RolledBack(db, db1), raised)
    else
      match commit
      case Fine => (db1, None)
      case Fault(_, committed) => (if committed then db1 else RolledBack(db, db1), Some(ExceptionOf(commit)))
  }

  /** The batch's SKUs are pairwise distinct and new to the table. */
  ghost predicate Fresh(db: Db, drafts: seq<Draft>) {
    && (forall k :: 0 <= k < |drafts| ==> !SkuExists(db, drafts[k].sku))
    && (forall j, k :: 0 <= j < k < |drafts| ==> drafts[j].sku != drafts[k].sku)
  }

  ghost predicate AllFine(saves: seq<Saving>) {
    forall k :: 0 <= k < |saves| ==> saves[k].Fine?
  }

  /** after holds before's rows and, under the next identity values, all of the batch. */
  ghost predicate AllAdded(before: Db, after: Db, drafts: seq<Draft>) {
    && after.nextId == before.nextId + |drafts| && after.nextVersion == before.nextVersion + |drafts|
    && (forall id :: id in after.rows <==> id in before.rows || before.nextId <= id < after.nextId)
    && (forall id :: id in before.rows && id < before.nextId ==> after.rows[id] == before.rows[id])
    && (forall k :: 0 <= k < |drafts| ==>
          after.rows[before.nextId + k] ==
          Product(drafts[k].sku, drafts[k].name, drafts[k].price, before.nextVersion + k))
  }

  /** One insert: without a fault it succeeds exactly if no row has the SKU, and then the row it answers with
      is the only change; refused, it changes no row. A fault may hide a row that is there. */
  lemma AddIsExact(db: Db, d: Draft, s: Saving)
    requires forall id :: id in db.rows ==> id < db.nextId
    ensures var (db', r) := TryAdd(db, d, s); var taken := exists id :: id in db.rows && db.rows[id].sku == d.sku;
            && db'.nextId == db.nextId + 1 && db'.nextVersion == db.nextVersion + 1
            && (r.Ok? <==> s.Fine? && !taken)
            && (r.Ok? ==> r.value !in db.rows && r.value in db'.rows)
            && (db'.rows == db.rows
                || db'.rows == db.rows[db.nextId := Product(d.sku, d.name, d.price, db.nextVersion)])
            && (r.Ok? ==> db'.rows != db.rows)
            && (db'.rows != db.rows <==> !taken && (s.Fine? || s.committed))
            && (r.Threw? ==> r.exception == if s.Fine? || s.wrapped then DbUpdate else Other)
  {
    assert db.nextId !in db.rows;
  }

  lemma FreshAfterInsert(db: Db, drafts: seq<Draft>)
    requires drafts != [] && !SkuExists(db, drafts[0].sku) && db.nextId !in db.rows
    ensures Fresh(db, drafts) <==> Fresh(Inserted(db, drafts[0]), drafts[1..])
  {
    var db1 := Inserted(db, drafts[0]);
    forall sku: string ensures SkuExists(db1, sku) <==> SkuExists(db, sku) || sku == drafts[0].sku {
      if SkuExists(db, sku) {
        var id :| id in db.rows && db.rows[id].sku == sku;
        assert id in db1.rows && db1.rows[id].sku == sku;
      }
      assert db1.rows[db.nextId].sku == drafts[0].sku;
    }
    if Fresh(db1, drafts[1..]) {
      forall k | 0 <= k < |drafts|
        ensures !SkuExists(db, drafts[k].sku)
      {
        if k > 0 { assert drafts[1..][k - 1] == drafts[k]; }
      }
      forall j, k | 0 <= j < k < |drafts| ensures drafts[j].sku != drafts[k].sku {
        assert drafts[1..][k - 1] == drafts[k];
        if j > 0 { assert drafts[1..][j - 1] == drafts[j]; }
      }
    }
  }

  lemma OneMoreAdded(db: Db, db': Db, drafts: seq<Draft>)
    requires drafts != [] && (forall id :: id in db.rows ==> id < db.nextId)
    requires AllAdded(Inserted(db, drafts[0]), db', drafts[1..])
    ensures AllAdded(db, db', drafts)
  {
    var rest := drafts[1..];
    forall k | 0 <= k < |drafts|
      ensures db'.rows[db.nextId + k] ==
              Product(drafts[k].sku, drafts[k].name, drafts[k].price, db.nextVersion + k)
    {
      if k > 0 { assert rest[k - 1] == drafts[k]; }
    }
  }

  lemma FirstIsFine(saves: seq<Saving>)
    requires saves != []
    ensures AllFine(saves) <==> saves[0].Fine? && AllFine(saves[1..])
  {
    assert saves == [saves[0]] + saves[1..];
  }

  lemma NothingAdded(db: Db)
    ensures Fresh(db, []) && AllFine([]) && AllAdded(db, db, [])
  {
  }

  lemma {:induction false} AddAllAdds(db: Db, drafts: seq<Draft>, saves: seq<Saving>)
    requires |saves| == |drafts| && forall id :: id in db.rows ==> id < db.nextId
    ensures var (db', raised) := AddAll(db, drafts, saves);
            && (raised.None? <==> Fresh(db, drafts) && AllFine(saves))
            && (raised.None? ==> AllAdded(db, db', drafts))
    decreases |drafts|
  {
    hide AllFine, AllAdded, Inserted, SkuExists, Fresh;
    if drafts == [] {
      NothingAdded(db);
    } else {
      FirstIsFine(saves);
      if SkuExists(db, drafts[0].sku) {
        TakenIsNotFresh(db, drafts);
      } else {
        FreshAfterInsert(db, drafts);
        if saves[0].Fine? {
          InsertedIds(db, drafts[0]);
          var db1 := Inserted(db, drafts[0]);
          AddAllAdds(db1, drafts[1..], saves[1..]);
          var (db', raised) := AddAll(db1, drafts[1..], saves[1..]);
          if raised.None? { OneMoreAdded(db, db', drafts); }
        }
      }
    }
  }

  lemma TakenIsNotFresh(db: Db, drafts: seq<Draft>)
    requires drafts != [] && SkuExists(db, drafts[0].sku)
    ensures !Fresh(db, drafts)
  {
  }

  lemma InsertedIds(db: Db, d: Draft)
    requires forall id :: id in db.rows ==> id < db.nextId
    ensures forall id :: id in Inserted(db, d).rows ==> id < Inserted(db, d).nextId
  {
  }

  /** Bulk insert: it succeeds exactly when the batch's SKUs are pairwise distinct and new and nothing
      faults; then all products are there; otherwise none is, unless the commit itself lost its reply. */
  lemma BulkInsertIsAllOrNothing(db: Db, drafts: seq<Draft>, saves: seq<Saving>, commit: Saving)
    requires |saves| == |drafts| && forall id :: id in db.rows ==> id < db.nextId
    ensures var (db', raised) := TryAddRange(db, drafts, saves, commit);
            && (raised.None? <==> Fresh(db, drafts) && AllFine(saves) && commit.Fine?)
            && (raised.None? ==> AllAdded(db, db', drafts))
            && (raised.Some? ==>
                  db'.rows == db.rows || (commit.Fault? && commit.committed && AllAdded(db, db', drafts)))
  {
    hide AddAll, Fresh, AllFine, AllAdded;
    AddAllAdds(db, drafts, saves);
    var (db1, raised) := AddAll(db, drafts, saves);
    assert raised.Some? ==> TryAddRange(db, drafts, saves, commit) == (RolledBack(db, db1), raised);
  }

  // ---------- updating and removing ----------

  /** What UpdateAsync has tracked when it saves: the row as loaded and the request. */
  datatype Update = Update(id: int, loaded: Product, name: string, price: int, version: nat)

  predicate Changes(u: Update) { u.name != u.loaded.name || u.price != u.loaded.price }

  /** The row that SaveChanges finds still has the version the client sent. */
  predicate Matches(db: Db, id: int, version: nat) {
    id in db.rows && db.rows[id].rowVersion == version
  }

  /** Only the columns that differ from the loaded row are written; the row version is always replaced. */
  function Written(db: Db, u: Update): Db
    requires u.id in db.rows
  {
    var row := db.rows[u.id];
    var name := if u.name != u.loaded.name then u.name else row.name;
    var price := if u.price != u.loaded.price then u.price else row.price;
    db.(rows := db.rows[u.id := Product(row.sku, name, price, db.nextVersion)], nextVersion := db.nextVersion + 1)
  }

  /** Whether the UPDATE statement is issued and takes effect. `quiet` is whether a request that changes
      neither column issues none. */
  predicate Writes(db: Db, u: Update, s: Saving, quiet: bool) {
    (Changes(u) || !quiet) && Matches(db, u.id, u.version) && (s.Fine? || s.committed)
  }

  function SaveUpdate(db: Db, u: Update, s: Saving, quiet: bool): (Db, Result<Product>) {
    if !Changes(u) && quiet then (db, Ok(u.loaded))
    else
      var db' := if Writes(db, u, s, quiet) then Written(db, u) else db;
      if s.Fault? then (db', Threw(ExceptionOf(s)))
      else if Matches(db, u.id, u.version) then (db', Ok(Product(u.loaded.sku, u.name, u.price, db.nextVersion)))
      else (db', Threw(DbUpdateConcurrency))
  }

  /** RemoveAsync deletes the version it loaded. */
  function SaveRemove(db: Db, id: int, loaded: Product, s: Saving): (Db, Result<bool>) {
    var removes := Matches(db, id, loaded.rowVersion) && (s.Fine? || s.committed);
    var db' := if removes then db.(rows := db.rows - {id}) else db;
    if s.Fault? then (db', Threw(ExceptionOf(s)))
    else if Matches(db, id, loaded.rowVersion) then (db', Ok(true))
    else (db', Threw(DbUpdateConcurrency))
  }

  // ---------- interleaved clients ----------

  /** A request between its read and its save. `asOf` is the first version the database had not yet produced. */
  datatype Session = Creating(draft: Draft) | Updating(update: Update, asOf: nat) | Removing(id: int, loaded: Product)

  /** One UPDATE statement that took effect. */
  datatype Write = Write(id: int, submitted: nat, produced: nat)

  /** `born` and `writes` record inserts and updates; no step reads them. */
  datatype World = World(db: Db, sessions: map<int, Session>, born: map<int, nat>, writes: seq<Write>)

  datatype Event =
    | CheckSku(client: int, draft: Draft)                                                // Create's first layer
    | Insert(client: int, s: Saving)                                                     // and its second
    | BulkInsert(drafts: seq<Draft>, saves: seq<Saving>, commit: Saving)
    | Find(client: int, id: int, name: string, price: int, version: nat)                 // UpdateAsync reads
    | Save(client: int, s: Saving, quiet: bool)                                          // and saves
    | FindDoomed(client: int, id: int)                                                   // RemoveAsync reads
    | Remove(client: int, s: Saving)                                                     // and saves
    | Vanish(client: int)                                                                // a request dies in between

  predicate Legal(w: World, e: Event) {
    match e
    case Insert(k, _) => k in w.sessions && w.sessions[k].Creating?
    case BulkInsert(drafts, saves, _) => |saves| == |drafts|
    case Save(k, _, _) => k in w.sessions && w.sessions[k].Updating?
    case Remove(k, _) => k in w.sessions && w.sessions[k].Removing?
    case _ => true
  }

  /** Records the rows that db' has and db has not. */
  function Born(w: World, db': Db): map<int, nat> {
    w.born + map id | id in db'.rows && id !in w.db.rows :: db'.rows[id].rowVersion
  }

  function Apply(w: World, e: Event): World
    requires Legal(w, e)
  {
    match e
    case CheckSku(k, d) => if SkuExists(w.db, d.sku) then w else w.(sessions := w.sessions[k := Creating(d)])
    case Insert(k, s) =>
      var db' := TryAdd(w.db, w.sessions[k].draft, s).0;
      w.(db := db', sessions := w.sessions - {k}, born := Born(w, db'))
    case BulkInsert(drafts, saves, commit) =>
      var db' := TryAddRange(w.db, drafts, saves, commit).0;
      w.(db := db', born := Born(w, db'))
    case Find(k, id, name, price, version) =>
      if id !in w.db.rows then w
      else w.(sessions := w.sessions[k := Updating(Update(id, w.db.rows[id], name, price, version), w.db.nextVersion)])
    case Save(k, s, quiet) =>
      var u := w.sessions[k].update;
      w.(db := SaveUpdate(w.db, u, s, quiet).0, sessions := w.sessions - {k},
         writes := if Writes(w.db, u, s, quiet) then w.writes + [Write(u.id, u.version, w.db.nextVersion)]
                   else w.writes)
    case FindDoomed(k, id) =>
      if id !in w.db.rows then w else w.(sessions := w.sessions[k := Removing(id, w.db.rows[id])])
    case Remove(k, s) =>
      w.(db := SaveRemove(w.db, w.sessions[k].id, w.sessions[k].loaded, s).0, sessions := w.sessions - {k})
    case Vanish(k) => w.(sessions := w.sessions - {k})
  }

  ghost predicate IsRun(t: seq<World>, events: seq<Event>) {
    && |t| == |events| + 1 && t[0] == World(Db(map[], 1, 1), map[], map[], [])
    && forall i :: 0 <= i < |events| ==> Legal(t[i], events[i]) && t[i + 1] == Apply(t[i], events[i])
  }

  // ---------- the invariant ----------

  ghost predicate SkusUnique(db: Db) {
    forall a, b :: a in db.rows && b in db.rows && db.rows[a].sku == db.rows[b].sku ==> a == b
  }

  /** The version the last effective write produced, or the insert's. */
  ghost function Latest(writes: seq<Write>, born: map<int, nat>, id: int): nat {
    if writes == [] then (if id in born then born[id] else 0)
    else if writes[|writes| - 1].id == id then writes[|writes| - 1].produced
    else Latest(writes[..|writes| - 1], born, id)
  }

  /** Each effective update was submitted with the version its predecessor produced, and produced a newer one. */
  ghost predicate Chained(writes: seq<Write>, born: map<int, nat>) {
    forall j :: 0 <= j < |writes| ==>
      && writes[j].id in born && writes[j].submitted == Latest(writes[..j], born, writes[j].id)
      && writes[j].submitted < writes[j].produced
  }

  ghost predicate VersionsKnown(w: World) {
    && (forall id :: id in w.born ==> id < w.db.nextId)
    && (forall id :: id in w.db.rows ==>
          id in w.born && w.db.rows[id].rowVersion == Latest(w.writes, w.born, id) < w.db.nextVersion)
  }

  /** A row whose version existed when a request read it is still what that request read. */
  ghost predicate Remembers(db: Db, s: Session) {
    s.Updating? ==>
      && s.asOf <= db.nextVersion
      && (s.update.id in db.rows && db.rows[s.update.id].rowVersion < s.asOf ==>
            db.rows[s.update.id] == s.update.loaded)
  }

  ghost predicate SessionsRemember(w: World) {
    forall k :: k in w.sessions ==> Remembers(w.db, w.sessions[k])
  }

  ghost predicate Inv(w: World) {
    SkusUnique(w.db) && VersionsKnown(w) && Chained(w.writes, w.born) && SessionsRemember(w)
  }

  // ---------- every step keeps it ----------

  /** Inserts only add rows, with new ids and new versions. */
  ghost predicate OnlyAdds(db: Db, db': Db) {
    && db.nextId <= db'.nextId && db.nextVersion <= db'.nextVersion
    && (forall id :: id in db.rows ==> id in db'.rows && db'.rows[id] == db.rows[id])
    && (forall id :: id in db'.rows && id !in db.rows ==>
          db.nextId <= id < db'.nextId && db.nextVersion <= db'.rows[id].rowVersion < db'.nextVersion)
  }

  lemma AddOnlyAdds(db: Db, d: Draft, s: Saving)
    requires SkusUnique(db) && forall id :: id in db.rows ==> id < db.nextId
    ensures OnlyAdds(db, TryAdd(db, d, s).0) && SkusUnique(TryAdd(db, d, s).0)
    ensures forall id :: id in TryAdd(db, d, s).0.rows ==> id < TryAdd(db, d, s).0.nextId
  {
  }

  lemma {:induction false} AddAllOnlyAdds(db: Db, drafts: seq<Draft>, saves: seq<Saving>)
    requires |saves| == |drafts| && SkusUnique(db) && forall id :: id in db.rows ==> id < db.nextId
    ensures OnlyAdds(db, AddAll(db, drafts, saves).0) && SkusUnique(AddAll(db, drafts, saves).0)
    decreases |drafts|
  {
    if drafts != [] {
      var (db1, r) := TryAdd(db, drafts[0], saves[0]);
      AddOnlyAdds(db, drafts[0], saves[0]);
      if r.Ok? { AddAllOnlyAdds(db1, drafts[1..], saves[1..]); }
    }
  }

  lemma {:induction false} LatestBorn(writes: seq<Write>, born: map<int, nat>, born': map<int, nat>, id: int)
    requires id in born ==> id in born' && born'[id] == born[id]
    requires id !in born ==> forall j :: 0 <= j < |writes| ==> writes[j].id != id
    ensures Latest(writes, born', id) ==
            if id in born then Latest(writes, born, id) else if id in born' then born'[id] else 0
  {
    if writes != [] { LatestBorn(writes[..|writes| - 1], born, born', id); }
  }

  /** Adding rows keeps the invariant. */
  lemma AddingKeepsInv(w: World, w': World)
    requires Inv(w) && OnlyAdds(w.db, w'.db) && SkusUnique(w'.db)
    requires w'.writes == w.writes && w'.born == Born(w, w'.db)
    requires forall k :: k in w'.sessions ==> k in w.sessions && w'.sessions[k] == w.sessions[k]
    ensures Inv(w')
  {
    forall id | id in w.born ensures id in w'.born && w'.born[id] == w.born[id] {
      assert id in w'.db.rows && id !in w.db.rows ==> w.db.nextId <= id;
    }
    forall j | 0 <= j < |w.writes| ensures w.writes[j].submitted == Latest(w.writes[..j], w'.born, w.writes[j].id) {
      LatestBorn(w.writes[..j], w.born, w'.born, w.writes[j].id);
    }
    forall id | id in w'.db.rows
      ensures w'.db.rows[id].rowVersion == Latest(w.writes, w'.born, id) < w'.db.nextVersion
    {
      LatestBorn(w.writes, w.born, w'.born, id);
    }
  }

  lemma InsertKeepsInv(w: World, e: Event)
    requires Inv(w) && Legal(w, e) && (e.Insert? || e.BulkInsert?)
    ensures Inv(Apply(w, e))
  {
    if e.Insert? {
      AddOnlyAdds(w.db, w.sessions[e.client].draft, e.s);
    } else {
      AddAllOnlyAdds(w.db, e.drafts, e.saves);
    }
    AddingKeepsInv(w, Apply(w, e));
  }

  lemma WriteKeepsRows(w: World, u: Update)
    requires SkusUnique(w.db) && VersionsKnown(w) && u.id in w.db.rows
    ensures var w' := w.(db := Written(w.db, u), writes := w.writes + [Write(u.id, u.version, w.db.nextVersion)]);
            SkusUnique(w'.db) && VersionsKnown(w')
  {
  }

  lemma WriteKeepsChain(w: World, u: Update)
    requires Chained(w.writes, w.born) && VersionsKnown(w) && Matches(w.db, u.id, u.version)
    ensures Chained(w.writes + [Write(u.id, u.version, w.db.nextVersion)], w.born)
  {
    var writes' := w.writes + [Write(u.id, u.version, w.db.nextVersion)];
    forall j | 0 <= j < |writes'| ensures writes'[j].submitted == Latest(writes'[..j], w.born, writes'[j].id) {
      assert writes'[..j] == w.writes[..j];
    }
  }

  lemma SaveKeepsInv(w: World, e: Event)
    requires Inv(w) && Legal(w, e) && e.Save?
    ensures Inv(Apply(w, e))
  {
    var u, w' := w.sessions[e.client].update, Apply(w, e);
    if Writes(w.db, u, e.s, e.quiet) {
      WriteKeepsRows(w, u);
      WriteKeepsChain(w, u);
      assert VersionsKnown(w') by { assert w'.db == Written(w.db, u); }
      forall k | k in w'.sessions ensures Remembers(w'.db, w'.sessions[k]) { assert Remembers(w.db, w.sessions[k]); }
    } else {
      assert w'.db == w.db;
    }
  }

  lemma RestKeepsInv(w: World, e: Event)
    requires Inv(w) && Legal(w, e) && !e.Insert? && !e.BulkInsert? && !e.Save?
    ensures Inv(Apply(w, e))
  {
  }

  lemma {:induction false} RunKeepsInv(t: seq<World>, events: seq<Event>, k: nat)
    requires IsRun(t, events) && k < |t|
    ensures Inv(t[k])
  {
    if k > 0 {
      RunKeepsInv(t, events, k - 1);
      var e := events[k - 1];
      assert Legal(t[k - 1], e) && t[k] == Apply(t[k - 1], e);
      if e.Insert? || e.BulkInsert? { InsertKeepsInv(t[k - 1], e); }
      else if e.Save? { SaveKeepsInv(t[k - 1], e); }
      else { RestKeepsInv(t[k - 1], e); }
    }
  }

  // ---------- theorems over whole runs ----------

  /** SKUs stay unique, whatever races, rolls back, or loses its reply. */
  lemma SkusStayUnique(t: seq<World>, events: seq<Event>, k: nat)
    requires IsRun(t, events) && k < |t|
    ensures SkusUnique(t[k].db)
  {
    RunKeepsInv(t, events, k);
  }

  lemma {:induction false} LatestGrows(writes: seq<Write>, born: map<int, nat>, i: nat, j: nat)
    requires Chained(writes, born) && i < j <= |writes|
    ensures writes[i].produced <= Latest(writes[..j], born, writes[i].id)
    decreases j
  {
    assert writes[..j][..j - 1] == writes[..j - 1];
    if i < j - 1 { LatestGrows(writes, born, i, j - 1); }
  }

  /** No lost update: the effective updates of a product form a chain in which each was submitted with
      the version its predecessor produced, so no version is ever updated from twice. */
  lemma NoLostUpdate(t: seq<World>, events: seq<Event>, k: nat)
    requires IsRun(t, events) && k < |t|
    ensures Chained(t[k].writes, t[k].born)
    ensures forall i, j :: 0 <= i < j < |t[k].writes| && t[k].writes[i].id == t[k].writes[j].id ==>
              t[k].writes[i].submitted != t[k].writes[j].submitted
  {
    RunKeepsInv(t, events, k);
    var writes, born := t[k].writes, t[k].born;
    forall i, j | 0 <= i < j < |writes| && writes[i].id == writes[j].id
      ensures writes[i].submitted != writes[j].submitted
    {
      LatestGrows(writes, born, i, j);
    }
  }

  /** An update that a client sends with a version it has read, and that changes something, succeeds
      without a fault exactly if the row still has that version; then the row read is the row
      overwritten, and it holds the requested name and price. */
  lemma UpdateIsExact(t: seq<World>, events: seq<Event>, k: nat)
    requires IsRun(t, events) && k < |events| && events[k].Save? && events[k].s.Fine?
    requires var s := t[k].sessions[events[k].client];
             && s.Updating? && s.update.version < s.asOf
             && (s.update.name != s.update.loaded.name || s.update.price != s.update.loaded.price)
    ensures var u := t[k].sessions[events[k].client].update; var (db, db') := (t[k].db, t[k + 1].db);
            var current := u.id in db.rows && db.rows[u.id].rowVersion == u.version;
            var result := SaveUpdate(db, u, Fine, events[k].quiet).1;
            && (current ==>
                  db.rows[u.id] == u.loaded
                  && db'.rows == db.rows[u.id := Product(u.loaded.sku, u.name, u.price, db.nextVersion)]
                  && result == Ok(db'.rows[u.id]))
            && (!current ==> db' == db && result == Threw(DbUpdateConcurrency))
  {
    RunKeepsInv(t, events, k);
    var s := t[k].sessions[events[k].client];
    assert Remembers(t[k].db, s);
    assert t[k + 1] == Apply(t[k], events[k]);
  }

  /** A request's column that is what it loaded is not written: the row keeps what it has by then. */
  lemma OnlyChangesAreWritten(db: Db, u: Update, s: Saving, quiet: bool)
    requires u.id in db.rows
    ensures var (db', _) := SaveUpdate(db, u, s, quiet);
            && u.id in db'.rows && db'.rows[u.id].sku == db.rows[u.id].sku
            && (u.name == u.loaded.name ==> db'.rows[u.id].name == db.rows[u.id].name)
            && (u.price == u.loaded.price ==> db'.rows[u.id].price == db.rows[u.id].price)
  {
  }

  /** A fault leaves an update or a removal either done or not begun, as it came after or before the commit. */
  lemma FaultsHideOrPrevent(db: Db, u: Update, id: int, loaded: Product, s: Saving, quiet: bool)
    requires s.Fault? && (u.name != u.loaded.name || u.price != u.loaded.price)
    ensures SaveUpdate(db, u, s, quiet).0 == if s.committed then SaveUpdate(db, u, Fine, quiet).0 else db
    ensures SaveRemove(db, id, loaded, s).0 == if s.committed then SaveRemove(db, id, loaded, Fine).0 else db
    ensures SaveUpdate(db, u, s, quiet).1.Threw? && SaveRemove(db, id, loaded, s).1.Threw?
  {
  }

  /** A removal without a fault succeeds exactly if the row still has the version it loaded, and then only that
      row is gone; otherwise it is a conflict and nothing changes. */
  lemma RemoveIsExact(t: seq<World>, events: seq<Event>, k: nat)
    requires IsRun(t, events) && k < |events| && events[k].Remove? && events[k].s.Fine?
    requires t[k].sessions[events[k].client].Removing?
    ensures var s := t[k].sessions[events[k].client]; var (db, db') := (t[k].db, t[k + 1].db);
            var current := s.id in db.rows && db.rows[s.id].rowVersion == s.loaded.rowVersion;
            && SaveRemove(db, s.id, s.loaded, Fine).1 == (if current then Ok(true) else Threw(DbUpdateConcurrency))
            && db' == if current then db.(rows := map id | id in db.rows && id != s.id :: db.rows[id]) else db
  {
    assert t[k + 1] == Apply(t[k], events[k]);
  }

  /** A taken SKU goes no further than Create's own check; any other is remembered as it was requested. */
  lemma TakenGoesNoFurther(w: World, k: int, d: Draft)
    ensures (exists id :: id in w.db.rows && w.db.rows[id].sku == d.sku) ==> Apply(w, CheckSku(k, d)) == w
    ensures (forall id :: id in w.db.rows ==> w.db.rows[id].sku != d.sku) ==>
              Apply(w, CheckSku(k, d)) == w.(sessions := w.sessions[k := Creating(d)])
  {
    hide TryAdd, TryAddRange, SaveUpdate, SaveRemove, Born, Writes;
  }
}
