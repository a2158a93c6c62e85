/** The search copy of the work orders: upserts, the per-organization rebuild, and when the copy follows the outbox. */
module SearchIndex {
  import opened Domain
  import opened Outbox

  function DocumentOf(id: int, w: WorkOrder): SearchDocument {
    SearchDocument(id, w.organizationId, w.title, w.status)
  }

  /** The document says of this work order what the work order says, field by field. */
  predicate Shows(d: SearchDocument, id: int, w: WorkOrder) {
    d.id == id && d.organizationId == w.organizationId && d.title == w.title && d.status == w.status
  }

  /** A document that agrees with a real work order on everything that never changes. */
  predicate Genuine(d: SearchDocument, orders: map<int, WorkOrder>) {
    d.id in orders && d.organizationId == orders[d.id].organizationId && d.title == orders[d.id].title
  }

  /** Each indexed document is genuine and filed under its id. */
  ghost predicate Sound(index: map<int, SearchDocument>, orders: map<int, WorkOrder>) {
    forall id :: id in index ==> index[id].id == id && Genuine(index[id], orders)
  }

  // ---------- rebuild ----------

  /** Delete-by-query over one organization; a failed one leaves some of its documents behind. */
  datatype Delete = Deleted | DeleteFailed(survivors: set<int>)

  function Cleared(index: map<int, SearchDocument>, organizationId: int,
                   survivors: set<int>): map<int, SearchDocument>
  {
    map id | id in index && (index[id].organizationId != organizationId || id in survivors) :: index[id]
  }

  /** The re-adding loop: the first exception ends it. */
  function Readd(index: map<int, SearchDocument>, documents: seq<SearchDocument>, script: seq<Send>)
    : (map<int, SearchDocument>, bool)
    requires |script| == |documents|
    decreases |documents|
  {
    if documents == [] then (index, true)
    else
      var index' := if script[0].SendThrew? then index else index[documents[0].id := documents[0]];
      if script[0].Sent? then Readd(index', documents[1..], script[1..]) else (index', false)
  }

  function Rebuild(index: map<int, SearchDocument>, organizationId: int, documents: seq<SearchDocument>, delete: Delete,
                   script: seq<Send>)
    : (map<int, SearchDocument>, bool)
    requires |script| == |documents|
  {
    if delete.DeleteFailed? then (Cleared(index, organizationId, delete.survivors), false)
    else Readd(Cleared(index, organizationId, {}), documents, script)
  }

  /** What the controller reads from the database for a rebuild: the organization's orders, in any order. */
  ghost predicate Lists(documents: seq<SearchDocument>, orders: map<int, WorkOrder>, organizationId: int) {
    && (forall k :: 0 <= k < |documents| ==> Current(documents[k], orders, organizationId))
    && (forall id :: id in orders && orders[id].organizationId == organizationId ==>
          DocumentOf(id, orders[id]) in documents)
  }

  ghost predicate Current(d: SearchDocument, orders: map<int, WorkOrder>, organizationId: int) {
    d.id in orders && orders[d.id].organizationId == organizationId && d == DocumentOf(d.id, orders[d.id])
  }

  /** The loop only ever adds listed documents, and all of them if it finishes. */
  lemma {:induction false} ReaddAdds(index: map<int, SearchDocument>, documents: seq<SearchDocument>, script: seq<Send>,
                                     orders: map<int, WorkOrder>, organizationId: int)
    requires |script| == |documents|
    requires forall k :: 0 <= k < |documents| ==> Current(documents[k], orders, organizationId)
    ensures var (index', done) := Readd(index, documents, script);
            && (forall id :: id in index' ==>
                  (id in index && index'[id] == index[id]) || (index'[id] in documents && index'[id].id == id))
            && (forall id :: id in index ==> id in index')
            && (done <==> forall k :: 0 <= k < |script| ==> script[k].Sent?)
            && (done ==> forall d :: d in documents ==> d.id in index' && index'[d.id] == d)
    decreases |documents|
  {
    if documents != [] {
      var index1 := if script[0].SendThrew? then index else index[documents[0].id := documents[0]];
      if script[0].Sent? {
        ReaddAdds(index1, documents[1..], script[1..], orders, organizationId);
        var (index', done) := Readd(index1, documents[1..], script[1..]);
        assert documents == [documents[0]] + documents[1..] && script == [script[0]] + script[1..];
        if done {
          assert documents[0].id in index';
          assert Current(documents[0], orders, organizationId);
          forall d | d in documents ensures d.id in index' && index'[d.id] == d {
            if d !in documents[1..] {
              assert d == documents[0];
              assert index'[d.id] in documents[1..] ==> Current(index'[d.id], orders, organizationId);
            }
          }
        }
      }
    }
  }

  /** A rebuild that runs to its end makes the organization's documents exactly its current work orders;
      one that fails part-way leaves only leftovers or current documents of it. Neither touches another
      organization, and the index stays sound. */
  lemma RebuildIsExact(index: map<int, SearchDocument>, orders: map<int, WorkOrder>, organizationId: int,
                       documents: seq<SearchDocument>, delete: Delete, script: seq<Send>)
    requires Sound(index, orders) && Lists(documents, orders, organizationId) && |script| == |documents|
    ensures var (index', done) := Rebuild(index, organizationId, documents, delete, script);
            && Sound(index', orders)
            && (done <==> delete.Deleted? && forall k :: 0 <= k < |script| ==> script[k].Sent?)
            && (forall id :: id in orders && orders[id].organizationId != organizationId ==>
                  (id in index' <==> id in index) && (id in index ==> index'[id] == index[id]))
            && (done ==> forall id :: id in orders && orders[id].organizationId == organizationId ==>
                  id in index' && Shows(index'[id], id, orders[id]))
            && (!done ==> forall id :: id in index' && orders[id].organizationId == organizationId ==>
                  if delete.Deleted? then Shows(index'[id], id, orders[id])
                  else id in index && index'[id] == index[id])
  {
    if delete.Deleted? {
      var cleared := Cleared(index, organizationId, {});
      ReaddAdds(cleared, documents, script, orders, organizationId);
      var (index', done) := Readd(cleared, documents, script);
      forall id | id in index'
        ensures (id in cleared && index'[id] == cleared[id]) || Current(index'[id], orders, organizationId) {}
      if done {
        forall id | id in orders && orders[id].organizationId == organizationId
          ensures id in index' && Shows(index'[id], id, orders[id])
        {
          assert DocumentOf(id, orders[id]) in documents;
        }
      }
    }
  }

  /** Whatever was in the index before: a rebuild that ends has a document for each order of the organization,
      and it shows the order as it is. */
  lemma RebuildShows(index: map<int, SearchDocument>, orders: map<int, WorkOrder>, organizationId: int,
                     documents: seq<SearchDocument>, delete: Delete, script: seq<Send>)
    requires Lists(documents, orders, organizationId) && |script| == |documents|
    ensures var (index', done) := Rebuild(index, organizationId, documents, delete, script);
            done ==> forall id :: id in orders && orders[id].organizationId == organizationId ==>
              id in index' && Shows(index'[id], id, orders[id])
  {
    if delete.Deleted? {
      ReaddAdds(Cleared(index, organizationId, {}), documents, script, orders, organizationId);
      forall id | id in orders && orders[id].organizationId == organizationId
        ensures DocumentOf(id, orders[id]) in documents && Shows(DocumentOf(id, orders[id]), id, orders[id])
      {
      }
    }
  }

  // ---------- does the copy follow the outbox? ----------

  predicate For(row: OutboxRow, id: int) { row.entry.Indexing? && row.entry.document.id == id }

  /** Upserts in sequence leave the last document given for each id. */
  lemma {:induction false} LastUpsertWins(index: map<int, SearchDocument>, rows: seq<OutboxRow>, id: int)
    ensures var index' := Upserted(index, rows);
            || (id in index' && exists k :: 0 <= k < |rows| && For(rows[k], id) && index'[id] == rows[k].entry.document
                                            && forall j :: k < j < |rows| ==> !For(rows[j], id))
            || ((forall j :: 0 <= j < |rows| ==> !For(rows[j], id)) && (id in index' <==> id in index)
                && (id in index ==> index'[id] == index[id]))
    decreases |rows|
  {
    if rows != [] {
      var index1 := Upserted(index, [rows[0]]);
      UpsertedHead(index, [rows[0]], rows[1..]);
      assert rows == [rows[0]] + rows[1..];
      LastUpsertWins(index1, rows[1..], id);
      var index' := Upserted(index, rows);
      if k :| 0 <= k < |rows[1..]| && For(rows[1..][k], id) && index'[id] == rows[1..][k].entry.document
              && (forall j :: k < j < |rows[1..]| ==> !For(rows[1..][j], id)) && id in index' {
        forall j | k + 1 < j < |rows| ensures !For(rows[j], id) { assert !For(rows[1..][j - 1], id); }
        assert For(rows[k + 1], id);
      } else {
        forall j | 1 <= j < |rows| ensures !For(rows[j], id) { assert !For(rows[1..][j - 1], id); }
      }
    }
  }
}
