/** A rebuild in the middle of everything else: commits, ticks and other rebuilds fall between its steps. What
    is left when it ends is, order by order, the last document written after its delete. */
module RebuildRuns {
  import opened Common
  import opened Domain
  import opened WorkOrderStore
  import opened Outbox
  import opened Pipeline
  import AT = ApiTheorems
  import S = SearchIndex

  // ---------- what is written ----------

  /** The document one step writes to the index, if any: a hand-over's or a re-adding loop's. */
  function Writes(w: World, e: Event): seq<SearchDocument> {
    match e
    case RebuildIndex(k, o) =>
      if o.SendThrew? || k !in w.rebuilds || w.rebuilds[k].todo == [] then [] else [w.rebuilds[k].todo[0]]
    case TickAttempt(o) =>
      if w.tick.None? || w.tick.value.todo == [] then []
      else
        var row := w.tick.value.todo[0];
        if Effective(row, o) && row.entry.Indexing? then [row.entry.document] else []
    case _ => []
  }

  /** Everything written from state i to state j, in order. */
  function Written(t: seq<World>, events: seq<Event>, i: nat, j: nat): seq<SearchDocument>
    requires j <= |t| && j <= |events|
    decreases j
  {
    if j <= i then [] else Written(t, events, i, j - 1) + Writes(t[j - 1], events[j - 1])
  }

  /** The last document among these for one work order. */
  function LastDocument(documents: seq<SearchDocument>, id: int): Option<SearchDocument>
    decreases |documents|
  {
    if documents == [] then None
    else if documents[|documents| - 1].id == id then Some(documents[|documents| - 1])
    else LastDocument(documents[..|documents| - 1], id)
  }

  lemma {:induction false} LastDocumentIsAmong(documents: seq<SearchDocument>, id: int)
    ensures LastDocument(documents, id).None? ==> forall d :: d in documents ==> d.id != id
    ensures LastDocument(documents, id).Some? ==>
              LastDocument(documents, id).value in documents && LastDocument(documents, id).value.id == id
    decreases |documents|
  {
    if documents != [] {
      LastDocumentIsAmong(documents[..|documents| - 1], id);
      assert documents == documents[..|documents| - 1] + [documents[|documents| - 1]];
    }
  }

  lemma LastDocumentAfter(documents: seq<SearchDocument>, more: seq<SearchDocument>, id: int)
    requires |more| <= 1
    ensures LastDocument(documents + more, id) ==
            if more != [] && more[0].id == id then Some(more[0]) else LastDocument(documents, id)
  {
    if more == [] {
      assert documents + more == documents;
    } else {
      assert (documents + more)[..|documents|] == documents;
    }
  }

  /** The index holds this for the work order, or nothing. */
  ghost predicate Holds(index: map<int, SearchDocument>, id: int, document: Option<SearchDocument>) {
    if document.Some? then id in index && index[id] == document.value else id !in index
  }

  // ---------- one step ----------

  /** The work order is of this organization, if it exists yet. */
  ghost predicate Belongs(w: World, id: int, organizationId: int) {
    id in w.api.store.orders ==> w.api.store.orders[id].organizationId == organizationId
  }

  ghost predicate Deletes(w: World, e: Event, organizationId: int) {
    e.RebuildDelete? && e.client in w.rebuilds && w.rebuilds[e.client].organizationId == organizationId
  }

  lemma TickWrites(w: World, o: Send, id: int, document: Option<SearchDocument>)
    requires Legal(w, TickAttempt(o)) && Holds(w.index, id, document)
    ensures var w', docs := Apply(w, TickAttempt(o)), Writes(w, TickAttempt(o));
            |docs| <= 1 && Holds(w'.index, id, if docs != [] && docs[0].id == id then Some(docs[0]) else document)
  {
    AttemptIs(w, o);
    AttemptFrame(Pub(w), o);
    hide Apply, Attempt, Effective, Messages;
    assert Apply(w, TickAttempt(o)).index == Pub(Apply(w, TickAttempt(o))).index;
  }

  lemma DeleteElsewhere(w: World, e: Event, id: int, organizationId: int)
    requires S.Sound(w.index, w.api.store.orders) && Belongs(w, id, organizationId)
    requires Legal(w, e) && e.RebuildDelete? && !Deletes(w, e, organizationId)
    ensures var w' := Apply(w, e);
            (id in w'.index <==> id in w.index) && (id in w.index ==> w'.index[id] == w.index[id])
  {
  }

  lemma OthersWriteNothing(w: World, e: Event)
    requires Legal(w, e) && !e.TickAttempt? && !e.RebuildDelete? && !e.RebuildIndex?
    ensures Apply(w, e).index == w.index
  {
    hide S.Lists, Query, MarkRows, Messages, AT.Inv;
  }

  /** One step leaves the document it writes, or the one there was; nothing else changes it, except a delete
      for its own organization. */
  lemma StepWrites(w: World, e: Event, id: int, organizationId: int, document: Option<SearchDocument>)
    requires S.Sound(w.index, w.api.store.orders) && RebuildsListed(w) && Belongs(w, id, organizationId)
    requires Legal(w, e) && !Deletes(w, e, organizationId) && Holds(w.index, id, document)
    ensures var w', docs := Apply(w, e), Writes(w, e);
            |docs| <= 1 && Holds(w'.index, id, if docs != [] && docs[0].id == id then Some(docs[0]) else document)
  {
    hide Legal, Apply, S.Sound, RebuildsListed, Holds, Belongs;
    match e
    case TickAttempt(o) => TickWrites(w, o, id, document);
    case RebuildIndex(k, o) => RebuildWrites(w, k, o, id, document);
    case RebuildDelete(_, _) =>
      DeleteElsewhere(w, e, id, organizationId);
      SameHolds(w.index, Apply(w, e).index, id, document);
    case _ => OthersWriteNothing(w, e);
  }

  lemma SameHolds(index: map<int, SearchDocument>, index': map<int, SearchDocument>, id: int,
                  document: Option<SearchDocument>)
    requires (id in index' <==> id in index) && (id in index ==> index'[id] == index[id])
    ensures Holds(index', id, document) <==> Holds(index, id, document)
  {
  }

  lemma RebuildWrites(w: World, k: int, o: Send, id: int, document: Option<SearchDocument>)
    requires Legal(w, RebuildIndex(k, o)) && Holds(w.index, id, document)
    ensures var w', docs := Apply(w, RebuildIndex(k, o)), Writes(w, RebuildIndex(k, o));
            |docs| <= 1 && Holds(w'.index, id, if docs != [] && docs[0].id == id then Some(docs[0]) else document)
  {
  }

  // ---------- organizations do not change ----------

  lemma OrderPersists(w: World, e: Event, id: int)
    requires Inv(w) && Legal(w, e) && id in w.api.store.orders
    ensures var w' := Apply(w, e);
            id in w'.api.store.orders
            && w'.api.store.orders[id].organizationId == w.api.store.orders[id].organizationId
  {
    hide AT.Inv, S.Sound, S.Lists, FannedOut, SentFirst, RebuildsListed, Query, MarkRows, Messages, Effective;
    if e.Endpoint? { AT.ApplyKeepsInv(w.api, e.call); }
    if e.TickAttempt? { AttemptIs(w, e.send); }
  }

  lemma BelongedBeforeStep(w: World, e: Event, id: int, organizationId: int)
    requires Inv(w) && Legal(w, e) && Belongs(Apply(w, e), id, organizationId)
    ensures Belongs(w, id, organizationId)
  {
    hide Inv, Legal, Apply;
    if id in w.api.store.orders { OrderPersists(w, e, id); }
  }

  lemma {:induction false} BelongedBefore(t: seq<World>, events: seq<Event>, i: nat, e: nat, id: int,
                                          organizationId: int)
    requires IsRun(t, events) && i <= e < |t| && Belongs(t[e], id, organizationId)
    ensures Belongs(t[i], id, organizationId)
    decreases e
  {
    hide Inv, Legal, Apply, Starts, Belongs;
    if i < e {
      RunKeepsInv(t, events, e - 1);
      BelongedBeforeStep(t[e - 1], events[e - 1], id, organizationId);
      BelongedBefore(t, events, i, e - 1, id, organizationId);
    }
  }

  // ---------- a whole rebuild ----------

  predicate Begins(e: Event, k: int) { e.RebuildBegin? && e.client == k }

  /** Client k's rebuild deletes the organization's documents at step d and has re-added its list in state e;
      no other rebuild deletes this organization's documents in between. */
  ghost predicate Finishes(t: seq<World>, events: seq<Event>, d: nat, e: nat, k: int) {
    && IsRun(t, events) && d < e < |t| && k in t[d].rebuilds && events[d] == RebuildDelete(k, S.Deleted)
    && k in t[e].rebuilds && t[e].rebuilds[k].todo == []
    && forall i :: d < i < e ==> !Begins(events[i], k) && !Deletes(t[i], events[i], t[d].rebuilds[k].organizationId)
  }

  /** Right after the delete, nothing of the organization is left. */
  lemma NothingAfterDelete(t: seq<World>, events: seq<Event>, d: nat, k: int, id: int)
    requires IsRun(t, events) && d < |events| && k in t[d].rebuilds && events[d] == RebuildDelete(k, S.Deleted)
    requires Belongs(t[d], id, t[d].rebuilds[k].organizationId)
    ensures id !in t[d + 1].index
  {
    RunKeepsInv(t, events, d);
    hide AT.Inv, RebuildsListed, SentFirst, FannedOut;
    assert S.Sound(t[d].index, t[d].api.store.orders);
  }

  lemma FinishesStep(t: seq<World>, events: seq<Event>, d: nat, i: nat, e: nat, k: int)
    requires Finishes(t, events, d, e, k) && d <= i < e
    ensures e < |t| == |events| + 1 && Legal(t[i], events[i]) && t[i + 1] == Apply(t[i], events[i])
    ensures IsRun(t, events) && k in t[d].rebuilds && events[d] == RebuildDelete(k, S.Deleted)
    ensures d < i ==> !Begins(events[i], k) && !Deletes(t[i], events[i], t[d].rebuilds[k].organizationId)
  {
    hide Legal, Apply, Starts, Deletes, Begins;
  }

  lemma {:induction false} WrittenSinceDelete(t: seq<World>, events: seq<Event>, d: nat, j: nat, e: nat, k: int,
                                              id: int)
    requires Finishes(t, events, d, e, k) && d < j <= e && Belongs(t[e], id, t[d].rebuilds[k].organizationId)
    ensures Holds(t[j].index, id, LastDocument(Written(t, events, d + 1, j), id))
    decreases j
  {
    hide Inv, Legal, Apply, IsRun, Finishes, Belongs, Deletes, Begins, Starts, LastDocument, Holds, Writes;
    FinishesStep(t, events, d, j - 1, e, k);
    FinishesStep(t, events, d, d, e, k);
    var organizationId := t[d].rebuilds[k].organizationId;
    BelongedBefore(t, events, j - 1, e, id, organizationId);
    if j == d + 1 {
      NothingAfterDelete(t, events, d, k, id);
      NothingHeld(t[j].index, id);
    } else {
      WrittenSinceDelete(t, events, d, j - 1, e, k, id);
      var before := Written(t, events, d + 1, j - 1);
      RunKeepsInv(t, events, j - 1);
      InvIndex(t[j - 1]);
      StepWrites(t[j - 1], events[j - 1], id, organizationId, LastDocument(before, id));
      LastDocumentAfter(before, Writes(t[j - 1], events[j - 1]), id);
    }
  }

  lemma NothingHeld(index: map<int, SearchDocument>, id: int)
    requires id !in index
    ensures Holds(index, id, LastDocument([], id))
  {
  }

  lemma InvIndex(w: World)
    requires Inv(w)
    ensures S.Sound(w.index, w.api.store.orders) && RebuildsListed(w)
  {
  }

  /** Each listed document has been written, or is still to be. */
  ghost predicate Progress(listed: seq<SearchDocument>, written: seq<SearchDocument>, w: World, k: int) {
    k in w.rebuilds ==> forall x :: x in listed ==> x in written || x in w.rebuilds[k].todo
  }

  lemma StepProgress(w: World, e: Event, k: int, listed: seq<SearchDocument>, written: seq<SearchDocument>)
    requires Legal(w, e) && !Begins(e, k) && Progress(listed, written, w, k)
    ensures Progress(listed, written + Writes(w, e), Apply(w, e), k)
  {
    hide S.Lists, Query, MarkRows, Messages, Effective;
    if e == RebuildIndex(k, Sent) {
      var todo := w.rebuilds[k].todo;
      assert todo == [todo[0]] + todo[1..];
    }
    if e.TickAttempt? { AttemptIs(w, e.send); }
  }

  lemma {:induction false} RebuildProgress(t: seq<World>, events: seq<Event>, d: nat, j: nat, e: nat, k: int)
    requires Finishes(t, events, d, e, k) && d < j <= e
    ensures Progress(t[d].rebuilds[k].todo, Written(t, events, d + 1, j), t[j], k)
    decreases j
  {
    hide Legal, Apply, Starts, Deletes, Begins, Progress;
    if j == d + 1 {
      DeleteProgress(t[d], k);
    } else {
      RebuildProgress(t, events, d, j - 1, e, k);
      StepProgress(t[j - 1], events[j - 1], k, t[d].rebuilds[k].todo, Written(t, events, d + 1, j - 1));
    }
  }

  lemma DeleteProgress(w: World, k: int)
    requires Legal(w, RebuildDelete(k, S.Deleted))
    ensures Progress(w.rebuilds[k].todo, [], Apply(w, RebuildDelete(k, S.Deleted)), k)
  {
  }

  /** What a finished rebuild leaves, whatever else went on: for every order of its organization the index
      holds the last document written after the delete, and nothing if none was; and every listed document
      was written. */
  lemma InterleavedRebuild(t: seq<World>, events: seq<Event>, d: nat, e: nat, k: int, id: int)
    requires Finishes(t, events, d, e, k) && Belongs(t[e], id, t[d].rebuilds[k].organizationId)
    ensures var written := Written(t, events, d + 1, e);
            && Holds(t[e].index, id, LastDocument(written, id))
            && forall x :: x in t[d].rebuilds[k].todo ==> x in written
  {
    WrittenSinceDelete(t, events, d, e, e, k, id);
    RebuildProgress(t, events, d, e, e, k);
  }

  // ---------- from the request to its end ----------

  /** Client k's request at step b read this list; its rebuild went on to step d. */
  ghost predicate Reads(t: seq<World>, events: seq<Event>, b: nat, d: nat, k: int) {
    && b < d < |events| && b < |t| && Begins(events[b], k) && events[b].organizationId.Some? && k !in t[b].rebuilds
    && forall i :: b < i < d ==> !Begins(events[i], k)
  }

  /** The rebuild under way is the one begun with this list. */
  ghost predicate Begun(w: World, k: int, organizationId: int, documents: seq<SearchDocument>) {
    k in w.rebuilds ==> w.rebuilds[k].cleared || w.rebuilds[k] == Rebuilding(organizationId, false, documents)
  }

  lemma StepBegun(w: World, e: Event, k: int, organizationId: int, documents: seq<SearchDocument>)
    requires Legal(w, e) && !Begins(e, k) && Begun(w, k, organizationId, documents)
    ensures Begun(Apply(w, e), k, organizationId, documents)
  {
    hide S.Lists, Query, MarkRows, Messages, Effective;
    if e.TickAttempt? { AttemptIs(w, e.send); }
  }

  lemma {:induction false} StaysBegun(t: seq<World>, events: seq<Event>, b: nat, j: nat, d: nat, k: int)
    requires IsRun(t, events) && Reads(t, events, b, d, k) && b < j <= d
    ensures Begun(t[j], k, events[b].organizationId.value, events[b].documents)
    decreases j
  {
    hide Legal, Starts, S.Lists;
    var organizationId, documents := events[b].organizationId.value, events[b].documents;
    if j > b + 1 {
      StaysBegun(t, events, b, j - 1, d, k);
      StepBegun(t[j - 1], events[j - 1], k, organizationId, documents);
    }
  }

  /** A rebuild that ends has every order the request saw in the index: under the document the request saw,
      unless a later one was written after the delete; and under exactly that one if no other was. */
  lemma RebuildLeaves(t: seq<World>, events: seq<Event>, b: nat, d: nat, e: nat, k: int, id: int)
    requires Finishes(t, events, d, e, k) && Reads(t, events, b, d, k)
    requires id in t[b].api.store.orders
             && t[b].api.store.orders[id].organizationId == t[d].rebuilds[k].organizationId
    ensures var w := t[b].api.store.orders[id]; var written := Written(t, events, d + 1, e);
            var seen := SearchDocument(id, w.organizationId, w.title, w.status);
            && seen in written && id in t[e].index && t[e].index[id] in written
            && ((forall x :: x in written && x.id == id ==> x == seen) ==> t[e].index[id] == seen)
  {
    var seen, written := S.DocumentOf(id, t[b].api.store.orders[id]), Written(t, events, d + 1, e);
    SeenIsListed(t, events, b, d, k, id);
    var organizationId := t[d].rebuilds[k].organizationId;
    BelongsLater(t, events, b, e, id, organizationId);
    InterleavedRebuild(t, events, d, e, k, id);
    LastDocumentIsAmong(written, id);
    hide Written, IsRun, Finishes, Reads;
    assert seen in written && seen.id == id;
  }

  lemma SeenIsListed(t: seq<World>, events: seq<Event>, b: nat, d: nat, k: int, id: int)
    requires IsRun(t, events) && Reads(t, events, b, d, k)
    requires k in t[d].rebuilds && events[d] == RebuildDelete(k, S.Deleted) && id in t[b].api.store.orders
             && t[b].api.store.orders[id].organizationId == t[d].rebuilds[k].organizationId
    ensures S.DocumentOf(id, t[b].api.store.orders[id]) in t[d].rebuilds[k].todo
  {
    StaysBegun(t, events, b, d, d, k);
    hide Apply;
    assert Legal(t[d], events[d]) && Legal(t[b], events[b]);
  }

  lemma {:induction false} BelongsLater(t: seq<World>, events: seq<Event>, b: nat, e: nat, id: int, organizationId: int)
    requires IsRun(t, events) && b <= e < |t| && id in t[b].api.store.orders
    requires t[b].api.store.orders[id].organizationId == organizationId
    ensures id in t[e].api.store.orders && t[e].api.store.orders[id].organizationId == organizationId
    decreases e
  {
    hide Inv, Legal, Apply, Starts;
    if b < e {
      BelongsLater(t, events, b, e - 1, id, organizationId);
      RunKeepsInv(t, events, e - 1);
      OrderPersists(t[e - 1], events[e - 1], id);
    }
  }

  // ---------- who may, and what one failure does ----------

  /** A rebuild begins exactly for an admin of the organization named. */
  lemma OnlyAdminsRebuild(w: World, k: int, organizationId: Option<int>, actor: Option<int>,
                          documents: seq<SearchDocument>)
    requires Legal(w, RebuildBegin(k, organizationId, actor, documents))
    ensures var admin := organizationId.Some? && actor.Some? && actor.value in w.api.employees
                         && w.api.employees[actor.value] == Employee(organizationId.value, Role.Admin);
            Apply(w, RebuildBegin(k, organizationId, actor, documents)) ==
            if admin then w.(rebuilds := w.rebuilds[k := Rebuilding(organizationId.value, false, documents)]) else w
  {
  }

  /** Uninterrupted, the delete and the steps after it are the rebuild of SearchIndex.RebuildIsExact: a failed
      delete or the first failed call ends it, and otherwise its list runs out. */
  lemma UninterruptedIsRebuild(w: World, k: int, delete: S.Delete, script: seq<Send>)
    requires k in w.rebuilds && !w.rebuilds[k].cleared && |script| == |w.rebuilds[k].todo|
    ensures var r := w.rebuilds[k]; var w' := RunRebuild(Apply(w, RebuildDelete(k, delete)), k, script);
            var (index, done) := S.Rebuild(w.index, r.organizationId, r.todo, delete, script);
            && w'.index == index
            && if done then k in w'.rebuilds && w'.rebuilds[k].todo == [] else k !in w'.rebuilds
  {
    var w1 := Apply(w, RebuildDelete(k, delete));
    if delete.Deleted? {
      UninterruptedIsReadd(w1, k, script);
      ScriptEnds(w1, k, script);
    } else {
      NothingRuns(w1, k, script);
    }
  }

  lemma NothingRuns(w: World, k: int, script: seq<Send>)
    requires k !in w.rebuilds
    ensures RunRebuild(w, k, script) == w
  {
  }

  lemma {:induction false} ScriptEnds(w: World, k: int, script: seq<Send>)
    requires k in w.rebuilds && w.rebuilds[k].cleared && |script| == |w.rebuilds[k].todo|
    ensures var w' := RunRebuild(w, k, script);
            if S.Readd(w.index, w.rebuilds[k].todo, script).1 then k in w'.rebuilds && w'.rebuilds[k].todo == []
            else k !in w'.rebuilds
    decreases |script|
  {
    if script != [] {
      var w1 := Apply(w, RebuildIndex(k, script[0]));
      if script[0].Sent? { ScriptEnds(w1, k, script[1..]); } else { NothingRuns(w1, k, script[1..]); }
    }
  }
}
