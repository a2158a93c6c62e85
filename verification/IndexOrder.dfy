/** Which document the index holds for a work order: exactly when it is that of the newest index row
    handed over, in runs of the whole system, and three ways in which it is not. */
module IndexOrder {
  import opened Common
  import opened Domain
  import opened WorkOrderStore
  import opened Sorting
  import opened Outbox
  import opened Pipeline
  import opened TickRuns
  import Api
  import AT = ApiTheorems
  import S = SearchIndex
  import H = ConsumerHost

  /** r is the newest index row of the work order that has been handed over; row ids grow with time. */
  ghost predicate NewestSent(sent: seq<OutboxRow>, r: OutboxRow, id: int) {
    r in sent && S.For(r, id) && forall s :: s in sent && S.For(s, id) ==> s.id <= r.id
  }

  /** The work order's document is the one of its newest index row handed over. */
  ghost predicate Copied(sent: seq<OutboxRow>, index: map<int, SearchDocument>, id: int) {
    forall r :: NewestSent(sent, r, id) ==> id in index && index[id] == r.entry.document
  }

  lemma {:induction false} NewestExists(sent: seq<OutboxRow>, s: OutboxRow, id: int) returns (r: OutboxRow)
    requires s in sent && S.For(s, id)
    ensures NewestSent(sent, r, id)
    decreases |sent|
  {
    var last, init := sent[|sent| - 1], sent[..|sent| - 1];
    assert sent == init + [last];
    if s in init {
      r := NewestExists(init, s, id);
      if S.For(last, id) && r.id < last.id { r := last; }
    } else if x :| x in init && S.For(x, id) {
      r := NewestExists(init, x, id);
      if r.id < last.id { r := last; }
    } else {
      r := last;
    }
  }

  // ---------- rows and their documents ----------

  /** Row ids identify rows; what has been handed over is in the table. */
  ghost predicate Traced(p: Publisher) {
    && (forall r, s :: r in p.outbox && s in p.outbox && r.id == s.id ==> r == s)
    && (forall s :: s in p.sent ==> Among(s, p.outbox))
  }

  lemma InvIsTraced(w: World)
    requires Inv(w)
    ensures Traced(Pub(w))
  {
    InvParts(w);
  }

  lemma SameIdSameEntry(p: Publisher, r: OutboxRow, s: OutboxRow)
    requires Traced(p) && r.id == s.id && r in p.outbox + p.sent && s in p.outbox + p.sent
    ensures r.entry == s.entry
  {
    assert forall x :: x in p.outbox ==> SameRow(x, x);
    assert Among(r, p.outbox) && Among(s, p.outbox);
  }

  /** No index row of the work order is older. */
  ghost predicate Oldest(outbox: seq<OutboxRow>, s: OutboxRow, id: int) {
    forall r :: r in outbox && S.For(r, id) ==> s.id <= r.id
  }

  /** A work order's oldest index row announces its creation; every later one, a completion. */
  ghost predicate CreationFirst(outbox: seq<OutboxRow>) {
    forall s, id :: s in outbox && S.For(s, id) ==>
      s.entry.document.status == if Oldest(outbox, s, id) then Open else Status.Completed
  }

  /** Index rows of one work order with the same status have the same document. */
  lemma SameStatusSameDocument(w: World, r: OutboxRow, s: OutboxRow, id: int)
    requires Inv(w) && Among(r, w.api.store.outbox) && Among(s, w.api.store.outbox)
    requires S.For(r, id) && S.For(s, id) && r.entry.document.status == s.entry.document.status
    ensures r.entry.document == s.entry.document
  {
    hide AT.Ledger, AT.ReferencesHold, AT.SessionsHold, FannedOut, RebuildsListed, S.Sound, SentFirst;
    var outbox := w.api.store.outbox;
    var i :| 0 <= i < |outbox| && SameRow(r, outbox[i]);
    var j :| 0 <= j < |outbox| && SameRow(s, outbox[j]);
    assert AT.Genuine(w.api, outbox[i].entry) && AT.Genuine(w.api, outbox[j].entry);
  }

  lemma StatusFromAge(outbox: seq<OutboxRow>, r: OutboxRow, id: int)
    requires CreationFirst(outbox) && Among(r, outbox) && S.For(r, id)
    ensures r.entry.document.status == if Oldest(outbox, r, id) then Open else Status.Completed
  {
    var r' :| r' in outbox && SameRow(r, r');
    assert S.For(r', id);
  }

  /** Two rows newer than q, of one work order, have the same document. */
  lemma NewerRowsAgree(w: World, q: OutboxRow, r: OutboxRow, s: OutboxRow, id: int)
    requires Inv(w) && CreationFirst(w.api.store.outbox) && Among(q, w.api.store.outbox)
    requires r in w.sent && s in w.sent && S.For(q, id) && S.For(r, id) && S.For(s, id) && q.id < r.id && q.id < s.id
    ensures r.entry.document == s.entry.document
  {
    InvParts(w);
    hide Inv, CreationFirst;
    var outbox := w.api.store.outbox;
    var q' :| q' in outbox && SameRow(q, q');
    assert S.For(q', id) && Among(r, outbox) && Among(s, outbox);
    StatusFromAge(outbox, r, id);
    StatusFromAge(outbox, s, id);
    SameStatusSameDocument(w, r, s, id);
  }

  // ---------- what one commit appends ----------

  lemma {:induction false} NoTallyNoRow(rows: seq<OutboxRow>, id: int)
    requires AT.RowTally(rows, id, false) == 0
    ensures forall r :: r in rows ==> !S.For(r, id)
  {
    if rows != [] {
      NoTallyNoRow(rows[1..], id);
      assert rows == [rows[0]] + rows[1..];
    }
  }

  lemma {:induction false} TallyFindsRow(rows: seq<OutboxRow>, id: int) returns (r: OutboxRow)
    requires AT.RowTally(rows, id, false) > 0
    ensures r in rows && S.For(r, id)
  {
    if AT.Announces(rows[0].entry, id, false) {
      r := rows[0];
    } else {
      r := TallyFindsRow(rows[1..], id);
      assert rows == [rows[0]] + rows[1..];
    }
  }

  /** A commit appends unpublished rows, with new ids; at most one of them is an index row, of a new work
      order or of a completed one. */
  ghost predicate Appends(a: Api.Api, c: AT.Change, rows: seq<OutboxRow>) {
    && (forall k :: 0 <= k < |rows| ==> rows[k].publishedAt.None? && rows[k].id >= a.store.nextRow)
    && (forall k, id :: 0 <= k < |rows| && S.For(rows[k], id) ==>
          || (c.Creation? && id == a.store.nextOrder && |rows| == 1 && rows[k].entry.document.status.Open?)
          || (c.Mutating? && c.m.Complete? && id == c.id && k == 1 && |rows| == 2
              && rows[k].createdAt == c.now && rows[k].entry.document.status.Completed?))
  }

  lemma CommitAppends(a: Api.Api, c: AT.Change) returns (rows: seq<OutboxRow>)
    requires AT.Checked(a, c)
    ensures AT.Commit(a, c).store.outbox == a.store.outbox + rows && Appends(a, c, rows)
  {
    rows := AT.Commit(a, c).store.outbox[|a.store.outbox|..];
  }

  lemma EndpointAppends(a: Api.Api, call: Api.Event) returns (rows: seq<OutboxRow>)
    requires AT.Inv(a)
    ensures Api.Apply(a, call).store.outbox == a.store.outbox + rows && Appends(a, AT.ChangeOf(a, call), rows)
    ensures var c := AT.ChangeOf(a, call); c.Mutating? ==> c.id in a.store.orders
  {
    hide Api.Apply, AT.Commit, AT.Checked, AT.RecordsInv, Appends, AT.ChangeOf;
    AT.ApplyCommits(a, call);
    AT.CheckedIsPossible(a, AT.ChangeOf(a, call));
    rows := CommitAppends(a, AT.ChangeOf(a, call));
  }

  lemma NewOrderHasNoRow(a: Api.Api)
    requires AT.Inv(a)
    ensures forall r :: r in a.store.outbox ==> !S.For(r, a.store.nextOrder) && r.id < a.store.nextRow
  {
    hide AT.RowsGenuine, AT.ReferencesHold, AT.SessionsHold, AT.Balanced;
    assert AT.Unknown(a, a.store.nextOrder);
    NoTallyNoRow(a.store.outbox, a.store.nextOrder);
  }

  lemma KnownOrderHasRow(a: Api.Api, id: int) returns (r: OutboxRow)
    requires AT.Inv(a) && id in a.store.orders
    ensures r in a.store.outbox && S.For(r, id)
  {
    hide AT.RowsGenuine, AT.ReferencesHold, AT.SessionsHold;
    assert AT.Balanced(a, id);
    r := TallyFindsRow(a.store.outbox, id);
  }

  lemma OldestAppend(outbox: seq<OutboxRow>, rows: seq<OutboxRow>, s: OutboxRow, id: int)
    requires s in outbox && forall q, r :: q in rows && r in outbox ==> r.id < q.id
    ensures Oldest(outbox + rows, s, id) <==> Oldest(outbox, s, id)
  {
  }

  lemma NewRowsStatus(a: Api.Api, c: AT.Change, rows: seq<OutboxRow>, s: OutboxRow, id: int)
    requires Appends(a, c, rows) && s in rows && S.For(s, id)
    requires forall r :: r in a.store.outbox ==> !S.For(r, a.store.nextOrder) && r.id < a.store.nextRow
    requires c.Mutating? ==> exists r :: r in a.store.outbox && S.For(r, c.id)
    ensures s.entry.document.status == if Oldest(a.store.outbox + rows, s, id) then Open else Status.Completed
  {
    var k :| 0 <= k < |rows| && rows[k] == s;
    if c.Mutating? {
      var r :| r in a.store.outbox && S.For(r, c.id);
      assert r in a.store.outbox + rows && r.id < s.id;
    } else {
      assert rows == [s];
    }
  }

  lemma AppendingKeepsCreationFirst(a: Api.Api, c: AT.Change, rows: seq<OutboxRow>)
    requires CreationFirst(a.store.outbox) && Appends(a, c, rows)
    requires forall r :: r in a.store.outbox ==> !S.For(r, a.store.nextOrder) && r.id < a.store.nextRow
    requires c.Mutating? ==> exists r :: r in a.store.outbox && S.For(r, c.id)
    ensures CreationFirst(a.store.outbox + rows)
  {
    AppendsAreNew(a, c, rows);
    hide Appends, Oldest;
    var outbox, outbox' := a.store.outbox, a.store.outbox + rows;
    forall s, id | s in outbox' && S.For(s, id)
      ensures s.entry.document.status == if Oldest(outbox', s, id) then Open else Status.Completed
    {
      if s in outbox { OldestAppend(outbox, rows, s, id); } else { NewRowsStatus(a, c, rows, s, id); }
    }
  }

  lemma EndpointKeepsCreationFirst(a: Api.Api, call: Api.Event)
    requires AT.Inv(a) && CreationFirst(a.store.outbox)
    ensures CreationFirst(Api.Apply(a, call).store.outbox)
  {
    hide Api.Apply, AT.Inv, AT.ChangeOf, CreationFirst, Appends;
    var rows := EndpointAppends(a, call);
    NewOrderHasNoRow(a);
    var c := AT.ChangeOf(a, call);
    if c.Mutating? { var r := KnownOrderHasRow(a, c.id); }
    AppendingKeepsCreationFirst(a, c, rows);
  }

  lemma SameEntriesSameOldest(outbox: seq<OutboxRow>, outbox': seq<OutboxRow>, i: nat, id: int)
    requires AT.SameEntries(outbox, outbox') && i < |outbox|
    ensures Oldest(outbox', outbox'[i], id) <==> Oldest(outbox, outbox[i], id)
  {
    forall j | 0 <= j < |outbox| ensures S.For(outbox[j], id) <==> S.For(outbox'[j], id) {}
  }

  lemma SameEntriesKeepCreationFirst(outbox: seq<OutboxRow>, outbox': seq<OutboxRow>)
    requires CreationFirst(outbox) && AT.SameEntries(outbox, outbox')
    ensures CreationFirst(outbox')
  {
    hide Oldest;
    forall s, id | s in outbox' && S.For(s, id)
      ensures s.entry.document.status == if Oldest(outbox', s, id) then Open else Status.Completed
    {
      var i :| 0 <= i < |outbox'| && outbox'[i] == s;
      SameEntriesSameOldest(outbox, outbox', i, id);
      assert S.For(outbox[i], id);
    }
  }

  /** Only endpoints and marks touch the table. */
  lemma TableKept(w: World, e: Event)
    requires Legal(w, e) && !e.Endpoint? && !e.TickMark?
    ensures Apply(w, e).api.store.outbox == w.api.store.outbox
  {
    hide S.Lists, S.Cleared, Query, Messages, H.HostApply, Effective, Api.Membership, Api.IsAdmin;
  }

  lemma MarkedTable(w: World, o: Mark, now: int)
    requires Legal(w, TickMark(o, now))
    ensures AT.SameEntries(w.api.store.outbox, Apply(w, TickMark(o, now)).api.store.outbox)
  {
    MarkFrame(Pub(w), o, now);
  }

  lemma StepKeepsCreationFirst(w: World, e: Event)
    requires AT.Inv(w.api) && Legal(w, e) && CreationFirst(w.api.store.outbox)
    ensures CreationFirst(Apply(w, e).api.store.outbox)
  {
    hide CreationFirst, Legal, AT.Inv, AT.SameEntries;
    match e
    case Endpoint(call) => EndpointKeepsCreationFirst(w.api, call);
    case TickMark(o, now) =>
      MarkedTable(w, o, now);
      SameEntriesKeepCreationFirst(w.api.store.outbox, Apply(w, e).api.store.outbox);
    case _ => TableKept(w, e);
  }

  lemma {:induction false} RunKeepsCreationFirst(t: seq<World>, events: seq<Event>, k: nat)
    requires IsRun(t, events) && k < |t|
    ensures CreationFirst(t[k].api.store.outbox)
  {
    hide Apply, Legal, AT.Inv;
    if k > 0 {
      RunKeepsCreationFirst(t, events, k - 1);
      RunKeepsInv(t, events, k - 1);
      StepKeepsCreationFirst(t[k - 1], events[k - 1]);
    }
  }

  // ---------- exactly when a hand-over leaves the right document ----------

  /** No newer row of the work order, with another document, has been handed over. */
  ghost predicate NoNewerSent(sent: seq<OutboxRow>, q: OutboxRow, id: int)
    requires S.For(q, id)
  {
    forall r :: r in sent && S.For(r, id) && q.id < r.id ==> r.entry.document == q.entry.document
  }

  /** The event is the hand-over of row q and takes effect. */
  ghost predicate HandsOver(w: World, e: Event, q: OutboxRow) {
    e.TickAttempt? && w.tick.Some? && w.tick.value.todo != [] && w.tick.value.todo[0] == q && Effective(q, e.send)
  }

  lemma HandOverSends(w: World, e: Event, q: OutboxRow, id: int)
    requires Inv(w) && Legal(w, e) && HandsOver(w, e, q) && S.For(q, id)
    ensures Apply(w, e).sent == w.sent + [q] && Apply(w, e).index == w.index[id := q.entry.document]
    ensures Among(q, w.api.store.outbox)
  {
    hide AT.Inv, S.Sound, FannedOut, RebuildsListed, Messages, H.HostApply;
    AttemptFrame(Pub(w), e.send);
    assert q in w.tick.value.todo;
  }

  lemma InTable(w: World, r: OutboxRow)
    requires Inv(w) && r in w.sent
    ensures Among(r, w.api.store.outbox)
  {
    InvParts(w);
    hide Inv;
  }

  lemma LastIsNewest(p: Publisher, q: OutboxRow, id: int)
    requires Traced(p) && q in p.sent && S.For(q, id) && id in p.index && p.index[id] == q.entry.document
    requires NoNewerSent(p.sent, q, id)
    ensures Copied(p.sent, p.index, id)
  {
    hide Traced;
    forall r | NewestSent(p.sent, r, id) ensures r.entry.document == q.entry.document {
      if r.id == q.id { SameIdSameEntry(p, r, q); }
    }
  }

  lemma NewestIsLast(w: World, q: OutboxRow, id: int)
    requires Inv(w) && CreationFirst(w.api.store.outbox) && Among(q, w.api.store.outbox)
    requires q in w.sent && S.For(q, id) && id in w.index && w.index[id] == q.entry.document
    requires Copied(w.sent, w.index, id)
    ensures NoNewerSent(w.sent, q, id)
  {
    hide Inv, CreationFirst;
    forall r | r in w.sent && S.For(r, id) && q.id < r.id ensures r.entry.document == q.entry.document {
      var m := NewestExists(w.sent, r, id);
      assert q.id < m.id;
      NewerRowsAgree(w, q, r, m, id);
    }
  }

  lemma SelfIsNotNewer(sent: seq<OutboxRow>, q: OutboxRow, id: int)
    requires S.For(q, id)
    ensures NoNewerSent(sent + [q], q, id) <==> NoNewerSent(sent, q, id)
  {
  }

  /** Whatever has failed before, and whatever marks are pending: after the hand-over of an index row the
      work order's document is that of its newest row handed over if and only if no newer row with
      another document had been handed over. */
  lemma HandOverIsRightIff(t: seq<World>, events: seq<Event>, k: nat, q: OutboxRow, id: int)
    requires IsRun(t, events) && k < |events| && HandsOver(t[k], events[k], q) && S.For(q, id)
    ensures Copied(t[k + 1].sent, t[k + 1].index, id) <==> NoNewerSent(t[k].sent, q, id)
  {
    RunKeepsInv(t, events, k);
    RunKeepsInv(t, events, k + 1);
    RunKeepsCreationFirst(t, events, k + 1);
    StepIs(t, events, k);
    hide IsRun, Inv, Apply, Legal, HandsOver, CreationFirst, Traced, Copied, NoNewerSent;
    var w, w' := t[k], t[k + 1];
    HandOverSends(w, events[k], q, id);
    SelfIsNotNewer(w.sent, q, id);
    InvIsTraced(w');
    InTable(w', q);
    if NoNewerSent(w'.sent, q, id) { LastIsNewest(Pub(w'), q, id); }
    if Copied(w'.sent, w'.index, id) { NewestIsLast(w', q, id); }
  }

  lemma StepIs(t: seq<World>, events: seq<Event>, k: nat)
    requires IsRun(t, events) && k < |events|
    ensures Legal(t[k], events[k]) && t[k + 1] == Apply(t[k], events[k])
  {
  }

  /** Nothing else but a rebuild affects it: not marks, failed or not, nor cut ticks, nor endpoints, nor consumers. */
  lemma OnlyHandOversMatter(t: seq<World>, events: seq<Event>, k: nat, id: int)
    requires IsRun(t, events) && k < |events| && !Rebuilds(events[k])
    requires forall q :: HandsOver(t[k], events[k], q) ==> !S.For(q, id)
    ensures Copied(t[k + 1].sent, t[k + 1].index, id) <==> Copied(t[k].sent, t[k].index, id)
  {
    StepIs(t, events, k);
    NotHandedOver(t[k], events[k], id);
    NewestUnaffected(t[k].sent, t[k + 1].sent, id);
  }

  lemma NotHandedOver(w: World, e: Event, id: int)
    requires Legal(w, e) && !Rebuilds(e) && forall q :: HandsOver(w, e, q) ==> !S.For(q, id)
    ensures var w' := Apply(w, e);
            && (id in w'.index <==> id in w.index) && (id in w.index ==> w'.index[id] == w.index[id])
            && (w'.sent == w.sent || (|w'.sent| > 0 && w'.sent[..|w'.sent| - 1] == w.sent
                                      && !S.For(w'.sent[|w'.sent| - 1], id)))
  {
    hide Query, Messages, H.HostApply, MarkRows, Api.Apply;
    if e.TickAttempt? {
      AttemptFrame(Pub(w), e.send);
      assert Effective(w.tick.value.todo[0], e.send) ==> HandsOver(w, e, w.tick.value.todo[0]);
    }
  }

  lemma NewestUnaffected(sent: seq<OutboxRow>, sent': seq<OutboxRow>, id: int)
    requires sent' == sent || (|sent'| > 0 && sent'[..|sent'| - 1] == sent && !S.For(sent'[|sent'| - 1], id))
    ensures forall r :: NewestSent(sent', r, id) <==> NewestSent(sent, r, id)
  {
    assert sent' == sent || sent' == sent + [sent'[|sent'| - 1]];
  }

  // ---------- whatever fails, the document is the last one handed over ----------

  /** The last index row of the work order that has been handed over. */
  function LastFor(sent: seq<OutboxRow>, id: int): Option<OutboxRow>
    decreases |sent|
  {
    if sent == [] then None
    else if S.For(sent[|sent| - 1], id) then Some(sent[|sent| - 1])
    else LastFor(sent[..|sent| - 1], id)
  }

  lemma {:induction false} LastForIsSent(sent: seq<OutboxRow>, id: int)
    ensures LastFor(sent, id).Some? ==> LastFor(sent, id).value in sent && S.For(LastFor(sent, id).value, id)
    ensures LastFor(sent, id).None? ==> forall r :: r in sent ==> !S.For(r, id)
    decreases |sent|
  {
    if sent != [] {
      LastForIsSent(sent[..|sent| - 1], id);
      assert sent == sent[..|sent| - 1] + [sent[|sent| - 1]];
    }
  }

  ghost predicate RebuildFree(events: seq<Event>, k: nat)
    requires k <= |events|
  {
    forall i :: 0 <= i < k ==> !Rebuilds(events[i])
  }

  /** The work order's document is that of the last row handed over for it, and there is none before the first. */
  ghost predicate Follows(sent: seq<OutboxRow>, index: map<int, SearchDocument>, id: int) {
    var last := LastFor(sent, id);
    if last.Some? then last.value.entry.Indexing? && id in index && index[id] == last.value.entry.document
    else id !in index
  }

  lemma StepFollows(w: World, e: Event, id: int)
    requires Inv(w) && Legal(w, e) && !Rebuilds(e) && Follows(w.sent, w.index, id)
    ensures Follows(Apply(w, e).sent, Apply(w, e).index, id)
  {
    hide Inv, Legal, Apply, Effective, S.For;
    if e.TickAttempt? && w.tick.Some? && w.tick.value.todo != [] && HandsOver(w, e, w.tick.value.todo[0])
       && S.For(w.tick.value.todo[0], id)
    {
      var q := w.tick.value.todo[0];
      HandOverSends(w, e, q, id);
      LastSent(w.sent, q, id);
    } else {
      NotHandedOver(w, e, id);
    }
  }

  lemma LastSent(sent: seq<OutboxRow>, q: OutboxRow, id: int)
    requires S.For(q, id)
    ensures LastFor(sent + [q], id) == Some(q) && q.entry.Indexing?
  {
  }

  /** Whatever fails, whichever marks are lost, wherever ticks are cut, and whatever the clock does: without
      rebuilds, a work order's document is always that of the last index row handed over for it. */
  lemma {:induction false} DocumentIsLastHandedOver(t: seq<World>, events: seq<Event>, k: nat, id: int)
    requires IsRun(t, events) && k < |t| && RebuildFree(events, k)
    ensures Follows(t[k].sent, t[k].index, id)
  {
    hide Apply, Legal, Inv;
    if k > 0 {
      DocumentIsLastHandedOver(t, events, k - 1, id);
      RunKeepsInv(t, events, k - 1);
      StepFollows(t[k - 1], events[k - 1], id);
    }
  }

  /** So, for a whole run: the document is that of the newest row handed over if and only if no newer row
      with another document was handed over before the last one. */
  lemma DocumentIsNewestIff(t: seq<World>, events: seq<Event>, k: nat, id: int)
    requires IsRun(t, events) && k < |t| && RebuildFree(events, k)
    ensures var last := LastFor(t[k].sent, id);
            Copied(t[k].sent, t[k].index, id) <==>
              (last.Some? && S.For(last.value, id) ==> NoNewerSent(t[k].sent, last.value, id))
  {
    DocumentIsLastHandedOver(t, events, k, id);
    RunKeepsInv(t, events, k);
    RunKeepsCreationFirst(t, events, k);
    InvIsTraced(t[k]);
    LastForIsSent(t[k].sent, id);
    hide IsRun, Inv, Traced, CreationFirst, NoNewerSent, Copied, LastFor;
    var w, last := t[k], LastFor(t[k].sent, id);
    if last.Some? {
      InTable(w, last.value);
      if NoNewerSent(w.sent, last.value, id) { LastIsNewest(Pub(w), last.value, id); }
      if Copied(w.sent, w.index, id) { NewestIsLast(w, last.value, id); }
    } else {
      NothingSentCopied(w, id);
    }
  }

  lemma NothingSentCopied(w: World, id: int)
    requires forall r :: r in w.sent ==> !S.For(r, id)
    ensures Copied(w.sent, w.index, id)
  {
  }

  /** In terms of published rows, and again whatever fails: the document is that of a published row if and
      only if the last row handed over for the work order says the same status. */
  lemma DocumentIsPublishedIff(t: seq<World>, events: seq<Event>, k: nat, q: OutboxRow, id: int)
    requires IsRun(t, events) && k < |t| && RebuildFree(events, k)
    requires q in t[k].api.store.outbox && q.publishedAt.Some? && S.For(q, id)
    ensures var last := LastFor(t[k].sent, id);
            && last.Some? && last.value in t[k].sent && S.For(last.value, id) && id in t[k].index
            && (t[k].index[id] == q.entry.document <==>
                  last.value.entry.document.status == q.entry.document.status)
  {
    var w := t[k];
    DocumentIsLastHandedOver(t, events, k, id);
    RunKeepsInv(t, events, k);
    MarkedMeansSent(t, events, k, OutboxPosition(w, q));
    LastForIsSent(w.sent, id);
    hide IsRun, Inv, LastFor;
    var s :| s in w.sent && SameRow(q, s);
    var last := LastFor(w.sent, id).value;
    InTable(w, last);
    assert SameRow(q, q) && Among(q, w.api.store.outbox);
    if last.entry.document.status == q.entry.document.status { SameStatusSameDocument(w, last, q, id); }
  }

  ghost function OutboxPosition(w: World, q: OutboxRow): nat
    requires q in w.api.store.outbox
    ensures OutboxPosition(w, q) < |w.api.store.outbox| && w.api.store.outbox[OutboxPosition(w, q)] == q
  {
    var i :| 0 <= i < |w.api.store.outbox| && w.api.store.outbox[i] == q;
    i
  }

  // ---------- runs in which it is always the newest ----------

  /** An index row that announces the work order's creation. */
  predicate Creates(r: OutboxRow, id: int) { S.For(r, id) && r.entry.document.status.Open? }

  /** A work order is completed later than it was created. */
  ghost predicate ClockMoves(a: Api.Api, call: Api.Event) {
    var c := AT.ChangeOf(a, call);
    c.Mutating? && c.m.Complete? ==> forall r :: r in a.store.outbox && Creates(r, c.id) ==> r.createdAt < c.now
  }

  /** No rebuild, no failing index call, and no mark of an index row that fails to commit. Anything else may
      fail, and a tick may stop anywhere. */
  ghost predicate Clean(w: World, e: Event) {
    match e
    case Endpoint(call) => ClockMoves(w.api, call)
    case TickAttempt(o) => w.tick.Some? && w.tick.value.todo != [] && w.tick.value.todo[0].entry.Indexing? ==> o.Sent?
    case TickMark(o, _) =>
      w.tick.Some? && w.tick.value.todo != [] && w.tick.value.todo[0].entry.Indexing? ==> o.Write? && !o.save.SaveThrew?
    case _ => !Rebuilds(e)
  }

  ghost predicate IsCleanRun(t: seq<World>, events: seq<Event>) {
    IsRun(t, events) && forall i :: 0 <= i < |events| ==> Clean(t[i], events[i])
  }

  /** Later index rows of a work order have later times than its creation row. */
  ghost predicate Dated(outbox: seq<OutboxRow>, id: int) {
    forall r, s :: r in outbox && s in outbox && Creates(r, id) && S.For(s, id) && r.id < s.id ==>
      r.createdAt < s.createdAt
  }

  /** A tick leaves the creation row out only if it has no other row of the work order. */
  ghost predicate NoneLeftOut(p: Publisher, id: int) {
    p.tick.Some? ==>
      forall r, s ::
        && r in p.outbox && r.publishedAt.None? && s in p.tick.value.todo
        && Creates(r, id) && S.For(s, id) && r.id < s.id ==>
          r in p.tick.value.todo
  }

  /** Another row is handed over only when the creation row is published. */
  ghost predicate OlderPublished(p: Publisher, id: int) {
    forall r, s :: r in p.outbox && s in p.sent && Creates(r, id) && S.For(s, id) && r.id < s.id ==> r.publishedAt.Some?
  }

  /** Rows newer than one that does not announce the creation carry its document. */
  ghost predicate CompletionsAgree(p: Publisher, id: int) {
    forall r, s :: r in p.outbox && s in p.sent && S.For(r, id) && S.For(s, id) && !Creates(r, id) && r.id < s.id ==>
      s.entry.document == r.entry.document
  }

  lemma InvAgrees(w: World, id: int)
    requires Inv(w) && CreationFirst(w.api.store.outbox)
    ensures CompletionsAgree(Pub(w), id)
  {
    InvParts(w);
    hide Inv, CreationFirst;
    var outbox := w.api.store.outbox;
    forall r, s | r in outbox && s in w.sent && S.For(r, id) && S.For(s, id) && !Creates(r, id) && r.id < s.id
      ensures s.entry.document == r.entry.document
    {
      assert SameRow(r, r) && Among(r, outbox) && Among(s, outbox) && !Oldest(outbox, s, id);
      StatusFromAge(outbox, r, id);
      StatusFromAge(outbox, s, id);
      SameStatusSameDocument(w, r, s, id);
    }
  }

  ghost predicate Indexed(sent: seq<OutboxRow>, index: map<int, SearchDocument>, id: int) {
    id in index ==> exists r :: r in sent && S.For(r, id)
  }

  ghost predicate InOrder(p: Publisher, id: int) {
    && Dated(p.outbox, id) && NoneLeftOut(p, id) && OlderPublished(p, id)
    && Copied(p.sent, p.index, id) && Indexed(p.sent, p.index, id)
  }

  /** An unpublished creation row comes before every other row of its work order. */
  lemma HeadIsOldest(p: Publisher, r: OutboxRow, id: int)
    requires p.tick.Some? && p.tick.value.todo != [] && TodoOk(p) && Dated(p.outbox, id) && NoneLeftOut(p, id)
    requires var q := p.tick.value.todo[0]; r in p.outbox && Creates(r, id) && S.For(q, id) && r.id < q.id
    ensures r.publishedAt.Some?
  {
    var todo := p.tick.value.todo;
    assert todo[0] in todo;
    forall k | 0 < k < |todo| ensures todo[0].createdAt <= todo[k].createdAt { assert Earlier(todo[0], todo[k]); }
  }

  /** Nothing newer than the head with another document has been handed over: the head would have been
      published before. */
  lemma HeadIsNewest(p: Publisher, s: OutboxRow, id: int)
    requires p.tick.Some? && p.tick.value.todo != [] && TodoOk(p) && OlderPublished(p, id) && CompletionsAgree(p, id)
    requires var q := p.tick.value.todo[0]; s in p.sent && S.For(s, id) && S.For(q, id)
    ensures var q := p.tick.value.todo[0]; s.id <= q.id || s.entry.document == q.entry.document
  {
    assert p.tick.value.todo[0] in p.tick.value.todo;
  }

  lemma TailKeepsNoneLeftOut(p: Publisher, p': Publisher, id: int)
    requires p.tick.Some? && p.tick.value.todo != [] && p'.outbox == p.outbox && NoneLeftOut(p, id)
    requires || p'.tick == Some(p.tick.value.(marking := true))
             || (p'.tick == Some(Next(p.tick.value)) && !S.For(p.tick.value.todo[0], id))
    ensures NoneLeftOut(p', id)
  {
    var todo := p.tick.value.todo;
    assert todo == [todo[0]] + todo[1..];
  }

  lemma AttemptInOrder(p: Publisher, o: Send, id: int)
    requires p.tick.Some? && p.tick.value.todo != [] && !p.tick.value.marking && TodoOk(p) && Traced(p)
             && CompletionsAgree(p, id) && InOrder(p, id)
    requires !p.tick.value.todo[0].entry.Unreadable? && (p.tick.value.todo[0].entry.Indexing? ==> o.Sent?)
    ensures InOrder(Attempt(p, o), id)
  {
    var p', q := Attempt(p, o), p.tick.value.todo[0];
    TailKeepsNoneLeftOut(p, p', id);
    if S.For(q, id) {
      SendKeepsOlder(p, p', id);
      SendCopies(p, p', id);
    } else {
      OtherSendKeeps(p, p', id);
    }
  }

  lemma SendKeepsOlder(p: Publisher, p': Publisher, id: int)
    requires p.tick.Some? && p.tick.value.todo != [] && TodoOk(p) && InOrder(p, id) && S.For(p.tick.value.todo[0], id)
    requires p'.outbox == p.outbox && p'.sent == p.sent + [p.tick.value.todo[0]]
    ensures OlderPublished(p', id)
  {
    var q := p.tick.value.todo[0];
    forall r, s | r in p'.outbox && s in p'.sent && Creates(r, id) && S.For(s, id) && r.id < s.id
      ensures r.publishedAt.Some?
    {
      if s == q { HeadIsOldest(p, r, id); }
    }
  }

  lemma SendCopies(p: Publisher, p': Publisher, id: int)
    requires p.tick.Some? && p.tick.value.todo != [] && TodoOk(p) && Traced(p) && CompletionsAgree(p, id)
    requires InOrder(p, id) && S.For(p.tick.value.todo[0], id) && p'.sent == p.sent + [p.tick.value.todo[0]]
    requires id in p'.index && p'.index[id] == p.tick.value.todo[0].entry.document
    ensures Copied(p'.sent, p'.index, id) && Indexed(p'.sent, p'.index, id)
  {
    var q := p.tick.value.todo[0];
    assert q in p'.sent && q in p.tick.value.todo;
    forall r | NewestSent(p'.sent, r, id) ensures r.entry.document == q.entry.document {
      if r != q {
        HeadIsNewest(p, r, id);
        if r.id == q.id { SameIdSameEntry(p, r, q); }
      }
    }
  }

  lemma OtherSendKeeps(p: Publisher, p': Publisher, id: int)
    requires OlderPublished(p, id) && Copied(p.sent, p.index, id) && Indexed(p.sent, p.index, id)
             && p'.outbox == p.outbox
    requires (id in p'.index <==> id in p.index) && (id in p.index ==> p'.index[id] == p.index[id])
    requires p'.sent == p.sent || (|p'.sent| > 0 && p'.sent[..|p'.sent| - 1] == p.sent
                                   && !S.For(p'.sent[|p'.sent| - 1], id))
    ensures OlderPublished(p', id) && Copied(p'.sent, p'.index, id) && Indexed(p'.sent, p'.index, id)
  {
    NewestUnaffected(p.sent, p'.sent, id);
    assert p'.sent == p.sent || p'.sent == p.sent + [p'.sent[|p'.sent| - 1]];
  }

  /** What marking the head leaves: the rest of the list, and a table in which the head is published if it is an
      index row. */
  ghost predicate MarksHead(p: Publisher, p': Publisher) {
    && p.tick.Some? && p.tick.value.todo != [] && p'.tick.Some? && p'.sent == p.sent && p'.index == p.index
    && var head, todo, todo' := p.tick.value.todo[0], p.tick.value.todo, p'.tick.value.todo;
       && todo' == todo[1..]
       && (forall r' :: r' in p'.outbox ==> exists r :: r in p.outbox && r' == r.(publishedAt := r'.publishedAt)
                                                         && (r.publishedAt.Some? ==> r'.publishedAt.Some?)
                                                         && (r.id == head.id && head.entry.Indexing? ==>
                                                               r'.publishedAt.Some?))
  }

  lemma MarkMarksHead(p: Publisher, o: Mark, now: int)
    requires p.tick.Some? && p.tick.value.todo != []
    requires p.tick.value.todo[0].entry.Indexing? ==> o.Write? && !o.save.SaveThrew?
    ensures MarksHead(p, MarkHead(p, o, now))
  {
    var p', todo := MarkHead(p, o, now), p.tick.value.todo;
    if o.Write? && !o.save.SaveThrew? {
      var marks := p.tick.value.pending[todo[0].id := now];
      forall r' | r' in p'.outbox ensures exists r :: r in p.outbox && r' == r.(publishedAt := r'.publishedAt)
                                                         && (r.publishedAt.Some? ==> r'.publishedAt.Some?)
                                                         && (r.id == todo[0].id && todo[0].entry.Indexing? ==>
                                                               r'.publishedAt.Some?)
      {
        var r := MarkedRow(p.outbox, marks, r');
      }
    } else {
      forall r' | r' in p'.outbox ensures r' == r'.(publishedAt := r'.publishedAt) {}
    }
  }

  lemma MarkInOrder(p: Publisher, p': Publisher, id: int)
    requires MarksHead(p, p') && TodoOk(p) && InOrder(p, id)
    ensures InOrder(p', id)
  {
    MarkKeepsDated(p, p', id);
    MarkKeepsNoneLeftOut(p, p', id);
    MarkKeepsOlder(p, p', id);
  }

  lemma MarkKeepsDated(p: Publisher, p': Publisher, id: int)
    requires MarksHead(p, p') && Dated(p.outbox, id)
    ensures Dated(p'.outbox, id)
  {
  }

  lemma MarkKeepsNoneLeftOut(p: Publisher, p': Publisher, id: int)
    requires MarksHead(p, p') && TodoOk(p) && NoneLeftOut(p, id)
    ensures NoneLeftOut(p', id)
  {
    var todo := p.tick.value.todo;
    assert todo == [todo[0]] + todo[1..];
    forall r', s | r' in p'.outbox && r'.publishedAt.None? && s in todo[1..] && Creates(r', id) && S.For(s, id)
                   && r'.id < s.id
      ensures r' in todo[1..]
    {
      assert r' in p.outbox && r' in todo;
    }
  }

  lemma MarkKeepsOlder(p: Publisher, p': Publisher, id: int)
    requires MarksHead(p, p') && OlderPublished(p, id)
    ensures OlderPublished(p', id)
  {
  }

  lemma AppendInOrder(p: Publisher, p': Publisher, rows: seq<OutboxRow>, id: int)
    requires Traced(p) && TodoOk(p) && InOrder(p, id) && p' == p.(outbox := p.outbox + rows) && Dated(p'.outbox, id)
    requires forall r, s :: r in rows && s in p.outbox ==> s.id < r.id
    ensures InOrder(p', id)
  {
    assert forall s :: s in p.sent ==> Among(s, p.outbox);
  }

  lemma BeginInOrder(p: Publisher, rows: seq<OutboxRow>, id: int)
    requires InOrder(p, id) && Query(p.outbox, rows)
    ensures InOrder(Begin(p, rows), id)
  {
  }

  lemma AbortInOrder(p: Publisher, id: int)
    requires InOrder(p, id)
    ensures InOrder(p.(tick := None), id)
  {
  }

  lemma AppendKeepsDated(a: Api.Api, call: Api.Event, rows: seq<OutboxRow>, id: int)
    requires Dated(a.store.outbox, id) && Appends(a, AT.ChangeOf(a, call), rows) && ClockMoves(a, call)
    requires forall r :: r in a.store.outbox ==> !S.For(r, a.store.nextOrder) && r.id < a.store.nextRow
    ensures Dated(a.store.outbox + rows, id)
  {
    hide AT.ChangeOf;
  }

  lemma AppendsAreNew(a: Api.Api, c: AT.Change, rows: seq<OutboxRow>)
    requires Appends(a, c, rows) && forall r :: r in a.store.outbox ==> r.id < a.store.nextRow
    ensures forall r, s :: r in rows && s in a.store.outbox ==> s.id < r.id
  {
  }

  lemma EndpointOrderly(w: World, call: Api.Event, id: int)
    requires Inv(w) && TodoOk(Pub(w)) && InOrder(Pub(w), id) && ClockMoves(w.api, call)
    ensures InOrder(Pub(Apply(w, Endpoint(call))), id)
  {
    InvIsTraced(w);
    hide Inv, AT.Inv, Api.Apply, Appends, ClockMoves, AT.ChangeOf, TodoOk, InOrder, Dated;
    assert AT.Inv(w.api) && Dated(w.api.store.outbox, id) by { OrderlyParts(w, id); }
    var rows := EndpointAppends(w.api, call);
    NewOrderHasNoRow(w.api);
    AppendsAreNew(w.api, AT.ChangeOf(w.api, call), rows);
    AppendKeepsDated(w.api, call, rows, id);
    AppendInOrder(Pub(w), Pub(Apply(w, Endpoint(call))), rows, id);
  }

  lemma OrderlyParts(w: World, id: int)
    requires Inv(w) && InOrder(Pub(w), id)
    ensures AT.Inv(w.api) && Dated(w.api.store.outbox, id)
  {
  }

  lemma AttemptOrderly(w: World, o: Send, id: int)
    requires Inv(w) && CreationFirst(w.api.store.outbox)
    requires TodoOk(Pub(w)) && InOrder(Pub(w), id) && Legal(w, TickAttempt(o)) && Clean(w, TickAttempt(o))
    ensures InOrder(Pub(Apply(w, TickAttempt(o))), id)
  {
    InvIsTraced(w);
    InvAgrees(w, id);
    HeadIsGenuine(w);
    AttemptIs(w, o);
    hide Inv, Apply, TodoOk, InOrder, Traced, Attempt, CreationFirst, CompletionsAgree;
    AttemptInOrder(Pub(w), o, id);
  }

  lemma MarkOrderly(w: World, o: Mark, now: int, id: int)
    requires TodoOk(Pub(w)) && InOrder(Pub(w), id) && Legal(w, TickMark(o, now)) && Clean(w, TickMark(o, now))
    ensures InOrder(Pub(Apply(w, TickMark(o, now))), id)
  {
    hide Apply, TodoOk, InOrder, MarksHead, MarkHead;
    MarkIs(w, o, now);
    MarkMarksHead(Pub(w), o, now);
    MarkInOrder(Pub(w), MarkHead(Pub(w), o, now), id);
  }

  lemma OtherOrderly(w: World, e: Event, id: int)
    requires InOrder(Pub(w), id) && Legal(w, e) && Clean(w, e) && !e.Endpoint? && !e.TickAttempt? && !e.TickMark?
    ensures InOrder(Pub(Apply(w, e)), id)
  {
    hide TodoOk, InOrder, Query;
    match e
    case TickBegin(rows) => BeginInOrder(Pub(w), rows, id);
    case TickAbort => AbortInOrder(Pub(w), id);
    case Consume(a, ev) => assert Pub(Apply(w, e)) == Pub(w);
  }

  lemma {:induction false} CleanRunOrderly(t: seq<World>, events: seq<Event>, k: nat, id: int)
    requires IsCleanRun(t, events) && k < |t|
    ensures InOrder(Pub(t[k]), id)
  {
    hide Inv, Apply, Legal, Clean, InOrder, CreationFirst, TodoOk;
    if k == 0 {
      StartOrderly(t[0], id);
    } else {
      CleanRunOrderly(t, events, k - 1, id);
      RunKeepsInv(t, events, k - 1);
      RunKeepsCreationFirst(t, events, k - 1);
      RunKeepsTodo(t, events, k - 1);
      var w, e := t[k - 1], events[k - 1];
      match e
      case Endpoint(call) =>
        assert ClockMoves(w.api, call) by { CleanClock(w, call); }
        EndpointOrderly(w, call, id);
      case TickAttempt(o) => AttemptOrderly(w, o, id);
      case TickMark(o, now) => MarkOrderly(w, o, now, id);
      case _ => OtherOrderly(w, e, id);
    }
  }

  lemma CleanClock(w: World, call: Api.Event)
    requires Clean(w, Endpoint(call))
    ensures ClockMoves(w.api, call)
  {
  }

  lemma StartOrderly(w: World, id: int)
    requires Starts(w)
    ensures InOrder(Pub(w), id)
  {
  }

  /** Clean-run order: while no index call fails, every index row's mark commits, no rebuild runs and orders
      are completed later than created, each work order's document is that of its newest index row handed
      over, in every state, however ticks are cut and whatever else fails; and there is no document before the
      first hand-over. */
  lemma DocumentIsNewestHandedOver(t: seq<World>, events: seq<Event>, k: nat, id: int)
    requires IsCleanRun(t, events) && k < |t|
    ensures Copied(t[k].sent, t[k].index, id) && Indexed(t[k].sent, t[k].index, id)
  {
    CleanRunOrderly(t, events, k, id);
  }

  /** In terms of published rows: the document is that of a published row, the newest one say, if and only
      if no newer row with another document has been handed over. In such a run a newer unpublished one
      can only have been handed over by a tick cut before its mark. */
  lemma DocumentIsNewestPublishedIff(t: seq<World>, events: seq<Event>, k: nat, q: OutboxRow, id: int)
    requires IsCleanRun(t, events) && k < |t| && q in t[k].api.store.outbox && q.publishedAt.Some? && S.For(q, id)
    ensures id in t[k].index && (t[k].index[id] == q.entry.document <==> NoNewerSent(t[k].sent, q, id))
  {
    hide IsRun, IsCleanRun, Inv, CreationFirst, Traced, Copied, NoNewerSent, Indexed, Among;
    var w := t[k];
    DocumentIsNewestHandedOver(t, events, k, id);
    CleanIsRun(t, events);
    RunKeepsInv(t, events, k);
    RunKeepsCreationFirst(t, events, k);
    MarkedMeansSent(t, events, k, OutboxPosition(w, q));
    InvIsTraced(w);
    NewestDecides(w, q, id);
  }

  lemma CleanIsRun(t: seq<World>, events: seq<Event>)
    requires IsCleanRun(t, events)
    ensures IsRun(t, events)
  {
    hide IsRun;
  }

  lemma NewestDecides(w: World, q: OutboxRow, id: int)
    requires Inv(w) && CreationFirst(w.api.store.outbox) && Traced(Pub(w)) && Copied(w.sent, w.index, id)
    requires q in w.api.store.outbox && S.For(q, id) && Among(q, w.sent)
    ensures id in w.index && (w.index[id] == q.entry.document <==> NoNewerSent(w.sent, q, id))
  {
    hide Inv, CreationFirst, Traced;
    var s :| s in w.sent && SameRow(q, s);
    var m := NewestExists(w.sent, s, id);
    assert SameRow(q, q) && Among(q, w.api.store.outbox);
    if q.id == m.id {
      SameIdSameEntry(Pub(w), q, m);
    } else {
      forall r | r in w.sent && S.For(r, id) && q.id < r.id ensures r.entry.document == m.entry.document {
        NewerRowsAgree(w, q, r, m, id);
      }
    }
  }
}
