/** The outbox publisher: one tick reads the unpublished rows in creation order and, row by row,
    hands over first and marks second; each row fails on its own. */
module Outbox {
  import opened Common
  import opened Domain
  import opened WorkOrderStore
  import opened Sorting

  /** How handing a row over (to the exchange or to the index) ends. */
  datatype Send = Sent | SendThrew | SendThrewAfterEffect

  /** How MarkOutboxMessagePublished ends: its query may fail, or its SaveChanges ends in some way. */
  datatype Mark = ReadThrew | Write(save: Save)

  /** One tick in progress. `pending` holds the rows its database context has modified and not saved:
      a failed save leaves them there, and any later save of the same tick commits them too. */
  datatype Tick = Tick(todo: seq<OutboxRow>, marking: bool, pending: map<nat, int>)

  /** `sent` records every hand-over that took effect, in order; no step reads it. */
  datatype Publisher = Publisher(
    outbox: seq<OutboxRow>, index: map<int, SearchDocument>, sent: seq<OutboxRow>, tick: Option<Tick>)

  function Unpublished(rows: seq<OutboxRow>): seq<OutboxRow> {
    if rows == [] then [] else (if rows[0].publishedAt.None? then [rows[0]] else []) + Unpublished(rows[1..])
  }

  predicate Earlier(a: OutboxRow, b: OutboxRow) { a.createdAt <= b.createdAt }

  /** What the unpublished-rows query may return: each of those rows once, by creation time, ties in any order. */
  ghost predicate Query(outbox: seq<OutboxRow>, rows: seq<OutboxRow>) {
    && (forall r :: r in rows ==> r in outbox && r.publishedAt.None?)
    && (forall r :: r in outbox && r.publishedAt.None? ==> r in rows)
    && (forall i, j :: 0 <= i < j < |rows| ==> rows[i].id != rows[j].id)
    && Ordered(Earlier, rows)
  }

  // ---------- one row ----------

  function Next(t: Tick): Tick
    requires t.todo != []
  {
    t.(todo := t.todo[1..], marking := false)
  }

  predicate Effective(row: OutboxRow, o: Send) {
    !row.entry.Unreadable? && !o.SendThrew?
  }

  /** Publishes or indexes the row at the head. An unreadable row is passed over. */
  function Attempt(p: Publisher, o: Send): Publisher
    requires p.tick.Some? && p.tick.value.todo != [] && !p.tick.value.marking
  {
    var row := p.tick.value.todo[0];
    var p1 :=
      if !Effective(row, o) then p
      else p.(sent := p.sent + [row],
              index := if row.entry.Indexing? then p.index[row.entry.document.id := row.entry.document] else p.index);
    p1.(tick := Some(if row.entry.Unreadable? || !o.Sent? then Next(p.tick.value) else p.tick.value.(marking := true)))
  }

  function MarkHead(p: Publisher, o: Mark, now: int): Publisher
    requires p.tick.Some? && p.tick.value.todo != []
  {
    var t := p.tick.value;
    if o.ReadThrew? then p.(tick := Some(Next(t)))
    else
      var pending := t.pending[t.todo[0].id := now];
      p.(outbox := if o.save.SaveThrew? then p.outbox else MarkRows(p.outbox, pending),
         tick := Some(Next(t).(pending := if o.save.Saved? then map[] else pending)))
  }

  /** What each outcome of a hand-over leaves: an exception without effect, and an unreadable row, leave nothing
      but the rest of the list; only a hand-over that ended normally goes on to its mark. */
  lemma HandOverTable(p: Publisher, o: Send)
    requires p.tick.Some? && p.tick.value.todo != [] && !p.tick.value.marking
    ensures var p' := Attempt(p, o); var t, row := p.tick.value, p.tick.value.todo[0];
            var nothing := row.entry.Unreadable? || o == SendThrew;
            && p'.outbox == p.outbox
            && p'.sent == (if nothing then p.sent else p.sent + [row])
            && (nothing || row.entry.Completion? ==> p'.index == p.index)
            && (!nothing && row.entry.Indexing? ==> p'.index == p.index[row.entry.document.id := row.entry.document])
            && p'.tick == Some(if !row.entry.Unreadable? && o == Sent then Tick(t.todo, true, t.pending)
                               else Tick(t.todo[1..], false, t.pending))
  {
  }

  /** What each outcome of a mark leaves: a failed save, the mark pending; a committed one, every pending mark in
      the table, each with its own time. */
  lemma MarkTable(p: Publisher, o: Mark, now: int, q: nat)
    requires p.tick.Some? && p.tick.value.todo != [] && q < |p.outbox|
    ensures var p' := MarkHead(p, o, now); var t, head := p.tick.value, p.tick.value.todo[0];
            var marks := t.pending[head.id := now];
            var commits := o == Write(Saved) || o == Write(SaveThrewAfterCommit);
            && p'.sent == p.sent && p'.index == p.index && |p'.outbox| == |p.outbox|
            && p'.outbox[q] == (if commits && p.outbox[q].id in marks
                                then p.outbox[q].(publishedAt := Some(marks[p.outbox[q].id])) else p.outbox[q])
            && p'.tick == Some(Tick(t.todo[1..], false,
                                    if o == ReadThrew then t.pending else if o == Write(Saved) then map[] else marks))
  {
  }

  /** How one row's hand-over and mark end, and when it is marked. */
  datatype RowScript = RowScript(send: Send, mark: Mark, now: int)

  function RunRow(p: Publisher, s: RowScript): Publisher
    requires p.tick.Some? && p.tick.value.todo != [] && !p.tick.value.marking
  {
    var p1 := Attempt(p, s.send);
    if p1.tick.value.marking then MarkHead(p1, s.mark, s.now) else p1
  }

  /** A whole tick: every row in turn, whatever happened to the ones before it. */
  function RunTick(p: Publisher, script: seq<RowScript>): Publisher
    requires p.tick.Some? && !p.tick.value.marking && |script| == |p.tick.value.todo|
    decreases |script|
  {
    if script == [] then p.(tick := None) else RunTick(RunRow(p, script[0]), script[1..])
  }

  function Begin(p: Publisher, rows: seq<OutboxRow>): Publisher {
    p.(tick := Some(Tick(rows, false, map[])))
  }

  // ---------- what a tick achieves ----------

  /** The row was handed over without an exception and its mark reached the database context. */
  predicate Touched(row: OutboxRow, s: RowScript) {
    !row.entry.Unreadable? && s.send.Sent? && s.mark.Write?
  }

  /** ... and the save committed, taking every pending mark with it. */
  predicate Flushes(row: OutboxRow, s: RowScript) {
    Touched(row, s) && !s.mark.save.SaveThrew?
  }

  ghost predicate FlushedBy(rows: seq<OutboxRow>, script: seq<RowScript>, i: int)
    requires |rows| == |script|
  {
    exists j :: i <= j < |rows| && 0 <= j && Flushes(rows[j], script[j])
  }

  /** Whether the tick publishes the row with this id. */
  ghost predicate Publishes(rows: seq<OutboxRow>, script: seq<RowScript>, id: nat)
    requires |rows| == |script|
  {
    exists i :: 0 <= i < |rows| && rows[i].id == id && Touched(rows[i], script[i]) && FlushedBy(rows, script, i)
  }

  lemma FlushedTail(rows: seq<OutboxRow>, script: seq<RowScript>, i: nat)
    requires |rows| == |script| > 0
    ensures FlushedBy(rows[1..], script[1..], i) <==> FlushedBy(rows, script, i + 1)
  {
  }

  lemma PublishesTail(rows: seq<OutboxRow>, script: seq<RowScript>, id: nat)
    requires |rows| == |script| > 0
    ensures Publishes(rows, script, id) <==>
            (rows[0].id == id && Touched(rows[0], script[0]) && FlushedBy(rows, script, 0))
            || Publishes(rows[1..], script[1..], id)
  {
  }

  lemma HeadFlushes(rows: seq<OutboxRow>, script: seq<RowScript>)
    requires |rows| == |script| > 0
    ensures FlushedBy(rows, script, 0) <==> Flushes(rows[0], script[0]) || FlushedBy(rows, script, 1)
  {
  }

  /** One row's turn, seen from row q of the table. */
  lemma RowMarks(p: Publisher, s: RowScript, q: nat)
    requires p.tick.Some? && !p.tick.value.marking && p.tick.value.todo != [] && q < |p.outbox|
    ensures var p' := RunRow(p, s); var head, row := p.tick.value.todo[0], p.outbox[q];
            var pending := row.id in p.tick.value.pending || (row.id == head.id && Touched(head, s));
            && |p'.outbox| == |p.outbox| && p'.outbox[q] == row.(publishedAt := p'.outbox[q].publishedAt)
            && (p'.outbox[q].publishedAt.Some? <==> row.publishedAt.Some? || (pending && Flushes(head, s)))
            && p'.tick.Some? && !p'.tick.value.marking && p'.tick.value.todo == p.tick.value.todo[1..]
            && (row.id in p'.tick.value.pending <==> pending && !(Flushes(head, s) && s.mark.save.Saved?))
  {
  }

  lemma NothingPublishes(id: nat)
    ensures !FlushedBy([], [], 0) && !Publishes([], [], id)
  {
  }

  /** From the middle of a tick: a row ends up published exactly if it already was, if its pending
      mark is flushed by a later save, or if the remaining rows publish it. */
  lemma {:induction false} RestOfTick(p: Publisher, script: seq<RowScript>, q: nat)
    requires p.tick.Some? && !p.tick.value.marking && |script| == |p.tick.value.todo| && q < |p.outbox|
    ensures var p' := RunTick(p, script); var rows := p.tick.value.todo; var row := p.outbox[q];
            && |p'.outbox| == |p.outbox| && p'.outbox[q] == row.(publishedAt := p'.outbox[q].publishedAt)
            && (p'.outbox[q].publishedAt.Some? <==>
                  || row.publishedAt.Some?
                  || (row.id in p.tick.value.pending && FlushedBy(rows, script, 0))
                  || Publishes(rows, script, row.id))
    decreases |script|
  {
    hide RunRow, FlushedBy, Publishes;
    if script == [] {
      NothingPublishes(p.outbox[q].id);
    } else {
      var rows := p.tick.value.todo;
      RowMarks(p, script[0], q);
      RestOfTick(RunRow(p, script[0]), script[1..], q);
      PublishesTail(rows, script, p.outbox[q].id);
      FlushedTail(rows, script, 0);
      HeadFlushes(rows, script);
    }
  }

  /** One tick under any failure pattern: an unpublished row is published afterwards exactly if its own
      hand-over succeeded, its mark reached the context, and its save or a later one in the tick
      committed. No mark is undone, and nothing else about any row changes. */
  lemma TickPublishesExactly(p: Publisher, rows: seq<OutboxRow>, script: seq<RowScript>, q: nat)
    requires |script| == |rows| && q < |p.outbox|
    ensures var p' := RunTick(Begin(p, rows), script); var row := p.outbox[q];
            && |p'.outbox| == |p.outbox| && p'.outbox[q] == row.(publishedAt := p'.outbox[q].publishedAt)
            && (p'.outbox[q].publishedAt.Some? <==> row.publishedAt.Some? || Publishes(rows, script, row.id))
  {
    RestOfTick(Begin(p, rows), script, q);
  }

  /** What a tick hands over: each readable row whose own hand-over took effect, in order. */
  function Handed(rows: seq<OutboxRow>, script: seq<RowScript>): seq<OutboxRow>
    requires |rows| == |script|
  {
    if rows == [] then []
    else (if Effective(rows[0], script[0].send) then [rows[0]] else []) + Handed(rows[1..], script[1..])
  }

  /** Upserts overwrite whole documents, in order. */
  function Upserted(index: map<int, SearchDocument>, rows: seq<OutboxRow>): map<int, SearchDocument>
    decreases |rows|
  {
    if rows == [] then index
    else
      var row := rows[0];
      Upserted(if row.entry.Indexing? then index[row.entry.document.id := row.entry.document] else index, rows[1..])
  }

  lemma RowHandsOver(p: Publisher, s: RowScript)
    requires p.tick.Some? && !p.tick.value.marking && p.tick.value.todo != []
    ensures var p' := RunRow(p, s); var row := p.tick.value.todo[0];
            var handed := if Effective(row, s.send) then [row] else [];
            && p'.sent == p.sent + handed && p'.index == Upserted(p.index, handed)
            && p'.tick.Some? && !p'.tick.value.marking && p'.tick.value.todo == p.tick.value.todo[1..]
  {
    hide MarkRows;
  }

  lemma UpsertedHead(index: map<int, SearchDocument>, head: seq<OutboxRow>, rows: seq<OutboxRow>)
    requires |head| <= 1
    ensures Upserted(index, head + rows) == Upserted(Upserted(index, head), rows)
  {
    if head == [] { assert head + rows == rows; } else { assert (head + rows)[1..] == rows; }
  }

  /** One failure never stops later rows: what is handed over depends on each row's own outcome only. */
  lemma {:induction false} TickHandsOver(p: Publisher, script: seq<RowScript>)
    requires p.tick.Some? && !p.tick.value.marking && |script| == |p.tick.value.todo|
    ensures var p' := RunTick(p, script); var handed := Handed(p.tick.value.todo, script);
            p'.sent == p.sent + handed && p'.index == Upserted(p.index, handed)
    decreases |script|
  {
    hide RunRow, Effective, Upserted;
    if script == [] {
      assert Upserted(p.index, []) == p.index by { NothingUpserted(p.index); }
    } else {
      var row := p.tick.value.todo[0];
      RowHandsOver(p, script[0]);
      TickHandsOver(RunRow(p, script[0]), script[1..]);
      var head := if Effective(row, script[0].send) then [row] else [];
      UpsertedHead(p.index, head, Handed(p.tick.value.todo[1..], script[1..]));
    }
  }

  lemma NothingUpserted(index: map<int, SearchDocument>)
    ensures Upserted(index, []) == index
  {
  }

  // ---------- the query ----------

  ghost predicate DistinctIds(rows: seq<OutboxRow>) {
    forall i, j :: 0 <= i < j < |rows| ==> rows[i].id != rows[j].id
  }

  lemma {:induction false} UnpublishedMembers(rows: seq<OutboxRow>)
    ensures forall r :: r in Unpublished(rows) <==> r in rows && r.publishedAt.None?
    ensures DistinctIds(rows) ==> DistinctIds(Unpublished(rows))
  {
    if rows != [] {
      UnpublishedMembers(rows[1..]);
      assert rows == [rows[0]] + rows[1..];
      if DistinctIds(rows) { HeadDistinct(rows); }
    }
  }

  lemma HeadDistinct(rows: seq<OutboxRow>)
    requires DistinctIds(rows) && rows != []
    ensures DistinctIds(rows[1..]) && forall r :: r in rows[1..] ==> r.id != rows[0].id
  {
  }

  lemma {:induction false} InsertKeepsIds(x: OutboxRow, rows: seq<OutboxRow>)
    requires DistinctIds(rows) && forall r :: r in rows ==> r.id != x.id
    ensures DistinctIds(Insert(Earlier, x, rows))
    ensures forall r :: r in Insert(Earlier, x, rows) <==> r == x || r in rows
  {
    if rows != [] && !Earlier(x, rows[0]) {
      assert rows == [rows[0]] + rows[1..];
      HeadDistinct(rows);
      InsertKeepsIds(x, rows[1..]);
    }
  }

  lemma {:induction false} SortKeepsIds(rows: seq<OutboxRow>)
    requires DistinctIds(rows)
    ensures DistinctIds(OrderBy(Earlier, rows))
    ensures forall r :: r in OrderBy(Earlier, rows) <==> r in rows
  {
    if rows != [] {
      assert rows == [rows[0]] + rows[1..];
      HeadDistinct(rows);
      SortKeepsIds(rows[1..]);
      InsertKeepsIds(rows[0], OrderBy(Earlier, rows[1..]));
    }
  }

  /** Sorting the unpublished rows by creation time is one correct answer to the query. */
  lemma SortAnswersQuery(outbox: seq<OutboxRow>)
    requires DistinctIds(outbox)
    ensures Query(outbox, OrderBy(Earlier, Unpublished(outbox)))
  {
    UnpublishedMembers(outbox);
    SortKeepsIds(Unpublished(outbox));
    OrderByStable(Earlier, Unpublished(outbox));
  }
}
