/** What a running tick has left, in every run; and a tick without faults of its own, in the middle of
    everything else, publishes every row there was when it began. */
module TickRuns {
  import opened Common
  import opened Domain
  import opened WorkOrderStore
  import opened Sorting
  import opened Outbox
  import opened Pipeline
  import Api
  import AT = ApiTheorems
  import S = SearchIndex
  import H = ConsumerHost

  /** What a tick has left: rows still unpublished and not yet marked, in order. */
  ghost predicate TodoOk(p: Publisher) {
    p.tick.Some? ==>
      var t := p.tick.value;
      && Ordered(Earlier, t.todo) && DistinctIds(t.todo)
      && (forall r :: r in t.todo ==> r in p.outbox && r.publishedAt.None? && r.id !in t.pending)
  }

  lemma AttemptKeepsTodo(p: Publisher, o: Send)
    requires p.tick.Some? && p.tick.value.todo != [] && !p.tick.value.marking && TodoOk(p)
    ensures TodoOk(Attempt(p, o))
  {
    var todo := p.tick.value.todo;
    assert todo == [todo[0]] + todo[1..];
    HeadDistinct(todo);
  }

  /** Marking publishes the rows marked and changes nothing else. */
  lemma MarkedRow(outbox: seq<OutboxRow>, marks: map<nat, int>, r': OutboxRow) returns (r: OutboxRow)
    requires r' in MarkRows(outbox, marks)
    ensures r in outbox && r' == r.(publishedAt := r'.publishedAt)
    ensures r'.publishedAt == if r.id in marks then Some(marks[r.id]) else r.publishedAt
  {
    var i :| 0 <= i < |outbox| && MarkRows(outbox, marks)[i] == r';
    r := outbox[i];
  }

  lemma UnmarkedRow(outbox: seq<OutboxRow>, marks: map<nat, int>, r: OutboxRow)
    requires r in outbox && r.id !in marks
    ensures r in MarkRows(outbox, marks)
  {
    var i :| 0 <= i < |outbox| && outbox[i] == r;
    assert MarkRows(outbox, marks)[i] == r;
  }

  lemma MarkKeepsTodo(p: Publisher, o: Mark, now: int)
    requires p.tick.Some? && p.tick.value.todo != [] && TodoOk(p)
    ensures TodoOk(MarkHead(p, o, now))
  {
    hide MarkRows;
    var todo := p.tick.value.todo;
    assert todo == [todo[0]] + todo[1..];
    HeadDistinct(todo);
    if o.Write? && !o.save.SaveThrew? {
      var marks := p.tick.value.pending[todo[0].id := now];
      forall r | r in todo[1..] ensures r in MarkRows(p.outbox, marks) { UnmarkedRow(p.outbox, marks, r); }
    }
  }

  lemma GrowKeepsTodo(p: Publisher, outbox: seq<OutboxRow>)
    requires TodoOk(p) && p.outbox <= outbox
    ensures TodoOk(p.(outbox := outbox))
  {
  }

  lemma BeginsOk(p: Publisher, rows: seq<OutboxRow>)
    requires Query(p.outbox, rows)
    ensures TodoOk(Begin(p, rows))
  {
  }

  lemma EndpointGrows(w: World, call: Api.Event)
    requires AT.Inv(w.api)
    ensures var outbox := Api.Apply(w.api, call).store.outbox;
            w.api.store.outbox <= outbox && Pub(Apply(w, Endpoint(call))) == Pub(w).(outbox := outbox)
  {
    AT.ApplyKeepsInv(w.api, call);
  }

  lemma MarkIs(w: World, o: Mark, now: int)
    requires Legal(w, TickMark(o, now))
    ensures var w' := Apply(w, TickMark(o, now));
            Pub(w') == MarkHead(Pub(w), o, now) && w'.host == w.host && w'.sent == w.sent
  {
    hide MarkRows;
  }

  /** Steps that are not the publisher's or an endpoint's leave the table, and the tick, alone. */
  lemma OthersLeaveTick(w: World, e: Event)
    requires Legal(w, e) && !e.Endpoint? && !IsTick(e)
    ensures Apply(w, e).api == w.api && Apply(w, e).tick == w.tick
  {
    hide S.Lists, S.Cleared, Api.Membership, Api.IsAdmin, H.HostApply;
  }

  lemma SameTodo(p: Publisher, p': Publisher)
    requires TodoOk(p) && p'.outbox == p.outbox && p'.tick == p.tick
    ensures TodoOk(p')
  {
  }

  lemma StepKeepsTodo(w: World, e: Event)
    requires AT.Inv(w.api) && TodoOk(Pub(w)) && Legal(w, e)
    ensures TodoOk(Pub(Apply(w, e)))
  {
    hide TodoOk, AT.Inv, Api.Apply, MarkHead, Attempt, Query;
    match e
    case Endpoint(call) =>
      EndpointGrows(w, call);
      GrowKeepsTodo(Pub(w), Api.Apply(w.api, call).store.outbox);
    case TickBegin(rows) => BeginsOk(Pub(w), rows);
    case TickAttempt(o) =>
      AttemptIs(w, o);
      AttemptKeepsTodo(Pub(w), o);
    case TickMark(o, now) =>
      MarkIs(w, o, now);
      MarkKeepsTodo(Pub(w), o, now);
    case TickAbort => NoTodo(Pub(Apply(w, e)));
    case _ =>
      OthersLeaveTick(w, e);
      SameTodo(Pub(w), Pub(Apply(w, e)));
  }

  lemma NoTodo(p: Publisher)
    requires p.tick.None?
    ensures TodoOk(p)
  {
  }

  /** In every state of every run, whatever has failed: what the running tick still has to do is in the
      table, unpublished, unmarked, and in order. */
  lemma {:induction false} RunKeepsTodo(t: seq<World>, events: seq<Event>, k: nat)
    requires IsRun(t, events) && k < |t|
    ensures TodoOk(Pub(t[k]))
  {
    hide Legal, Apply, Inv, TodoOk, Starts;
    if k == 0 {
      NoTodo(Pub(t[0])) by { StartsIdle(t[0]); }
    } else {
      RunKeepsTodo(t, events, k - 1);
      RunKeepsInv(t, events, k - 1);
      InvApi(t[k - 1]);
      StepKeepsTodo(t[k - 1], events[k - 1]);
    }
  }

  lemma StartsIdle(w: World)
    requires Starts(w)
    ensures w.tick.None?
  {
  }

  lemma InvApi(w: World)
    requires Inv(w)
    ensures AT.Inv(w.api)
  {
  }

  // ---------- a tick without faults ----------

  /** The event is no fault of the running tick: it does not stop it, and its hand-overs and marks succeed. */
  predicate Untroubled(e: Event) {
    match e
    case TickBegin(_) => false
    case TickAbort => false
    case TickAttempt(o) => o.Sent?
    case TickMark(o, _) => o == Write(Saved)
    case _ => true
  }

  /** The row at this place is the one it was, and published or still on the tick's list. */
  ghost predicate Coming(p: Publisher, q: nat, row: OutboxRow) {
    && q < |p.outbox| && SameRow(row, p.outbox[q])
    && p.tick.Some? && (p.outbox[q].publishedAt.Some? || p.outbox[q] in p.tick.value.todo)
  }

  lemma MarkKeepsComing(p: Publisher, now: int, q: nat, row: OutboxRow)
    requires p.tick.Some? && p.tick.value.todo != [] && Coming(p, q, row)
    ensures Coming(MarkHead(p, Write(Saved), now), q, row)
  {
    var todo := p.tick.value.todo;
    assert todo == [todo[0]] + todo[1..];
  }

  lemma AttemptKeepsComing(p: Publisher, q: nat, row: OutboxRow)
    requires p.tick.Some? && p.tick.value.todo != [] && !p.tick.value.marking && Coming(p, q, row)
    requires !p.tick.value.todo[0].entry.Unreadable?
    ensures Coming(Attempt(p, Sent), q, row)
  {
  }

  lemma SameComing(p: Publisher, p': Publisher, q: nat, row: OutboxRow)
    requires Coming(p, q, row) && p.outbox <= p'.outbox && p'.tick == p.tick
    ensures Coming(p', q, row)
  {
  }

  lemma SentKeepsComing(w: World, q: nat, row: OutboxRow)
    requires Inv(w) && Legal(w, TickAttempt(Sent)) && Coming(Pub(w), q, row)
    ensures Coming(Pub(Apply(w, TickAttempt(Sent))), q, row)
  {
    hide Inv, Coming, Attempt, Apply, H.HostApply, Messages, Message, Effective;
    AttemptIs(w, Sent);
    HeadIsReadable(w);
    AttemptKeepsComing(Pub(w), q, row);
  }

  lemma HeadIsReadable(w: World)
    requires Inv(w) && w.tick.Some? && w.tick.value.todo != []
    ensures !w.tick.value.todo[0].entry.Unreadable?
  {
    hide Inv;
    HeadIsGenuine(w);
  }

  lemma SavedKeepsComing(w: World, now: int, q: nat, row: OutboxRow)
    requires Legal(w, TickMark(Write(Saved), now)) && Coming(Pub(w), q, row)
    ensures Coming(Pub(Apply(w, TickMark(Write(Saved), now))), q, row)
  {
    hide Inv, Coming, MarkHead, Apply;
    MarkIs(w, Write(Saved), now);
    MarkKeepsComing(Pub(w), now, q, row);
  }

  lemma StepKeepsComing(w: World, e: Event, q: nat, row: OutboxRow)
    requires Inv(w) && Legal(w, e) && Untroubled(e) && Coming(Pub(w), q, row)
    ensures Coming(Pub(Apply(w, e)), q, row)
  {
    hide Legal, Coming, Inv, AT.Inv, Api.Apply, MarkHead, Attempt, Query, Apply;
    match e
    case TickBegin(_) => assert false;
    case TickAbort => assert false;
    case TickAttempt(o) => SentKeepsComing(w, q, row);
    case TickMark(o, now) => SavedKeepsComing(w, now, q, row);
    case Endpoint(call) =>
      InvApi(w);
      EndpointGrows(w, call);
      SameComing(Pub(w), Pub(Apply(w, e)), q, row);
    case _ =>
      OthersLeaveTick(w, e);
      SameComing(Pub(w), Pub(Apply(w, e)), q, row);
  }

  lemma BeginComing(w: World, rows: seq<OutboxRow>, q: nat)
    requires Legal(w, TickBegin(rows)) && q < |w.api.store.outbox|
    ensures Coming(Pub(Apply(w, TickBegin(rows))), q, w.api.store.outbox[q])
  {
  }

  /** A tick begins at step i, meets no fault of its own, and has gone through its list in state j. */
  ghost predicate GoesThrough(t: seq<World>, events: seq<Event>, i: nat, j: nat) {
    && IsRun(t, events) && i < j < |t| && events[i].TickBegin?
    && (forall m :: i < m < j ==> Untroubled(events[m]))
    && t[j].tick.Some? && t[j].tick.value.todo == []
  }

  lemma {:induction false} TickInProgress(t: seq<World>, events: seq<Event>, i: nat, m: nat, j: nat, q: nat)
    requires GoesThrough(t, events, i, j) && i < m <= j && q < |t[i].api.store.outbox|
    ensures Coming(Pub(t[m]), q, t[i].api.store.outbox[q])
    decreases m
  {
    hide Legal, Apply, Inv, Starts, Coming, Untroubled;
    if m == i + 1 {
      BeginComing(t[i], events[i].rows, q);
    } else {
      TickInProgress(t, events, i, m - 1, j, q);
      RunKeepsInv(t, events, m - 1);
      StepKeepsComing(t[m - 1], events[m - 1], q, t[i].api.store.outbox[q]);
    }
  }

  /** One tick without faults of its own publishes every row there was when it began, whatever endpoints,
      consumers and rebuilds do meanwhile, and whatever earlier ticks left behind. */
  lemma FaultlessTickPublishesAll(t: seq<World>, events: seq<Event>, i: nat, j: nat, q: nat)
    requires GoesThrough(t, events, i, j) && q < |t[i].api.store.outbox|
    ensures q < |t[j].api.store.outbox| && SameRow(t[i].api.store.outbox[q], t[j].api.store.outbox[q])
    ensures t[j].api.store.outbox[q].publishedAt.Some? && Among(t[j].api.store.outbox[q], t[j].sent)
  {
    TickInProgress(t, events, i, j, j, q);
    MarkedMeansSent(t, events, j, q);
  }
}
