/** Three runs of the whole system, from one work order created, assigned, started and completed, that
    show what the clean-run order of the index needs: no failed index call, no failed mark, and, for
    published rows, no tick cut between the two. */
module IndexRuns {
  import opened Common
  import opened Domain
  import opened WorkOrderStore
  import opened Outbox
  import opened Pipeline
  import opened IndexOrder
  import Api
  import H = ConsumerHost

  // ---------- runs with one kind of fault ----------

  ghost predicate CleanBut(t: seq<World>, events: seq<Event>, fault: Event) {
    IsRun(t, events) && forall i :: 0 <= i < |events| && events[i] != fault ==> Clean(t[i], events[i])
  }

  lemma ExtendBut(t: seq<World>, events: seq<Event>, e: Event, fault: Event)
    returns (t': seq<World>, events': seq<Event>)
    requires CleanBut(t, events, fault) && Legal(Last(t), e) && (e == fault || Clean(Last(t), e))
    ensures CleanBut(t', events', fault) && t' != [] && t' == t + [Apply(Last(t), e)] && Last(t') == Apply(Last(t), e)
            && events' == events + [e]
  {
    hide Legal, Clean, Apply, Starts;
    t', events' := Extend(t, events, e);
    forall i | 0 <= i < |events'| && events'[i] != fault ensures Clean(t'[i], events'[i]) {
      if i < |events| { assert t'[i] == t[i] && events'[i] == events[i]; } else { assert t'[i] == Last(t); }
    }
  }

  // ---------- four calls ----------

  /** Everything the calls need: organization, title, and employee 1, an admin. */
  datatype Case = Case(organizationId: int, title: string)
  {
    function Order(status: Status): WorkOrder {
      WorkOrder(title, organizationId, status, if status.Open? then None else Some(1), [], None, false)
    }

    function Document(status: Status): SearchDocument { SearchDocument(1, organizationId, title, status) }

    function Created(publishedAt: Option<int>): OutboxRow { OutboxRow(1, Indexing(Document(Open)), 1, publishedAt) }

    function Announced(publishedAt: Option<int>): OutboxRow {
      OutboxRow(2, Completion(CompletedEvent(1, organizationId, None, title, 4)), 4, publishedAt)
    }

    function Completed(publishedAt: Option<int>): OutboxRow {
      OutboxRow(3, Indexing(Document(Status.Completed)), 4, publishedAt)
    }

    function Call(action: Api.Action, now: int): Api.Event {
      Api.Handle(Api.Request(Some(organizationId), Some(1), action),
                 Api.Env(now, Saved, CreateSaves(Saved, Saved, Saved), true, Saved, true))
    }

    /** After some of the calls: these orders and rows. */
    ghost predicate Reached(a: Api.Api, status: Status, outbox: seq<OutboxRow>, nextRow: nat) {
      && a.employees == map[1 := Employee(organizationId, Admin)]
      && a.store == Store(map[1 := Order(status)], outbox, 2, nextRow)
    }

    function Rows(): seq<OutboxRow> { [Created(None), Announced(None), Completed(None)] }
  }

  lemma CreateCall(c: Case, a: Api.Api)
    requires a.employees == map[1 := Employee(c.organizationId, Admin)] && a.store == EMPTY
    ensures var call := c.Call(Api.Create(c.title, None), 1);
            c.Reached(Api.Apply(a, call), Open, [c.Created(None)], 2) && ClockMoves(a, call)
  {
    hide Api.DropKey;
    var entries := Api.CreationEntries(1, c.organizationId, c.title);
    assert Rows(entries, 1, 1) == [c.Created(None)];
  }

  lemma AssignCall(c: Case, a: Api.Api)
    requires c.Reached(a, Open, [c.Created(None)], 2)
    ensures var call := c.Call(Api.Assign(1, 1), 2);
            c.Reached(Api.Apply(a, call), Assigned, [c.Created(None)], 2) && ClockMoves(a, call)
  {
    hide Api.DropKey;
    assert Rows([], 2, 2) == [];
  }

  lemma StartCall(c: Case, a: Api.Api)
    requires c.Reached(a, Assigned, [c.Created(None)], 2)
    ensures var call := c.Call(Api.Start(1), 3);
            c.Reached(Api.Apply(a, call), InProgress, [c.Created(None)], 2) && ClockMoves(a, call)
  {
    hide Api.DropKey;
    assert Rows([], 2, 3) == [];
  }

  lemma CompleteCall(c: Case, a: Api.Api)
    requires c.Reached(a, InProgress, [c.Created(None)], 2)
    ensures var call := c.Call(Api.Complete(1), 4);
            c.Reached(Api.Apply(a, call), Status.Completed, c.Rows(), 4) && ClockMoves(a, call)
  {
    hide Api.DropKey;
    var entries := Api.CompletionEntries(1, c.organizationId, c.Order(InProgress), 4);
    assert Rows(entries, 2, 4) == [c.Announced(None), c.Completed(None)];
  }

  /** A work order completed, nothing published yet. */
  lemma CompletedOrder(c: Case, fault: Event) returns (t: seq<World>, events: seq<Event>)
    ensures CleanBut(t, events, fault) && t != [] && Last(t).api.store.orders == map[1 := c.Order(Status.Completed)]
    ensures Pub(Last(t)) == Publisher(c.Rows(), map[], [], None)
  {
    var a0 := Api.Initial(map[1 := Employee(c.organizationId, Admin)], map[]);
    var w0 := World(a0, map[], map[], [], None, H.START);
    assert Starts(w0);
    t, events := [w0], [];
    CreateCall(c, a0);
    hide Api.Apply, ClockMoves, Starts;
    t, events := ExtendBut(t, events, Endpoint(c.Call(Api.Create(c.title, None), 1)), fault);
    AssignCall(c, Last(t).api);
    t, events := ExtendBut(t, events, Endpoint(c.Call(Api.Assign(1, 1), 2)), fault);
    StartCall(c, Last(t).api);
    t, events := ExtendBut(t, events, Endpoint(c.Call(Api.Start(1), 3)), fault);
    CompleteCall(c, Last(t).api);
    t, events := ExtendBut(t, events, Endpoint(c.Call(Api.Complete(1), 4)), fault);
  }

  // ---------- ticks ----------

  lemma StepIsTickStep(w: World, e: Event)
    requires IsTick(e) && TickLegal(Pub(w), e)
    ensures Legal(w, e) && Pub(Apply(w, e)) == TickStep(Pub(w), e)
    ensures Apply(w, e).api.store.orders == w.api.store.orders
  {
    hide Query, MarkHead, Attempt, Effective, Messages;
    if e.TickAttempt? { AttemptFrame(Pub(w), e.send); }
  }

  /** One step of a tick; faultless ones are those with outcome Sent and a saved mark. */
  lemma Ticks(t: seq<World>, events: seq<Event>, e: Event, fault: Event) returns (t': seq<World>, events': seq<Event>)
    requires CleanBut(t, events, fault) && IsTick(e) && TickLegal(Pub(Last(t)), e)
    requires e == fault || e.TickBegin? || e.TickAbort? || e == TickAttempt(Sent) || e == TickMark(Write(Saved), 5)
    ensures CleanBut(t', events', fault) && t' != [] && Pub(Last(t')) == TickStep(Pub(Last(t)), e)
    ensures Last(t').api.store.orders == Last(t).api.store.orders
  {
    StepIsTickStep(Last(t), e);
    hide TickLegal, TickStep, Apply, Legal, Query;
    t', events' := ExtendBut(t, events, e, fault);
  }

  /** A row handed over and marked. */
  function Done(p: Publisher): Publisher
    requires p.tick.Some? && p.tick.value.todo != []
  {
    var row := p.tick.value.todo[0];
    Publisher(
      MarkRows(p.outbox, map[row.id := 5]),
      if row.entry.Indexing? then p.index[row.entry.document.id := row.entry.document] else p.index,
      p.sent + [row],
      Some(Tick(p.tick.value.todo[1..], false, map[])))
  }

  lemma HandOverAndMark(t: seq<World>, events: seq<Event>, fault: Event) returns (t': seq<World>, events': seq<Event>)
    requires CleanBut(t, events, fault)
    requires var k := Pub(Last(t)).tick;
             k.Some? && k.value.todo != [] && !k.value.marking && k.value.pending == map[]
             && !k.value.todo[0].entry.Unreadable?
    ensures CleanBut(t', events', fault) && t' != [] && Pub(Last(t')) == Done(Pub(Last(t)))
    ensures Last(t').api.store.orders == Last(t).api.store.orders
  {
    hide CleanBut, Pub, MarkRows, Query;
    t', events' := Ticks(t, events, TickAttempt(Sent), fault);
    t', events' := Ticks(t', events', TickMark(Write(Saved), 5), fault);
  }

  lemma MarkThree(c: Case, x: Option<int>, y: Option<int>, z: Option<int>)
    ensures MarkRows([c.Created(x), c.Announced(y), c.Completed(z)], map[1 := 5]) ==
            [c.Created(Some(5)), c.Announced(y), c.Completed(z)]
    ensures MarkRows([c.Created(x), c.Announced(y), c.Completed(z)], map[2 := 5]) ==
            [c.Created(x), c.Announced(Some(5)), c.Completed(z)]
    ensures MarkRows([c.Created(x), c.Announced(y), c.Completed(z)], map[3 := 5]) ==
            [c.Created(x), c.Announced(y), c.Completed(Some(5))]
  {
  }

  lemma QueryAll(c: Case)
    ensures Query(c.Rows(), c.Rows())
  {
  }

  lemma QueryFirst(c: Case)
    ensures Query([c.Created(None), c.Announced(Some(5)), c.Completed(Some(5))], [c.Created(None)])
  {
  }

  /** The first row is still unpublished when the tick has passed it: this tick publishes the others, and
      the next one hands it over, and marks it, last. */
  lemma FirstRowComesLast(c: Case, t: seq<World>, events: seq<Event>, fault: Event)
    returns (t': seq<World>, events': seq<Event>)
    requires t != [] && CleanBut(t, events, fault)
    requires var p := Pub(Last(t)); p.outbox == c.Rows() && p.tick == Some(Tick(c.Rows()[1..], false, map[]))
    ensures CleanBut(t', events', fault) && t' != [] && Last(t').api.store.orders == Last(t).api.store.orders
    ensures var p := Pub(Last(t'));
            && p.outbox == [c.Created(Some(5)), c.Announced(Some(5)), c.Completed(Some(5))]
            && p.sent == Pub(Last(t)).sent + [c.Announced(None), c.Completed(None), c.Created(None)]
            && 1 in p.index && p.index[1] == c.Document(Open)
  {
    hide CleanBut, MarkRows, Query, Pub;
    var sent := Pub(Last(t)).sent;
    assert c.Rows()[1..] == [c.Announced(None), c.Completed(None)];
    MarkThree(c, None, None, None);
    MarkThree(c, None, Some(5), None);
    MarkThree(c, None, Some(5), Some(5));
    t', events' := HandOverAndMark(t, events, fault);
    assert Pub(Last(t')).tick.value.todo == [c.Completed(None)];
    t', events' := HandOverAndMark(t', events', fault);
    assert Pub(Last(t')).outbox == [c.Created(None), c.Announced(Some(5)), c.Completed(Some(5))];
    t', events' := Ticks(t', events', TickAbort, fault);
    QueryFirst(c);
    t', events' := Ticks(t', events', TickBegin([c.Created(None)]), fault);
    t', events' := HandOverAndMark(t', events', fault);
    assert sent + [c.Announced(None)] + [c.Completed(None)] + [c.Created(None)] ==
           sent + [c.Announced(None), c.Completed(None), c.Created(None)];
  }

  lemma StartTick(c: Case, fault: Event) returns (t: seq<World>, events: seq<Event>)
    ensures CleanBut(t, events, fault) && t != [] && Last(t).api.store.orders == map[1 := c.Order(Status.Completed)]
    ensures Pub(Last(t)) == Publisher(c.Rows(), map[], [], Some(Tick(c.Rows(), false, map[])))
  {
    hide CleanBut, Query, Pub;
    t, events := CompletedOrder(c, fault);
    QueryAll(c);
    t, events := Ticks(t, events, TickBegin(c.Rows()), fault);
  }

  /** The end of the story: the order is completed, all its rows are published, the newest one handed over
      says so, and the index says Open. */
  ghost predicate LeftOpen(c: Case, w: World) {
    && w.api.store.orders == map[1 := c.Order(Status.Completed)]
    && (forall r :: r in w.api.store.outbox ==> r.publishedAt.Some?)
    && NewestSent(w.sent, c.Completed(None), 1)
    && 1 in w.index && w.index[1] == c.Document(Open)
  }

  const FAILED_INDEX_CALL: Event := TickAttempt(SendThrew)
  const FAILED_MARK: Event := TickMark(ReadThrew, 5)
  const CUT: Event := TickAbort

  /** One failed index call, and nothing else, leaves the document wrong for good. */
  lemma FailedIndexCallLeavesOpen(c: Case) returns (t: seq<World>, events: seq<Event>)
    ensures t != [] && CleanBut(t, events, FAILED_INDEX_CALL) && LeftOpen(c, Last(t))
            && !Copied(Last(t).sent, Last(t).index, 1)
  {
    hide CleanBut, Query, Pub;
    t, events := StartTick(c, FAILED_INDEX_CALL);
    t, events := Ticks(t, events, FAILED_INDEX_CALL, FAILED_INDEX_CALL);
    t, events := FirstRowComesLast(c, t, events, FAILED_INDEX_CALL);
    EndsLeftOpen(c, Last(t), []);
  }

  /** No index call fails, one mark does: the same. */
  lemma FailedMarkLeavesOpen(c: Case) returns (t: seq<World>, events: seq<Event>)
    ensures t != [] && CleanBut(t, events, FAILED_MARK) && LeftOpen(c, Last(t))
            && !Copied(Last(t).sent, Last(t).index, 1)
  {
    hide CleanBut, Query, Pub;
    t, events := StartTick(c, FAILED_MARK);
    t, events := Ticks(t, events, TickAttempt(Sent), FAILED_MARK);
    t, events := Ticks(t, events, FAILED_MARK, FAILED_MARK);
    t, events := FirstRowComesLast(c, t, events, FAILED_MARK);
    EndsLeftOpen(c, Last(t), [c.Created(None)]);
  }

  lemma EndsLeftOpen(c: Case, w: World, sent: seq<OutboxRow>)
    requires w.api.store.orders == map[1 := c.Order(Status.Completed)]
    requires Pub(w).outbox == [c.Created(Some(5)), c.Announced(Some(5)), c.Completed(Some(5))]
    requires sent == [] || sent == [c.Created(None)]
    requires Pub(w).sent == sent + [c.Announced(None), c.Completed(None), c.Created(None)]
    requires 1 in Pub(w).index && Pub(w).index[1] == c.Document(Open)
    ensures LeftOpen(c, w) && !Copied(w.sent, w.index, 1)
  {
    assert c.Completed(None) in w.sent;
  }

  /** The tick is cut after the last row's index call. */
  lemma CutTick(c: Case) returns (t: seq<World>, events: seq<Event>)
    ensures CleanBut(t, events, CUT) && t != []
    ensures var p := Pub(Last(t));
            && p.outbox == [c.Created(Some(5)), c.Announced(Some(5)), c.Completed(None)]
            && p.index == map[1 := c.Document(Status.Completed)]
  {
    hide CleanBut, MarkRows, Query, Pub;
    t, events := StartTick(c, CUT);
    MarkThree(c, None, None, None);
    MarkThree(c, Some(5), None, None);
    t, events := HandOverAndMark(t, events, CUT);
    assert Pub(Last(t)).tick.value.todo == [c.Announced(None), c.Completed(None)];
    t, events := HandOverAndMark(t, events, CUT);
    assert Pub(Last(t)).tick.value.todo == [c.Completed(None)];
    t, events := Ticks(t, events, TickAttempt(Sent), CUT);
    t, events := Ticks(t, events, CUT, CUT);
  }

  /** Nothing fails, but a tick is cut between an index call and its mark: the document is that of the
      newest row handed over, and not that of the newest row published. */
  lemma CutTickRunsAhead(c: Case) returns (t: seq<World>, events: seq<Event>)
    ensures IsCleanRun(t, events)
    ensures var w := Last(t);
            && w.api.store.outbox == [c.Created(Some(5)), c.Announced(Some(5)), c.Completed(None)]
            && Copied(w.sent, w.index, 1) && 1 in w.index && w.index[1] != c.Created(Some(5)).entry.document
  {
    t, events := CutTick(c);
    CleanButCut(t, events);
    hide CleanBut, Clean;
    DocumentIsNewestHandedOver(t, events, |t| - 1, 1);
    assert Pub(Last(t)).outbox == Last(t).api.store.outbox && Pub(Last(t)).index == Last(t).index;
  }

  lemma CleanButCut(t: seq<World>, events: seq<Event>)
    requires CleanBut(t, events, CUT)
    ensures IsCleanRun(t, events)
  {
    forall i | 0 <= i < |events| ensures Clean(t[i], events[i]) {}
  }
}
