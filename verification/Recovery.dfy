/** Nothing is ever stuck: from every state of every run, however many faults led to it, whatever the
    publisher and the consumers do without further faults comes to an end, within a bound, and where it ends
    every outbox row is published and every message handled or dead-lettered. */
module Recovery {
  import opened Common
  import opened Domain
  import opened WorkOrderStore
  import opened Sorting
  import opened Outbox
  import opened Pipeline
  import opened TickRuns
  import C = Consumer
  import H = ConsumerHost

  // ---------- work ----------

  ghost predicate AllPublished(w: World) {
    forall r :: r in w.api.store.outbox ==> r.publishedAt.Some?
  }

  /** A step of work: no fault, no new request, and not idle. A tick begins only when there is something to
      publish, and ends only when it has gone through its list. */
  ghost predicate Works(w: World, e: Event) {
    && Legal(w, e)
    && match e
       case TickBegin(_) => !AllPublished(w)
       case TickAttempt(o) => o.Sent?
       case TickMark(o, _) => o == Write(Saved)
       case TickAbort => w.tick.Some? && w.tick.value.todo == []
       case Consume(a, ev) => a in w.host.sessions && C.Works(H.Get(w.host, a), ev)
       case _ => false
  }

  /** t' goes on where t stops, by work alone. */
  ghost predicate Continues(t: seq<World>, events: seq<Event>, t': seq<World>, events': seq<Event>) {
    && IsRun(t', events') && t <= t' && events <= events'
    && forall i :: |events| <= i < |events'| ==> Works(t'[i], events'[i])
  }

  // ---------- the publisher's backlog ----------

  /** Where a tick stands between two marks. */
  function Phase(tick: Option<Tick>): nat {
    if tick.None? then 2 else if tick.value.todo == [] then 3 else if tick.value.marking then 0 else 1
  }

  function Backlog(p: Publisher): nat {
    4 * |Unpublished(p.outbox)| + Phase(p.tick)
  }

  lemma {:induction false} MarkingPublishes(outbox: seq<OutboxRow>, marks: map<nat, int>)
    ensures |Unpublished(MarkRows(outbox, marks))| <= |Unpublished(outbox)|
    ensures (exists r :: r in outbox && r.publishedAt.None? && r.id in marks) ==>
              |Unpublished(MarkRows(outbox, marks))| < |Unpublished(outbox)|
  {
    if outbox != [] {
      MarkingPublishes(outbox[1..], marks);
      assert MarkRows(outbox, marks)[1..] == MarkRows(outbox[1..], marks);
      assert outbox == [outbox[0]] + outbox[1..];
    }
  }

  lemma MarkWorks(p: Publisher, now: int)
    requires p.tick.Some? && p.tick.value.todo != [] && p.tick.value.marking && TodoOk(p)
    ensures Backlog(MarkHead(p, Write(Saved), now)) < Backlog(p)
  {
    hide MarkRows, Unpublished;
    var head := p.tick.value.todo[0];
    assert head in p.outbox && head.publishedAt.None?;
    MarkingPublishes(p.outbox, p.tick.value.pending[head.id := now]);
  }

  lemma AttemptWorks(p: Publisher)
    requires p.tick.Some? && p.tick.value.todo != [] && !p.tick.value.marking
    requires !p.tick.value.todo[0].entry.Unreadable?
    ensures Backlog(Attempt(p, Sent)) < Backlog(p)
  {
  }

  lemma BeginWorks(p: Publisher, rows: seq<OutboxRow>)
    requires p.tick.None? && Query(p.outbox, rows) && exists r :: r in p.outbox && r.publishedAt.None?
    ensures Backlog(Begin(p, rows)) < Backlog(p)
  {
  }

  /** Each step of the publisher's work lowers its backlog: a mark publishes a row; everything else brings
      the next mark nearer. */
  lemma TickPays(w: World, e: Event)
    requires Inv(w) && TodoOk(Pub(w)) && Works(w, e) && IsTick(e)
    ensures Backlog(Pub(Apply(w, e))) < Backlog(Pub(w))
  {
    hide Inv, TodoOk, MarkHead, Attempt, Query, Unpublished, Messages, Message, H.HostApply, Effective, H.Get, C.Works;
    match e
    case TickBegin(rows) => BeginWorks(Pub(w), rows);
    case TickAttempt(o) =>
      AttemptIs(w, o);
      HeadIsReadable(w);
      AttemptWorks(Pub(w));
    case TickMark(o, now) =>
      MarkIs(w, o, now);
      MarkWorks(Pub(w), now);
    case TickAbort =>
  }

  // ---------- the consumers' toil ----------

  function Ids(w: World): seq<string> { C.IdsOf(Messages(w.sent)) }

  ghost function Toil(w: World, a: string): nat
    requires a in w.host.sessions
  {
    C.Toil(H.Get(w.host, a), Ids(w))
  }

  lemma RunsAreWellNamed(h: H.Host)
    requires H.Runs(h)
    ensures H.WellNamed(h)
  {
    var events :| H.HostRun(H.START, events) == h;
    H.StartIsFresh("audit");
    H.RunProjects(H.START, events, "audit");
  }

  /** Both consumers, and what holds of each. */
  ghost predicate Staffed(w: World) {
    && H.WellNamed(w.host) && w.host.sessions.Keys == {"audit", "notifications"}
    && forall a :: a in w.host.sessions ==> C.Inv(H.Get(w.host, a)) && C.Tracked(H.Get(w.host, a), Ids(w))
  }

  lemma ArrivedAreTracked(c: C.Consumer, messages: seq<C.Copy>)
    requires C.Inv(c) && c.history.arrived == multiset(messages)
    ensures C.Tracked(c, C.IdsOf(messages))
  {
    hide C.ReleasesSettled, C.InboxBacked, C.HandledArrived, C.DeadBacked, C.Duplicates, C.Requeues, C.Settled;
    var ids := C.IdsOf(messages);
    forall x | x in messages ensures x.id in ids {
      var k :| 0 <= k < |messages| && messages[k] == x;
      assert ids[k] == x.id;
    }
    forall k | 0 <= k < |c.ready| ensures c.ready[k].id in ids { assert c.ready[k] in c.history.arrived; }
  }

  lemma InvStaffs(w: World)
    requires Inv(w)
    ensures Staffed(w)
  {
    RunsAreWellNamed(w.host);
    forall a | a in w.host.sessions ensures C.Inv(H.Get(w.host, a)) && C.Tracked(H.Get(w.host, a), Ids(w)) {
      H.EachReachable(w.host, a);
      C.ReachableInv(H.Get(w.host, a));
      ArrivedAreTracked(H.Get(w.host, a), Messages(w.sent));
    }
  }

  ghost function AllToil(w: World): nat
    requires w.host.sessions.Keys == {"audit", "notifications"}
  {
    Toil(w, "audit") + Toil(w, "notifications")
  }

  lemma ConsumeOne(w: World, a: string, e: C.Event)
    requires H.WellNamed(w.host) && a in w.host.sessions && !e.Arrive?
    ensures var w' := Apply(w, Consume(a, e));
            && w' == w.(host := w'.host) && w'.host.sessions.Keys == w.host.sessions.Keys
            && H.Get(w'.host, a) == C.Apply(H.Get(w.host, a), e)
            && forall b :: b in w.host.sessions && b != a ==> H.Get(w'.host, b) == H.Get(w.host, b)
  {
    hide C.Apply;
    var c := C.Apply(H.Get(w.host, a), e);
    H.PutThenGet(w.host, a, c);
    H.PutKeepsNames(w.host, a, c);
    forall b | b in w.host.sessions && b != a ensures H.Get(H.Put(w.host, a, c), b) == H.Get(w.host, b) {
      H.PutElsewhere(w.host, a, c, b);
    }
  }

  /** A consumer's step of work lowers its toil and leaves the other's, and the backlog, alone. */
  lemma ConsumePays(w: World, a: string, e: C.Event)
    requires Staffed(w) && Works(w, Consume(a, e))
    ensures var w' := Apply(w, Consume(a, e));
            Pub(w') == Pub(w) && w'.host.sessions.Keys == w.host.sessions.Keys && AllToil(w') < AllToil(w)
  {
    hide C.Apply, H.Get, C.Inv, C.Tracked, C.Toil, H.WellNamed, Messages;
    ConsumeOne(w, a, e);
    C.WorkPays(H.Get(w.host, a), e, Ids(w));
  }

  lemma IdsGrow(sent: seq<OutboxRow>, row: OutboxRow)
    requires row.entry.Completion?
    ensures C.IdsOf(Messages(sent + [row])) == C.IdsOf(Messages(sent)) + [Message(|Messages(sent)|, row).id]
  {
    MessagesGrow(sent, row);
  }

  lemma PublishCosts(w: World, w': World, row: OutboxRow, a: string)
    requires H.WellNamed(w.host) && a in w.host.sessions && row.entry.Completion?
    requires w'.host == H.HostApply(w.host, H.Publish(Message(|Messages(w.sent)|, row))) && w'.sent == w.sent + [row]
    ensures a in w'.host.sessions && Toil(w', a) <= Toil(w, a) + 27
  {
    hide H.Get, C.Toil, C.Apply, Messages, Message;
    var x := Message(|Messages(w.sent)|, row);
    H.FanoutArrives(w.host, x, a);
    IdsGrow(w.sent, row);
    C.ArriveCosts(H.Get(w.host, a), x, Ids(w));
  }

  lemma SentIndexing(sent: seq<OutboxRow>, row: OutboxRow)
    requires !row.entry.Completion?
    ensures Messages(sent + [row]) == Messages(sent)
  {
    MessagesGrow(sent, row);
  }

  /** A hand-over gives each consumer at most one more message. */
  lemma SendCosts(w: World)
    requires Staffed(w) && Legal(w, TickAttempt(Sent))
    ensures var w' := Apply(w, TickAttempt(Sent));
            w'.host.sessions.Keys == w.host.sessions.Keys && AllToil(w') <= AllToil(w) + 54
  {
    hide Legal, Apply, H.Get, C.Inv, C.Tracked, C.Toil, H.WellNamed, Messages, Message, H.HostApply;
    var w' := Apply(w, TickAttempt(Sent));
    SendIs(w);
    var row := w.tick.value.todo[0];
    if w'.sent == w.sent {
    } else if row.entry.Completion? {
      PublishCosts(w, w', row, "audit");
      PublishCosts(w, w', row, "notifications");
    } else {
      SentIndexing(w.sent, row);
    }
  }

  lemma SendIs(w: World)
    requires Legal(w, TickAttempt(Sent))
    ensures w.tick.Some? && w.tick.value.todo != []
    ensures var w' := Apply(w, TickAttempt(Sent)); var row := w.tick.value.todo[0];
            && ((w'.sent == w.sent && w'.host == w.host)
                || (w'.sent == w.sent + [row]
                    && w'.host == if row.entry.Completion? then
                                    H.HostApply(w.host, H.Publish(Message(|Messages(w.sent)|, row)))
                                  else w.host))
            && w'.host.sessions.Keys == w.host.sessions.Keys
  {
    AttemptIs(w, Sent);
    AttemptFrame(Pub(w), Sent);
    hide Apply, Attempt, Messages, Message, Effective;
    assert Apply(w, TickAttempt(Sent)).sent == Pub(Apply(w, TickAttempt(Sent))).sent;
  }

  /** The publisher's other steps reach no consumer. */
  lemma OthersCostNothing(w: World, e: Event)
    requires Legal(w, e) && IsTick(e) && !e.TickAttempt?
    ensures Apply(w, e).host == w.host && Apply(w, e).sent == w.sent
  {
    hide MarkRows, Query;
  }

  // ---------- every schedule ends ----------

  /** A bound on the steps of work left. */
  ghost function Effort(w: World): nat
    requires w.host.sessions.Keys == {"audit", "notifications"}
  {
    55 * Backlog(Pub(w)) + AllToil(w)
  }

  lemma WorkPays(w: World, e: Event)
    requires Inv(w) && Staffed(w) && TodoOk(Pub(w)) && Works(w, e)
    ensures Apply(w, e).host.sessions.Keys == w.host.sessions.Keys && Effort(Apply(w, e)) < Effort(w)
  {
    hide Inv, TodoOk, Apply, C.Toil, Backlog, AllPublished, C.Inv, C.Tracked, C.Works, H.Get, Messages;
    if e.TickAttempt? {
      TickPays(w, e);
      SendCosts(w);
    } else if IsTick(e) {
      TickPays(w, e);
      OthersCostNothing(w, e);
    } else {
      ConsumePays(w, e.consumer, e.event);
    }
  }

  lemma RunFacts(t: seq<World>, events: seq<Event>, k: nat)
    requires IsRun(t, events) && k < |t|
    ensures Inv(t[k]) && Staffed(t[k]) && TodoOk(Pub(t[k]))
  {
    RunKeepsInv(t, events, k);
    RunKeepsTodo(t, events, k);
    InvStaffs(t[k]);
  }

  lemma StaffedKeys(w: World)
    requires Staffed(w)
    ensures w.host.sessions.Keys == {"audit", "notifications"}
  {
  }

  /** Progress: however the steps of work are scheduled, there are no more of them than the effort left. */
  lemma {:induction false} ScheduleIsBounded(t: seq<World>, events: seq<Event>, t': seq<World>, events': seq<Event>,
                                             k: nat)
    requires IsRun(t, events) && Continues(t, events, t', events') && |events| <= k <= |events'|
    ensures t != [] && |t'| == |events'| + 1 && Staffed(Last(t)) && Staffed(t'[k])
    ensures Effort(t'[k]) + (k - |events|) <= Effort(Last(t))
    decreases k
  {
    hide Inv, Staffed, Works, Apply, Legal, Starts, TodoOk, Effort;
    RunFacts(t', events', k);
    RunFacts(t, events, |t| - 1);
    StaffedKeys(t'[k]);
    StaffedKeys(Last(t));
    if k > |events| {
      ScheduleIsBounded(t, events, t', events', k - 1);
      RunFacts(t', events', k - 1);
      WorkPays(t'[k - 1], events'[k - 1]);
    }
  }

  // ---------- where it ends ----------

  /** At consumer a nothing is waiting: every completion has a message that was handled or dead-lettered. */
  ghost predicate Served(w: World, a: string) {
    && a in w.host.sessions
    && var c := H.Get(w.host, a);
       forall r :: r in w.api.store.outbox && r.entry.Completion? ==>
         exists x :: Carries(x, r) && (x in c.history.handled || x in C.DeadLetters(c))
  }

  ghost predicate Settles(w: World) {
    AllPublished(w) && Served(w, "audit") && Served(w, "notifications")
  }

  lemma EmptyIsServed(t: seq<World>, events: seq<Event>, a: string)
    requires IsRun(t, events) && AllPublished(Last(t)) && Consumes(Last(t), a)
    requires C.Custody(H.Get(Last(t).host, a)) == multiset{}
    ensures Served(Last(t), a)
  {
    hide C.Custody, H.Get;
    var w := Last(t);
    var c := H.Get(w.host, a);
    forall r | r in w.api.store.outbox && r.entry.Completion?
      ensures exists x :: Carries(x, r) && (x in c.history.handled || x in C.DeadLetters(c))
    {
      var i :| 0 <= i < |w.api.store.outbox| && w.api.store.outbox[i] == r;
      NoCompletionLost(t, events, |t| - 1, a, i);
      var x :| x in Messages(w.sent) && Carries(x, r) && Kept(c, x);
      if x !in C.DeadLetters(c) {
        var y :| y in c.history.handled && y.id == x.id && y.body == x.body;
        assert Carries(y, r);
      }
    }
  }

  ghost predicate Stuck(w: World) {
    forall e :: !Works(w, e)
  }

  lemma StuckIsEmpty(w: World, a: string)
    requires Stuck(w) && a in w.host.sessions
    ensures C.Custody(H.Get(w.host, a)) == multiset{}
  {
    hide C.Custody, C.Works, H.Get;
    forall e ensures !C.Works(H.Get(w.host, a), e) { assert !Works(w, Consume(a, e)); }
    C.NoWorkIsEmpty(H.Get(w.host, a));
  }

  lemma TickCanWork(w: World) returns (e: Event)
    requires Inv(w) && w.tick.Some?
    ensures Works(w, e)
  {
    hide C.Works, H.Get, H.Runs, FannedOut, RebuildsListed;
    var tick := w.tick.value;
    assert SentFirst(Pub(w));
    e := if tick.todo == [] then TickAbort else if tick.marking then TickMark(Write(Saved), 0) else TickAttempt(Sent);
  }

  lemma StuckIsPublished(w: World)
    requires Inv(w) && Stuck(w)
    ensures AllPublished(w)
  {
    InvParts(w);
    hide Inv, Query, AllPublished, C.Works, H.Get;
    if w.tick.Some? { var e := TickCanWork(w); }
    SortAnswersQuery(w.api.store.outbox);
    assert !Works(w, TickBegin(OrderBy(Earlier, Unpublished(w.api.store.outbox))));
  }

  /** Where no step of work is left, everything is settled. */
  lemma StuckIsSettled(t: seq<World>, events: seq<Event>)
    requires IsRun(t, events) && t != [] && Stuck(Last(t))
    ensures Settles(Last(t))
  {
    var w := Last(t);
    RunKeepsInv(t, events, |t| - 1);
    BothConsume(t, events, |t| - 1, "audit");
    BothConsume(t, events, |t| - 1, "notifications");
    hide IsRun, Inv, Stuck, AllPublished, Served, C.Custody, H.Get, C.Reachable;
    StuckIsPublished(w);
    StuckIsEmpty(w, "audit");
    StuckIsEmpty(w, "notifications");
    EmptyIsServed(t, events, "audit");
    EmptyIsServed(t, events, "notifications");
  }

  // ---------- the theorems ----------

  /** Recovery: whatever faults and crashes a run has been through, however the publisher and the consumers
      go on from there without new faults, in whatever order, they stop within a bound that the state they
      start from sets; and if they stop because nothing is left to do, every outbox row is published and
      every completion has been handled or dead-lettered at both consumers. */
  lemma EveryScheduleSettles(t: seq<World>, events: seq<Event>, t': seq<World>, events': seq<Event>)
    requires IsRun(t, events) && Continues(t, events, t', events')
    ensures t != [] && t' != [] && Staffed(Last(t)) && |events'| - |events| <= Effort(Last(t))
    ensures Stuck(Last(t')) ==> Settles(Last(t'))
  {
    ScheduleIsBounded(t, events, t', events', |events'|);
    hide IsRun, Stuck, Settles, Staffed, Effort, Works;
    assert IsRun(t', events');
    if Stuck(Last(t')) { StuckIsSettled(t', events'); }
  }

  /** Some continuation by work alone settles everything. */
  ghost predicate CanSettle(t: seq<World>, events: seq<Event>) {
    exists t', events' :: Continues(t, events, t', events') && Settles(Last(t'))
  }

  lemma Continue(t: seq<World>, events: seq<Event>, e: Event) returns (t': seq<World>, events': seq<Event>)
    requires IsRun(t, events) && t != [] && Works(Last(t), e)
    ensures Continues(t, events, t', events') && t' == t + [Apply(Last(t), e)] && events' == events + [e]
  {
    hide Legal, Apply, Starts;
    t', events' := Extend(t, events, e);
  }

  lemma ContinuesTransitive(t: seq<World>, events: seq<Event>, t1: seq<World>, events1: seq<Event>, t2: seq<World>,
                            events2: seq<Event>)
    requires Continues(t, events, t1, events1) && Continues(t1, events1, t2, events2)
    ensures Continues(t, events, t2, events2)
  {
    hide Legal, Apply, Starts, Works;
  }

  lemma {:induction false} WorkUntilStuck(t: seq<World>, events: seq<Event>)
    requires IsRun(t, events) && t != [] && Staffed(Last(t))
    ensures CanSettle(t, events)
    decreases Effort(Last(t))
  {
    hide Inv, Staffed, Works, Apply, Settles, Effort, TodoOk, IsRun;
    if e :| Works(Last(t), e) {
      var t1, events1 := Continue(t, events, e);
      RunFacts(t, events, |t| - 1);
      RunFacts(t1, events1, |t1| - 1);
      WorkPays(Last(t), e);
      WorkUntilStuck(t1, events1);
      var t2, events2 :| Continues(t1, events1, t2, events2) && Settles(Last(t2));
      ContinuesTransitive(t, events, t1, events1, t2, events2);
    } else {
      StuckIsSettled(t, events);
      assert Continues(t, events, t, events);
    }
  }

  /** In particular every run can be continued to where everything is settled. */
  lemma EveryRunCanSettle(t: seq<World>, events: seq<Event>)
    requires IsRun(t, events)
    ensures CanSettle(t, events)
  {
    RunFacts(t, events, |t| - 1);
    WorkUntilStuck(t, events);
  }
}
