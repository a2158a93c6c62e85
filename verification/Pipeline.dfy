/** The whole path of a completed work order: endpoints, outbox, publisher, exchange, and the two
    consumers, interleaved in any order with faults and crashes everywhere; and the search index beside it. */
module Pipeline {
  import opened Common
  import opened Domain
  import opened WorkOrderStore
  import opened Outbox
  import Api
  import AT = ApiTheorems
  import C = Consumer
  import H = ConsumerHost
  import S = SearchIndex

  /** A rebuild of one organization's documents in progress: the list it read, and whether the old ones are gone. */
  datatype Rebuilding = Rebuilding(organizationId: int, cleared: bool, todo: seq<SearchDocument>)

  datatype World = World(
    api: Api.Api, index: map<int, SearchDocument>, rebuilds: map<int, Rebuilding>,
    sent: seq<OutboxRow>, tick: Option<Tick>, host: H.Host)

  datatype Event =
    | Endpoint(call: Api.Event)
    | RebuildBegin(client: int, organizationId: Option<int>, actor: Option<int>, documents: seq<SearchDocument>)
    | RebuildDelete(client: int, delete: S.Delete)
    | RebuildIndex(client: int, send: Send)
    | RebuildEnd(client: int)                                // it returns, or its request dies
    | TickBegin(rows: seq<OutboxRow>)
    | TickAttempt(send: Send)
    | TickMark(mark: Mark, now: int)
    | TickAbort
    | Consume(consumer: string, event: C.Event)

  function Pub(w: World): Publisher {
    Publisher(w.api.store.outbox, w.index, w.sent, w.tick)
  }

  function WithPub(w: World, p: Publisher): World {
    w.(api := w.api.(store := w.api.store.(outbox := p.outbox)), index := p.index, sent := p.sent, tick := p.tick)
  }

  /** The message a completion row becomes: its own id is the message id. */
  function Message(tag: nat, row: OutboxRow): C.Copy
    requires row.entry.Completion?
  {
    C.Copy(tag, Decimal(row.id), C.Body.Event(row.entry.event))
  }

  /** Every message ever put on the exchange, in order; its tag is its place among them. */
  function Messages(sent: seq<OutboxRow>): seq<C.Copy>
    decreases |sent|
  {
    if sent == [] then []
    else
      var before, row := Messages(sent[..|sent| - 1]), sent[|sent| - 1];
      before + if row.entry.Completion? then [Message(|before|, row)] else []
  }

  predicate IsTick(e: Event) { e.TickBegin? || e.TickAttempt? || e.TickMark? || e.TickAbort? }

  ghost predicate TickLegal(p: Publisher, e: Event)
    requires IsTick(e)
  {
    match e
    case TickBegin(rows) => p.tick.None? && Query(p.outbox, rows)
    case TickAttempt(_) => p.tick.Some? && p.tick.value.todo != [] && !p.tick.value.marking
    case TickMark(_, _) => p.tick.Some? && p.tick.value.todo != [] && p.tick.value.marking
    case TickAbort => true
  }

  function TickStep(p: Publisher, e: Event): Publisher
    requires IsTick(e) && TickLegal(p, e)
  {
    match e
    case TickBegin(rows) => Begin(p, rows)
    case TickAttempt(o) => Attempt(p, o)
    case TickMark(o, now) => MarkHead(p, o, now)
    case TickAbort => p.(tick := None)
  }

  ghost predicate Legal(w: World, e: Event) {
    match e
    case RebuildBegin(_, org, _, documents) => org.Some? ==> S.Lists(documents, w.api.store.orders, org.value)
    case RebuildDelete(k, _) => k in w.rebuilds && !w.rebuilds[k].cleared
    case RebuildIndex(k, _) => k in w.rebuilds && w.rebuilds[k].cleared && w.rebuilds[k].todo != []
    case _ => IsTick(e) ==> TickLegal(Pub(w), e)
  }

  ghost function Apply(w: World, e: Event): World
    requires Legal(w, e)
  {
    match e
    case Endpoint(ev) => w.(api := Api.Apply(w.api, ev))
    case RebuildBegin(k, org, actor, documents) =>
      if Api.Membership(w.api, Api.Request(org, actor, Api.GetReport)).Some? || !Api.IsAdmin(w.api, actor.value) then w
      else w.(rebuilds := w.rebuilds[k := Rebuilding(org.value, false, documents)])
    case RebuildDelete(k, delete) =>
      var r := w.rebuilds[k];
      w.(index := S.Cleared(w.index, r.organizationId, if delete.Deleted? then {} else delete.survivors),
         rebuilds := if delete.Deleted? then w.rebuilds[k := r.(cleared := true)] else w.rebuilds - {k})
    case RebuildIndex(k, o) =>
      var r := w.rebuilds[k];
      w.(index := if o.SendThrew? then w.index else w.index[r.todo[0].id := r.todo[0]],
         rebuilds := if o.Sent? then w.rebuilds[k := r.(todo := r.todo[1..])] else w.rebuilds - {k})
    case RebuildEnd(k) => w.(rebuilds := w.rebuilds - {k})
    case TickAttempt(o) =>
      var row := w.tick.value.todo[0];
      var w' := WithPub(w, TickStep(Pub(w), e));
      if Effective(row, o) && row.entry.Completion? then
        w'.(host := H.HostApply(w.host, H.Publish(Message(|Messages(w.sent)|, row))))
      else w'
    case Consume(a, ev) => w.(host := H.HostApply(w.host, H.At(a, ev)))
    case _ => WithPub(w, TickStep(Pub(w), e))
  }

  ghost predicate Starts(w: World) {
    && (exists employees, customers :: w.api == Api.Initial(employees, customers))
    && w.index == map[] && w.rebuilds == map[] && w.sent == [] && w.tick.None? && w.host == H.START
  }

  ghost predicate IsRun(t: seq<World>, events: seq<Event>) {
    && |t| == |events| + 1 && Starts(t[0])
    && forall i :: 0 <= i < |events| ==> Legal(t[i], events[i]) && t[i + 1] == Apply(t[i], events[i])
  }

  // ---------- the invariant ----------

  predicate SameRow(r: OutboxRow, s: OutboxRow) { r.id == s.id && r.entry == s.entry }

  ghost predicate Among(r: OutboxRow, rows: seq<OutboxRow>) {
    exists s :: s in rows && SameRow(r, s)
  }

  ghost predicate AllAmong(rows: seq<OutboxRow>, outbox: seq<OutboxRow>) {
    forall r :: r in rows ==> Among(r, outbox)
  }

  ghost predicate PublishedSent(outbox: seq<OutboxRow>, sent: seq<OutboxRow>) {
    forall r :: r in outbox && r.publishedAt.Some? ==> Among(r, sent)
  }

  ghost predicate PendingSent(pending: map<nat, int>, sent: seq<OutboxRow>) {
    forall id :: id in pending ==> exists r :: r in sent && r.id == id
  }

  /** Hand over first, mark second. */
  ghost predicate SentFirst(p: Publisher) {
    && AllAmong(p.sent, p.outbox)
    && PublishedSent(p.outbox, p.sent)
    && (p.tick.Some? ==>
          && AllAmong(p.tick.value.todo, p.outbox)
          && (p.tick.value.marking ==> p.tick.value.todo != [] && Among(p.tick.value.todo[0], p.sent))
          && PendingSent(p.tick.value.pending, p.sent))
  }

  ghost predicate Carries(x: C.Copy, row: OutboxRow) {
    row.entry.Completion? && x.id == Decimal(row.id) && x.body == C.Body.Event(row.entry.event)
  }

  /** Each consumer's queue has been given exactly the messages put on the exchange, once each. */
  ghost predicate FannedOut(w: World) {
    forall a :: a in w.host.sessions ==> w.host.sessions[a].history.arrived == multiset(Messages(w.sent))
  }

  /** What a rebuild has still to add was read from the store: it is genuine, and of its organization. */
  ghost predicate Listed(r: Rebuilding, orders: map<int, WorkOrder>) {
    forall k :: 0 <= k < |r.todo| ==> S.Genuine(r.todo[k], orders) && r.todo[k].organizationId == r.organizationId
  }

  ghost predicate RebuildsListed(w: World) {
    forall k :: k in w.rebuilds ==> Listed(w.rebuilds[k], w.api.store.orders)
  }

  ghost predicate Inv(w: World) {
    && AT.Inv(w.api)
    && RebuildsListed(w)
    && SentFirst(Pub(w))
    && S.Sound(w.index, w.api.store.orders)
    && H.Runs(w.host)
    && w.host.sessions.Keys == {"audit", "notifications"}
    && FannedOut(w)
  }

  // ---------- the publisher's steps ----------

  lemma AmongMarked(r: OutboxRow, outbox: seq<OutboxRow>, marks: map<nat, int>)
    ensures Among(r, MarkRows(outbox, marks)) <==> Among(r, outbox)
  {
    var outbox' := MarkRows(outbox, marks);
    if Among(r, outbox) {
      var i :| 0 <= i < |outbox| && SameRow(r, outbox[i]);
      assert SameRow(r, outbox'[i]) && outbox'[i] in outbox';
    }
    if Among(r, outbox') {
      var i :| 0 <= i < |outbox'| && SameRow(r, outbox'[i]);
      assert SameRow(r, outbox[i]) && outbox[i] in outbox;
    }
  }

  lemma MarksPublishSent(p: Publisher, marks: map<nat, int>)
    requires SentFirst(p) && DistinctIds(p.outbox) && PendingSent(marks, p.sent)
    ensures PublishedSent(MarkRows(p.outbox, marks), p.sent)
  {
  }

  lemma AllAmongMarked(rows: seq<OutboxRow>, outbox: seq<OutboxRow>, marks: map<nat, int>)
    requires AllAmong(rows, outbox)
    ensures AllAmong(rows, MarkRows(outbox, marks))
  {
    forall r | r in rows ensures Among(r, MarkRows(outbox, marks)) { AmongMarked(r, outbox, marks); }
  }

  lemma MarkKeepsSentFirst(p: Publisher, o: Mark, now: int)
    requires SentFirst(p) && p.tick.Some? && p.tick.value.todo != [] && p.tick.value.marking && DistinctIds(p.outbox)
    ensures SentFirst(MarkHead(p, o, now))
  {
    var t := p.tick.value;
    assert t.todo == [t.todo[0]] + t.todo[1..];
    assert AllAmong(t.todo[1..], p.outbox);
    if o.Write? {
      var pending := t.pending[t.todo[0].id := now];
      assert PendingSent(pending, p.sent) by {
        var h :| h in p.sent && SameRow(t.todo[0], h);
      }
      MarksPublishSent(p, pending);
      AllAmongMarked(p.sent, p.outbox, pending);
      AllAmongMarked(t.todo[1..], p.outbox, pending);
      assert PendingSent(map[], p.sent);
    }
  }

  lemma AmongMore(r: OutboxRow, rows: seq<OutboxRow>, more: seq<OutboxRow>)
    requires Among(r, rows) || r in more
    ensures Among(r, rows + more)
  {
    if Among(r, rows) {
      var s :| s in rows && SameRow(r, s);
      assert s in rows + more;
    } else {
      assert r in rows + more && SameRow(r, r);
    }
  }

  lemma AttemptKeepsSentFirst(p: Publisher, o: Send)
    requires SentFirst(p) && p.tick.Some? && p.tick.value.todo != [] && !p.tick.value.marking
    ensures SentFirst(Attempt(p, o))
  {
    var t := p.tick.value;
    assert t.todo == [t.todo[0]] + t.todo[1..];
    assert t.todo[0] in t.todo;
    if Effective(t.todo[0], o) {
      forall r | Among(r, p.sent) || r in [t.todo[0]]
        ensures Among(r, p.sent + [t.todo[0]])
      {
        AmongMore(r, p.sent, [t.todo[0]]);
      }
    }
  }

  // ---------- every event ----------

  lemma InvParts(w: World)
    requires Inv(w)
    ensures DistinctIds(w.api.store.outbox) && SentFirst(Pub(w))
  {
  }

  lemma SoundEvolves(w: World, a: Api.Api)
    requires S.Sound(w.index, w.api.store.orders) && AT.Evolves(w.api, a)
    ensures S.Sound(w.index, a.store.orders)
  {
  }

  lemma ListedEvolve(w: World, a: Api.Api)
    requires RebuildsListed(w) && AT.Evolves(w.api, a)
    ensures RebuildsListed(w.(api := a))
  {
    forall k | k in w.rebuilds ensures Listed(w.rebuilds[k], a.store.orders) {
      assert Listed(w.rebuilds[k], w.api.store.orders);
    }
  }

  lemma EndpointKeepsSentFirst(p: Publisher, rows: seq<OutboxRow>)
    requires SentFirst(p) && p.outbox <= rows
    requires forall i :: |p.outbox| <= i < |rows| ==> rows[i].publishedAt.None?
    ensures SentFirst(p.(outbox := rows))
  {
  }

  lemma EndpointKeepsInv(w: World, e: Api.Event)
    requires Inv(w)
    ensures Inv(Apply(w, Endpoint(e)))
  {
    var a' := Api.Apply(w.api, e);
    AT.ApplyKeepsInv(w.api, e);
    SoundEvolves(w, a');
    ListedEvolve(w, a');
    forall i | |w.api.store.outbox| <= i < |a'.store.outbox| ensures a'.store.outbox[i].publishedAt.None? {
      AT.NewRowsUnpublished(w.api, e, i);
    }
    assert w.api.store.outbox <= a'.store.outbox;
    EndpointKeepsSentFirst(Pub(w), a'.store.outbox);
    assert Pub(Apply(w, Endpoint(e))) == Pub(w).(outbox := a'.store.outbox);
  }

  lemma SentFirstElsewhere(p: Publisher, index: map<int, SearchDocument>)
    requires SentFirst(p)
    ensures SentFirst(p.(index := index))
  {
    hide AllAmong, PublishedSent, PendingSent, Among;
  }

  lemma ListsAreListed(documents: seq<SearchDocument>, orders: map<int, WorkOrder>, organizationId: int)
    requires S.Lists(documents, orders, organizationId)
    ensures Listed(Rebuilding(organizationId, false, documents), orders)
  {
    forall k | 0 <= k < |documents|
      ensures S.Genuine(documents[k], orders) && documents[k].organizationId == organizationId
    {
      assert S.Current(documents[k], orders, organizationId);
    }
  }

  predicate Rebuilds(e: Event) { e.RebuildBegin? || e.RebuildDelete? || e.RebuildIndex? || e.RebuildEnd? }

  lemma RebuildKeepsListed(w: World, e: Event)
    requires RebuildsListed(w) && Rebuilds(e) && Legal(w, e)
    ensures RebuildsListed(Apply(w, e))
  {
    hide S.Lists, S.Genuine, S.Cleared, Api.IsAdmin;
    if e.RebuildBegin? && e.organizationId.Some? {
      ListsAreListed(e.documents, w.api.store.orders, e.organizationId.value);
    }
    var w' := Apply(w, e);
    forall k | k in w'.rebuilds ensures Listed(w'.rebuilds[k], w'.api.store.orders) {
      assert k in w.rebuilds ==> Listed(w.rebuilds[k], w.api.store.orders);
    }
  }

  lemma RebuildKeepsSound(w: World, e: Event)
    requires S.Sound(w.index, w.api.store.orders) && RebuildsListed(w) && Rebuilds(e) && Legal(w, e)
    ensures S.Sound(Apply(w, e).index, w.api.store.orders)
  {
    hide S.Lists, Api.Membership, Api.IsAdmin;
    if e.RebuildIndex? { assert Listed(w.rebuilds[e.client], w.api.store.orders); }
  }

  /** No step of a rebuild breaks the invariant, whatever ticks, commits and other rebuilds fall between its steps. */
  lemma RebuildKeepsInv(w: World, e: Event)
    requires Inv(w) && Rebuilds(e) && Legal(w, e)
    ensures Inv(Apply(w, e))
  {
    hide AT.Inv, S.Sound, H.Runs, S.Lists, S.Cleared, SentFirst, Messages, RebuildsListed, Api.Membership, Api.IsAdmin;
    var w' := Apply(w, e);
    RebuildKeepsListed(w, e);
    RebuildKeepsSound(w, e);
    assert w' == w.(index := w'.index, rebuilds := w'.rebuilds) && Pub(w') == Pub(w).(index := w'.index);
    SentFirstElsewhere(Pub(w), w'.index);
  }

  /** A step of a rebuild leaves the documents of every other organization's orders alone. */
  lemma RebuildTouchesItsOwn(w: World, e: Event, id: int)
    requires Inv(w) && Legal(w, e) && (e.RebuildDelete? || e.RebuildIndex?)
    requires id in w.api.store.orders && w.api.store.orders[id].organizationId != w.rebuilds[e.client].organizationId
    ensures var w' := Apply(w, e);
            (id in w'.index <==> id in w.index) && (id in w.index ==> w'.index[id] == w.index[id])
  {
    hide AT.Inv, H.Runs, SentFirst, Messages;
    assert Listed(w.rebuilds[e.client], w.api.store.orders);
  }

  /** A rebuild's own steps, one after the other. */
  ghost function RunRebuild(w: World, k: int, script: seq<Send>): World
    decreases |script|
  {
    if script == [] || !Legal(w, RebuildIndex(k, script[0])) then w
    else RunRebuild(Apply(w, RebuildIndex(k, script[0])), k, script[1..])
  }

  /** Uninterrupted, the steps after the delete are the re-adding loop. */
  lemma {:induction false} UninterruptedIsReadd(w: World, k: int, script: seq<Send>)
    requires k in w.rebuilds && w.rebuilds[k].cleared && |script| == |w.rebuilds[k].todo|
    ensures RunRebuild(w, k, script).index == S.Readd(w.index, w.rebuilds[k].todo, script).0
    decreases |script|
  {
    if script != [] {
      var w1 := Apply(w, RebuildIndex(k, script[0]));
      if script[0].Sent? { UninterruptedIsReadd(w1, k, script[1..]); }
    }
  }

  lemma TickBeginKeepsInv(w: World, rows: seq<OutboxRow>)
    requires Inv(w) && Legal(w, TickBegin(rows))
    ensures Inv(Apply(w, TickBegin(rows)))
  {
  }

  lemma TickAbortKeepsInv(w: World)
    requires Inv(w)
    ensures Inv(Apply(w, TickAbort))
  {
    hide AT.Inv, S.Sound, H.Runs, Messages, AllAmong, PublishedSent;
  }

  /** Marking rewrites publication times and nothing else. */
  lemma MarkFrame(p: Publisher, o: Mark, now: int)
    requires p.tick.Some? && p.tick.value.todo != []
    ensures var p' := MarkHead(p, o, now);
            AT.SameEntries(p.outbox, p'.outbox) && p'.index == p.index && p'.sent == p.sent
  {
  }

  lemma TickMarkKeepsInv(w: World, o: Mark, now: int)
    requires Inv(w) && Legal(w, TickMark(o, now))
    ensures Inv(Apply(w, TickMark(o, now)))
  {
    hide AT.Inv, S.Sound, H.Runs, SentFirst, MarkHead, AT.SameEntries, DistinctIds, Messages;
    var p' := MarkHead(Pub(w), o, now);
    InvParts(w);
    MarkFrame(Pub(w), o, now);
    MarkKeepsSentFirst(Pub(w), o, now);
    AT.MarkingKeepsInv(w.api, p'.outbox);
    assert Pub(Apply(w, TickMark(o, now))) == p';
  }

  lemma RunsExtend(h: H.Host, e: H.HostEvent)
    requires H.Runs(h)
    ensures H.Runs(H.HostApply(h, e))
  {
    hide H.HostApply;
    var events :| H.HostRun(H.START, events) == h;
    assert (events + [e])[..|events|] == events;
    assert H.HostRun(H.START, events + [e]) == H.HostApply(h, e);
  }

  /** The row at the head of a tick announces a real work order. */
  lemma HeadIsGenuine(w: World)
    requires Inv(w) && w.tick.Some? && w.tick.value.todo != []
    ensures AT.Genuine(w.api, w.tick.value.todo[0].entry)
  {
    var row := w.tick.value.todo[0];
    assert AllAmong(w.tick.value.todo, w.api.store.outbox);
    assert Among(row, w.api.store.outbox);
    var i :| 0 <= i < |w.api.store.outbox| && SameRow(row, w.api.store.outbox[i]);
    assert AT.Genuine(w.api, w.api.store.outbox[i].entry);
  }

  lemma AttemptFrame(p: Publisher, o: Send)
    requires p.tick.Some? && p.tick.value.todo != [] && !p.tick.value.marking
    ensures var p' := Attempt(p, o); var row := p.tick.value.todo[0];
            && p'.outbox == p.outbox
            && p'.sent == (if Effective(row, o) then p.sent + [row] else p.sent)
            && p'.index ==
               if Effective(row, o) && row.entry.Indexing? then p.index[row.entry.document.id := row.entry.document]
               else p.index
  {
  }

  lemma UpsertKeepsSound(w: World, d: SearchDocument)
    requires S.Sound(w.index, w.api.store.orders) && AT.Genuine(w.api, Indexing(d))
    ensures S.Sound(w.index[d.id := d], w.api.store.orders)
  {
  }

  lemma MessagesGrow(sent: seq<OutboxRow>, row: OutboxRow)
    ensures Messages(sent + [row]) ==
            Messages(sent) + if row.entry.Completion? then [Message(|Messages(sent)|, row)] else []
  {
  }

  lemma AttemptKeepsFannedOut(w: World, o: Send)
    requires FannedOut(w) && Legal(w, TickAttempt(o))
    ensures FannedOut(Apply(w, TickAttempt(o)))
  {
    AttemptFrame(Pub(w), o);
    MessagesGrow(w.sent, w.tick.value.todo[0]);
  }

  /** In the whole system an attempt is the publisher's own step, and a publication for a completion. */
  lemma AttemptIs(w: World, o: Send)
    requires Legal(w, TickAttempt(o))
    ensures var w' := Apply(w, TickAttempt(o)); var row := w.tick.value.todo[0];
            && Pub(w') == Attempt(Pub(w), o) && w'.api == w.api && w'.rebuilds == w.rebuilds
            && w'.host == if Effective(row, o) && row.entry.Completion? then
                            H.HostApply(w.host, H.Publish(Message(|Messages(w.sent)|, row)))
                          else w.host
  {
    hide Effective, H.HostApply, Messages, Message;
    AttemptFrame(Pub(w), o);
  }

  lemma PublishingKeepsHost(h: H.Host, x: C.Copy)
    requires H.Runs(h)
    ensures H.Runs(H.HostApply(h, H.Publish(x))) && H.HostApply(h, H.Publish(x)).sessions.Keys == h.sessions.Keys
  {
    RunsExtend(h, H.Publish(x));
  }

  lemma AttemptKeepsSound(w: World, o: Send)
    requires Inv(w) && Legal(w, TickAttempt(o))
    ensures S.Sound(Attempt(Pub(w), o).index, w.api.store.orders)
  {
    hide AT.Inv, S.Sound, H.Runs, FannedOut, SentFirst, RebuildsListed, AT.Genuine;
    var row := w.tick.value.todo[0];
    HeadIsGenuine(w);
    AttemptFrame(Pub(w), o);
    if row.entry.Indexing? { UpsertKeepsSound(w, row.entry.document); }
  }

  lemma TickAttemptKeepsInv(w: World, o: Send)
    requires Inv(w) && Legal(w, TickAttempt(o))
    ensures Inv(Apply(w, TickAttempt(o)))
  {
    hide AT.Inv, S.Sound, H.Runs, SentFirst, FannedOut, Listed, Apply, Attempt, H.HostApply, Messages, Message,
         Effective;
    AttemptIs(w, o);
    AttemptKeepsFannedOut(w, o);
    AttemptKeepsSound(w, o);
    AttemptKeepsSentFirst(Pub(w), o);
    var row := w.tick.value.todo[0];
    if row.entry.Completion? { PublishingKeepsHost(w.host, Message(|Messages(w.sent)|, row)); }
  }

  lemma OnlyArrivalsArrive(c: C.Consumer, e: C.Event)
    requires !e.Arrive?
    ensures C.Apply(c, e).history.arrived == c.history.arrived
  {
  }

  lemma ConsumingKeepsArrivals(h: H.Host, a: string, e: C.Event)
    ensures var h' := H.HostApply(h, H.At(a, e));
            h'.sessions.Keys == h.sessions.Keys
            && forall b :: b in h.sessions ==> h'.sessions[b].history.arrived == h.sessions[b].history.arrived
  {
    hide C.Apply, H.PutQueues, H.Queue;
    if a in h.sessions && !e.Arrive? { OnlyArrivalsArrive(H.Get(h, a), e); }
  }

  lemma ConsumeIs(w: World, a: string, e: C.Event)
    ensures var w' := Apply(w, Consume(a, e));
            w' == w.(host := H.HostApply(w.host, H.At(a, e))) && Pub(w') == Pub(w)
  {
    hide H.HostApply, C.Apply;
  }

  lemma ConsumeKeepsInv(w: World, a: string, e: C.Event)
    requires Inv(w)
    ensures Inv(Apply(w, Consume(a, e)))
  {
    hide AT.Inv, S.Sound, H.Runs, SentFirst, Messages, H.HostApply, Apply, Listed;
    RunsExtend(w.host, H.At(a, e));
    ConsumingKeepsArrivals(w.host, a, e);
    ConsumeIs(w, a, e);
  }

  lemma ApplyKeepsInv(w: World, e: Event)
    requires Inv(w) && Legal(w, e)
    ensures Inv(Apply(w, e))
  {
    hide Inv;
    match e
    case Endpoint(call) => EndpointKeepsInv(w, call);
    case TickBegin(rows) => TickBeginKeepsInv(w, rows);
    case TickAttempt(o) => TickAttemptKeepsInv(w, o);
    case TickMark(o, now) => TickMarkKeepsInv(w, o, now);
    case TickAbort => TickAbortKeepsInv(w);
    case Consume(a, ev) => ConsumeKeepsInv(w, a, ev);
    case _ => RebuildKeepsInv(w, e);
  }

  lemma StartInv(w: World)
    requires Starts(w)
    ensures Inv(w)
  {
    var employees, customers :| w.api == Api.Initial(employees, customers);
    assert H.HostRun(H.START, []) == H.START;
    assert multiset(Messages([])) == multiset{};
  }

  lemma {:induction false} RunKeepsInv(t: seq<World>, events: seq<Event>, k: nat)
    requires IsRun(t, events) && k < |t|
    ensures Inv(t[k])
  {
    hide Inv, Apply, Legal, Starts;
    if k == 0 {
      StartInv(t[0]);
    } else {
      RunKeepsInv(t, events, k - 1);
      ApplyKeepsInv(t[k - 1], events[k - 1]);
    }
  }

  ghost function Last(t: seq<World>): World
    requires t != []
  {
    t[|t| - 1]
  }

  lemma Extend(t: seq<World>, events: seq<Event>, e: Event) returns (t': seq<World>, events': seq<Event>)
    requires IsRun(t, events) && Legal(Last(t), e)
    ensures IsRun(t', events') && t' == t + [Apply(Last(t), e)] && events' == events + [e]
  {
    hide Legal, Apply, Starts;
    t', events' := t + [Apply(Last(t), e)], events + [e];
  }

  // ---------- theorems over whole runs ----------

  lemma {:induction false} MessageOf(sent: seq<OutboxRow>, row: OutboxRow) returns (x: C.Copy)
    requires row in sent && row.entry.Completion?
    ensures x in Messages(sent) && Carries(x, row)
    decreases |sent|
  {
    var init := sent[..|sent| - 1];
    if row == sent[|sent| - 1] {
      x := Message(|Messages(init)|, row);
    } else {
      assert sent == init + [sent[|sent| - 1]];
      x := MessageOf(init, row);
    }
  }

  lemma {:induction false} MessageFrom(sent: seq<OutboxRow>, x: C.Copy) returns (row: OutboxRow)
    requires x in Messages(sent)
    ensures row in sent && Carries(x, row)
    decreases |sent|
  {
    var init := sent[..|sent| - 1];
    if x in Messages(init) {
      row := MessageFrom(init, x);
    } else {
      row := sent[|sent| - 1];
    }
  }

  /** One consumer of the pair, in a world of the run. */
  ghost predicate Consumes(w: World, a: string) {
    a in {"audit", "notifications"} && a in w.host.sessions
  }

  lemma BothConsume(t: seq<World>, events: seq<Event>, k: nat, a: string)
    requires IsRun(t, events) && k < |t| && a in {"audit", "notifications"}
    ensures Consumes(t[k], a) && C.Reachable(H.Get(t[k].host, a))
    ensures H.Get(t[k].host, a).history.arrived == multiset(Messages(t[k].sent))
  {
    RunKeepsInv(t, events, k);
    H.EachReachable(t[k].host, a);
  }

  /** The outbox row a message came from. */
  lemma Origin(t: seq<World>, events: seq<Event>, k: nat, x: C.Copy) returns (i: nat)
    requires IsRun(t, events) && k < |t| && x in Messages(t[k].sent)
    ensures i < |t[k].api.store.outbox| && Carries(x, t[k].api.store.outbox[i])
  {
    var w := t[k];
    RunKeepsInv(t, events, k);
    InvParts(w);
    var row := MessageFrom(w.sent, x);
    assert Among(row, w.api.store.outbox);
    i :| 0 <= i < |w.api.store.outbox| && SameRow(row, w.api.store.outbox[i]);
  }

  lemma SameMessageId(outbox: seq<OutboxRow>, i: nat, j: nat)
    requires DistinctIds(outbox) && i < |outbox| && j < |outbox| && Decimal(outbox[i].id) == Decimal(outbox[j].id)
    ensures i == j
  {
    DecimalInjective(outbox[i].id, outbox[j].id);
  }

  /** Provenance: whatever reaches a handler carries an outbox row announcing a work order that was
      completed, under its present id, organization, customer and title; its message id is not empty,
      and no other row's message shares it. */
  lemma HandledEventsAreTrue(t: seq<World>, events: seq<Event>, k: nat, a: string, x: C.Copy)
    requires IsRun(t, events) && k < |t| && Consumes(t[k], a)
    requires x in H.Get(t[k].host, a).history.arrived
    ensures x.id != "" && x.body.Event? && AT.Genuine(t[k].api, Completion(x.body.event))
    ensures forall y :: y in H.Get(t[k].host, a).history.arrived && y.id == x.id ==> y.body == x.body
  {
    BothConsume(t, events, k, a);
    var i := Origin(t, events, k, x);
    RunKeepsInv(t, events, k);
    InvParts(t[k]);
    assert AT.Genuine(t[k].api, t[k].api.store.outbox[i].entry);
    forall y | y in H.Get(t[k].host, a).history.arrived && y.id == x.id ensures y.body == x.body {
      var j := Origin(t, events, k, y);
      SameMessageId(t[k].api.store.outbox, i, j);
    }
  }

  /** Where a message can be: with the broker, in the dead-letter queue, or handled (itself, or another
      copy with the same id and body). */
  ghost predicate Kept(c: C.Consumer, x: C.Copy) {
    x in C.Custody(c) || x in C.DeadLetters(c) || exists y :: y in c.history.handled && y.id == x.id && y.body == x.body
  }

  /** Every message put on the exchange is kept, at each consumer. */
  lemma MessageIsKept(t: seq<World>, events: seq<Event>, k: nat, a: string, x: C.Copy)
    requires IsRun(t, events) && k < |t| && Consumes(t[k], a) && x in Messages(t[k].sent)
    ensures Kept(H.Get(t[k].host, a), x)
  {
    var c := H.Get(t[k].host, a);
    BothConsume(t, events, k, a);
    C.NoSilentLoss(c);
    assert x in c.history.arrived;
    HandledEventsAreTrue(t, events, k, a, x);
    if x !in C.Custody(c) && x !in C.DeadLetters(c) {
      assert C.Accounted(c, x);
    }
  }

  /** No completion is lost: with faults at every await, crashes and lost connections anywhere, and
      publisher ticks cut short anywhere, each committed completion row is still unpublished, or each
      consumer's message for it is with the broker, was handled, or is in that consumer's dead-letter queue. */
  lemma NoCompletionLost(t: seq<World>, events: seq<Event>, k: nat, a: string, i: nat)
    requires IsRun(t, events) && k < |t| && Consumes(t[k], a)
    requires i < |t[k].api.store.outbox| && t[k].api.store.outbox[i].entry.Completion?
    ensures || t[k].api.store.outbox[i].publishedAt.None?
            || exists x ::
                 x in Messages(t[k].sent) && Carries(x, t[k].api.store.outbox[i]) && Kept(H.Get(t[k].host, a), x)
  {
    var w, row := t[k], t[k].api.store.outbox[i];
    MarkedMeansSent(t, events, k, i);
    if row.publishedAt.Some? {
      var s :| s in w.sent && SameRow(row, s);
      var x := MessageOf(w.sent, s);
      MessageIsKept(t, events, k, a, x);
      assert Carries(x, row);
    }
  }

  /** Marked means sent, in every state of every run. */
  lemma MarkedMeansSent(t: seq<World>, events: seq<Event>, k: nat, i: nat)
    requires IsRun(t, events) && k < |t| && i < |t[k].api.store.outbox|
    ensures t[k].api.store.outbox[i].publishedAt.Some? ==> Among(t[k].api.store.outbox[i], t[k].sent)
  {
    RunKeepsInv(t, events, k);
  }

  /** Per completion row and consumer, however often it is published and redelivered: successful handler
      runs are at most one plus the faults between a handler's return and its inbox row. */
  lemma CompletionHandledOnce(t: seq<World>, events: seq<Event>, k: nat, a: string, i: nat)
    requires IsRun(t, events) && k < |t| && Consumes(t[k], a)
    requires i < |t[k].api.store.outbox| && t[k].api.store.outbox[i].entry.Completion?
    ensures var c := H.Get(t[k].host, a); var id := Decimal(t[k].api.store.outbox[i].id);
            && c.history.handledIds[id] <= 1 + c.history.lostMarks[id]
            && c.history.requeued[id] <= 2
  {
    BothConsume(t, events, k, a);
    var c, id := H.Get(t[k].host, a), Decimal(t[k].api.store.outbox[i].id);
    C.BoundedDuplication(c, id);
    C.RequeuedAtMostTwice(c, id);
    C.ReachableInv(c);
  }

  /** The publisher's marks never disturb the ledger: in every state of the whole system each committed
      completion of a work order has its own completion row. */
  lemma LedgerInEveryState(t: seq<World>, events: seq<Event>, k: nat, id: int)
    requires IsRun(t, events) && k < |t| && id in t[k].api.store.orders
    ensures AT.Balanced(t[k].api, id)
    ensures AT.RowTally(t[k].api.store.outbox, id, true) == t[k].api.log[Api.Fact(id, Api.Completing)]
  {
    RunKeepsInv(t, events, k);
  }

  /** The search index is sound in every state of every run. */
  lemma IndexIsSound(t: seq<World>, events: seq<Event>, k: nat)
    requires IsRun(t, events) && k < |t|
    ensures S.Sound(t[k].index, t[k].api.store.orders)
  {
    RunKeepsInv(t, events, k);
  }
}
