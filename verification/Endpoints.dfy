/** Who may do what, and what then becomes of an order: said of roles, organizations, assignees and statuses
    directly, for every request in every state, and for every change in every run. */
module Endpoints {
  import opened Common
  import opened Domain
  import opened WorkOrderStore
  import opened Api
  import AT = ApiTheorems

  // ---------- who is asking ----------

  /** Both headers are there and name an employee. */
  predicate Known(a: Api, r: Request) {
    r.organizationId.Some? && r.actor.Some? && r.actor.value in a.employees
  }

  predicate Member(a: Api, r: Request) {
    Known(a, r) && a.employees[r.actor.value].organizationId == r.organizationId.value
  }

  predicate AdminAsks(a: Api, r: Request) {
    Member(a, r) && a.employees[r.actor.value].role == Role.Admin
  }

  predicate CustomerAsks(a: Api, r: Request) {
    && r.organizationId.Some? && r.actor.Some?
    && r.actor.value in a.customers && a.customers[r.actor.value] == r.organizationId.value
  }

  /** The order exists and belongs to the organization the request names. */
  predicate Named(a: Api, r: Request, id: int) {
    r.organizationId.Some? && id in a.store.orders && a.store.orders[id].organizationId == r.organizationId.value
  }

  predicate AssigneeAsks(a: Api, r: Request, id: int) {
    Member(a, r) && Named(a, r, id) && a.store.orders[id].assignedEmployeeId == Some(r.actor.value)
  }

  predicate Colleague(a: Api, r: Request, employeeId: int) {
    && r.organizationId.Some?
    && employeeId in a.employees && a.employees[employeeId].organizationId == r.organizationId.value
  }

  /** Let through. */
  predicate Permits(a: Api, r: Request) {
    match r.action
    case GetReport => Member(a, r)
    case Create(_, c) =>
      Member(a, r) && (c.Some? ==> c.value in a.customers && a.customers[c.value] == r.organizationId.value)
    case Assign(id, e) =>
      AdminAsks(a, r) && Named(a, r, id) && Colleague(a, r, e) && a.store.orders[id].status == Status.Open
    case Reassign(id, e) =>
      && Named(a, r, id) && (AdminAsks(a, r) || AssigneeAsks(a, r, id)) && Colleague(a, r, e)
      && a.store.orders[id].status in {Status.Assigned, Status.InProgress}
      && a.store.orders[id].assignedEmployeeId != Some(e)
    case Unassign(id) => Named(a, r, id) && (AdminAsks(a, r) || AssigneeAsks(a, r, id))
    case Reopen(id) => AdminAsks(a, r) && Named(a, r, id)
    case Start(id) => AssigneeAsks(a, r, id)
    case Complete(id) => AssigneeAsks(a, r, id)
    case AddEvidence(id, _) => AssigneeAsks(a, r, id)
    case Approve(id) =>
      CustomerAsks(a, r) && Named(a, r, id) && a.store.orders[id].customerId == Some(r.actor.value)
  }

  /** Refused as somebody who may not; every other refusal is of a request that makes no sense. */
  predicate Forbids(a: Api, r: Request) {
    match r.action
    case GetReport => Known(a, r) && !Member(a, r)
    case Create(_, _) => Known(a, r) && !Member(a, r)
    case Assign(_, _) => Known(a, r) && !AdminAsks(a, r)
    case Reassign(id, _) =>
      Known(a, r) && (!Member(a, r) || (Named(a, r, id) && !AdminAsks(a, r) && !AssigneeAsks(a, r, id)))
    case Unassign(id) =>
      Known(a, r) && (!Member(a, r) || (Named(a, r, id) && !AdminAsks(a, r) && !AssigneeAsks(a, r, id)))
    case Reopen(id) => Known(a, r) && (!Member(a, r) || (Named(a, r, id) && !AdminAsks(a, r)))
    case Start(id) => Known(a, r) && (!Member(a, r) || (Named(a, r, id) && !AssigneeAsks(a, r, id)))
    case Complete(id) => Known(a, r) && (!Member(a, r) || (Named(a, r, id) && !AssigneeAsks(a, r, id)))
    case AddEvidence(id, _) => Known(a, r) && (!Member(a, r) || (Named(a, r, id) && !AssigneeAsks(a, r, id)))
    case Approve(id) =>
      CustomerAsks(a, r) && Named(a, r, id) && a.store.orders[id].customerId != Some(r.actor.value)
  }

  lemma ChecksDecide(a: Api, r: Request)
    ensures Authorize(a, r) == if Permits(a, r) then None else if Forbids(a, r) then Some(Forbidden)
            else Some(BadRequest)
  {
  }

  // ---------- what is asked for ----------

  /** The change a request asks of the directory; a completion announces the order as it stands. */
  function Asked(a: Api, r: Request, now: int): Mutation
    requires Permits(a, r) && !r.action.Create? && !r.action.GetReport?
  {
    match r.action
    case Assign(_, e) => Mutation.Assign(e)
    case Reassign(_, e) => Mutation.Reassign(e)
    case Unassign(_) => Mutation.Unassign
    case Reopen(_) => Mutation.Reopen
    case Start(_) => Mutation.Start
    case Complete(id) =>
      var w := a.store.orders[id];
      Mutation.Complete([Completion(CompletedEvent(id, w.organizationId, w.customerId, w.title, now)),
                         Indexing(SearchDocument(id, w.organizationId, w.title, Status.Completed))])
    case AddEvidence(_, note) => Mutation.AddEvidence(note)
    case Approve(_) => Mutation.Approve
  }

  function Requested(r: Request): WorkOrder
    requires r.action.Create? && r.organizationId.Some?
  {
    WorkOrder(r.action.title, r.organizationId.value, Status.Open, None, [], r.action.customerId, false)
  }

  /** The lifecycle: the statuses each change is for, and the order after it, field by field. */
  predicate Moves(w: WorkOrder, m: Mutation, w': WorkOrder) {
    match m
    case Assign(e) =>
      && w.status == Status.Open
      && w' == WorkOrder(w.title, w.organizationId, Status.Assigned, Some(e), w.evidenceNotes, w.customerId,
                         w.customerApproved)
    case Start =>
      && w.status == Status.Assigned
      && w' == WorkOrder(w.title, w.organizationId, Status.InProgress, w.assignedEmployeeId, w.evidenceNotes,
                         w.customerId, w.customerApproved)
    case Complete(_) =>
      && w.status == Status.InProgress
      && w' == WorkOrder(w.title, w.organizationId, Status.Completed, w.assignedEmployeeId, w.evidenceNotes,
                         w.customerId, w.customerApproved)
    case Reassign(e) =>
      && w.status in {Status.Assigned, Status.InProgress}
      && w' == WorkOrder(w.title, w.organizationId, w.status, Some(e), w.evidenceNotes, w.customerId,
                         w.customerApproved)
    case Unassign =>
      && w.status in {Status.Assigned, Status.InProgress}
      && w' == WorkOrder(w.title, w.organizationId, Status.Open, None, w.evidenceNotes, w.customerId,
                         w.customerApproved)
    case Reopen =>
      && w.status == Status.Completed
      && w' == WorkOrder(w.title, w.organizationId, Status.InProgress, w.assignedEmployeeId, w.evidenceNotes,
                         w.customerId, w.customerApproved)
    case AddEvidence(note) =>
      && w.status in {Status.Assigned, Status.InProgress, Status.Completed}
      && w' == WorkOrder(w.title, w.organizationId, w.status, w.assignedEmployeeId, w.evidenceNotes + [note],
                         w.customerId, w.customerApproved)
    case Approve =>
      && w.status == Status.Completed
      && w' == WorkOrder(w.title, w.organizationId, w.status, w.assignedEmployeeId, w.evidenceNotes, w.customerId, true)
  }

  /** The entries as rows: consecutive new ids, in order, unpublished. */
  ghost predicate Appended(s: Store, s': Store, entries: seq<Entry>, now: int) {
    && |s'.outbox| == |s.outbox| + |entries| && s'.nextRow == s.nextRow + |entries|
    && (forall i :: 0 <= i < |s.outbox| ==> s'.outbox[i] == s.outbox[i])
    && (forall i :: 0 <= i < |entries| ==>
          s'.outbox[|s.outbox| + i] == OutboxRow(s.nextRow + i, entries[i], now, None))
  }

  /** The change is in the database: the one order moved, and exactly a completion's entries announced. */
  ghost predicate Changed(s: Store, s': Store, id: int, m: Mutation, now: int) {
    && id in s.orders && id in s'.orders && Moves(s.orders[id], m, s'.orders[id])
    && s'.orders == s.orders[id := s'.orders[id]] && s'.nextOrder == s.nextOrder
    && Appended(s, s', if m.Complete? then m.entries else [], now)
  }

  /** Nothing is in the database; identity values may be used up. */
  predicate Unchanged(s: Store, s': Store) { s'.orders == s.orders && s'.outbox == s.outbox }

  lemma ChangeHappens(s: Store, id: int, m: Mutation, now: int, save: Save)
    ensures var (s', reply) := TryMutate(s, id, m, now, save);
            && (reply.Null? <==> id !in s.orders || forall w' :: !Moves(s.orders[id], m, w'))
            && (reply.Null? ==> s' == s)
            && (!reply.Null? ==> if save.SaveThrew? then Unchanged(s, s') else Changed(s, s', id, m, now))
            && (!reply.Null? ==> if save.Saved? then reply == Found(id, s'.orders[id]) else reply.Raised?)
  {
    if id in s.orders {
      if Possible(s, id, m) {
        assert Moves(s.orders[id], m, Applied(s.orders[id], m));
      }
    }
  }

  // ---------- every endpoint ----------

  /** These change a status, and so drop the cached report. */
  predicate Drops(m: Mutation) {
    match m
    case Assign(_) => true
    case Unassign => true
    case Reopen => true
    case Start => true
    case Complete(_) => true
    case Reassign(_) => false
    case AddEvidence(_) => false
    case Approve => false
  }

  predicate Dropped(cache: map<int, CacheEntry>, cache': map<int, CacheEntry>, organizationId: int, deleted: bool) {
    cache' == if deleted then cache - {organizationId} else cache
  }

  lemma CarryDecides(a: Api, org: int, id: int, m: Mutation, env: Env)
    ensures var (a', r) := Carry(a, org, id, m, env);
            && a'.employees == a.employees && a'.customers == a.customers && a'.sessions == a.sessions
            && (r.Refused? <==> id !in a.store.orders || forall w' :: !Moves(a.store.orders[id], m, w'))
            && (r.Refused? ==> a' == a && r.error == BadRequest)
            && (!r.Refused? ==> if env.save.SaveThrew? then Unchanged(a.store, a'.store)
                                else Changed(a.store, a'.store, id, m, env.now))
            && (!r.Refused? ==> r == if env.save.Saved? then Ok(a'.store.orders[id]) else Failed)
            && (if r.Ok? && Drops(m) then Dropped(a.cache, a'.cache, org, env.cacheDelete) else a'.cache == a.cache)
  {
    hide TryMutate, Moves, Changed;
    ChangeHappens(a.store, id, m, env.now, env.save);
  }

  /** Every mutating endpoint, in every state: whom it forbids, what it refuses as senseless, when it fails, and
      what a success answers, changes, announces and drops. */
  lemma MutationTable(a: Api, r: Request, env: Env)
    requires !r.action.Create? && !r.action.GetReport?
    ensures var (a', response) := Respond(a, r, env);
            && (response == Refused(Forbidden) <==> Forbids(a, r))
            && (response.Refused? ==> a' == a)
            && (!response.Refused? <==>
                  && Permits(a, r)
                  && r.action.id in a.store.orders
                  && exists w' :: Moves(a.store.orders[r.action.id], Asked(a, r, env.now), w'))
            && (!response.Refused? && env.save.SaveThrew? ==> response.Failed? && Unchanged(a.store, a'.store))
            && (!response.Refused? && !env.save.SaveThrew? ==>
                  Changed(a.store, a'.store, r.action.id, Asked(a, r, env.now), env.now))
            && (response.Ok? <==> !response.Refused? && env.save.Saved?)
            && (response.Ok? ==> response.order == a'.store.orders[r.action.id])
            && (if response.Ok? && Drops(Asked(a, r, env.now))
                then Dropped(a.cache, a'.cache, r.organizationId.value, env.cacheDelete) else a'.cache == a.cache)
  {
    hide Carry, Moves, Changed, Drops, Permits, Forbids, Authorize, MutationOf, Asked, Named;
    ChecksDecide(a, r);
    if Permits(a, r) {
      AskedIsMutation(a, r, env.now);
      PermittedExists(a, r);
      CarryDecides(a, r.organizationId.value, r.action.id, Asked(a, r, env.now), env);
    }
  }

  lemma AskedIsMutation(a: Api, r: Request, now: int)
    requires Permits(a, r) && !r.action.Create? && !r.action.GetReport?
    ensures Authorize(a, r).None? && MutationOf(a, r, now) == Asked(a, r, now)
  {
    ChecksDecide(a, r);
  }

  lemma PermittedExists(a: Api, r: Request)
    requires Permits(a, r) && !r.action.Create? && !r.action.GetReport?
    ensures r.organizationId.Some? && r.action.id in a.store.orders && !Forbids(a, r)
    ensures a.store.orders[r.action.id].organizationId == r.organizationId.value
  {
  }

  /** What Create's transaction leaves if it commits: one new order, open and unassigned, under the next id, and
      one row asking for its indexing. */
  ghost predicate Opened(s: Store, s': Store, w: WorkOrder, now: int) {
    && s'.orders == s.orders[s.nextOrder := w] && s'.nextOrder == s.nextOrder + 1
    && Appended(s, s', [Indexing(SearchDocument(s.nextOrder, w.organizationId, w.title, Status.Open))], now)
  }

  lemma CreationHappens(s: Store, w: WorkOrder, now: int, f: CreateSaves)
    ensures var (s', reply) := TryCreate(s, w, CreationEntries(s.nextOrder, w.organizationId, w.title), now, f);
            var commits := f.insert.Saved? && f.outbox.Saved? && (f.commit.Saved? || f.commit.SaveThrewAfterCommit?);
            && (if commits then Opened(s, s', w, now) else Unchanged(s, s'))
            && if commits && f.commit.Saved? then reply == Found(s.nextOrder, w) else reply.Raised?
  {
  }

  lemma CarryCreateDecides(a: Api, w: WorkOrder, env: Env)
    ensures var (a', r) := CarryCreate(a, w, env); var f := env.createSaves;
            var commits := f.insert.Saved? && f.outbox.Saved? && (f.commit.Saved? || f.commit.SaveThrewAfterCommit?);
            && a'.employees == a.employees && a'.customers == a.customers && a'.sessions == a.sessions
            && (if commits then Opened(a.store, a'.store, w, env.now) else Unchanged(a.store, a'.store))
            && r == (if commits && f.commit.Saved? then Ok(w) else Failed)
            && if r.Ok? then Dropped(a.cache, a'.cache, w.organizationId, env.cacheDelete) else a'.cache == a.cache
  {
    hide TryCreate, Opened, CreationEntries, Unchanged;
    CreationHappens(a.store, w, env.now, env.createSaves);
  }

  /** Create, in every state: either the whole of it is committed or nothing is. */
  lemma CreateTable(a: Api, r: Request, env: Env)
    requires r.action.Create?
    ensures var (a', response) := Respond(a, r, env); var f := env.createSaves;
            var commits := f.insert.Saved? && f.outbox.Saved? && (f.commit.Saved? || f.commit.SaveThrewAfterCommit?);
            && (response == Refused(Forbidden) <==> Forbids(a, r))
            && (response.Refused? <==> !Permits(a, r)) && (response.Refused? ==> a' == a)
            && (Permits(a, r) ==>
                  && (if commits then Opened(a.store, a'.store, Requested(r), env.now)
                      else Unchanged(a.store, a'.store))
                  && response == (if commits && f.commit.Saved? then Ok(Requested(r)) else Failed)
                  && if response.Ok? then Dropped(a.cache, a'.cache, r.organizationId.value, env.cacheDelete)
                     else a'.cache == a.cache)
  {
    hide CarryCreate, Opened;
    ChecksDecide(a, r);
    if Permits(a, r) { CarryCreateDecides(a, Requested(r), env); }
  }

  /** The report, in every state: a live entry is served as it is; otherwise the orders are counted, status by
      status, and the counts kept for thirty seconds. */
  lemma ReportTable(a: Api, r: Request, env: Env)
    requires r.action.GetReport?
    ensures var (a', response) := Respond(a, r, env);
            && (response == Refused(Forbidden) <==> Forbids(a, r))
            && (response.Refused? <==> !Permits(a, r)) && (response.Refused? ==> a' == a)
            && (Permits(a, r) ==>
                  var org := r.organizationId.value;
                  var live := org in a.cache && env.now < a.cache[org].expiresAt;
                  && (!env.cacheGet ==> response.Failed? && a' == a)
                  && (env.cacheGet && live ==> response == Reported(a.cache[org].report) && a' == a)
                  && (env.cacheGet && !live ==>
                        && (response.Failed? <==> !env.cacheSet.Saved?)
                        && (!response.Failed? ==>
                              response.Reported? && AT.CountsThese(response.report, a.store.orders, org))
                        && (env.cacheSet.SaveThrew? ==> a' == a)
                        && (!env.cacheSet.SaveThrew? ==>
                              && a' == a.(cache := a'.cache) && org in a'.cache
                              && a'.cache == a.cache[org := a'.cache[org]]
                              && AT.CountsThese(a'.cache[org].report, a.store.orders, org)
                              && a'.cache[org].expiresAt == env.now + 30)))
  {
    hide AT.CountsThese, Recompute;
    ChecksDecide(a, r);
    if Permits(a, r) { AT.RecomputeCounts(a.store.orders, r.organizationId.value); }
  }

  /** The cache warmer asks for the report like anybody who may. */
  lemma WarmingIsReporting(a: Api, r: Request, env: Env)
    requires r.action.GetReport? && Permits(a, r)
    ensures Apply(a, Warm(r.organizationId.value, env)) == Apply(a, Handle(r, env))
  {
    ChecksDecide(a, r);
  }

  // ---------- checks now, directory call later ----------

  function AskedSession(a: Api, r: Request, now: int): Session
    requires Permits(a, r) && !r.action.GetReport?
  {
    if r.action.Create? then Opening(Requested(r))
    else Changing(r.organizationId.value, r.action.id, Asked(a, r, now))
  }

  /** Checks let a request go on exactly if it is permitted then, and remember just what it asked for. */
  lemma CheckTable(a: Api, k: int, r: Request, now: int)
    ensures Apply(a, Check(k, r, now)) ==
            if Permits(a, r) && !r.action.GetReport? then a.(sessions := a.sessions[k := AskedSession(a, r, now)])
               else a
  {
    ChecksDecide(a, r);
    if Permits(a, r) && Mutates(r.action) { AskedIsMutation(a, r, now); }
  }

  /** The directory call, whatever has happened since: it changes what was asked for if the order's status is
      still one the change is for, and nothing otherwise. */
  lemma ActTable(a: Api, k: int, env: Env)
    requires k in a.sessions && a.sessions[k].Changing?
    ensures var b := Apply(a, Act(k, env)); var s := a.sessions[k];
            var possible := s.id in a.store.orders && exists w' :: Moves(a.store.orders[s.id], s.m, w');
            && b.sessions == a.sessions - {k} && b.employees == a.employees && b.customers == a.customers
            && (if possible && !env.save.SaveThrew? then Changed(a.store, b.store, s.id, s.m, env.now)
                else Unchanged(a.store, b.store))
            && (if (possible && env.save.Saved? && Drops(s.m)) || (!possible && s.m.Assign?)
                then Dropped(a.cache, b.cache, s.organizationId, env.cacheDelete) else b.cache == a.cache)
  {
    hide Carry, Moves, Changed, Drops;
    var s := a.sessions[k];
    CarryDecides(a.(sessions := a.sessions - {k}), s.organizationId, s.id, s.m, env);
    ChangeHappens(a.store, s.id, s.m, env.now, env.save);
  }

  lemma ActOpens(a: Api, k: int, env: Env)
    requires k in a.sessions && a.sessions[k].Opening?
    ensures var b := Apply(a, Act(k, env)); var f := env.createSaves;
            && b.sessions == a.sessions - {k}
            && if f.insert.Saved? && f.outbox.Saved? && (f.commit.Saved? || f.commit.SaveThrewAfterCommit?) then
                 Opened(a.store, b.store, a.sessions[k].w, env.now)
               else Unchanged(a.store, b.store)
  {
    hide CarryCreate, Opened;
    CarryCreateDecides(a.(sessions := a.sessions - {k}), a.sessions[k].w, env);
  }

  // ---------- every change in every run ----------

  /** The state before step n. */
  function At(a: Api, events: seq<Event>, n: nat): Api
    requires n <= |events|
  {
    Run(a, events[..n])
  }

  lemma AtNext(a: Api, events: seq<Event>, n: nat)
    requires n < |events|
    ensures At(a, events, n + 1) == Apply(At(a, events, n), events[n])
  {
    hide Apply;
    assert events[..n + 1][..n] == events[..n];
  }

  predicate SamePeople(a: Api, b: Api) {
    b.employees == a.employees && b.customers == a.customers && b.sessions == a.sessions
  }

  lemma RespondFrame(a: Api, r: Request, env: Env)
    ensures SamePeople(a, Respond(a, r, env).0)
  {
    hide MutationOf, Carry, CarryCreate, Recompute, OrderOf, Changed, Opened, Moves, Unchanged, Dropped;
    if Authorize(a, r).None? {
      if r.action.Create? {
        CarryCreateDecides(a, OrderOf(r), env);
      } else if !r.action.GetReport? {
        CarryDecides(a, r.organizationId.value, r.action.id, MutationOf(a, r, env.now), env);
      }
    }
  }

  lemma CarriedFrame(a: Api, s: Session, env: Env)
    ensures SamePeople(a, Carried(a, s, env))
  {
    hide Carry, CarryCreate, Changed, Opened, Moves, Unchanged, Dropped, Possible, DropKey;
    match s
    case Opening(w) => CarryCreateDecides(a, w, env);
    case Changing(org, id, m) => CarryDecides(a, org, id, m, env);
  }

  /** Only a check starts a session, only the directory call ends one, and only hiring adds an employee. */
  lemma PeopleAfter(a: Api, e: Event)
    ensures var b := Apply(a, e);
            && b.customers == a.customers
            && (e.Handle? || e.Warm? ==> SamePeople(a, b))
            && (e.Act? ==> SamePeople(a.(sessions := a.sessions - {e.client}), b) || b == a)
            && (e.Check? ==> b.employees == a.employees)
            && (e.Hire? ==> b.sessions == a.sessions
                            && b.employees == if e.employeeId in a.employees then a.employees
                                              else a.employees[e.employeeId := Employee(e.organizationId, Role.Member)])
  {
    hide Respond, Carried, Authorize, Recompute, SessionOf;
    match e
    case Handle(r, env) => RespondFrame(a, r, env);
    case Act(k, env) => if k in a.sessions { CarriedFrame(a.(sessions := a.sessions - {k}), a.sessions[k], env); }
    case _ =>
  }

  /** An event other than a check starts no session, and none alters one. */
  lemma SessionsOnlyEnd(a: Api, e: Event, k: int)
    requires k in Apply(a, e).sessions && !e.Check?
    ensures k in a.sessions && Apply(a, e).sessions[k] == a.sessions[k]
  {
    hide Apply;
    PeopleAfter(a, e);
  }

  /** A pending request was checked at some step, was permitted then, and is still what it asked for then. */
  lemma {:induction false} SessionsWereChecked(a: Api, events: seq<Event>, n: nat, k: int) returns (i: nat)
    requires a.sessions == map[] && n <= |events| && k in At(a, events, n).sessions
    ensures i < n && events[i].Check? && events[i].client == k && !events[i].request.action.GetReport?
    ensures Permits(At(a, events, i), events[i].request)
    ensures At(a, events, n).sessions[k] == AskedSession(At(a, events, i), events[i].request, events[i].now)
    decreases n
  {
    hide Apply, Permits, AskedSession;
    assert events[..0] == [];
    if n > 0 {
      var before, e := At(a, events, n - 1), events[n - 1];
      AtNext(a, events, n - 1);
      if e.Check? && e.client == k && Permits(before, e.request) && !e.request.action.GetReport? {
        CheckTable(before, k, e.request, e.now);
        i := n - 1;
      } else {
        if e.Check? { CheckTable(before, e.client, e.request, e.now); }
        else { SessionsOnlyEnd(before, e, k); }
        i := SessionsWereChecked(a, events, n - 1, k);
      }
    }
  }

  /** The request behind step n: handled in this step, or checked in step i and carried out now. */
  predicate Behind(events: seq<Event>, n: nat, i: nat, r: Request, now: int)
    requires n < |events|
  {
    || (events[n].Handle? && i == n && r == events[n].request && now == events[n].env.now)
    || (events[n].Act? && i < n && events[i] == Check(events[n].client, r, now))
  }

  lemma ChangedMoves(s: Store, s': Store, id: int, m: Mutation, now: int, other: int)
    requires other in s.orders && other in s'.orders && s'.orders[other] != s.orders[other]
    requires Unchanged(s, s') || Changed(s, s', id, m, now)
    ensures other == id && Moves(s.orders[id], m, s'.orders[id])
  {
  }

  lemma HandledMoves(a: Api, r: Request, env: Env, id: int)
    requires AT.Inv(a) && id in a.store.orders
    requires var b := Apply(a, Handle(r, env)); id in b.store.orders && b.store.orders[id] != a.store.orders[id]
    ensures !r.action.Create? && !r.action.GetReport? && Permits(a, r) && r.action.id == id
    ensures Moves(a.store.orders[id], Asked(a, r, env.now), Apply(a, Handle(r, env)).store.orders[id])
  {
    hide Respond, Moves, Changed, Permits, Forbids, Asked;
    if r.action.GetReport? {
      ReportTable(a, r, env);
    } else if r.action.Create? {
      CreateTable(a, r, env);
      NextIsNew(a);
    } else {
      MutationTable(a, r, env);
      var b := Apply(a, Handle(r, env));
      if !Respond(a, r, env).1.Refused? {
        ChangedMoves(a.store, b.store, r.action.id, Asked(a, r, env.now), env.now, id);
      }
    }
  }

  lemma NextIsNew(a: Api)
    requires AT.Inv(a)
    ensures a.store.nextOrder !in a.store.orders
  {
  }

  lemma ActMoves(a: Api, k: int, env: Env, id: int)
    requires AT.Inv(a) && id in a.store.orders
    requires var b := Apply(a, Act(k, env)); id in b.store.orders && b.store.orders[id] != a.store.orders[id]
    ensures k in a.sessions && a.sessions[k].Changing? && a.sessions[k].id == id
    ensures Moves(a.store.orders[id], a.sessions[k].m, Apply(a, Act(k, env)).store.orders[id])
  {
    hide Carried, Moves, Changed;
    if k in a.sessions {
      var b, s := Apply(a, Act(k, env)), a.sessions[k];
      if s.Opening? {
        ActOpens(a, k, env);
        NextIsNew(a);
      } else {
        ActTable(a, k, env);
        ChangedMoves(a.store, b.store, s.id, s.m, env.now, id);
      }
    }
  }

  lemma OthersMoveNothing(a: Api, e: Event)
    requires !e.Handle? && !e.Act?
    ensures Apply(a, e).store == a.store
  {
    hide Authorize, Recompute, SessionOf;
  }

  /** Some run of the endpoints, from an empty database. */
  ghost predicate IsRun(a: Api) {
    exists employees, customers :: a == Initial(employees, customers)
  }

  lemma RunInv(a: Api, events: seq<Event>, n: nat)
    requires IsRun(a) && n <= |events|
    ensures AT.Inv(At(a, events, n))
  {
    var employees, customers :| a == Initial(employees, customers);
    assert AT.Inv(a);
    AT.RunKeepsInv(a, events[..n]);
  }

  /** Every change of every order in every run: somebody asked for it who was permitted to when it was checked,
      and what becomes of the order, from the status it then has, is just what was asked for. */
  lemma EveryChangeIsPermitted(a: Api, events: seq<Event>, n: nat, id: int) returns (i: nat, r: Request, now: int)
    requires IsRun(a) && n < |events| && id in At(a, events, n).store.orders
    requires id in At(a, events, n + 1).store.orders
             && At(a, events, n + 1).store.orders[id] != At(a, events, n).store.orders[id]
    ensures i <= n && Behind(events, n, i, r, now) && Permits(At(a, events, i), r)
    ensures !r.action.Create? && !r.action.GetReport? && r.action.id == id
    ensures Moves(At(a, events, n).store.orders[id], Asked(At(a, events, i), r, now),
                  At(a, events, n + 1).store.orders[id])
  {
    RunInv(a, events, n);
    AtNext(a, events, n);
    hide At, AT.Inv, Apply, Moves, Permits, Asked;
    var before, e := At(a, events, n), events[n];
    match e
    case Handle(request, env) =>
      HandledMoves(before, request, env, id);
      i, r, now := n, request, env.now;
    case Act(k, env) =>
      ActMoves(before, k, env, id);
      StartsIdle(a);
      i := SessionsWereChecked(a, events, n, k);
      r, now := events[i].request, events[i].now;
    case _ =>
      OthersMoveNothing(before, e);
  }

  lemma StartsIdle(a: Api)
    requires IsRun(a)
    ensures a.sessions == map[]
  {
  }

  /** The edges of the lifecycle, and no others. */
  predicate Edge(s: Status, next: Status) {
    (s, next) in {
      (Status.Open, Status.Assigned), (Status.Assigned, Status.InProgress), (Status.InProgress, Status.Completed),
      (Status.Completed, Status.InProgress), (Status.Assigned, Status.Open), (Status.InProgress, Status.Open)}
  }

  /** In every run each step leaves an order's status alone or takes it along an edge; organization, title and
      customer never change. */
  lemma StatusFollowsEdges(a: Api, events: seq<Event>, n: nat, id: int)
    requires IsRun(a) && n < |events| && id in At(a, events, n).store.orders
    ensures id in At(a, events, n + 1).store.orders
    ensures var w, w' := At(a, events, n).store.orders[id], At(a, events, n + 1).store.orders[id];
            && (w.status == w'.status || Edge(w.status, w'.status))
            && w'.organizationId == w.organizationId && w'.title == w.title && w'.customerId == w.customerId
  {
    RunInv(a, events, n);
    AtNext(a, events, n);
    OrderStays(At(a, events, n), events[n], id);
    hide At, AT.Inv, Apply, Permits, Asked, IsRun, Moves, Edge, Behind;
    if At(a, events, n + 1).store.orders[id] != At(a, events, n).store.orders[id] {
      var i, r, now := EveryChangeIsPermitted(a, events, n, id);
      MoveIsEdge(At(a, events, n).store.orders[id], Asked(At(a, events, i), r, now),
                 At(a, events, n + 1).store.orders[id]);
    }
  }

  lemma MoveIsEdge(w: WorkOrder, m: Mutation, w': WorkOrder)
    requires Moves(w, m, w')
    ensures w.status == w'.status || Edge(w.status, w'.status)
    ensures w'.organizationId == w.organizationId && w'.title == w.title && w'.customerId == w.customerId
  {
  }

  lemma OrderStays(a: Api, e: Event, id: int)
    requires AT.Inv(a) && id in a.store.orders
    ensures id in Apply(a, e).store.orders
  {
    hide AT.Inv, Apply;
    AT.ApplyKeepsInv(a, e);
  }

  /** An order comes into being open, unassigned, and as a permitted request described it. */
  lemma EveryOrderWasRequested(a: Api, events: seq<Event>, n: nat, id: int) returns (i: nat, r: Request, now: int)
    requires IsRun(a) && n < |events| && id !in At(a, events, n).store.orders && id in At(a, events, n + 1).store.orders
    ensures i <= n && Behind(events, n, i, r, now) && r.action.Create? && Permits(At(a, events, i), r)
    ensures id == At(a, events, n).store.nextOrder && At(a, events, n + 1).store.orders[id] == Requested(r)
  {
    RunInv(a, events, n);
    AtNext(a, events, n);
    hide At, AT.Inv, Apply, Permits, Requested, Respond, Carried;
    var before, e := At(a, events, n), events[n];
    match e
    case Handle(request, env) =>
      HandledOpens(before, request, env, id);
      i, r, now := n, request, env.now;
    case Act(k, env) =>
      ActOpensOne(before, k, env, id);
      StartsIdle(a);
      i := SessionsWereChecked(a, events, n, k);
      r, now := events[i].request, events[i].now;
    case _ =>
      OthersMoveNothing(before, e);
  }

  lemma HandledOpens(a: Api, r: Request, env: Env, id: int)
    requires id !in a.store.orders && id in Apply(a, Handle(r, env)).store.orders
    ensures r.action.Create? && Permits(a, r) && id == a.store.nextOrder
    ensures Apply(a, Handle(r, env)).store.orders[id] == Requested(r)
  {
    hide Respond, Moves, Permits, Forbids, Asked;
    if r.action.GetReport? {
      ReportTable(a, r, env);
    } else if r.action.Create? {
      CreateTable(a, r, env);
    } else {
      MutationTable(a, r, env);
    }
  }

  lemma ActOpensOne(a: Api, k: int, env: Env, id: int)
    requires id !in a.store.orders && id in Apply(a, Act(k, env)).store.orders
    ensures k in a.sessions && a.sessions[k].Opening? && id == a.store.nextOrder
    ensures Apply(a, Act(k, env)).store.orders[id] == a.sessions[k].w
  {
    hide Carried, Moves;
    if k in a.sessions {
      if a.sessions[k].Opening? { ActOpens(a, k, env); } else { ActTable(a, k, env); }
    }
  }

  /** Nobody becomes an admin: whoever is one in any state of a run was one at its start, in the same organization. */
  lemma {:induction false} AdminsAreFromTheStart(a: Api, events: seq<Event>, n: nat, employeeId: int)
    requires n <= |events| && employeeId in At(a, events, n).employees
    requires At(a, events, n).employees[employeeId].role == Role.Admin
    ensures employeeId in a.employees && a.employees[employeeId] == At(a, events, n).employees[employeeId]
    decreases n
  {
    hide Apply;
    assert events[..0] == [];
    if n > 0 {
      AtNext(a, events, n - 1);
      StaffAfter(At(a, events, n - 1), events[n - 1], employeeId);
      AdminsAreFromTheStart(a, events, n - 1, employeeId);
    }
  }

  lemma StaffAfter(a: Api, e: Event, employeeId: int)
    requires employeeId in Apply(a, e).employees
    ensures || (employeeId in a.employees && Apply(a, e).employees[employeeId] == a.employees[employeeId])
            || (e.Hire? && employeeId == e.employeeId && employeeId !in a.employees
                && Apply(a, e).employees[employeeId] == Employee(e.organizationId, Role.Member))
  {
    hide Apply;
    PeopleAfter(a, e);
  }
}
