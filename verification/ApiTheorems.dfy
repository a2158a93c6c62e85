/** What every run of the endpoints keeps: the ledger, the lifecycle, references, and the announcements. */
module ApiTheorems {
  import opened Domain
  import opened WorkOrderStore
  import opened Api

  // ---------- what one event commits ----------

  datatype Change = Nothing | Mutating(id: int, m: Mutation, now: int) | Creation(w: WorkOrder, now: int)

  /** The entries announce the completion of this work order, under its own fields. */
  predicate Announced(entries: seq<Entry>, id: int, w: WorkOrder) {
    && |entries| == 2 && entries[0].Completion?
    && entries == CompletionEntries(id, w.organizationId, w, entries[0].event.completedAt)
  }

  /** What the checks before a mutation establish for good: nothing that happens later undoes it. */
  ghost predicate Vouched(a: Api, id: int, m: Mutation)
    requires id in a.store.orders
  {
    var w := a.store.orders[id];
    && (m.Assign? ==> m.employeeId in a.employees && a.employees[m.employeeId].organizationId == w.organizationId)
    && (m.Reassign? ==>
          m.newEmployeeId in a.employees && a.employees[m.newEmployeeId].organizationId == w.organizationId)
    && (m.Complete? ==> Announced(m.entries, id, w))
  }

  ghost predicate VouchedOrder(a: Api, w: WorkOrder) {
    && w == NewOrder(w.title, w.organizationId, w.customerId)
    && (w.customerId.Some? ==> w.customerId.value in a.customers && a.customers[w.customerId.value] == w.organizationId)
  }

  ghost predicate Checked(a: Api, c: Change) {
    match c
    case Nothing => true
    case Mutating(id, m, _) => Possible(a.store, id, m) && Vouched(a, id, m)
    case Creation(w, _) => VouchedOrder(a, w)
  }

  function Commit(a: Api, c: Change): Api
    requires c.Mutating? ==> Possible(a.store, c.id, c.m)
  {
    match c
    case Nothing => a
    case Mutating(id, m, now) => a.(store := Mutated(a.store, id, m, now), log := a.log + multiset{Fact(id, KindOf(m))})
    case Creation(w, now) =>
      a.(store := Created(a.store, w, CreationEntries(a.store.nextOrder, w.organizationId, w.title), now),
         log := a.log + multiset{Fact(a.store.nextOrder, Creating)})
  }

  function CarryChange(a: Api, id: int, m: Mutation, env: Env): Change {
    if Possible(a.store, id, m) && !env.save.SaveThrew? then Mutating(id, m, env.now) else Nothing
  }

  function CreateChange(w: WorkOrder, env: Env): Change {
    if Commits(env.createSaves) then Creation(w, env.now) else Nothing
  }

  function ChangeOf(a: Api, e: Event): Change {
    match e
    case Handle(r, env) =>
      if Authorize(a, r).Some? || r.action.GetReport? then Nothing
      else if r.action.Create? then CreateChange(OrderOf(r), env)
      else CarryChange(a, r.action.id, MutationOf(a, r, env.now), env)
    case Act(k, env) =>
      if k !in a.sessions then Nothing
      else if a.sessions[k].Opening? then CreateChange(a.sessions[k].w, env)
      else CarryChange(a, a.sessions[k].id, a.sessions[k].m, env)
    case _ => Nothing
  }

  /** Same rows and facts; identity values may have been used up, employees hired, cache keys moved. */
  ghost predicate SameRecords(a: Api, b: Api) {
    && b.store.orders == a.store.orders && b.store.outbox == a.store.outbox
    && b.store.nextOrder >= a.store.nextOrder && b.store.nextRow >= a.store.nextRow
    && b.log == a.log && b.customers == a.customers
    && (forall id :: id in a.employees ==> id in b.employees && b.employees[id] == a.employees[id])
  }

  lemma AuthorizedIsChecked(a: Api, r: Request, now: int)
    requires Mutates(r.action) && Authorize(a, r).None?
    ensures OwnOrder(a, r.action.id, r.organizationId.value)
    ensures Vouched(a, r.action.id, MutationOf(a, r, now))
  {
  }

  lemma SameRecordsReflexive(a: Api, b: Api)
    requires b == a.(store := a.store.(nextOrder := b.store.nextOrder, nextRow := b.store.nextRow), cache := b.cache)
    requires b.store.nextOrder >= a.store.nextOrder && b.store.nextRow >= a.store.nextRow
    ensures SameRecords(a, b)
  {
  }

  lemma CarryCommits(a: Api, organizationId: int, id: int, m: Mutation, env: Env)
    ensures SameRecords(Commit(a, CarryChange(a, id, m, env)), Carry(a, organizationId, id, m, env).0)
  {
    hide SameRecords, Mutated, Possible, KindOf, Invalidates, DropKey;
    SameRecordsReflexive(Commit(a, CarryChange(a, id, m, env)), Carry(a, organizationId, id, m, env).0);
  }

  lemma CarryCreateCommits(a: Api, w: WorkOrder, env: Env)
    ensures SameRecords(Commit(a, CreateChange(w, env)), CarryCreate(a, w, env).0)
  {
    hide SameRecords, Created, DropKey, CreationEntries;
    SameRecordsReflexive(Commit(a, CreateChange(w, env)), CarryCreate(a, w, env).0);
  }

  /** What a request between its checks and its directory call can still rely on. */
  ghost predicate SessionHolds(a: Api, s: Session) {
    match s
    case Opening(w) => VouchedOrder(a, w)
    case Changing(org, id, m) => id in a.store.orders && a.store.orders[id].organizationId == org && Vouched(a, id, m)
  }

  ghost predicate SessionsHold(a: Api) {
    forall k :: k in a.sessions ==> SessionHolds(a, a.sessions[k])
  }

  lemma HandleChecks(a: Api, r: Request, env: Env)
    ensures Checked(a, ChangeOf(a, Handle(r, env)))
  {
    if Mutates(r.action) && Authorize(a, r).None? { AuthorizedIsChecked(a, r, env.now); }
  }

  lemma HandleCommits(a: Api, r: Request, env: Env)
    ensures SameRecords(Commit(a, ChangeOf(a, Handle(r, env))), Respond(a, r, env).0)
  {
    hide MutationOf, Carry, CarryCreate, CarryChange, CreateChange, Recompute;
    if Authorize(a, r).None? {
      if Mutates(r.action) {
        CarryCommits(a, r.organizationId.value, r.action.id, MutationOf(a, r, env.now), env);
      } else if r.action.Create? {
        CarryCreateCommits(a, OrderOf(r), env);
      }
    }
  }

  lemma ActChecks(a: Api, k: int, env: Env)
    requires SessionsHold(a)
    ensures Checked(a, ChangeOf(a, Act(k, env)))
  {
    hide VouchedOrder, Vouched;
    if k in a.sessions { assert SessionHolds(a, a.sessions[k]); }
  }

  lemma CarriedCommits(a: Api, s: Session, env: Env)
    ensures var c := if s.Opening? then CreateChange(s.w, env) else CarryChange(a, s.id, s.m, env);
            SameRecords(Commit(a, c), Carried(a, s, env))
  {
    hide Carry, CarryCreate, CarryChange, CreateChange, DropKey;
    if s.Opening? { CarryCreateCommits(a, s.w, env); } else { CarryCommits(a, s.organizationId, s.id, s.m, env); }
  }

  lemma ActCommits(a: Api, k: int, env: Env)
    ensures SameRecords(Commit(a, ChangeOf(a, Act(k, env))), Apply(a, Act(k, env)))
  {
    hide Carried, Possible, Mutated, Created, CreationEntries, KindOf;
    if k in a.sessions {
      CarriedCommits(a.(sessions := a.sessions - {k}), a.sessions[k], env);
    }
  }

  /** A refused or uncommitted call adds nothing; a committed one adds exactly its change, and only what
      its checks vouch for. */
  lemma ApplyCommits(a: Api, e: Event)
    requires SessionsHold(a)
    ensures Checked(a, ChangeOf(a, e))
    ensures SameRecords(Commit(a, ChangeOf(a, e)), Apply(a, e))
  {
    hide Authorize, Respond, Carried, Checked, Recompute;
    match e
    case Handle(r, env) =>
      HandleChecks(a, r, env);
      HandleCommits(a, r, env);
    case Act(k, env) =>
      ActChecks(a, k, env);
      ActCommits(a, k, env);
    case _ => NothingChecks(a);
  }

  lemma NothingChecks(a: Api)
    ensures Checked(a, Nothing)
  {
  }

  // ---------- the ledger ----------

  predicate Announces(e: Entry, id: int, completion: bool) {
    if completion then e.Completion? && e.event.workOrderId == id else e.Indexing? && e.document.id == id
  }

  /** How many outbox rows announce the completion, or ask for the indexing, of one work order. */
  function RowTally(rows: seq<OutboxRow>, id: int, completion: bool): nat {
    if rows == [] then 0
    else (if Announces(rows[0].entry, id, completion) then 1 else 0) + RowTally(rows[1..], id, completion)
  }

  lemma {:induction false} RowTallyAppend(s: seq<OutboxRow>, t: seq<OutboxRow>, id: int, completion: bool)
    ensures RowTally(s + t, id, completion) == RowTally(s, id, completion) + RowTally(t, id, completion)
  {
    if s == [] {
      assert s + t == t;
    } else {
      assert (s + t)[1..] == s[1..] + t;
      RowTallyAppend(s[1..], t, id, completion);
    }
  }

  ghost predicate Balanced(a: Api, id: int)
    requires id in a.store.orders
  {
    var w := a.store.orders[id];
    && a.log[Fact(id, Creating)] == 1
    && a.log[Fact(id, Completing)] == a.log[Fact(id, Reopening)] + (if w.status.Completed? then 1 else 0)
    && a.log[Fact(id, Assigning)] == a.log[Fact(id, Unassigning)] + (if w.status.Open? then 0 else 1)
    && (w.status.Open? <==> w.assignedEmployeeId.None?)
    && |w.evidenceNotes| == a.log[Fact(id, Noting)]
    && (w.customerApproved <==> a.log[Fact(id, Approving)] > 0)
    && (w.customerApproved ==> a.log[Fact(id, Completing)] > 0)
    && RowTally(a.store.outbox, id, true) == a.log[Fact(id, Completing)]
    && RowTally(a.store.outbox, id, false) == 1 + a.log[Fact(id, Completing)]
  }

  ghost predicate Unknown(a: Api, id: int) {
    && (forall k: Kind :: a.log[Fact(id, k)] == 0)
    && RowTally(a.store.outbox, id, true) == 0
    && RowTally(a.store.outbox, id, false) == 0
  }

  ghost predicate Ledger(a: Api) {
    forall id :: if id in a.store.orders then Balanced(a, id) else Unknown(a, id)
  }

  /** The rows a change appends, counted. */
  lemma CommitRows(a: Api, c: Change, id: int)
    requires Checked(a, c)
    ensures var mine := (c.Mutating? && c.id == id && c.m.Complete?);
            var born := (c.Creation? && a.store.nextOrder == id);
            var a' := Commit(a, c);
            && RowTally(a'.store.outbox, id, true) == RowTally(a.store.outbox, id, true) + (if mine then 1 else 0)
            && RowTally(a'.store.outbox, id, false) ==
               RowTally(a.store.outbox, id, false) + (if mine || born then 1 else 0)
  {
    if !c.Nothing? {
      var s := a.store;
      var entries :=
        if c.Mutating? then EntriesOf(c.m) else CreationEntries(s.nextOrder, c.w.organizationId, c.w.title);
      var rows := Rows(entries, s.nextRow, c.now);
      assert Commit(a, c).store.outbox == s.outbox + rows;
      RowTallyAppend(s.outbox, rows, id, true);
      RowTallyAppend(s.outbox, rows, id, false);
      if c.Creation? {
        assert rows[1..] == [];
      } else if c.m.Complete? {
        assert rows == [rows[0]] + [rows[1]];
        RowTallyAppend([rows[0]], [rows[1]], id, true);
        RowTallyAppend([rows[0]], [rows[1]], id, false);
      } else {
        assert rows == [];
      }
    }
  }

  lemma CommitKeepsBalance(a: Api, c: Change, id: int)
    requires Checked(a, c) && c.Mutating? && c.id == id && Balanced(a, id)
    ensures Balanced(Commit(a, c), id)
  {
    CommitRows(a, c, id);
  }

  lemma CommitElsewhere(a: Api, c: Change, id: int)
    requires Checked(a, c) && (c.Mutating? ==> c.id != id) && (c.Creation? ==> a.store.nextOrder != id)
    requires if id in a.store.orders then Balanced(a, id) else Unknown(a, id)
    ensures if id in Commit(a, c).store.orders then Balanced(Commit(a, c), id) else Unknown(Commit(a, c), id)
  {
    CommitRows(a, c, id);
  }

  lemma CreationBalances(a: Api, c: Change)
    requires Checked(a, c) && c.Creation? && Unknown(a, a.store.nextOrder)
    ensures Balanced(Commit(a, c), a.store.nextOrder)
  {
    CommitRows(a, c, a.store.nextOrder);
  }

  lemma CommitKeepsLedger(a: Api, c: Change)
    requires Checked(a, c) && Ledger(a) && IdsIncrease(a.store)
    ensures Ledger(Commit(a, c))
  {
    forall id
      ensures if id in Commit(a, c).store.orders then Balanced(Commit(a, c), id) else Unknown(Commit(a, c), id)
    {
      if c.Mutating? && c.id == id { CommitKeepsBalance(a, c, id); }
      else if c.Creation? && a.store.nextOrder == id { CreationBalances(a, c); }
      else { CommitElsewhere(a, c, id); }
    }
  }

  // ---------- announcements and references ----------

  /** An entry tells the truth about a work order that exists. */
  ghost predicate Genuine(a: Api, e: Entry) {
    match e
    case Completion(ev) =>
      && ev.workOrderId in a.store.orders
      && a.log[Fact(ev.workOrderId, Completing)] > 0
      && ev.organizationId == a.store.orders[ev.workOrderId].organizationId
      && ev.customerId == a.store.orders[ev.workOrderId].customerId
      && ev.title == a.store.orders[ev.workOrderId].title
    case Indexing(d) =>
      && d.id in a.store.orders
      && d.organizationId == a.store.orders[d.id].organizationId
      && d.title == a.store.orders[d.id].title
    case Unreadable => false
  }

  ghost predicate RowsGenuine(a: Api) {
    forall i :: 0 <= i < |a.store.outbox| ==> Genuine(a, a.store.outbox[i].entry)
  }

  ghost predicate References(a: Api, w: WorkOrder) {
    && (w.assignedEmployeeId.Some? ==>
          w.assignedEmployeeId.value in a.employees
          && a.employees[w.assignedEmployeeId.value].organizationId == w.organizationId)
    && (w.customerId.Some? ==> w.customerId.value in a.customers && a.customers[w.customerId.value] == w.organizationId)
  }

  ghost predicate ReferencesHold(a: Api) {
    forall id :: id in a.store.orders ==> References(a, a.store.orders[id])
  }

  /** What can never change once it is there. */
  ghost predicate Evolves(a: Api, b: Api) {
    && (forall id :: id in a.store.orders ==>
          && id in b.store.orders
          && b.store.orders[id].organizationId == a.store.orders[id].organizationId
          && b.store.orders[id].customerId == a.store.orders[id].customerId
          && b.store.orders[id].title == a.store.orders[id].title
          && a.store.orders[id].evidenceNotes <= b.store.orders[id].evidenceNotes
          && (a.store.orders[id].customerApproved ==> b.store.orders[id].customerApproved))
    && a.log <= b.log
    && a.store.outbox <= b.store.outbox
    && (forall id :: id in a.employees ==> id in b.employees && b.employees[id] == a.employees[id])
    && b.customers == a.customers
  }

  lemma CommitEvolves(a: Api, c: Change)
    requires Checked(a, c) && IdsIncrease(a.store)
    ensures Evolves(a, Commit(a, c))
  {
    hide Accepts, CompletionEntries;
  }

  lemma EvolvesTransitive(a: Api, b: Api, c: Api)
    requires Evolves(a, b) && Evolves(b, c)
    ensures Evolves(a, c)
  {
  }

  lemma GenuineEvolves(a: Api, b: Api, e: Entry)
    requires Genuine(a, e) && Evolves(a, b)
    ensures Genuine(b, e)
  {
  }

  lemma NewRowsGenuine(a: Api, c: Change, i: nat)
    requires Checked(a, c) && IdsIncrease(a.store) && |a.store.outbox| <= i < |Commit(a, c).store.outbox|
    ensures Genuine(Commit(a, c), Commit(a, c).store.outbox[i].entry)
  {
  }

  lemma CommitKeepsGenuine(a: Api, c: Change)
    requires Checked(a, c) && IdsIncrease(a.store) && RowsGenuine(a)
    ensures RowsGenuine(Commit(a, c))
  {
    var a' := Commit(a, c);
    CommitEvolves(a, c);
    forall i | 0 <= i < |a'.store.outbox| ensures Genuine(a', a'.store.outbox[i].entry) {
      if i < |a.store.outbox| { GenuineEvolves(a, a', a.store.outbox[i].entry); } else { NewRowsGenuine(a, c, i); }
    }
  }

  lemma CommitKeepsReferences(a: Api, c: Change)
    requires Checked(a, c) && ReferencesHold(a)
    ensures ReferencesHold(Commit(a, c))
  {
    hide CompletionEntries, Accepts;
  }

  lemma CommitKeepsIds(a: Api, c: Change)
    requires Checked(a, c) && IdsIncrease(a.store)
    ensures IdsIncrease(Commit(a, c).store)
  {
  }

  // ---------- every run ----------

  ghost predicate RecordsInv(a: Api) {
    IdsIncrease(a.store) && Ledger(a) && RowsGenuine(a) && ReferencesHold(a)
  }

  ghost predicate Inv(a: Api) {
    RecordsInv(a) && SessionsHold(a)
  }

  lemma SameRecordsBalance(a: Api, b: Api, id: int)
    requires SameRecords(a, b)
    requires if id in a.store.orders then Balanced(a, id) else Unknown(a, id)
    ensures if id in b.store.orders then Balanced(b, id) else Unknown(b, id)
  {
    hide RowTally;
  }

  lemma ReferencesKept(a: Api, b: Api, w: WorkOrder)
    requires References(a, w) && SameRecords(a, b)
    ensures References(b, w)
  {
    if w.assignedEmployeeId.Some? {
      var e := w.assignedEmployeeId.value;
      assert e in a.employees;
      assert e in b.employees;
    }
  }

  lemma SameRecordsKeepInv(a: Api, b: Api)
    requires RecordsInv(a) && SameRecords(a, b)
    ensures RecordsInv(b) && Evolves(a, b)
  {
    forall id ensures if id in b.store.orders then Balanced(b, id) else Unknown(b, id) { SameRecordsBalance(a, b, id); }
    assert Evolves(a, b);
    forall i | 0 <= i < |b.store.outbox| ensures Genuine(b, b.store.outbox[i].entry) {
      assert Genuine(a, a.store.outbox[i].entry);
      GenuineEvolves(a, b, a.store.outbox[i].entry);
    }
    forall id | id in b.store.orders ensures References(b, b.store.orders[id]) {
      ReferencesKept(a, b, a.store.orders[id]);
    }
  }

  lemma ApplyKeepsRecords(a: Api, e: Event)
    requires Inv(a)
    ensures RecordsInv(Apply(a, e)) && Evolves(a, Apply(a, e))
  {
    hide Apply, SessionsHold, ChangeOf, Checked;
    var c := ChangeOf(a, e);
    ApplyCommits(a, e);
    assert c.Mutating? ==> Possible(a.store, c.id, c.m) by { CheckedIsPossible(a, c); }
    CommitKeepsIds(a, c);
    CommitKeepsLedger(a, c);
    CommitKeepsGenuine(a, c);
    CommitKeepsReferences(a, c);
    CommitEvolves(a, c);
    SameRecordsKeepInv(Commit(a, c), Apply(a, e));
    EvolvesTransitive(a, Commit(a, c), Apply(a, e));
  }

  lemma CheckedIsPossible(a: Api, c: Change)
    requires Checked(a, c)
    ensures c.Mutating? ==> Possible(a.store, c.id, c.m)
  {
  }

  /** What a check has established stays established. */
  lemma SessionEvolves(a: Api, b: Api, s: Session)
    requires SessionHolds(a, s) && Evolves(a, b)
    ensures SessionHolds(b, s)
  {
  }

  lemma CheckEstablishes(a: Api, r: Request, now: int)
    requires !r.action.GetReport? && Authorize(a, r).None?
    ensures SessionHolds(a, SessionOf(a, r, now))
  {
    if Mutates(r.action) { AuthorizedIsChecked(a, r, now); }
  }

  /** A step adds at most a session that its own checks vouch for. */
  lemma ApplySessions(a: Api, e: Event, k: int)
    requires k in Apply(a, e).sessions
    ensures || (k in a.sessions && Apply(a, e).sessions[k] == a.sessions[k])
            || (e.Check? && !e.request.action.GetReport? && Authorize(a, e.request).None?
                && Apply(a, e).sessions[k] == SessionOf(a, e.request, e.now))
  {
    hide Authorize, SessionOf, TryMutate, TryCreate, Recompute, DropKey, CreationEntries, Possible;
  }

  lemma ApplyKeepsSessions(a: Api, e: Event)
    requires SessionsHold(a) && Evolves(a, Apply(a, e))
    ensures SessionsHold(Apply(a, e))
  {
    hide Apply, Evolves, Authorize, SessionOf, SessionHolds;
    var b := Apply(a, e);
    forall k | k in b.sessions ensures SessionHolds(b, b.sessions[k]) {
      ApplySessions(a, e, k);
      if k in a.sessions && b.sessions[k] == a.sessions[k] {
        assert SessionHolds(a, a.sessions[k]);
      } else {
        CheckEstablishes(a, e.request, e.now);
      }
      SessionEvolves(a, b, b.sessions[k]);
    }
  }

  lemma ApplyKeepsInv(a: Api, e: Event)
    requires Inv(a)
    ensures Inv(Apply(a, e)) && Evolves(a, Apply(a, e))
  {
    hide Apply, Evolves, RecordsInv, SessionsHold;
    ApplyKeepsRecords(a, e);
    ApplyKeepsSessions(a, e);
  }

  lemma {:induction false} RunKeepsInv(a: Api, events: seq<Event>)
    requires Inv(a)
    ensures Inv(Run(a, events)) && Evolves(a, Run(a, events))
    decreases |events|
  {
    hide Inv, Apply, IdsIncrease;
    if events != [] {
      var init := events[..|events| - 1];
      RunKeepsInv(a, init);
      ApplyKeepsInv(Run(a, init), events[|events| - 1]);
      EvolvesTransitive(a, Run(a, init), Run(a, events));
    }
  }

  lemma ReachableInv(a: Api)
    requires Reachable(a)
    ensures Inv(a)
  {
    var employees, customers, events :| Run(Initial(employees, customers), events) == a;
    var a0 := Initial(employees, customers);
    assert Inv(a0);
    RunKeepsInv(a0, events);
  }

  lemma CommittedUnpublished(a: Api, c: Change, i: nat)
    requires c.Mutating? ==> Possible(a.store, c.id, c.m)
    requires |a.store.outbox| <= i < |Commit(a, c).store.outbox|
    ensures Commit(a, c).store.outbox[i].publishedAt.None?
  {
    hide Applied, Possible, CreationEntries;
  }

  /** New rows start unpublished. */
  lemma NewRowsUnpublished(a: Api, e: Event, i: nat)
    requires SessionsHold(a) && |a.store.outbox| <= i < |Apply(a, e).store.outbox|
    ensures Apply(a, e).store.outbox[i].publishedAt.None?
  {
    hide Apply, ChangeOf, Commit, Checked, SessionsHold;
    ApplyCommits(a, e);
    CheckedIsPossible(a, ChangeOf(a, e));
    CommittedUnpublished(a, ChangeOf(a, e), i);
  }

  // ---------- marking published rows ----------

  ghost predicate SameEntries(rows: seq<OutboxRow>, rows': seq<OutboxRow>) {
    |rows'| == |rows| && forall i :: 0 <= i < |rows| ==> rows'[i].id == rows[i].id && rows'[i].entry == rows[i].entry
  }

  lemma {:induction false} TallySame(rows: seq<OutboxRow>, rows': seq<OutboxRow>, id: int, completion: bool)
    requires SameEntries(rows, rows')
    ensures RowTally(rows', id, completion) == RowTally(rows, id, completion)
  {
    if rows != [] { TallySame(rows[1..], rows'[1..], id, completion); }
  }

  lemma MarkingKeepsRecords(a: Api, rows': seq<OutboxRow>)
    requires RecordsInv(a) && SameEntries(a.store.outbox, rows')
    ensures RecordsInv(a.(store := a.store.(outbox := rows')))
  {
    var b := a.(store := a.store.(outbox := rows'));
    forall id ensures if id in b.store.orders then Balanced(b, id) else Unknown(b, id) {
      TallySame(a.store.outbox, rows', id, true);
      TallySame(a.store.outbox, rows', id, false);
      assert if id in a.store.orders then Balanced(a, id) else Unknown(a, id);
    }
    forall i | 0 <= i < |rows'| ensures Genuine(b, rows'[i].entry) { assert Genuine(a, a.store.outbox[i].entry); }
    forall id | id in b.store.orders
      ensures References(b, b.store.orders[id])
    {
      assert References(a, a.store.orders[id]);
    }
  }

  lemma MarkingKeepsInv(a: Api, rows': seq<OutboxRow>)
    requires Inv(a) && SameEntries(a.store.outbox, rows')
    ensures Inv(a.(store := a.store.(outbox := rows')))
  {
    hide RecordsInv, SameEntries;
    var b := a.(store := a.store.(outbox := rows'));
    MarkingKeepsRecords(a, rows');
    forall k | k in b.sessions ensures SessionHolds(b, b.sessions[k]) { assert SessionHolds(a, a.sessions[k]); }
  }

  // ---------- theorems ----------

  /** The ledger of one work order: its status, assignee, notes and approval, and its outbox rows,
      are determined by the calls that were committed for it. */
  lemma WorkOrderLedger(a: Api, id: int)
    requires Reachable(a) && id in a.store.orders
    ensures var w := a.store.orders[id];
            && a.log[Fact(id, Completing)] == a.log[Fact(id, Reopening)] + (if w.status.Completed? then 1 else 0)
            && a.log[Fact(id, Assigning)] == a.log[Fact(id, Unassigning)] + (if w.status.Open? then 0 else 1)
            && RowTally(a.store.outbox, id, true) == a.log[Fact(id, Completing)]
            && RowTally(a.store.outbox, id, false) == 1 + a.log[Fact(id, Completing)]
            && (w.status.Open? <==> w.assignedEmployeeId.None?)
            && |w.evidenceNotes| == a.log[Fact(id, Noting)]
            && (w.customerApproved ==> a.log[Fact(id, Completing)] > 0)
  {
    ReachableInv(a);
    assert Balanced(a, id);
  }

  /** Some run leads from a to b. */
  ghost predicate Later(a: Api, b: Api) {
    exists events :: Run(a, events) == b
  }

  /** Whatever happens later, a work order keeps its identity, its evidence only grows, and an
      approval is never withdrawn; committed rows and facts stay. */
  lemma RecordsEvolve(a: Api, b: Api)
    requires Reachable(a) && Later(a, b)
    ensures Evolves(a, b)
  {
    ReachableInv(a);
    var events :| Run(a, events) == b;
    RunKeepsInv(a, events);
  }

  /** Referential integrity without foreign keys: assignees and customers exist, in the work order's own
      organization. */
  lemma ReferentialIntegrity(a: Api, id: int)
    requires Reachable(a) && id in a.store.orders
    ensures References(a, a.store.orders[id])
  {
    ReachableInv(a);
  }

  /** Every outbox row announces a work order that exists, under its own organization, customer and
      title, and a completion row only one that has been completed. */
  lemma AnnouncementsAreTrue(a: Api, i: nat)
    requires Reachable(a) && i < |a.store.outbox|
    ensures Genuine(a, a.store.outbox[i].entry)
  {
    ReachableInv(a);
  }

  /** After AssignWorkOrder's and ReassignWorkOrder's own checks the directory never answers null. */
  lemma AssignmentNeverNull(a: Api, r: Request, env: Env)
    requires (r.action.Assign? || r.action.Reassign?) && Authorize(a, r).None?
    ensures TryMutate(a.store, r.action.id, MutationOf(a, r, env.now), env.now, env.save).1 != Null
    ensures Respond(a, r, env).1.Ok? <==> env.save.Saved?
  {
  }

  /** With the checks and the call apart, the directory answers null exactly if the order's status no
      longer admits the change: it cannot have disappeared in between. */
  lemma ActAnswersNullIff(a: Api, k: int, env: Env)
    requires Inv(a) && k in a.sessions && a.sessions[k].Changing?
    ensures var s := a.sessions[k];
            && s.id in a.store.orders
            && (TryMutate(a.store, s.id, s.m, env.now, env.save).1.Null? <==>
                  !Accepts(a.store.orders[s.id].status, s.m))
  {
    hide RecordsInv;
    assert SessionHolds(a, a.sessions[k]);
  }

  // ---------- the report cache ----------

  /** A report that counts the organization's orders as these are, status by status. */
  predicate CountsThese(report: Report, orders: map<int, WorkOrder>, org: int) {
    && report.organizationId == org
    && report.openCount ==
       |set id | id in orders && orders[id].organizationId == org && orders[id].status == Status.Open|
    && report.assignedCount ==
       |set id | id in orders && orders[id].organizationId == org && orders[id].status == Status.Assigned|
    && report.inProgressCount ==
       |set id | id in orders && orders[id].organizationId == org && orders[id].status == Status.InProgress|
    && report.completedCount ==
       |set id | id in orders && orders[id].organizationId == org && orders[id].status == Status.Completed|
  }

  lemma RecomputeCounts(orders: map<int, WorkOrder>, org: int)
    ensures CountsThese(Recompute(orders, org), orders, org)
  {
    forall status: Status
      ensures InStatus(orders, org, status) ==
              (set id | id in orders && orders[id].organizationId == org && orders[id].status == status)
    {
    }
  }

  /** The counts add up to the organization's orders: each is counted once. */
  lemma CountsAddUp(orders: map<int, WorkOrder>, org: int)
    ensures var report := Recompute(orders, org);
            report.openCount + report.assignedCount + report.inProgressCount + report.completedCount ==
            |set id | id in orders && orders[id].organizationId == org|
  {
    var s, t := InStatus(orders, org, Status.Open), InStatus(orders, org, Status.Assigned);
    var u, v := InStatus(orders, org, Status.InProgress), InStatus(orders, org, Status.Completed);
    forall id | id in orders && orders[id].organizationId == org ensures id in s + t + u + v {
      assert orders[id].status in {Status.Open, Status.Assigned, Status.InProgress, Status.Completed};
    }
    assert (set id | id in orders && orders[id].organizationId == org) == s + t + u + v;
    Disjoint(s, t);
    Disjoint(s + t, u);
    Disjoint(s + t + u, v);
  }

  lemma Disjoint(s: set<int>, t: set<int>)
    requires s !! t
    ensures |s + t| == |s| + |t|
  {
    assert (s + t) - t == s;
  }

  ghost predicate Coherent(a: Api) {
    forall org :: org in a.cache ==> a.cache[org].report == Recompute(a.store.orders, org)
  }

  /** Redis deletes when told to, and no save commits behind an exception; everything else may fail. */
  predicate Clean(e: Event) {
    e.Handle? || e.Act? ==>
      e.env.cacheDelete && !e.env.save.SaveThrewAfterCommit? && !e.env.createSaves.commit.SaveThrewAfterCommit?
  }

  /** The report of an organization depends on a mutation only if the order is its own and changes status. */
  lemma MutationElsewhere(a: Api, id: int, m: Mutation, now: int, org: int)
    requires Possible(a.store, id, m)
    requires org != a.store.orders[id].organizationId || !Invalidates(m)
    ensures Recompute(Mutated(a.store, id, m, now).orders, org) == Recompute(a.store.orders, org)
  {
    forall st: Status
      ensures InStatus(Mutated(a.store, id, m, now).orders, org, st) == InStatus(a.store.orders, org, st) {}
  }

  lemma CreationElsewhere(a: Api, w: WorkOrder, entries: seq<Entry>, now: int, org: int)
    requires org != w.organizationId && IdsIncrease(a.store)
    ensures Recompute(Created(a.store, w, entries, now).orders, org) == Recompute(a.store.orders, org)
  {
    forall st: Status
      ensures InStatus(Created(a.store, w, entries, now).orders, org, st) == InStatus(a.store.orders, org, st) {}
  }

  lemma CarryKeepsCoherent(a: Api, organizationId: int, id: int, m: Mutation, env: Env)
    requires Coherent(a) && env.cacheDelete && !env.save.SaveThrewAfterCommit?
    requires id in a.store.orders ==> a.store.orders[id].organizationId == organizationId
    ensures Coherent(Carry(a, organizationId, id, m, env).0)
  {
    hide Recompute, Accepts, Applied;
    var a' := Carry(a, organizationId, id, m, env).0;
    forall org | org in a'.cache ensures a'.cache[org].report == Recompute(a'.store.orders, org) {
      assert a.cache[org].report == Recompute(a.store.orders, org);
      if Possible(a.store, id, m) && env.save.Saved? { MutationElsewhere(a, id, m, env.now, org); }
    }
  }

  lemma CarryCreateKeepsCoherent(a: Api, w: WorkOrder, env: Env)
    requires Coherent(a) && env.cacheDelete && !env.createSaves.commit.SaveThrewAfterCommit? && IdsIncrease(a.store)
    ensures Coherent(CarryCreate(a, w, env).0)
  {
    hide Recompute, CreationEntries;
    var a' := CarryCreate(a, w, env).0;
    forall org | org in a'.cache ensures a'.cache[org].report == Recompute(a'.store.orders, org) {
      assert a.cache[org].report == Recompute(a.store.orders, org);
      if Commits(env.createSaves) {
        CreationElsewhere(a, w, CreationEntries(a.store.nextOrder, w.organizationId, w.title), env.now, org);
      }
    }
  }

  lemma HandleKeepsCoherent(a: Api, r: Request, env: Env)
    requires Coherent(a) && Clean(Handle(r, env)) && IdsIncrease(a.store)
    ensures Coherent(Respond(a, r, env).0)
  {
    hide MutationOf, Carry, CarryCreate, Recompute, IdsIncrease;
    if Authorize(a, r).None? {
      if Mutates(r.action) {
        AuthorizedIsChecked(a, r, env.now);
        CarryKeepsCoherent(a, r.organizationId.value, r.action.id, MutationOf(a, r, env.now), env);
      } else if r.action.Create? {
        CarryCreateKeepsCoherent(a, OrderOf(r), env);
      }
    }
  }

  lemma CarriedKeepsCoherent(a: Api, s: Session, env: Env)
    requires Coherent(a) && SessionHolds(a, s) && Clean(Act(0, env)) && IdsIncrease(a.store)
    ensures Coherent(Carried(a, s, env))
  {
    hide Carry, CarryCreate, Recompute, IdsIncrease, Possible, Vouched, VouchedOrder;
    match s
    case Opening(w) => CarryCreateKeepsCoherent(a, w, env);
    case Changing(org, id, m) => CarryKeepsCoherent(a, org, id, m, env);
  }

  lemma ApplyKeepsCoherent(a: Api, e: Event)
    requires Coherent(a) && Clean(e) && IdsIncrease(a.store) && SessionsHold(a)
    ensures Coherent(Apply(a, e))
  {
    hide Authorize, Recompute, Respond, Carried, IdsIncrease, SessionOf;
    match e
    case Handle(r, env) => HandleKeepsCoherent(a, r, env);
    case Act(k, env) =>
      if k in a.sessions {
        assert SessionHolds(a, a.sessions[k]);
        CarriedKeepsCoherent(a.(sessions := a.sessions - {k}), a.sessions[k], env);
      }
    case _ =>
  }

  lemma {:induction false} CleanRunCoherent(a: Api, events: seq<Event>)
    requires Inv(a) && Coherent(a) && forall i :: 0 <= i < |events| ==> Clean(events[i])
    ensures Inv(Run(a, events)) && Coherent(Run(a, events))
    decreases |events|
  {
    hide Inv, Apply, Coherent, Clean;
    if events != [] {
      var init := events[..|events| - 1];
      CleanRunCoherent(a, init);
      ApplyKeepsInv(Run(a, init), events[|events| - 1]);
      InvParts(Run(a, init));
      ApplyKeepsCoherent(Run(a, init), events[|events| - 1]);
    }
  }

  lemma InvParts(a: Api)
    requires Inv(a)
    ensures IdsIncrease(a.store) && SessionsHold(a)
  {
  }

  ghost predicate AllClean(events: seq<Event>) {
    forall i :: 0 <= i < |events| ==> Clean(events[i])
  }

  ghost predicate CleanlyReachable(a: Api) {
    exists employees, customers, events :: AllClean(events) && Run(Initial(employees, customers), events) == a
  }

  lemma CleanlyReachableCoherent(a: Api)
    requires CleanlyReachable(a)
    ensures Coherent(a)
  {
    var employees, customers, events :| AllClean(events) && Run(Initial(employees, customers), events) == a;
    var a0 := Initial(employees, customers);
    assert Inv(a0) && Coherent(a0);
    CleanRunCoherent(a0, events);
  }

  /** Cache coherence: with every endpoint one step and no lost invalidation, any report served, from
      the cache or not, counts the work orders as they are. */
  lemma CacheCoherence(a: Api, organizationId: int, env: Env)
    requires CleanlyReachable(a)
    ensures Coherent(a)
    ensures var served := GetStatusReport(a, organizationId, env).1;
            served.Reported? ==>
              served.report == Recompute(a.store.orders, organizationId)
              && CountsThese(served.report, a.store.orders, organizationId)
  {
    CleanlyReachableCoherent(a);
    RecomputeCounts(a.store.orders, organizationId);
  }

  lemma CarryNeedsTheDrop(a: Api, organizationId: int, id: int, m: Mutation, env: Env)
    requires Coherent(a) && Possible(a.store, id, m) && Invalidates(m) && !env.save.SaveThrew?
    requires a.store.orders[id].organizationId == organizationId && organizationId in a.cache
    ensures Coherent(Carry(a, organizationId, id, m, env).0) <==> env.save.Saved? && env.cacheDelete
  {
    hide Recompute;
    if env.save.Saved? && env.cacheDelete {
      CarryKeepsCoherent(a, organizationId, id, m, env);
    } else {
      StatusLeavesItsCount(a.store.orders, id, Applied(a.store.orders[id], m));
      assert organizationId in Carry(a, organizationId, id, m, env).0.cache;
    }
  }

  lemma CarryCreateNeedsTheDrop(a: Api, w: WorkOrder, env: Env)
    requires Coherent(a) && IdsIncrease(a.store) && w.status.Open? && Commits(env.createSaves)
             && w.organizationId in a.cache
    ensures Coherent(CarryCreate(a, w, env).0) <==> env.createSaves.commit.Saved? && env.cacheDelete
  {
    hide Recompute, CreationEntries;
    if env.createSaves.commit.Saved? && env.cacheDelete {
      CarryCreateKeepsCoherent(a, w, env);
    } else {
      CreationEntersItsCount(a.store.orders, a.store.nextOrder, w);
      assert w.organizationId in CarryCreate(a, w, env).0.cache;
    }
  }

  /** The drop is not optional: after a committed status change, or a committed creation, in an
      organization whose report is cached, the cache is coherent if and only if the reply of the save
      arrived and the key was then deleted. */
  lemma CoherenceNeedsTheDrop(a: Api, r: Request, env: Env)
    requires Coherent(a) && IdsIncrease(a.store) && Authorize(a, r).None? && !r.action.GetReport?
    requires var c := ChangeOf(a, Handle(r, env)); c.Creation? || (c.Mutating? && Invalidates(c.m))
    requires r.organizationId.value in a.cache
    ensures Coherent(Respond(a, r, env).0) <==>
            env.cacheDelete && if r.action.Create? then env.createSaves.commit.Saved? else env.save.Saved?
  {
    hide MutationOf, Carry, CarryCreate, Recompute, IdsIncrease;
    if r.action.Create? {
      CarryCreateNeedsTheDrop(a, OrderOf(r), env);
    } else {
      AuthorizedIsChecked(a, r, env.now);
      CarryNeedsTheDrop(a, r.organizationId.value, r.action.id, MutationOf(a, r, env.now), env);
    }
  }

  lemma CreationEntersItsCount(orders: map<int, WorkOrder>, id: int, w: WorkOrder)
    requires id !in orders && w.status.Open?
    ensures Recompute(orders[id := w], w.organizationId) != Recompute(orders, w.organizationId)
  {
    var org, orders' := w.organizationId, orders[id := w];
    assert InStatus(orders', org, Open) == InStatus(orders, org, Open) + {id} && id !in InStatus(orders, org, Open);
  }

  lemma StatusLeavesItsCount(orders: map<int, WorkOrder>, id: int, w: WorkOrder)
    requires id in orders && w.organizationId == orders[id].organizationId && w.status != orders[id].status
    ensures Recompute(orders[id := w], w.organizationId) != Recompute(orders, w.organizationId)
  {
    var org, st, orders' := w.organizationId, orders[id].status, orders[id := w];
    assert InStatus(orders', org, st) == InStatus(orders, org, st) - {id} && id in InStatus(orders, org, st);
    assert |InStatus(orders', org, st)| == |InStatus(orders, org, st)| - 1;
  }
}
