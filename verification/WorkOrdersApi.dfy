/** The services and the controller as they are written, proved against module Api: each action
    answers and changes exactly what `Respond` says. */
module WorkOrdersApi {
  import opened Common
  import opened Domain
  import opened WorkOrderStore
  import opened A = Api
  import AT = ApiTheorems
  import opened Outbox
  import S = SearchIndex
  import E = SearchIndexing

  // ---------- directories of the other modules ----------

  class EmployeeDirectory {
    var employees: map<int, Employee>

    constructor (employees: map<int, Employee>)
      ensures this.employees == employees
    {
      this.employees := employees;
    }

    method GetById(id: int) returns (employee: Option<Employee>)
      ensures employee == if id in employees then Some(employees[id]) else None
    {
      employee := if id in employees then Some(employees[id]) else None;
    }
  }

  class CustomerDirectory {
    const organizations: map<int, int>

    constructor (organizations: map<int, int>)
      ensures this.organizations == organizations
    {
      this.organizations := organizations;
    }

    method GetById(id: int) returns (organizationId: Option<int>)
      ensures organizationId == if id in organizations then Some(organizations[id]) else None
    {
      organizationId := if id in organizations then Some(organizations[id]) else None;
    }
  }

  // ---------- the report ----------

  /** Redis, as far as the report uses it: keys that expire. */
  class Redis {
    var entries: map<int, CacheEntry>

    constructor ()
      ensures entries == map[]
    {
      entries := map[];
    }

    method StringGet(key: int, now: int) returns (cached: Option<Report>)
      ensures cached == if key in entries && now < entries[key].expiresAt then Some(entries[key].report) else None
    {
      cached := if key in entries && now < entries[key].expiresAt then Some(entries[key].report) else None;
    }

    method StringSet(key: int, report: Report, expiresAt: int)
      modifies this
      ensures entries == old(entries)[key := CacheEntry(report, expiresAt)]
    {
      entries := entries[key := CacheEntry(report, expiresAt)];
    }

    method KeyDelete(key: int)
      modifies this
      ensures entries == old(entries) - {key}
    {
      entries := entries - {key};
    }
  }

  /** The listed work orders in one status, by id. */
  function IdsIn(workOrders: seq<(int, WorkOrder)>, status: Status): set<int> {
    set k | 0 <= k < |workOrders| && workOrders[k].1.status == status :: workOrders[k].0
  }

  ghost predicate EachOnce(workOrders: seq<(int, WorkOrder)>) {
    forall i, j :: 0 <= i < j < |workOrders| ==> workOrders[i].0 != workOrders[j].0
  }

  /** The organization's orders: all of them, once each. */
  ghost predicate Selects(workOrders: seq<(int, WorkOrder)>, orders: map<int, WorkOrder>, organizationId: int) {
    && EachOnce(workOrders)
    && (forall k :: 0 <= k < |workOrders| ==>
          workOrders[k].0 in orders && workOrders[k].1 == orders[workOrders[k].0]
          && workOrders[k].1.organizationId == organizationId)
    && (forall id :: id in orders && orders[id].organizationId == organizationId ==> (id, orders[id]) in workOrders)
  }

  lemma SelectedAreInStatus(workOrders: seq<(int, WorkOrder)>, orders: map<int, WorkOrder>, organizationId: int,
                            status: Status)
    requires Selects(workOrders, orders, organizationId)
    ensures IdsIn(workOrders, status) == InStatus(orders, organizationId, status)
  {
    forall id | id in InStatus(orders, organizationId, status) ensures id in IdsIn(workOrders, status) {
      var k :| 0 <= k < |workOrders| && workOrders[k] == (id, orders[id]);
    }
  }

  lemma IdsInGrow(workOrders: seq<(int, WorkOrder)>, i: nat, status: Status)
    requires EachOnce(workOrders) && i < |workOrders|
    ensures var before := IdsIn(workOrders[..i], status); var (id, w) := workOrders[i];
            id !in before && IdsIn(workOrders[..i + 1], status) == if w.status == status then before + {id} else before
  {
    var before, after := IdsIn(workOrders[..i], status), IdsIn(workOrders[..i + 1], status);
    var (id, w) := workOrders[i];
    forall x | x in before ensures x in after {
      var k :| 0 <= k < i && workOrders[k].1.status == status && workOrders[k].0 == x;
      assert workOrders[..i + 1][k].0 == x;
    }
    if w.status == status { assert workOrders[..i + 1][i].0 == id; }
  }

  /** Count(w => w.Status == status). */
  method Count(workOrders: seq<(int, WorkOrder)>, status: Status) returns (n: nat)
    requires EachOnce(workOrders)
    ensures n == |IdsIn(workOrders, status)|
  {
    hide IdsIn, EachOnce;
    n := 0;
    NothingListed(status);
    assert workOrders[..0] == [];
    for i := 0 to |workOrders|
      invariant n == |IdsIn(workOrders[..i], status)|
    {
      IdsInGrow(workOrders, i, status);
      if workOrders[i].1.status == status {
        n := n + 1;
      }
    }
    assert workOrders[..|workOrders|] == workOrders;
  }

  lemma NothingListed(status: Status)
    ensures IdsIn([], status) == {}
  {
  }

  class WorkOrderReportService {
    const directory: EfWorkOrderDirectory
    const redis: Redis

    constructor (directory: EfWorkOrderDirectory, redis: Redis)
      ensures this.directory == directory && this.redis == redis
    {
      this.directory, this.redis := directory, redis;
    }

    /** GetAll().Where(w => w.OrganizationId == organizationId). */
    method WorkOrdersOf(organizationId: int) returns (workOrders: seq<(int, WorkOrder)>)
      ensures Selects(workOrders, directory.orders, organizationId)
    {
      var all := directory.GetAll();
      workOrders := [];
      for k := 0 to |all|
        invariant EachOnce(workOrders)
        invariant forall i :: 0 <= i < |workOrders| ==>
                    workOrders[i] in all[..k] && workOrders[i].1.organizationId == organizationId
        invariant forall i :: 0 <= i < k && all[i].1.organizationId == organizationId ==> all[i] in workOrders
      {
        if all[k].1.organizationId == organizationId {
          workOrders := workOrders + [all[k]];
        }
      }
    }

    /** Cache-aside. `Failed` is an exception: Redis did not answer. */
    method GetStatusReport(organizationId: int, env: Env) returns (r: Response)
      modifies redis
      ensures forall a: Api :: a.store == directory.Value() && a.cache == old(redis.entries) ==>
                A.GetStatusReport(a, organizationId, env) == (a.(cache := redis.entries), r)
      ensures r.Reported? && !(organizationId in old(redis.entries)
                               && env.now < old(redis.entries)[organizationId].expiresAt) ==>
                AT.CountsThese(r.report, directory.orders, organizationId)
    {
      if !env.cacheGet { return Failed; }
      var cached := redis.StringGet(organizationId, env.now);
      if cached.Some? { return Reported(cached.value); }
      var workOrders := WorkOrdersOf(organizationId);
      var openCount := Count(workOrders, Open);
      var assignedCount := Count(workOrders, Assigned);
      var inProgressCount := Count(workOrders, InProgress);
      var completedCount := Count(workOrders, Completed);
      var report := Report(organizationId, openCount, assignedCount, inProgressCount, completedCount);
      assert report == Recompute(directory.orders, organizationId) by {
        forall status: Status ensures IdsIn(workOrders, status) == InStatus(directory.orders, organizationId, status) {
          SelectedAreInStatus(workOrders, directory.orders, organizationId, status);
        }
      }
      AT.RecomputeCounts(directory.orders, organizationId);
      if !env.cacheSet.SaveThrew? {
        redis.StringSet(organizationId, report, env.now + CACHE_DURATION);
      }
      r := if env.cacheSet.Saved? then Reported(report) else Failed;
    }

    /** Never raises: a lost delete costs staleness, not the caller's request. */
    method InvalidateCache(organizationId: int, answers: bool)
      modifies redis
      ensures redis.entries == DropKey(old(redis.entries), organizationId, answers)
    {
      if answers {
        redis.KeyDelete(organizationId);
      }
    }
  }

  // ---------- idempotency ----------

  const RECORD_DURATION := 60

  datatype IdempotencyRecord = IdempotencyRecord(order: WorkOrder, expiresAt: int)

  /** Remembered responses, by idempotency key. Redis failing is never the caller's problem. */
  class IdempotencyService {
    var records: map<string, IdempotencyRecord>

    constructor ()
      ensures records == map[]
    {
      records := map[];
    }

    /** A live record of this key. */
    predicate Remembers(key: string, now: int)
      reads this
    {
      key in records && now < records[key].expiresAt
    }

    method TryGetCachedResponse(key: string, now: int, answers: bool) returns (order: Option<WorkOrder>)
      ensures order == if answers && Remembers(key, now) then Some(records[key].order) else None
    {
      order := if answers && key in records && now < records[key].expiresAt then Some(records[key].order) else None;
    }

    method StoreResponse(key: string, order: WorkOrder, now: int, answers: bool)
      modifies this
      ensures records == if answers then old(records)[key := IdempotencyRecord(order, now + 60)]
              else old(records)
    {
      if answers {
        records := records[key := IdempotencyRecord(order, now + RECORD_DURATION)];
      }
    }
  }

  // ---------- assignment ----------

  datatype AssignmentResult = Success(reply: Reply) | Failure

  class WorkOrderAssignmentService {
    const directory: EfWorkOrderDirectory
    const employees: EmployeeDirectory

    constructor (directory: EfWorkOrderDirectory, employees: EmployeeDirectory)
      ensures this.directory == directory && this.employees == employees
    {
      this.directory, this.employees := directory, employees;
    }

    method ValidateWorkOrderAndEmployee(id: int, employeeId: int, organizationId: int)
      returns (order: Option<WorkOrder>)
      ensures order == if SameOrganization(directory.orders, employees.employees, id, employeeId, organizationId)
                       then Some(directory.orders[id]) else None
    {
      order := directory.GetById(id);
      if order.None? || order.value.organizationId != organizationId { return None; }
      var employee := employees.GetById(employeeId);
      if employee.None? || employee.value.organizationId != order.value.organizationId { return None; }
    }

    /** The directory's answer is never null here: this method's own checks imply the directory's. */
    method AssignWorkOrder(id: int, employeeId: int, organizationId: int, now: int, save: Save)
      returns (r: AssignmentResult)
      modifies directory
      ensures r.Failure? <==> !Assignable(old(directory.orders), employees.employees, id, employeeId, organizationId)
      ensures r.Failure? ==> directory.Value() == old(directory.Value())
      ensures r.Success? ==>
                (directory.Value(), r.reply) ==
                TryMutate(old(directory.Value()), id, Mutation.Assign(employeeId), now, save) && !r.reply.Null?
    {
      var workOrder := ValidateWorkOrderAndEmployee(id, employeeId, organizationId);
      if workOrder.None? || workOrder.value.status != Open { return Failure; }
      var assignedOrder := directory.Assign(id, employeeId, now, save);
      r := Success(assignedOrder);
    }

    method ReassignWorkOrder(id: int, employeeId: int, organizationId: int, now: int, save: Save)
      returns (r: AssignmentResult)
      modifies directory
      ensures r.Failure? <==> !Reassignable(old(directory.orders), employees.employees, id, employeeId, organizationId)
      ensures r.Failure? ==> directory.Value() == old(directory.Value())
      ensures r.Success? ==>
                (directory.Value(), r.reply) ==
                TryMutate(old(directory.Value()), id, Mutation.Reassign(employeeId), now, save) && !r.reply.Null?
    {
      var workOrder := ValidateWorkOrderAndEmployee(id, employeeId, organizationId);
      if workOrder.None? { return Failure; }
      if workOrder.value.status != Assigned && workOrder.value.status != InProgress { return Failure; }
      if workOrder.value.assignedEmployeeId == Some(employeeId) { return Failure; }
      var reassigned := directory.Reassign(id, employeeId, now, save);
      r := Success(reassigned);
    }
  }

  // ---------- the controller ----------

  class WorkOrdersController {
    const directory: EfWorkOrderDirectory
    const employees: EmployeeDirectory
    const customers: CustomerDirectory
    const assignments: WorkOrderAssignmentService
    const reports: WorkOrderReportService
    const idempotency: IdempotencyService
    const index: E.ElasticsearchWorkOrderSearchIndex
    ghost var log: multiset<Fact>

    constructor (directory: EfWorkOrderDirectory, employees: EmployeeDirectory, customers: CustomerDirectory,
                 assignments: WorkOrderAssignmentService, reports: WorkOrderReportService,
                 idempotency: IdempotencyService,
                 index: E.ElasticsearchWorkOrderSearchIndex)
      requires assignments.directory == directory && assignments.employees == employees
               && reports.directory == directory
      ensures Wired() && log == multiset{}
      ensures this.directory == directory && this.employees == employees && this.customers == customers
      ensures this.reports == reports && this.idempotency == idempotency && this.index == index
    {
      this.directory, this.employees, this.customers := directory, employees, customers;
      this.assignments, this.reports, this.idempotency, this.index := assignments, reports, idempotency, index;
      log := multiset{};
    }

    /** Every service works on the same stores. */
    ghost predicate Wired() {
      assignments.directory == directory && assignments.employees == employees && reports.directory == directory
    }

    ghost function View(): Api
      reads this`log, directory, employees, reports.redis
    {
      Api(directory.Value(), employees.employees, customers.organizations, reports.redis.entries, map[], log)
    }

    // ---------- checks ----------

    method ValidateMembership(organizationId: Option<int>, actingEmployeeId: Option<int>) returns (error: Option<Error>)
      ensures error == Membership(View(), Request(organizationId, actingEmployeeId, Action.GetReport))
      ensures var known := organizationId.Some? && actingEmployeeId.Some?
                           && actingEmployeeId.value in employees.employees;
              && (error == Some(BadRequest) <==> !known)
              && (error.None? <==>
                    known && employees.employees[actingEmployeeId.value].organizationId == organizationId.value)
    {
      if organizationId.None? { return Some(BadRequest); }
      if actingEmployeeId.None? { return Some(BadRequest); }
      var actingEmployee := employees.GetById(actingEmployeeId.value);
      if actingEmployee.None? { return Some(BadRequest); }
      if actingEmployee.value.organizationId != organizationId.value { return Some(Forbidden); }
      error := None;
    }

    method ValidateIsAdmin(actingEmployeeId: int) returns (error: Option<Error>)
      requires actingEmployeeId in employees.employees
      ensures error == if employees.employees[actingEmployeeId].role == Role.Admin then None else Some(Forbidden)
    {
      var actingEmployee := employees.GetById(actingEmployeeId);
      error := if actingEmployee.value.role != Admin then Some(Forbidden) else None;
    }

    method ValidateIsAdminOrAssignee(id: int, organizationId: int, actingEmployeeId: int) returns (error: Option<Error>)
      requires actingEmployeeId in employees.employees
      ensures error == if id !in directory.orders || directory.orders[id].organizationId != organizationId
                       then Some(BadRequest)
                       else if employees.employees[actingEmployeeId].role != Role.Admin
                            && directory.orders[id].assignedEmployeeId != Some(actingEmployeeId) then Some(Forbidden)
                       else None
    {
      var actingEmployee := employees.GetById(actingEmployeeId);
      var workOrder := directory.GetById(id);
      if workOrder.None? || workOrder.value.organizationId != organizationId { return Some(BadRequest); }
      if actingEmployee.value.role != Admin && workOrder.value.assignedEmployeeId != Some(actingEmployeeId) {
        return Some(Forbidden);
      }
      error := None;
    }

    method ValidateIsAdminForWorkOrder(id: int, organizationId: int, actingEmployeeId: int)
      returns (error: Option<Error>)
      requires actingEmployeeId in employees.employees
      ensures error == if id !in directory.orders || directory.orders[id].organizationId != organizationId
                       then Some(BadRequest)
                       else if employees.employees[actingEmployeeId].role != Role.Admin then Some(Forbidden)
                       else None
    {
      var actingEmployee := employees.GetById(actingEmployeeId);
      var workOrder := directory.GetById(id);
      if workOrder.None? || workOrder.value.organizationId != organizationId { return Some(BadRequest); }
      error := if actingEmployee.value.role != Admin then Some(Forbidden) else None;
    }

    method ValidateOwnership(id: int, organizationId: int, actingEmployeeId: int)
      returns (error: Option<Error>, order: Option<WorkOrder>)
      ensures error == if id !in directory.orders || directory.orders[id].organizationId != organizationId
                       then Some(BadRequest)
                       else if directory.orders[id].assignedEmployeeId != Some(actingEmployeeId) then Some(Forbidden)
                       else None
      ensures error.None? ==> order == Some(directory.orders[id])
    {
      order := directory.GetById(id);
      if order.None? || order.value.organizationId != organizationId { return Some(BadRequest), None; }
      if order.value.assignedEmployeeId != Some(actingEmployeeId) { return Some(Forbidden), order; }
      error := None;
    }

    // ---------- actions ----------

    method GetStatusReport(organizationId: Option<int>, actingEmployeeId: Option<int>, env: Env) returns (r: Response)
      requires Wired()
      modifies reports.redis
      ensures (View(), r) == Respond(old(View()), Request(organizationId, actingEmployeeId, Action.GetReport), env)
    {
      var error := ValidateMembership(organizationId, actingEmployeeId);
      if error.Some? { return Refused(error.value); }
      r := reports.GetStatusReport(organizationId.value, env);
    }

    /** Admin only: reads this organization's work orders from the store and rewrites their documents.
        `error` is a refusal; otherwise `done` says whether the rebuild ran to its end. */
    method RebuildSearchIndex(organizationId: Option<int>, actingEmployeeId: Option<int>, delete: S.Delete,
                              script: nat -> Send)
      returns (error: Option<Error>, done: bool, ghost documents: seq<SearchDocument>)
      modifies index
      ensures error ==
              if organizationId.None? || actingEmployeeId.None? || actingEmployeeId.value !in employees.employees
              then Some(BadRequest)
              else if employees.employees[actingEmployeeId.value] != Employee(organizationId.value, Role.Admin)
              then Some(Forbidden)
              else None
      ensures error.Some? ==> index.documents == old(index.documents) && !done
      ensures error.None? ==>
                && S.Lists(documents, directory.orders, organizationId.value)
                && (index.documents, done) ==
                   S.Rebuild(old(index.documents), organizationId.value, documents, delete,
                             seq(|documents|, (i: nat) => script(i)))
      ensures done ==>
                forall id :: id in directory.orders && directory.orders[id].organizationId == organizationId.value ==>
                  id in index.documents && S.Shows(index.documents[id], id, directory.orders[id])
    {
      done, documents := false, [];
      error := ValidateMembership(organizationId, actingEmployeeId);
      if error.Some? { return; }
      error := ValidateIsAdmin(actingEmployeeId.value);
      if error.Some? { return; }
      var all := directory.GetAll();
      var list: seq<SearchDocument> := [];
      for k := 0 to |all|
        invariant forall i :: 0 <= i < |list| ==> S.Current(list[i], directory.orders, organizationId.value)
        invariant forall i :: 0 <= i < k && all[i].1.organizationId == organizationId.value ==>
                    S.DocumentOf(all[i].0, all[i].1) in list
      {
        if all[k].1.organizationId == organizationId.value {
          list := list + [S.DocumentOf(all[k].0, all[k].1)];
        }
      }
      documents := list;
      S.RebuildShows(index.documents, directory.orders, organizationId.value, list, delete,
                     seq(|list|, (i: nat) => script(i)));
      done := index.RebuildOrganizationIndexAsync(organizationId.value, list, delete,
                                                  seq(|list|, (i: nat) => script(i)));
    }

    /** The part of Create behind the replay. */
    method CreateAnew(title: string, customerId: Option<int>, organizationId: Option<int>,
                      actingEmployeeId: Option<int>, env: Env)
      returns (r: Response)
      requires Wired()
      requires Membership(View(), Request(organizationId, actingEmployeeId, Action.GetReport)).None?
      modifies this`log, directory, reports.redis
      ensures (View(), r) == Respond(old(View()),
                                     Request(organizationId, actingEmployeeId, Action.Create(title, customerId)), env)
    {
      hide HandleMutation, A.GetStatusReport, DropKey;
      if customerId.Some? {
        var customer := customers.GetById(customerId.value);
        if customer.None? || customer.value != organizationId.value { return Refused(BadRequest); }
      }
      var org := organizationId.value;
      var buildOutboxEntries := (newId: int) => [Indexing(SearchDocument(newId, org, title, Open))];
      ghost var id := directory.nextOrder;
      var workOrder := directory.Create(title, org, customerId, buildOutboxEntries, env.now, env.createSaves);
      log := if Commits(env.createSaves) then log + multiset{Fact(id, Creating)} else log;
      if workOrder.Raised? { return Failed; }
      reports.InvalidateCache(org, env.cacheDelete);
      r := Ok(workOrder.order);
    }

    /** A key remembered from an earlier success replays its response and creates nothing; otherwise the
        request is carried out, and a success is remembered under its key. `lookup` and `store` say
        whether Redis answers. */
    method Create(title: string, customerId: Option<int>, organizationId: Option<int>, actingEmployeeId: Option<int>,
                  idempotencyKey: Option<string>, env: Env, lookup: bool, store: bool)
      returns (r: Response)
      requires Wired()
      modifies this`log, directory, reports.redis, idempotency
      ensures var member := Membership(old(View()), Request(organizationId, actingEmployeeId, Action.GetReport)).None?;
              var key, records := idempotencyKey, old(idempotency.records);
              if member && key.Some? && lookup && old(idempotency.Remembers(idempotencyKey.value, env.now))
              then r == Ok(records[key.value].order) && View() == old(View()) && idempotency.records == records
              else && (View(), r) == Respond(old(View()),
                                             Request(organizationId, actingEmployeeId,
                                                     Action.Create(title, customerId)), env)
                   && idempotency.records ==
                      if key.Some? && r.Ok? && store then
                        records[key.value := IdempotencyRecord(r.order, env.now + 60)]
                      else records
    {
      var error := ValidateMembership(organizationId, actingEmployeeId);
      if error.Some? { return Refused(error.value); }
      if idempotencyKey.Some? {
        var cachedResponse := idempotency.TryGetCachedResponse(idempotencyKey.value, env.now, lookup);
        if cachedResponse.Some? { return Ok(cachedResponse.value); }
      }
      r := CreateAnew(title, customerId, organizationId, actingEmployeeId, env);
      if r.Ok? && idempotencyKey.Some? {
        idempotency.StoreResponse(idempotencyKey.value, r.order, env.now, store);
      }
    }

    method Assign(id: int, employeeId: int, organizationId: Option<int>, actingEmployeeId: Option<int>, env: Env)
      returns (r: Response)
      requires Wired()
      modifies this`log, directory, reports.redis
      ensures (View(), r) == Respond(old(View()),
                                     Request(organizationId, actingEmployeeId, Action.Assign(id, employeeId)), env)
    {
      hide HandleCreate, A.GetStatusReport, TryMutate, DropKey, Reassignable, Assignable, AuthorizeApproval, Ownership,
           CompletionEntries;
      ghost var a, q := View(), Request(organizationId, actingEmployeeId, Action.Assign(id, employeeId));
      var error := ValidateMembership(organizationId, actingEmployeeId);
      if error.Some? { return Refused(error.value); }
      error := ValidateIsAdmin(actingEmployeeId.value);
      if error.Some? { return Refused(error.value); }
      var result := assignments.AssignWorkOrder(id, employeeId, organizationId.value, env.now, env.save);
      if result.Failure? { return Refused(BadRequest); }
      assert Authorize(a, q).None? && MutationOf(a, q, env.now) == Mutation.Assign(employeeId);
      log := if env.save.SaveThrew? then log else log + multiset{Fact(id, Assigning)};
      if result.reply.Raised? { return Failed; }
      reports.InvalidateCache(organizationId.value, env.cacheDelete);
      r := Ok(result.reply.order);
    }

    method Reassign(id: int, employeeId: int, organizationId: Option<int>, actingEmployeeId: Option<int>, env: Env)
      returns (r: Response)
      requires Wired()
      modifies this`log, directory
      ensures (View(), r) == Respond(old(View()),
                                     Request(organizationId, actingEmployeeId, Action.Reassign(id, employeeId)), env)
    {
      hide HandleCreate, A.GetStatusReport, TryMutate, DropKey, Reassignable, Assignable, AuthorizeApproval, Ownership,
           CompletionEntries;
      ghost var a, q := View(), Request(organizationId, actingEmployeeId, Action.Reassign(id, employeeId));
      var error := ValidateMembership(organizationId, actingEmployeeId);
      if error.Some? { return Refused(error.value); }
      error := ValidateIsAdminOrAssignee(id, organizationId.value, actingEmployeeId.value);
      if error.Some? { return Refused(error.value); }
      var result := assignments.ReassignWorkOrder(id, employeeId, organizationId.value, env.now, env.save);
      if result.Failure? { return Refused(BadRequest); }
      assert Authorize(a, q).None? && MutationOf(a, q, env.now) == Mutation.Reassign(employeeId);
      log := if env.save.SaveThrew? then log else log + multiset{Fact(id, Reassigning)};
      if result.reply.Raised? { return Failed; }
      r := Ok(result.reply.order);
    }

    method Unassign(id: int, organizationId: Option<int>, actingEmployeeId: Option<int>, env: Env) returns (r: Response)
      requires Wired()
      modifies this`log, directory, reports.redis
      ensures (View(), r) == Respond(old(View()), Request(organizationId, actingEmployeeId, Action.Unassign(id)), env)
    {
      hide HandleCreate, A.GetStatusReport, TryMutate, DropKey, Reassignable, Assignable, AuthorizeApproval, Ownership,
           CompletionEntries;
      ghost var a, q := View(), Request(organizationId, actingEmployeeId, Action.Unassign(id));
      var error := ValidateMembership(organizationId, actingEmployeeId);
      if error.Some? { return Refused(error.value); }
      error := ValidateIsAdminOrAssignee(id, organizationId.value, actingEmployeeId.value);
      if error.Some? { return Refused(error.value); }
      assert Authorize(a, q).None? && MutationOf(a, q, env.now) == Mutation.Unassign;
      var updated := directory.Unassign(id, env.now, env.save);
      log := if updated.Null? || env.save.SaveThrew? then log else log + multiset{Fact(id, Unassigning)};
      if updated.Raised? { return Failed; }
      if updated.Null? { return Refused(BadRequest); }
      reports.InvalidateCache(organizationId.value, env.cacheDelete);
      r := Ok(updated.order);
    }

    method Reopen(id: int, organizationId: Option<int>, actingEmployeeId: Option<int>, env: Env) returns (r: Response)
      requires Wired()
      modifies this`log, directory, reports.redis
      ensures (View(), r) == Respond(old(View()), Request(organizationId, actingEmployeeId, Action.Reopen(id)), env)
    {
      hide HandleCreate, A.GetStatusReport, TryMutate, DropKey, Reassignable, Assignable, AuthorizeApproval, Ownership,
           CompletionEntries;
      ghost var a, q := View(), Request(organizationId, actingEmployeeId, Action.Reopen(id));
      var error := ValidateMembership(organizationId, actingEmployeeId);
      if error.Some? { return Refused(error.value); }
      error := ValidateIsAdminForWorkOrder(id, organizationId.value, actingEmployeeId.value);
      if error.Some? { return Refused(error.value); }
      assert Authorize(a, q).None? && MutationOf(a, q, env.now) == Mutation.Reopen;
      var updated := directory.Reopen(id, env.now, env.save);
      log := if updated.Null? || env.save.SaveThrew? then log else log + multiset{Fact(id, Reopening)};
      if updated.Raised? { return Failed; }
      if updated.Null? { return Refused(BadRequest); }
      reports.InvalidateCache(organizationId.value, env.cacheDelete);
      r := Ok(updated.order);
    }

    method Start(id: int, organizationId: Option<int>, actingEmployeeId: Option<int>, env: Env) returns (r: Response)
      requires Wired()
      modifies this`log, directory, reports.redis
      ensures (View(), r) == Respond(old(View()), Request(organizationId, actingEmployeeId, Action.Start(id)), env)
    {
      hide HandleCreate, A.GetStatusReport, TryMutate, DropKey, Reassignable, Assignable, AuthorizeApproval,
           CompletionEntries, IsAdmin;
      var error := ValidateMembership(organizationId, actingEmployeeId);
      if error.Some? { return Refused(error.value); }
      var before;
      error, before := ValidateOwnership(id, organizationId.value, actingEmployeeId.value);
      if error.Some? { return Refused(error.value); }
      ghost var a, q := View(), Request(organizationId, actingEmployeeId, Action.Start(id));
      assert Authorize(a, q).None? && MutationOf(a, q, env.now) == Mutation.Start;
      var updated := directory.Start(id, env.now, env.save);
      log := if updated.Null? || env.save.SaveThrew? then log else log + multiset{Fact(id, Starting)};
      if updated.Raised? { return Failed; }
      if updated.Null? { return Refused(BadRequest); }
      reports.InvalidateCache(organizationId.value, env.cacheDelete);
      r := Ok(updated.order);
    }

    method Complete(id: int, organizationId: Option<int>, actingEmployeeId: Option<int>, env: Env) returns (r: Response)
      requires Wired()
      modifies this`log, directory, reports.redis
      ensures (View(), r) == Respond(old(View()), Request(organizationId, actingEmployeeId, Action.Complete(id)), env)
    {
      hide HandleCreate, A.GetStatusReport, TryMutate, DropKey, Reassignable, Assignable, AuthorizeApproval, IsAdmin;
      ghost var a, q := View(), Request(organizationId, actingEmployeeId, Action.Complete(id));
      var error := ValidateMembership(organizationId, actingEmployeeId);
      if error.Some? { return Refused(error.value); }
      var before;
      error, before := ValidateOwnership(id, organizationId.value, actingEmployeeId.value);
      if error.Some? { return Refused(error.value); }
      var event := CompletedEvent(id, organizationId.value, before.value.customerId, before.value.title, env.now);
      var document := SearchDocument(id, organizationId.value, before.value.title, Completed);
      assert Authorize(a, q).None?
             && MutationOf(a, q, env.now) == Mutation.Complete([Completion(event), Indexing(document)]);
      var updated := directory.Complete(id, [Completion(event), Indexing(document)], env.now, env.save);
      log := if updated.Null? || env.save.SaveThrew? then log else log + multiset{Fact(id, Completing)};
      if updated.Raised? { return Failed; }
      if updated.Null? { return Refused(BadRequest); }
      reports.InvalidateCache(organizationId.value, env.cacheDelete);
      r := Ok(updated.order);
    }

    method AddEvidence(id: int, note: string, organizationId: Option<int>, actingEmployeeId: Option<int>, env: Env)
      returns (r: Response)
      requires Wired()
      modifies this`log, directory
      ensures (View(), r) == Respond(old(View()),
                                     Request(organizationId, actingEmployeeId, Action.AddEvidence(id, note)), env)
    {
      hide HandleCreate, A.GetStatusReport, TryMutate, DropKey, Reassignable, Assignable, AuthorizeApproval,
           CompletionEntries, IsAdmin;
      var error := ValidateMembership(organizationId, actingEmployeeId);
      if error.Some? { return Refused(error.value); }
      var before;
      error, before := ValidateOwnership(id, organizationId.value, actingEmployeeId.value);
      if error.Some? { return Refused(error.value); }
      ghost var a, q := View(), Request(organizationId, actingEmployeeId, Action.AddEvidence(id, note));
      assert Authorize(a, q).None? && MutationOf(a, q, env.now) == Mutation.AddEvidence(note);
      var updated := directory.AddEvidence(id, note, env.now, env.save);
      log := if updated.Null? || env.save.SaveThrew? then log else log + multiset{Fact(id, Noting)};
      if updated.Raised? { return Failed; }
      if updated.Null? { return Refused(BadRequest); }
      r := Ok(updated.order);
    }

    method Approve(id: int, organizationId: Option<int>, actingCustomerId: Option<int>, env: Env) returns (r: Response)
      requires Wired()
      modifies this`log, directory
      ensures (View(), r) == Respond(old(View()), Request(organizationId, actingCustomerId, Action.Approve(id)), env)
    {
      hide HandleCreate, A.GetStatusReport, TryMutate, DropKey, Reassignable, Assignable, Membership, Ownership,
           CompletionEntries, IsAdmin;
      ghost var a, q := View(), Request(organizationId, actingCustomerId, Action.Approve(id));
      if organizationId.None? { return Refused(BadRequest); }
      if actingCustomerId.None? { return Refused(BadRequest); }
      var actingCustomer := customers.GetById(actingCustomerId.value);
      if actingCustomer.None? || actingCustomer.value != organizationId.value { return Refused(BadRequest); }
      var workOrder := directory.GetById(id);
      if workOrder.None? || workOrder.value.organizationId != organizationId.value { return Refused(BadRequest); }
      if workOrder.value.customerId != actingCustomerId { return Refused(Forbidden); }
      assert Authorize(a, q).None? && MutationOf(a, q, env.now) == Mutation.Approve;
      var updated := directory.Approve(id, env.now, env.save);
      log := if updated.Null? || env.save.SaveThrew? then log else log + multiset{Fact(id, Approving)};
      if updated.Raised? { return Failed; }
      if updated.Null? { return Refused(BadRequest); }
      r := Ok(updated.order);
    }
  }
}
