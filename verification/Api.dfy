/** The work-order endpoints: authorization, the mutation, its outbox entries, and the report cache. */
module Api {
  import opened Common
  import opened Domain
  import opened WorkOrderStore

  const CACHE_DURATION := 30

  datatype Report = Report(organizationId: int, openCount: nat, assignedCount: nat, inProgressCount: nat,
                           completedCount: nat)

  datatype CacheEntry = CacheEntry(report: Report, expiresAt: int)

  /** What has been committed so far; no step ever reads it. */
  datatype Kind =
    | Creating | Assigning | Starting | Completing | Reassigning | Unassigning | Reopening | Noting | Approving

  datatype Fact = Fact(id: int, kind: Kind)

  datatype Api = Api(
    store: Store,
    employees: map<int, Employee>,
    customers: map<int, int>,             // customer id to organization id
    cache: map<int, CacheEntry>,          // organization id to report
    sessions: map<int, Session>,          // requests between their checks and their directory call
    log: multiset<Fact>)

  /** What a request that has passed its checks is about to ask of the directory. */
  datatype Session = Opening(w: WorkOrder) | Changing(organizationId: int, id: int, m: Mutation)

  datatype Action =
    | Create(title: string, customerId: Option<int>)
    | Assign(id: int, employeeId: int)
    | Reassign(id: int, employeeId: int)
    | Unassign(id: int)
    | Reopen(id: int)
    | Start(id: int)
    | Complete(id: int)
    | AddEvidence(id: int, note: string)
    | Approve(id: int)
    | GetReport

  /** `actor` is the employee header, except for Approve, where it is the customer header. */
  datatype Request = Request(organizationId: Option<int>, actor: Option<int>, action: Action)

  datatype Error = BadRequest | Forbidden

  datatype Response = Ok(order: WorkOrder) | Reported(report: Report) | Refused(error: Error) | Failed

  /** The outside world during one request: the clock, how each save ends, and whether Redis answers. */
  datatype Env = Env(now: int, save: Save, createSaves: CreateSaves, cacheGet: bool, cacheSet: Save, cacheDelete: bool)

  // ---------- authorization ----------

  function Membership(a: Api, r: Request): Option<Error> {
    if r.organizationId.None? || r.actor.None? || r.actor.value !in a.employees then Some(BadRequest)
    else if a.employees[r.actor.value].organizationId != r.organizationId.value then Some(Forbidden)
    else None
  }

  predicate IsAdmin(a: Api, employeeId: int) {
    employeeId in a.employees && a.employees[employeeId].role.Admin?
  }

  /** The work order exists, for this organization. */
  predicate OwnOrder(a: Api, id: int, organizationId: int) {
    id in a.store.orders && a.store.orders[id].organizationId == organizationId
  }

  /** The work order and the employee both exist, in this organization. */
  predicate SameOrganization(orders: map<int, WorkOrder>, employees: map<int, Employee>, id: int, employeeId: int,
                             organizationId: int)
  {
    && id in orders && orders[id].organizationId == organizationId
    && employeeId in employees && employees[employeeId].organizationId == organizationId
  }

  predicate Assignable(orders: map<int, WorkOrder>, employees: map<int, Employee>, id: int, employeeId: int,
                       organizationId: int)
  {
    SameOrganization(orders, employees, id, employeeId, organizationId) && orders[id].status.Open?
  }

  predicate Reassignable(orders: map<int, WorkOrder>, employees: map<int, Employee>, id: int, employeeId: int,
                         organizationId: int)
  {
    && SameOrganization(orders, employees, id, employeeId, organizationId)
    && (orders[id].status.Assigned? || orders[id].status.InProgress?)
    && orders[id].assignedEmployeeId != Some(employeeId)
  }

  /** Every check an action makes before it reaches the directory. */
  function Authorize(a: Api, r: Request): Option<Error> {
    if r.action.Approve? then AuthorizeApproval(a, r)
    else if Membership(a, r).Some? then Membership(a, r)
    else
      var org, actor := r.organizationId.value, r.actor.value;
      match r.action
      case Create(_, customerId) =>
        if customerId.Some? && (customerId.value !in a.customers || a.customers[customerId.value] != org) then
          Some(BadRequest)
        else None
      case Assign(id, employeeId) =>
        if !IsAdmin(a, actor) then Some(Forbidden)
        else if !Assignable(a.store.orders, a.employees, id, employeeId, org) then Some(BadRequest)
        else None
      case Reassign(id, employeeId) =>
        if !OwnOrder(a, id, org) then Some(BadRequest)
        else if !IsAdmin(a, actor) && a.store.orders[id].assignedEmployeeId != Some(actor) then Some(Forbidden)
        else if !Reassignable(a.store.orders, a.employees, id, employeeId, org) then Some(BadRequest)
        else None
      case Unassign(id) =>
        if !OwnOrder(a, id, org) then Some(BadRequest)
        else if !IsAdmin(a, actor) && a.store.orders[id].assignedEmployeeId != Some(actor) then Some(Forbidden)
        else None
      case Reopen(id) =>
        if !OwnOrder(a, id, org) then Some(BadRequest) else if !IsAdmin(a, actor) then Some(Forbidden) else None
      case Start(id) => Ownership(a, id, org, actor)
      case Complete(id) => Ownership(a, id, org, actor)
      case AddEvidence(id, _) => Ownership(a, id, org, actor)
      case GetReport => None
      case Approve(_) => None
  }

  function Ownership(a: Api, id: int, organizationId: int, actor: int): Option<Error> {
    if !OwnOrder(a, id, organizationId) then Some(BadRequest)
    else if a.store.orders[id].assignedEmployeeId != Some(actor) then Some(Forbidden)
    else None
  }

  function AuthorizeApproval(a: Api, r: Request): Option<Error>
    requires r.action.Approve?
  {
    if r.organizationId.None? || r.actor.None? then Some(BadRequest)
    else if r.actor.value !in a.customers || a.customers[r.actor.value] != r.organizationId.value then Some(BadRequest)
    else if !OwnOrder(a, r.action.id, r.organizationId.value) then Some(BadRequest)
    else if a.store.orders[r.action.id].customerId != r.actor then Some(Forbidden)
    else None
  }

  // ---------- mutations and what they announce ----------

  function CreationEntries(id: int, organizationId: int, title: string): seq<Entry> {
    [Indexing(SearchDocument(id, organizationId, title, Open))]
  }

  function CompletionEntries(id: int, organizationId: int, w: WorkOrder, now: int): seq<Entry> {
    [Completion(CompletedEvent(id, organizationId, w.customerId, w.title, now)),
     Indexing(SearchDocument(id, organizationId, w.title, Completed))]
  }

  predicate Mutates(action: Action) { !action.Create? && !action.GetReport? }

  function MutationOf(a: Api, r: Request, now: int): Mutation
    requires Mutates(r.action) && Authorize(a, r).None?
  {
    match r.action
    case Assign(_, e) => Mutation.Assign(e)
    case Reassign(_, e) => Mutation.Reassign(e)
    case Unassign(_) => Mutation.Unassign
    case Reopen(_) => Mutation.Reopen
    case Start(_) => Mutation.Start
    case Complete(id) => Mutation.Complete(CompletionEntries(id, r.organizationId.value, a.store.orders[id], now))
    case AddEvidence(_, note) => Mutation.AddEvidence(note)
    case Approve(_) => Mutation.Approve
  }

  function KindOf(m: Mutation): Kind {
    match m
    case Assign(_) => Assigning
    case Start => Starting
    case Complete(_) => Completing
    case Reassign(_) => Reassigning
    case Unassign => Unassigning
    case Reopen => Reopening
    case AddEvidence(_) => Noting
    case Approve => Approving
  }

  /** The actions that drop the cached report; the others never touch a status. */
  predicate Invalidates(m: Mutation) {
    m.Assign? || m.Unassign? || m.Reopen? || m.Start? || m.Complete?
  }

  function DropKey(cache: map<int, CacheEntry>, organizationId: int, deleted: bool): map<int, CacheEntry> {
    if deleted then cache - {organizationId} else cache
  }

  /** The directory call of a mutating action and what follows it. */
  function Carry(a: Api, organizationId: int, id: int, m: Mutation, env: Env): (Api, Response) {
    var (store, reply) := TryMutate(a.store, id, m, env.now, env.save);
    var committed := !reply.Null? && !env.save.SaveThrew?;
    var log := if committed then a.log + multiset{Fact(id, KindOf(m))} else a.log;
    match reply
    case Null => (a.(store := store), Refused(BadRequest))
    case Raised => (a.(store := store, log := log), Failed)
    case Found(_, w) =>
      (a.(store := store, log := log,
          cache := if Invalidates(m) then DropKey(a.cache, organizationId, env.cacheDelete) else a.cache), Ok(w))
  }

  function HandleMutation(a: Api, r: Request, env: Env): (Api, Response)
    requires Mutates(r.action) && Authorize(a, r).None?
  {
    Carry(a, r.organizationId.value, r.action.id, MutationOf(a, r, env.now), env)
  }

  /** The directory call of Create and what follows it. */
  function CarryCreate(a: Api, w: WorkOrder, env: Env): (Api, Response) {
    var entries := CreationEntries(a.store.nextOrder, w.organizationId, w.title);
    var (store, reply) := TryCreate(a.store, w, entries, env.now, env.createSaves);
    var log := if Commits(env.createSaves) then a.log + multiset{Fact(a.store.nextOrder, Creating)} else a.log;
    if reply.Found? then
      (a.(store := store, log := log, cache := DropKey(a.cache, w.organizationId, env.cacheDelete)), Ok(w))
    else (a.(store := store, log := log), Failed)
  }

  function OrderOf(r: Request): WorkOrder
    requires r.action.Create? && r.organizationId.Some?
  {
    NewOrder(r.action.title, r.organizationId.value, r.action.customerId)
  }

  function HandleCreate(a: Api, r: Request, env: Env): (Api, Response)
    requires r.action.Create? && Authorize(a, r).None?
  {
    CarryCreate(a, OrderOf(r), env)
  }

  // ---------- the report ----------

  function InStatus(orders: map<int, WorkOrder>, organizationId: int, status: Status): set<int> {
    set id | id in orders && orders[id].organizationId == organizationId && orders[id].status == status
  }

  function Recompute(orders: map<int, WorkOrder>, organizationId: int): Report {
    Report(organizationId, |InStatus(orders, organizationId, Open)|, |InStatus(orders, organizationId, Assigned)|,
           |InStatus(orders, organizationId, InProgress)|, |InStatus(orders, organizationId, Completed)|)
  }

  /** Cache-aside: serve a live entry, otherwise recompute and store it for thirty seconds. */
  function GetStatusReport(a: Api, organizationId: int, env: Env): (Api, Response) {
    if !env.cacheGet then (a, Failed)
    else if organizationId in a.cache && env.now < a.cache[organizationId].expiresAt then
      (a, Reported(a.cache[organizationId].report))
    else
      var report := Recompute(a.store.orders, organizationId);
      var a' := if env.cacheSet.SaveThrew? then a
                else a.(cache := a.cache[organizationId := CacheEntry(report, env.now + CACHE_DURATION)]);
      (a', if env.cacheSet.Saved? then Reported(report) else Failed)
  }

  function Respond(a: Api, r: Request, env: Env): (Api, Response) {
    var error := Authorize(a, r);
    if error.Some? then (a, Refused(error.value))
    else if r.action.GetReport? then GetStatusReport(a, r.organizationId.value, env)
    else if r.action.Create? then HandleCreate(a, r, env)
    else HandleMutation(a, r, env)
  }

  // ---------- runs ----------

  /** An endpoint call is one step (`Handle`), or its checks and its directory call are two, with anything
      in between (`Check`, `Act`); a request that dies in between never acts. */
  datatype Event =
    | Handle(request: Request, env: Env)
    | Check(client: int, request: Request, now: int)
    | Act(client: int, env: Env)
    | Warm(organizationId: int, env: Env)                    // the cache warmer calls GetStatusReport
    | Hire(employeeId: int, organizationId: int)             // employees are only ever added, as members

  function SessionOf(a: Api, r: Request, now: int): Session
    requires !r.action.GetReport? && Authorize(a, r).None?
  {
    if r.action.Create? then Opening(OrderOf(r))
    else Changing(r.organizationId.value, r.action.id, MutationOf(a, r, now))
  }

  /** The directory call, whatever has happened since the checks. An assignment that finds the order no
      longer open drops the key before it fails on the null it did not expect. */
  function Carried(a: Api, s: Session, env: Env): Api {
    match s
    case Opening(w) => CarryCreate(a, w, env).0
    case Changing(org, id, m) =>
      var a' := Carry(a, org, id, m, env).0;
      if m.Assign? && !Possible(a.store, id, m) then a'.(cache := DropKey(a'.cache, org, env.cacheDelete)) else a'
  }

  function Apply(a: Api, e: Event): Api {
    match e
    case Handle(r, env) => Respond(a, r, env).0
    case Check(k, r, now) =>
      if r.action.GetReport? || Authorize(a, r).Some? then a
      else a.(sessions := a.sessions[k := SessionOf(a, r, now)])
    case Act(k, env) =>
      if k in a.sessions then Carried(a.(sessions := a.sessions - {k}), a.sessions[k], env) else a
    case Warm(org, env) => GetStatusReport(a, org, env).0
    case Hire(id, org) => if id in a.employees then a else a.(employees := a.employees[id := Employee(org, Member)])
  }

  function Run(a: Api, events: seq<Event>): Api
    decreases |events|
  {
    if events == [] then a else Apply(Run(a, events[..|events| - 1]), events[|events| - 1])
  }

  /** An empty work-order database next to any employees and customers. */
  function Initial(employees: map<int, Employee>, customers: map<int, int>): Api {
    Api(EMPTY, employees, customers, map[], map[], multiset{})
  }

  ghost predicate Reachable(a: Api) {
    exists employees, customers, events :: Run(Initial(employees, customers), events) == a
  }
}
