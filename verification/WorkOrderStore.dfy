/** The work-order tables and the guarded mutations of EfWorkOrderDirectory. */
module WorkOrderStore {
  import opened Common
  import opened Domain

  /** Committed rows. Identity values are never reused, not even those of a rolled-back insert. */
  datatype Store = Store(orders: map<int, WorkOrder>, outbox: seq<OutboxRow>, nextOrder: nat, nextRow: nat)

  datatype Mutation =
    | Assign(employeeId: int)
    | Start
    | Complete(entries: seq<Entry>)
    | Reassign(newEmployeeId: int)
    | Unassign
    | Reopen
    | AddEvidence(note: string)
    | Approve

  /** What a directory method hands back: a summary, null, or an exception. */
  datatype Reply = Found(id: int, order: WorkOrder) | Null | Raised

  /** The lifecycle: which states each mutation accepts. */
  predicate Accepts(status: Status, m: Mutation) {
    match m
    case Assign(_) => status.Open?
    case Start => status.Assigned?
    case Complete(_) => status.InProgress?
    case Reassign(_) => status.Assigned? || status.InProgress?
    case Unassign => status.Assigned? || status.InProgress?
    case Reopen => status.Completed?
    case AddEvidence(_) => !status.Open?
    case Approve => status.Completed?
  }

  function Applied(w: WorkOrder, m: Mutation): WorkOrder {
    match m
    case Assign(e) => w.(status := Assigned, assignedEmployeeId := Some(e))
    case Start => w.(status := InProgress)
    case Complete(_) => w.(status := Completed)
    case Reassign(e) => w.(assignedEmployeeId := Some(e))
    case Unassign => w.(status := Open, assignedEmployeeId := None)
    case Reopen => w.(status := InProgress)
    case AddEvidence(note) => w.(evidenceNotes := w.evidenceNotes + [note])
    case Approve => w.(customerApproved := true)
  }

  function EntriesOf(m: Mutation): seq<Entry> {
    if m.Complete? then m.entries else []
  }

  function Rows(entries: seq<Entry>, first: nat, now: int): seq<OutboxRow> {
    seq(|entries|, i requires 0 <= i < |entries| => OutboxRow(first + i, entries[i], now, None))
  }

  function WithRows(s: Store, entries: seq<Entry>, now: int): Store {
    s.(outbox := s.outbox + Rows(entries, s.nextRow, now), nextRow := s.nextRow + |entries|)
  }

  predicate Possible(s: Store, id: int, m: Mutation) {
    id in s.orders && Accepts(s.orders[id].status, m)
  }

  /** The committed effect: the row change and its outbox rows in one unit. */
  function Mutated(s: Store, id: int, m: Mutation, now: int): Store
    requires Possible(s, id, m)
  {
    WithRows(s.(orders := s.orders[id := Applied(s.orders[id], m)]), EntriesOf(m), now)
  }

  function TryMutate(s: Store, id: int, m: Mutation, now: int, save: Save): (Store, Reply) {
    if !Possible(s, id, m) then (s, Null)
    else
      match save
      case Saved => (Mutated(s, id, m, now), Found(id, Applied(s.orders[id], m)))
      case SaveThrew => (s.(nextRow := s.nextRow + |EntriesOf(m)|), Raised)
      case SaveThrewAfterCommit => (Mutated(s, id, m, now), Raised)
  }

  function NewOrder(title: string, organizationId: int, customerId: Option<int>): WorkOrder {
    WorkOrder(title, organizationId, Open, None, [], customerId, false)
  }

  function Created(s: Store, w: WorkOrder, entries: seq<Entry>, now: int): Store {
    WithRows(s.(orders := s.orders[s.nextOrder := w], nextOrder := s.nextOrder + 1), entries, now)
  }

  /** How Create's two SaveChanges calls and its commit end. */
  datatype CreateSaves = CreateSaves(insert: Save, outbox: Save, commit: Save)

  /** Whether Create's transaction reached the database: both saves went through and so did the commit. */
  predicate Commits(f: CreateSaves) {
    f.insert.Saved? && f.outbox.Saved? && !f.commit.SaveThrew?
  }

  function TryCreate(s: Store, w: WorkOrder, entries: seq<Entry>, now: int, f: CreateSaves): (Store, Reply) {
    if Commits(f) then
      (Created(s, w, entries, now), if f.commit.Saved? then Found(s.nextOrder, w) else Raised)
    else
      (s.(nextOrder := s.nextOrder + 1, nextRow := s.nextRow + if f.insert.Saved? then |entries| else 0), Raised)
  }

  /** Marks rows published, each with its own time. */
  function MarkRows(rows: seq<OutboxRow>, marks: map<nat, int>): (r: seq<OutboxRow>)
    ensures |r| == |rows|
  {
    seq(|rows|, i requires 0 <= i < |rows| =>
      if rows[i].id in marks then rows[i].(publishedAt := Some(marks[rows[i].id])) else rows[i])
  }

  /** Row ids are positive identity values in increasing order. */
  ghost predicate IdsIncrease(s: Store) {
    && (forall i :: 0 <= i < |s.outbox| ==> 0 < s.outbox[i].id < s.nextRow)
    && (forall i, j :: 0 <= i < j < |s.outbox| ==> s.outbox[i].id < s.outbox[j].id)
    && (forall id :: id in s.orders ==> 0 < id < s.nextOrder)
    && s.nextRow > 0 && s.nextOrder > 0
  }

  const EMPTY := Store(map[], [], 1, 1)

  // ---------- the directory as written ----------

  lemma Inhabited(s: set<int>)
    ensures s == {} || exists x :: x in s
  {
    if forall x :: x !in s { assert s == {}; }
  }

  class EfWorkOrderDirectory {
    var orders: map<int, WorkOrder>
    var outbox: seq<OutboxRow>
    var nextOrder: nat
    var nextRow: nat

    constructor ()
      ensures Value() == EMPTY
    {
      orders, outbox, nextOrder, nextRow := map[], [], 1, 1;
    }

    function Value(): Store
      reads this
    {
      Store(orders, outbox, nextOrder, nextRow)
    }

    method GetById(id: int) returns (order: Option<WorkOrder>)
      ensures order == if id in orders then Some(orders[id]) else None
    {
      order := if id in orders then Some(orders[id]) else None;
    }

    /** Every row once, in no particular order. */
    method GetAll() returns (all: seq<(int, WorkOrder)>)
      ensures forall k :: 0 <= k < |all| ==> all[k].0 in orders && all[k].1 == orders[all[k].0]
      ensures forall id :: id in orders ==> (id, orders[id]) in all
      ensures forall i, j :: 0 <= i < j < |all| ==> all[i].0 != all[j].0
    {
      all := [];
      var left := orders.Keys;
      while left != {}
        invariant left <= orders.Keys
        invariant forall k :: 0 <= k < |all| ==> all[k].0 in orders && all[k].0 !in left && all[k].1 == orders[all[k].0]
        invariant forall id :: id in orders ==> id in left || (id, orders[id]) in all
        invariant forall i, j :: 0 <= i < j < |all| ==> all[i].0 != all[j].0
        decreases |left|
      {
        Inhabited(left);
        var id :| id in left;
        left := left - {id};
        all := all + [(id, orders[id])];
      }
    }

    /** Turns tracked outbox entries into rows, as SaveChanges inserts them. */
    method InsertRows(entries: seq<Entry>, now: int)
      modifies this`outbox, this`nextRow
      ensures Value() == WithRows(old(Value()), entries, now)
    {
      var first := nextRow;
      ghost var before := outbox;
      for i := 0 to |entries|
        invariant nextRow == first + i
        invariant outbox == before + Rows(entries[..i], first, now)
      {
        outbox := outbox + [OutboxRow(nextRow, entries[i], now, None)];
        nextRow := nextRow + 1;
        assert Rows(entries[..i + 1], first, now) ==
               Rows(entries[..i], first, now) + [OutboxRow(first + i, entries[i], now, None)];
      }
      assert entries[..|entries|] == entries;
    }

    /** One SaveChanges call committing a changed order together with its outbox entries. */
    method SaveChanges(id: int, order: WorkOrder, entries: seq<Entry>, now: int, save: Save) returns (r: Reply)
      modifies this
      ensures var s := old(Value()).(orders := old(orders)[id := order]);
              Value() == if save.SaveThrew? then old(Value()).(nextRow := old(nextRow) + |entries|)
              else WithRows(s, entries, now)
      ensures r == if save.Saved? then Found(id, order) else Raised
    {
      if save.SaveThrew? {
        nextRow := nextRow + |entries|;
        return Raised;
      }
      orders := orders[id := order];
      InsertRows(entries, now);
      r := if save.Saved? then Found(id, order) else Raised;
    }

    method Create(title: string, organizationId: int, customerId: Option<int>, buildOutboxEntries: int -> seq<Entry>,
                  now: int, f: CreateSaves) returns (r: Reply)
      modifies this
      ensures (Value(), r) == TryCreate(old(Value()), NewOrder(title, organizationId, customerId),
                                                    buildOutboxEntries(old(nextOrder)), now, f)
    {
      // BeginTransaction: what a rollback returns to.
      var orders0, outbox0 := orders, outbox;
      var id := nextOrder;
      var workOrder := WorkOrder(title, organizationId, Open, None, [], customerId, false);
      nextOrder := nextOrder + 1;
      orders := orders[id := workOrder];
      if !f.insert.Saved? {
        orders := orders0;
        return Raised;
      }
      InsertRows(buildOutboxEntries(id), now);
      if !f.outbox.Saved? || f.commit.SaveThrew? {
        orders, outbox := orders0, outbox0;
        return Raised;
      }
      r := if f.commit.Saved? then Found(id, workOrder) else Raised;
    }

    method Assign(workOrderId: int, employeeId: int, now: int, save: Save) returns (r: Reply)
      modifies this
      ensures (Value(), r) == TryMutate(old(Value()), workOrderId, Mutation.Assign(employeeId), now, save)
    {
      if workOrderId !in orders || orders[workOrderId].status != Open { return Null; }
      var workOrder := orders[workOrderId].(status := Assigned);
      workOrder := workOrder.(assignedEmployeeId := Some(employeeId));
      r := SaveChanges(workOrderId, workOrder, [], now, save);
    }

    method Start(workOrderId: int, now: int, save: Save) returns (r: Reply)
      modifies this
      ensures (Value(), r) == TryMutate(old(Value()), workOrderId, Mutation.Start, now, save)
    {
      if workOrderId !in orders || orders[workOrderId].status != Assigned { return Null; }
      var workOrder := orders[workOrderId].(status := InProgress);
      r := SaveChanges(workOrderId, workOrder, [], now, save);
    }

    method Complete(workOrderId: int, outboxEntries: seq<Entry>, now: int, save: Save) returns (r: Reply)
      modifies this
      ensures (Value(), r) == TryMutate(old(Value()), workOrderId, Mutation.Complete(outboxEntries), now, save)
    {
      if workOrderId !in orders || orders[workOrderId].status != InProgress { return Null; }
      var workOrder := orders[workOrderId].(status := Completed);
      r := SaveChanges(workOrderId, workOrder, outboxEntries, now, save);
    }

    method Reassign(workOrderId: int, newEmployeeId: int, now: int, save: Save) returns (r: Reply)
      modifies this
      ensures (Value(), r) == TryMutate(old(Value()), workOrderId, Mutation.Reassign(newEmployeeId), now, save)
    {
      if workOrderId !in orders
         || (orders[workOrderId].status != Assigned && orders[workOrderId].status != InProgress) {
        return Null;
      }
      var workOrder := orders[workOrderId].(assignedEmployeeId := Some(newEmployeeId));
      r := SaveChanges(workOrderId, workOrder, [], now, save);
    }

    method Unassign(workOrderId: int, now: int, save: Save) returns (r: Reply)
      modifies this
      ensures (Value(), r) == TryMutate(old(Value()), workOrderId, Mutation.Unassign, now, save)
    {
      if workOrderId !in orders
         || (orders[workOrderId].status != Assigned && orders[workOrderId].status != InProgress) {
        return Null;
      }
      var workOrder := orders[workOrderId].(status := Open);
      workOrder := workOrder.(assignedEmployeeId := None);
      r := SaveChanges(workOrderId, workOrder, [], now, save);
    }

    method Reopen(workOrderId: int, now: int, save: Save) returns (r: Reply)
      modifies this
      ensures (Value(), r) == TryMutate(old(Value()), workOrderId, Mutation.Reopen, now, save)
    {
      if workOrderId !in orders || orders[workOrderId].status != Completed { return Null; }
      var workOrder := orders[workOrderId].(status := InProgress);
      r := SaveChanges(workOrderId, workOrder, [], now, save);
    }

    method AddEvidence(workOrderId: int, note: string, now: int, save: Save) returns (r: Reply)
      modifies this
      ensures (Value(), r) == TryMutate(old(Value()), workOrderId, Mutation.AddEvidence(note), now, save)
    {
      if workOrderId !in orders || orders[workOrderId].status == Open { return Null; }
      var workOrder := orders[workOrderId].(evidenceNotes := orders[workOrderId].evidenceNotes + [note]);
      r := SaveChanges(workOrderId, workOrder, [], now, save);
    }

    method Approve(workOrderId: int, now: int, save: Save) returns (r: Reply)
      modifies this
      ensures (Value(), r) == TryMutate(old(Value()), workOrderId, Mutation.Approve, now, save)
    {
      if workOrderId !in orders || orders[workOrderId].status != Completed { return Null; }
      var workOrder := orders[workOrderId].(customerApproved := true);
      r := SaveChanges(workOrderId, workOrder, [], now, save);
    }
  }
}
