/** The entities FieldOps passes between its modules. */
module Domain {
  import opened Common

  datatype Status = Open | Assigned | InProgress | Completed

  datatype WorkOrder = WorkOrder(
    title: string,
    organizationId: int,
    status: Status,
    assignedEmployeeId: Option<int>,
    evidenceNotes: seq<string>,
    customerId: Option<int>,
    customerApproved: bool)

  datatype CompletedEvent = CompletedEvent(
    workOrderId: int,
    organizationId: int,
    customerId: Option<int>,
    title: string,
    completedAt: int)

  datatype SearchDocument = SearchDocument(id: int, organizationId: int, title: string, status: Status)

  /** An outbox entry after reading its event type and JSON payload. `Unreadable` stands for every
      row the publisher cannot act on: an unknown event type, a JSON null, or malformed JSON. */
  datatype Entry = Completion(event: CompletedEvent) | Indexing(document: SearchDocument) | Unreadable

  datatype OutboxRow = OutboxRow(id: nat, entry: Entry, createdAt: int, publishedAt: Option<int>)

  datatype Role = Admin | Member

  datatype Employee = Employee(organizationId: int, role: Role)

  /** How one SaveChanges call ends: committed, refused before the commit, or committed with the
      reply lost, so that the caller sees an exception for a change that is in the database. */
  datatype Save = Saved | SaveThrew | SaveThrewAfterCommit
}
