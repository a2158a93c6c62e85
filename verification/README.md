# FieldOps and StockPilot: verified models

FieldOps lets an organization's employees work through work orders. Completing one must reach two
independent event consumers ("audit" in the API process, "notifications" in its own service), a search
index, and a cached status report. This project models that path and proves what holds over every run of
it, with a fault possible at every await and a crash possible between any two steps. StockPilot's product
store, the second and smaller part, is modelled with interleaved clients.

Modules, from the inside out:

- `Consumer`: one event consumer as a state machine whose steps are single awaits. `ConsumerHost`: several
  of them over one broker and one pair of inbox tables. `EventConsumers`: the consumer class as written,
  proved to take exactly those steps. The API and the notification service hold two copies of this code;
  both are instances of the one class here, with their own names and stores. `Backoff`: the connect loop.
- `WorkOrderStore`: the lifecycle and its transactional outbox rows. `Api`: the endpoints as functions.
  `ApiTheorems`: what every run of them keeps. `Endpoints`: who may do what, and what becomes of an order, for
  every request in every state and every change in every run. `WorkOrdersApi`: the services and the
  controller as written. `Staleness`: the report cache when nothing about it is atomic.
- `Outbox` and `OutboxPublishing`: the publisher's tick and its loop. `SearchIndex` and `SearchIndexing`: the
  search copy and its rebuild.
- `Pipeline`: all of it as one system, and the end-to-end safety theorems. `TickRuns`: what a tick has left in
  every run. `Recovery`: from every state of every run, work without further faults ends, and ends with
  everything delivered. `IndexOrder`: whose document the index holds, and exactly when it is the newest.
  `IndexRuns`: three runs in which it is not. `RebuildRuns`: what a rebuild leaves when everything else goes on.
- `Products`, `ProductsApi`, `Paging`: StockPilot. `Sorting`, `Common`, `Domain`: shared.

How things are modelled:

- An await ends normally, raises without having taken effect, or raises after taking effect. Marking the
  inbox may also swallow a database exception and leave no row. A save ends the same three ways.
- The broker keeps, per consumer, a ready queue, copies handed over and neither acked nor nacked, and a
  dead-letter queue that exists once declared. A lost connection and a dead process both return what was
  handed over. Deliveries to one consumer are sequential, in any order.
- Each directory method is one step; there is no concurrency token on work orders. An endpoint call is one
  step too, or its checks and its directory call are two steps with anything in between.
  A process that dies inside a transaction rolls it back, like a save that raises without effect; one that
  dies between the commit and the key delete is a delete that never happens.
- Counts of what has happened (`History`, `log`, `sent`, `writes`) are read by no step.
- Methods of the classes state their whole new state through the function that models them; the lemmas are
  about those functions.

Where the code and its own comments differ, the code is modelled:

- The connect loop is commented as being re-entered when a connection is lost later. It is not: once
  subscribed, the loop waits for cancellation only (`src/FieldOps.Api/Application/EventConsumerBase.cs:49-57`
  against `:171`). The reset of the wait at line 169 therefore never matters. Reconnecting is left to the client
  library and appears in the model as the event `ConnectionLost`.
- The outbox publisher is commented as losing nothing to an outage. That is proved for completion events.
  For the index it is true of delivery but not of order: see `IndexRuns`.
- `WorkOrderReportService` still carries a comment saying there is no active invalidation
  (`src/FieldOps.Api/Application/WorkOrderReportService.cs:8-12`); there is.

## Model

| member | source | states |
|---|---|---|
| Pipeline.NoCompletionLost | src/FieldOps.Api/Application/OutboxPublisher.cs:59-109 | In every state of every run of the whole system, with faults at every await and crashes anywhere, each committed completion row is still unpublished, or a message carrying it was put on the exchange and, at each of the two consumers, is with the broker, was handled (this copy or one with the same id and body), or is in that consumer's dead-letter queue |
| Pipeline.MessageIsKept | src/FieldOps.Api/Application/EventConsumerBase.cs:104-153 | The same for every single message ever put on the exchange, at each consumer |
| Pipeline.CompletionHandledOnce | src/FieldOps.Api/Application/EventConsumerBase.cs:109-134 | Per completion row and consumer, over republication and redelivery: successful handler runs are at most one plus the faults between a handler's return and its inbox row, and requeues at most two |
| Pipeline.HandledEventsAreTrue | src/FieldOps.Api/Controllers/WorkOrdersController.cs:431-453 | Every message that reaches a consumer has a non-empty id shared by no message with another body, and carries the id, organization, customer and title a completed work order still has |
| Pipeline.MarkedMeansSent | src/FieldOps.Api/Application/OutboxPublisher.cs:75-76 | In every state of every run a row marked published has been handed over |
| Pipeline.LedgerInEveryState | src/FieldOps.Modules.WorkOrders/Data/EfWorkOrderDirectory.cs:183-191 | Publishing and marking never disturb the ledger: as many completion rows as committed completions, per work order, in every state of the whole system |
| Pipeline.IndexIsSound | src/FieldOps.Api/Application/ElasticsearchWorkOrderSearchIndex.cs:50-74 | In every state of every run each indexed document has the id, organization and title of a real work order and is filed under that id |
| Pipeline.BothConsume | src/FieldOps.Api/Application/RabbitMqEventPublisher.cs:68-74 | Each consumer has been given exactly the messages put on the exchange, once each, and is in a state it could have reached alone |
| Pipeline.Origin | src/FieldOps.Api/Application/OutboxPublisher.cs:67-76 | Every message comes from a row of the outbox table and carries that row's id and event |
| Pipeline.SameMessageId | src/FieldOps.Api/Application/OutboxPublisher.cs:75 | Two rows whose messages share an id are one row |
| Pipeline.EndpointKeepsInv | src/FieldOps.Api/Controllers/WorkOrdersController.cs:165-595 | No endpoint call breaks the whole-system invariant, whether it is one step or its checks and its directory call are two with anything in between |
| Pipeline.RebuildKeepsInv | src/FieldOps.Api/Application/ElasticsearchWorkOrderSearchIndex.cs:145-168 | No step of a rebuild (its start, its delete, each of its upserts, its end, each failing or not) breaks the whole-system invariant, whatever ticks, commits and other rebuilds fall between the steps |
| Pipeline.RebuildTouchesItsOwn | src/FieldOps.Api/Application/ElasticsearchWorkOrderSearchIndex.cs:147-158 | No step of a rebuild changes a document of another organization's order, in any state of any run |
| Pipeline.UninterruptedIsReadd | src/FieldOps.Api/Application/ElasticsearchWorkOrderSearchIndex.cs:164-167 | With nothing in between, the steps after the delete are the re-adding loop of SearchIndex.RebuildIsExact |
| Pipeline.TickAttemptKeepsInv | src/FieldOps.Api/Application/OutboxPublisher.cs:67-94 | Handing a row over, with any outcome, keeps the whole-system invariant |
| Pipeline.TickMarkKeepsInv | src/FieldOps.Modules.WorkOrders/Data/EfWorkOrderDirectory.cs:183-191 | Marking a row, with any outcome and together with marks left pending by earlier failed saves, keeps the whole-system invariant |
| Pipeline.ConsumeKeepsInv | src/FieldOps.Api/Application/EventConsumerBase.cs:87-154 | No step of a consumer, its connection or its process breaks the whole-system invariant |
| Common.DecimalInjective | src/FieldOps.Api/Application/OutboxPublisher.cs:75 | Different row ids become different message ids |
| Common.DecimalParses | src/FieldOps.Api/Application/OutboxPublisher.cs:75 | A message id is the row id in decimal digits: it parses back, and has no leading zero |
| Recovery.EveryScheduleSettles | src/FieldOps.Api/Application/OutboxPublisher.cs:13-50 | Whatever faults and crashes a run has been through: however the publisher and the two consumers go on from there without new faults and new requests, tick after tick and in whatever order, they take at most as many steps as a bound computed from the state they start in; and wherever no step is left, every outbox row is published and every completion has been handled or dead-lettered at both consumers |
| Recovery.EveryRunCanSettle | src/FieldOps.Api/Application/OutboxPublisher.cs:13-18 | In particular every run can be continued to such an end |
| Recovery.ScheduleIsBounded | src/FieldOps.Api/Application/OutboxPublisher.cs:36-50 | The bound holds at every point of every such schedule: the steps taken and the effort still left never exceed the effort there was |
| Recovery.StuckIsSettled | src/FieldOps.Api/Application/OutboxPublisher.cs:52-110 | In any state of any run in which neither the publisher nor a consumer has anything left to do, everything is settled |
| Recovery.TickPays | src/FieldOps.Api/Application/OutboxPublisher.cs:59-109 | Each faultless step of the publisher lowers its backlog, from any state of any run: a mark always publishes a row, whatever earlier failed saves left pending |
| TickRuns.FaultlessTickPublishesAll | src/FieldOps.Api/Application/OutboxPublisher.cs:59-109 | From any state of any run, with endpoints, consumers and rebuilds going on meanwhile: a tick without faults of its own publishes every row there was when it began, and each of them has been handed over |
| TickRuns.RunKeepsTodo | src/FieldOps.Modules.WorkOrders/Data/EfWorkOrderDirectory.cs:174-191 | In every state of every run, whatever hand-overs, marks and saves have failed: each row the running tick still has to do is in the table, unpublished, not among the pending marks, and in order of creation time |
| Recovery.ConsumePays | src/FieldOps.Api/Application/EventConsumerBase.cs:87-154 | In the whole system a consumer's delivery, await without fault, or reconnection with copies stuck lowers the toil left and touches neither the other consumer nor the publisher |
| Recovery.SendCosts | src/FieldOps.Api/Application/RabbitMqEventPublisher.cs:48-49 | A hand-over adds at most one message to each consumer's toil |
| Consumer.NoSilentLoss | src/FieldOps.Api/Application/EventConsumerBase.cs:104-153 | One consumer, every run: arrived copies are exactly those in custody plus those released, and each released copy with an id was handled (or a copy with its id was), had no event to handle, or is in the dead-letter queue |
| Consumer.BoundedDuplication | src/FieldOps.Api/Application/EventConsumerBase.cs:109-134 | For every non-empty id, handler runs are bounded by one for the inbox row plus the faults that hit between the handler's return and that row; without such a fault the handler succeeds at most once |
| Consumer.RequeuedAtMostTwice | src/FieldOps.Api/Application/EventConsumerBase.cs:233-240 | Over a whole run, crashes and redeliveries included, an id is requeued at most twice |
| Consumer.DeadLettersAreExhausted | src/FieldOps.Api/Application/EventConsumerBase.cs:242-259 | Whatever is in the dead-letter queue arrived at this consumer and its id has at least 3 recorded failures |
| Consumer.RecordDecides | src/FieldOps.Api/Application/EventConsumerBase.cs:233-247 | From any state, a failure recorded without a fault leads to the requeue iff fewer than 2 were recorded before, and to the dead-letter queue otherwise |
| Consumer.FailuresAreRecorded | src/FieldOps.Api/Application/EventConsumerBase.cs:137-153 | From any state, control enters the failure path iff an await of the try block raises: a failed look-up, a handler exception, a malformed body, a mark that raises, an ack that raises |
| Consumer.FaultsLeave | src/FieldOps.Api/Application/EventConsumerBase.cs:104-261 | From any state: an exception that comes after an await's effect leaves the inbox, the counters, the dead-letter queue and the ready queue as success does; any other exception leaves them as they were |
| Consumer.FailurePathFaults | src/FieldOps.Api/Application/EventConsumerBase.cs:148-151 | From any state: a fault in the failure path ends the callback at once, and a copy the broker still holds stays unacknowledged |
| Consumer.QueueDrains | src/FieldOps.Api/Application/EventConsumerBase.cs:223-261 | While the failure handler itself does not fault, k ready copies with ids among n take at most k + 2n deliveries, in whatever order, and none of them leaves a copy stuck without an ack or nack |
| Consumer.DrainedIsEmpty | src/FieldOps.Api/Application/EventConsumerBase.cs:223-261 | When such a run has no step left the queue is empty, the broker holds just the copies that were stuck before it, and every other copy that ever arrived is released and accounted for |
| Consumer.WorkPays | src/FieldOps.Api/Application/EventConsumerBase.cs:87-154 | Every delivery, every await that ends normally, and every reconnection with copies stuck lowers one natural number, from any reachable state |
| Consumer.NoWorkIsEmpty | src/FieldOps.Api/Application/EventConsumerBase.cs:87-154 | When none of these is possible nothing is in custody |
| Consumer.StepRanks | src/FieldOps.Api/Application/EventConsumerBase.cs:104-153 | Every await of a delivery brings the callback closer to its end |
| Consumer.StepKeepsInv | src/FieldOps.Api/Application/EventConsumerBase.cs:104-153 | One await, however it ends, keeps conservation, settlement, inbox backing, control, duplicate and requeue bounds |
| Consumer.CrashKeepsInv | src/FieldOps.Api/Application/EventConsumerBase.cs:104-153 | So does a crash between any two awaits |
| Consumer.ConnectionLostKeepsInv | src/FieldOps.Api/Application/EventConsumerBase.cs:87-88 | So does a connection lost during a delivery |
| Consumer.EffectReleases | src/FieldOps.Api/Application/EventConsumerBase.cs:134-259 | An await releases at most the copy in progress, and only when it is settled |
| Consumer.FlowReaches | src/FieldOps.Api/Application/EventConsumerBase.cs:104-153 | What each await leaves behind is what the program point after it relies on |
| ConsumerHost.IsolationIsNoCollision | src/FieldOps.Api/Application/EventQueueNaming.cs:16-29 | Two consumers share no queue, dead-letter queue, inbox row or counter if and only if neither name is the other or the other with `.dead-letter` appended |
| ConsumerHost.DeadNameIsQueueName | src/FieldOps.Api/Application/EventQueueNaming.cs:21-29 | One consumer's dead-letter queue is another's queue exactly when the other is named after it |
| ConsumerHost.NamesOnTheBroker | src/FieldOps.Api/Application/EventQueueNaming.cs:14-29 | The two queues and the two dead-letter queues by their full names |
| ConsumerHost.NonInterference | src/FieldOps.Api/Application/EventConsumerBase.cs:80-84 | What any interleaving of consumers with non-colliding names does to one of them, that one could have done alone |
| ConsumerHost.RunProjects | src/FieldOps.Api/Application/EventConsumerBase.cs:80-84 | Any interleaved run of consumers with non-colliding names, seen from one of them, is a run of that one alone on the events addressed to it |
| ConsumerHost.EachReachable | src/FieldOps.Api/Application/WorkOrderCompletedAuditConsumer.cs:12 | However audit and notifications interleave, each is in a state reachable alone, so each theorem about one consumer holds of both |
| ConsumerHost.FanoutArrives | src/FieldOps.Api/Application/RabbitMqEventPublisher.cs:48-49 | A published message arrives at every bound queue, and at no dead-letter queue |
| EventConsumers.EventConsumer.Received | src/FieldOps.Api/Application/EventConsumerBase.cs:87-154 | The callback, as sequenced awaits in nested try blocks, takes exactly the protocol's steps from any state and under any outcome of each await, and leaves every other consumer's queues and rows as they were |
| EventConsumers.EventConsumer.Process | src/FieldOps.NotificationService/EventConsumerBase.cs:74-101 | The try block, here cited in the notification service's copy: inbox check, handler, mark, ack, and where each failure leads |
| EventConsumers.EventConsumer.HandleDeliveryFailure | src/FieldOps.Api/Application/EventConsumerBase.cs:223-261 | The failure path: fail open without an id, otherwise count, requeue twice, then dead-letter and ack |
| EventConsumers.DeliveryTable | src/FieldOps.Api/Application/EventConsumerBase.cs:104-261 | A whole delivery from any state, when nothing fails but perhaps the handler, to the last field of the state it leaves: a known id is only acked; a handled event or a null is recorded in the inbox and acked; a failure is requeued the first two times its id fails and dead-lettered and acked the third; without an id it is acked |
| EventConsumers.EventConsumer.Check | src/FieldOps.Api/Application/EventConsumerBase.cs:109-109 | A message without an id is never looked up; a found one goes straight to the ack |
| EventConsumers.EventConsumer.Handle | src/FieldOps.Api/Application/EventConsumerBase.cs:117-122 | Malformed JSON raises, a JSON null is nothing to handle, an event runs the handler |
| EventConsumers.EventConsumer.Mark | src/FieldOps.Api/Application/EventConsumerBase.cs:128-131 | The inbox mark with its three outcomes: row, swallowed without a row, raised |
| EventConsumers.EventConsumer.Ack | src/FieldOps.Api/Application/EventConsumerBase.cs:134-134 | An ack that raises enters the failure path |
| EventConsumers.EventConsumer.LastAck | src/FieldOps.Api/Application/EventConsumerBase.cs:227-228 | Acks that end the callback |
| EventConsumers.EventConsumer.Record | src/FieldOps.Api/Application/EventConsumerBase.cs:233-235 | A recorded count below 3 decides for another chance, any other for giving up |
| EventConsumers.EventConsumer.Nack | src/FieldOps.Api/Application/EventConsumerBase.cs:240-240 | Nack with requeue puts the copy back, once |
| EventConsumers.EventConsumer.Declare | src/FieldOps.Api/Application/EventConsumerBase.cs:248-250 | Declaring the dead-letter queue keeps what is in it |
| EventConsumers.EventConsumer.PublishDeadLetter | src/FieldOps.Api/Application/EventConsumerBase.cs:251-257 | The copy is appended to this consumer's dead-letter queue |
| EventConsumers.EventConsumer.BasicDeliver | src/FieldOps.Api/Application/EventConsumerBase.cs:156-164 | A ready copy becomes the delivery in progress |
| EventConsumers.EventConsumer.constructor | src/FieldOps.NotificationService/EventConsumerBase.cs:24-24 | A consumer starts with nothing in flight; the notification service's copy of the protocol is this class with its own name and store |
| EventConsumers.InboxStore.RecordFailedAttempt | src/FieldOps.NotificationService/NotificationServiceInboxStore.cs:45-59 | The row is created on the first failure and incremented on each; an exception may hide the increment |
| EventConsumers.Broker.QueueDeclare | src/FieldOps.Api/Application/EventConsumerBase.cs:249-250 | Declaring is idempotent |
| EventConsumers.DriveIsRun | src/FieldOps.Api/Application/EventConsumerBase.cs:87-154 | A delivery run to its end is a run of the protocol |
| WorkOrderStore.EfWorkOrderDirectory.Create | src/FieldOps.Modules.WorkOrders/Data/EfWorkOrderDirectory.cs:30-53 | Two saves in one transaction: the order and its outbox rows are both there or neither is, whichever save or commit fails |
| WorkOrderStore.EfWorkOrderDirectory.Assign | src/FieldOps.Modules.WorkOrders/Data/EfWorkOrderDirectory.cs:55-67 | Open only; sets status and assignee |
| WorkOrderStore.EfWorkOrderDirectory.Start | src/FieldOps.Modules.WorkOrders/Data/EfWorkOrderDirectory.cs:69-80 | Assigned only |
| WorkOrderStore.EfWorkOrderDirectory.Complete | src/FieldOps.Modules.WorkOrders/Data/EfWorkOrderDirectory.cs:82-106 | InProgress only; the status and the outbox rows in one save |
| WorkOrderStore.EfWorkOrderDirectory.Reassign | src/FieldOps.Modules.WorkOrders/Data/EfWorkOrderDirectory.cs:108-119 | Assigned or InProgress; only the assignee changes |
| WorkOrderStore.EfWorkOrderDirectory.Unassign | src/FieldOps.Modules.WorkOrders/Data/EfWorkOrderDirectory.cs:121-133 | Assigned or InProgress; back to Open with nobody |
| WorkOrderStore.EfWorkOrderDirectory.Reopen | src/FieldOps.Modules.WorkOrders/Data/EfWorkOrderDirectory.cs:135-146 | Completed only; back to InProgress, approval and assignee kept |
| WorkOrderStore.EfWorkOrderDirectory.AddEvidence | src/FieldOps.Modules.WorkOrders/Data/EfWorkOrderDirectory.cs:148-159 | Not when Open; appends the note |
| WorkOrderStore.EfWorkOrderDirectory.Approve | src/FieldOps.Modules.WorkOrders/Data/EfWorkOrderDirectory.cs:161-172 | Completed only; sets the flag |
| WorkOrderStore.EfWorkOrderDirectory.GetAll | src/FieldOps.Modules.WorkOrders/Data/EfWorkOrderDirectory.cs:19-22 | Every row once |
| WorkOrderStore.EfWorkOrderDirectory.InsertRows | src/FieldOps.Modules.WorkOrders/Data/EfWorkOrderDirectory.cs:45-48 | The entries become unpublished rows with consecutive new ids, in order |
| WorkOrderStore.EfWorkOrderDirectory.SaveChanges | src/FieldOps.Modules.WorkOrders/Data/EfWorkOrderDirectory.cs:104-105 | One save: change and rows together, nothing, or both behind an exception |
| ApiTheorems.WorkOrderLedger | src/FieldOps.Modules.WorkOrders/Data/EfWorkOrderDirectory.cs:30-146 | In every run, per work order: completions minus reopenings is 1 if Completed else 0, assignments minus unassignments 0 if Open else 1, completion rows are as many as completions and index rows one more; Open iff unassigned; as many notes as were added; approval implies an earlier completion |
| ApiTheorems.ApplyCommits | src/FieldOps.Api/Controllers/WorkOrdersController.cs:165-595 | A request that is refused, or whose save does not commit, changes no row and announces nothing; any other changes exactly one order and appends exactly its rows, and only what its checks vouch for, even if they were made long before |
| ApiTheorems.ApplyKeepsSessions | src/FieldOps.Api/Application/WorkOrderAssignmentService.cs:22-69 | What a request's checks have established (the order, its organization, the employee, the customer, the fields its event announces) still holds when its directory call comes, whatever happens in between |
| ApiTheorems.ActAnswersNullIff | src/FieldOps.Modules.WorkOrders/Data/EfWorkOrderDirectory.cs:55-172 | With the checks and the call apart, the directory answers null exactly if the order's status no longer admits the change |
| ApiTheorems.RecordsEvolve | src/FieldOps.Modules.WorkOrders/Data/EfWorkOrderDirectory.cs:55-172 | Whatever happens later: organization, customer and title stay, evidence only grows at its end, approval is never withdrawn, outbox rows stay |
| ApiTheorems.ReferentialIntegrity | src/FieldOps.Api/Controllers/WorkOrdersController.cs:196-215 | In every state reachable through the endpoints a set assignee is an employee of the order's own organization and a set customer a customer of it |
| ApiTheorems.AnnouncementsAreTrue | src/FieldOps.Api/Controllers/WorkOrdersController.cs:431-453 | Every outbox row announces a work order that exists under its present id, organization, customer and title, and a completion row one that was completed |
| ApiTheorems.AssignmentNeverNull | src/FieldOps.Api/Application/WorkOrderAssignmentService.cs:30-68 | With nothing in between, after AssignWorkOrder's and ReassignWorkOrder's own checks the directory never answers null; the request succeeds exactly if the save does |
| ApiTheorems.CacheCoherence | src/FieldOps.Api/Application/WorkOrderReportService.cs:28-52 | With every directory call and its key delete one step, no lost delete and no save committed behind an exception, any report served counts the work orders as they are, status by status; checks may be made at any earlier time |
| ApiTheorems.RecomputeCounts | src/FieldOps.Api/Application/WorkOrderReportService.cs:43-48 | Each of the four counts is the number of the organization's orders in that status |
| ApiTheorems.CountsAddUp | src/FieldOps.Api/Application/WorkOrderReportService.cs:43-48 | The four counts add up to the organization's orders |
| ApiTheorems.CoherenceNeedsTheDrop | src/FieldOps.Api/Controllers/WorkOrdersController.cs:212-216 | After any committed status change, or committed creation, in an organization whose report is cached, the cache is coherent if and only if the save's reply arrived and the key was then deleted |
| ApiTheorems.CreationEntersItsCount | src/FieldOps.Api/Application/WorkOrderReportService.cs:43-45 | Creating an order changes the report |
| ApiTheorems.AuthorizedIsChecked | src/FieldOps.Api/Controllers/WorkOrdersController.cs:625-686 | Every accepted request acts on an order of the caller's own organization, which is why the right key is dropped |
| Endpoints.MutationTable | src/FieldOps.Api/Controllers/WorkOrdersController.cs:236-595 | Every mutating endpoint, from any state, in terms of roles, organizations, assignees and statuses: 403 exactly for a stranger to the organization, a non-admin where only admins may, anyone but the assignee where only the assignee may (Start, Complete, AddEvidence), anyone but the order's customer for Approve; refused otherwise exactly if the order or employee is not there or the status is not one the change is for; a success changes that one order, field by field as the lifecycle says, announces exactly a completion, answers the changed order, and drops the cached report exactly for the five status changes |
| Endpoints.CreateTable | src/FieldOps.Api/Controllers/WorkOrdersController.cs:165-217 | Create, from any state: who may, and that either one open unassigned order under the next id and one index row are there, or nothing is |
| Endpoints.ReportTable | src/FieldOps.Api/Application/WorkOrderReportService.cs:28-52 | The report, from any state: a live entry is served as it is; otherwise the four counts are the numbers of the organization's orders that are Open, Assigned, InProgress and Completed, kept for 30 seconds |
| Endpoints.WarmingIsReporting | src/FieldOps.Api/Application/WorkOrderReportCacheWarmer.cs:73 | The cache warmer does to the cache what a permitted request for that organization's report does |
| Endpoints.CheckTable | src/FieldOps.Api/Controllers/WorkOrdersController.cs:236-595 | The checks alone let a request go on exactly if it is permitted then, and keep what it asked for |
| Endpoints.ActTable | src/FieldOps.Modules.WorkOrders/Data/EfWorkOrderDirectory.cs:55-172 | The directory call alone, whatever happened since: exactly what was asked for if the status is one the change is for, otherwise nothing |
| Endpoints.ChangeHappens | src/FieldOps.Modules.WorkOrders/Data/EfWorkOrderDirectory.cs:55-172 | The directory's methods: null exactly if there is no such order or its status is not one the change is for; otherwise the order with literally these fields changed, or nothing if the save raised before the commit |
| Endpoints.EveryChangeIsPermitted | src/FieldOps.Api/Controllers/WorkOrdersController.cs:625-686 | Every change of every order in every run was asked for by somebody who was permitted to when it was checked, and is just what was asked for |
| Endpoints.EveryOrderWasRequested | src/FieldOps.Api/Controllers/WorkOrdersController.cs:196-215 | Every order came into being open and unassigned, as a permitted request described it |
| Endpoints.StatusFollowsEdges | src/FieldOps.Modules.WorkOrders/Data/EfWorkOrderDirectory.cs:55-146 | In every run each step takes a status along one of six edges or leaves it: Open to Assigned, Assigned to InProgress, InProgress to Completed, Completed to InProgress, and Assigned or InProgress to Open |
| Endpoints.SessionsWereChecked | src/FieldOps.Api/Application/WorkOrderAssignmentService.cs:22-69 | Every pending request was checked at an earlier step, was permitted then, and is still what it asked for then |
| Endpoints.AdminsAreFromTheStart | src/FieldOps.Api/Controllers/WorkOrdersController.cs:602-617 | Whoever is an admin in any state of a run was one at its start |
| ApiTheorems.StatusLeavesItsCount | src/FieldOps.Api/Application/WorkOrderReportService.cs:43-48 | Changing a status changes the report |
| ApiTheorems.MutationElsewhere | src/FieldOps.Api/Application/WorkOrderReportService.cs:54-56 | A mutation leaves another organization's report alone, and its own if it changes no status |
| ApiTheorems.ApplyKeepsInv | src/FieldOps.Api/Controllers/WorkOrdersController.cs:165-595 | Every endpoint call keeps the ledger, the references, the announcements and the increasing ids, and only ever extends the record |
| ApiTheorems.MarkingKeepsInv | src/FieldOps.Modules.WorkOrders/Data/EfWorkOrderDirectory.cs:183-191 | So does marking rows published |
| ApiTheorems.CommitKeepsLedger | src/FieldOps.Modules.WorkOrders/Data/EfWorkOrderDirectory.cs:30-146 | A committed change moves every counter by what it is |
| Staleness.BoundedStaleness | src/FieldOps.Api/Application/WorkOrderReportService.cs:15-51 | However invalidations are lost and saves, deletes, queries and stores interleave, a report served at T was the true count at some instant in [T - 30 - d, T], where d bounds the time between a query and its store; with both one step, d = 0 |
| Staleness.StalenessIsAttained | src/FieldOps.Api/Application/WorkOrderReportService.cs:15-51 | That bound is tight to the second: for every d, a run that serves a report false ever since 29 + d seconds before |
| Staleness.StoreAfterDropIsStale | src/FieldOps.Api/Application/WorkOrderReportService.cs:33-51 | Coherence does not survive that interleaving: a run in which a count taken before a commit is stored after its key delete |
| Staleness.StoreIsRightIff | src/FieldOps.Api/Application/WorkOrderReportService.cs:33-51 | However everything interleaves, a store leaves a right report iff the counts at that moment are those of its own query |
| Staleness.CachedIsRightIff | src/FieldOps.Api/Application/WorkOrderReportService.cs:28-51 | In every state of every run a cached report comes from one query and one store with no delete of its key since, and it is right iff the counts at that query are still the counts |
| Staleness.NoDeleteSinceQueryIsRight | src/FieldOps.Api/Application/WorkOrderReportService.cs:33-56 | When no delete is lost or still outstanding, a store is right if no delete of its key fell between its query and it |
| Staleness.GuardedCacheIsCoherent | src/FieldOps.Api/Application/WorkOrderReportService.cs:33-56 | If every store checked that, the cache would be coherent for an organization in every state in which none of its deletes is outstanding, however everything else interleaves |
| Staleness.DropAtOnceIsQuiet | src/FieldOps.Api/Controllers/WorkOrdersController.cs:250-260 | If each commit that changes an organization's counts is followed at once by its delete, none is outstanding except between the two |
| WorkOrdersApi.WorkOrderReportService.GetStatusReport | src/FieldOps.Api/Application/WorkOrderReportService.cs:28-52 | Serves a live entry, otherwise lists, filters, counts four times and stores for 30 seconds, which equals recomputing the report from the store; raises if Redis does not answer |
| WorkOrdersApi.WorkOrderReportService.WorkOrdersOf | src/FieldOps.Api/Application/WorkOrderReportService.cs:39-41 | The loop selects the organization's orders, all of them, once each |
| WorkOrdersApi.Count | src/FieldOps.Api/Application/WorkOrderReportService.cs:45-48 | The counting loop counts the distinct orders in a status |
| WorkOrdersApi.WorkOrderAssignmentService.ValidateWorkOrderAndEmployee | src/FieldOps.Api/Application/WorkOrderAssignmentService.cs:78-94 | The order exists for the caller and the employee exists in the order's organization |
| WorkOrdersApi.WorkOrderAssignmentService.AssignWorkOrder | src/FieldOps.Api/Application/WorkOrderAssignmentService.cs:22-37 | Fails exactly on its own checks, otherwise assigns and never answers null |
| WorkOrdersApi.WorkOrderAssignmentService.ReassignWorkOrder | src/FieldOps.Api/Application/WorkOrderAssignmentService.cs:45-69 | The same, and refuses the employee who already has it |
| WorkOrdersApi.WorkOrdersController.ValidateMembership | src/FieldOps.Api/Controllers/WorkOrdersController.cs:699-723 | Both headers, an existing employee, of that organization |
| WorkOrdersApi.WorkOrdersController.ValidateIsAdmin | src/FieldOps.Api/Controllers/WorkOrdersController.cs:602-617 | Admins only |
| WorkOrdersApi.WorkOrdersController.ValidateIsAdminOrAssignee | src/FieldOps.Api/Controllers/WorkOrdersController.cs:625-641 | An admin or the assignee, of an order of this organization |
| WorkOrdersApi.WorkOrdersController.ValidateIsAdminForWorkOrder | src/FieldOps.Api/Controllers/WorkOrdersController.cs:649-665 | An admin, and an order of this organization |
| WorkOrdersApi.WorkOrdersController.ValidateOwnership | src/FieldOps.Api/Controllers/WorkOrdersController.cs:671-686 | The assignee of an order of this organization |
| WorkOrdersApi.WorkOrdersController.GetStatusReport | src/FieldOps.Api/Controllers/WorkOrdersController.cs:64-76 | Answers and changes exactly what the endpoint model says |
| WorkOrdersApi.WorkOrdersController.Create | src/FieldOps.Api/Controllers/WorkOrdersController.cs:165-229 | A remembered idempotency key replays its response and changes nothing; otherwise as the endpoint model says (membership, customer of the same organization, order and index row in one unit, key dropped on success), and a success is remembered for 60 seconds |
| WorkOrdersApi.WorkOrdersController.CreateAnew | src/FieldOps.Api/Controllers/WorkOrdersController.cs:196-217 | Create behind the replay answers and changes exactly what the endpoint model says |
| WorkOrdersApi.WorkOrdersController.Assign | src/FieldOps.Api/Controllers/WorkOrdersController.cs:236-263 | The same: admin, the service's checks, key dropped on success |
| WorkOrdersApi.WorkOrdersController.Reassign | src/FieldOps.Api/Controllers/WorkOrdersController.cs:274-299 | The same: admin or assignee; no key dropped |
| WorkOrdersApi.WorkOrdersController.Unassign | src/FieldOps.Api/Controllers/WorkOrdersController.cs:308-333 | The same: admin or assignee; key dropped on success |
| WorkOrdersApi.WorkOrdersController.Reopen | src/FieldOps.Api/Controllers/WorkOrdersController.cs:352-377 | The same: admin of the order's organization; key dropped on success |
| WorkOrdersApi.WorkOrdersController.Start | src/FieldOps.Api/Controllers/WorkOrdersController.cs:386-411 | The same: assignee; key dropped on success |
| WorkOrdersApi.WorkOrdersController.Complete | src/FieldOps.Api/Controllers/WorkOrdersController.cs:420-468 | The same: assignee; event and document built from the order before completion; key dropped on success |
| WorkOrdersApi.WorkOrdersController.AddEvidence | src/FieldOps.Api/Controllers/WorkOrdersController.cs:476-501 | The same: assignee; no key dropped |
| WorkOrdersApi.WorkOrdersController.Approve | src/FieldOps.Api/Controllers/WorkOrdersController.cs:555-595 | The same: the order's own customer; no key dropped |
| WorkOrdersApi.WorkOrdersController.RebuildSearchIndex | src/FieldOps.Api/Controllers/WorkOrdersController.cs:131-156 | Refused unless an admin asks; otherwise rebuilds from exactly this organization's current orders |
| Outbox.TickPublishesExactly | src/FieldOps.Api/Application/OutboxPublisher.cs:59-109 | One tick, any failure pattern: a row is published afterwards iff it already was, or its own hand-over succeeded, its mark reached the context, and its own or a later save of the tick committed; no mark is undone and nothing else about a row changes |
| Outbox.TickHandsOver | src/FieldOps.Api/Application/OutboxPublisher.cs:59-109 | What a tick hands over and indexes is decided row by row: one failure never stops or changes a later row |
| Outbox.HandOverTable | src/FieldOps.Api/Application/OutboxPublisher.cs:61-108 | What each outcome of one hand-over leaves: one that raised without effect, or an unreadable row, leaves nothing; only one that ended normally goes on to its mark |
| Outbox.MarkTable | src/FieldOps.Modules.WorkOrders/Data/EfWorkOrderDirectory.cs:183-191 | What each outcome of one mark leaves: a failed save leaves it pending, a committed one puts every pending mark into the table with its own time |
| Outbox.RestOfTick | src/FieldOps.Modules.WorkOrders/Data/EfWorkOrderDirectory.cs:183-191 | The same from the middle of a tick, with marks pending from earlier failed saves |
| Outbox.SortAnswersQuery | src/FieldOps.Modules.WorkOrders/Data/EfWorkOrderDirectory.cs:174-181 | Sorting the unpublished rows by creation time returns each of them once, in order |
| OutboxPublishing.OutboxPublisher.PublishUnpublishedMessagesAsync | src/FieldOps.Api/Application/OutboxPublisher.cs:52-110 | The foreach with its per-row catch does exactly what the tick model says, on any table and any outcomes, and puts exactly the handed-over completion rows on the exchange |
| OutboxPublishing.OutboxPublisher.PublishMessage | src/FieldOps.Api/Application/OutboxPublisher.cs:61-108 | One turn of the loop |
| OutboxPublishing.OutboxPublisher.HandOver | src/FieldOps.Api/Application/OutboxPublisher.cs:67-90 | Publishes or indexes one readable row |
| OutboxPublishing.OutboxContext.MarkOutboxMessagePublished | src/FieldOps.Modules.WorkOrders/Data/EfWorkOrderDirectory.cs:183-191 | A failed save leaves the mark in the context; a later save commits it too; a missing row is passed over |
| SearchIndex.RebuildIsExact | src/FieldOps.Api/Application/ElasticsearchWorkOrderSearchIndex.cs:145-168 | With nothing in between, a rebuild that ends makes the organization's documents exactly its current orders; one that fails part-way leaves only leftovers or current documents of it; neither touches another organization; the index stays sound |
| SearchIndex.RebuildShows | src/FieldOps.Api/Controllers/WorkOrdersController.cs:147-154 | Whatever was in the index, a rebuild that ends leaves for each order of the organization a document with its id, organization, title and status |
| RebuildRuns.InterleavedRebuild | src/FieldOps.Api/Application/ElasticsearchWorkOrderSearchIndex.cs:145-168 | With ticks, commits and other organizations' rebuilds between its steps: when a rebuild has ended, the index holds for every order of its organization exactly the last document written after its delete, nothing if none was, and every listed document was written |
| RebuildRuns.RebuildLeaves | src/FieldOps.Api/Controllers/WorkOrdersController.cs:147-154 | So every order the request saw is in the index then, under the document the request saw or another one written after the delete, and under exactly the one it saw if no other was |
| RebuildRuns.OnlyAdminsRebuild | src/FieldOps.Api/Controllers/WorkOrdersController.cs:131-145 | A rebuild begins exactly for an admin of the organization named |
| RebuildRuns.UninterruptedIsRebuild | src/FieldOps.Api/Application/ElasticsearchWorkOrderSearchIndex.cs:145-168 | With nothing in between, the delete and the upserts of the whole system are the rebuild of SearchIndex.RebuildIsExact; a failed delete or the first failed upsert ends it |
| SearchIndex.LastUpsertWins | src/FieldOps.Api/Application/ElasticsearchWorkOrderSearchIndex.cs:54-58 | After any sequence of upserts each document is the last one given for its id |
| SearchIndex.ReaddAdds | src/FieldOps.Api/Application/ElasticsearchWorkOrderSearchIndex.cs:164-167 | The loop adds only listed documents, and all of them exactly if no call raises |
| IndexOrder.DocumentIsLastHandedOver | src/FieldOps.Api/Application/OutboxPublisher.cs:80-94 | In every run without rebuilds, whatever hand-overs and marks fail, wherever ticks are cut and whatever the clock does: a work order's document is that of the last index row handed over for it, and there is none before the first |
| IndexOrder.DocumentIsNewestIff | src/FieldOps.Api/Application/OutboxPublisher.cs:80-94 | In every such run, in every state: the document is that of the newest index row handed over iff no newer row with another document was handed over before the last one |
| IndexOrder.DocumentIsPublishedIff | src/FieldOps.Api/Application/OutboxPublisher.cs:90-91 | In every such run, for every published index row: its order has a document, and it is that row's iff the last index row handed over for the order says the same status |
| IndexOrder.DocumentIsNewestHandedOver | src/FieldOps.Api/Application/OutboxPublisher.cs:80-94 | In whole-system runs with no rebuild, no failing index call, every index row's mark committed, and each completion later by the clock than its order's creation, each work order's document is, in every state, that of its newest index row handed over; ticks may be cut anywhere, also between an index call and its mark, and everything else may fail |
| IndexOrder.DocumentIsNewestPublishedIff | src/FieldOps.Api/Application/OutboxPublisher.cs:90-91 | In those runs, and so beyond what DocumentIsPublishedIff says of all runs: the document is that of a published row iff no newer row with another document has been handed over |
| IndexOrder.HandOverIsRightIff | src/FieldOps.Api/Application/OutboxPublisher.cs:90-90 | In any run, with any failures before and any marks pending: after an index row's hand-over its work order's document is that of the newest row handed over iff no newer row with another document had been handed over |
| IndexOrder.OnlyHandOversMatter | src/FieldOps.Api/Application/OutboxPublisher.cs:61-108 | In any run, no other event but a rebuild affects that: not a failed index call, not a mark with any outcome, not a cut tick, not an endpoint, not a consumer |
| IndexOrder.RunKeepsCreationFirst | src/FieldOps.Api/Controllers/WorkOrdersController.cs:212-215 | In any run a work order's oldest index row says Open and every later one Completed |
| IndexOrder.EndpointAppends | src/FieldOps.Api/Controllers/WorkOrdersController.cs:441-453 | Every endpoint step appends unpublished rows with new ids; an index row among them is of a new order or of a completed one |
| IndexRuns.FailedIndexCallLeavesOpen | src/FieldOps.Api/Application/OutboxPublisher.cs:100-108 | A run of create, assign, start, complete and two ticks with one failed index call: every row ends published, the newest says Completed, the index says Open |
| IndexRuns.FailedMarkLeavesOpen | src/FieldOps.Api/Application/OutboxPublisher.cs:90-91 | The same run with no failed index call and one failed mark ends the same way |
| IndexRuns.CutTickRunsAhead | src/FieldOps.Api/Application/OutboxPublisher.cs:90-91 | A run in which nothing fails and a tick is cut between an index call and its mark: the document is not that of the newest published row |
| SearchIndexing.ElasticsearchWorkOrderSearchIndex.RebuildOrganizationIndexAsync | src/FieldOps.Api/Application/ElasticsearchWorkOrderSearchIndex.cs:145-168 | Delete, then the re-adding loop up to the first exception |
| Sorting.OrderByStable | src/FieldOps.Modules.WorkOrders/Data/EfWorkOrderDirectory.cs:178 | OrderBy returns an ordered permutation in which equal elements keep their order |
| Backoff.ExecuteAsync | src/FieldOps.Api/Application/EventConsumerBase.cs:58-214 | The waits are 1, 2, 4, 8, 16, then 30 seconds; the loop ends at the first turn that does not retry, has subscribed exactly if that turn did, and raises exactly if disposing its channel or connection does |
| Backoff.DelaysAre | src/FieldOps.Api/Application/EventConsumerBase.cs:40-41 | The waits in seconds: 1, 2, 4, 8, 16, and 30 from then on |
| Backoff.OutageCost | src/FieldOps.Api/Application/EventConsumerBase.cs:165-199 | However long failing attempts take: the first turn that starts when an outage is over is found within as many turns as it lasts seconds, starts at most 30 seconds after the attempt before it ended, and less than 30 seconds and that attempt's length after the outage did |
| Backoff.StartsAreWaits | src/FieldOps.Api/Application/EventConsumerBase.cs:194-199 | Turn n starts after the first n waits of the loop and the first n attempts |
| Backoff.TotalWait | src/FieldOps.Api/Application/EventConsumerBase.cs:198-199 | n failures cost 2^n - 1 seconds of waiting, from the fifth on 31 + 30 (n - 5) |
| Products.NoLostUpdate | src/StockPilot.Api/Data/EfProductStore.cs:66-87 | Over any interleaving of reads and saves, the effective updates of a product form a chain in which each was submitted with the version its predecessor produced; no version is ever updated from twice |
| Products.UpdateIsExact | src/StockPilot.Api/Data/EfProductStore.cs:80-85 | A changing update sent with a version the client has read succeeds, absent faults, iff the row still has it; then the row overwritten is the row read, and it holds the requested name and price |
| Products.RemoveIsExact | src/StockPilot.Api/Data/EfProductStore.cs:89-100 | Absent faults a removal succeeds iff the row still has the version it loaded, and then exactly that row is gone; otherwise it is a conflict and nothing changes |
| Products.FaultsHideOrPrevent | src/StockPilot.Api/Data/EfProductStore.cs:66-100 | A fault leaves an update or a removal entirely done or not begun, as it came after or before the commit, and always raises |
| Products.OnlyChangesAreWritten | src/StockPilot.Api/Data/EfProductStore.cs:77-85 | A column a request leaves as it loaded it keeps what the row has by the time of the save, and the SKU is never written |
| Products.SkusStayUnique | src/StockPilot.Api/Data/StockPilotDbContext.cs:21 | SKUs are unique in every state of every run, through races, rollbacks and lost replies |
| Products.BulkInsertIsAllOrNothing | src/StockPilot.Api/Data/EfProductStore.cs:43-64 | The batch is added iff its SKUs are pairwise distinct and new and nothing faults; then all products are there under consecutive ids; otherwise none is, unless the commit itself lost its reply |
| Products.AddIsExact | src/StockPilot.Api/Data/EfProductStore.cs:36-41 | One insert: absent a fault it succeeds iff no row has the SKU; the id it answers is that of the one row that is new, with the requested fields; a fault may hide that row |
| Products.TakenGoesNoFurther | src/StockPilot.Api/Controllers/ProductsController.cs:70-75 | A SKU that is taken ends a create at its own check and changes nothing |
| Products.AddAllAdds | src/StockPilot.Api/Data/EfProductStore.cs:57-60 | The loop ends without an exception exactly for a fresh batch without faults |
| ProductsApi.EfProductStore.AddAsync | src/StockPilot.Api/Data/EfProductStore.cs:36-41 | The unique index decides |
| ProductsApi.EfProductStore.AddRangeAsync | src/StockPilot.Api/Data/EfProductStore.cs:43-64 | The transactional loop does what the model says |
| ProductsApi.EfProductStore.UpdateAsync | src/StockPilot.Api/Data/EfProductStore.cs:66-87 | Null, a concurrency exception, or the new row |
| ProductsApi.EfProductStore.RemoveAsync | src/StockPilot.Api/Data/EfProductStore.cs:89-100 | False, or the row is gone |
| ProductsApi.ProductsController.Create | src/StockPilot.Api/Controllers/ProductsController.cs:66-93 | A duplicate is a conflict and changes nothing; otherwise created exactly without a fault |
| ProductsApi.ProductsController.BulkCreate | src/StockPilot.Api/Controllers/ProductsController.cs:100-121 | Created exactly for a fresh batch without faults, and then all of it; a duplicate alone is a conflict and nothing is kept |
| ProductsApi.ProductsController.Update | src/StockPilot.Api/Controllers/ProductsController.cs:124-145 | Not found, conflict or updated exactly as the row is gone, has another version, or still has the submitted one; no other row changes |
| ProductsApi.ProductsController.Delete | src/StockPilot.Api/Controllers/ProductsController.cs:157-166 | Not found, or gone |
| ProductsApi.DuplicatesConflict | src/StockPilot.Api/Controllers/ProductsController.cs:108-114 | Without faults the only exception of a batch is the index's |
| Paging.PagesAreTheList | src/StockPilot.Api/Controllers/ProductsController.cs:27-49 | Pages 1 to ceil(n / size), one after the other, are the sorted filtered list; no page is longer than the size; every page reports n, its own number and the size |
| Paging.FirstPagesAreAPrefix | src/StockPilot.Api/Controllers/ProductsController.cs:46-46 | The first k pages, one after the other, are the first k times size items |
| Paging.PageIsSlice | src/StockPilot.Api/Controllers/ProductsController.cs:46-46 | Without overflow a page is a plain slice |
| Paging.PagedListIsExact | src/StockPilot.Api/Controllers/ProductsController.cs:30-43 | That list holds each kept product exactly as often as the table does, in order, equals in their original order |
| Paging.SortedByChoice | src/StockPilot.Api/Controllers/ProductsController.cs:37-43 | The list is ordered by price, name or SKU for those three choices and by id for any other |
| Paging.PageBeyondTheLast | src/StockPilot.Api/Controllers/ProductsController.cs:46 | A page past the last is empty iff its offset in 32-bit arithmetic still lies past the list, or there is nothing to page |
| Paging.HighestPageShowsTheFirst | src/StockPilot.Api/Controllers/ProductsController.cs:46 | It is not always: the highest page number with two items a page shows the first page |
| Paging.ComparerIsTotal | src/StockPilot.Api/Controllers/ProductsController.cs:37-43 | Each sort choice is a total preorder if the string order is |

## Left out

- RabbitMQ, EF Core, Redis, Elasticsearch and Polly: each has the small contract described above (ack removes a copy, nack requeues it, a commit is all or nothing, an upsert overwrites, keys expire); retries, timeouts and circuit breaking inside a call only decide how that call ends.
- A restart of the broker, whose queues are not durable, and messages published before a queue is bound: both lose messages outside this code.
- Publisher confirms: a publish that returns is taken to have reached the exchange, and the dead-letter publish to precede the ack on its own channel.
- Parallelism inside one directory method, several API replicas, and concurrent deliveries to one consumer: nothing in the code protects the status checks or the attempt counter there.
- Acks, null bodies and ids: a message without an id is acked even when its handler fails, as the code does, so the no-loss theorems speak of messages with an id; every message from the outbox has one.
- `CustomerApproved` implies Completed, acked implies an inbox row, dead-lettered and processed exclude each other, the indexed status equals the stored one: the code keeps none of these and no theorem claims them.
- JSON, HTTP status codes and messages, header binding, logging, metrics, tracing, rate limiting: a payload is the value it encodes, and an answer is one of a few outcomes.
- The audit log writer, the AI summary, search queries, login and refresh tokens, RoadmapOS, the Angular frontend and deployment files: they would add only easy members or foreign calls.
- The cache warmer appears as one more caller of the report (`Api.Event.Warm`); employees are hired as members (`Api.Event.Hire`), the only role the application service gives.
- Organizations: no check ties a work order to an existing one, and one seeded employee belongs to an organization that does not exist.
- Time: the rows of one commit share one clock reading. IndexOrder.DocumentIsNewestHandedOver and IndexOrder.DocumentIsNewestPublishedIff need a completion to be later than the creation of its work order; the theorems about all runs need nothing of the clock.
- SearchIndex.RebuildIsExact: for a rebuild with nothing in between. A commit or a hand-over that falls between its list and its upserts can be overwritten by the older list; RebuildRuns.InterleavedRebuild says what is left then, as long as no second rebuild of the same organization deletes in between.
- Idempotency keys: the lookup and the record are as written; concurrent requests with one key are not deduplicated by the code.
- Elasticsearch answers searches a little after a write; the model's index is what has been written.
- Staleness.BoundedStaleness: a client's own clock is the service's clock, and Redis expires keys on time.
- Product text: prices count hundredths, SKUs are compared exactly (not by the database's collation), lengths are not limited, and the culture's string order is any total preorder.
- An update that changes neither name nor price: whether EF Core then issues a statement is left open (`quiet`), and Products.NoLostUpdate counts only statements that took effect.
- Idle steps: a tick that finds nothing to publish and a wait between ticks change nothing that matters and are not counted in the schedules of Recovery.EveryScheduleSettles; the bound counts steps, not seconds.
- Bulk insert is one step for other clients, as the transaction's isolation makes it.
- Paging.PagesAreTheList: lists of fewer than 2^31 products.
