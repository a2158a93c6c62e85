/** EventConsumerBase as it is written: a callback of sequenced awaits inside try/catch, over a
    broker and an inbox store that other consumers use too. It is proved to take exactly the steps
    of the protocol in module Consumer. */
module EventConsumers {
  import opened Common
  import opened Consumer
  import opened ConsumerHost

  /** The broker's queues. */
  class Broker {
    var queues: map<string, seq<Copy>>

    constructor ()
      ensures queues == map[]
    {
      queues := map[];
    }

    /** Idempotent: an existing queue keeps its messages. */
    method QueueDeclare(name: string)
      modifies this
      ensures queues == old(queues)[name := Queue(old(queues), name)]
    {
      if name !in queues {
        queues := queues[name := []];
      }
    }

    /** Publishes through the default exchange; a message for an undeclared queue is dropped. */
    method PublishTo(name: string, x: Copy)
      modifies this
      ensures queues == if name in old(queues) then old(queues)[name := old(queues)[name] + [x]] else old(queues)
    {
      if name in queues {
        queues := queues[name := queues[name] + [x]];
      }
    }
  }

  /** The ProcessedMessages and FailedMessageAttempts tables; both services have this same store. */
  class InboxStore {
    var processed: set<(string, string)>
    var attempts: map<(string, string), nat>

    constructor ()
      ensures processed == {} && attempts == map[]
    {
      processed, attempts := {}, map[];
    }

    method HasProcessed(consumer: string, id: string) returns (found: bool)
      ensures found <==> (consumer, id) in processed
    {
      found := (consumer, id) in processed;
    }

    /** Returns whether the call raised; a DbUpdateException is swallowed without a row. */
    method MarkProcessed(consumer: string, id: string, o: Outcome) returns (raised: bool)
      modifies this`processed
      ensures processed == if Took(o) then old(processed) + {(consumer, id)} else old(processed)
      ensures raised <==> o.Threw? || o.ThrewAfterEffect?
    {
      if Took(o) {
        processed := processed + {(consumer, id)};
      }
      raised := o.Threw? || o.ThrewAfterEffect?;
    }

    /** The new number of failed attempts, or None when the save raised. */
    method RecordFailedAttempt(consumer: string, id: string, o: Outcome) returns (count: Option<nat>)
      modifies this`attempts
      ensures var k := (consumer, id); var n := if k in old(attempts) then old(attempts)[k] else 0;
              && attempts == (if Took(o) then old(attempts)[k := n + 1] else old(attempts))
              && count == (if o.Done? then Some(n + 1) else None)
    {
      var row := if (consumer, id) in attempts then attempts[(consumer, id)] else 0;
      row := row + 1;
      if Took(o) {
        attempts := attempts[(consumer, id) := row];
      }
      count := if o.Done? then Some(row) else None;
    }
  }

  /** How each await of one delivery ends. */
  datatype Script = Script(
    check: Outcome, handle: Outcome, mark: Outcome, ack: Outcome, failAck: Outcome,
    record: Outcome, nack: Outcome, declare: Outcome, deadLetter: Outcome, deadAck: Outcome)
  {
    function For(pc: Pc): Outcome {
      match pc
      case AtCheck => check
      case AtHandle => handle
      case AtMark => mark
      case AtAck => ack
      case AtFailAck => failAck
      case AtRecord => record
      case AtNack => nack
      case AtDeclare => declare
      case AtDeadLetter => deadLetter
      case AtDeadAck => deadAck
    }
  }

  /** The protocol's own account of a whole delivery: step until the callback has returned. */
  ghost function Drive(c: Consumer, s: Script): Consumer
    decreases Rank(c)
  {
    if c.current.None? then c else
    var o := s.For(c.current.value.pc);
    StepRanks(c, o);
    Drive(StepOf(c, o), s)
  }

  lemma DriveStep(c: Consumer, s: Script)
    requires c.current.Some?
    ensures Drive(StepOf(c, s.For(c.current.value.pc)), s) == Drive(c, s)
  {
  }

  // ---------- what a delivery comes to ----------

  /** No await fails but, perhaps, the handler. */
  predicate OnlyHandlerFails(s: Script) {
    && s.check.Done? && s.mark.Done? && s.ack.Done? && s.failAck.Done? && s.record.Done? && s.nack.Done?
    && s.declare.Done? && s.deadLetter.Done? && s.deadAck.Done?
  }

  /** The message is to be handled, and cannot be. */
  predicate Unhandled(x: Copy, s: Script) {
    x.body.Malformed? || (x.body.Event? && !s.handle.Done?)
  }

  /** The broker's copy is gone. */
  ghost function Acked(c: Consumer, x: Copy): Consumer {
    c.(current := None, history := c.history.(released := c.history.released + multiset{x}))
  }

  lemma AckEnds(c: Consumer, x: Copy, s: Script)
    requires OnlyHandlerFails(s)
    requires c.current == Some(Delivery(x, AtAck, true)) || c.current == Some(Delivery(x, AtFailAck, true))
             || c.current == Some(Delivery(x, AtDeadAck, true))
    ensures Drive(c, s) == Acked(c, x)
  {
    DriveStep(c, s);
  }

  lemma KnownIsAcked(c: Consumer, x: Copy, s: Script)
    requires c.current == Some(Delivery(x, AtCheck, true)) && OnlyHandlerFails(s) && x.id != "" && x.id in c.inbox
    ensures Drive(c, s) == Acked(c, x)
  {
    DriveStep(c, s);
    AckEnds(c.(current := Some(Delivery(x, AtAck, true))), x, s);
  }

  lemma HandledIsMarked(c: Consumer, x: Copy, s: Script)
    requires c.current == Some(Delivery(x, AtHandle, true)) && OnlyHandlerFails(s) && !Unhandled(x, s)
    ensures var h := c.history;
            Drive(c, s) ==
            Acked(c.(inbox := if x.id == "" then c.inbox else c.inbox + iset{x.id},
                     history := if x.body.JsonNull? then h
                                else h.(handled := h.handled + multiset{x},
                                        handledIds := h.handledIds + multiset{x.id})), x)
  {
    DriveStep(c, s);
    var c1 := StepOf(c, s.handle);
    if x.id != "" { DriveStep(c1, s); }
    var c2 := if x.id != "" then StepOf(c1, Done) else c1;
    AckEnds(c2, x, s);
  }

  /** Two chances more, and then the dead-letter queue. */
  lemma FailedIsRetried(c: Consumer, x: Copy, s: Script)
    requires c.current == Some(Delivery(x, AtRecord, true)) && OnlyHandlerFails(s)
    ensures var counted := c.(attempts := c.attempts[x.id := Attempts(c, x.id) + 1]);
            Drive(c, s) == if Attempts(c, x.id) < 2 then
                             counted.(current := None, ready := c.ready + [x],
                                      history := c.history.(requeued := c.history.requeued + multiset{x.id}))
                           else Acked(counted.(dead := Some(DeadLetters(c) + [x])), x)
  {
    DriveStep(c, s);
    var c1 := StepOf(c, Done);
    DriveStep(c1, s);
    if Attempts(c, x.id) >= 2 {
      var c2 := StepOf(c1, Done);
      DriveStep(c2, s);
      AckEnds(StepOf(c2, Done), x, s);
    }
  }

  /** A whole delivery, in any state, when nothing fails but perhaps the handler: a known id is acked and
      nothing else happens; a handled event, or a null, is recorded in the inbox if it has an id, and acked; a
      failure is requeued the first two times its id fails, and dead-lettered and acked the third; without an
      id it is just acked. */
  lemma DeliveryTable(c: Consumer, x: Copy, s: Script)
    requires c.current == Some(Delivery(x, AtCheck, true)) && OnlyHandlerFails(s)
    ensures var h := c.history; var known := x.id != "" && x.id in c.inbox; var failures := Attempts(c, x.id);
            var counted := c.(attempts := c.attempts[x.id := failures + 1]);
            Drive(c, s) ==
            if known then Acked(c, x)
            else if Unhandled(x, s) then
              if x.id == "" then Acked(c, x)
              else if failures < 2 then
                counted.(current := None, ready := c.ready + [x],
                         history := h.(requeued := h.requeued + multiset{x.id}))
              else Acked(counted.(dead := Some(DeadLetters(c) + [x])), x)
            else
              Acked(c.(inbox := if x.id == "" then c.inbox else c.inbox + iset{x.id},
                       history := if x.body.JsonNull? then h
                                  else h.(handled := h.handled + multiset{x},
                                          handledIds := h.handledIds + multiset{x.id})), x)
  {
    if x.id != "" && x.id in c.inbox {
      KnownIsAcked(c, x, s);
    } else {
      DriveStep(c, s);
      var c1 := c.(current := Some(Delivery(x, AtHandle, true)));
      if Unhandled(x, s) {
        DriveStep(c1, s);
        var c2 := c.(current := Some(Delivery(x, if x.id == "" then AtFailAck else AtRecord, true)));
        if x.id == "" { AckEnds(c2, x, s); } else { FailedIsRetried(c2, x, s); }
      } else {
        HandledIsMarked(c1, x, s);
      }
    }
  }

  class EventConsumer {
    const name: string
    const broker: Broker
    const store: InboxStore
    var parked: seq<Copy>
    var inFlight: Option<Copy>
    var held: bool
    ghost var pc: Pc
    ghost var history: History

    constructor (name: string, broker: Broker, store: InboxStore)
      ensures this.name == name && this.broker == broker && this.store == store
      ensures parked == [] && inFlight.None? && history == NO_HISTORY
    {
      this.name, this.broker, this.store := name, broker, store;
      parked, inFlight, held := [], None, false;
      pc, history := AtCheck, NO_HISTORY;
    }

    /** This consumer in the protocol's terms. */
    ghost function View(): (c: Consumer)
      reads this, broker, store
    {
      Consumer(
        Queue(broker.queues, QueueName(name)),
        parked,
        if inFlight.Some? then Some(Delivery(inFlight.value, pc, held)) else None,
        if DeadLetterQueueName(name) in broker.queues then Some(broker.queues[DeadLetterQueueName(name)]) else None,
        iset id: string | (name, id) in store.processed,
        imap id: string | (name, id) in store.attempts :: store.attempts[(name, id)],
        history)
    }

    ghost function OtherQueues(): map<string, seq<Copy>>
      reads broker
    {
      broker.queues - {QueueName(name), DeadLetterQueueName(name)}
    }

    ghost function OtherInbox(): set<(string, string)>
      reads store
    {
      set k | k in store.processed && k.0 != name
    }

    ghost function OtherAttempts(): map<(string, string), nat>
      reads store
    {
      map k | k in store.attempts && k.0 != name :: store.attempts[k]
    }

    /** Everybody else's queues and rows are as they were. */
    twostate predicate OthersKept()
      reads broker, store
    {
      && OtherQueues() == old(OtherQueues())
      && OtherInbox() == old(OtherInbox())
      && OtherAttempts() == old(OtherAttempts())
    }

    ghost function FailurePc(): Pc
      requires inFlight.Some?
      reads this`inFlight
    {
      if inFlight.value.id == "" then AtFailAck else AtRecord
    }

    /** The callback returns; the broker keeps waiting for a copy it still holds. */
    method Return()
      requires inFlight.Some?
      modifies this`parked, this`inFlight
      ensures View() == Leave(old(View())) && inFlight.None?
    {
      if held {
        parked := parked + [inFlight.value];
      }
      inFlight := None;
    }

    // ---------- the awaits of ReceivedAsync ----------

    method Check(o: Outcome) returns (found: bool, raised: bool)
      requires inFlight.Some? && pc.AtCheck?
      modifies this`pc
      ensures View() == StepOf(old(View()), o) && inFlight.Some?
      ensures pc == if raised then FailurePc() else if found then AtAck else AtHandle
    {
      var x := inFlight.value;
      found, raised := false, !o.Done?;
      if !raised && x.id != "" {
        found := store.HasProcessed(name, x.id);
      }
      pc := if raised then FailurePc() else if found then AtAck else AtHandle;
    }

    method Handle(o: Outcome) returns (raised: bool)
      requires inFlight.Some? && pc.AtHandle?
      modifies this`pc, this`history
      ensures View() == StepOf(old(View()), o) && inFlight.Some?
      ensures pc == if raised then FailurePc() else if inFlight.value.id != "" then AtMark else AtAck
    {
      var x := inFlight.value;
      match x.body {
        case Malformed => raised := true;
        case JsonNull => raised := false;
        case Event(_) =>
          raised := !o.Done?;
          if !raised {
            history := history.(handled := history.handled + multiset{x},
                                handledIds := history.handledIds + multiset{x.id});
          }
      }
      pc := if raised then FailurePc() else if x.id != "" then AtMark else AtAck;
    }

    method Mark(o: Outcome) returns (raised: bool)
      requires inFlight.Some? && pc.AtMark?
      modifies this`pc, this`history, store`processed
      ensures View() == StepOf(old(View()), o) && OthersKept() && inFlight.Some?
      ensures pc == if raised then FailurePc() else AtAck
    {
      var x := inFlight.value;
      if !Took(o) && x.body.Event? {
        history := history.(lostMarks := history.lostMarks + multiset{x.id});
      }
      raised := store.MarkProcessed(name, x.id, o);
      pc := if raised then FailurePc() else AtAck;
      assert View().inbox == StepOf(old(View()), o).inbox;
    }

    method BasicAck(o: Outcome)
      requires inFlight.Some?
      modifies this`held, this`history
      ensures View() == if Took(o) then Release(old(View())) else old(View())
    {
      if Took(o) && held {
        held := false;
        history := history.(released := history.released + multiset{inFlight.value});
      }
    }

    method Ack(o: Outcome) returns (raised: bool)
      requires inFlight.Some? && pc.AtAck?
      modifies this
      ensures View() == StepOf(old(View()), o)
      ensures raised ==> inFlight.Some? && pc == FailurePc()
      ensures !raised ==> inFlight.None?
    {
      BasicAck(o);
      raised := !o.Done?;
      if raised {
        pc := FailurePc();
      } else {
        Return();
      }
    }

    // ---------- the awaits of HandleDeliveryFailureAsync ----------

    /** Acks that end the callback: a message without an id, and the original of a dead-lettered one. */
    method LastAck(o: Outcome)
      requires inFlight.Some? && (pc.AtFailAck? || pc.AtDeadAck?)
      modifies this
      ensures View() == StepOf(old(View()), o) && inFlight.None?
    {
      BasicAck(o);
      Return();
    }

    method Record(o: Outcome) returns (count: Option<nat>)
      requires inFlight.Some? && pc.AtRecord?
      modifies this, store`attempts
      ensures View() == StepOf(old(View()), o) && OthersKept()
      ensures count.None? ==> inFlight.None?
      ensures count.Some? ==> inFlight.Some? && pc == if count.value < 3 then AtNack else AtDeclare
    {
      var x := inFlight.value;
      ghost var c := View();
      count := store.RecordFailedAttempt(name, x.id, o);
      assert View().attempts == Effect(c, o).attempts;
      assert View() == Effect(c, o);
      if count.None? {
        Return();
      } else {
        pc := if count.value < MAX_DELIVERY_ATTEMPTS then AtNack else AtDeclare;
      }
    }

    method Nack(o: Outcome)
      requires inFlight.Some? && pc.AtNack? && QueueName(name) in broker.queues
      modifies this, broker
      ensures View() == StepOf(old(View()), o) && OthersKept() && inFlight.None?
    {
      DeadNameIsQueueName(name, name);
      if Took(o) && held {
        held := false;
        broker.PublishTo(QueueName(name), inFlight.value);
        history := history.(requeued := history.requeued + multiset{inFlight.value.id});
      }
      Return();
    }

    method Declare(o: Outcome) returns (raised: bool)
      requires inFlight.Some? && pc.AtDeclare?
      modifies this, broker
      ensures View() == StepOf(old(View()), o) && OthersKept()
      ensures raised ==> inFlight.None?
      ensures !raised ==> inFlight.Some? && pc.AtDeadLetter?
    {
      DeadNameIsQueueName(name, name);
      if Took(o) {
        broker.QueueDeclare(DeadLetterQueueName(name));
      }
      raised := !o.Done?;
      if raised {
        Return();
      } else {
        pc := AtDeadLetter;
      }
    }

    method PublishDeadLetter(o: Outcome) returns (raised: bool)
      requires inFlight.Some? && pc.AtDeadLetter?
      modifies this, broker
      ensures View() == StepOf(old(View()), o) && OthersKept()
      ensures raised ==> inFlight.None?
      ensures !raised ==> inFlight.Some? && pc.AtDeadAck?
    {
      DeadNameIsQueueName(name, name);
      if Took(o) {
        broker.PublishTo(DeadLetterQueueName(name), inFlight.value);
      }
      raised := !o.Done?;
      if raised {
        Return();
      } else {
        pc := AtDeadAck;
      }
    }

    /** The broker hands over a ready copy; deliveries of one consumer are sequential. */
    method BasicDeliver(k: nat)
      requires inFlight.None? && QueueName(name) in broker.queues && k < |broker.queues[QueueName(name)]|
      modifies this, broker
      ensures View() == Apply(old(View()), Event.Deliver(k)) && OthersKept()
      ensures inFlight.Some? && pc.AtCheck? && QueueName(name) in broker.queues
    {
      DeadNameIsQueueName(name, name);
      var ready := broker.queues[QueueName(name)];
      broker.queues := broker.queues[QueueName(name) := ready[..k] + ready[k + 1..]];
      inFlight, pc, held := Some(ready[k]), AtCheck, true;
    }

    // ---------- the callback ----------

    /** The try block. Returns whether it ran to its end. */
    method Process(s: Script) returns (completed: bool)
      requires inFlight.Some? && pc.AtCheck?
      modifies this, store`processed
      ensures Drive(View(), s) == Drive(old(View()), s) && OthersKept()
      ensures completed ==> inFlight.None?
      ensures !completed ==> inFlight.Some? && pc == FailurePc()
    {
      hide StepOf, Drive, OtherQueues, OtherInbox, OtherAttempts;
      DriveStep(View(), s);
      var found, raised := Check(s.check);
      if raised { return false; }
      if !found {
        DriveStep(View(), s);
        raised := Handle(s.handle);
        if raised { return false; }
        if inFlight.value.id != "" {
          DriveStep(View(), s);
          raised := Mark(s.mark);
          if raised { return false; }
        }
      }
      DriveStep(View(), s);
      raised := Ack(s.ack);
      return !raised;
    }

    method HandleDeliveryFailure(s: Script)
      requires inFlight.Some? && pc == FailurePc() && QueueName(name) in broker.queues
      modifies this, broker, store`attempts
      ensures Drive(View(), s) == Drive(old(View()), s) && OthersKept() && inFlight.None?
    {
      hide StepOf, Drive, OtherQueues, OtherInbox, OtherAttempts;
      DriveStep(View(), s);
      if inFlight.value.id == "" {
        LastAck(s.failAck);
        return;
      }
      var attemptCount := Record(s.record);
      if attemptCount.None? { return; }
      DriveStep(View(), s);
      if attemptCount.value < MAX_DELIVERY_ATTEMPTS {
        Nack(s.nack);
      } else {
        var raised := Declare(s.declare);
        if raised { return; }
        DriveStep(View(), s);
        raised := PublishDeadLetter(s.deadLetter);
        if raised { return; }
        DriveStep(View(), s);
        LastAck(s.deadAck);
      }
    }

    /** One delivered message, start to finish: exactly the protocol's steps, and nothing of another
        consumer's is touched. */
    method Received(s: Script)
      requires inFlight.Some? && pc.AtCheck? && QueueName(name) in broker.queues
      modifies this, broker, store
      ensures View() == Drive(old(View()), s) && OthersKept() && inFlight.None?
    {
      var completed := Process(s);
      if !completed {
        HandleDeliveryFailure(s);
      }
    }
  }

  /** A delivery run to its end is a run of the protocol. */
  lemma {:induction false} DriveIsRun(c: Consumer, s: Script) returns (events: seq<Event>)
    ensures Run(c, events) == Drive(c, s) && forall i :: 0 <= i < |events| ==> events[i].Step?
    decreases Rank(c)
  {
    hide StepOf;
    if c.current.None? {
      events := [];
    } else {
      var o := s.For(c.current.value.pc);
      StepRanks(c, o);
      var rest := DriveIsRun(StepOf(c, o), s);
      events := [Step(o)] + rest;
      RunOne(c, Step(o));
      RunAppend(c, [Step(o)], rest);
    }
  }
}
