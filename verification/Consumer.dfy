/** The at-least-once consumer protocol of one EventConsumerBase: inbox check, handler, inbox mark,
    ack, and the bounded-retry path. One step is one await; every await can fail before or after
    taking effect, and a crash or a lost connection can fall between any two steps. */
module Consumer {
  import opened Common
  import opened Domain

  const MAX_DELIVERY_ATTEMPTS := 3

  /** A message body after JSON deserialization. */
  datatype Body = Event(event: CompletedEvent) | JsonNull | Malformed

  /** One broker copy. `tag` identifies the publication it came from. */
  datatype Copy = Copy(tag: nat, id: string, body: Body)

  /** The await a delivery is about to execute. */
  datatype Pc =
    | AtCheck | AtHandle | AtMark | AtAck                // ReceivedAsync
    | AtFailAck                                          // HandleDeliveryFailureAsync, no message id
    | AtRecord | AtNack                                  // another chance
    | AtDeclare | AtDeadLetter | AtDeadAck               // giving up

  /** `held` says whether the broker still waits for an ack or nack of this delivery. */
  datatype Delivery = Delivery(copy: Copy, pc: Pc, held: bool)

  /** How an await ends. `Swallowed` is MarkProcessed catching a DbUpdateException: no row, no exception. */
  datatype Outcome = Done | Swallowed | Threw | ThrewAfterEffect

  /** What has happened so far; no step ever reads it. */
  datatype History = History(
    arrived: multiset<Copy>,
    released: multiset<Copy>,
    handled: multiset<Copy>,
    handledIds: multiset<string>,
    lostMarks: multiset<string>,
    requeued: multiset<string>)

  datatype Consumer = Consumer(
    ready: seq<Copy>,
    parked: seq<Copy>,
    current: Option<Delivery>,
    dead: Option<seq<Copy>>,
    inbox: iset<string>,
    attempts: imap<string, nat>,
    history: History)

  const NO_HISTORY := History(multiset{}, multiset{}, multiset{}, multiset{}, multiset{}, multiset{})

  ghost const FRESH := Consumer([], [], None, None, iset{}, imap[], NO_HISTORY)

  ghost function Attempts(c: Consumer, id: string): nat {
    if id in c.attempts then c.attempts[id] else 0
  }

  ghost function DeadLetters(c: Consumer): seq<Copy> {
    if c.dead.Some? then c.dead.value else []
  }

  // ---------- effects of single awaits ----------

  ghost function Goto(c: Consumer, pc: Pc): Consumer
    requires c.current.Some?
  {
    c.(current := Some(c.current.value.(pc := pc)))
  }

  /** The callback returns; a copy the broker still holds stays unacknowledged. */
  ghost function Leave(c: Consumer): Consumer
    requires c.current.Some?
  {
    var d := c.current.value;
    c.(parked := if d.held then c.parked + [d.copy] else c.parked, current := None)
  }

  ghost function Handled(c: Consumer): Consumer
    requires c.current.Some?
  {
    var x := c.current.value.copy;
    c.(history := c.history.(handled := c.history.handled + multiset{x},
                             handledIds := c.history.handledIds + multiset{x.id}))
  }

  /** A fault between the handler's return and the inbox row. */
  ghost function LoseMark(c: Consumer): Consumer
    requires c.current.Some?
  {
    var x := c.current.value.copy;
    if x.body.Event? then c.(history := c.history.(lostMarks := c.history.lostMarks + multiset{x.id})) else c
  }

  ghost function Mark(c: Consumer): Consumer
    requires c.current.Some?
  {
    c.(inbox := c.inbox + iset{c.current.value.copy.id})
  }

  /** The broker processes an ack: it forgets a copy it still holds. */
  ghost function Release(c: Consumer): Consumer
    requires c.current.Some?
  {
    var d := c.current.value;
    if d.held then
      c.(current := Some(d.(held := false)), history := c.history.(released := c.history.released + multiset{d.copy}))
    else c
  }

  /** The broker processes a nack with requeue. */
  ghost function Requeue(c: Consumer): Consumer
    requires c.current.Some?
  {
    var d := c.current.value;
    if d.held then
      c.(ready := c.ready + [d.copy], current := Some(d.(held := false)),
         history := c.history.(requeued := c.history.requeued + multiset{d.copy.id}))
    else c
  }

  ghost function Record(c: Consumer): Consumer
    requires c.current.Some?
  {
    var id := c.current.value.copy.id;
    c.(attempts := c.attempts[id := Attempts(c, id) + 1])
  }

  ghost function DeclareDead(c: Consumer): Consumer {
    c.(dead := Some(DeadLetters(c)))
  }

  /** Publishing to a queue nobody declared is silently dropped by the broker. */
  ghost function DeadLetter(c: Consumer): Consumer
    requires c.current.Some?
  {
    if c.dead.Some? then c.(dead := Some(c.dead.value + [c.current.value.copy])) else c
  }

  predicate Took(o: Outcome) { o.Done? || o.ThrewAfterEffect? }

  /** What the await of the delivery in progress changes, given how it ends. */
  ghost function Effect(c: Consumer, o: Outcome): Consumer
    requires c.current.Some?
  {
    match c.current.value.pc
    case AtCheck => c
    case AtHandle => if c.current.value.copy.body.Event? && o.Done? then Handled(c) else c
    case AtMark => if Took(o) then Mark(c) else LoseMark(c)
    case AtAck | AtFailAck | AtDeadAck => if Took(o) then Release(c) else c
    case AtRecord => if Took(o) then Record(c) else c
    case AtNack => if Took(o) then Requeue(c) else c
    case AtDeclare => if Took(o) then DeclareDead(c) else c
    case AtDeadLetter => if Took(o) then DeadLetter(c) else c
  }

  /** Where control goes after the await; None when the callback returns. */
  ghost function Flow(c: Consumer, o: Outcome): Option<Pc>
    requires c.current.Some?
  {
    var x := c.current.value.copy;
    // The exception handler enters HandleDeliveryFailureAsync.
    var failure := Some(if x.id == "" then AtFailAck else AtRecord);
    match c.current.value.pc
    case AtCheck => if !o.Done? then failure else Some(if x.id != "" && x.id in c.inbox then AtAck else AtHandle)
    case AtHandle =>
      if x.body.Malformed? || (x.body.Event? && !o.Done?) then failure else Some(if x.id != "" then AtMark else AtAck)
    case AtMark => if o.Threw? || o.ThrewAfterEffect? then failure else Some(AtAck)
    case AtAck => if o.Done? then None else failure
    case AtRecord =>
      if !o.Done? then None else Some(if Attempts(c, x.id) < MAX_DELIVERY_ATTEMPTS then AtNack else AtDeclare)
    case AtDeclare => if o.Done? then Some(AtDeadLetter) else None
    case AtDeadLetter => if o.Done? then Some(AtDeadAck) else None
    case AtFailAck | AtNack | AtDeadAck => None
  }

  ghost function Move(c: Consumer, to: Option<Pc>): Consumer
    requires c.current.Some?
  {
    if to.Some? then Goto(c, to.value) else Leave(c)
  }

  /** One await of the delivery in progress. */
  ghost function StepOf(c: Consumer, o: Outcome): Consumer
    requires c.current.Some?
  {
    var c1 := Effect(c, o);
    Move(c1, Flow(c1, o))
  }

  datatype Event =
    | Arrive(copy: Copy)        // the exchange routes a copy to this consumer's queue
    | Deliver(index: nat)       // the broker hands over a ready copy; deliveries are sequential
    | Step(outcome: Outcome)    // the delivery in progress executes one await
    | ConnectionLost            // the broker takes back what it holds; the callback keeps running
    | Crash                     // the process dies

  ghost function TakeBack(c: Consumer): Consumer {
    var mine := if c.current.Some? && c.current.value.held then [c.current.value.copy] else [];
    c.(ready := c.ready + c.parked + mine, parked := [],
       current := if c.current.Some? then Some(c.current.value.(held := false)) else None)
  }

  ghost function Apply(c: Consumer, e: Event): Consumer {
    match e
    case Arrive(x) => c.(ready := c.ready + [x], history := c.history.(arrived := c.history.arrived + multiset{x}))
    case Deliver(k) =>
      if c.current.None? && k < |c.ready| then
        c.(ready := c.ready[..k] + c.ready[k + 1..], current := Some(Delivery(c.ready[k], AtCheck, true)))
      else c
    case Step(o) => if c.current.Some? then StepOf(c, o) else c
    case ConnectionLost => TakeBack(c)
    case Crash =>
      var c1 := if c.current.Some? && c.current.value.pc.AtMark? then LoseMark(c) else c;
      TakeBack(c1).(current := None)
  }

  ghost function Run(c: Consumer, events: seq<Event>): Consumer
    decreases |events|
  {
    if events == [] then c else Apply(Run(c, events[..|events| - 1]), events[|events| - 1])
  }

  // ---------- the invariant ----------

  function Custody(c: Consumer): multiset<Copy> {
    multiset(c.ready) + multiset(c.parked) +
    (if c.current.Some? && c.current.value.held then multiset{c.current.value.copy} else multiset{})
  }

  /** Why a copy may leave the queue. */
  ghost predicate Settled(c: Consumer, x: Copy) {
    x in c.history.handled || x.id in c.inbox || x in DeadLetters(c) || x.body.JsonNull?
  }

  ghost predicate Conserved(c: Consumer) {
    c.history.arrived == Custody(c) + c.history.released
  }

  ghost predicate ReleasesSettled(c: Consumer) {
    forall x :: x in c.history.released && x.id != "" ==> Settled(c, x)
  }

  /** An inbox row is only ever written after the handler ran, or for a null body. */
  ghost predicate Backed(c: Consumer, id: string) {
    exists y :: y in c.history.arrived && y.id == id && (y in c.history.handled || y.body.JsonNull?)
  }

  ghost predicate InboxBacked(c: Consumer) {
    "" !in c.inbox && forall id :: id in c.inbox ==> Backed(c, id)
  }

  ghost predicate HandledArrived(c: Consumer) {
    forall x :: x in c.history.handled ==> x in c.history.arrived && x.body.Event?
  }

  /** What reaching program point `pc` says about the copy in progress. */
  ghost predicate Reached(c: Consumer, pc: Pc, x: Copy) {
    match pc
    case AtCheck => true
    case AtHandle => x.id == "" || x.id !in c.inbox
    case AtMark => x.id != "" && x.id !in c.inbox && (x in c.history.handled || x.body.JsonNull?)
    case AtAck => x.id != "" ==> Settled(c, x)
    case AtFailAck => x.id == ""
    case AtRecord => x.id != ""
    case AtNack => x.id != ""
    case AtDeclare => x.id != "" && Attempts(c, x.id) >= MAX_DELIVERY_ATTEMPTS
    case AtDeadLetter => x.id != "" && Attempts(c, x.id) >= MAX_DELIVERY_ATTEMPTS && c.dead.Some?
    case AtDeadAck => x.id != "" && x in DeadLetters(c) && Settled(c, x)
  }

  ghost predicate Control(c: Consumer) {
    c.current.Some? ==>
      var d := c.current.value;
      d.copy in c.history.arrived && Reached(c, d.pc, d.copy)
  }

  ghost predicate DeadBacked(c: Consumer) {
    forall x :: x in DeadLetters(c) ==> x in c.history.arrived && Attempts(c, x.id) >= MAX_DELIVERY_ATTEMPTS
  }

  ghost function InFlight(c: Consumer, id: string): nat {
    var marking := c.current.Some? && c.current.value.pc.AtMark?;
    if marking && c.current.value.copy.id == id && c.current.value.copy.body.Event? then 1 else 0
  }

  ghost predicate BoundedRuns(c: Consumer, id: string) {
    c.history.handledIds[id] <= (if id in c.inbox then 1 else 0) + c.history.lostMarks[id] + InFlight(c, id)
  }

  ghost predicate Duplicates(c: Consumer) {
    forall id: string :: id != "" ==> BoundedRuns(c, id)
  }

  function Min(a: nat, b: nat): nat { if a < b then a else b }

  ghost function Granted(c: Consumer, id: string): nat {
    var nacking := c.current.Some? && c.current.value.pc.AtNack?;
    c.history.requeued[id] + if nacking && c.current.value.copy.id == id then 1 else 0
  }

  ghost predicate Requeues(c: Consumer) {
    forall id: string :: id != "" ==> Granted(c, id) <= Min(2, Attempts(c, id))
  }

  /** The part of the invariant that does not look at control. */
  ghost predicate DataInv(c: Consumer) {
    Conserved(c) && ReleasesSettled(c) && InboxBacked(c) && HandledArrived(c) && DeadBacked(c)
  }

  ghost predicate Inv(c: Consumer) {
    DataInv(c) && Control(c) && Duplicates(c) && Requeues(c)
  }

  // ---------- one await keeps the invariant ----------

  /** The program points of ReceivedAsync's own try block. */
  predicate Trying(pc: Pc) { pc.AtCheck? || pc.AtHandle? || pc.AtMark? || pc.AtAck? }

  /** Nothing that settles a copy is ever taken back. */
  ghost predicate Grows(c: Consumer, c': Consumer) {
    && (forall x :: x in c.history.handled ==> x in c'.history.handled)
    && c.inbox <= c'.inbox
    && (forall x :: x in DeadLetters(c) ==> x in DeadLetters(c'))
    && (forall x :: x in c.history.arrived ==> x in c'.history.arrived)
    && (forall id :: Attempts(c, id) <= Attempts(c', id))
  }

  /** Moving control changes no data. */
  ghost predicate SameData(c: Consumer, c': Consumer) {
    c'.dead == c.dead && c'.inbox == c.inbox && c'.attempts == c.attempts && c'.history == c.history
  }

  lemma MoveIsControl(c: Consumer, to: Option<Pc>)
    requires c.current.Some?
    ensures SameData(c, Move(c, to)) && Custody(Move(c, to)) == Custody(c)
  {
  }

  lemma TryingGrows(c: Consumer, o: Outcome)
    requires c.current.Some? && Trying(c.current.value.pc)
    ensures Grows(c, Effect(c, o))
  {
  }

  lemma FailingGrows(c: Consumer, o: Outcome)
    requires c.current.Some? && !Trying(c.current.value.pc)
    ensures Grows(c, Effect(c, o))
  {
  }

  lemma EffectGrows(c: Consumer, o: Outcome)
    requires c.current.Some?
    ensures var c' := Effect(c, o); Grows(c, c') && c'.history.arrived == c.history.arrived
    ensures var d := c.current.value; var c' := Effect(c, o);
            c'.current.Some? && c'.current.value.copy == d.copy && c'.current.value.pc == d.pc
  {
    hide Grows;
    if Trying(c.current.value.pc) { TryingGrows(c, o); } else { FailingGrows(c, o); }
  }

  lemma ReleaseConserves(c: Consumer)
    requires Conserved(c) && c.current.Some?
    ensures Conserved(Release(c))
  {
  }

  lemma RequeueConserves(c: Consumer)
    requires Conserved(c) && c.current.Some?
    ensures Conserved(Requeue(c))
  {
  }

  lemma ElsewhereConserves(c: Consumer, c': Consumer)
    requires Conserved(c)
    requires c'.ready == c.ready && c'.parked == c.parked && c'.current == c.current
    requires c'.history.arrived == c.history.arrived && c'.history.released == c.history.released
    ensures Conserved(c')
  {
  }

  lemma EffectKeepsConserved(c: Consumer, o: Outcome)
    requires Conserved(c) && c.current.Some?
    ensures Conserved(Effect(c, o))
  {
    hide Conserved;
    var pc := c.current.value.pc;
    if pc in {AtAck, AtFailAck, AtDeadAck} {
      ReleaseConserves(c);
    } else if pc == AtNack {
      RequeueConserves(c);
    } else {
      ElsewhereConserves(c, Effect(c, o));
    }
  }

  lemma SettledGrows(c: Consumer, c': Consumer, x: Copy)
    requires Grows(c, c') && Settled(c, x)
    ensures Settled(c', x)
  {
  }

  /** An await releases at most the copy in progress, and only when it is settled. */
  lemma EffectReleases(c: Consumer, o: Outcome)
    requires Control(c) && c.current.Some?
    ensures var x := c.current.value.copy;
            || Effect(c, o).history.released == c.history.released
            || (Effect(c, o).history.released == c.history.released + multiset{x} && (x.id != "" ==> Settled(c, x)))
  {
    hide Settled;
  }

  lemma EffectKeepsReleases(c: Consumer, o: Outcome)
    requires ReleasesSettled(c) && Control(c) && c.current.Some?
    ensures ReleasesSettled(Effect(c, o))
  {
    EffectGrows(c, o);
    EffectReleases(c, o);
    var c' := Effect(c, o);
    forall x | x in c'.history.released && x.id != "" ensures Settled(c', x) {
      assert Settled(c, x);
      SettledGrows(c, c', x);
    }
  }

  lemma BackedGrows(c: Consumer, c': Consumer, id: string)
    requires Grows(c, c') && Backed(c, id)
    ensures Backed(c', id)
  {
  }

  lemma EffectKeepsInbox(c: Consumer, o: Outcome)
    requires InboxBacked(c) && Control(c) && c.current.Some?
    ensures InboxBacked(Effect(c, o))
  {
    var c', x := Effect(c, o), c.current.value.copy;
    EffectGrows(c, o);
    forall id | id in c'.inbox ensures Backed(c', id) {
      if id in c.inbox {
        BackedGrows(c, c', id);
      } else {
        assert x in c'.history.arrived && x.id == id;
      }
    }
  }

  lemma EffectKeepsHandledArrived(c: Consumer, o: Outcome)
    requires HandledArrived(c) && Control(c) && c.current.Some?
    ensures HandledArrived(Effect(c, o))
  {
  }

  lemma EffectDeadLetters(c: Consumer, o: Outcome)
    requires Control(c) && c.current.Some?
    ensures var x := c.current.value.copy; var c' := Effect(c, o);
            || DeadLetters(c') == DeadLetters(c)
            || (DeadLetters(c') == DeadLetters(c) + [x] && Attempts(c, x.id) >= MAX_DELIVERY_ATTEMPTS)
  {
    hide Settled;
  }

  lemma EffectKeepsDead(c: Consumer, o: Outcome)
    requires DeadBacked(c) && Control(c) && c.current.Some?
    ensures DeadBacked(Effect(c, o))
  {
    EffectGrows(c, o);
    EffectDeadLetters(c, o);
  }

  lemma SameDataReached(c: Consumer, c': Consumer, pc: Pc, x: Copy)
    requires SameData(c, c') && Reached(c, pc, x)
    ensures Reached(c', pc, x)
  {
  }

  ghost predicate FlowsWell(c: Consumer, o: Outcome)
    requires c.current.Some?
  {
    var c1 := Effect(c, o);
    c1.current.Some? && (Flow(c1, o).Some? ==> Reached(c1, Flow(c1, o).value, c.current.value.copy))
  }

  lemma TryingFlowsWell(c: Consumer, o: Outcome)
    requires Control(c) && c.current.Some? && Trying(c.current.value.pc)
    ensures FlowsWell(c, o)
  {
  }

  lemma FailingFlowsWell(c: Consumer, o: Outcome)
    requires Control(c) && c.current.Some? && !Trying(c.current.value.pc) && !c.current.value.pc.AtDeadLetter?
    ensures FlowsWell(c, o)
  {
    hide Settled;
  }

  lemma DeadLetterFlowsWell(c: Consumer, o: Outcome)
    requires Control(c) && c.current.Some? && c.current.value.pc.AtDeadLetter?
    ensures FlowsWell(c, o)
  {
  }

  /** What an await leaves behind is what the next program point relies on. */
  lemma FlowReaches(c: Consumer, o: Outcome)
    requires Control(c) && c.current.Some?
    ensures FlowsWell(c, o)
  {
    hide FlowsWell, Control;
    if Trying(c.current.value.pc) { TryingFlowsWell(c, o); }
    else if c.current.value.pc.AtDeadLetter? { DeadLetterFlowsWell(c, o); }
    else { FailingFlowsWell(c, o); }
  }

  lemma StepKeepsControl(c: Consumer, o: Outcome)
    requires Control(c) && c.current.Some?
    ensures Control(StepOf(c, o))
  {
    var c1 := Effect(c, o);
    EffectGrows(c, o);
    FlowReaches(c, o);
    if Flow(c1, o).Some? { SameDataReached(c1, StepOf(c, o), Flow(c1, o).value, c.current.value.copy); }
  }

  /** Who ran and who was marked, from one state to the next. */
  ghost predicate Counts(c: Consumer, c': Consumer, id: string) {
    var marked := (if id in c'.inbox then 1 else 0) - (if id in c.inbox then 1 else 0);
    c'.history.handledIds[id] + c.history.lostMarks[id] + InFlight(c, id)
      <= c.history.handledIds[id] + c'.history.lostMarks[id] + InFlight(c', id) + marked
  }

  lemma TryingCounts(c: Consumer, o: Outcome, id: string)
    requires Control(c) && c.current.Some? && Trying(c.current.value.pc) && id != ""
    ensures Counts(c, StepOf(c, o), id)
  {
    hide Settled;
  }

  lemma FailingCounts(c: Consumer, o: Outcome, id: string)
    requires c.current.Some? && !Trying(c.current.value.pc)
    ensures Counts(c, StepOf(c, o), id)
  {
  }

  lemma StepKeepsBoundedRuns(c: Consumer, o: Outcome, id: string)
    requires BoundedRuns(c, id) && Control(c) && c.current.Some? && id != ""
    ensures BoundedRuns(StepOf(c, o), id)
  {
    hide StepOf, Control;
    if Trying(c.current.value.pc) { TryingCounts(c, o, id); } else { FailingCounts(c, o, id); }
  }

  lemma StepKeepsDuplicates(c: Consumer, o: Outcome)
    requires Duplicates(c) && Control(c) && c.current.Some?
    ensures Duplicates(StepOf(c, o))
  {
    forall id: string | id != "" ensures BoundedRuns(StepOf(c, o), id) {
      StepKeepsBoundedRuns(c, o, id);
    }
  }

  /** Moving control grants a requeue only on the way to the nack. */
  lemma MoveGrants(c: Consumer, to: Option<Pc>, id: string)
    requires c.current.Some?
    ensures Attempts(Move(c, to), id) == Attempts(c, id)
    ensures Granted(Move(c, to), id) ==
            c.history.requeued[id] + if to == Some(AtNack) && c.current.value.copy.id == id then 1 else 0
  {
  }

  /** Only the nack requeues, and only a recorded failure below the limit leads there. */
  lemma EffectGrants(c: Consumer, o: Outcome, id: string)
    requires c.current.Some?
    ensures var d := c.current.value; var c' := Effect(c, o);
            && c'.current.Some? && c'.current.value.copy == d.copy && Attempts(c, id) <= Attempts(c', id)
            && c'.history.requeued[id] <= c.history.requeued[id] + (if d.pc.AtNack? && d.copy.id == id then 1 else 0)
            && (Trying(d.pc) ==> c'.history.requeued[id] == c.history.requeued[id] && c'.attempts == c.attempts)
  {
    hide Move;
  }

  lemma FlowGrants(c: Consumer, o: Outcome, id: string)
    requires c.current.Some? && Flow(Effect(c, o), o) == Some(AtNack)
    ensures var d := c.current.value;
            d.pc.AtRecord? && (d.copy.id == id ==>
              Attempts(Effect(c, o), id) == Attempts(c, id) + 1 < MAX_DELIVERY_ATTEMPTS)
  {
    hide Move;
  }

  lemma TryingGrantsNothing(c: Consumer, o: Outcome, id: string)
    requires c.current.Some? && Trying(c.current.value.pc)
    ensures Granted(StepOf(c, o), id) == Granted(c, id) && Attempts(StepOf(c, o), id) == Attempts(c, id)
  {
    hide Move, Effect, Flow;
    EffectGrants(c, o, id);
    if Flow(Effect(c, o), o) == Some(AtNack) { FlowGrants(c, o, id); }
    MoveGrants(Effect(c, o), Flow(Effect(c, o), o), id);
  }

  lemma FailingKeepsGranted(c: Consumer, o: Outcome, id: string)
    requires Granted(c, id) <= Min(2, Attempts(c, id)) && c.current.Some? && !Trying(c.current.value.pc)
    ensures Granted(StepOf(c, o), id) <= Min(2, Attempts(StepOf(c, o), id))
  {
    hide Move, Effect, Flow;
    EffectGrants(c, o, id);
    if Flow(Effect(c, o), o) == Some(AtNack) { FlowGrants(c, o, id); }
    MoveGrants(Effect(c, o), Flow(Effect(c, o), o), id);
  }

  lemma StepKeepsRequeues(c: Consumer, o: Outcome)
    requires Requeues(c) && c.current.Some?
    ensures Requeues(StepOf(c, o))
  {
    hide StepOf, Granted;
    forall id: string | id != "" ensures Granted(StepOf(c, o), id) <= Min(2, Attempts(StepOf(c, o), id)) {
      if Trying(c.current.value.pc) { TryingGrantsNothing(c, o, id); } else { FailingKeepsGranted(c, o, id); }
    }
  }

  lemma StepKeepsInv(c: Consumer, o: Outcome)
    requires Inv(c) && c.current.Some?
    ensures Inv(StepOf(c, o))
  {
    var c1 := Effect(c, o);
    EffectGrows(c, o);
    EffectKeepsConserved(c, o);
    EffectKeepsReleases(c, o);
    EffectKeepsInbox(c, o);
    EffectKeepsHandledArrived(c, o);
    EffectKeepsDead(c, o);
    MoveIsControl(c1, Flow(c1, o));
    MovedInv(c1, StepOf(c, o));
    StepKeepsControl(c, o);
    StepKeepsDuplicates(c, o);
    StepKeepsRequeues(c, o);
  }

  lemma MovedInv(c: Consumer, c': Consumer)
    requires SameData(c, c') && Custody(c') == Custody(c) && DataInv(c)
    ensures DataInv(c')
  {
  }

  // ---------- every event, every run ----------

  lemma TakeBackConserves(c: Consumer)
    ensures Custody(TakeBack(c)) == Custody(c)
  {
  }

  /** Copies change hands between broker and client; control is dropped, kept, or at the start. */
  lemma RelocatedInv(c: Consumer, c': Consumer)
    requires Inv(c) && SameData(c, c') && Custody(c') == Custody(c) && Control(c')
    requires forall id: string :: id != "" ==> InFlight(c', id) >= InFlight(c, id) && Granted(c', id) <= Granted(c, id)
    ensures Inv(c')
  {
    MovedInv(c, c');
    forall id: string | id != "" ensures BoundedRuns(c', id) && Granted(c', id) <= Min(2, Attempts(c', id)) {
      assert BoundedRuns(c, id) && Granted(c, id) <= Min(2, Attempts(c, id));
    }
  }

  lemma DeliverRelocates(c: Consumer, k: nat)
    requires c.current.None? && k < |c.ready|
    ensures Custody(Apply(c, Deliver(k))) == Custody(c) && c.ready[k] in Custody(c)
  {
    assert c.ready == c.ready[..k] + [c.ready[k]] + c.ready[k + 1..];
  }

  lemma DeliverKeepsInv(c: Consumer, k: nat)
    requires Inv(c) && c.current.None? && k < |c.ready|
    ensures Inv(Apply(c, Deliver(k)))
  {
    hide ReleasesSettled, InboxBacked, HandledArrived, DeadBacked, Duplicates, Requeues, Custody;
    DeliverRelocates(c, k);
    assert c.ready[k] in c.history.arrived;
    RelocatedInv(c, Apply(c, Deliver(k)));
  }

  lemma ConnectionLostKeepsInv(c: Consumer)
    requires Inv(c)
    ensures Inv(Apply(c, ConnectionLost))
  {
    hide ReleasesSettled, InboxBacked, HandledArrived, DeadBacked, Duplicates, Requeues, Conserved, Reached, Custody;
    var c' := TakeBack(c);
    TakeBackConserves(c);
    if c.current.Some? { SameDataReached(c, c', c.current.value.pc, c.current.value.copy); }
    RelocatedInv(c, c');
  }

  ghost function Restarted(c: Consumer): Consumer {
    TakeBack(c).(current := None)
  }

  lemma RestartConserves(c: Consumer)
    ensures Custody(Restarted(c)) == Custody(c)
  {
  }

  /** A crash between the handler's return and the inbox row is the fault the duplicate bound counts. */
  lemma CrashKeepsCounts(c: Consumer, id: string)
    requires BoundedRuns(c, id) && Granted(c, id) <= Min(2, Attempts(c, id))
    ensures var c' := Apply(c, Crash); BoundedRuns(c', id) && Granted(c', id) <= Min(2, Attempts(c', id))
  {
  }

  lemma InboxBackedGrows(c: Consumer, c': Consumer)
    requires InboxBacked(c) && Grows(c, c') && c'.inbox == c.inbox
    ensures InboxBacked(c')
  {
  }

  lemma ReleasesSettledGrow(c: Consumer, c': Consumer)
    requires ReleasesSettled(c) && Grows(c, c') && c'.history.released == c.history.released
    ensures ReleasesSettled(c')
  {
  }

  lemma LoseMarkGrows(c: Consumer)
    requires c.current.Some?
    ensures Grows(c, LoseMark(c))
  {
  }

  lemma LoseMarkKeepsData(c: Consumer)
    requires DataInv(c) && c.current.Some?
    ensures DataInv(LoseMark(c))
  {
    hide InboxBacked, ReleasesSettled, Grows;
    LoseMarkGrows(c);
    InboxBackedGrows(c, LoseMark(c));
    ReleasesSettledGrow(c, LoseMark(c));
  }

  lemma CrashKeepsData(c: Consumer)
    requires DataInv(c)
    ensures DataInv(Apply(c, Crash))
  {
    hide DataInv, Custody;
    var c1 := if c.current.Some? && c.current.value.pc.AtMark? then LoseMark(c) else c;
    if c.current.Some? { LoseMarkKeepsData(c); }
    RestartConserves(c1);
    MovedInv(c1, Restarted(c1));
  }

  lemma CrashKeepsInv(c: Consumer)
    requires Inv(c)
    ensures Inv(Apply(c, Crash))
  {
    CrashKeepsData(c);
    forall id: string | id != ""
      ensures var c' := Apply(c, Crash); BoundedRuns(c', id) && Granted(c', id) <= Min(2, Attempts(c', id))
    {
      assert BoundedRuns(c, id);
      CrashKeepsCounts(c, id);
    }
  }

  lemma ArriveConserves(c: Consumer, x: Copy)
    requires Conserved(c)
    ensures Conserved(Apply(c, Arrive(x)))
  {
  }

  lemma ArriveGrows(c: Consumer, x: Copy)
    ensures Grows(c, Apply(c, Arrive(x)))
  {
  }

  lemma ArriveKeepsData(c: Consumer, x: Copy)
    requires DataInv(c)
    ensures DataInv(Apply(c, Arrive(x)))
  {
    hide InboxBacked, ReleasesSettled, Conserved, Grows;
    ArriveConserves(c, x);
    ArriveGrows(c, x);
    InboxBackedGrows(c, Apply(c, Arrive(x)));
    ReleasesSettledGrow(c, Apply(c, Arrive(x)));
  }

  lemma ArriveKeepsControl(c: Consumer, x: Copy)
    requires Control(c)
    ensures Control(Apply(c, Arrive(x)))
  {
  }

  lemma ArriveKeepsCounts(c: Consumer, x: Copy, id: string)
    requires BoundedRuns(c, id) && Granted(c, id) <= Min(2, Attempts(c, id))
    ensures var c' := Apply(c, Arrive(x)); BoundedRuns(c', id) && Granted(c', id) <= Min(2, Attempts(c', id))
  {
  }

  lemma ArriveKeepsInv(c: Consumer, x: Copy)
    requires Inv(c)
    ensures Inv(Apply(c, Arrive(x)))
  {
    hide DataInv, Control, BoundedRuns, Granted, Apply;
    ArriveKeepsData(c, x);
    ArriveKeepsControl(c, x);
    var c' := Apply(c, Arrive(x));
    forall id: string | id != "" ensures BoundedRuns(c', id) && Granted(c', id) <= Min(2, Attempts(c', id)) {
      assert BoundedRuns(c, id);
      ArriveKeepsCounts(c, x, id);
    }
  }

  lemma ApplyKeepsInv(c: Consumer, e: Event)
    requires Inv(c)
    ensures Inv(Apply(c, e))
  {
    hide Inv;
    match e
    case Arrive(x) => ArriveKeepsInv(c, x);
    case Deliver(k) => if c.current.None? && k < |c.ready| { DeliverKeepsInv(c, k); }
    case Step(o) => if c.current.Some? { StepKeepsInv(c, o); }
    case ConnectionLost => ConnectionLostKeepsInv(c);
    case Crash => CrashKeepsInv(c);
  }

  lemma {:induction false} RunKeepsInv(c: Consumer, events: seq<Event>)
    requires Inv(c)
    ensures Inv(Run(c, events))
    decreases |events|
  {
    hide Inv;
    if events != [] {
      RunKeepsInv(c, events[..|events| - 1]);
      ApplyKeepsInv(Run(c, events[..|events| - 1]), events[|events| - 1]);
    }
  }

  lemma FreshInv()
    ensures Inv(FRESH)
  {
  }

  // ---------- theorems over whole runs ----------

  /** States a consumer can get into from an empty queue, by any events in any order. */
  ghost predicate Reachable(c: Consumer) {
    exists events :: Run(FRESH, events) == c
  }

  lemma ReachableInv(c: Consumer)
    requires Reachable(c)
    ensures Inv(c)
  {
    var events :| Run(FRESH, events) == c;
    FreshInv();
    RunKeepsInv(FRESH, events);
  }

  /** A released copy's fate: handled (itself or a copy with the same id), nothing to handle, or dead-lettered. */
  ghost predicate Accounted(c: Consumer, x: Copy) {
    || x in DeadLetters(c)
    || x.body.JsonNull?
    || exists y :: y in c.history.arrived && y.id == x.id && (y in c.history.handled || y.body.JsonNull?)
  }

  ghost predicate AllAccounted(c: Consumer) {
    && c.history.arrived == Custody(c) + c.history.released
    && forall x :: x in c.history.released && x.id != "" ==> Accounted(c, x)
  }

  /** No silent loss: every copy ever routed to the queue is in the broker's custody or was released,
      and every released copy with a message id is accounted for. */
  lemma NoSilentLoss(c: Consumer)
    requires Reachable(c)
    ensures AllAccounted(c)
  {
    ReachableInv(c);
    InvAccounts(c);
  }

  lemma InvAccounts(c: Consumer)
    requires Inv(c)
    ensures AllAccounted(c)
  {
    forall x | x in c.history.released && x.id != "" ensures Accounted(c, x) {
      assert Settled(c, x);
      if x.id in c.inbox {
        assert Backed(c, x.id);
      } else if x in c.history.handled {
        assert x in c.history.arrived;
      }
    }
  }

  /** Bounded duplication: beyond one run per inbox row, every successful handler run is paid for by
      one fault between the handler's return and that row (or is still on its way to the row). */
  lemma BoundedDuplication(c: Consumer, id: string)
    requires Reachable(c) && id != ""
    ensures c.history.handledIds[id] <= (if id in c.inbox then 1 else 0) + c.history.lostMarks[id] + InFlight(c, id)
    ensures c.history.lostMarks[id] == 0 ==> c.history.handledIds[id] <= 1
  {
    ReachableInv(c);
    assert BoundedRuns(c, id);
    assert InFlight(c, id) == 1 ==> id !in c.inbox;
  }

  /** Over a whole run, crashes included, an id is requeued at most twice. */
  lemma RequeuedAtMostTwice(c: Consumer, id: string)
    requires Reachable(c) && id != ""
    ensures c.history.requeued[id] <= 2
  {
    ReachableInv(c);
    assert Granted(c, id) <= Min(2, Attempts(c, id));
  }

  /** Only a copy that arrived, and whose id failed three times, is ever dead-lettered. */
  lemma DeadLettersAreExhausted(c: Consumer, x: Copy)
    requires Reachable(c) && x in DeadLetters(c)
    ensures x in c.history.arrived && Attempts(c, x.id) >= 3
  {
    ReachableInv(c);
  }

  // ---------- what a delivery comes to ----------

  /** A failure recorded without a fault is followed by another chance if and only if fewer than two were
      recorded before, and otherwise by the dead-letter queue. */
  lemma RecordDecides(c: Consumer, o: Outcome)
    requires c.current.Some? && c.current.value.pc.AtRecord? && o.Done?
    ensures var id := c.current.value.copy.id; var c' := StepOf(c, o);
            && Attempts(c', id) == Attempts(c, id) + 1 && c'.current.Some?
            && (c'.current.value.pc.AtNack? <==> Attempts(c, id) < 2)
            && (c'.current.value.pc.AtDeclare? <==> Attempts(c, id) >= 2)
  {
  }

  /** The await raises, in ReceivedAsync's own try block. */
  ghost predicate Raises(c: Consumer, o: Outcome)
    requires c.current.Some? && Trying(c.current.value.pc)
  {
    match c.current.value.pc
    case AtCheck => !o.Done?
    case AtHandle => c.current.value.copy.body.Malformed? || (c.current.value.copy.body.Event? && !o.Done?)
    case AtMark => o.Threw? || o.ThrewAfterEffect?
    case AtAck => !o.Done?
  }

  /** What raises there, and nothing else, leads to the failure path: to the attempt counter, or without an
      id to the ack. */
  lemma FailuresAreRecorded(c: Consumer, o: Outcome)
    requires c.current.Some? && Trying(c.current.value.pc)
    ensures var x := c.current.value.copy; var c' := StepOf(c, o);
            Raises(c, o) <==> c'.current == Some(Delivery(x, if x.id == "" then AtFailAck else AtRecord,
                                                         Effect(c, o).current.value.held))
  {
  }

  lemma EffectOrNone(c: Consumer, o: Outcome)
    requires c.current.Some? && !o.Done? && !c.current.value.pc.AtHandle?
    ensures o.ThrewAfterEffect? ==> Effect(c, o) == Effect(c, Done)
    ensures !o.ThrewAfterEffect? ==>
              Effect(c, o) == if c.current.value.pc.AtMark? then LoseMark(c) else c
  {
  }

  lemma MoveKeepsReady(c: Consumer, to: Option<Pc>)
    requires c.current.Some?
    ensures Move(c, to).ready == c.ready
  {
  }

  /** An exception that comes after the effect leaves the data of an await without one; any other exception
      leaves the data, and the queue, as they were. */
  lemma FaultsLeave(c: Consumer, o: Outcome)
    requires c.current.Some? && !o.Done? && !c.current.value.pc.AtHandle?
    ensures var c' := StepOf(c, o);
            && (o.ThrewAfterEffect? ==> SameData(StepOf(c, Done), c') && c'.ready == StepOf(c, Done).ready)
            && (!o.ThrewAfterEffect? ==>
                  c'.dead == c.dead && c'.inbox == c.inbox && c'.attempts == c.attempts && c'.ready == c.ready
                  && c'.history == c.history.(lostMarks := c'.history.lostMarks))
  {
    hide Effect, Move, Flow;
    EffectOrNone(c, o);
    EffectGrows(c, o);
    EffectGrows(c, Done);
    MoveIsControl(Effect(c, o), Flow(Effect(c, o), o));
    MoveIsControl(Effect(c, Done), Flow(Effect(c, Done), Done));
    MoveKeepsReady(Effect(c, o), Flow(Effect(c, o), o));
    MoveKeepsReady(Effect(c, Done), Flow(Effect(c, Done), Done));
  }

  /** A fault in the failure path ends the callback there: what the broker still holds stays unacknowledged. */
  lemma FailurePathFaults(c: Consumer, o: Outcome)
    requires c.current.Some? && !Trying(c.current.value.pc) && !o.Done?
    ensures var d := c.current.value; var c' := StepOf(c, o);
            var settled := o.ThrewAfterEffect? && d.pc in {AtFailAck, AtNack, AtDeadAck};
            c'.current.None? && c'.parked == if d.held && !settled then c.parked + [d.copy] else c.parked
  {
  }

  // ---------- retries end ----------

  /** Steps left before the callback returns. */
  ghost function Rank(c: Consumer): nat {
    if c.current.None? then 0 else
    match c.current.value.pc
    case AtCheck => 8 case AtHandle => 7 case AtMark => 6 case AtAck => 5 case AtRecord => 4
    case AtNack => 3 case AtDeclare => 3 case AtDeadLetter => 2 case AtDeadAck => 1 case AtFailAck => 1
  }

  lemma StepRanks(c: Consumer, o: Outcome)
    requires c.current.Some?
    ensures Rank(StepOf(c, o)) < Rank(c)
  {
  }

  /** Deliveries and awaits only, with no fault inside the failure handler itself; everything in
      ReceivedAsync's own try block may still fail. */
  ghost predicate Calm(c: Consumer, e: Event) {
    match e
    case Deliver(_) => true
    case Step(o) => c.current.Some? && c.current.value.pc !in {AtCheck, AtHandle, AtMark, AtAck} ==> o.Done?
    case _ => false
  }

  ghost predicate CalmRun(c: Consumer, events: seq<Event>)
    decreases |events|
  {
    events != [] ==>
      CalmRun(c, events[..|events| - 1]) && Calm(Run(c, events[..|events| - 1]), events[|events| - 1])
  }

  ghost predicate Takes(c: Consumer, e: Event) {
    e.Deliver? && c.current.None? && e.index < |c.ready|
  }

  /** How many copies the broker handed over during a run. */
  ghost function Deliveries(c: Consumer, events: seq<Event>): nat
    decreases |events|
  {
    if events == [] then 0 else
    var init := events[..|events| - 1];
    Deliveries(c, init) + if Takes(Run(c, init), events[|events| - 1]) then 1 else 0
  }

  /** Requeues still available to the listed ids. */
  ghost function Budget(c: Consumer, ids: seq<string>): nat {
    if ids == [] then 0 else 2 - Min(2, Attempts(c, ids[0])) + Budget(c, ids[1..])
  }

  ghost function Potential(c: Consumer, ids: seq<string>): nat {
    |c.ready| + Budget(c, ids) + if c.current.Some? && c.current.value.pc.AtNack? then 1 else 0
  }

  ghost predicate Tracked(c: Consumer, ids: seq<string>) {
    && (forall k :: 0 <= k < |c.ready| ==> c.ready[k].id == "" || c.ready[k].id in ids)
    && (c.current.Some? ==>
          && (c.current.value.copy.id == "" || c.current.value.copy.id in ids)
          && (c.current.value.pc in {AtRecord, AtNack} ==> c.current.value.copy.id != "")
          && (c.current.value.pc == AtFailAck ==> c.current.value.copy.id == ""))
  }

  lemma {:induction false} BudgetKept(c: Consumer, c': Consumer, ids: seq<string>)
    requires c'.attempts == c.attempts
    ensures Budget(c', ids) == Budget(c, ids)
  {
    if ids != [] { BudgetKept(c, c', ids[1..]); }
  }

  lemma {:induction false} BudgetSpent(c: Consumer, ids: seq<string>)
    requires c.current.Some?
    ensures Budget(Record(c), ids) <= Budget(c, ids)
    ensures c.current.value.copy.id in ids && Attempts(c, c.current.value.copy.id) < 2 ==>
              Budget(Record(c), ids) < Budget(c, ids)
  {
    if ids != [] { BudgetSpent(c, ids[1..]); }
  }

  lemma StepKeepsTracked(c: Consumer, o: Outcome, ids: seq<string>)
    requires c.current.Some? && Tracked(c, ids) && Calm(c, Step(o))
    ensures Tracked(StepOf(c, o), ids) && StepOf(c, o).parked == c.parked
  {
  }

  lemma RecordPays(c: Consumer, o: Outcome, ids: seq<string>)
    requires c.current.Some? && c.current.value.pc == AtRecord && Tracked(c, ids) && o.Done?
    ensures Potential(StepOf(c, o), ids) <= Potential(c, ids)
  {
    BudgetSpent(c, ids);
    BudgetKept(Record(c), StepOf(c, o), ids);
  }

  lemma OthersPay(c: Consumer, o: Outcome, ids: seq<string>)
    requires c.current.Some? && c.current.value.pc != AtRecord && Tracked(c, ids) && Calm(c, Step(o))
    ensures Potential(StepOf(c, o), ids) <= Potential(c, ids)
  {
    BudgetKept(c, StepOf(c, o), ids);
  }

  /** A delivery pays one unit of potential; no calm step creates any. */
  lemma StepPays(c: Consumer, o: Outcome, ids: seq<string>)
    requires c.current.Some? && Tracked(c, ids) && Calm(c, Step(o))
    ensures Potential(StepOf(c, o), ids) <= Potential(c, ids)
  {
    hide Potential, Tracked, StepOf;
    if c.current.value.pc == AtRecord { RecordPays(c, o, ids); } else { OthersPay(c, o, ids); }
  }

  lemma DeliverPays(c: Consumer, k: nat, ids: seq<string>)
    requires Takes(c, Deliver(k)) && Tracked(c, ids)
    ensures Tracked(Apply(c, Deliver(k)), ids) && Potential(Apply(c, Deliver(k)), ids) + 1 == Potential(c, ids)
  {
    BudgetKept(c, Apply(c, Deliver(k)), ids);
  }

  lemma {:induction false} RunPays(c: Consumer, events: seq<Event>, ids: seq<string>)
    requires Tracked(c, ids) && CalmRun(c, events)
    ensures Tracked(Run(c, events), ids) && Run(c, events).parked == c.parked
    ensures Deliveries(c, events) + Potential(Run(c, events), ids) <= Potential(c, ids)
    decreases |events|
  {
    if events != [] {
      var init, e := events[..|events| - 1], events[|events| - 1];
      RunPays(c, init, ids);
      if e.Step? && Run(c, init).current.Some? {
        StepKeepsTracked(Run(c, init), e.outcome, ids);
        StepPays(Run(c, init), e.outcome, ids);
      }
      if Takes(Run(c, init), e) { DeliverPays(Run(c, init), e.index, ids); }
    }
  }

  lemma {:induction false} BudgetBound(c: Consumer, ids: seq<string>)
    ensures Budget(c, ids) <= 2 * |ids|
  {
    if ids != [] { BudgetBound(c, ids[1..]); }
  }

  /** Some calm run from c makes n deliveries and ends in c'. */
  ghost predicate Drains(c: Consumer, n: nat, c': Consumer) {
    exists events :: CalmRun(c, events) && Deliveries(c, events) == n && Run(c, events) == c'
  }

  /** Retry termination: while the failure handler itself does not fault, a queue of k copies whose
      ids are among `ids` takes at most k + 2 * |ids| deliveries, in whatever order they come, and
      none of them leaves a copy stuck without an ack or nack. */
  lemma QueueDrains(c: Consumer, n: nat, c': Consumer, ids: seq<string>)
    requires c.current.None? && Drains(c, n, c')
    requires forall k :: 0 <= k < |c.ready| ==> c.ready[k].id == "" || c.ready[k].id in ids
    ensures n <= |c.ready| + 2 * |ids| && c'.parked == c.parked
  {
    var events :| CalmRun(c, events) && Deliveries(c, events) == n && Run(c, events) == c';
    RunPays(c, events, ids);
    BudgetBound(c, ids);
  }

  /** The broker can hand over a copy, or the callback has an await left. */
  ghost predicate Enabled(c: Consumer, e: Event) {
    match e
    case Deliver(_) => Takes(c, e)
    case Step(_) => c.current.Some?
    case _ => false
  }

  ghost predicate Quiescent(c: Consumer) {
    forall e :: !Enabled(c, e)
  }

  lemma QuiescentIsIdle(c: Consumer)
    requires Quiescent(c)
    ensures c.current.None? && c.ready == []
  {
    assert !Enabled(c, Deliver(0)) && !Enabled(c, Step(Done));
  }

  /** And when no step is left the queue is empty: the broker holds just the copies that were stuck before,
      and every other copy that ever arrived has been released and is accounted for. */
  lemma DrainedIsEmpty(c: Consumer, n: nat, c': Consumer)
    requires Inv(c) && c.current.None? && Drains(c, n, c') && Quiescent(c')
    ensures c'.ready == [] && Custody(c') == multiset(c.parked)
    ensures c'.history.arrived == multiset(c.parked) + c'.history.released && AllAccounted(c')
  {
    var events :| CalmRun(c, events) && Deliveries(c, events) == n && Run(c, events) == c';
    var ids := IdsOf(c.ready);
    RunPays(c, events, ids);
    RunKeepsInv(c, events);
    hide Inv, CalmRun, Run, Tracked, Quiescent;
    InvAccounts(c');
    QuiescentIsIdle(c');
  }

  function IdsOf(copies: seq<Copy>): (ids: seq<string>)
    ensures |ids| == |copies| && forall k :: 0 <= k < |copies| ==> ids[k] == copies[k].id
  {
    seq(|copies|, k requires 0 <= k < |copies| => copies[k].id)
  }

  // ---------- work ends ----------

  /** An event that gets the consumer on: a delivery, an await that ends normally, or a connection that comes
      back while the broker waits for an ack of a callback long gone. */
  ghost predicate Works(c: Consumer, e: Event) {
    match e
    case Deliver(_) => Takes(c, e)
    case Step(o) => c.current.Some? && o.Done?
    case ConnectionLost => c.parked != []
    case _ => false
  }

  /** A bound on the work left, while nothing arrives. */
  ghost function Toil(c: Consumer, ids: seq<string>): nat {
    9 * (3 * |c.parked| + Potential(c, ids)) + Rank(c)
  }

  lemma StepWorks(c: Consumer, ids: seq<string>)
    requires c.current.Some? && Tracked(c, ids)
    ensures Toil(StepOf(c, Done), ids) < Toil(c, ids)
  {
    hide Rank, Potential, Tracked, StepOf;
    StepKeepsTracked(c, Done, ids);
    StepPays(c, Done, ids);
    StepRanks(c, Done);
  }

  lemma DeliverWorks(c: Consumer, k: nat, ids: seq<string>)
    requires Takes(c, Deliver(k)) && Tracked(c, ids)
    ensures Toil(Apply(c, Deliver(k)), ids) < Toil(c, ids)
  {
    DeliverPays(c, k, ids);
    hide Potential, Tracked;
  }

  lemma ReconnectWorks(c: Consumer, ids: seq<string>)
    requires c.parked != []
    ensures Toil(Apply(c, ConnectionLost), ids) < Toil(c, ids)
  {
    BudgetKept(c, TakeBack(c), ids);
  }

  /** Every event of work leaves less of it. */
  lemma WorkPays(c: Consumer, e: Event, ids: seq<string>)
    requires Works(c, e) && Tracked(c, ids)
    ensures Toil(Apply(c, e), ids) < Toil(c, ids)
  {
    hide Toil, Tracked, StepOf;
    match e
    case Deliver(k) => DeliverWorks(c, k, ids);
    case Step(_) => StepWorks(c, ids);
    case ConnectionLost => ReconnectWorks(c, ids);
  }

  lemma {:induction false} BudgetOfOneMore(c: Consumer, ids: seq<string>, id: string)
    ensures Budget(c, ids + [id]) <= Budget(c, ids) + 2
  {
    if ids == [] {
      assert ids + [id] == [id];
    } else {
      assert (ids + [id])[1..] == ids[1..] + [id];
      BudgetOfOneMore(c, ids[1..], id);
    }
  }

  /** An arrival costs at most 27 more. */
  lemma ArriveCosts(c: Consumer, x: Copy, ids: seq<string>)
    ensures Toil(Apply(c, Arrive(x)), ids + [x.id]) <= Toil(c, ids) + 27
  {
    BudgetOfOneMore(c, ids, x.id);
    BudgetKept(c, Apply(c, Arrive(x)), ids + [x.id]);
  }

  /** When no work is left, nothing is in custody. */
  lemma NoWorkIsEmpty(c: Consumer)
    requires forall e :: !Works(c, e)
    ensures Custody(c) == multiset{}
  {
    assert !Works(c, Deliver(0)) && !Works(c, Step(Done)) && !Works(c, ConnectionLost);
  }
}
