/** Several consumers over one broker and one pair of inbox tables: who can see whose state. */
module ConsumerHost {
  import opened Common
  import opened Consumer

  const EXCHANGE_NAME := "fieldops.events.WorkOrderCompletedEvent"

  function QueueName(consumer: string): string { EXCHANGE_NAME + "." + consumer }

  function DeadLetterQueueName(consumer: string): string { QueueName(consumer) + ".dead-letter" }

  /** What one consumer process keeps to itself: its unacknowledged copies and its callback. */
  datatype Session = Session(parked: seq<Copy>, current: Option<Delivery>, history: History)

  /** The broker's queues by name, the inbox and attempt rows by (consumer, message id), and the sessions. */
  datatype Host = Host(
    queues: map<string, seq<Copy>>,
    processed: iset<(string, string)>,
    attempts: imap<(string, string), nat>,
    sessions: map<string, Session>)

  // ---------- one consumer's view ----------

  function Queue(queues: map<string, seq<Copy>>, name: string): seq<Copy> {
    if name in queues then queues[name] else []
  }

  ghost function Get(h: Host, a: string): Consumer
    requires a in h.sessions
  {
    Consumer(
      Queue(h.queues, QueueName(a)),
      h.sessions[a].parked,
      h.sessions[a].current,
      if DeadLetterQueueName(a) in h.queues then Some(h.queues[DeadLetterQueueName(a)]) else None,
      iset id: string | (a, id) in h.processed,
      imap id: string | (a, id) in h.attempts :: h.attempts[(a, id)],
      h.sessions[a].history)
  }

  function PutQueues(queues: map<string, seq<Copy>>, a: string, ready: seq<Copy>,
                     dead: Option<seq<Copy>>): map<string, seq<Copy>>
  {
    (queues - {DeadLetterQueueName(a)})[QueueName(a) := ready] +
    (if dead.Some? then map[DeadLetterQueueName(a) := dead.value] else map[])
  }

  ghost function Put(h: Host, a: string, c: Consumer): Host {
    Host(
      PutQueues(h.queues, a, c.ready, c.dead),
      iset k: (string, string) | (if k.0 == a then k.1 in c.inbox else k in h.processed),
      imap k: (string, string) | (if k.0 == a then k.1 in c.attempts else k in h.attempts) ::
        if k.0 == a then c.attempts[k.1] else h.attempts[k],
      h.sessions[a := Session(c.parked, c.current, c.history)])
  }

  // ---------- name collisions ----------

  lemma SameSuffix(p: string, s: string, t: string)
    requires p + s == p + t
    ensures s == t
  {
    assert s == (p + s)[|p|..] && t == (p + t)[|p|..];
  }

  lemma QueueNamesInjective(a: string, b: string)
    requires QueueName(a) == QueueName(b)
    ensures a == b
  {
    SameSuffix(EXCHANGE_NAME + ".", a, b);
  }

  lemma DeadNamesInjective(a: string, b: string)
    requires DeadLetterQueueName(a) == DeadLetterQueueName(b)
    ensures a == b
  {
    var s, t := DeadLetterQueueName(a), DeadLetterQueueName(b);
    assert s[..|QueueName(a)|] == QueueName(a) && t[..|QueueName(b)|] == QueueName(b);
    QueueNamesInjective(a, b);
  }

  /** One consumer's queue is another's dead-letter queue exactly when it is named after it. */
  lemma DeadNameIsQueueName(a: string, b: string)
    ensures DeadLetterQueueName(a) == QueueName(b) <==> b == a + ".dead-letter"
  {
    assert DeadLetterQueueName(a) == QueueName(a + ".dead-letter");
    if DeadLetterQueueName(a) == QueueName(b) {
      QueueNamesInjective(a + ".dead-letter", b);
    }
  }

  predicate Collide(a: string, b: string) {
    a == b || a == b + ".dead-letter" || b == a + ".dead-letter"
  }

  lemma PutThenGet(h: Host, a: string, c: Consumer)
    ensures Get(Put(h, a, c), a) == c
  {
  }

  /** Writing one consumer's state leaves another's alone, when their names do not collide. */
  lemma PutElsewhere(h: Host, a: string, c: Consumer, b: string)
    requires b in h.sessions && !Collide(a, b)
    ensures Get(Put(h, a, c), b) == Get(h, b)
  {
    DeadNameIsQueueName(a, b);
    DeadNameIsQueueName(b, a);
    if QueueName(a) == QueueName(b) { QueueNamesInjective(a, b); }
    if DeadLetterQueueName(a) == DeadLetterQueueName(b) { DeadNamesInjective(a, b); }
    var c' := Get(Put(h, a, c), b);
    assert c'.inbox == Get(h, b).inbox;
    assert c'.attempts == Get(h, b).attempts;
  }

  /** b never sees what a does. */
  ghost predicate Isolated(a: string, b: string) {
    forall h: Host, c: Consumer :: b in h.sessions ==> Get(Put(h, a, c), b) == Get(h, b)
  }

  /** Two consumers share no state if and only if their names do not collide. */
  lemma IsolationIsNoCollision(a: string, b: string)
    ensures Isolated(a, b) && Isolated(b, a) <==> !Collide(a, b)
  {
    if !Collide(a, b) {
      forall h: Host, c: Consumer | b in h.sessions
        ensures Get(Put(h, a, c), b) == Get(h, b)
      {
        PutElsewhere(h, a, c, b);
      }
      forall h: Host, c: Consumer | a in h.sessions
        ensures Get(Put(h, b, c), a) == Get(h, a)
      {
        PutElsewhere(h, b, c, a);
      }
    } else {
      var s := Session([], None, NO_HISTORY);
      var h := Host(map[], iset{}, imap[], map[a := s, b := s]);
      var x := Copy(0, "1", JsonNull);
      var c := FRESH.(ready := [x], dead := Some([x]));
      DeadNameIsQueueName(a, b);
      DeadNameIsQueueName(b, a);
      DeadNameIsQueueName(a, a);
      if a == b + ".dead-letter" {
        assert Get(Put(h, b, c), a).ready != Get(h, a).ready;
      } else {
        assert Get(Put(h, a, c), b).ready != Get(h, b).ready;
      }
    }
  }

  // ---------- interleaved runs ----------

  datatype HostEvent =
    | Publish(copy: Copy)                        // the fanout exchange routes one copy to every bound queue
    | At(consumer: string, event: Event)         // one consumer, its broker connection, or its process acts

  ghost predicate Bound(h: Host, queue: string) {
    exists a :: a in h.sessions && queue == QueueName(a)
  }

  ghost function Fanout(h: Host, x: Copy): Host {
    h.(queues := map q | q in h.queues :: if Bound(h, q) then h.queues[q] + [x] else h.queues[q],
       sessions := map a | a in h.sessions ::
         h.sessions[a].(history := h.sessions[a].history.(arrived := h.sessions[a].history.arrived + multiset{x})))
  }

  ghost function HostApply(h: Host, e: HostEvent): Host {
    match e
    case Publish(x) => Fanout(h, x)
    case At(a, ev) => if a in h.sessions && !ev.Arrive? then Put(h, a, Apply(Get(h, a), ev)) else h
  }

  ghost function HostRun(h: Host, events: seq<HostEvent>): Host
    decreases |events|
  {
    if events == [] then h else HostApply(HostRun(h, events[..|events| - 1]), events[|events| - 1])
  }

  /** What consumer a experiences of one event. */
  function Seen(a: string, e: HostEvent): seq<Event> {
    match e
    case Publish(x) => [Arrive(x)]
    case At(b, ev) => if a == b && !ev.Arrive? then [ev] else []
  }

  function SeenAll(a: string, events: seq<HostEvent>): seq<Event>
    decreases |events|
  {
    if events == [] then [] else SeenAll(a, events[..|events| - 1]) + Seen(a, events[|events| - 1])
  }

  /** Every consumer has declared and bound its queue, and no two names collide. */
  ghost predicate WellNamed(h: Host) {
    && (forall a :: a in h.sessions ==> QueueName(a) in h.queues)
    && (forall a, b :: a in h.sessions && b in h.sessions && a != b ==> !Collide(a, b))
  }

  lemma FanoutArrives(h: Host, x: Copy, a: string)
    requires WellNamed(h) && a in h.sessions
    ensures WellNamed(Fanout(h, x))
    ensures Get(Fanout(h, x), a) == Apply(Get(h, a), Arrive(x))
  {
    var h' := Fanout(h, x);
    assert Bound(h, QueueName(a));
    if Bound(h, DeadLetterQueueName(a)) {
      var b :| b in h.sessions && DeadLetterQueueName(a) == QueueName(b);
      DeadNameIsQueueName(a, b);
      assert |b| > |a|;
      assert Collide(a, b);
    }
    assert Get(h', a).inbox == Get(h, a).inbox;
    assert Get(h', a).attempts == Get(h, a).attempts;
  }

  lemma HostApplySeen(h: Host, e: HostEvent, a: string)
    requires WellNamed(h) && a in h.sessions
    ensures var h' := HostApply(h, e);
            && WellNamed(h') && h'.sessions.Keys == h.sessions.Keys
            && Get(h', a) == Run(Get(h, a), Seen(a, e))
  {
    hide Apply;
    var h' := HostApply(h, e);
    match e
    case Publish(x) =>
      FanoutArrives(h, x, a);
      RunOne(Get(h, a), Arrive(x));
    case At(b, ev) =>
      if b in h.sessions && !ev.Arrive? {
        var c := Apply(Get(h, b), ev);
        PutKeepsNames(h, b, c);
        if a == b {
          PutThenGet(h, a, c);
          RunOne(Get(h, a), ev);
        } else {
          PutElsewhere(h, b, c, a);
        }
      }
  }

  lemma PutKeepsNames(h: Host, a: string, c: Consumer)
    requires WellNamed(h) && a in h.sessions
    ensures WellNamed(Put(h, a, c)) && Put(h, a, c).sessions.Keys == h.sessions.Keys
  {
    forall b | b in h.sessions ensures QueueName(b) in Put(h, a, c).queues {
      DeadNameIsQueueName(a, b);
      if b == a + ".dead-letter" { assert Collide(a, b) && |b| > |a|; }
    }
  }

  lemma RunOne(c: Consumer, e: Event)
    ensures Run(c, [e]) == Apply(c, e)
  {
  }

  lemma {:induction false} RunAppend(c: Consumer, s: seq<Event>, t: seq<Event>)
    ensures Run(c, s + t) == Run(Run(c, s), t)
    decreases |t|
  {
    hide Apply;
    if t == [] {
      assert s + t == s;
    } else {
      assert (s + t)[..|s + t| - 1] == s + t[..|t| - 1];
      RunAppend(c, s, t[..|t| - 1]);
    }
  }

  /** Non-interference: seen from one consumer, any interleaved run of all of them is a run of that
      consumer alone, on the events addressed to it. */
  lemma {:induction false} RunProjects(h: Host, events: seq<HostEvent>, a: string)
    requires WellNamed(h) && a in h.sessions
    ensures var h' := HostRun(h, events);
            && WellNamed(h') && h'.sessions.Keys == h.sessions.Keys
            && Get(h', a) == Run(Get(h, a), SeenAll(a, events))
    decreases |events|
  {
    if events == [] {
    } else {
      var init, e := events[..|events| - 1], events[|events| - 1];
      RunProjects(h, init, a);
      HostApplySeen(HostRun(h, init), e, a);
      RunAppend(Get(h, a), SeenAll(a, init), Seen(a, e));
    }
  }

  ghost predicate Interleaves(h: Host, h': Host) {
    exists events :: HostRun(h, events) == h'
  }

  ghost predicate Alone(c: Consumer, c': Consumer) {
    exists events :: Run(c, events) == c'
  }

  /** What any interleaving of all consumers does to one of them, that one could have done alone. */
  lemma NonInterference(h: Host, h': Host, a: string)
    requires WellNamed(h) && a in h.sessions && Interleaves(h, h')
    ensures a in h'.sessions && Alone(Get(h, a), Get(h', a))
  {
    var events :| HostRun(h, events) == h';
    RunProjects(h, events, a);
    assert Run(Get(h, a), SeenAll(a, events)) == Get(h', a);
  }

  /** Both consumers subscribed, nothing published yet. */
  ghost const START: Host := Host(
    map[QueueName("audit") := [], QueueName("notifications") := []], iset{}, imap[],
    map["audit" := Session([], None, NO_HISTORY), "notifications" := Session([], None, NO_HISTORY)])

  ghost predicate Runs(h: Host) {
    exists events :: HostRun(START, events) == h
  }

  /** The names on the broker: each consumer's queue, and where it puts what it gives up. */
  lemma NamesOnTheBroker()
    ensures START.queues.Keys == {"fieldops.events.WorkOrderCompletedEvent.audit",
                                  "fieldops.events.WorkOrderCompletedEvent.notifications"}
    ensures DeadLetterQueueName("audit") == "fieldops.events.WorkOrderCompletedEvent.audit.dead-letter"
    ensures DeadLetterQueueName("notifications") ==
            "fieldops.events.WorkOrderCompletedEvent.notifications.dead-letter"
  {
    assert QueueName("audit") == "fieldops.events.WorkOrderCompletedEvent.audit";
    assert QueueName("notifications") == "fieldops.events.WorkOrderCompletedEvent.notifications";
  }

  lemma StartIsFresh(a: string)
    requires a in START.sessions
    ensures WellNamed(START) && Get(START, a) == FRESH
  {
  }

  /** The deployed pair: however audit and notifications interleave, each is in a state it could
      have reached alone, so every theorem about one consumer holds of each. */
  lemma EachReachable(h: Host, a: string)
    requires Runs(h) && a in {"audit", "notifications"}
    ensures a in h.sessions && Reachable(Get(h, a))
  {
    var events :| HostRun(START, events) == h;
    StartIsFresh(a);
    RunProjects(START, events, a);
    assert Run(FRESH, SeenAll(a, events)) == Get(h, a);
  }
}
