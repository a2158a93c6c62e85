/** OutboxPublisher as it is written: a foreach over the unpublished rows with a catch around each
    one. It is proved to do exactly what module Outbox says a tick does. */
module OutboxPublishing {
  import opened Common
  import opened Domain
  import opened WorkOrderStore
  import opened Outbox
  import opened Sorting
  import C = Consumer
  import E = SearchIndexing
  import P = Pipeline

  /** The OutboxMessages table seen through one tick's database context. */
  class OutboxContext {
    var rows: seq<OutboxRow>
    var pending: map<nat, int>

    constructor (rows: seq<OutboxRow>)
      ensures this.rows == rows && pending == map[]
    {
      this.rows, pending := rows, map[];
    }

    ghost predicate Knows(id: nat)
      reads this
    {
      exists k :: 0 <= k < |rows| && rows[k].id == id
    }

    method GetUnpublishedOutboxMessages() returns (messages: seq<OutboxRow>)
      ensures messages == OrderBy(Earlier, Unpublished(rows))
    {
      messages := OrderBy(Earlier, Unpublished(rows));
    }

    /** Marks a row in the context and saves the context. A save that raises leaves its marks in the
        context, whether or not it committed; a row that is gone is passed over. */
    method MarkOutboxMessagePublished(id: nat, o: Mark, now: int) returns (raised: bool)
      modifies this
      ensures var marks := old(pending)[id := now];
              if o.ReadThrew? || !old(Knows(id)) then rows == old(rows) && pending == old(pending)
              else && rows == (if o.save.SaveThrew? then old(rows) else MarkRows(old(rows), marks))
                   && pending == (if o.save.Saved? then map[] else marks)
      ensures raised <==> o.ReadThrew? || (old(Knows(id)) && !o.save.Saved?)
    {
      if o.ReadThrew? { return true; }
      var found := false;
      for k := 0 to |rows|
        invariant found <==> exists j :: 0 <= j < k && rows[j].id == id
      {
        if rows[k].id == id { found := true; }
      }
      if !found { return false; }
      pending := pending[id := now];
      if !o.save.SaveThrew? {
        rows := MarkRows(rows, pending);
      }
      if o.save.Saved? {
        pending := map[];
      }
      raised := !o.save.Saved?;
    }
  }

  /** The fanout exchange: what has been published, in order. */
  class RabbitMqEventPublisher {
    var exchange: seq<C.Copy>

    constructor ()
      ensures exchange == []
    {
      exchange := [];
    }

    method PublishAsync(event: CompletedEvent, messageId: string, o: Send) returns (raised: bool)
      modifies this
      ensures exchange == if o.SendThrew? then old(exchange)
              else old(exchange) + [C.Copy(|old(exchange)|, messageId, C.Body.Event(event))]
      ensures raised <==> !o.Sent?
    {
      if !o.SendThrew? {
        exchange := exchange + [C.Copy(|exchange|, messageId, C.Body.Event(event))];
      }
      raised := !o.Sent?;
    }
  }

  function Scripts(script: nat -> RowScript, n: nat): (s: seq<RowScript>)
    ensures |s| == n && forall i :: 0 <= i < n ==> s[i] == script(i)
  {
    seq(n, (i: nat) => script(i))
  }

  class OutboxPublisher {
    const directory: OutboxContext
    const publisher: RabbitMqEventPublisher
    const index: E.ElasticsearchWorkOrderSearchIndex
    ghost var sent: seq<OutboxRow>

    constructor (directory: OutboxContext, publisher: RabbitMqEventPublisher,
                 index: E.ElasticsearchWorkOrderSearchIndex)
      requires publisher.exchange == []
      ensures this.directory == directory && this.publisher == publisher && this.index == index
      ensures Valid() && sent == []
    {
      this.directory, this.publisher, this.index := directory, publisher, index;
      sent := [];
    }

    /** The exchange has been given exactly the messages of the rows handed over. */
    ghost predicate Valid()
      reads this, publisher
    {
      publisher.exchange == P.Messages(sent)
    }

    ghost function View(tick: Option<Tick>): Publisher
      reads this, directory, index
    {
      Publisher(directory.rows, index.documents, sent, tick)
    }

    /** In the middle of a tick, with these rows left. */
    ghost function During(todo: seq<OutboxRow>): Publisher
      reads this, directory, index
    {
      View(Some(Tick(todo, false, directory.pending)))
    }

    /** Publishes or indexes one readable row. */
    method HandOver(message: OutboxRow, o: Send) returns (raised: bool)
      requires Valid() && !message.entry.Unreadable?
      modifies this, publisher, index
      ensures Valid() && (raised <==> !o.Sent?)
      ensures sent == if o.SendThrew? then old(sent) else old(sent) + [message]
      ensures index.documents ==
              if message.entry.Indexing? && !o.SendThrew? then
                old(index.documents)[message.entry.document.id := message.entry.document]
              else old(index.documents)
    {
      if message.entry.Completion? {
        raised := publisher.PublishAsync(message.entry.event, Decimal(message.id), o);
      } else {
        raised := index.IndexAsync(message.entry.document, o);
      }
      P.MessagesGrow(sent, message);
      if !o.SendThrew? {
        sent := sent + [message];
      }
    }

    /** One turn of the loop; whatever happens stays inside it. */
    method PublishMessage(message: OutboxRow, s: RowScript, ghost rest: seq<OutboxRow>)
      requires Valid() && directory.Knows(message.id)
      modifies this, publisher, index, directory
      ensures Valid() && During(rest) == RunRow(old(During([message] + rest)), s)
      ensures forall id :: old(directory.Knows(id)) ==> directory.Knows(id)
    {
      hide P.Messages, Decimal;
      assert ([message] + rest)[1..] == rest;
      if !message.entry.Unreadable? {
        var raised := HandOver(message, s.send);
        if !raised {
          raised := directory.MarkOutboxMessagePublished(message.id, s.mark, s.now);
        }
      }
      forall id | old(directory.Knows(id)) ensures directory.Knows(id) {
        var k :| 0 <= k < |old(directory.rows)| && old(directory.rows)[k].id == id;
        assert directory.rows[k].id == id;
      }
    }

    /** One tick. `script` says how each row's hand-over and mark end. */
    method PublishUnpublishedMessagesAsync(script: nat -> RowScript) returns (ghost messages: seq<OutboxRow>)
      requires Valid()
      modifies this, publisher, index, directory
      ensures messages == OrderBy(Earlier, Unpublished(old(directory.rows)))
      ensures Valid() && View(None) == RunTick(Begin(old(View(None)), messages), Scripts(script, |messages|))
    {
      hide RunRow, P.Messages, MarkRows, OrderBy, Unpublished;
      directory.pending := map[];       // a new scope, a new context
      var todo := directory.GetUnpublishedOutboxMessages();
      messages := todo;
      QueriedAreKnown();
      ghost var scripts := Scripts(script, |todo|);
      ghost var end := RunTick(During(todo), scripts);
      for i := 0 to |todo|
        invariant Valid() && (forall k :: 0 <= k < |todo| ==> directory.Knows(todo[k].id))
        invariant RunTick(During(todo[i..]), scripts[i..]) == end
      {
        assert todo[i..] == [todo[i]] + todo[i + 1..] && scripts[i..][0] == script(i)
               && scripts[i..][1..] == scripts[i + 1..];
        PublishMessage(todo[i], script(i), todo[i + 1..]);
      }
    }

    /** The query returns rows of the table. */
    lemma QueriedAreKnown()
      ensures forall r :: r in OrderBy(Earlier, Unpublished(directory.rows)) ==> directory.Knows(r.id)
    {
      var rows := directory.rows;
      UnpublishedMembers(rows);
      OrderByStable(Earlier, Unpublished(rows));
      forall r | r in OrderBy(Earlier, Unpublished(rows)) ensures directory.Knows(r.id) {
        assert r in multiset(OrderBy(Earlier, Unpublished(rows)));
        assert r in rows;
      }
    }
  }
}
