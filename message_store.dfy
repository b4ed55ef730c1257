/** The message store as an object: the durable record tables, the secondary
    indexes and the counter store are map fields that its methods update in
    place. Every method is proved against the matching function of StoreModel. */
module MessageStores {
  import opened Records
  import M = StoreModel

  class MessageStore {
    // durable records
    var currentBatch: map<Tag, Option<BatchId>>
    var batches: map<BatchId, Batch>
    var outbound: map<MessageId, Message>
    var outboundBatch: map<MessageId, BatchId>
    var inbound: map<MessageId, Message>
    var events: map<EventId, Event>
    // secondary indexes
    var sentIndex: map<BatchId, seq<MessageId>>
    var replyIndex: map<BatchId, seq<MessageId>>
    var eventIndex: map<MessageId, seq<EventId>>
    // counter store
    var counters: map<M.CounterKey, nat>

    /** The store's contents as a value. */
    ghost function State(): M.State
      reads this
    {
      M.State(currentBatch, batches, outbound, outboundBatch, inbound, events,
              sentIndex, replyIndex, eventIndex, counters)
    }

    ghost predicate Valid()
      reads this
    {
      M.Valid(State())
    }

    /** A store over empty backends. */
    constructor ()
      ensures Valid()
      ensures State() == M.Empty()
    {
      currentBatch, batches := map[], map[];
      outbound, outboundBatch, inbound, events := map[], map[], map[], map[];
      sentIndex, replyIndex, eventIndex := map[], map[], map[];
      counters := map[];
      new;
      M.EmptyValid();
    }

    // -------------------------------------------------------------------
    // Batch lifecycle
    // -------------------------------------------------------------------

    /** The current-batch map with each of `tags` set to batch `id`, one tag at a time. */
    method PointedTags(tags: seq<Tag>, id: BatchId) returns (targets: map<Tag, Option<BatchId>>)
      ensures targets == M.PointTags(currentBatch, tags, id)
    {
      targets := currentBatch;
      var i := 0;
      while i < |tags|
        invariant 0 <= i <= |tags|
        invariant targets == M.PointTags(currentBatch, tags[..i], id)
      {
        assert tags[..i + 1][..i] == tags[..i];
        targets := targets[tags[i] := Some(id)];
        i := i + 1;
      }
      assert tags[..i] == tags;
    }

    /** The current-batch map with each of `tags` that still resolves to batch `id`
        cleared, one tag at a time. */
    method ReleasedTags(tags: seq<Tag>, id: BatchId) returns (targets: map<Tag, Option<BatchId>>)
      ensures targets == M.ReleaseTags(currentBatch, tags, id)
    {
      targets := currentBatch;
      var i := 0;
      while i < |tags|
        invariant 0 <= i <= |tags|
        invariant targets == M.ReleaseTags(currentBatch, tags[..i], id)
      {
        assert tags[..i + 1][..i] == tags[..i];
        var t := tags[i];
        if t in targets && targets[t] == Some(id) {
          targets := targets[t := None];
        }
        i := i + 1;
      }
      assert tags[..i] == tags;
    }

    /** batch_start: `id` is the freshly generated batch id. */
    method BatchStart(id: BatchId, tags: seq<Tag>, metadata: map<string, string>) returns (batchId: BatchId)
      requires Valid()
      requires id !in batches
      modifies this
      ensures Valid()
      ensures batchId == id
      ensures State() == M.BatchStart(old(State()), id, tags, metadata)
    {
      ghost var after := M.BatchStart(State(), id, tags, metadata);
      M.BatchStartKeepsValid(State(), id, tags, metadata);
      var targets := PointedTags(tags, id);
      batches, currentBatch, sentIndex, replyIndex, counters :=
        batches[id := Batch(tags, metadata, false)], targets,
        sentIndex[id := []], replyIndex[id := []], M.ZeroCounters(counters, id);
      assert State() == after;
      batchId := id;
    }

    /** batch_done: NotFound for an unknown batch id. */
    method BatchDone(id: BatchId) returns (err: Option<M.StoreError>)
      requires Valid()
      modifies this
      ensures Valid()
      ensures err.Some? <==> M.BatchDone(old(State()), id).Err?
      ensures err.Some? ==> err.value == M.NotFound(id) && State() == old(State())
      ensures err.None? ==> State() == M.BatchDone(old(State()), id).value
    {
      if id !in batches {
        return Some(M.NotFound(id));
      }
      ghost var before := State();
      var tags := batches[id].tags;
      var targets := ReleasedTags(tags, id);
      batches, currentBatch := batches[id := batches[id].(done := true)], targets;
      assert State() == M.BatchDone(before, id).value;
      M.BatchDoneOutcome(before, id);
      err := None;
    }

    method GetBatch(id: BatchId) returns (batch: Option<Batch>)
      ensures batch == M.GetBatch(State(), id)
    {
      batch := if id in batches then Some(batches[id]) else None;
    }

    method GetTagInfo(tag: Tag) returns (info: TagInfo)
      ensures info == M.GetTagInfo(State(), tag)
    {
      info := TagInfo(tag, if tag in currentBatch then currentBatch[tag] else None);
    }

    // -------------------------------------------------------------------
    // Message ingestion
    // -------------------------------------------------------------------

    /** The batch a message being added belongs to. */
    method ResolveBatch(tag: Option<Tag>, batchId: Option<BatchId>) returns (b: Option<BatchId>)
      ensures b == M.ResolveBatch(State(), tag, batchId)
    {
      b := batchId;
      if b.None? && tag.Some? {
        b := if tag.value in currentBatch then currentBatch[tag.value] else None;
      }
    }

    method AddOutboundMessage(msg: Message, tag: Option<Tag>, batchId: Option<BatchId>)
      requires Valid()
      modifies this
      ensures Valid()
      ensures State() == M.AddOutboundMessage(old(State()), msg, tag, batchId)
    {
      ghost var before := State();
      var b := ResolveBatch(tag, batchId);
      var id := msg.messageId;
      var batchOf, sent, counts := outboundBatch - {id}, sentIndex, counters;
      if b.Some? {
        batchOf := outboundBatch[id := b.value];
        sent := M.Append(sentIndex, b.value, id);
        counts := M.Increment(M.Increment(counters, b.value, MessageMetric), b.value, SentMetric);
      }
      outbound, outboundBatch, sentIndex, counters := outbound[id := msg], batchOf, sent, counts;
      M.AddOutboundKeepsValid(before, msg, tag, batchId);
    }

    method AddInboundMessage(msg: Message, tag: Option<Tag>, batchId: Option<BatchId>)
      requires Valid()
      modifies this
      ensures Valid()
      ensures State() == M.AddInboundMessage(old(State()), msg, tag, batchId)
    {
      ghost var before := State();
      var b := ResolveBatch(tag, batchId);
      var id := msg.messageId;
      inbound := inbound[id := msg];
      if b.Some? {
        replyIndex := M.Append(replyIndex, b.value, id);
        counters := M.Increment(counters, b.value, MessageMetric);
      }
      M.AddInboundKeepsValid(before, msg, tag, batchId);
    }

    method GetOutboundMessage(id: MessageId) returns (msg: Option<Message>)
      ensures msg == M.GetOutboundMessage(State(), id)
    {
      msg := if id in outbound then Some(outbound[id]) else None;
    }

    method GetInboundMessage(id: MessageId) returns (msg: Option<Message>)
      ensures msg == M.GetInboundMessage(State(), id)
    {
      msg := if id in inbound then Some(inbound[id]) else None;
    }

    /** The outbound messages of a batch, fetched one by one in index order. */
    method BatchMessages(id: BatchId) returns (msgs: seq<Message>)
      requires Valid()
      ensures msgs == M.BatchMessages(State(), id)
    {
      var keys := M.IndexOf(sentIndex, id);
      msgs := [];
      var i := 0;
      while i < |keys|
        invariant 0 <= i <= |keys|
        invariant msgs == M.Lookup(keys[..i], outbound)
      {
        assert keys[..i + 1][..i] == keys[..i];
        msgs := msgs + [outbound[keys[i]]];
        i := i + 1;
      }
      assert keys[..i] == keys;
    }

    /** The inbound messages of a batch, fetched one by one in index order. */
    method BatchReplies(id: BatchId) returns (msgs: seq<Message>)
      requires Valid()
      ensures msgs == M.BatchReplies(State(), id)
    {
      var keys := M.IndexOf(replyIndex, id);
      msgs := [];
      var i := 0;
      while i < |keys|
        invariant 0 <= i <= |keys|
        invariant msgs == M.Lookup(keys[..i], inbound)
      {
        assert keys[..i + 1][..i] == keys[..i];
        msgs := msgs + [inbound[keys[i]]];
        i := i + 1;
      }
      assert keys[..i] == keys;
    }

    // -------------------------------------------------------------------
    // Event correlation
    // -------------------------------------------------------------------

    /** add_event: an event id already stored is left as it is. */
    method AddEvent(e: Event)
      requires Valid()
      modifies this
      ensures Valid()
      ensures State() == M.AddEvent(old(State()), e)
    {
      if e.eventId in events {
        return;
      }
      ghost var before := State();
      var b := if e.userMessageId in outboundBatch then Some(outboundBatch[e.userMessageId]) else None;
      events := events[e.eventId := e];
      eventIndex := M.Append(eventIndex, e.userMessageId, e.eventId);
      counters := M.CountEvent(counters, b, EventMetric(e.eventType));
      M.AddEventKeepsValid(before, e);
    }

    method GetEvent(id: EventId) returns (e: Option<Event>)
      ensures e == M.GetEvent(State(), id)
    {
      e := if id in events then Some(events[id]) else None;
    }

    /** The events of a message, fetched one by one from its event index. */
    method MessageEvents(id: MessageId) returns (evs: seq<Event>)
      requires Valid()
      ensures evs == M.MessageEvents(State(), id)
    {
      var keys := M.IndexOf(eventIndex, id);
      evs := [];
      var i := 0;
      while i < |keys|
        invariant 0 <= i <= |keys|
        invariant evs == M.Lookup(keys[..i], events)
      {
        assert keys[..i + 1][..i] == keys[..i];
        evs := evs + [events[keys[i]]];
        i := i + 1;
      }
      assert keys[..i] == keys;
    }

    // -------------------------------------------------------------------
    // Status
    // -------------------------------------------------------------------

    /** batch_status: the four counters of the batch, read from the counter
        store only. */
    method BatchStatus(id: BatchId) returns (status: map<string, nat>)
      ensures status == M.BatchStatus(State(), id)
    {
      status := M.StatusOf(M.CountIn(counters, id, MessageMetric), M.CountIn(counters, id, SentMetric),
                           M.CountIn(counters, id, AckMetric), M.CountIn(counters, id, DeliveryReportMetric));
    }
  }
}
