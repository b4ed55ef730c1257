/** The message store's test cases as verified methods. Each test starts a
    new store, drives it through the store's methods exactly as the test does,
    and promises in its postcondition what the test asserts. Generated ids
    (batch ids, message ids, event ids) are parameters. */
module MessageStoreTests {
  import opened Records
  import M = StoreModel
  import opened MessageStores

  const DefaultTag := Tag("pool", "tag")
  const Tag1 := Tag("poolA", "tag1")
  /** The transport fields every test event carries besides its type. */
  const EventFields: map<string, string> := map["sent_message_id" := "xyz"]

  // ---------------------------------------------------------------------
  // Helpers shared by the tests
  // ---------------------------------------------------------------------

  /** _maybe_batch: with a tag, starts a batch for that tag and hands on
      either the new batch id or the tag; without one, does nothing. */
  method MaybeBatch(store: MessageStore, tag: Option<Tag>, byBatch: bool, freshId: BatchId)
    returns (tagArg: Option<Tag>, batchArg: Option<BatchId>, batchId: Option<BatchId>)
    requires store.Valid()
    requires freshId !in store.batches
    modifies store
    ensures store.Valid()
    ensures tag.None? ==> tagArg.None? && batchArg.None? && batchId.None? && store.State() == old(store.State())
    ensures tag.Some? ==>
              batchId == Some(freshId) &&
              store.State() == M.BatchStart(old(store.State()), freshId, [tag.value], map[])
    ensures tag.Some? && byBatch ==> tagArg.None? && batchArg == batchId
    ensures tag.Some? && !byBatch ==> tagArg == tag && batchArg.None?
  {
    tagArg, batchArg, batchId := None, None, None;
    if tag.Some? {
      var id := store.BatchStart(freshId, [tag.value], map[]);
      batchId := Some(id);
      if byBatch {
        batchArg := Some(id);
      } else {
        tagArg := tag;
      }
    }
  }

  /** _create_outbound: maybe starts a batch, then adds `msg` through the
      batch id or the tag. Both routes store the same state. */
  method CreateOutbound(store: MessageStore, tag: Option<Tag>, byBatch: bool, freshId: BatchId, msg: Message)
    returns (msgId: MessageId, batchId: Option<BatchId>)
    requires store.Valid()
    requires freshId !in store.batches
    modifies store
    ensures store.Valid()
    ensures msgId == msg.messageId
    ensures tag.None? ==>
              batchId.None? &&
              store.State() == M.AddOutboundMessage(old(store.State()), msg, None, None)
    ensures tag.Some? ==>
              batchId == Some(freshId) &&
              store.State() == M.AddOutboundMessage(
                M.BatchStart(old(store.State()), freshId, [tag.value], map[]), msg, None, Some(freshId))
  {
    var tagArg, batchArg;
    tagArg, batchArg, batchId := MaybeBatch(store, tag, byBatch, freshId);
    if tag.Some? {
      M.BatchStartOutcome(old(store.State()), freshId, [tag.value], map[]);
      M.ResolutionByTagMatchesBatchId(store.State(), msg, tag.value, freshId);
    }
    msgId := msg.messageId;
    store.AddOutboundMessage(msg, tagArg, batchArg);
  }

  /** _create_inbound: as _create_outbound, for an inbound message. */
  method CreateInbound(store: MessageStore, tag: Option<Tag>, byBatch: bool, freshId: BatchId, msg: Message)
    returns (msgId: MessageId, batchId: Option<BatchId>)
    requires store.Valid()
    requires freshId !in store.batches
    modifies store
    ensures store.Valid()
    ensures msgId == msg.messageId
    ensures tag.None? ==>
              batchId.None? &&
              store.State() == M.AddInboundMessage(old(store.State()), msg, None, None)
    ensures tag.Some? ==>
              batchId == Some(freshId) &&
              store.State() == M.AddInboundMessage(
                M.BatchStart(old(store.State()), freshId, [tag.value], map[]), msg, None, Some(freshId))
  {
    var tagArg, batchArg;
    tagArg, batchArg, batchId := MaybeBatch(store, tag, byBatch, freshId);
    if tag.Some? {
      M.BatchStartOutcome(old(store.State()), freshId, [tag.value], map[]);
      M.ResolutionByTagMatchesBatchId(store.State(), msg, tag.value, freshId);
    }
    msgId := msg.messageId;
    store.AddInboundMessage(msg, tagArg, batchArg);
  }

  // ---------------------------------------------------------------------
  // Batch lifecycle
  // ---------------------------------------------------------------------

  method TestBatchStart(freshId: BatchId)
    returns (batchId: BatchId, batch: Option<Batch>, info: TagInfo, messages: seq<Message>, status: map<string, nat>)
    ensures messages == []
    ensures batch.Some? && batch.value.tags == [Tag1]
    ensures info.currentBatch == Some(batchId)
    ensures status == M.StatusOf(0, 0, 0, 0)
  {
    var store := new MessageStore();
    batchId := store.BatchStart(freshId, [Tag1], map[]);
    M.BatchStartOutcome(M.Empty(), freshId, [Tag1], map[]);
    batch := store.GetBatch(batchId);
    info := store.GetTagInfo(Tag1);
    messages := store.BatchMessages(batchId);
    status := store.BatchStatus(batchId);
  }

  method TestBatchStartWithMetadata(freshId: BatchId) returns (batch: Option<Batch>)
    ensures batch.Some? && batch.value.tags == []
    ensures "key1" in batch.value.metadata && batch.value.metadata["key1"] == "foo"
    ensures "key2" in batch.value.metadata && batch.value.metadata["key2"] == "bar"
  {
    var store := new MessageStore();
    var batchId := store.BatchStart(freshId, [], map["key1" := "foo", "key2" := "bar"]);
    batch := store.GetBatch(batchId);
  }

  method TestBatchDone(freshId: BatchId) returns (batch: Option<Batch>, info: TagInfo)
    ensures batch.Some? && batch.value.tags == [Tag1]
    ensures info.currentBatch == None
  {
    var store := new MessageStore();
    var batchId := store.BatchStart(freshId, [Tag1], map[]);
    M.BatchStartOutcome(M.Empty(), freshId, [Tag1], map[]);
    ghost var started := store.State();
    var err := store.BatchDone(batchId);
    M.BatchDoneOutcome(started, batchId);
    batch := store.GetBatch(batchId);
    info := store.GetTagInfo(Tag1);
  }

  // ---------------------------------------------------------------------
  // Outbound messages
  // ---------------------------------------------------------------------

  method TestAddOutboundMessage(msg: Message, freshId: BatchId)
    returns (stored: Option<Message>, events: seq<Event>)
    ensures stored == Some(msg)
    ensures events == []
  {
    var store := new MessageStore();
    var msgId, batchId := CreateOutbound(store, None, false, freshId, msg);
    stored := store.GetOutboundMessage(msgId);
    events := store.MessageEvents(msgId);
  }

  /** The outcome shared by the "with batch id" and "with tag" tests. */
  method AddOutboundToNewBatch(byBatch: bool, msg: Message, freshId: BatchId)
    returns (stored: Option<Message>, messages: seq<Message>, events: seq<Event>, status: map<string, nat>)
    ensures stored == Some(msg)
    ensures messages == [msg]
    ensures events == []
    ensures status == M.StatusOf(1, 1, 0, 0)
  {
    var store := new MessageStore();
    var msgId, batchId := CreateOutbound(store, Some(DefaultTag), byBatch, freshId, msg);
    ghost var started := M.BatchStart(M.Empty(), freshId, [DefaultTag], map[]);
    M.BatchStartOutcome(M.Empty(), freshId, [DefaultTag], map[]);
    M.AddOutboundOutcome(started, msg, None, Some(freshId));
    M.AddOutboundCounted(started, msg, None, Some(freshId));
    ghost var added := M.AddOutboundMessage(started, msg, None, Some(freshId));
    assert M.Count(added, freshId, MessageMetric) == 1 && M.Count(added, freshId, SentMetric) == 1;
    assert M.Count(added, freshId, AckMetric) == 0 && M.Count(added, freshId, DeliveryReportMetric) == 0;
    stored := store.GetOutboundMessage(msgId);
    messages := store.BatchMessages(batchId.value);
    events := store.MessageEvents(msgId);
    status := store.BatchStatus(batchId.value);
  }

  method TestAddOutboundMessageWithBatchId(msg: Message, freshId: BatchId)
    returns (stored: Option<Message>, messages: seq<Message>, events: seq<Event>, status: map<string, nat>)
    ensures stored == Some(msg) && messages == [msg] && events == []
    ensures status == M.StatusOf(1, 1, 0, 0)
  {
    stored, messages, events, status := AddOutboundToNewBatch(true, msg, freshId);
  }

  method TestAddOutboundMessageWithTag(msg: Message, freshId: BatchId)
    returns (stored: Option<Message>, messages: seq<Message>, events: seq<Event>, status: map<string, nat>)
    ensures stored == Some(msg) && messages == [msg] && events == []
    ensures status == M.StatusOf(1, 1, 0, 0)
  {
    stored, messages, events, status := AddOutboundToNewBatch(false, msg, freshId);
  }

  // ---------------------------------------------------------------------
  // Events
  // ---------------------------------------------------------------------

  /** A new store holding one outbound message, added through the tag of
      a batch started for it: the state the event tests start from. */
  method OutboundInNewBatch(msg: Message, freshId: BatchId) returns (store: MessageStore, msgId: MessageId)
    ensures fresh(store) && store.Valid()
    ensures msgId == msg.messageId
    ensures M.MessageBatch(store.State(), msgId) == Some(freshId)
    ensures store.events == map[] && M.MessageEvents(store.State(), msgId) == []
    ensures M.BatchStatus(store.State(), freshId) == M.StatusOf(1, 1, 0, 0)
    ensures forall m :: M.Count(store.State(), freshId, m) ==
              if m in {MessageMetric, SentMetric} then 1 else 0
  {
    store := new MessageStore();
    var batchId;
    msgId, batchId := CreateOutbound(store, Some(DefaultTag), false, freshId, msg);
    ghost var started := M.BatchStart(M.Empty(), freshId, [DefaultTag], map[]);
    M.BatchStartOutcome(M.Empty(), freshId, [DefaultTag], map[]);
    M.AddOutboundOutcome(started, msg, None, Some(freshId));
    M.AddOutboundCounted(started, msg, None, Some(freshId));
    ghost var added := M.AddOutboundMessage(started, msg, None, Some(freshId));
    assert M.Count(added, freshId, MessageMetric) == 1 && M.Count(added, freshId, SentMetric) == 1;
    assert M.Count(added, freshId, AckMetric) == 0 && M.Count(added, freshId, DeliveryReportMetric) == 0;
  }

  method TestAddAckEvent(msg: Message, freshId: BatchId, ackId: EventId)
    returns (ack: Event, storedAck: Option<Event>, events: seq<Event>, status: map<string, nat>)
    ensures ack == Event(ackId, msg.messageId, Ack, EventFields)
    ensures storedAck == Some(ack)
    ensures events == [ack]
    ensures status == M.StatusOf(1, 1, 1, 0)
  {
    var store, msgId := OutboundInNewBatch(msg, freshId);
    ghost var added := store.State();
    ack := Event(ackId, msgId, Ack, EventFields);
    store.AddEvent(ack);
    M.AddEventStored(added, ack);
    M.AddEventCounted(added, ack);
    storedAck := store.GetEvent(ackId);
    events := store.MessageEvents(msgId);
    status := store.BatchStatus(freshId);
  }

  method TestAddAckEventWithoutBatch(msg: Message, freshId: BatchId, ackId: EventId)
    returns (ack: Event, storedAck: Option<Event>, events: seq<Event>)
    ensures ack == Event(ackId, msg.messageId, Ack, EventFields)
    ensures storedAck == Some(ack)
    ensures events == [ack]
  {
    var store := new MessageStore();
    var msgId, batchId := CreateOutbound(store, None, false, freshId, msg);
    ghost var added := store.State();
    ack := Event(ackId, msgId, Ack, EventFields);
    store.AddEvent(ack);
    M.AddEventStored(added, ack);
    storedAck := store.GetEvent(ackId);
    events := store.MessageEvents(msgId);
  }

  /** The loop of the delivery report test: for each status, builds a
      delivery report with the next generated event id, records it in `drs`,
      adds it, and reads it back by id. */
  method AddDeliveryReports(store: MessageStore, msgId: MessageId, statuses: seq<string>, eventIds: seq<EventId>)
    returns (drs: seq<Event>)
    requires store.Valid()
    requires |eventIds| == |statuses|
    requires forall i, j :: 0 <= i < j < |eventIds| ==> eventIds[i] != eventIds[j]
    requires forall i :: 0 <= i < |eventIds| ==> eventIds[i] !in store.events
    modifies store
    ensures store.Valid()
    ensures |drs| == |statuses|
    ensures forall i :: 0 <= i < |drs| ==>
              drs[i] == Event(eventIds[i], msgId, DeliveryReport(statuses[i]), EventFields)
    ensures store.State() == M.AddEvents(old(store.State()), drs)
  {
    ghost var before := store.State();
    drs := [];
    var i := 0;
    while i < |statuses|
      invariant 0 <= i <= |statuses|
      invariant store.Valid()
      invariant |drs| == i
      invariant forall k :: 0 <= k < i ==>
                  drs[k] == Event(eventIds[k], msgId, DeliveryReport(statuses[k]), EventFields)
      invariant store.State() == M.AddEvents(before, drs)
      invariant forall j :: i <= j < |eventIds| ==> eventIds[j] !in store.events
    {
      var dr := Event(eventIds[i], msgId, DeliveryReport(statuses[i]), EventFields);
      assert (drs + [dr])[..|drs|] == drs;
      drs := drs + [dr];
      store.AddEvent(dr);
      var stored := store.GetEvent(dr.eventId);
      assert stored == Some(dr);
      i := i + 1;
    }
  }

  /** One delivery report per status, each read back right after it is
      added; the message's events then equal the reports up to order, and
      the batch counts every report whatever its status. */
  method TestAddDeliveryReportEvents(msg: Message, freshId: BatchId, statuses: seq<string>, eventIds: seq<EventId>)
    returns (drs: seq<Event>, events: seq<Event>, status: map<string, nat>)
    requires |eventIds| == |statuses|
    requires forall i, j :: 0 <= i < j < |eventIds| ==> eventIds[i] != eventIds[j]
    ensures |drs| == |statuses|
    ensures forall i :: 0 <= i < |drs| ==>
              drs[i] == Event(eventIds[i], msg.messageId, DeliveryReport(statuses[i]), EventFields)
    ensures multiset(events) == multiset(drs)
    ensures status == M.StatusOf(1, 1, 0, |drs|)
  {
    var store, msgId := OutboundInNewBatch(msg, freshId);
    ghost var added := store.State();
    drs := AddDeliveryReports(store, msgId, statuses, eventIds);
    events := store.MessageEvents(msgId);
    status := store.BatchStatus(freshId);
    M.AddEventsListed(added, msgId, drs);
    M.AddEventsCounted(added, msgId, drs);
    M.TallyDeliveryReports(drs);
    assert events == drs;
    ghost var r := store.State();
    assert M.Count(r, freshId, MessageMetric) == 1;
    assert M.Count(r, freshId, SentMetric) == 1;
    assert M.Count(r, freshId, AckMetric) == 0;
    assert M.Count(r, freshId, DeliveryReportMetric) == |drs|;
  }

  // ---------------------------------------------------------------------
  // Inbound messages
  // ---------------------------------------------------------------------

  method TestAddInboundMessage(msg: Message, freshId: BatchId) returns (stored: Option<Message>)
    ensures stored == Some(msg)
  {
    var store := new MessageStore();
    var msgId, batchId := CreateInbound(store, None, false, freshId, msg);
    stored := store.GetInboundMessage(msgId);
  }

  /** The outcome shared by the "with batch id" and "with tag" tests. */
  method AddInboundToNewBatch(byBatch: bool, msg: Message, freshId: BatchId)
    returns (stored: Option<Message>, replies: seq<Message>)
    ensures stored == Some(msg)
    ensures replies == [msg]
  {
    var store := new MessageStore();
    var msgId, batchId := CreateInbound(store, Some(DefaultTag), byBatch, freshId, msg);
    ghost var started := M.BatchStart(M.Empty(), freshId, [DefaultTag], map[]);
    M.BatchStartOutcome(M.Empty(), freshId, [DefaultTag], map[]);
    M.AddInboundOutcome(started, msg, None, Some(freshId));
    stored := store.GetInboundMessage(msgId);
    replies := store.BatchReplies(batchId.value);
  }

  method TestAddInboundMessageWithBatchId(msg: Message, freshId: BatchId)
    returns (stored: Option<Message>, replies: seq<Message>)
    ensures stored == Some(msg) && replies == [msg]
  {
    stored, replies := AddInboundToNewBatch(true, msg, freshId);
  }

  method TestAddInboundMessageWithTag(msg: Message, freshId: BatchId)
    returns (stored: Option<Message>, replies: seq<Message>)
    ensures stored == Some(msg) && replies == [msg]
  {
    stored, replies := AddInboundToNewBatch(false, msg, freshId);
  }
}
