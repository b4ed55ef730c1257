/** The message store as a value: its tables, indexes and counters, the
    operations as functions from state to state, and what they guarantee. */
module StoreModel {
  import opened Records

  /** The key of one counter in the counter store: a batch and a metric. */
  datatype CounterKey = CounterKey(batch: BatchId, metric: Metric)

  datatype StoreError = NotFound(batchId: BatchId)

  datatype Result<T> = Ok(value: T) | Err(error: StoreError)

  /** Everything the store holds. `outboundBatch` is the batch an outbound
      message was resolved to when it was stored (absent when untracked). */
  datatype State = State(
    currentBatch: map<Tag, Option<BatchId>>,
    batches: map<BatchId, Batch>,
    outbound: map<MessageId, Message>,
    outboundBatch: map<MessageId, BatchId>,
    inbound: map<MessageId, Message>,
    events: map<EventId, Event>,
    sentIndex: map<BatchId, seq<MessageId>>,
    replyIndex: map<BatchId, seq<MessageId>>,
    eventIndex: map<MessageId, seq<EventId>>,
    counters: map<CounterKey, nat>)

  function Empty(): State
  {
    State(map[], map[], map[], map[], map[], map[], map[], map[], map[], map[])
  }

  // ---------------------------------------------------------------------
  // Indexes: ordered lists of record keys, one per owner
  // ---------------------------------------------------------------------

  function IndexOf<O, K>(index: map<O, seq<K>>, owner: O): seq<K>
  {
    if owner in index then index[owner] else []
  }

  /** Appends `key` to the owner's index and leaves every other index alone. */
  function Append<O(!new), K>(index: map<O, seq<K>>, owner: O, key: K): (r: map<O, seq<K>>)
    ensures IndexOf(r, owner) == IndexOf(index, owner) + [key]
    ensures forall o :: o != owner ==> IndexOf(r, o) == IndexOf(index, o)
  {
    index[owner := IndexOf(index, owner) + [key]]
  }

  /** Every key listed in an index names a stored record. */
  ghost predicate Resolves<O, K, V>(index: map<O, seq<K>>, table: map<K, V>)
  {
    forall o, i :: o in index && 0 <= i < |index[o]| ==> index[o][i] in table
  }

  /** The records an index lists, in index order. */
  function Lookup<K, V>(keys: seq<K>, table: map<K, V>): (r: seq<V>)
    requires forall i :: 0 <= i < |keys| ==> keys[i] in table
    ensures |r| == |keys|
    ensures forall i :: 0 <= i < |keys| ==> r[i] == table[keys[i]]
  {
    if keys == [] then []
    else Lookup(keys[..|keys| - 1], table) + [table[keys[|keys| - 1]]]
  }

  /** Listing one more key lists its record last. */
  lemma LookupSnoc<K, V>(keys: seq<K>, table: map<K, V>, k: K)
    requires forall i :: 0 <= i < |keys| ==> keys[i] in table
    requires k in table
    ensures Lookup(keys + [k], table) == Lookup(keys, table) + [table[k]]
  {
    assert (keys + [k])[..|keys|] == keys;
  }

  /** Proof step for AddEventsListedStep: a non-empty sequence is its front
      followed by its last element. */
  lemma SplitLast<T>(xs: seq<T>)
    requires xs != []
    ensures xs == xs[..|xs| - 1] + [xs[|xs| - 1]]
  {
  }

  /** Proof step for AddEventsListedStep: appending after a concatenation. */
  lemma AppendAfter<T>(xs: seq<T>, ys: seq<T>, y: T)
    ensures xs + ys + [y] == xs + (ys + [y])
  {
  }

  /** Proof step for ReAddOutboundListedTwice: appending twice is appending a pair. */
  lemma AppendTwice<T>(xs: seq<T>, x: T)
    ensures xs + [x] + [x] == xs + [x, x]
  {
  }

  /** Storing a record under a new key changes no existing index listing. */
  lemma LookupNewKey<K, V>(keys: seq<K>, table: map<K, V>, k: K, v: V)
    requires forall i :: 0 <= i < |keys| ==> keys[i] in table
    requires k !in table
    ensures Lookup(keys, table[k := v]) == Lookup(keys, table)
  {
  }

  /** Appending a new key to an index and storing its record appends the record. */
  lemma LookupAppend<K, V>(keys: seq<K>, table: map<K, V>, k: K, v: V)
    requires forall i :: 0 <= i < |keys| ==> keys[i] in table
    requires k !in table
    ensures Lookup(keys + [k], table[k := v]) == Lookup(keys, table) + [v]
  {
  }

  // ---------------------------------------------------------------------
  // Counters: one per (batch, metric), absent counters read as 0
  // ---------------------------------------------------------------------

  function CountIn(counters: map<CounterKey, nat>, b: BatchId, m: Metric): nat
  {
    var key := CounterKey(b, m);
    if key in counters then counters[key] else 0
  }

  /** The counter store's atomic increment: +1 on one counter, no other change. */
  function Increment(counters: map<CounterKey, nat>, b: BatchId, m: Metric): (r: map<CounterKey, nat>)
    ensures CountIn(r, b, m) == CountIn(counters, b, m) + 1
    ensures forall b', m' :: (b', m') != (b, m) ==> CountIn(r, b', m') == CountIn(counters, b', m')
  {
    counters[CounterKey(b, m) := CountIn(counters, b, m) + 1]
  }

  /** Resets the four counters of batch `b` so that each reads 0, and no
      other counter. */
  function ZeroCounters(counters: map<CounterKey, nat>, b: BatchId): (r: map<CounterKey, nat>)
    ensures forall m :: CountIn(r, b, m) == 0
    ensures forall b', m :: b' != b ==> CountIn(r, b', m) == CountIn(counters, b', m)
  {
    map k | k in counters && k.batch != b :: counters[k]
  }

  function Count(s: State, b: BatchId, m: Metric): nat
  {
    CountIn(s.counters, b, m)
  }

  /** A status report: each of the four metric names mapped to its count. */
  function StatusOf(message: nat, sent: nat, ack: nat, deliveryReport: nat): map<string, nat>
  {
    map[MetricName(AckMetric) := ack, MetricName(DeliveryReportMetric) := deliveryReport,
        MetricName(MessageMetric) := message, MetricName(SentMetric) := sent]
  }

  // ---------------------------------------------------------------------
  // The store invariant
  // ---------------------------------------------------------------------

  /** Every event listed under a message is stored and is about that message,
      and every stored event is listed under the message it is about. */
  ghost predicate Correlated(index: map<MessageId, seq<EventId>>, events: map<EventId, Event>)
  {
    && (forall m, i :: m in index && 0 <= i < |index[m]| ==>
          index[m][i] in events && events[index[m][i]].userMessageId == m)
    && (forall k :: k in events ==> k in IndexOf(index, events[k].userMessageId))
  }

  /** Index entries point at stored records, events are listed under the
      message they are about, a batch association belongs to a stored
      outbound message, and a tag's current batch is a stored batch that was
      started with that tag. */
  ghost predicate Valid(s: State)
  {
    && Resolves(s.sentIndex, s.outbound)
    && Resolves(s.replyIndex, s.inbound)
    && Correlated(s.eventIndex, s.events)
    && s.outboundBatch.Keys <= s.outbound.Keys
    && (forall t :: t in s.currentBatch && s.currentBatch[t].Some? ==>
          s.currentBatch[t].value in s.batches && t in s.batches[s.currentBatch[t].value].tags)
  }

  // ---------------------------------------------------------------------
  // Queries
  // ---------------------------------------------------------------------

  function GetBatch(s: State, id: BatchId): Option<Batch>
  {
    if id in s.batches then Some(s.batches[id]) else None
  }

  /** A tag never started with reports no current batch rather than failing. */
  function GetTagInfo(s: State, t: Tag): TagInfo
  {
    TagInfo(t, if t in s.currentBatch then s.currentBatch[t] else None)
  }

  function GetOutboundMessage(s: State, id: MessageId): Option<Message>
  {
    if id in s.outbound then Some(s.outbound[id]) else None
  }

  function GetInboundMessage(s: State, id: MessageId): Option<Message>
  {
    if id in s.inbound then Some(s.inbound[id]) else None
  }

  function GetEvent(s: State, id: EventId): Option<Event>
  {
    if id in s.events then Some(s.events[id]) else None
  }

  /** The batch an outbound message was resolved to when it was stored. */
  function MessageBatch(s: State, id: MessageId): Option<BatchId>
  {
    if id in s.outboundBatch then Some(s.outboundBatch[id]) else None
  }

  function BatchMessages(s: State, b: BatchId): seq<Message>
    requires Valid(s)
  {
    Lookup(IndexOf(s.sentIndex, b), s.outbound)
  }

  function BatchReplies(s: State, b: BatchId): seq<Message>
    requires Valid(s)
  {
    Lookup(IndexOf(s.replyIndex, b), s.inbound)
  }

  function MessageEvents(s: State, id: MessageId): seq<Event>
    requires Valid(s)
  {
    Lookup(IndexOf(s.eventIndex, id), s.events)
  }

  /** Read from the counters alone, never from the indexes. */
  function BatchStatus(s: State, b: BatchId): map<string, nat>
  {
    StatusOf(Count(s, b, MessageMetric), Count(s, b, SentMetric),
             Count(s, b, AckMetric), Count(s, b, DeliveryReportMetric))
  }

  // ---------------------------------------------------------------------
  // Batch lifecycle
  // ---------------------------------------------------------------------

  /** Points every tag in `tags` at batch `id`, one tag after another. */
  function PointTags(current: map<Tag, Option<BatchId>>, tags: seq<Tag>, id: BatchId)
    : (r: map<Tag, Option<BatchId>>)
    ensures forall t :: t in tags ==> t in r && r[t] == Some(id)
    ensures forall t :: t !in tags ==> (t in r <==> t in current)
    ensures forall t :: t !in tags && t in current ==> r[t] == current[t]
  {
    if tags == [] then current
    else
      var init, last := tags[..|tags| - 1], tags[|tags| - 1];
      assert tags == init + [last];
      PointTags(current, init, id)[last := Some(id)]
  }

  /** Clears the current batch of each tag in `tags` that still
      points at batch `id`; a tag moved on to another batch keeps it. */
  function ReleaseTags(current: map<Tag, Option<BatchId>>, tags: seq<Tag>, id: BatchId)
    : (r: map<Tag, Option<BatchId>>)
    ensures r.Keys == current.Keys
    ensures forall t :: t in current ==>
              r[t] == if t in tags && current[t] == Some(id) then None else current[t]
  {
    if tags == [] then current
    else
      var init, last := tags[..|tags| - 1], tags[|tags| - 1];
      assert tags == init + [last];
      var r := ReleaseTags(current, init, id);
      if last in r && r[last] == Some(id) then r[last := None] else r
  }

  /** batch_start: stores a new batch under the fresh id `id` with the given
      tags and metadata, makes it the current batch of each tag, and starts
      it with empty indexes and all four counters at 0. */
  function BatchStart(s: State, id: BatchId, tags: seq<Tag>, metadata: map<string, string>): State
    requires id !in s.batches
  {
    s.(batches := s.batches[id := Batch(tags, metadata, false)],
       currentBatch := PointTags(s.currentBatch, tags, id),
       sentIndex := s.sentIndex[id := []],
       replyIndex := s.replyIndex[id := []],
       counters := ZeroCounters(s.counters, id))
  }

  /** batch_done: marks the batch done and releases the tags that still
      point at it; an unknown batch id is NotFound. */
  function BatchDone(s: State, id: BatchId): Result<State>
  {
    if id !in s.batches then Err(NotFound(id))
    else
      var batch := s.batches[id];
      Ok(s.(batches := s.batches[id := batch.(done := true)],
            currentBatch := ReleaseTags(s.currentBatch, batch.tags, id)))
  }

  // ---------------------------------------------------------------------
  // Message ingestion
  // ---------------------------------------------------------------------

  /** The batch a new message belongs to: the explicit batch id if given,
      otherwise the tag's current batch, otherwise none (untracked). */
  function ResolveBatch(s: State, tag: Option<Tag>, batchId: Option<BatchId>): Option<BatchId>
  {
    if batchId.Some? then batchId
    else if tag.Some? then GetTagInfo(s, tag.value).currentBatch
    else None
  }

  /** add_outbound_message: stores the message; when it resolves to a batch,
      appends it to the batch's sent index and counts it in `message` and `sent`. */
  function AddOutboundMessage(s: State, msg: Message, tag: Option<Tag>, batchId: Option<BatchId>): State
  {
    var id := msg.messageId;
    var res := ResolveBatch(s, tag, batchId);
    s.(outbound := s.outbound[id := msg],
       outboundBatch := if res.Some? then s.outboundBatch[id := res.value] else s.outboundBatch - {id},
       sentIndex := if res.Some? then Append(s.sentIndex, res.value, id) else s.sentIndex,
       counters := if res.Some? then Increment(Increment(s.counters, res.value, MessageMetric), res.value, SentMetric)
                   else s.counters)
  }

  /** add_inbound_message: stores the message; when it resolves to a batch,
      appends it to the batch's reply index and counts it in `message` only. */
  function AddInboundMessage(s: State, msg: Message, tag: Option<Tag>, batchId: Option<BatchId>): State
  {
    var id := msg.messageId;
    var res := ResolveBatch(s, tag, batchId);
    s.(inbound := s.inbound[id := msg],
       replyIndex := if res.Some? then Append(s.replyIndex, res.value, id) else s.replyIndex,
       counters := if res.Some? then Increment(s.counters, res.value, MessageMetric) else s.counters)
  }

  // ---------------------------------------------------------------------
  // Event correlation
  // ---------------------------------------------------------------------

  /** add_event: stores the event, appends it to its message's event index
      whether or not that message is known, and counts it in its batch when
      the message was stored with a batch. Events are immutable and keyed by
      their id: an event id already stored is not stored, listed or counted
      again. */
  function AddEvent(s: State, e: Event): State
  {
    if e.eventId in s.events then s
    else
      s.(events := s.events[e.eventId := e],
         eventIndex := Append(s.eventIndex, e.userMessageId, e.eventId),
         counters := CountEvent(s.counters, MessageBatch(s, e.userMessageId), EventMetric(e.eventType)))
  }

  /** Counts an event in metric `m` of batch `b` when it has both. */
  function CountEvent(counters: map<CounterKey, nat>, b: Option<BatchId>, m: Option<Metric>): map<CounterKey, nat>
  {
    if b.Some? && m.Some? then Increment(counters, b.value, m.value) else counters
  }

  /** CountEvent raises the one counter it names, if it names one, and no other. */
  lemma CountEventCounts(counters: map<CounterKey, nat>, batch: Option<BatchId>, metric: Option<Metric>)
    ensures forall b, m :: CountIn(CountEvent(counters, batch, metric), b, m) ==
              if batch == Some(b) && metric == Some(m) then CountIn(counters, b, m) + 1
              else CountIn(counters, b, m)
  {
  }

  /** Adds the events one after another, in order. */
  function AddEvents(s: State, evs: seq<Event>): State
  {
    if evs == [] then s
    else AddEvent(AddEvents(s, evs[..|evs| - 1]), evs[|evs| - 1])
  }

  /** The number of events in `evs` counted in metric `m`. */
  function Tally(evs: seq<Event>, m: Metric): nat
  {
    if evs == [] then 0
    else Tally(evs[..|evs| - 1], m) + (if EventMetric(evs[|evs| - 1].eventType) == Some(m) then 1 else 0)
  }

  // ---------------------------------------------------------------------
  // What each operation guarantees
  // ---------------------------------------------------------------------

  lemma EmptyValid()
    ensures Valid(Empty())
  {
  }

  /** An index that resolves into a table still resolves after a key is
      appended whose record is stored. */
  lemma AppendResolves<O(!new), K, V>(index: map<O, seq<K>>, table: map<K, V>, owner: O, k: K, v: V)
    requires Resolves(index, table)
    ensures Resolves(Append(index, owner, k), table[k := v])
  {
    var r := Append(index, owner, k);
    forall o, i | o in r && 0 <= i < |r[o]| ensures r[o][i] in table[k := v] {
      assert r[o] == IndexOf(r, o);
      if o != owner || i < |IndexOf(index, owner)| {
        assert r[o][i] == index[o][i];
      }
    }
  }

  lemma AddOutboundKeepsValid(s: State, msg: Message, tag: Option<Tag>, batchId: Option<BatchId>)
    requires Valid(s)
    ensures Valid(AddOutboundMessage(s, msg, tag, batchId))
  {
    var res := ResolveBatch(s, tag, batchId);
    if res.Some? {
      AppendResolves(s.sentIndex, s.outbound, res.value, msg.messageId, msg);
    }
  }

  lemma AddInboundKeepsValid(s: State, msg: Message, tag: Option<Tag>, batchId: Option<BatchId>)
    requires Valid(s)
    ensures Valid(AddInboundMessage(s, msg, tag, batchId))
  {
    var res := ResolveBatch(s, tag, batchId);
    if res.Some? {
      AppendResolves(s.replyIndex, s.inbound, res.value, msg.messageId, msg);
    }
  }

  lemma AddEventKeepsValid(s: State, e: Event)
    requires Valid(s)
    ensures Valid(AddEvent(s, e))
  {
    if e.eventId !in s.events {
      var r := AddEvent(s, e);
      forall m, i | m in r.eventIndex && 0 <= i < |r.eventIndex[m]|
        ensures r.eventIndex[m][i] in r.events && r.events[r.eventIndex[m][i]].userMessageId == m
      {
        assert r.eventIndex[m] == IndexOf(r.eventIndex, m);
        if m != e.userMessageId || i < |IndexOf(s.eventIndex, m)| {
          assert r.eventIndex[m][i] == s.eventIndex[m][i];
        }
      }
    }
  }

  /** The events listed for a message are all about that message. */
  lemma MessageEventsCorrelate(s: State, id: MessageId)
    requires Valid(s)
    ensures forall i :: 0 <= i < |MessageEvents(s, id)| ==> MessageEvents(s, id)[i].userMessageId == id
  {
    var keys := IndexOf(s.eventIndex, id);
    forall i | 0 <= i < |keys| ensures s.events[keys[i]].userMessageId == id {
      assert id in s.eventIndex;
    }
  }

  /** message_events returns every stored event that refers to the message. */
  lemma MessageEventsComplete(s: State, id: MessageId)
    requires Valid(s)
    ensures forall k :: k in s.events && s.events[k].userMessageId == id ==> s.events[k] in MessageEvents(s, id)
  {
    var keys := IndexOf(s.eventIndex, id);
    forall k | k in s.events && s.events[k].userMessageId == id
      ensures s.events[k] in MessageEvents(s, id)
    {
      var i :| 0 <= i < |keys| && keys[i] == k;
      assert MessageEvents(s, id)[i] == s.events[k];
    }
  }

  /** After batch_start the batch reads back with its tags in order and its
      metadata, has no messages or replies, every one of its tags resolves to
      it and its status is all zeros. */
  lemma BatchStartOutcome(s: State, id: BatchId, tags: seq<Tag>, metadata: map<string, string>)
    requires Valid(s)
    requires id !in s.batches
    ensures var r := BatchStart(s, id, tags, metadata);
      && Valid(r)
      && GetBatch(r, id) == Some(Batch(tags, metadata, false))
      && BatchMessages(r, id) == []
      && BatchReplies(r, id) == []
      && (forall m :: Count(r, id, m) == 0)
      && BatchStatus(r, id) == StatusOf(0, 0, 0, 0)
      && (forall t :: t in tags ==> GetTagInfo(r, t).currentBatch == Some(id))
  {
    BatchStartKeepsValid(s, id, tags, metadata);
  }

  /** batch_start touches nothing but the new batch and its tags: other tags,
      other batches with their messages, replies and counters, every stored
      message and its batch, every event and every message's events read as
      before. */
  lemma BatchStartFrame(s: State, id: BatchId, tags: seq<Tag>, metadata: map<string, string>)
    requires Valid(s)
    requires id !in s.batches
    ensures var r := BatchStart(s, id, tags, metadata);
      && Valid(r)
      && (forall t :: t !in tags ==> GetTagInfo(r, t) == GetTagInfo(s, t))
      && (forall b :: b != id ==> GetBatch(r, b) == GetBatch(s, b))
      && (forall b :: b != id ==> BatchMessages(r, b) == BatchMessages(s, b))
      && (forall b :: b != id ==> BatchReplies(r, b) == BatchReplies(s, b))
      && (forall b, m :: b != id ==> Count(r, b, m) == Count(s, b, m))
      && (forall k :: GetOutboundMessage(r, k) == GetOutboundMessage(s, k))
      && (forall k :: GetInboundMessage(r, k) == GetInboundMessage(s, k))
      && (forall k :: GetEvent(r, k) == GetEvent(s, k))
      && (forall k :: MessageBatch(r, k) == MessageBatch(s, k))
      && (forall k :: MessageEvents(r, k) == MessageEvents(s, k))
  {
    BatchStartKeepsValid(s, id, tags, metadata);
  }

  lemma BatchStartKeepsValid(s: State, id: BatchId, tags: seq<Tag>, metadata: map<string, string>)
    requires Valid(s)
    requires id !in s.batches
    ensures Valid(BatchStart(s, id, tags, metadata))
  {
    var r := BatchStart(s, id, tags, metadata);
    forall t | t in r.currentBatch && r.currentBatch[t].Some?
      ensures r.currentBatch[t].value in r.batches && t in r.batches[r.currentBatch[t].value].tags
    {
      if t !in tags {
        assert s.currentBatch[t] == r.currentBatch[t];
      }
    }
  }

  /** batch_done on an unknown id is NotFound; otherwise the batch is marked
      done with its tag list intact, no tag resolves to it any more, tags that
      had moved to another batch keep theirs, and no message, index
      or counter changes. */
  lemma BatchDoneOutcome(s: State, id: BatchId)
    requires Valid(s)
    ensures BatchDone(s, id).Err? <==> id !in s.batches
    ensures id in s.batches ==>
      var r := BatchDone(s, id).value;
      && Valid(r)
      && GetBatch(r, id) == Some(s.batches[id].(done := true))
      && (forall t :: GetTagInfo(r, t).currentBatch != Some(id))
      && (forall t :: GetTagInfo(s, t).currentBatch != Some(id) ==> GetTagInfo(r, t) == GetTagInfo(s, t))
      && (forall b :: b != id ==> GetBatch(r, b) == GetBatch(s, b))
      && (forall b :: BatchMessages(r, b) == BatchMessages(s, b) && BatchReplies(r, b) == BatchReplies(s, b))
      && (forall b :: BatchStatus(r, b) == BatchStatus(s, b))
      && r.outbound == s.outbound && r.inbound == s.inbound && r.events == s.events
      && (forall k :: MessageBatch(r, k) == MessageBatch(s, k))
      && (forall k :: MessageEvents(r, k) == MessageEvents(s, k))
  {
  }

  /** add_outbound_message of a new message id: the message reads back by id
      with the batch it resolved to; if that is batch b it is appended to b's
      messages, and if untracked no batch's messages change. */
  lemma AddOutboundOutcome(s: State, msg: Message, tag: Option<Tag>, batchId: Option<BatchId>)
    requires Valid(s)
    requires msg.messageId !in s.outbound
    ensures var r := AddOutboundMessage(s, msg, tag, batchId);
      var res := ResolveBatch(s, tag, batchId);
      && Valid(r)
      && GetOutboundMessage(r, msg.messageId) == Some(msg)
      && MessageBatch(r, msg.messageId) == res
      && r.inbound == s.inbound && r.events == s.events && r.batches == s.batches
      && r.currentBatch == s.currentBatch
      && (forall b :: BatchMessages(r, b) ==
            if res == Some(b) then BatchMessages(s, b) + [msg] else BatchMessages(s, b))
  {
    var r := AddOutboundMessage(s, msg, tag, batchId);
    var res := ResolveBatch(s, tag, batchId);
    AddOutboundKeepsValid(s, msg, tag, batchId);
    forall b
      ensures BatchMessages(r, b) ==
              if res == Some(b) then BatchMessages(s, b) + [msg] else BatchMessages(s, b)
    {
      var keys := IndexOf(s.sentIndex, b);
      if res == Some(b) {
        LookupAppend(keys, s.outbound, msg.messageId, msg);
      } else {
        LookupNewKey(keys, s.outbound, msg.messageId, msg);
      }
    }
  }

  /** add_inbound_message of a new message id: the message reads back by id
      (and not as an outbound message); if it resolved to batch b it is
      appended to b's replies and counted +1 in b's `message` only. */
  lemma AddInboundOutcome(s: State, msg: Message, tag: Option<Tag>, batchId: Option<BatchId>)
    requires Valid(s)
    requires msg.messageId !in s.inbound
    ensures var r := AddInboundMessage(s, msg, tag, batchId);
      var res := ResolveBatch(s, tag, batchId);
      && Valid(r)
      && GetInboundMessage(r, msg.messageId) == Some(msg)
      && r.outbound == s.outbound && r.outboundBatch == s.outboundBatch
      && r.events == s.events && r.batches == s.batches && r.currentBatch == s.currentBatch
      && (forall b :: BatchReplies(r, b) ==
            if res == Some(b) then BatchReplies(s, b) + [msg] else BatchReplies(s, b))
  {
    var r := AddInboundMessage(s, msg, tag, batchId);
    var res := ResolveBatch(s, tag, batchId);
    AddInboundKeepsValid(s, msg, tag, batchId);
    forall b
      ensures BatchReplies(r, b) ==
              if res == Some(b) then BatchReplies(s, b) + [msg] else BatchReplies(s, b)
    {
      var keys := IndexOf(s.replyIndex, b);
      if res == Some(b) {
        LookupAppend(keys, s.inbound, msg.messageId, msg);
      } else {
        LookupNewKey(keys, s.inbound, msg.messageId, msg);
      }
    }
  }

  /** add_inbound_message counts the message +1 in `message` of the batch it
      resolved to and nowhere else; an untracked message changes no counter. */
  lemma AddInboundCounted(s: State, msg: Message, tag: Option<Tag>, batchId: Option<BatchId>)
    ensures var r := AddInboundMessage(s, msg, tag, batchId);
      var res := ResolveBatch(s, tag, batchId);
      forall b, m :: Count(r, b, m) ==
        if res == Some(b) && m == MessageMetric then Count(s, b, m) + 1 else Count(s, b, m)
  {
  }

  /** add_outbound_message counts the message +1 in `message` and `sent` of
      the batch it resolved to and nowhere else; an untracked message changes
      no counter. */
  lemma AddOutboundCounted(s: State, msg: Message, tag: Option<Tag>, batchId: Option<BatchId>)
    ensures var r := AddOutboundMessage(s, msg, tag, batchId);
      var res := ResolveBatch(s, tag, batchId);
      forall b, m :: Count(r, b, m) ==
        if res == Some(b) && m in {MessageMetric, SentMetric} then Count(s, b, m) + 1
        else Count(s, b, m)
  {
    var r := AddOutboundMessage(s, msg, tag, batchId);
    var res := ResolveBatch(s, tag, batchId);
    if res.Some? {
      var once := Increment(s.counters, res.value, MessageMetric);
      assert r.counters == Increment(once, res.value, SentMetric);
    }
  }

  /** add_outbound_message touches nothing but its own message: every other
      outbound message and its batch, every inbound message, every event,
      every message's events and every batch's replies read as before. */
  lemma AddOutboundFrame(s: State, msg: Message, tag: Option<Tag>, batchId: Option<BatchId>)
    requires Valid(s)
    ensures var r := AddOutboundMessage(s, msg, tag, batchId);
      && Valid(r)
      && (forall k :: k != msg.messageId ==> GetOutboundMessage(r, k) == GetOutboundMessage(s, k))
      && (forall k :: k != msg.messageId ==> MessageBatch(r, k) == MessageBatch(s, k))
      && (forall k :: GetInboundMessage(r, k) == GetInboundMessage(s, k))
      && (forall k :: GetEvent(r, k) == GetEvent(s, k))
      && (forall k :: MessageEvents(r, k) == MessageEvents(s, k))
      && (forall b :: BatchReplies(r, b) == BatchReplies(s, b))
  {
    AddOutboundKeepsValid(s, msg, tag, batchId);
  }

  /** add_inbound_message touches nothing but its own message: every other
      inbound message, every outbound message and its batch, every event,
      every message's events and every batch's messages read as before. */
  lemma AddInboundFrame(s: State, msg: Message, tag: Option<Tag>, batchId: Option<BatchId>)
    requires Valid(s)
    ensures var r := AddInboundMessage(s, msg, tag, batchId);
      && Valid(r)
      && (forall k :: k != msg.messageId ==> GetInboundMessage(r, k) == GetInboundMessage(s, k))
      && (forall k :: GetOutboundMessage(r, k) == GetOutboundMessage(s, k))
      && (forall k :: MessageBatch(r, k) == MessageBatch(s, k))
      && (forall k :: GetEvent(r, k) == GetEvent(s, k))
      && (forall k :: MessageEvents(r, k) == MessageEvents(s, k))
      && (forall b :: BatchMessages(r, b) == BatchMessages(s, b))
  {
    AddInboundKeepsValid(s, msg, tag, batchId);
  }

  /** Tag resolution at write time: adding through a tag whose current batch
      is b does exactly what adding with the explicit batch id b does. */
  lemma ResolutionByTagMatchesBatchId(s: State, msg: Message, t: Tag, b: BatchId)
    requires GetTagInfo(s, t).currentBatch == Some(b)
    ensures AddOutboundMessage(s, msg, Some(t), None) == AddOutboundMessage(s, msg, None, Some(b))
    ensures AddInboundMessage(s, msg, Some(t), None) == AddInboundMessage(s, msg, None, Some(b))
  {
  }

  /** add_event of a new event id: the event reads back by id and is
      appended to its message's events; other messages' events are unchanged. */
  lemma AddEventStored(s: State, e: Event)
    requires Valid(s)
    requires e.eventId !in s.events
    ensures var r := AddEvent(s, e);
      && Valid(r)
      && GetEvent(r, e.eventId) == Some(e)
      && (forall k :: k != e.eventId ==> GetEvent(r, k) == GetEvent(s, k))
      && MessageEvents(r, e.userMessageId) == MessageEvents(s, e.userMessageId) + [e]
      && (forall id :: id != e.userMessageId ==> MessageEvents(r, id) == MessageEvents(s, id))
  {
    AddEventAppends(s, e);
    AddEventLeavesOthers(s, e);
  }

  /** A new event lists under no message but its own. */
  lemma AddEventLeavesOthers(s: State, e: Event)
    requires Valid(s)
    requires e.eventId !in s.events
    ensures Valid(AddEvent(s, e))
    ensures forall id :: id != e.userMessageId ==> MessageEvents(AddEvent(s, e), id) == MessageEvents(s, id)
  {
    AddEventKeepsValid(s, e);
    forall id | id != e.userMessageId
      ensures MessageEvents(AddEvent(s, e), id) == MessageEvents(s, id)
    {
      LookupNewKey(IndexOf(s.eventIndex, id), s.events, e.eventId, e);
    }
  }

  /** A new event is listed last among its message's events. */
  lemma AddEventAppends(s: State, e: Event)
    requires Valid(s)
    requires e.eventId !in s.events
    ensures Valid(AddEvent(s, e))
    ensures MessageEvents(AddEvent(s, e), e.userMessageId) == MessageEvents(s, e.userMessageId) + [e]
  {
    AddEventKeepsValid(s, e);
    LookupAppend(IndexOf(s.eventIndex, e.userMessageId), s.events, e.eventId, e);
  }

  /** add_event of a new event id counts it +1 in its metric of the batch its
      message was stored with, and nowhere else; a message with no batch, an
      unknown message, an event type with no counter or an event id already
      stored changes no counter. No message, batch or tag record changes. */
  lemma AddEventCounted(s: State, e: Event)
    ensures var r := AddEvent(s, e);
      && r.outbound == s.outbound && r.outboundBatch == s.outboundBatch && r.inbound == s.inbound
      && r.batches == s.batches && r.currentBatch == s.currentBatch
      && r.sentIndex == s.sentIndex && r.replyIndex == s.replyIndex
      && (forall b, m :: Count(r, b, m) ==
            if e.eventId !in s.events && MessageBatch(s, e.userMessageId) == Some(b)
               && EventMetric(e.eventType) == Some(m)
            then Count(s, b, m) + 1 else Count(s, b, m))
  {
    if e.eventId !in s.events {
      CountEventCounts(s.counters, MessageBatch(s, e.userMessageId), EventMetric(e.eventType));
    }
  }

  /** Events are immutable: adding an event whose id is already stored,
      whatever it says, changes neither the stored event, any message's
      events nor any counter. */
  lemma ReAddEventIgnored(s: State, e: Event, again: Event)
    requires Valid(s)
    requires again.eventId == e.eventId
    ensures var r1 := AddEvent(s, e);
      var r := AddEvent(r1, again);
      && GetEvent(r, e.eventId) == GetEvent(r1, e.eventId)
      && (forall k :: MessageEvents(r, k) == MessageEvents(r1, k))
      && (forall b, m :: Count(r, b, m) == Count(r1, b, m))
  {
    AddEventKeepsValid(s, e);
  }

  /** Adding events keeps the store valid and touches no message, batch or
      tag record. */
  lemma {:induction false} AddEventsFrame(s: State, evs: seq<Event>)
    requires Valid(s)
    ensures var r := AddEvents(s, evs);
      && Valid(r)
      && r.outbound == s.outbound && r.outboundBatch == s.outboundBatch && r.inbound == s.inbound
      && r.batches == s.batches && r.currentBatch == s.currentBatch
      && r.sentIndex == s.sentIndex && r.replyIndex == s.replyIndex
  {
    if evs != [] {
      AddEventsFrame(s, evs[..|evs| - 1]);
      AddEventKeepsValid(AddEvents(s, evs[..|evs| - 1]), evs[|evs| - 1]);
    }
  }

  /** Adding events with distinct new ids: each reads back by its id, and
      every other event id reads as before. */
  lemma {:induction false} AddEventsStored(s: State, evs: seq<Event>)
    requires forall i :: 0 <= i < |evs| ==> evs[i].eventId !in s.events
    requires forall i, j :: 0 <= i < j < |evs| ==> evs[i].eventId != evs[j].eventId
    ensures var r := AddEvents(s, evs);
      && (forall i :: 0 <= i < |evs| ==> GetEvent(r, evs[i].eventId) == Some(evs[i]))
      && (forall k :: (forall i :: 0 <= i < |evs| ==> evs[i].eventId != k) ==> GetEvent(r, k) == GetEvent(s, k))
  {
    if evs != [] {
      var init, last := evs[..|evs| - 1], evs[|evs| - 1];
      assert evs == init + [last];
      AddEventsStored(s, init);
      var mid := AddEvents(s, init);
      var r := AddEvent(mid, last);
      forall i | 0 <= i < |init| ensures init[i].eventId != last.eventId {
        assert init[i] == evs[i];
      }
      assert GetEvent(mid, last.eventId) == GetEvent(s, last.eventId) == None;
      assert r.events == mid.events[last.eventId := last];
      forall i | 0 <= i < |evs| ensures GetEvent(r, evs[i].eventId) == Some(evs[i]) {
        if i < |init| {
          assert evs[i] == init[i];
        }
      }
      forall k | (forall i :: 0 <= i < |evs| ==> evs[i].eventId != k)
        ensures GetEvent(r, k) == GetEvent(s, k)
      {
        assert k != evs[|evs| - 1].eventId;
        assert forall i :: 0 <= i < |init| ==> init[i] == evs[i];
      }
    }
  }

  /** With distinct new ids, the last event's id is still new once the
      events before it are added. */
  lemma LastIsNew(s: State, evs: seq<Event>)
    requires evs != []
    requires forall i :: 0 <= i < |evs| ==> evs[i].eventId !in s.events
    requires forall i, j :: 0 <= i < j < |evs| ==> evs[i].eventId != evs[j].eventId
    ensures evs[|evs| - 1].eventId !in AddEvents(s, evs[..|evs| - 1]).events
  {
    var init, last := evs[..|evs| - 1], evs[|evs| - 1];
    AddEventsStored(s, init);
    forall i | 0 <= i < |init| ensures init[i].eventId != last.eventId {
      assert init[i] == evs[i];
    }
    assert GetEvent(AddEvents(s, init), last.eventId) == GetEvent(s, last.eventId);
  }

  /** Adding events with distinct new ids, all about message `id`: the
      message's events grow by exactly those events, in order. */
  lemma {:induction false} AddEventsListed(s: State, id: MessageId, evs: seq<Event>)
    requires Valid(s)
    requires forall i :: 0 <= i < |evs| ==> evs[i].userMessageId == id
    requires forall i :: 0 <= i < |evs| ==> evs[i].eventId !in s.events
    requires forall i, j :: 0 <= i < j < |evs| ==> evs[i].eventId != evs[j].eventId
    ensures Valid(AddEvents(s, evs))
    ensures MessageEvents(AddEvents(s, evs), id) == MessageEvents(s, id) + evs
  {
    if evs != [] {
      var init := evs[..|evs| - 1];
      assert forall i :: 0 <= i < |init| ==> init[i] == evs[i];
      AddEventsListed(s, id, init);
      LastIsNew(s, evs);
      AddEventsListedStep(s, id, evs);
    }
  }

  /** The inductive step of AddEventsListed: the last event is listed after
      the ones before it. */
  lemma AddEventsListedStep(s: State, id: MessageId, evs: seq<Event>)
    requires Valid(s) && evs != []
    requires Valid(AddEvents(s, evs[..|evs| - 1]))
    requires MessageEvents(AddEvents(s, evs[..|evs| - 1]), id) == MessageEvents(s, id) + evs[..|evs| - 1]
    requires evs[|evs| - 1].eventId !in AddEvents(s, evs[..|evs| - 1]).events
    requires evs[|evs| - 1].userMessageId == id
    ensures Valid(AddEvents(s, evs))
    ensures MessageEvents(AddEvents(s, evs), id) == MessageEvents(s, id) + evs
  {
    var init, last := evs[..|evs| - 1], evs[|evs| - 1];
    var mid := AddEvents(s, init);
    assert AddEvents(s, evs) == AddEvent(mid, last);
    AddEventAppends(mid, last);
    SplitLast(evs);
    AppendAfter(MessageEvents(s, id), init, last);
  }

  /** Adding events about message `id`: each counter of the batch the message
      was stored with grows by the number of those events counted in it, and
      every other counter stays the same. */
  lemma {:induction false} AddEventsCounted(s: State, id: MessageId, evs: seq<Event>)
    requires Valid(s)
    requires forall i :: 0 <= i < |evs| ==> evs[i].userMessageId == id
    requires forall i :: 0 <= i < |evs| ==> evs[i].eventId !in s.events
    requires forall i, j :: 0 <= i < j < |evs| ==> evs[i].eventId != evs[j].eventId
    ensures var r := AddEvents(s, evs);
      forall b, m :: Count(r, b, m) ==
        if MessageBatch(s, id) == Some(b) then Count(s, b, m) + Tally(evs, m) else Count(s, b, m)
  {
    if evs != [] {
      var init, last := evs[..|evs| - 1], evs[|evs| - 1];
      AddEventsCounted(s, id, init);
      AddEventsFrame(s, init);
      LastIsNew(s, evs);
    }
  }

  /** Delivery reports are counted only in `delivery_report`, whatever their status. */
  lemma {:induction false} TallyDeliveryReports(evs: seq<Event>)
    requires forall i :: 0 <= i < |evs| ==> evs[i].eventType.DeliveryReport?
    ensures Tally(evs, DeliveryReportMetric) == |evs|
    ensures forall m :: m != DeliveryReportMetric ==> Tally(evs, m) == 0
  {
    if evs != [] {
      TallyDeliveryReports(evs[..|evs| - 1]);
    }
  }

  /** Adding a message in batch b, whether its id is new or already holds
      the same message, lists it last among b's messages. */
  lemma AddOutboundListed(s: State, msg: Message, b: BatchId)
    requires Valid(s)
    requires msg.messageId in s.outbound ==> s.outbound[msg.messageId] == msg
    ensures var r := AddOutboundMessage(s, msg, None, Some(b));
      && Valid(r)
      && GetOutboundMessage(r, msg.messageId) == Some(msg)
      && BatchMessages(r, b) == BatchMessages(s, b) + [msg]
  {
    AddOutboundKeepsValid(s, msg, None, Some(b));
    var keys := IndexOf(s.sentIndex, b);
    if msg.messageId in s.outbound {
      assert s.outbound[msg.messageId := msg] == s.outbound;
      LookupSnoc(keys, s.outbound, msg.messageId);
    } else {
      LookupAppend(keys, s.outbound, msg.messageId, msg);
    }
  }

  /** Re-adding a message id is not deduplicated: storing the same message
      twice in batch b lists it twice. */
  lemma ReAddOutboundListedTwice(s: State, msg: Message, b: BatchId)
    requires Valid(s)
    requires msg.messageId !in s.outbound
    ensures var r := AddOutboundMessage(AddOutboundMessage(s, msg, None, Some(b)), msg, None, Some(b));
      && Valid(r)
      && GetOutboundMessage(r, msg.messageId) == Some(msg)
      && BatchMessages(r, b) == BatchMessages(s, b) + [msg, msg]
  {
    AddOutboundListed(s, msg, b);
    AddOutboundListed(AddOutboundMessage(s, msg, None, Some(b)), msg, b);
    AppendTwice(BatchMessages(s, b), msg);
  }

  /** Storing the same message twice in batch b counts it twice in `message`
      and `sent`. */
  lemma ReAddOutboundCountsTwice(s: State, msg: Message, b: BatchId)
    ensures var r := AddOutboundMessage(AddOutboundMessage(s, msg, None, Some(b)), msg, None, Some(b));
      && Count(r, b, SentMetric) == Count(s, b, SentMetric) + 2
      && Count(r, b, MessageMetric) == Count(s, b, MessageMetric) + 2
  {
    var r1 := AddOutboundMessage(s, msg, None, Some(b));
    AddOutboundCounted(s, msg, None, Some(b));
    AddOutboundCounted(r1, msg, None, Some(b));
    assert ResolveBatch(s, None, Some(b)) == ResolveBatch(r1, None, Some(b)) == Some(b);
  }
}
