/** The records the message store keeps: tags, messages, events, batches and
    the names of the per-batch status counters. */
module Records {

  datatype Option<T> = None | Some(value: T)

  type BatchId = string
  type MessageId = string
  type EventId = string

  /** A routing tag, the pair (pool, tag name). */
  datatype Tag = Tag(pool: string, name: string)

  /** A message. The store interprets only its id; addresses, content and
      transport metadata travel as an opaque payload. */
  datatype Message = Message(messageId: MessageId, payload: map<string, string>)

  /** The kind of a transport event; a delivery report carries a status. */
  datatype EventType =
    | Ack
    | DeliveryReport(deliveryStatus: string)
    | OtherEvent(eventType: string)

  /** A transport event about the outbound message `userMessageId`. */
  datatype Event = Event(
    eventId: EventId,
    userMessageId: MessageId,
    eventType: EventType,
    payload: map<string, string>)

  /** A batch: the tags it was started with (in order), its metadata and
      whether it has been marked done. */
  datatype Batch = Batch(tags: seq<Tag>, metadata: map<string, string>, done: bool)

  /** What the store knows about a tag: the batch it currently resolves to. */
  datatype TagInfo = TagInfo(tag: Tag, currentBatch: Option<BatchId>)

  /** The four status counters kept per batch. */
  datatype Metric = MessageMetric | SentMetric | AckMetric | DeliveryReportMetric

  function MetricName(m: Metric): string
  {
    match m
    case MessageMetric => "message"
    case SentMetric => "sent"
    case AckMetric => "ack"
    case DeliveryReportMetric => "delivery_report"
  }

  /** The counter an event of this type is counted in, if any: an ack in
      `ack`, a delivery report in `delivery_report` whatever its status. */
  function EventMetric(t: EventType): (m: Option<Metric>)
    ensures m.Some? ==> MetricName(m.value) == if t.Ack? then "ack" else "delivery_report"
    ensures t.OtherEvent? <==> m.None?
  {
    match t
    case Ack => Some(AckMetric)
    case DeliveryReport(_) => Some(DeliveryReportMetric)
    case OtherEvent(_) => None
  }
}
