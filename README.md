# Message store model

This project models vumi's message store. The store persists the messages passing through the gateway:
- outbound messages sent by applications;
- inbound replies from end users;
- transport events (acks and delivery reports) about outbound messages.

It groups traffic into batches. A routing tag `(pool, name)` resolves to its current batch. The store keeps:
- an ordered sent index and an ordered reply index per batch;
- an event index per message;
- four status counters per batch: `message`, `sent`, `ack` and `delivery_report`.

The model follows the store's test suite, `vumi/persist/tests/test_message_store.py`. The store's implementation, `vumi/persist/message_store.py`, is not part of this model. Where the tests are silent, the model makes the choices listed under "Left out".

Files:

- `records.dfy` (module `Records`): tags, messages, events, batches, tag info and metrics.
- `store_model.dfy` (module `StoreModel`): the store as a value.
  - `State` holds one map for each table, each index and the counter store.
  - `Valid` is the invariant: index entries name stored records, every event listed under a message is about that message, every stored event is listed under the message it is about, and a tag's current batch is a stored batch that was started with that tag.
  - Each operation is a function from state to state, and the lemmas state what each operation guarantees.
- `message_store.dfy` (module `MessageStores`): the class `MessageStore`.
  - Its map fields are updated in place by its methods.
  - Each mutating method is proved to leave `State()` equal to the matching `StoreModel` function applied to `old(State())`.
  - Each query method is proved to return the matching `StoreModel` query. The list queries fetch records one at a time from an index, in a loop.
- `store_tests.dfy` (module `MessageStoreTests`): one method per test case.
  - Each method starts a new store, drives it as the test does, and states the test's assertions in its postcondition.
  - The test helpers `_maybe_batch`, `_create_outbound` and `_create_inbound` are methods there too.

Generated values are parameters: the uuid batch id (`freshId`), message ids and event ids. A batch id only has to be unused in the batch table.

## Model

| member | source | states |
|---|---|---|
| StoreModel.Lookup | vumi/persist/tests/test_message_store.py:65-66 | an index read returns exactly one stored record per listed key, in index order |
| Records.EventMetric | vumi/persist/tests/test_message_store.py:132-143 | an ack is counted in ack and a delivery report in delivery_report, whatever its status; an event type is counted nowhere exactly when it is neither |
| StoreModel.Increment | vumi/persist/tests/test_message_store.py:110-112 | the counter store's atomic increment raises one (batch, metric) counter by exactly 1 and no other |
| StoreModel.ZeroCounters | vumi/persist/tests/test_message_store.py:69-71 | starting a batch makes all four of its counters read 0 and changes no other batch's counters |
| StoreModel.PointTags | vumi/persist/tests/test_message_store.py:62-68 | every tag in the list now resolves to the batch; tags not in the list keep their current batch |
| StoreModel.ReleaseTags | vumi/persist/tests/test_message_store.py:84-88 | a tag of the batch loses its current batch exactly when it still pointed at that batch; other tags and the set of known tags are unchanged |
| StoreModel.BatchStartOutcome | vumi/persist/tests/test_message_store.py:59-78 | after batch_start the invariant holds and the batch reads back with its tags in order, its metadata and done false; it has no messages and no replies; each of its tags resolves to it; each of its four counters reads 0, so its status is all zeros |
| StoreModel.BatchStartFrame | vumi/persist/tests/test_message_store.py:59-71 | batch_start changes nothing outside the new batch and its tags: other tags, other batches with their messages, replies and counters, every stored message and its batch, every event and every message's events read as before |
| StoreModel.BatchDoneOutcome | vumi/persist/tests/test_message_store.py:80-88 | batch_done fails with NotFound exactly when the batch id is unknown; otherwise the batch is done with its tag list intact, no tag resolves to it, tags already moved to another batch keep it, and every batch's messages, replies and status, every stored message and its batch, every event and every message's events are unchanged |
| StoreModel.AddOutboundOutcome | vumi/persist/tests/test_message_store.py:90-127 | a new outbound message reads back by id and records the batch it resolved to; if that is batch b it is appended to b's messages, and an untracked message changes no batch's messages; inbound messages, events, batches and tags are unchanged |
| StoreModel.AddOutboundCounted | vumi/persist/tests/test_message_store.py:110-112 | an outbound message is counted +1 in message and sent of the batch it resolved to and nowhere else; an untracked message changes no counter |
| StoreModel.AddOutboundFrame | vumi/persist/tests/test_message_store.py:90-97 | adding an outbound message keeps the invariant and leaves every other outbound message and its batch, every inbound message, every event, every message's events and every batch's replies as they were |
| StoreModel.AddInboundOutcome | vumi/persist/tests/test_message_store.py:182-206 | a new inbound message reads back by id; if it resolved to batch b it is appended to b's replies, and an untracked message changes no batch's replies; outbound messages, their batches, events, batches and tags are unchanged |
| StoreModel.AddInboundCounted | vumi/persist/tests/test_message_store.py:188-196 | an inbound message is counted +1 in message of the batch it resolved to and nowhere else; an untracked message changes no counter |
| StoreModel.AddInboundFrame | vumi/persist/tests/test_message_store.py:182-186 | adding an inbound message keeps the invariant and leaves every other inbound message, every outbound message and its batch, every event, every message's events and every batch's messages as they were |
| StoreModel.ResolutionByTagMatchesBatchId | vumi/persist/tests/test_message_store.py:29-38 | adding through a tag whose current batch is b gives the same store as adding with batch id b, for outbound and inbound messages |
| StoreModel.AddEventStored | vumi/persist/tests/test_message_store.py:129-157 | a new event reads back by id and is appended to its message's events, even when that message has no batch; other event ids and other messages' events are unchanged |
| StoreModel.AddEventAppends | vumi/persist/tests/test_message_store.py:135-141 | a new event keeps the invariant and is listed last among its message's events |
| StoreModel.AddEventLeavesOthers | vumi/persist/tests/test_message_store.py:145-157 | a new event keeps the invariant and is listed under no message but its own |
| StoreModel.AddEventCounted | vumi/persist/tests/test_message_store.py:139-143 | an event with a new id is counted +1 in its own metric of its message's batch and nowhere else; an event for an untracked or unknown message, or with an id already stored, changes no counter; no message, batch or tag record changes |
| StoreModel.ReAddEventIgnored | vumi/persist/tests/test_message_store.py:135-137 | events are immutable: adding an event whose id is already stored, whatever its content, leaves that event, every message's events and every counter as they were |
| StoreModel.MessageEventsCorrelate | vumi/persist/tests/test_message_store.py:132-141 | every event listed for a message is about that message |
| StoreModel.MessageEventsComplete | vumi/persist/tests/test_message_store.py:174-177 | every stored event that refers to a message is among that message's events |
| StoreModel.AddEventsFrame | vumi/persist/tests/test_message_store.py:164-171 | adding any sequence of events keeps the invariant and changes no message, batch or tag record |
| StoreModel.AddEventsStored | vumi/persist/tests/test_message_store.py:164-173 | after adding events with distinct new ids, each one reads back by its id, and other event ids read as before |
| StoreModel.AddEventsListed | vumi/persist/tests/test_message_store.py:175-178 | after adding events with distinct new ids for one message, that message's events are the old ones followed by exactly the added ones |
| StoreModel.AddEventsCounted | vumi/persist/tests/test_message_store.py:179-180 | after adding events with distinct new ids for one message, each counter of the message's batch grows by the number of added events of its metric, and every other counter is unchanged |
| StoreModel.TallyDeliveryReports | vumi/persist/tests/test_message_store.py:164-180 | delivery reports count only towards delivery_report, once each, whatever their status |
| StoreModel.AddOutboundListed | vumi/persist/tests/test_message_store.py:99-112 | adding a message in batch b, whether its id is new or already holds that same message, keeps the invariant, reads it back and lists it last among b's messages |
| StoreModel.ReAddOutboundListedTwice | vumi/persist/tests/test_message_store.py:46 | storing the same message twice in one batch keeps the invariant and lists it twice |
| StoreModel.ReAddOutboundCountsTwice | vumi/persist/tests/test_message_store.py:46 | storing the same message twice in one batch counts it twice in message and in sent |
| MessageStores.MessageStore.constructor | vumi/persist/tests/test_message_store.py:18-22 | a new store is empty and valid |
| MessageStores.MessageStore.BatchStart | vumi/persist/tests/test_message_store.py:33 | returns the fresh id and changes the store exactly as StoreModel.BatchStart does, pointing the tags one by one |
| MessageStores.MessageStore.PointedTags | vumi/persist/tests/test_message_store.py:62-68 | its loop, changing nothing, returns the current-batch map with every listed tag set to the batch, as StoreModel.PointTags |
| MessageStores.MessageStore.ReleasedTags | vumi/persist/tests/test_message_store.py:84-88 | its loop, changing nothing, returns the current-batch map with every listed tag that still resolves to the batch cleared, as StoreModel.ReleaseTags |
| MessageStores.MessageStore.BatchDone | vumi/persist/tests/test_message_store.py:84 | returns NotFound for an unknown batch and leaves the store unchanged; otherwise changes the store exactly as StoreModel.BatchDone does, releasing the tags one by one |
| MessageStores.MessageStore.GetBatch | vumi/persist/tests/test_message_store.py:63 | returns the stored batch, or none for an unknown id |
| MessageStores.MessageStore.GetTagInfo | vumi/persist/tests/test_message_store.py:64 | returns the tag's current batch; a tag never started returns none rather than an error |
| MessageStores.MessageStore.ResolveBatch | vumi/persist/tests/test_message_store.py:29-38 | an explicit batch id wins, otherwise the tag's current batch, otherwise untracked |
| MessageStores.MessageStore.AddOutboundMessage | vumi/persist/tests/test_message_store.py:46 | changes the store exactly as StoreModel.AddOutboundMessage does and keeps it valid |
| MessageStores.MessageStore.AddInboundMessage | vumi/persist/tests/test_message_store.py:56 | changes the store exactly as StoreModel.AddInboundMessage does and keeps it valid |
| MessageStores.MessageStore.GetOutboundMessage | vumi/persist/tests/test_message_store.py:94 | returns the stored outbound message, or none; inbound messages are not visible through it |
| MessageStores.MessageStore.GetInboundMessage | vumi/persist/tests/test_message_store.py:185 | returns the stored inbound message, or none; outbound messages are not visible through it |
| MessageStores.MessageStore.BatchMessages | vumi/persist/tests/test_message_store.py:65 | its loop returns the batch's outbound messages in the order they were appended |
| MessageStores.MessageStore.BatchReplies | vumi/persist/tests/test_message_store.py:193 | its loop returns the batch's inbound messages in the order they were appended |
| MessageStores.MessageStore.AddEvent | vumi/persist/tests/test_message_store.py:135 | changes the store exactly as StoreModel.AddEvent does, leaves it as it was when the event id is already stored, and keeps it valid |
| MessageStores.MessageStore.GetEvent | vumi/persist/tests/test_message_store.py:137 | returns the stored event, or none |
| MessageStores.MessageStore.MessageEvents | vumi/persist/tests/test_message_store.py:96 | its loop returns the events indexed under the message |
| MessageStores.MessageStore.BatchStatus | vumi/persist/tests/test_message_store.py:69-71 | reads the four counters of the batch from the counter store only, each defaulting to 0 |
| MessageStoreTests.MaybeBatch | vumi/persist/tests/test_message_store.py:29-38 | with a tag: starts a batch for [tag] and hands on either the batch id or the tag; without a tag: changes nothing |
| MessageStoreTests.CreateOutbound | vumi/persist/tests/test_message_store.py:40-47 | gives the same store whether the message goes through the batch id or the tag |
| MessageStoreTests.CreateInbound | vumi/persist/tests/test_message_store.py:49-57 | gives the same store whether the message goes through the batch id or the tag |
| MessageStoreTests.TestBatchStart | vumi/persist/tests/test_message_store.py:59-71 | the batch has no messages; its tags are [tag1]; tag1 resolves to it; its status is all zeros |
| MessageStoreTests.TestBatchStartWithMetadata | vumi/persist/tests/test_message_store.py:73-78 | a batch started with no tags and key1=foo, key2=bar reads back both keys and has no tags |
| MessageStoreTests.TestBatchDone | vumi/persist/tests/test_message_store.py:80-88 | after batch_done the batch still lists [tag1] and tag1 resolves to no batch |
| MessageStoreTests.TestAddOutboundMessage | vumi/persist/tests/test_message_store.py:90-97 | an untracked outbound message reads back and has no events |
| MessageStoreTests.AddOutboundToNewBatch | vumi/persist/tests/test_message_store.py:99-127 | through either route, the message reads back, the batch's messages are [msg], there are no events, and the status is message 1, sent 1, ack 0, delivery_report 0 |
| MessageStoreTests.TestAddOutboundMessageWithBatchId | vumi/persist/tests/test_message_store.py:99-112 | the outcome above, with the message added by batch id |
| MessageStoreTests.TestAddOutboundMessageWithTag | vumi/persist/tests/test_message_store.py:114-127 | the outcome above, with the message added by tag |
| MessageStoreTests.OutboundInNewBatch | vumi/persist/tests/test_message_store.py:131 | the event tests start from one message in a new batch, with no events and status message 1, sent 1 |
| MessageStoreTests.TestAddAckEvent | vumi/persist/tests/test_message_store.py:129-143 | the ack reads back, the message's events are [ack], and the status is ack 1, delivery_report 0, message 1, sent 1 |
| MessageStoreTests.TestAddAckEventWithoutBatch | vumi/persist/tests/test_message_store.py:145-157 | an ack for an untracked message still reads back, and the message's events are [ack] |
| MessageStoreTests.AddDeliveryReports | vumi/persist/tests/test_message_store.py:163-173 | the loop builds one delivery report per status, reads each back right after adding it, and leaves the store as the reports added in order |
| MessageStoreTests.TestAddDeliveryReportEvents | vumi/persist/tests/test_message_store.py:159-180 | the message's events equal the reports up to order, and the status is ack 0, delivery_report N, message 1, sent 1 |
| MessageStoreTests.TestAddInboundMessage | vumi/persist/tests/test_message_store.py:182-186 | an untracked inbound message reads back |
| MessageStoreTests.AddInboundToNewBatch | vumi/persist/tests/test_message_store.py:188-206 | through either route, the inbound message reads back and the batch's replies are [msg] |
| MessageStoreTests.TestAddInboundMessageWithBatchId | vumi/persist/tests/test_message_store.py:188-196 | the outcome above, with the message added by batch id |
| MessageStoreTests.TestAddInboundMessageWithTag | vumi/persist/tests/test_message_store.py:198-206 | the outcome above, with the message added by tag |

## Left out

- Twisted deferreds (`inlineCallbacks`, `returnValue`): every store call is a synchronous method.
- The Riak and Redis backends (`TxRiakManager`, `FakeRedis`, `purge_all`, `teardown`): each is a map field in memory. An atomic increment is `+1` on one map entry. Each test starts a new store instead of purging a shared one.
- Concurrency and partial failure are not modelled. A real call writes a record, appends to an index and increments a counter as separate steps. Here each operation is one atomic state change.
- Backend failures and how they propagate are not modelled.
- Message and event field contents are not modelled. They are built by `mkmsg_out`, `mkmsg_in` and `TransportEvent`, which are not part of this model. Messages and events are opaque payloads with ids, plus the event type and `user_message_id`. `DELIVERY_STATUSES` is any sequence of strings.
- Uuid generation: a generated batch, message or event id is a parameter. For a batch id, the only requirement is that it is not yet in the batch table.
- Passing both a tag and a batch id to an ingestion call does not raise InvalidArgumentError. The batch id wins, as the resolution order says.
- The model starts a batch with empty indexes and its four counters at 0. So if messages were added earlier under that same id by explicit batch id, they are dropped from its indexes.
- Re-adding a message id is not deduplicated. The record and its batch association are overwritten, the new batch's index gets the id again, and its counters are incremented again (see `StoreModel.ReAddOutboundListedTwice` and `StoreModel.ReAddOutboundCountsTwice`).
- A message re-added with another batch is not removed from its old batch. It stays listed in the old batch's messages (or replies) and counters, and is listed in the new batch's as well. Its recorded batch is the new one, so its later events count only in the new batch. So a re-added message can be listed under two batches, although a message is meant to belong to at most one.
- Events are immutable and keyed by their id. Re-adding an event id already stored is a no-op: the first event is kept, and it is neither listed nor counted again (see `StoreModel.ReAddEventIgnored`). So the event tables do not follow last-writer-wins.
- StoreModel.AddEventsCounted: stated only for events with distinct new ids, as the delivery-report test adds them. A repeated id is covered by `StoreModel.ReAddEventIgnored`.
- `batch_done` clears only the tags that still point at the batch being closed. A tag already moved to a newer batch keeps it. The tests cover only one batch per tag.
- An event type other than ack or delivery report is stored and indexed but counted nowhere: only four metrics exist.
- An inbound message's batch is not recorded on its record, because nothing reads it.
- The model's event index keeps insertion order, but the store promises no order for `message_events`. The test sorts both lists by `event_id` before comparing. So `MessageStoreTests.TestAddDeliveryReportEvents` states multiset equality.
- `vumi/database/message_io.py`, the legacy SQL message tables, is not modelled. It only issues SQL statements and has no logic of its own beyond what the database does.
