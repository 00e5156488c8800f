# Order platform: a verified model

This project models the parts of the order backend in which several transactions, workers and
remote calls overlap, and proves what they keep. It is written for Dafny 4.11;
`dafny verify dfyconfig.toml` checks all of it.

## What is modelled

**The asynchronous order pipeline** (`Pipeline*.dfy`, `OutboxRelay.dfy`, `OrdersProcessor.dfy`, `BackOff.dfy`,
`RetryQueue.dfy`). `PipelineModel` is a labelled transition system: committed rows, open relay
transactions with their row locks, the broker's copies (ready, unacked, waiting in the retry queue,
dead-lettered), and workers with explicit program counters. One step is one statement, one broker call or one
commit; crashes, lost connections, rolled-back ticks and broker calls that throw may come between any two of
them. A label fixes every choice of its step, so a run is a sequence of labels and every theorem is about all of
them. `PipelineRows` says field by field what the steps write. The relay's and the worker's own code stands beside it as classes that update the database and the broker
in place; each of their methods ends in exactly the state its contract names and is proved to be a run
of the transition system.

**Order creation, stock and payments** (`Checkout*.dfy`, `OrderCreation.dfy`, `PaymentCapture.dfy`). A second transition
system: interleaved `create` transactions that lock, check, insert or meet the unique key, decrement and commit;
`authorize` requests that go on after their caller has timed out; `payOrder` calls that look a payment up, authorize and
capture. `CheckoutTotals` says what an order costs, `CheckoutAnswers` what each `create` tells its caller, through the
catch block.

**Keyset pagination and the cursor** (`Keyset.dfy`, `KeysetPagination.dfy`, `IndexPager.dfy`, `CursorCodec.dfy`,
`Json.dfy`, `Utf8.dfy`, `Base64.dfy`). Pages of a table that changes between fetches, the query-builder pager with the
result rows of a one-to-many join, the in-memory pager it is measured against, and the cursor text through JSON (section 7
of RFC 8259), UTF-8 and base64 (section 4 of RFC 4648), on strings of 16-bit units, surrogate halves included.

**The payment messages on the wire** (`Wire.dfy`, `Protobuf.dfy`, `ProtobufTheorems.dfy`, `PaymentsMessages.dfy`,
`PaymentsFields.dfy`, `NestedFraming.dfy`). Readers and writers follow the Protocol Buffers encoding specification (sections "Base 128 Varints", "Message Structure" and
"Length-Delimited Records"). The eight generated decoders are one loop with eight tables of field kinds.

**Smaller state machines**: the status event stream with its deduplication and throttle (`OrderEvents.dfy`), the
gallery and avatar binding of completed uploads (`Gallery.dfy`, `FilesService.dfy`), and the sliding-window limiter
(`RateLimiter.dfy`).

`Wrappers`, `FreshIds` and `MapTotals` are helpers: options and results, identifiers nobody has taken, sums over maps.

## What is taken for granted

- A broker publish either enqueues durably or throws. The order and time of deliveries is free, except in
  `RetryQueue`, which is about exactly that.
- Identifiers made by the database or `randomUUID` are new.
- An insert that meets an uncommitted row with the same unique key waits for that row's transaction, and so does
  an update of a locked row: the step is not enabled meanwhile.
- `SELECT ... FOR UPDATE` under READ COMMITTED reads the row as committed when the lock is granted.
- In the transition system a claim may take any due, unlocked rows; that `claimBatch` takes the oldest ones up to the
  limit is proved in `OutboxRelay`.
- `capture`, `refund` and `updateStatus` read and then write without a lock or a guard on the status. Each is one
  step here; two of them that overlap in the middle are not covered.
- The status event stream has one subscriber, as in the gateway. With two, each would count into the same metrics.
- `created_at` is written by the insert only.
- The broker's clock does not run backwards.
- The wire library (@bufbuild/protobuf 2.11.0 by package-lock.json) is not part of this model's sources. Its reader is
  taken to check bounds, to stop a varint after ten bytes, to skip groups up to the tag that ends them, and to decode
  strings as a default TextDecoder does, which replaces what is malformed and drops one leading byte order mark.

## Where the code and its description differ

- homework05.md:90 says the loser of a race on the idempotency key gets the order that won. In
  src/orders/orders.service.ts:307-309 every error that carries a `code` leaves earlier, as "Payments service
  unavailable", so the branch for `23505` at line 315 is never taken (`NeverAtUniqueViolation`). A request is answered
  with the existing order if and only if that order was committed when its `findOne` ran (`ExistingIffFound`); the loser
  of a race is answered with no order at all (`LoserGetsNoOrder`), and such a run exists (`LoserIsToldUnavailable`).
- The two tests for an empty `rows` (src/orders/orders.service.ts:180-184 and
  src/orders/orders-processor.consumer.ts:200-202) look at what the driver returns for `UPDATE ... RETURNING`, which is
  a pair and never empty. `DecrementNeverMisses` shows that the first test has nothing to catch; in the worker, the
  order's row is there whenever its message is.
- A message can lie in the dead-letter queue and be processed as well: from any state in which a worker is about to park
  it, one lost delivery is enough (`LostDeliveryDuplicates`). Unless a fault strikes the message itself it cannot,
  whatever fails elsewhere (`NeverDeadAndProcessed`).
- src/common/pagination/cursor/paginate-query-builder.ts:65 counts result rows as if each item had one. With a
  one-to-many join (src/products/products.service.ts:52-60) it takes the cursor's time from an earlier item:
  `PageIsRight` says exactly when that is right, `WrongCursorRepeats` what follows, `JoinRepeatsRow` gives a case.
- A cursor whose timestamp went through a JavaScript Date loses rows (`DateCursorLosesRows`); the exact text selected
  at src/common/pagination/cursor/paginate-query-builder.ts:43-46 is what prevents it.
- A nested message's decoder may read past its length (`NestedCanOvershoot`). It ends exactly behind its payload if and
  only if the payload is made of whole fields, or of whole fields and one stop tag at the very end
  (`NestedEndsExactly`); on what the encoders write, with unknown fields added or not, it does (`Rendered`,
  `NestedConsumesItsPrefix`).
- A string that begins with a byte order mark loses it on the way (`MarkedIdArrivesBare`): the library's reader decodes
  with a default TextDecoder. `MessageRoundTrip` says exactly which messages come back as they were.

## Model

| member | source | states |
|---|---|---|
| PipelineDelivery.NoOrderLost | src/orders/orders-processor.consumer.ts:63-145 | in every reachable state, crashes anywhere, each committed order's process event is still PENDING or FAILED in the outbox, or a copy of its message is with the broker, or its processed row exists |
| PipelineDelivery.EveryAckIsJustified | src/orders/orders-processor.consumer.ts:86-143 | whenever an ack is possible its message is processed, dead-lettered, or travelling as a copy with a later attempt, and still is after the ack |
| PipelineDelivery.JustifiedStable | src/orders/orders-processor.consumer.ts:93-143 | no step of anybody takes such a justification away |
| PipelineOnce.ProcessedOncePerMessage | src/orders/orders-processor.consumer.ts:162-214 | over any run the PROCESSED update of a message commits at most once, exactly when its processed_messages row exists |
| PipelineOnce.CommitMarksProcessed | src/orders/orders-processor.consumer.ts:189-204 | in any run the step that commits a message's update leaves its order PROCESSED, the status version as it was, processed_at set once, and no other order touched |
| PipelineOnce.ProcessedAtIsFinal | src/orders/orders-processor.consumer.ts:189-204 | once set, processed_at is not changed by any step |
| PipelineOnce.StatusNeverUndone | src/orders/orders.service.ts:380-404 | after an order has been processed, no continuation of the run without a status update of that order changes its row |
| PipelineOnce.UpdatesDisjoint | src/orders/orders-processor.consumer.ts:168-197 | two open worker transactions never have the same order's row in hand |
| PipelineIdentity.EventsStay | src/orders/orders.service.ts:230-246 | only `create` makes process events, one message and one order each |
| PipelineTermination.WorkIsBounded | src/orders/orders-processor.consumer.ts:93-143 | in any run the working steps of relay, broker and workers number at most a constant per create plus a constant per fault |
| PipelineTermination.CostsInFull | src/outbox/outbox.service.ts:58-69 | the two constants, from the maximum attempts and the batch size alone |
| PipelineTermination.StepWorks | src/outbox/outbox-relay.service.ts:86-110 | the measure: each working step lowers it, a fault or a create raises it by at most its constant |
| PipelineTokens.ExactlyOnePlace | src/orders/orders-processor.consumer.ts:76-143 | whatever fails elsewhere, a process event that no fault strikes is in exactly one place; a live copy's attempt is one more than its failed runs and within the maximum |
| PipelineTokens.NeverDeadAndProcessed | src/orders/orders-processor.consumer.ts:93-143 | a message is never both dead-lettered and processed unless a fault strikes it: its published row's tick rolls back, its delivery is lost, or a worker on it dies or cannot publish or ack |
| PipelineTokens.FaultFreeIsUnstruck | src/orders/orders-processor.consumer.ts:76-143 | in particular both hold in every run without faults |
| PipelineTokens.RestsSettled | src/orders/orders-processor.consumer.ts:93-143 | where a run can work no more, each event no fault has struck was processed, or failed the maximum and is dead-lettered, or used up the relay's attempts |
| PipelineTokens.RowMoves | src/outbox/outbox.service.ts:58-69 | an unsent row with attempts left always allows some relay step |
| PipelineTokens.HandlerMoves | src/orders/orders-processor.consumer.ts:162-214 | a worker that holds the live copy of a message no fault has struck never has to wait |
| PipelineDuplicates.LostDeliveryDuplicates | src/orders/orders-processor.consumer.ts:93-143 | from any reachable state with a worker in its catch block on the last attempt, the message unprocessed and its key and row free, losing that one delivery lets the run end with the message dead-lettered and processed, without another fault |
| PipelineDuplicates.DeadAndProcessed | src/orders/orders-processor.consumer.ts:99-143 | such a state is reached, with one attempt allowed and one order |
| PipelineRelay.OpenBatchesDisjoint | src/outbox/outbox.service.ts:58-69 | the batches of ticks open at the same time share no row |
| PipelineRelay.SentIsTerminal | src/outbox/outbox.service.ts:72-102 | a SENT row is never changed again |
| PipelineRelay.PublishesAccounted | src/outbox/outbox-relay.service.ts:86-110 | an event is published at most once more than ticks were rolled back after publishing it, and each publish is answered for |
| PipelineRelay.AttemptsCountFailures | src/outbox/outbox.service.ts:83-102 | `attempts` is the number of publish failures in committed ticks and at most the maximum |
| OutboxRelay.OutboxService.SelectBatch | src/outbox/outbox.service.ts:58-69 | the batch is unlocked rows, PENDING or FAILED, with attempts left and no next time after now; the oldest ones, up to the limit, and fewer only if there are no more |
| OutboxRelay.OutboxService.ClaimBatch | src/outbox/outbox.service.ts:40-70 | the claim locks exactly those rows for a new tick |
| OutboxRelay.OutboxService.MarkSent | src/outbox/outbox.service.ts:72-81 | the tick's pending row is SENT with its attempts, next time, payload and creation time as they were, and nothing else changes |
| OutboxRelay.OutboxService.MarkFailed | src/outbox/outbox.service.ts:83-102 | the tick's pending row is FAILED with one more attempt and the given next time, payload and creation time as they were |
| OutboxRelay.OutboxRelayService.RelayOne | src/outbox/outbox-relay.service.ts:90-108 | one event is published and its row SENT, or its publish throws and its row is FAILED until the clock and the delay of this attempt |
| OutboxRelay.OutboxRelayService.RelayBatch | src/outbox/outbox-relay.service.ts:90-108 | the loop deals with every event of the batch, enqueues one copy per published process event and nothing else |
| OutboxRelay.OutboxRelayService.RelayTick | src/outbox/outbox-relay.service.ts:86-110 | a whole tick: which rows, what each becomes field by field with its next time, what was enqueued, no lock left; a run of the transition system |
| PipelineRows.FailedRowsWait | src/outbox/outbox-relay.service.ts:96-103 | in any run a FAILED row's next time is the clock of a mark that failed its event plus the delay of the row's attempts |
| PipelineRows.LeftAloneUntilDue | src/outbox/outbox.service.ts:58-69 | from any reachable state, until some claim's clock reaches an unlocked row's next time no claim takes its event and the row stays as it is |
| PipelineRows.MarkInFull | src/outbox/outbox.service.ts:72-102 | what a mark writes, field by field |
| PipelineRows.RepublishInFull | src/orders/orders-processor.consumer.ts:93-130 | what a failed attempt publishes: the message with the next attempt and the delay of the failed one, or after the last attempt the message as it was |
| PipelineRows.CreateInFull | src/outbox/outbox.service.ts:16-38 | the order and the two events a create inserts, field by field, due at once |
| PipelineRows.StatusUpdateInFull | src/orders/orders.service.ts:398-404 | a status update counts the version up by one and leaves processed_at |
| OrdersProcessor.OrdersProcessorConsumer.ProcessOrder | src/orders/orders-processor.consumer.ts:162-214 | when it throws, when it finds a duplicate, and the rows it leaves: the order PROCESSED with its version kept and processed_at kept or set, or nothing changed |
| OrdersProcessor.OrdersProcessorConsumer.HandleFailure | src/orders/orders-processor.consumer.ts:93-143 | a failure ends in a retry or dead-letter copy and an ack, or in a requeue; which one, and the copy field by field with its delay |
| OrdersProcessor.OrdersProcessorConsumer.OnMessage | src/orders/orders-processor.consumer.ts:63-145 | the outcome and the whole state after one message, for every combination of errors: exactly when the order is marked PROCESSED and how its row reads, and what copy follows a failure; a run of the transition system |
| OrdersProcessor.PathRuns | src/orders/orders-processor.consumer.ts:162-214 | the statements the transaction gets through are a run of the transition system to the state it leaves |
| BackOff.DelayDoublesUntilCap | src/orders/orders-processor.consumer.ts:216-221 | the delay doubles with each attempt until the cap and then stays at it |
| BackOff.DelayInFull | src/orders/orders-processor.consumer.ts:216-221 | the first delay is the base, each next one twice the one before, none more than 60000 ms |
| BackOff.TotalDelayInFull | src/orders/orders-processor.consumer.ts:216-221 | n delays add up to base*(2^m - 1) + 60000*(n - m), m the smaller of n and the first doubling that reaches the cap |
| RetryQueue.LeavesWithTheLatest | src/rabbitmq/rabbitmq.service.ts:56-62 | with expiry at the head only, a message leaves at the latest due time at or before it |
| RetryQueue.OrderKept | src/rabbitmq/rabbitmq.service.ts:56-62 | messages leave in the order they came |
| RetryQueue.RetryWaitBounded | src/orders/orders-processor.consumer.ts:102-109 | in a queue of the worker's delays in order of publishing, a retry never leaves before its own delay and waits at most 60000 ms even behind longer ones |
| RetryQueue.NoneLeavesEarly | src/orders/orders-processor.consumer.ts:102-113 | over any run of the worker's publishes and the broker's looks: what was published is what has left, in that order, then what is queued; nothing leaves before its due time; after a look exactly those have left that head-only expiry lets go |
| RetryQueue.NoneStaysPastTheCap | src/orders/orders-processor.consumer.ts:216-221 | over any such run, no message is still queued once the broker has looked 60000 ms or more after its publishing |
| RetryQueue.RabbitmqService.PublishRetry | src/orders/orders-processor.consumer.ts:102-113 | the retry goes to the tail with the delay of its attempt, and the queue stays what the run so far makes of it |
| RetryQueue.RabbitmqService.AssertInfrastructure | src/rabbitmq/rabbitmq.service.ts:52-79 | three durable queues, each bound to its key, the retry queue dead-lettering back to process |
| RetryQueue.RabbitmqService.Publish | src/rabbitmq/rabbitmq.service.ts:81-95 | a message goes to the tail of the queue its key is bound to and nowhere else |
| RetryQueue.RabbitmqService.ExpireHeads | src/rabbitmq/rabbitmq.service.ts:56-62 | by a given time exactly the prefix that has left moves to the process queue, in order, and the queue stays what the run so far makes of it |
| CheckoutUnique.StockConserved | src/orders/orders.service.ts:116-185 | under any interleaving stock plus what committed orders took is the initial stock, for every product, and stock is not negative |
| CheckoutStock.DecrementNeverMisses | src/orders/orders.service.ts:136-185 | once the check loop has passed under the row locks no guarded decrement can find too little stock |
| CheckoutStock.CommitTakes | src/orders/orders.service.ts:170-185 | a commit takes from each row exactly what its order's items say |
| CheckoutStock.CommitKeepsReads | src/orders/orders.service.ts:117-126 | no commit makes what another open transaction has read under its locks stale |
| CheckoutUnique.OneOrderPerKey | src/database/migrations/1770463397813-update-orders-idempotency-key-with-user-constraint.ts:11-14 | at most one order per user and key; each has one event of each kind, and the total its items come to |
| CheckoutTotals.CommitBills | src/orders/orders.service.ts:146-246 | in any run a commit adds one order: its request's products and quantities item by item, at the table's prices, for the sum of price times quantity |
| CheckoutTotals.EveryOrderIsBilled | src/orders/orders.service.ts:278-293 | in any run every order is some request's in that way, and every authorize request asks for its order's total under its key |
| CheckoutUnique.CommitStaysUnique | src/orders/orders.service.ts:230-269 | a commit adds one order under a new id with its two events, and keeps all of that |
| CheckoutPayments.OnePaymentPerOrder | src/payment-service/payments.service.ts:35-59 | over any interleaving with timeouts, at most one payment per order, with the order's own key and total |
| CheckoutPayments.LookUpIsUnambiguous | src/payments/payments.service.ts:76-78 | the lookup by order id has one possible answer |
| CheckoutPayments.PaidMeansCaptured | src/payments/payments.service.ts:110-134 | whoever is told an order is paid is told of that order's payment, which is captured or later refunded |
| CheckoutPayments.RecordsOnlyMoveForward | src/payment-service/payments.service.ts:110-231 | between any two points of a run orders stay as committed and payments keep order, key and amount and never go back in status |
| CheckoutPayments.InsertPaymentInFull | src/payment-service/payments.service.ts:51-64 | a new payment is AUTHORIZED for its request's order, key and amount |
| CheckoutPayments.SearchInFull | src/payment-service/payments.service.ts:35-49 | a request whose payment is there is answered with it; otherwise there is none of that order and key |
| CheckoutPayments.CaptureInFull | src/payment-service/payments.service.ts:110-170 | a capture makes an authorized or captured payment CAPTURED, answered or not, and changes nothing else of it |
| CheckoutPayments.RefundInFull | src/payment-service/payments.service.ts:172-231 | only a captured payment is refunded |
| CheckoutAnswers.ExistingIffFound | src/orders/orders.service.ts:103-114 | in any run a request whose findOne has run is answered with the existing order if and only if an order of its user and key was committed then |
| CheckoutAnswers.LoserGetsNoOrder | src/orders/orders.service.ts:302-323 | in any run a request past its findOne whose key somebody else has committed since is answered with no order, cannot insert, and is told "Payments service unavailable" when it meets the key |
| CheckoutAnswers.LoserIsToldUnavailable | src/orders/orders.service.ts:103-153 | from any state with stock for both, two requests of one user and key can both find no order, the first be accepted and the second be told so |
| CheckoutAnswers.NeverAtUniqueViolation | src/orders/orders.service.ts:304-321 | the catch block: a timeout, then any code, then a rollback; the branch for 23505 is never taken and its lookup never asked for |
| CheckoutAnswers.NoOrderIsDeleted | src/orders/orders.service.ts:369-378 | no reachable order is without items, so the foreign key never lets one be deleted |
| OrderCreation.OrdersService.CheckStock | src/orders/orders.service.ts:136-144 | the check loop names the first item with too little stock, and none if there is none |
| OrderCreation.OrdersService.NoDuplicates | src/orders/orders.service.ts:82-87 | the set-size test refuses exactly the requests that name a product twice |
| OrderCreation.OrdersService.LockProducts | src/orders/orders.service.ts:117-130 | the rows that exist are locked and read, and the count matches exactly when all exist |
| OrderCreation.OrdersService.DecrementAll | src/orders/orders.service.ts:170-185 | the update loop never misses and leaves each item's row lowered by its quantity |
| OrderCreation.OrdersService.Create | src/orders/orders.service.ts:74-327 | exactly when a request is refused, finds its order, conflicts or is accepted; a refusal changes nothing, a payment timeout does not undo the order; an accepted one has the request's items at the table's prices, and their sum is its total and what is authorized |
| OrderCreation.OrdersService.CatchError | src/orders/orders.service.ts:302-323 | the answer to an error inside the transaction, and that only one without a code rolls back |
| OrderCreation.PlacedReached | src/orders/orders.service.ts:90-293 | the whole effect of an accepted request is a run of the transition system |
| OrderCreation.RepeatFindsOrder | src/orders/orders.service.ts:103-114 | after an accepted request, whatever its caller was told, a repeat with the same user and key finds the new order |
| PaymentCapture.PaymentsService.Authorize | src/payment-service/payments.service.ts:25-90 | refused exactly when a field is missing or empty or the amount is not positive; otherwise the existing payment of that order and key, or one new one |
| PaymentCapture.PaymentsService.Capture | src/payment-service/payments.service.ts:110-170 | succeeds exactly on a payment that is there and not refunded; doing it again changes nothing |
| PaymentCapture.PaymentsService.Refund | src/payment-service/payments.service.ts:172-231 | succeeds exactly on a captured or already refunded payment |
| PaymentCapture.OrderPayments.PayOrder | src/payments/payments.service.ts:53-184 | with either call timing out after effect: one payment per order, only this order's payments touched, success means captured; without timeouts it succeeds exactly when the order is payable |
| Keyset.WalkDescends | src/common/pagination/cursor/paginate-query-builder.ts:48-84 | whatever is inserted and deleted between fetches, rows come in strictly descending (created_at, id) |
| Keyset.WalkComplete | src/common/pagination/cursor/paginate-query-builder.ts:48-84 | a row that is in the table at every fetch of a finished walk is returned |
| Keyset.WalkNeverRepeats | src/common/pagination/cursor/paginate-query-builder.ts:48-84 | no id is returned twice |
| Keyset.WalkSound | src/common/pagination/cursor/paginate-query-builder.ts:60-65 | every returned row was in the table when its page was fetched |
| Keyset.WalkOfUnchanging | src/common/pagination/cursor/paginate-query-builder.ts:60-84 | on a table nobody changes the pages are the sorted list, in as many pages as `PageCount` says |
| Keyset.PageCountIsCeiling | src/common/pagination/cursor/paginate-query-builder.ts:63-64 | that number is n / limit rounded up, and 1 for an empty table |
| Keyset.PageSkipsNothing | src/common/pagination/cursor/paginate-query-builder.ts:60-84 | a row below the cursor is on the page or below the next cursor |
| Keyset.PageInFull | src/common/pagination/cursor/paginate-query-builder.ts:48-84 | a page's rows match the cursor's condition, come by created_at and then id, both descending, number at most the limit and leave out none that comes before one of them; hasNext exactly when some are left; the next cursor is the last row |
| KeysetPagination.SelectQueryBuilder.GetRawAndEntities | src/common/pagination/cursor/paginate-query-builder.ts:60-62 | the first rows in order that meet the conditions, with the result rows of each, exact times if selected |
| KeysetPagination.PaginateQueryBuilderByCursor | src/common/pagination/cursor/paginate-query-builder.ts:11-85 | the page as a function of the table, the cursor and the limit, 10 if none is given |
| KeysetPagination.RowsLineUp | src/common/pagination/cursor/paginate-query-builder.ts:65-67 | result row n belongs to item n exactly when all items before it have one result row each |
| KeysetPagination.PageIsRight | src/common/pagination/cursor/paginate-query-builder.ts:63-84 | items and hasNext are right whatever is joined; with a next page the cursor is right if and only if the first item whose result rows, added to those before, reach the limit has the last item's createdAt |
| KeysetPagination.RowOfItem | src/common/pagination/cursor/paginate-query-builder.ts:65-67 | the result rows of an item stand from the sum of the fan-outs before it to that sum and its own |
| KeysetPagination.RowsInFull | src/common/pagination/cursor/paginate-query-builder.ts:60-62 | an item has one result row without joined rows and as many as it has joined rows otherwise |
| KeysetPagination.OneRowEachIsRight | src/common/pagination/cursor/paginate-query-builder.ts:63-84 | so it is right if all items but the last have one result row, and only then when no two times are equal |
| KeysetPagination.WrongCursorRepeats | src/products/products.service.ts:52-60 | a wrong cursor makes the next page bring the last item again |
| KeysetPagination.JoinRepeatsRow | src/products/products.service.ts:52-60 | three products in pages of two where that happens |
| IndexPager.FindIndex | src/common/pagination/cursor/paginate-by-cursor.ts:32-35 | the first element with the cursor's id and millisecond, or none |
| IndexPager.AsDateInFull | src/common/pagination/cursor/paginate-by-cursor.ts:32-35 | a Date keeps the last whole millisecond not after the timestamp |
| IndexPager.PagersAgree | src/common/pagination/cursor/paginate-by-cursor.ts:14-64 | on the sorted list, for the same row's cursor, both pagers give the same items and hasNext |
| IndexPager.PagersAgreeOnTable | src/common/pagination/cursor/paginate-by-cursor.ts:14-64 | so they do on every table, joins included, for the cursor of any of its rows |
| IndexPager.PagersAgreeOnCursors | src/common/pagination/cursor/paginate-by-cursor.ts:49-64 | with whole-millisecond timestamps the pages are equal while there is a next one |
| IndexPager.DateCursorLosesRows | src/common/pagination/cursor/paginate-query-builder.ts:43-46 | a cursor cut to milliseconds loses every row between it and the row it was made from, on any walk |
| IndexPager.DateCursorLosesARow | src/common/pagination/cursor/paginate-query-builder.ts:68-71 | two rows of one millisecond where that happens |
| CursorCodec.CursorRoundTrip | src/common/pagination/cursor/cursor-codec.ts:8-28 | decoding an encoded cursor gives back both strings, whatever they hold |
| CursorCodec.CursorsDiffer | src/common/pagination/cursor/cursor-codec.ts:8-9 | two different positions never share a cursor |
| CursorCodec.CursorInFull | src/common/pagination/cursor/cursor-codec.ts:8-9 | the cursor's text: an object with id and then createdAt, escaped, in UTF-8, in base64 |
| CursorCodec.DecodeInFull | src/common/pagination/cursor/cursor-codec.ts:11-28 | a cursor is read exactly when its text parses to an object with two strings of those names, as those strings; anything else is an invalid cursor |
| CursorCodec.CursorNotEmpty | src/common/pagination/cursor/cursor-codec.ts:8-9 | no cursor is the empty string, which would read as none |
| Json.RoundTrip | src/common/pagination/cursor/cursor-codec.ts:8-13 | an object of strings written by JSON.stringify is read back by JSON.parse as itself |
| Json.StringifyWellFormed | src/common/pagination/cursor/cursor-codec.ts:8-9 | what is written never holds half a surrogate pair |
| Json.ShortEscapesInFull | src/common/pagination/cursor/cursor-codec.ts:8-9 | quote, backslash and five controls are written as two units |
| Json.LongEscapesInFull | src/common/pagination/cursor/cursor-codec.ts:8-9 | other controls and half pairs are written as \u and their own four digits |
| Json.PlainStays | src/common/pagination/cursor/cursor-codec.ts:8-9 | all other text stays as it is |
| Json.LookupInFull | src/common/pagination/cursor/cursor-codec.ts:13 | of members with the same key the last one counts |
| Utf8.SurvivesExactlyWellFormed | src/common/pagination/cursor/cursor-codec.ts:9-13 | text survives UTF-8 exactly when it holds no half pair |
| Utf8.TextSurvivesExactly | src/generated/payments/v1/payments.ts:94 | read back with a TextDecoder, text survives exactly when it also does not begin with a byte order mark; what comes back otherwise |
| Utf8.DecodeEncode | src/common/pagination/cursor/cursor-codec.ts:9-13 | other text comes back with each half pair replaced and nothing else changed |
| Utf8.UnitInFull | src/common/pagination/cursor/cursor-codec.ts:8-9 | one, two or three bytes whose free bits make up the unit |
| Utf8.PairInFull | src/common/pagination/cursor/cursor-codec.ts:8-9 | four bytes whose free bits make up the pair's code point |
| Utf8.DecodedExactly | src/common/pagination/cursor/cursor-codec.ts:13 | only bytes that encoding writes are read without a replacement: no overlong form, no encoded half pair |
| Base64.RoundTrip | src/common/pagination/cursor/cursor-codec.ts:9-13 | any bytes survive base64 with padding |
| Base64.EncodedLength | src/common/pagination/cursor/cursor-codec.ts:9 | the text comes in whole groups of four |
| Base64.SymbolInFull | src/common/pagination/cursor/cursor-codec.ts:9 | the alphabet |
| Base64.ValueInFull | src/common/pagination/cursor/cursor-codec.ts:13 | the alphabet is read back, with - and _ as its last two as well, and nothing else |
| Base64.GroupInFull | src/common/pagination/cursor/cursor-codec.ts:9 | three bytes are the 24 bits of four symbols |
| Base64.OneLeftInFull | src/common/pagination/cursor/cursor-codec.ts:9 | one byte left over takes two symbols and two of padding |
| Base64.TwoLeftInFull | src/common/pagination/cursor/cursor-codec.ts:9 | two bytes left over take three symbols and one of padding |
| Wire.Int32RoundTrip | src/generated/payments/v1/payments.ts:195-222 | a status, negative or not, is read back as itself |
| Wire.NegativeTakesTen | src/generated/payments/v1/payments.ts:195-197 | a negative status takes ten bytes |
| Wire.VarintInFull | src/generated/payments/v1/payments.ts:74-80 | a varint's groups of seven bits, the lowest first, make up its number, and only its last byte is below 128 |
| Wire.ReadInFull | src/generated/payments/v1/payments.ts:83-90 | a read takes the bytes up to the first below 128, minimal or not, and makes up their number |
| Wire.SkipRoundTrip | src/generated/payments/v1/payments.ts:106-110 | skipping goes exactly to the end of a payload of wire type 0, 1, 2, 3 or 5, groups within groups included |
| ProtobufTheorems.Rendered | src/generated/payments/v1/payments.ts:137-183 | the decoder reads any list of known and unknown fields as the record they overlay and stops right behind them |
| ProtobufTheorems.RoundTrip | src/generated/payments/v1/payments.ts:72-472 | decoding gives back what was encoded but for its strings, half pairs replaced and a leading byte order mark dropped, and exactly it if and only if there is neither |
| ProtobufTheorems.NestedConsumesItsPrefix | src/generated/payments/v1/payments.ts:161-168 | a nested message is read to its own end and not beyond, whatever follows |
| ProtobufTheorems.Concatenation | src/generated/payments/v1/payments.ts:137-183 | two encoded messages in a row decode as the first overlaid by the second's non-default fields, nested ones whole |
| ProtobufTheorems.Splicing | src/generated/payments/v1/payments.ts:177-181 | a field of unknown number or wrong wire type changes nothing wherever it stands among the fields |
| ProtobufTheorems.DefaultsTakeNoBytes | src/generated/payments/v1/payments.ts:121-135 | a message takes no bytes exactly when every field has its default |
| ProtobufTheorems.AbsentIsNotEmpty | src/generated/payments/v1/payments.ts:128-130 | an absent nested message and an empty one are written and read apart |
| PaymentsMessages.MessageRoundTrip | src/generated/payments/v1/payments.ts:72-472 | for each of the eight types, decoding the encoded message gives it back exactly when none of its strings holds half a pair or begins with a byte order mark |
| PaymentsMessages.MarkedIdArrivesBare | src/generated/payments/v1/payments.ts:345-375 | a payment id with a byte order mark in front arrives as the id without it |
| PaymentsMessages.NestedCanOvershoot | src/generated/payments/v1/payments.ts:83-113 | three bytes on which a nested decoder reads past its length |
| NestedFraming.NestedEndsExactly | src/generated/payments/v1/payments.ts:83-113 | for any payload, any prefix that says its length and any rest: the nested read ends exactly at the rest if and only if the payload is whole fields, or whole fields and one final stop tag; it stays within the payload if and only if there are whole fields up to its end or to a stop tag |
| NestedFraming.WholeIsFields | src/generated/payments/v1/payments.ts:83-113 | whole fields means a sequence of tags of the message or of others, each with all of its payload, varints minimal or not |
| NestedFraming.LoopEndsBy | src/generated/payments/v1/payments.ts:83-113 | where the loop ends for each kind of payload: behind it, behind its stop tag, or by throwing or reading on |
| PaymentsMessages.BinaryWriter.Join | src/generated/payments/v1/payments.ts:128-130 | what was written since the matching fork goes behind its length |
| PaymentsMessages.BinaryWriter.EncodeMoney | src/generated/payments/v1/payments.ts:73-81 | the money's bytes are appended, defaults left out |
| PaymentsMessages.BinaryWriter.EncodeAuthorizeRequest | src/generated/payments/v1/payments.ts:121-135 | the request's bytes are appended, nested money with its length, defaults left out |
| PaymentsMessages.BinaryWriter.EncodeMessage | src/generated/payments/v1/payments.ts:72-439 | for all eight types the bytes appended are the fields by name, each behind its literal tag, defaults left out, in the order of their numbers |
| PaymentsMessages.EncodedInFull | src/generated/payments/v1/payments.ts:72-439 | those bytes, type by type: `Layout` names the tag of every field |
| PaymentsFields.MoneyByName | src/generated/payments/v1/payments.ts:83-113 | decoding tag 10 sets the amount, 18 the currency |
| PaymentsFields.AuthorizeRequestByName | src/generated/payments/v1/payments.ts:137-183 | decoding 10 sets the order, 18 the user, 26 the total, 34 the idempotency key, and nothing else |
| PaymentsFields.AuthorizeResponseByName | src/generated/payments/v1/payments.ts:204-242 | decoding 10 sets the payment, 16 the status, 26 the message, and nothing else |
| PaymentsFields.StatusResponseByName | src/generated/payments/v1/payments.ts:300-343 | the same for the status response, whose 26 is the order |
| PaymentsFields.PaymentRequestsByName | src/generated/payments/v1/payments.ts:257-425 | for the three requests about a payment 10 is the payment, and for a refund 18 the amount |
| PaymentsFields.OperationResponseByName | src/generated/payments/v1/payments.ts:441-472 | decoding 8 sets ok, 18 the message |
| PaymentsFields.LayoutDecodes | src/generated/payments/v1/payments.ts:72-472 | all fields together: the layout of a message with plain strings is read back field by field |
| PaymentsMessages.BinaryReader.DecodeFields | src/generated/payments/v1/payments.ts:137-183 | the loop returns and leaves unread exactly what the decoding function says, or throws when it does |
| PaymentsMessages.DecodeMessage | src/generated/payments/v1/payments.ts:83-472 | a whole buffer decodes to the message of its type, or throws; which tag sets which field is stated by the `ByName` lemmas |
| OrderEvents.OutputIsThinnedInput | src/orders/orders-events.service.ts:29-54 | for any timed input, each order's output is a subsequence of its version-distinct input with gaps of at least 300 ms |
| OrderEvents.SettlesOnLastVersion | src/orders/orders-events.service.ts:41-42 | once 300 ms and the timers' lateness have passed since the last event, the last output has the last version |
| OrderEvents.CountersAreRight | src/orders/orders-events.service.ts:35-45 | dedupDropped counts the repeats, and emitted plus waiting is at most received less dropped |
| OrderEvents.CountersInFull | src/orders/orders-events.service.ts:35-45 | received is the sum over the orders of what came in, emitted of what went out, dedupDropped of the repeats |
| OrderEvents.ReceiveSound | src/orders/orders-events.service.ts:35-41 | an event is counted as dropped exactly when the distinct step drops it |
| OrderEvents.OrdersEventsService.PublishStatusChanged | src/orders/orders-events.service.ts:61-64 | the counters, the order's group and what goes out at once, for every state |
| OrderEvents.OrdersEventsService.TimerRunsOut | src/orders/orders-events.service.ts:42-45 | the trailing edge lets the waiting event out and starts the timer again |
| Gallery.GalleryTheorem | src/files/files.service.ts:95-131 | over any interleaving of completions and repeats: sort orders are 0 to n-1, only 0 is primary, each ready product file has exactly one image, each avatar is a ready file of its user |
| Gallery.LinksNeverCollide | src/files/files.service.ts:321-359 | no insert meets the unique key on product and file, committed or not |
| Gallery.GalleriesGrow | src/files/files.service.ts:347-358 | an image numbered by the count keeps the numbering without gaps or repeats |
| FilesService.FilesService.CompleteUpload | src/files/files.service.ts:95-131 | a call succeeds if and only if the file is there, the caller is staff or its owner as a user, it is not FAILED, its object exists or it is READY, and its owner exists; otherwise the error of the first that fails; a refusal changes nothing, a repeat adds no image |
| FilesService.RefusalInFull | src/files/files.service.ts:273-284 | the tests in full and the error that belongs to each |
| FilesService.FilesService.BindProductImage | src/files/files.service.ts:321-359 | fails exactly when the product is missing, and links a file once |
| FilesService.FilesService.BindUserAvatar | src/files/files.service.ts:308-319 | fails exactly when the user is missing, and sets only that user's avatar |
| RateLimiter.EveryWindowIsWithinLimit | src/realtime/orders.gateway.ts:167-183 | no window of three seconds, wherever it begins, holds more than five accepted calls |
| RateLimiter.InWindowCounts | src/realtime/orders.gateway.ts:177-180 | the length compared with the limit is the number of accepted calls in the three seconds that end now |
| RateLimiter.AllowedInFull | src/realtime/orders.gateway.ts:167-183 | a call is refused exactly when the fifth last accepted one was less than 3000 ms before it |
| RateLimiter.PruneAgain | src/realtime/orders.gateway.ts:177 | pruning the pruned list later gives what pruning the full history then would |
| RateLimiter.RealtimeClientData.AssertRateLimit | src/realtime/orders.gateway.ts:167-183 | a call is accepted exactly when counting over the full accepted history allows it |
| RateLimiter.RealtimeClientData.HandleDisconnect | src/realtime/orders.gateway.ts:82-87 | nothing is remembered after a disconnect |

## Left out

- Deadlock freedom and liveness of `create`: its lock query has no ordering, and some error paths hand the connection back without a rollback.
- An error while the early return of `create` rolls back: findOne, rollback and return are one step.
- Delivery of `order.placed` to Kafka: the publisher returns silently when Kafka is disabled, so only `order.process_requested` is followed.
- Messages in the process queue that do not parse or lack an id: the worker acks and drops them; the relay publishes none.
- Broker publishes that are buffered but never confirmed, and a relay transaction whose mark statement fails: the first is ruled out by the assumption on publishes, the second is a rolled-back tick.
- Overlapping halves of `capture`, `refund` and `updateStatus`; product edits, restocking and deletion of products, users or orders that have items.
- Discounts and shipping, which the code sets to zero, and currencies; amounts are whole cents.
- PaymentCapture.PaymentsService.Authorize: how the amount text becomes a number is not modelled; a text that is no finite number is None.
- OrderCreation.OrdersService.Create: proved for one request nobody interferes with; interleavings are the transition system's.
- OrdersProcessor.OrdersProcessorConsumer.OnMessage: proved with nobody interfering; interleavings are the transition system's.
- OutboxRelay.OutboxRelayService.RelayTick: proved with nobody interfering; interleavings are the transition system's.
- CheckoutUnique.StockConserved: only `create` changes stock here.
- CursorCodec.CursorRoundTrip: for a `createdAt` passed as text, as all callers do; of a Date only the truncation to milliseconds is modelled, in IndexPager.
- KeysetPagination.PaginateQueryBuilderByCursor: cursors are pairs of a time and an id, not their text; an id stands for its place in the order of ids.
- Base64 text with characters outside the alphabet: they are skipped, and what Buffer makes of text behind padding is not looked into.
- ProtobufTheorems.RoundTrip: for messages of less than 2^32 bytes, as their length prefixes demand.
- NestedFraming.NestedEndsExactly: for messages without a message in them, as Money is; groups nested deeper than a JavaScript stack allows are skipped here.
- OrderEvents.SettlesOnLastVersion: errors in the stream and its completion at shutdown are not modelled.
- Gallery.GalleryTheorem: rows are not deleted except uploads that were never finished; nothing sets a file FAILED.
- NestJS modules, controllers, guards, interceptors, configuration, tracing, audit logging, S3, JWT and gRPC transport; the GraphQL order list, whose cursor is cut to milliseconds; offset pagination, decimal string helpers and seeds.
