# A verified model of the shop backend

This project models the behaviour of the shop's backend services in Dafny and proves the
guarantees they are built for: what the order protocol keeps over every interleaving of
requests, workers and redeliveries; that money arithmetic in binary floating point is exact;
that cursor pagination delivers every row once, and when it does not; and that tokens are
spent at most once. `dafny verify dfyconfig.toml` checks everything.

## What is modelled

**Orders, stock, queue and payment.** `Protocol.dfy` is a transition system over the products,
orders, processed-message and payments tables, the queue, the dead-letter queue and every call
in flight. One event is one database statement or transaction, one broker action or one gRPC
hop; a run is any list of events, so it covers every interleaving of concurrent create calls,
cancellations, workers, crashes, redeliveries and late answers. Reads that the services do without a
lock are separate events: a cancellation and a worker's transaction both save an order from a
snapshot that may be out of date, and a saved cancellation may keep or overwrite a payment id
that was written in between. `Invariants.dfy` has what every event keeps, `Ledger.dfy` the stock
ledger, `Theorems.dfy` the guarantees, `Runs.dfy` concrete runs that reach the states they speak of.
`ShopService.dfy` has the services as they are written, as methods over mutable tables; each atomic piece is proved to
be one event, and each whole call the corresponding list of events. `Outcomes.dfy` then says on the columns of the
tables what every whole call leaves behind, and where every order and every cancellation comes from.

**Stock transactions at row-lock granularity.** `RowLocks.dfy` splits them further, into one lock, one
in-memory change and one saved row at a time, and proves that the outcome is serial in the order
in which the transactions finish.

**Money.** `Binary64.dfy` defines correct rounding to binary64 on exact reals and derives the error bounds
from that definition; `Amounts.dfy` has the services' computations, which the protocol itself uses; `Money.dfy`
proves them exact, and `Checkout.dfy` follows a cart to its payments row.

**Messages.** `RetryQueue.dfy` has the worker's handling of raw message bodies, including bodies that do not
parse, lack ids or carry an unusable attempt number.

**Listings, search and loaders.** `Keyset.dfy` is the theory of the cursor conditions, `OrdersListing.dfy` the orders
listing with its two queries, `Codecs.dfy` the cursor and token texts, `Like.dfy` the escaped text
search, `Loaders.dfy` the batch loaders.

**Tokens, images, carts.** `Tokens.dfy` interleaves the steps of token rotation, sign-in, revocation and
one-time tokens; `Images.dfy` has uploads and main images, one call at a time, and `ImageWrites.dfy` the same calls one
database write at a time, overlapping; `Cart.dfy` has the carts, what overlapping cart writes do to a checkout, and the
checkout itself, which calls the order service of `ShopService.dfy`.

Rows are identified by their position in append-only tables, because random UUIDs do not repeat. Random
correlation ids and idempotency keys chosen by clients never collide. Dates are integers in microseconds or
milliseconds. External answers (the payments service being reachable, an object being in the bucket, processing
failing) are parameters.

## What turned out not to hold

- Stock goes negative when one request lists a product twice: the check is per line. `Stock.TakenNonNegativeIff` is
  the exact condition, `Stock.RepeatedProductOverdraws` an input, and carts never send such a request.
- CANCELLED is not final. The payment write has no guard, and the worker and cancel transactions read the order
  without a lock. Plain conservation of stock fails exactly by the orders that were overrun
  (`Ledger.ConservationIff`); `Runs.CancelledTwice`, `Runs.PaidAfterCancellation` and
  `Runs.ProcessedAfterCancellation` are runs that get there.
- The comment at `apps/shop/src/orders/services/order-processing.service.ts:34` and line 221 of
  `docs/backend/architecture/feature-order-creation-flow.md` say that a failed payment is retried.
  The retry finds the processed-message row and skips; `Theorems.FailedPaymentIsFinal` is what the code does.
- Line 35 of `docs/backend/architecture/feature-rabbitmq-async.md` promises up to three retries; the code handles
  a message at most three times in all.
- A message whose attempt number is a finite number of at most -2^53 - 4 is retried for ever, because adding one no
  longer changes it. `RetryQueue.SettlesIff` is the exact condition.
- Listings by creation time skip rows when ids do not follow the timestamps within one millisecond, and the users
  listing, which compares full timestamps with a cursor cut to milliseconds, when two rows share a millisecond.
  `Keyset.TimeListingsIff` and `Keyset.UsersListingIff` are the exact conditions. Every walk ends regardless.
- Overlapping sign-ins leave a user with two live refresh tokens (`Tokens.OverlappingSignIns`), and a password change
  in the middle of a rotation leaves one (`Tokens.RotationOutlivesPasswordChange`). `Tokens.SingleSessionIff` and
  `Tokens.SignedOutIff` are the exact conditions.
- A password reset token can be used after it has expired (`Tokens.ResetUsedLate`; `Tokens.UsedInTimeIff` is the exact
  condition).
- A create call whose key belongs to another user's order returns that order (`Runs.ForeignOrderReturned`), although the
  recovery from a lost race refuses to; `Theorems.ReturnedOrderIsOwnIff` is the exact condition.
- Overlapping image calls break the main images: two `addImage` calls can make one file the main image of two products
  (`ImageWrites.OverlappingAdds`), an image removed between the check and the write of `setMainImage` stays the main
  image (`Images.OverlappingRemoval`), and a product update that was read before a removal brings the main image back
  (`ImageWrites.StaleProductSave`). `ImageWrites.MainImagesIff` is the exact condition, write by write, for every
  interleaving; `ImageWrites.FreshKeepsMains` shows that saving only rows that are unchanged since they were read
  would meet it.
- A checkout removes cart rows that it did not order: those added or changed while the order is created
  (`Cart.AddedDuringCheckout`; `Cart.ClearedRowsIff` is the exact condition), and all of them when the key was used
  before, because the earlier order is returned. Of two overlapping `addItem` calls for one product one is lost
  (`Cart.OverlappingAddItems`).

## Model

| member | source | states |
|---|---|---|
| Stock.FirstRejection | apps/shop/src/orders/services/order-stock.service.ts:107-127 | the exception is that of the first line that is missing, inactive or short, and there is none exactly when no line is |
| Stock.RejectionIs | apps/shop/src/orders/services/order-stock.service.ts:107-127 | which exception a line raises, by the columns of its product: not found when it is missing or deleted, inactive when it is not active, insufficient when the stock is below the quantity, none otherwise |
| Stock.ValidateStockAndAvailability | apps/shop/src/orders/services/order-stock.service.ts:107-127 | the checking loop returns the first rejection and changes nothing |
| Stock.DecrementStock | apps/shop/src/orders/services/order-stock.service.ts:22-27 | every product entity loses exactly the total quantity of its lines |
| Stock.RestoreStock | apps/shop/src/orders/services/order-stock.service.ts:72-82 | every product entity gains exactly the total quantity of its lines; absent products are skipped |
| Stock.GivenBackRows | apps/shop/src/orders/services/order-stock.service.ts:34-45 | a cancellation adds to every row that is not deleted the total quantity of its lines, and changes no other row and no other column |
| Stock.QuantitySign | apps/shop/src/orders/utils/index.ts:56-70 | with validated quantities the total of a product is positive exactly when a line mentions it |
| Stock.SavingLockedRows | apps/shop/src/orders/services/order-stock.service.ts:34-66 | writing back only the locked rows is the whole effect on the table |
| Stock.TakenNonNegativeIff | apps/shop/src/orders/services/order-stock.service.ts:52-66 | an accepted order leaves no negative stock exactly when every product's total fits its stock |
| Stock.DistinctNeverOverdraws | apps/shop/src/orders/services/order-stock.service.ts:52-66 | pairwise distinct products are enough for that |
| Stock.RepeatedProductOverdraws | apps/shop/src/orders/services/order-stock.service.ts:60-61 | two lines for one product pass the per-line check and leave a stock of -3 |
| Stock.GivenBackNonNegative | apps/shop/src/orders/services/order-stock.service.ts:34-45 | a cancellation never makes a stock negative |
| ShopService.Shop.UniqueProductIds | apps/shop/src/orders/services/orders-command.service.ts:115 | the id list has every mentioned product exactly once |
| ShopService.Shop.FindByIdsWithLock | apps/shop/src/products/product.repository.ts:96-103 | fresh entities mirror exactly the live rows of the given ids |
| ShopService.Shop.SaveProducts | apps/shop/src/products/product.repository.ts:196-199 | the stocks of the given entities are written, every other row and column stays |
| ShopService.Shop.LockValidateAndDecrement | apps/shop/src/orders/services/order-stock.service.ts:52-66 | all or nothing: the first rejection and an unchanged table exactly when some line is not in stock, otherwise every row is lower by its total quantity and the locked prices are returned |
| ShopService.Shop.LockAndRestore | apps/shop/src/orders/services/order-stock.service.ts:34-45 | every line is given back to its live row and nothing else changes |
| ShopService.Shop.ValidateOrderItems | apps/shop/src/orders/utils/index.ts:56-70 | accepts exactly quantities from 1 to 1000 |
| ShopService.Shop.FindByIdempotencyKey | apps/shop/src/orders/services/orders-command.service.ts:156 | finds the order with the key, and none only if there is none |
| ShopService.Shop.CheckIdempotency | apps/shop/src/orders/services/orders-command.service.ts:153-165 | is the protocol's key check: an existing order is returned whoever owns it |
| ShopService.Shop.ValidateExist | apps/shop/src/orders/services/order-stock.service.ts:90-98 | is the protocol's pre-check: passes exactly when every mentioned product is live |
| ShopService.Shop.CreateOrderItems | apps/shop/src/orders/services/orders-command.service.ts:239-249 | the order lines are the items in order, each with the price of its own product |
| ShopService.Shop.ExecuteOrderTransaction | apps/shop/src/orders/services/orders-command.service.ts:211-258 | is the protocol's order transaction, rolled back on a unique violation or a time-out, and its result is what the call frame records; `Theorems.CreateIsAllOrNothing` says what it does to the tables |
| ShopService.Shop.HandleCreationError | apps/shop/src/orders/services/pg-error-mapper.service.ts:30-71 | returns an order exactly when the error is a unique violation and the order has the call's key and the call's user, and throws otherwise |
| ShopService.Shop.PublishOrderProcessing | apps/shop/src/orders/services/order-publisher.service.ts:31-51 | is the protocol's publish event, one message with attempt 1 and the key as correlation id, or its failure when the broker does not take the message |
| ShopService.Shop.CreateOrder | apps/shop/src/orders/services/orders-command.service.ts:91-151 | a call that no other call interleaves with is its six events in order, on every path, with or without a time-out and a failing publish, and its result is what the call frame records |
| ShopService.RefusedCancel | apps/shop/src/orders/services/orders-command.service.ts:173-192 | a cancellation that the guards refuse changes no table |
| ShopService.Shop.CancelOrder | apps/shop/src/orders/services/orders-command.service.ts:167-209 | an uninterrupted call is its four events, and it succeeds exactly for the owner of an order that is neither CANCELLED nor CREATED |
| ShopService.UninterruptedTransaction | apps/shop/src/orders/services/order-processing.service.ts:128-193 | the worker's transaction in one piece: duplicate, missing order, not PENDING, or PROCESSED with its row recorded |
| ShopService.Shop.RunTransaction | apps/shop/src/orders/services/order-processing.service.ts:128-193 | is the worker's two events, and goes on to payment exactly when the order was PENDING, unpaid and payments are enabled |
| ShopService.Shop.Authorize | apps/payments/src/payments.service.ts:20-63 | is the two events of the payments service: refuse, find the existing row, or insert one with the decimal text of the amount |
| ShopService.Shop.SendAuthorize | apps/shop/src/orders/services/order-processing.service.ts:60-75 | sends the order's total as it is computed in binary64 |
| ShopService.Shop.WritePayment | apps/shop/src/orders/services/order-processing.service.ts:77-80 | is the unguarded payment write of the protocol |
| ShopService.Shop.AuthorizePayment | apps/shop/src/orders/services/order-processing.service.ts:60-111 | is asking, the answer of the payments service and the payment write in order; without an answer or after a refusal an exception leaves it |
| ShopService.Shop.ProcessOrderMessage | apps/shop/src/orders/services/order-processing.service.ts:120-205 | is transaction and payment in order, with or without an answer, and succeeds exactly when the handler may ack |
| ShopService.Shop.RerouteFailed | apps/shop/src/orders-worker/orders-worker.service.ts:120-135 | republishes with the next attempt below the limit, else copies to the dead-letter queue |
| ShopService.Shop.HandleMessage | apps/shop/src/orders-worker/orders-worker.service.ts:67-136 | an uninterrupted delivery is its list of events, ack last |
| Outcomes.HandlerOutcome | apps/shop/src/orders/services/order-processing.service.ts:120-205 | a delivery that nothing interrupts, from every state: duplicate, missing order, not PENDING, nothing to pay, unpaid, paid; in each case the order, the processed row, the payments row with the order's total, and where the message goes |
| Outcomes.ServerAnswers | apps/payments/src/payments.service.ts:20-63 | the payments service grants a positive amount that fits its column, or any positive amount of an order that has a payment already, and refuses every other; one row at most is added |
| Outcomes.FailureIsRerouted | apps/shop/src/orders-worker/orders-worker.service.ts:113-135 | whichever phase of a handler fails: no table changes, the message is queued again with the next attempt below the limit and copied to the dead-letter queue otherwise, and then acked |
| Outcomes.ReroutedTo | apps/shop/src/orders-worker/orders-worker.service.ts:120-131 | rerouting alone: exactly one copy, in the queue with the next attempt or in the dead-letter queue |
| Outcomes.CallFailures | apps/shop/src/orders/services/order-processing.service.ts:67-111 | a cancellation that fails changes no table; a payments service that fails has refused, and its caller does not come to write a payment |
| Outcomes.DeliveryMoves | apps/shop/src/orders-worker/orders-worker.service.ts:67-71 | handing a message to a worker keeps every message of the broker |
| Outcomes.RedeliveryMoves | apps/shop/src/orders-worker/orders-worker.service.ts:105-118 | so does taking back an unacked message, with the same attempt |
| Outcomes.CrashLeaves | apps/shop/src/orders-worker/orders-worker.service.ts:105-107 | a worker that dies leaves its delivery unacked and everything else as it was |
| Outcomes.CancelOutcome | apps/shop/src/orders/services/orders-command.service.ts:167-209 | a cancellation that nothing interrupts, from every state: exactly the owner of a PENDING, PROCESSED or PAID order cancels it and gets its pieces back to every row that is not deleted; otherwise nothing changes |
| Outcomes.StaleCancel | apps/shop/src/orders/services/orders-command.service.ts:173-198 | a cancellation saves the order as it read it, whatever has happened since; only the payment id may survive |
| Outcomes.StaleWorker | apps/shop/src/orders/services/order-processing.service.ts:159-188 | the worker saves PROCESSED over whatever the order has become since it read it PENDING |
| Outcomes.CancelledByOwner | apps/shop/src/orders/services/orders-command.service.ts:173-192 | in every reachable state a CANCELLED order was cancelled by a finished call of its own user |
| Protocol.FindKey | apps/shop/src/orders/order.entity.ts:36-37 | a lookup by idempotency key finds a row with the key, and none only if there is none |
| Protocol.FindPayment | apps/payments/src/payments.service.ts:38-40 | the same for a payment by order |
| Invariants.StepKeepsInv | apps/shop/src/orders/services/order-processing.service.ts:120-205 | all thirty events keep the thirteen-part invariant of the protocol |
| Invariants.EveryRunKeepsInv | apps/shop/src/orders/services/order-processing.service.ts:120-205 | so it holds in every reachable state |
| Invariants.NoPaymentWhileOpen | apps/shop/src/orders/services/order-processing.service.ts:128-193 | while a worker's transaction is open its order has neither a processed row nor a payment |
| Invariants.RerouteKeeps | apps/shop/src/orders-worker/orders-worker.service.ts:120-135 | rerouting before the ack never leaves a message without a copy |
| Invariants.RedeliverKeeps | apps/shop/src/orders-worker/orders-worker.service.ts:105-118 | redelivery at any moment keeps the invariant, even when the first handler is still alive |
| Ledger.ExactLedger | apps/shop/src/orders/services/order-stock.service.ts:22-82 | for every product that no administrator touched: stock plus quantities of non-cancelled orders is the initial stock plus the quantities of the overruns, in every reachable state |
| Ledger.ConservationIff | apps/shop/src/orders/services/order-processing.service.ts:78-80 | plain conservation for a product holds exactly when no overrun order mentions it |
| Ledger.StepBalances | apps/shop/src/orders/services/orders-command.service.ts:167-258 | every event keeps the ledger |
| Ledger.RunEvolves | apps/shop/src/orders/order.entity.ts:29-75 | orders are only appended and keep owner, key and lines |
| Ledger.RunQuantities | apps/shop/src/orders/services/orders-command.service.ts:99 | every order in every reachable state has validated quantities |
| Ledger.StockNeverNegative | apps/shop/src/orders/services/order-stock.service.ts:52-66 | in every run whose requests list distinct products and whose administrators write no negative stock, no stock is ever negative |
| Theorems.AtMostOncePayment | apps/shop/src/orders/services/order-processing.service.ts:131-204 | in every reachable state each order has at most one authorization call, one payments row and one payment write, and its payment id names its own row, whose text is that of its own total |
| Theorems.NoMessageLost | apps/shop/src/orders-worker/orders-worker.service.ts:105-135 | a published order that is still PENDING has a message in the queue, unacked or in the dead-letter queue |
| Theorems.StatusInvariant | apps/shop/src/orders/services/order-processing.service.ts:140-192 | what each status says about the processed-message row and the payment id, and that CREATED never occurs |
| Theorems.NeverPendingAgain | apps/shop/src/orders/services/orders-command.service.ts:197-198 | no continuation of a run drops an order, changes its identity or makes it PENDING again |
| Theorems.IdempotentCreation | apps/shop/src/orders/services/orders-command.service.ts:101-150 | for any interleaving: one order per key, all successful calls with a key return the same order, and a returned order has the call's key |
| Theorems.ReturnedOrderIsOwnIff | apps/shop/src/orders/services/orders-command.service.ts:153-165 | for every run: a create call returns an order of its own caller exactly unless its key check found an order of another user |
| Theorems.RecoverIff | apps/shop/src/orders/services/pg-error-mapper.service.ts:38-71 | after a failed transaction the call returns exactly an order with its own key and user, and only after a unique violation; otherwise it throws, and no table changes |
| Theorems.LoserGetsWinnersOrder | apps/shop/src/orders/services/pg-error-mapper.service.ts:38-50 | for every interleaving: a call that lost against the unique index finds the order with its key and returns it exactly when it is its own user's |
| Runs.LostRace | apps/shop/src/orders/services/pg-error-mapper.service.ts:38-50 | a run in which two overlapping calls with one key make one order and both return it |
| Runs.ForeignOrderReturned | apps/shop/src/orders/services/orders-command.service.ts:101-113 | a run in which user 2 sends the key of user 1's order and receives that order |
| Theorems.AcceptableIff | apps/shop/src/orders/services/order-stock.service.ts:107-127 | the transaction commits exactly when every line names a live, active product with enough stock and the key is free |
| Theorems.CreateIsAllOrNothing | apps/shop/src/orders/services/orders-command.service.ts:211-258 | an acceptable request adds one PENDING order with its user, key and items, each line at the price of its own product, and lowers each stock by exactly the quantity asked for; any other leaves stocks, orders and messages as they were and is a unique violation exactly when all lines are in stock |
| Outcomes.CreateOutcome | apps/shop/src/orders/services/orders-command.service.ts:91-151 | a create call that nothing interrupts, on every path: bad quantities, a used key, a line out of stock, a time-out, a broker that does not take the message, success; in each case the result, the stocks, the new order with the price of each line, and the message |
| Outcomes.PrecheckIff | apps/shop/src/orders/services/order-stock.service.ts:90-98 | the pre-check passes exactly when every product that is asked for is in the table and not deleted |
| Outcomes.OrderOrigin | apps/shop/src/orders/services/orders-command.service.ts:211-258 | in every reachable state every order goes back to one transaction of one create call, which was acceptable then, and has its user, its key and its items at the prices that their products had then |
| Theorems.OverrunsBounded | apps/shop/src/orders/services/order-processing.service.ts:78-80 | each order is overrun at most once by its payment write and at most once by its worker |
| Theorems.AbandonedIsNeverPaid | apps/shop/src/orders/services/order-processing.service.ts:131-138 | an order whose message has been processed and that nobody is paying is never PAID later |
| Theorems.FailedPaymentIsFinal | apps/shop/src/orders/services/order-processing.service.ts:100-110 | when a payment fails after the worker's commit, no continuation makes the order PAID |
| Runs.FailedPaymentRun | apps/shop/src/orders/services/order-processing.service.ts:100-110 | a run that reaches such a failure, and every continuation of it |
| Runs.CancelledTwice | apps/shop/src/orders/services/orders-command.service.ts:173-198 | a run in which two overlapping cancellations of one order give its pieces back twice |
| Theorems.UninterruptedCancel | apps/shop/src/orders/services/orders-command.service.ts:167-209 | an uninterrupted cancellation gives the lines back once and changes only the status |
| Theorems.CancellationOvertakesPayment | apps/shop/src/orders/services/order-processing.service.ts:78-80 | from every state before a payment write, the owner's cancellation can come first: the stock is back and the order is PAID |
| Runs.PaidAfterCancellation | apps/shop/src/orders/services/order-processing.service.ts:78-80 | a run from an empty order book to a PAID order whose pieces are all back in stock |
| Runs.ProcessedAfterCancellation | apps/shop/src/orders/services/order-processing.service.ts:159-188 | a run in which the worker's save turns a cancelled order PROCESSED and goes on to its payment |
| RowLocks.Serializable | apps/shop/src/orders/services/order-stock.service.ts:34-66 | for any interleaving of row locks the rows and the accept or refuse results are those of the finished transactions one after another, each exactly once |
| RowLocks.LockedCopyIsCommitted | apps/shop/src/products/product.repository.ts:96-103 | while a row is locked nobody else holds it and the copy is the committed row, adjusted once it has been adjusted |
| RowLocks.StepKeepsInv | apps/shop/src/products/product.repository.ts:96-103 | every lock, adjustment, save, commit, rollback, abort and edit keeps that |
| RowLocks.CommitIsEffect | apps/shop/src/products/product.repository.ts:196-199 | committing the saved copies is the serial effect of the whole transaction |
| RowLocks.SerialNeverOverdraws | apps/shop/src/orders/services/order-stock.service.ts:52-66 | a serial run with distinct products per order never overdraws |
| RowLocks.NeverOversold | apps/shop/src/orders/services/order-stock.service.ts:52-66 | so when every order asks for distinct products and no edit is negative, no interleaving of row locks oversells |
| RowLocks.EveryEntry | apps/shop/src/orders/services/order-stock.service.ts:34-66 | for every interleaving, entry by entry of that serial order: an accepted order lowers, a cancellation raises each row by its total quantity, a refused order changes nothing and was refused for a line that was not in stock |
| RowLocks.EditIff | apps/shop/src/products/product.repository.ts:96-103 | an administrator's write takes effect exactly on a live row that no transaction holds |
| RowLocks.LoneTransaction | apps/shop/src/orders/services/order-stock.service.ts:34-66 | progress: with nobody else at work, an order in stock or a cancellation locks, adjusts, saves and commits in any order of its rows |
| RowLocks.LoneRefusal | apps/shop/src/orders/services/order-stock.service.ts:52-66 | ... and an order with a line that is not in stock is refused without any change |
| RetryQueue.OrderWorker.HandleMessage | apps/shop/src/orders-worker/orders-worker.service.ts:67-136 | one delivery, on every path: unparseable, null, missing ids, unusable attempt, success, retry, dead letter; a well-formed message whose processing succeeds leaves the queue and is done, one whose processing fails is not done |
| RetryQueue.SuccessIsAcked | apps/shop/src/orders-worker/orders-worker.service.ts:105-112 | a well-formed message whose processing succeeds leaves the queue, is done, and changes neither the rest of the queue nor the dead-letter queue |
| RetryQueue.FailureIsRetried | apps/shop/src/orders-worker/orders-worker.service.ts:113-135 | one whose processing fails goes behind all others with its attempt plus one when the attempt is below 3, and to the dead-letter queue otherwise |
| RetryQueue.UnusableIsNotProcessed | apps/shop/src/orders-worker/orders-worker.service.ts:71-91 | every other body is never processed, whatever the outcome would have been: attempt 0 in the dead-letter queue, or held unacked for null |
| RetryQueue.SuccessOrDeadLetter | apps/shop/src/orders-worker/orders-worker.service.ts:67-136 | in every queue and under any outcomes: a well-formed message that has left the queue is done exactly when one of its handlings succeeded, and in the dead-letter queue exactly when all of them failed |
| RetryQueue.OrderWorker.RetryMessage | apps/shop/src/orders-worker/orders-worker.service.ts:169-183 | appends the payload with the incremented attempt |
| RetryQueue.OrderWorker.PublishToDlq | apps/shop/src/orders-worker/orders-worker.service.ts:144-151 | appends the payload to the dead-letter queue |
| RetryQueue.HandlingLowersWork | apps/shop/src/orders-worker/orders-worker.service.ts:93-183 | every handled delivery strictly lowers the sum of remaining handlings |
| RetryQueue.Drains | apps/shop/src/orders-worker/orders-worker.service.ts:93-183 | the queue empties, whatever succeeds and whatever fails |
| RetryQueue.HandledWithinWork | apps/shop/src/orders-worker/orders-worker.service.ts:93-183 | in every queue no original message is handled more often than its attempt number allows |
| RetryQueue.Remaining | apps/shop/src/orders-worker/orders-worker.service.ts:120-128 | the number of handlings of an always failing message is finite and at least one |
| RetryQueue.FirstAttemptRemaining | apps/shop/src/rabbitmq/constants/index.ts:13 | from attempt 1 it is exactly three |
| RetryQueue.FreshHandledAtMostThrice | apps/shop/src/orders-worker/orders-worker.service.ts:120-135 | in every queue a published message is handled at most three times, under any outcomes and whatever else is queued |
| RetryQueue.SettlesIff | apps/shop/src/orders-worker/orders-worker.service.ts:93-127 | in every queue an always failing message leaves exactly when it is malformed or its attempt is above -2^53 - 4 |
| RetryQueue.StuckMessage | apps/shop/src/orders-worker/orders-worker.service.ts:172-175 | a message with the representable attempt -2^53 - 4 is never out of the queue |
| RetryQueue.StaysStuck | apps/shop/src/orders-worker/orders-worker.service.ts:172-175 | below that bound incrementing in binary64 never gets above it |
| RetryQueue.DistanceShrinks | apps/shop/src/orders-worker/orders-worker.service.ts:172-175 | above it every increment comes nearer to the limit |
| RetryQueue.RunConserves | apps/shop/src/orders-worker/orders-worker.service.ts:67-136 | handling moves messages and neither drops nor copies them |
| RetryQueue.ExactlyOneFate | apps/shop/src/orders-worker/orders-worker.service.ts:67-136 | after draining every original is in exactly one of success, dead-letter queue or, for null bodies, held unacked |
| RetryQueue.RunKeepsFates | apps/shop/src/orders-worker/orders-worker.service.ts:71-135 | only well-formed messages succeed, dead letters are malformed with attempt 0 or well-formed with used-up attempts |
| Binary64.FlIsNearest | apps/shop/src/orders/utils/index.ts:32-36 | correct rounding: no representable number is nearer to the exact result |
| Binary64.FlExact | apps/shop/src/orders/utils/index.ts:32-36 | a representable result is not rounded |
| Binary64.FlRelative | apps/shop/src/orders/utils/index.ts:32-36 | in the normal range one rounding errs by at most 2^-53 of the exact result |
| Binary64.TiesToEven | apps/shop/src/orders/utils/index.ts:32-36 | half-way results go to the even neighbour, at 2^53 + 1 and 2^53 + 3 |
| Money.LineCentsExact | apps/shop/src/orders/utils/index.ts:34 | for every numeric(12,2) price and every quantity from 1 to 1000 the rounded line total is exactly price times quantity |
| Money.TotalSumExact | apps/shop/src/orders/utils/index.ts:32-36 | the order total is exact up to 2^53 and does not fall below 2^53 beyond that |
| Money.SentCentsExact | apps/shop/src/orders/services/order-processing.service.ts:68-75 | so is the amount sent to authorization |
| Money.StoredAmountExact | apps/payments/src/payments.service.ts:50 | the stored decimal text is exactly the requested cents below 2^52 |
| Money.RefusedIff | apps/payments/src/payment.entity.ts:23-24 | the column refuses the stored text exactly when the requested amount is too large for it |
| Money.ItemTotalExact | apps/shop/src/cart/utils/index.ts:14-17 | the cart's line total is the exact decimal text of price times quantity |
| Money.CartSumNear | apps/shop/src/cart/utils/index.ts:18 | after n lines the running sum errs by at most (n + 1)(1 + n / 2^53) units of 2^-53 |
| Money.CartTotalExact | apps/shop/src/cart/utils/index.ts:13-20 | the cart total of n lines is the exact decimal text while 2 (n + 1)(1 + n / 2^53) times the total in cents is below 2^53 |
| Money.WithinSmall | apps/shop/src/cart/utils/index.ts:13-20 | for n(n + 1) up to 2^53 it is enough that 2 (n + 2) times the total in cents is below 2^53 |
| Money.AmountsAgree | apps/shop/src/cart/utils/index.ts:13-20 | for the same lines the cart total, the amount sent and the stored text denote the same, exact amount |
| Checkout.ChargedAsShown | apps/shop/src/orders/services/order-processing.service.ts:60-75 | for every interleaving: an order that commits at the prices that were shown is authorized over the shown total and every payments row of it holds the text that the cart showed, in every later state; both are the sum of price times quantity over the items, read from the price table |
| Checkout.CheckoutChargedAsShown | apps/shop/src/cart/cart.service.ts:88-115 | a checkout with a fresh key and unchanged prices: the same for the order it returns, under every continuation, with the sum of price times quantity over the rows of the cart |
| Checkout.PlacedIsPaid | apps/shop/src/orders/services/order-processing.service.ts:60-80 | from every reachable state: a request in stock under an unused key, at a total that the payments table can hold, becomes an order of its user that is delivered, processed and PAID over exactly that total |
| Runs.PaidCheckout | apps/shop/src/cart/cart.service.ts:88-115 | a run in which a cart is checked out, delivered and authorized, and the payments table holds the cart's total |
| Amounts.PrintParse | apps/shop/src/orders/order-item.entity.ts:20-21 | printing cents with two decimals and reading them back is the identity for every amount |
| Amounts.ParsePrint | apps/shop/src/orders/order-item.entity.ts:20-21 | reading and printing is the identity for every text without superfluous zeros |
| Amounts.TextsOfCents | apps/shop/src/orders/order-item.entity.ts:20-21 | the texts of 7 and of 1250 cents |
| Amounts.MathRoundIsNearest | apps/shop/src/orders/utils/index.ts:32-36 | rounding to cents takes a nearest integer, and of two the larger |
| Codecs.DecodeCursorIff | apps/shop/src/common/utils/cursor.ts:15-30 | decoding accepts exactly the encodings of a UUID with a non-empty sort value and undoes them, separators included; an encoding is the id, a bar and the sort value |
| Codecs.UuidGroups | apps/shop/src/common/utils/cursor.ts:25 | a text of five hexadecimal groups is a UUID exactly when its version digit is 1 to 8 and its variant digit 8 to b, or when it is all zeros or all f |
| Codecs.UuidHasGroups | apps/shop/src/common/utils/cursor.ts:25 | every UUID consists of groups of 8, 4, 4, 4 and 12 hexadecimal digits |
| Codecs.ParseTokenIff | apps/shop/src/auth/utils/index.ts:31-42 | parsing accepts exactly a UUID, a colon and a secret of at least 64 characters |
| Keyset.PagesShrink | apps/shop/src/orders/repositories/orders-query-builder.ts:15-30 | on any data every page with a next cursor leaves strictly fewer rows after that cursor |
| Keyset.ExactlyOnceIff | apps/shop/src/orders/services/orders-query.service.ts:50-78 | for every maximum, following the cursors yields every row exactly once and in order, for all page sizes up to it, exactly when each row passes the cursors of all rows before it |
| Keyset.MissedRow | apps/shop/src/orders/services/orders-query.service.ts:69-76 | with one row per page, of a row and a later one that fails its cursor one is never delivered |
| Keyset.ValueListings | apps/shop/src/products/product.repository.ts:160-191 | listings by price or title deliver every row exactly once, in both directions, on any data |
| Keyset.TimeListingsIff | apps/shop/src/products/reviews.service.ts:127-147 | products and reviews by creation time do so, for the page sizes up to 50 that they accept, exactly when ids follow the listing within each millisecond, and sharing the timestamp is enough |
| Keyset.UsersListingIff | apps/shop/src/users/users.service.ts:102-119 | the users listing does so, for the page sizes up to 100 that it accepts, exactly when no row shares its millisecond with an earlier one, boundary rows aside |
| Keyset.UsersListingSkips | apps/shop/src/users/users.service.ts:102-119 | two users created 400 microseconds apart: the second is never listed |
| Keyset.OrdersListingSkips | apps/shop/src/orders/repositories/orders-query-builder.ts:15-30 | two orders in one millisecond with ids against the timestamps: the second is never listed |
| OrdersListing.ApplyCursorPagination | apps/shop/src/orders/repositories/orders-query-builder.ts:15-26 | adds exactly the cursor condition |
| OrdersListing.ApplyOrderingAndLimit | apps/shop/src/orders/repositories/orders-query-builder.ts:28-30 | sets ordering and limit and leaves the conditions |
| OrdersListing.BuildMainQuery | apps/shop/src/orders/repositories/orders-query-builder.ts:36-50 | selects the given ids in listing order, without a limit |
| OrdersListing.BuildOrderIdsSubquery | apps/shop/src/orders/repositories/orders-query-builder.ts:56-94 | its conditions hold exactly of the caller's orders whose status is the given one, whose creation lies between the given dates and that have a title matching the given name as an unescaped pattern |
| OrdersListing.FindOrdersWithFilters | apps/shop/src/orders/services/orders-query.service.ts:46-79 | answers only orders of the caller that are asked for, newest first; when it leaves some out the page is full, all of them are older, and exactly then there is a cursor, that of the last row |
| OrdersListing.FindOrdersAnswers | apps/shop/src/orders/services/orders-query.service.ts:46-79 | the same for the specification that the listing theorems use |
| OrdersListing.ListingIff | apps/shop/src/orders/repositories/orders-query-builder.ts:56-94 | an order is in the listing exactly when it is in the table, belongs to the caller and meets each filter that is given, on its columns; the listing is newest first |
| OrdersListing.ListedSorts | apps/shop/src/orders/repositories/orders-query-builder.ts:29 | ordering is a permutation, newest first, ids breaking ties |
| OrdersListing.SelectListed | apps/shop/src/orders/repositories/orders-query-builder.ts:56-76 | filtering and ordering commute |
| OrdersListing.SelectIds | apps/shop/src/orders/services/orders-query.service.ts:72-74 | loading the ids of a page loads exactly that page in the same order |
| OrdersListing.RequestsEnd | apps/shop/src/orders/services/orders-query.service.ts:69-76 | every request with a next cursor leaves fewer orders for the following ones |
| OrdersListing.OrdersExactlyOnceIff | apps/shop/src/orders/utils/index.ts:79-87 | a client that follows the cursors receives all matching orders exactly once, newest first, for all accepted page sizes, 1 to 50, exactly when ids follow within each millisecond |
| Like.SearchIsLiteral | apps/shop/src/products/product.repository.ts:130-158 | the escaped search matches exactly the texts that contain the search string up to case, for every string and text; with a backslash it is the users search |
| Like.PatternMeans | apps/shop/src/products/product.repository.ts:152-153 | what a pattern means: a percent sign stands for any text, an underscore for any character, an escaped character for itself, any other for itself up to case |
| Like.EscapedIsPrefix | apps/shop/src/users/users.service.ts:91-97 | an escaped string followed by a percent sign matches exactly the texts that begin with it |
| Like.UnescapedIsNotLiteral | apps/shop/src/products/product.repository.ts:152-153 | without escaping a wildcard finds a text that does not contain it |
| Loaders.GroupByKey | apps/shop/src/graphql/loaders/order-item.ts:15-19 | the grouping loop holds for each key its rows in row order |
| Loaders.LoadGroups | apps/shop/src/graphql/loaders/order-item.ts:12-42 | one answer per key, in key order, repeats allowed, each equal to the simple query for that key |
| Loaders.WhereKeyRows | apps/shop/src/graphql/loaders/order-item.ts:12-23 | the answer for a key has exactly the rows of the table with that key, as often as the table has them |
| Loaders.WhereKeyOrder | apps/shop/src/graphql/loaders/order-item.ts:12-23 | ... in table order |
| Loaders.LoadByIdFinds | apps/shop/src/graphql/loaders/order.ts:14-24 | per id, in order: the order with that id, or null exactly when there is none |
| Tokens.AtMostOneSuccessor | apps/shop/src/auth/token.service.ts:190-214 | for any interleaving two rotations of one token never both succeed, and a successor belongs to the same user |
| Tokens.ConsumedOnce | apps/shop/src/auth/token.service.ts:55-100 | a one-time token is marked used exactly when a call consumed it, and at most one call did |
| Tokens.VerifiedInTime | apps/shop/src/auth/token.service.ts:83-100 | in every run a verification token that is used was used before it expired |
| Tokens.MarkInTimeIff | apps/shop/src/auth/token.service.ts:55-100 | a mark keeps every used token used in time exactly when it marks a verification token or an unexpired one |
| Tokens.UsedInTimeIff | apps/shop/src/auth/token.service.ts:55-100 | for every interleaving: every token is used before it expires exactly when no reset token expires between its check and its update |
| Tokens.ResetUsedLate | apps/shop/src/auth/token.service.ts:55-71 | a password reset token that was checked in time can be marked used at any later moment |
| Tokens.SpentNeverValidates | apps/shop/src/auth/token.service.ts:232-294 | a revoked, used or expired token never validates again, whatever happens in between |
| Tokens.WholeRotation | apps/shop/src/auth/token.service.ts:190-214 | an uninterrupted rotation revokes the old token and inserts one for the same user, or changes nothing |
| Tokens.RevokeAllRows | apps/shop/src/auth/token.service.ts:168-176 | revoking all tokens of a user: rows of others and rows revoked already are unchanged, every live row of the user is revoked now |
| Tokens.SignInRows | apps/shop/src/auth/token.service.ts:140-143 | an uninterrupted sign-in, row by row: exactly the live tokens of its user are revoked now, every other row stays, and one live token of the user is added, valid for seven days |
| Tokens.RevokedOnlyByOwn | apps/shop/src/auth/token.service.ts:168-214 | for every interleaving: a live token is revoked exactly when an event of its own user, of its own id or of its own rotation came by; until then its row is unchanged |
| Tokens.ChecksAskForSecret | apps/shop/src/auth/token.service.ts:232-294 | a rotation goes on, and a one-time token is accepted, exactly for the stored secret of a row of the right kind that is neither spent nor expired |
| Tokens.CallsKeepSingleSession | apps/shop/src/auth/token.service.ts:140-214 | when calls do not overlap a user has at most one refresh token that is not revoked |
| Tokens.InsertSingleIff | apps/shop/src/auth/token.service.ts:297-311 | the insert of a sign-in or of a rotation keeps a single session exactly when it finds no live token of its user |
| Tokens.SingleSessionIff | apps/shop/src/auth/token.service.ts:140-214 | for every interleaving: a user has at most one live refresh token throughout the run exactly when every insert finds none |
| Tokens.SignedOutIff | apps/shop/src/auth/token.service.ts:168-176 | after all tokens of a user are revoked, the user stays signed out exactly as long as no sign-in and no earlier claimed rotation inserts a token |
| Tokens.RotationOutlivesPasswordChange | apps/shop/src/auth/token.service.ts:190-214 | a password change between the claim and the insert of a rotation leaves a live token |
| Tokens.OverlappingSignIns | apps/shop/src/auth/token.service.ts:140-143 | overlapping sign-ins leave two |
| Tokens.TokenService.ValidateRefreshToken | apps/shop/src/auth/token.service.ts:254-272 | finds exactly an existing, live token with the right secret |
| Tokens.TokenService.RotateRefreshToken | apps/shop/src/auth/token.service.ts:190-214 | is its three steps, and succeeds exactly for a valid token |
| Tokens.TokenService.IssueRefreshToken | apps/shop/src/auth/token.service.ts:140-143 | is its two steps and returns a live token of the user |
| Tokens.TokenService.RevokeAllUserTokens | apps/shop/src/auth/token.service.ts:168-176 | row by row: exactly the live tokens of the user are revoked now, every other row stays |
| Tokens.TokenService.RevokeRefreshToken | apps/shop/src/auth/token.service.ts:179-181 | revokes the token with that id, unconditionally |
| Tokens.TokenService.IssueOneTimeToken | apps/shop/src/auth/token.service.ts:117-165 | inserts one unused token with the lifetime of its kind |
| Tokens.TokenService.ConsumeOneTimeToken | apps/shop/src/auth/token.service.ts:55-100 | is check and conditional update, and returns the owner exactly for a usable token of the right kind |
| Images.MainImages | apps/shop/src/products/products.service.ts:186-244 | in every run a product's main image is a READY file attached to it, and no file is main image of two products |
| Images.ReadyStays | apps/shop/src/files/files.service.ts:57-59 | READY never reverts |
| Images.StepKeepsMains | apps/shop/src/products/products.service.ts:44-70 | every call keeps that, and a file changes products only by being detached first |
| Images.ProductCalls | apps/shop/src/products/products.service.ts:180-184 | products are inserted without a main image and only marked as deleted; files and main images stay |
| Images.OverlappingRemoval | apps/shop/src/products/products.service.ts:186-222 | a removal between the check and the write of setMainImage breaks it |
| Images.LateWriteIff | apps/shop/src/products/products.service.ts:237-244 | the write of setMainImage keeps it exactly when the file is still READY and attached; the other writes are those of `ImageWrites.WriteIff` |
| ImageWrites.WriteIff | apps/shop/src/products/products.service.ts:186-244 | every single write of every call, with whatever it read earlier, keeps all main images READY and attached, or about to be cleared, exactly when it meets its condition in the state it finds |
| ImageWrites.SaveEntityIff | apps/shop/src/products/products.service.ts:66-67 | a late save of a READY file keeps the main images exactly when it attaches the file to every product whose main image it is |
| ImageWrites.BackedThroughoutIff | apps/shop/src/products/products.service.ts:44-244 | from any state, for every interleaving of writes: the main images are kept at every moment exactly when every write meets its condition |
| ImageWrites.MainImagesIff | apps/shop/src/products/products.service.ts:44-244 | the same from an empty catalogue; and then no file is the main image of two products whenever no removal is between its two writes |
| ImageWrites.CallIsWrites | apps/shop/src/products/products.service.ts:186-205 | a call that nothing overlaps is its writes, one after the other, and all of them meet their conditions |
| ImageWrites.FreshKeepsMains | apps/shop/src/files/files.service.ts:57-59 | for every interleaving: the main images are kept when every call saves only rows that are unchanged since it read them |
| ImageWrites.OverlappingAdds | apps/shop/src/products/products.service.ts:47-67 | two addImage calls that both pass their checks: the late save takes the file away from its product, and it can become the main image of both |
| ImageWrites.InRemoval | apps/shop/src/products/products.service.ts:197-202 | between the two writes of removeImage the main image is detached, and the second write mends that |
| ImageWrites.StaleProductSave | apps/shop/src/products/products.service.ts:225-230 | a product update that read the product before the removal of its main image brings it back |
| Images.Catalogue.CompleteUpload | apps/shop/src/files/files.service.ts:39-64 | marks a stored file of its owner READY and changes nothing otherwise |
| Images.Catalogue.PrepareFileForEntity | apps/shop/src/files/files.service.ts:181-208 | the same, and succeeds exactly for a stored file of its owner |
| Images.Catalogue.CreatePresignedUpload | apps/shop/src/files/files.service.ts:69-105 | appends one PENDING record |
| Images.Catalogue.AddImage | apps/shop/src/products/products.service.ts:44-70 | attaches a READY file that is attached nowhere, and also succeeds when it is attached already |
| Images.Catalogue.RemoveImage | apps/shop/src/products/products.service.ts:186-205 | detaches the file and clears the main image exactly when it was that file |
| Images.Catalogue.SetMainImage | apps/shop/src/products/products.service.ts:207-222 | succeeds exactly for a READY file attached to the live product |
| Cart.CheckoutIsOrderly | apps/shop/src/cart/cart.service.ts:88-115 | after any interleaving of cart writes a checkout asks for exactly the rows of the cart, every product at most once |
| Cart.ReplayKeeps | apps/shop/src/cart/cart-item.entity.ts:17 | upserts, saves and removals, however stale, keep one row per cart and product |
| Cart.UpsertSetsQuantity | apps/shop/src/cart/cart.service.ts:68-71 | after an upsert the cart holds exactly the given quantity of the product, and every other slot as before |
| Cart.SavedRow | apps/shop/src/cart/cart.service.ts:155-172 | a saved row is in the cart with its quantity, also after a removal unless its product has another row meanwhile; the other rows stay |
| Cart.ClearedRowsIff | apps/shop/src/cart/cart.service.ts:93-128 | for every interleaving of cart writes with a checkout: exactly the rows that the clear reads are removed, and all were ordered exactly when each still has the product and quantity of a row that the checkout read |
| Cart.AddedDuringCheckout | apps/shop/src/cart/cart.service.ts:110-112 | a product added while the order is created is removed without being ordered |
| Cart.OverlappingAddItems | apps/shop/src/cart/cart.service.ts:59-71 | of two overlapping additions to one row the one that is written first is lost |
| ShopService.ReusedKey | apps/shop/src/orders/services/orders-command.service.ts:153-165 | a call whose key an order already has returns that order, whatever it asks for, and changes no table |
| Cart.CartService.AddItem | apps/shop/src/cart/cart.service.ts:42-80 | adds to the existing quantity, exactly when the product is live, active, in stock and the sum fits |
| Cart.CartService.UpdateItem | apps/shop/src/cart/cart.service.ts:155-172 | changes only the quantity of an owned row, exactly when its product is not deleted and the stock allows it |
| Cart.CartService.RemoveItem | apps/shop/src/cart/cart.service.ts:142-148 | removes exactly an owned row |
| Cart.CartService.ClearCart | apps/shop/src/cart/cart.service.ts:120-128 | removes exactly the user's rows |
| Cart.CartService.Checkout | apps/shop/src/cart/cart.service.ts:88-115 | an empty cart is refused, otherwise the call is the order creation for its items, a key that was used before returns its earlier order, and the cart is emptied exactly when an order came back |

## Left out

- Infrastructure code, health checks, metrics, mail, audit log, Swagger, guards, controllers, DTO decorators, migrations and seeds.
- TypeORM, amqplib, S3 and gRPC internals: atomic commit and rollback, unique indexes, row locks held until commit and manual ack with redelivery are assumed.
- The opossum circuit breaker: authorization is a call that may fail at any moment.
- Deadlock freedom: a comment at apps/shop/src/products/product.repository.ts:57 says locks are taken in id order, but the query has no ordering clause.
- The order's shipping address and the user lookup at the start of `createOrder`, and the empty string as idempotency key, which the code treats as absent.
- The integer width of stock columns: PostgreSQL refuses a write outside 32 bits, the model does not.
- Simulation switches: forced message ids, simulated failures and delays.
- The epoch part of `decodeEpochCursor`: JavaScript's `Number` accepts more spellings than decimal digits; `OrdersListing` starts from the decoded cursor.
- Reviews and users whose cursor row has been deleted: the listing theorems are about fixed data.
- The cart response after a write: building it fails when the cart holds a soft-deleted product, with the write already done.
- Amounts beyond the 64-bit integer of the gRPC message; no payments row can hold them.
- HMAC, bcrypt and JWT cryptography: distinct secrets have distinct hashes. The order of titles and the case folding of ILIKE are fixed.
- Overflow of binary64 to infinity: amounts stay far below 2^1024.
- Images.MainImages: takes each service call as one step; `ImageWrites.MainImagesIff` is the statement for overlapping calls.
- Cart.CartService.Checkout: takes reading, ordering and clearing as one step; `Cart.ClearedRowsIff` has the cart writes of other calls in between.
- Cart.CartService.AddItem: takes read and upsert as one step; `Cart.OverlappingAddItems` shows what is lost otherwise.
- Cart.CartService.UpdateItem: takes read and save as one step; stale saves are covered by `Cart.ReplayKeeps`.
- RowLocks.Serializable: products are neither created nor undeleted during the run, since an id that is not yet in the table cannot be asked for.
- Money.CartTotalExact: one direction only; beyond the bound the text may or may not be exact.
- Like.SearchIsLiteral: case folding works character by character.
