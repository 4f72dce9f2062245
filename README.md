# StoreKit wrapper: transaction arbitration, modelled in Dafny

This project models the core of an in-app-purchase wrapper over Apple's StoreKit:
the state machine that decides what happens to every payment transaction the
payment queue delivers, and the service layer that reconciles a transaction with
the App Store receipt before finishing it.

- `StoreKit` (storekit.dfy) holds the platform types the core reads: transactions
  with their state, optional date and optional error, products, `NSError`, and the
  `SKError` codes with their raw values.
- `SKErrors` (sk_errors.dfy) is the error builder. It has a message table for four
  codes, `infoDescription`, `userInfo` and `error(code:description:)`.
- `TransactionDate` (transaction_date.dfy) is `date()`. It gives the transaction
  date, or the epoch when there is none.
- `IAPObserver` (iap_observer.dfy) is the payment-queue observer. It covers:
  - the date sort;
  - the classification of a transaction and its error into a delegate call;
  - `paymentQueue(_:updatedTransactions:)`. On a coalesced batch it sorts, finishes
    all but the newest and dispatches the newest. Otherwise it dispatches each
    transaction by its state. `UpdatedTransactions` is the loop itself, proved
    against the functions `Finished` and `Dispatched`.
- `StoreKitWrapper` (storekit_wrapper.dfy) is the arbiter. It has one
  ongoing-transaction slot, four single-shot waiters (products, restore, purchase,
  receipt refresh) and a product cache.
  - The datatype `State` gives each operation as a function.
  - The class `StoreKitWrapper` holds the same data in fields. Each of its methods is
    proved to produce exactly the state its function gives.
  - Calls into StoreKit become logs:
    - `acks` holds the identifiers passed to `finishTransaction`, in order;
    - `requests` holds the platform requests started;
    - `fired` holds the completions invoked, with their results, and the
      ongoing-transaction notifications.
- `StoreKitWrapperProperties` (storekit_wrapper_properties.dfy) proves what the
  arbiter promises:
  - date arbitration with strict ordering;
  - resolution of the purchase waiter;
  - the overwrite policy of the waiters;
  - the order of checks in `requestProduct`;
  - a two-transaction coalesced batch;
  - that no transaction is finished twice, provided no two queue updates act on
    the same transaction (reports of purchasing or deferred transactions do not
    count). Two lemmas show where that stops holding.
- `PaymentService` (payment_service.dfy) is the service. Its closures are data
  (`Continuation`): the wrapper stores them in its waiter slots and hands them back
  when it calls them.
  - `Reconcile` and the method `FinishOngoingTransaction` model
    `finishOngoingTransaction`. It reads the receipt, refreshes at most once, and
    finishes the slot on every path that ends.
  - `Route` is the routing of `buy`, `restoreTransaction`, `refreshReceipt` and the
    ongoing-transaction handler.
  - `Step` is one call of the service or one reply of the platform, followed by
    running the completions that call invoked, in order.
  - `RunFromStartAcksOnce` carries the no-double-finish property through whole runs
    of such steps: from a fresh service, no transaction is finished twice, provided
    no two queue updates act on the same transaction. Reports of purchasing or
    deferred transactions are not acted on and do not count.

Two consequences of the code are proved as scenarios rather than assumed away:

- `UnknownProductReconciles`: buying an identifier that is not cached fails inside
  the wrapper with "product not available". That failure is not a cancellation, so
  `buy` reconciles. With a receipt on disk, the buyer is told of success carrying the
  receipt, and whatever transaction occupied the slot is finished.
- `FinishedRequestReconciles`: the platform reports the end of products requests
  too. With no refresh waiting, that raises the ongoing-transaction handler, which
  finishes the slot's occupant.

Behaviours of the code worth knowing, which the model reproduces:

- A failed transaction calls the purchase waiter without clearing it.
- A restored transaction with no restore waiter is neither finished nor adopted.
- A transaction whose error is not a StoreKit error makes no delegate call and is not
  finished.
- A cancelled purchase passes through the slot: `handleTransaction` puts it there,
  and the `finishPurchase` issued by `buy` removes it.
- No transaction is finished twice, provided no two queue updates act on the same
  transaction (reports of purchasing or deferred transactions do not count). Also, the purchase-waiter path replaces the slot without
  finishing the old occupant.

## Model

| member | source | states |
|---|---|---|
| `StoreKit.RawValue` | Sources/StoreKitWrapper/Extensions/StoreKit/Error.swift:36 | every error code has a raw value between 0 and 20 |
| `StoreKit.RawValueInjective` | Sources/StoreKitWrapper/Extensions/StoreKit/Error.swift:36 | distinct codes have distinct raw values, so an error's numeric code identifies its code |
| `SKErrors.MessageTableKeys` | Sources/StoreKitWrapper/Extensions/StoreKit/Error.swift:3-8 | the message table has an entry exactly for unknown, paymentCancelled, paymentNotAllowed and storeProductNotAvailable |
| `SKErrors.MessagesDistinct` | Sources/StoreKitWrapper/Extensions/StoreKit/Error.swift:3-8 | the four table messages are pairwise different |
| `SKErrors.InfoDescription` | Sources/StoreKitWrapper/Extensions/StoreKit/Error.swift:10-18 | present exactly for a code in the table, whatever the description; without a description it is the table message; with one it is exactly the message, then `. Description: `, then the description |
| `SKErrors.InfoDescriptionRoundTrip` | Sources/StoreKitWrapper/Extensions/StoreKit/Error.swift:12-15 | for a code in the table, the description can be read back from the text: a text that starts with `<message>. Description: ` yields what follows, and the bare message, which lacks that prefix, yields "no description" |
| `SKErrors.UserInfo` | Sources/StoreKitWrapper/Extensions/StoreKit/Error.swift:20-25 | a one-entry map under the localized-description key exactly when the info description exists, holding that description |
| `SKErrors.MakeError` | Sources/StoreKitWrapper/Extensions/StoreKit/Error.swift:34-38 | an error in the StoreKit domain whose code is the code's raw value; its `userInfo` has the localized-description key and no other when the code is in the table, and no key otherwise; that description is the info description |
| `TransactionDate.Date` | Sources/StoreKitWrapper/Extensions/StoreKit/SKPaymentTransaction+Brief.swift:4-6 | the transaction date when present, the epoch 0 when absent |
| `IAPObserver.ForwardRestoreFinished` | Sources/StoreKitWrapper/Classes/IAPObserver/IAPObserver.swift:93-95 | restore-finished is forwarded as restore-finished, about no transaction |
| `IAPObserver.ForwardRestoreFailed` | Sources/StoreKitWrapper/Classes/IAPObserver/IAPObserver.swift:97-102 | restore-failed is forwarded with the same error |
| `IAPObserver.ComparatorAgreesWithDate` | Sources/StoreKitWrapper/Classes/IAPObserver/IAPObserver.swift:20-23 | the sort comparator, with its own epoch default, orders exactly as `date()` does, so batch order and slot order agree |
| `IAPObserver.Insert` | Sources/StoreKitWrapper/Classes/IAPObserver/IAPObserver.swift:19-24 | inserting keeps every element and adds the new one: the result is the old multiset plus the item |
| `IAPObserver.InsertSorted` | Sources/StoreKitWrapper/Classes/IAPObserver/IAPObserver.swift:19-24 | inserting into a date-sorted sequence keeps it date-sorted |
| `IAPObserver.SortedTransactions` | Sources/StoreKitWrapper/Classes/IAPObserver/IAPObserver.swift:18-25 | a permutation of the input (same multiset, same length) in non-decreasing date order, undated transactions counting as epoch 0 |
| `IAPObserver.LatestIsNewest` | Sources/StoreKitWrapper/Classes/IAPObserver/IAPObserver.swift:61-62 | no transaction of the batch is dated later than the last of the sorted batch |
| `IAPObserver.Classify` | Sources/StoreKitWrapper/Classes/IAPObserver/IAPObserver.swift:27-50 | no call exactly for a non-StoreKit error; cancelled exactly for a paymentCancelled StoreKit error; failed, with that error, exactly for any other StoreKit error; with no error, completed-purchase exactly for `purchased` and completed-restore for every other state; each call is about the given transaction |
| `IAPObserver.StateEvent` | Sources/StoreKitWrapper/Classes/IAPObserver/IAPObserver.swift:78-89 | the delegate call the per-transaction switch makes; characterized by `PendingMakeNoEvents`, `PurchasedIgnoresError` and `FailedAndRestoredUseOwnError` |
| `IAPObserver.StateEvents` | Sources/StoreKitWrapper/Classes/IAPObserver/IAPObserver.swift:77-90 | the delegate calls of the ordinary path, in queue order; characterized by `StateEventsFromBatch` and `PendingMakeNoEvents` |
| `IAPObserver.Finished` | Sources/StoreKitWrapper/Classes/IAPObserver/IAPObserver.swift:57-74 | the transactions the observer finishes itself; characterized by `FinishesOnlyBatches` and `BatchPartition` |
| `IAPObserver.Dispatched` | Sources/StoreKitWrapper/Classes/IAPObserver/IAPObserver.swift:56-91 | the delegate calls the observer makes for a batch; characterized by `BatchPartition` and `StateEventsFromBatch` |
| `IAPObserver.UpdatedTransactions` | Sources/StoreKitWrapper/Classes/IAPObserver/IAPObserver.swift:56-91 | returns exactly the transactions the observer finishes, `Finished(ts)`, and the delegate calls it makes, `Dispatched(ts)`, in order |
| `IAPObserver.EachStateEvent` | Sources/StoreKitWrapper/Classes/IAPObserver/IAPObserver.swift:77-90 | the loop of the ordinary path makes exactly the calls `StateEvents` gives, in queue order |
| `IAPObserver.FinishesOnlyBatches` | Sources/StoreKitWrapper/Classes/IAPObserver/IAPObserver.swift:57-60 | the observer finishes anything itself exactly when there is more than one transaction and the first is restored or purchased |
| `IAPObserver.BatchPartition` | Sources/StoreKitWrapper/Classes/IAPObserver/IAPObserver.swift:61-74 | on the batch path the finished transactions plus the newest make up the batch exactly; none finished is newer than the newest; at most one call is made, about the newest |
| `IAPObserver.Settled` | Sources/StoreKitWrapper/Classes/IAPObserver/IAPObserver.swift:77-90 | the transactions of the ordinary path the switch acts on: each is of the update and neither purchasing nor deferred |
| `IAPObserver.Handled` | Sources/StoreKitWrapper/Classes/IAPObserver/IAPObserver.swift:57-90 | the transactions an update acts on: all of a purchase or restore batch, otherwise the settled ones; characterized by `PendingUpdateChangesNothing` and used by `PaymentQueueUpdatedAcksOnce` |
| `IAPObserver.PendingMakeNoEvents` | Sources/StoreKitWrapper/Classes/IAPObserver/IAPObserver.swift:77-90 | on the ordinary path, purchasing and deferred transactions make no delegate call |
| `IAPObserver.PurchasedIgnoresError` | Sources/StoreKitWrapper/Classes/IAPObserver/IAPObserver.swift:81-82 | on the ordinary path a purchased transaction is reported as a completed purchase even when it carries an error |
| `IAPObserver.FailedAndRestoredUseOwnError` | Sources/StoreKitWrapper/Classes/IAPObserver/IAPObserver.swift:83-84 | on the ordinary path failed and restored transactions are classified with their own error |
| `IAPObserver.StateEventsFromBatch` | Sources/StoreKitWrapper/Classes/IAPObserver/IAPObserver.swift:77-90 | on the ordinary path there are at most as many calls as transactions, each about a transaction of the batch that is neither purchasing nor deferred |
| `StoreKitWrapper.FirstProduct` | Sources/StoreKitWrapper/Classes/StoreKitWrapper.swift:33 | absent exactly when no cached product has the identifier; otherwise the first cached product with that identifier: no product before it has the identifier |
| `StoreKitWrapper.PurchaseOutcome` | Sources/StoreKitWrapper/Classes/StoreKitWrapper.swift:219-228 | the purchase waiter is told success exactly when the transaction has no error; a StoreKit error is passed on as it is, and any other error becomes "unknown" |
| `StoreKitWrapper.State.RequestProduct` | Sources/StoreKitWrapper/Classes/StoreKitWrapper.swift:163-191 | the new state after `requestProduct`; its order of checks is proved by `RequestProductOrder` and `SecondCallOverwritesWaiter` |
| `StoreKitWrapper.State.Purchase` | Sources/StoreKitWrapper/Classes/StoreKitWrapper.swift:23-54 | the new state after `purchase`; characterized by `PurchaseNeedsCachedProduct` and `SecondCallOverwritesWaiter` |
| `StoreKitWrapper.State.FinishPurchase` | Sources/StoreKitWrapper/Classes/StoreKitWrapper.swift:56-68 | the new state after `finishPurchase`; characterized by `FinishPurchaseFinishesOccupant` |
| `StoreKitWrapper.State.RefreshReceipt` | Sources/StoreKitWrapper/Classes/StoreKitWrapper.swift:92-103 | the new state after `refreshReceipt`; characterized by `FirstCallStartsRequest` and `SecondCallOverwritesWaiter` |
| `StoreKitWrapper.State.RestorePurchase` | Sources/StoreKitWrapper/Classes/StoreKitWrapper.swift:113-123 | the new state after `restorePurchase`; characterized by `FirstCallStartsRequest` and `SecondCallOverwritesWaiter` |
| `StoreKitWrapper.State.HandleTransaction` | Sources/StoreKitWrapper/Classes/StoreKitWrapper.swift:193-229 | the new state after `handleTransaction`; characterized by `PurchaseWaiterResolves`, `AmbientKeepsNewest`, `AmbientNotice` and `UndatedAtEmptySlotIsFinished` |
| `StoreKitWrapper.State.ProductsReceived` | Sources/StoreKitWrapper/Classes/StoreKitWrapper.swift:235-262 | the new state after a products response; characterized by `ProductsResponseAnswersWaiter` |
| `StoreKitWrapper.State.RequestDidFinish` | Sources/StoreKitWrapper/Classes/StoreKitWrapper.swift:268-282 | the new state after `requestDidFinish`; characterized by `RequestEndings` |
| `StoreKitWrapper.State.RequestFailed` | Sources/StoreKitWrapper/Classes/StoreKitWrapper.swift:284-299 | the new state after a failed request; characterized by `RequestEndings` |
| `StoreKitWrapper.State.RestoreFinished` | Sources/StoreKitWrapper/Classes/StoreKitWrapper.swift:307-329 | the new state after restore-finished; characterized by `RestoreFinishedReports` |
| `StoreKitWrapper.State.RestoreFailed` | Sources/StoreKitWrapper/Classes/StoreKitWrapper.swift:331-343 | the new state after restore-failed; characterized by `RestoreFailedReports` |
| `StoreKitWrapper.State.TransactionFailed` | Sources/StoreKitWrapper/Classes/StoreKitWrapper.swift:352-359 | the new state after `transactionFailed`; characterized by `FailedTransactionLeavesSlot` |
| `StoreKitWrapper.State.TransactionWasCompletedRestore` | Sources/StoreKitWrapper/Classes/StoreKitWrapper.swift:368-378 | the new state after a completed restore; characterized by `CompletedRestoreNeedsWaiter` |
| `StoreKitWrapper.State.Dispatch` | Sources/StoreKitWrapper/Classes/StoreKitWrapper.swift:305-379 | the delegate method each observer event calls; `DispatchAcksOnce` proves no call finishes anything twice |
| `StoreKitWrapper.State.FinishAll` | Sources/StoreKitWrapper/Classes/IAPObserver/IAPObserver.swift:64-68 | the observer's own `finishTransaction` calls, in order; `FinishAllAcksOnce` proves they finish nothing twice |
| `StoreKitWrapper.State.DispatchAll` | Sources/StoreKitWrapper/Classes/IAPObserver/IAPObserver.swift:69-90 | the delegate calls of a batch, in order; `StateEventsAcksOnce` proves they finish nothing twice |
| `StoreKitWrapper.State.PaymentQueueUpdated` | Sources/StoreKitWrapper/Classes/IAPObserver/IAPObserver.swift:56-91 | a batch from the queue, through observer and wrapper; characterized by `BatchOfTwo`, `IncreasingDeliveriesKeepLast` and `PaymentQueueUpdatedAcksOnce` |
| `StoreKitWrapper.StoreKitWrapper.constructor` | Sources/StoreKitWrapper/Classes/StoreKitWrapper.swift:133-152 | a new wrapper has an empty cache, an empty slot, no waiters and nothing logged |
| `StoreKitWrapper.StoreKitWrapper.FetchProducts` | Sources/StoreKitWrapper/Classes/StoreKitWrapper.swift:163-191 | the fields are updated exactly as `requestProduct` prescribes |
| `StoreKitWrapper.StoreKitWrapper.Purchase` | Sources/StoreKitWrapper/Classes/StoreKitWrapper.swift:23-54 | the fields are updated exactly as `purchase` prescribes |
| `StoreKitWrapper.StoreKitWrapper.FinishPurchase` | Sources/StoreKitWrapper/Classes/StoreKitWrapper.swift:56-68 | the fields are updated exactly as `finishPurchase` prescribes |
| `StoreKitWrapper.StoreKitWrapper.HasOngoingPurchase` | Sources/StoreKitWrapper/Classes/StoreKitWrapper.swift:70-72 | true exactly when the slot is occupied |
| `StoreKitWrapper.StoreKitWrapper.RefreshReceipt` | Sources/StoreKitWrapper/Classes/StoreKitWrapper.swift:92-103 | the fields are updated exactly as `refreshReceipt` prescribes |
| `StoreKitWrapper.StoreKitWrapper.RestorePurchase` | Sources/StoreKitWrapper/Classes/StoreKitWrapper.swift:113-123 | the fields are updated exactly as `restorePurchase` prescribes |
| `StoreKitWrapper.StoreKitWrapper.HandleTransaction` | Sources/StoreKitWrapper/Classes/StoreKitWrapper.swift:193-229 | the fields are updated exactly as `handleTransaction` prescribes |
| `StoreKitWrapper.StoreKitWrapper.ProductsReceived` | Sources/StoreKitWrapper/Classes/StoreKitWrapper.swift:235-262 | the fields are updated exactly as `productsRequest(_:didReceive:)` prescribes |
| `StoreKitWrapper.StoreKitWrapper.RequestDidFinish` | Sources/StoreKitWrapper/Classes/StoreKitWrapper.swift:268-282 | the fields are updated exactly as `requestDidFinish` prescribes |
| `StoreKitWrapper.StoreKitWrapper.RequestFailed` | Sources/StoreKitWrapper/Classes/StoreKitWrapper.swift:284-299 | the fields are updated exactly as `request(_:didFailWithError:)` prescribes |
| `StoreKitWrapper.StoreKitWrapper.RestoreFinished` | Sources/StoreKitWrapper/Classes/StoreKitWrapper.swift:307-329 | the fields are updated exactly as the restore-finished delegate method prescribes |
| `StoreKitWrapper.StoreKitWrapper.RestoreFailed` | Sources/StoreKitWrapper/Classes/StoreKitWrapper.swift:331-343 | the fields are updated exactly as the restore-failed delegate method prescribes |
| `StoreKitWrapper.StoreKitWrapper.TransactionWasCancelled` | Sources/StoreKitWrapper/Classes/StoreKitWrapper.swift:345-350 | a cancelled transaction is handled as `handleTransaction` handles it |
| `StoreKitWrapper.StoreKitWrapper.TransactionFailed` | Sources/StoreKitWrapper/Classes/StoreKitWrapper.swift:352-359 | the fields are updated exactly as `transactionFailed` prescribes |
| `StoreKitWrapper.StoreKitWrapper.TransactionWasCompletedPurchase` | Sources/StoreKitWrapper/Classes/StoreKitWrapper.swift:361-366 | a completed purchase is handled as `handleTransaction` handles it |
| `StoreKitWrapper.StoreKitWrapper.TransactionWasCompletedRestore` | Sources/StoreKitWrapper/Classes/StoreKitWrapper.swift:368-378 | the fields are updated exactly as `transactionWasCompletedRestore` prescribes |
| `StoreKitWrapper.StoreKitWrapper.Dispatch` | Sources/StoreKitWrapper/Classes/StoreKitWrapper.swift:306-379 | each observer event reaches the delegate method of its kind |
| `StoreKitWrapper.StoreKitWrapper.PaymentQueueUpdated` | Sources/StoreKitWrapper/Classes/IAPObserver/IAPObserver.swift:56-91 | a batch is finished by the observer and dispatched to the wrapper in the observer's order, leaving exactly the state `PaymentQueueUpdated` gives |
| `StoreKitWrapper.StoreKitWrapper.FinishEach` | Sources/StoreKitWrapper/Classes/IAPObserver/IAPObserver.swift:64-68 | the observer's finishing loop, on the fields: exactly `FinishAll` of the list, in order |
| `StoreKitWrapper.StoreKitWrapper.DispatchEach` | Sources/StoreKitWrapper/Classes/IAPObserver/IAPObserver.swift:69-90 | the delegate calls one at a time, on the fields: exactly `DispatchAll` of the events, in order |
| `StoreKitWrapperProperties.PurchaseWaiterResolves` | Sources/StoreKitWrapper/Classes/StoreKitWrapper.swift:216-228 | with a purchase waiter, the transaction takes the slot, the waiter is cleared and called exactly once (success exactly when there is no error), and nothing is finished or requested |
| `StoreKitWrapperProperties.AmbientKeepsNewest` | Sources/StoreKitWrapper/Classes/StoreKitWrapper.swift:196-212 | without a purchase waiter the occupant date becomes the larger of the two; the slot changes only for a strictly later date, so an equal date keeps the occupant; exactly the loser is finished (nothing when the newcomer wins an empty slot); the replaced occupant is older than the newcomer; the waiters, the product cache and the requests are unchanged |
| `StoreKitWrapperProperties.AmbientNotice` | Sources/StoreKitWrapper/Classes/StoreKitWrapper.swift:200-209 | the ongoing-transaction notification is raised exactly when an ambient delivery replaced the slot and no restore waiter is registered, and nothing else is invoked |
| `StoreKitWrapperProperties.UndatedAtEmptySlotIsFinished` | Sources/StoreKitWrapper/Classes/StoreKitWrapper.swift:198-211 | an undated transaction arriving ambiently at an empty slot is finished and not adopted, because 0 < 0 is false |
| `StoreKitWrapperProperties.IncreasingDeliveriesKeepLast` | Sources/StoreKitWrapper/Classes/StoreKitWrapper.swift:196-212 | ambient deliveries with strictly increasing dates, all later than the occupant, leave the last one in the slot and finish the old occupant and all the others, in order |
| `StoreKitWrapperProperties.FailedTransactionLeavesSlot` | Sources/StoreKitWrapper/Classes/StoreKitWrapper.swift:352-359 | `transactionFailed` finishes the transaction and leaves the slot alone; the purchase waiter, if any, is told the error and stays registered |
| `StoreKitWrapperProperties.CompletedRestoreNeedsWaiter` | Sources/StoreKitWrapper/Classes/StoreKitWrapper.swift:368-378 | with no restore waiter a restored transaction changes nothing and is not finished; with one, the waiter is told of success and kept, and the transaction is finished |
| `StoreKitWrapperProperties.SecondCallOverwritesWaiter` | Sources/StoreKitWrapper/Classes/StoreKitWrapper.swift:28-31 | for purchase, restore, refresh and products alike, a call while that waiter is set only replaces the waiter: no request is started and nothing is invoked, so the earlier caller is never answered (the same guard appears at lines 93-96, 115-118 and 173-176) |
| `StoreKitWrapperProperties.FirstCallStartsRequest` | Sources/StoreKitWrapper/Classes/StoreKitWrapper.swift:92-123 | with no waiter of the kind, restore and refresh register the waiter and start exactly their platform request |
| `StoreKitWrapperProperties.PurchaseNeedsCachedProduct` | Sources/StoreKitWrapper/Classes/StoreKitWrapper.swift:33-50 | an identifier absent from the cache fails at once with storeProductNotAvailable, leaves the waiter unset and enqueues no payment; a cached one registers the waiter and enqueues exactly that payment |
| `StoreKitWrapperProperties.RequestProductOrder` | Sources/StoreKitWrapper/Classes/StoreKitWrapper.swift:168-189 | payments not allowed fails with paymentNotAllowed before any other check; a products request starts exactly when payments are allowed, no products waiter is set and the cache is empty; a non-empty cache is returned as it is |
| `StoreKitWrapperProperties.ProductsResponseAnswersWaiter` | Sources/StoreKitWrapper/Classes/StoreKitWrapper.swift:235-262 | a response is cached; the waiter is cleared and called once, failing with storeProductNotAvailable exactly when the response is empty |
| `StoreKitWrapperProperties.FinishPurchaseFinishesOccupant` | Sources/StoreKitWrapper/Classes/StoreKitWrapper.swift:56-68 | on an empty slot `finishPurchase` changes nothing; otherwise it empties the slot and finishes exactly the former occupant; afterwards no purchase is ongoing |
| `StoreKitWrapperProperties.RestoreFinishedReports` | Sources/StoreKitWrapper/Classes/StoreKitWrapper.swift:311-328 | restore-finished clears the restore waiter and calls it once, with failure exactly when the slot is empty; the slot and the finished log are unchanged |
| `StoreKitWrapperProperties.RestoreFailedReports` | Sources/StoreKitWrapper/Classes/StoreKitWrapper.swift:331-343 | with no restore waiter restore-failed changes nothing; with one, the waiter is cleared and called once with the error, and the slot, the finished log, the requests, the cache and the other waiters are unchanged |
| `StoreKitWrapperProperties.RequestEndings` | Sources/StoreKitWrapper/Classes/StoreKitWrapper.swift:268-299 | a failed request answers and clears the products waiter first, keeping the refresh waiter; otherwise it answers and clears the refresh waiter; with neither it changes nothing. A finished request with no refresh waiter only raises the notification; with one it only clears and answers it with success |
| `StoreKitWrapperProperties.BatchOfTwo` | Sources/StoreKitWrapper/Classes/IAPObserver/IAPObserver.swift:57-74 | two purchased transactions dated 1 and 5, in either order, with no waiters and an empty slot: the older is finished, the newer takes the slot, and the notification fires exactly once |
| `StoreKitWrapperProperties.SortOne` | Sources/StoreKitWrapper/Classes/IAPObserver/IAPObserver.swift:18-25 | worked example for `BatchOfTwo`: sorting a single transaction leaves it as it is |
| `StoreKitWrapperProperties.SortTwo` | Sources/StoreKitWrapper/Classes/IAPObserver/IAPObserver.swift:18-25 | worked example for `BatchOfTwo`: the transactions dated 1 and 5 sort older first, in either arrival order |
| `StoreKitWrapperProperties.ObserveTwo` | Sources/StoreKitWrapper/Classes/IAPObserver/IAPObserver.swift:57-72 | for the two transactions of `BatchOfTwo`, the observer finishes the older and makes one call, completing the newer |
| `StoreKitWrapperProperties.PendingUpdateChangesNothing` | Sources/StoreKitWrapper/Classes/IAPObserver/IAPObserver.swift:77-90 | an update made only of purchasing and deferred transactions leaves the wrapper unchanged and acts on no transaction |
| `StoreKitWrapperProperties.NothingSettled` | Sources/StoreKitWrapper/Classes/IAPObserver/IAPObserver.swift:78-86 | an update made only of purchasing and deferred transactions has no settled transaction |
| `StoreKitWrapperProperties.HandleTransactionAcksOnce` | Sources/StoreKitWrapper/Classes/StoreKitWrapper.swift:193-229 | deciding a new transaction keeps the finishing history duplicate-free, limited to delivered transactions, and never finishes the occupant |
| `StoreKitWrapperProperties.FinishPurchaseAcksOnce` | Sources/StoreKitWrapper/Classes/StoreKitWrapper.swift:56-68 | `finishPurchase` finishes nothing twice |
| `StoreKitWrapperProperties.DispatchAcksOnce` | Sources/StoreKitWrapper/Classes/StoreKitWrapper.swift:306-379 | no delegate call about a new transaction finishes anything twice |
| `StoreKitWrapperProperties.FinishAllAcksOnce` | Sources/StoreKitWrapper/Classes/IAPObserver/IAPObserver.swift:64-68 | the observer finishing a fresh, duplicate-free list finishes nothing twice |
| `StoreKitWrapperProperties.FreshPermutation` | Sources/StoreKitWrapper/Classes/IAPObserver/IAPObserver.swift:61 | sorting a fresh batch keeps it fresh and duplicate-free, with the same identifiers |
| `StoreKitWrapperProperties.StateEventsAcksOnce` | Sources/StoreKitWrapper/Classes/IAPObserver/IAPObserver.swift:77-90 | the ordinary path finishes nothing twice, provided its settled transactions are new and distinct; purchasing and deferred reports impose nothing |
| `StoreKitWrapperProperties.PaymentQueueUpdatedAcksOnce` | Sources/StoreKitWrapper/Classes/IAPObserver/IAPObserver.swift:56-91 | a whole update, through observer and wrapper, finishes nothing twice, finishes only transactions it or earlier updates acted on and never the occupant, provided the transactions it acts on are new and distinct |
| `StoreKitWrapperProperties.RedeliveryFinishesTwice` | Sources/StoreKitWrapper/Classes/StoreKitWrapper.swift:196-212 | redelivering the occupant finishes it as stale while it stays in the slot, so the next `finishPurchase` finishes it a second time |
| `StoreKitWrapperProperties.PurchaseWaiterDropsOccupant` | Sources/StoreKitWrapper/Classes/StoreKitWrapper.swift:216-217 | with a purchase waiter, a delivered transaction replaces a different occupant without finishing it |
| `PaymentService.NoReceiptError` | Sources/StoreKitWrapper/Classes/PaymentService.swift:196-203 | the "Receipt not found" error has the unknown code, the StoreKit domain and the description `Unknown error. Description: Receipt not found` |
| `PaymentService.Reconcile` | Sources/StoreKitWrapper/Classes/PaymentService.swift:170-214 | `finishOngoingTransaction` as a function of the wrapper and the receipt on disk; characterized by `ReceiptPresentFinishes`, `AbsentReceiptRefreshes`, `AbsentReceiptFails` and `ReconcileEndsWithFinish` |
| `PaymentService.FinishOngoingTransaction` | Sources/StoreKitWrapper/Classes/PaymentService.swift:170-214 | the wrapper ends in the state `Reconcile` gives, and the method delivers what `Reconcile` delivers |
| `PaymentService.Continue` | Sources/StoreKitWrapper/Classes/PaymentService.swift:29-163 | running an invoked completion on the wrapper object matches `Perform` |
| `PaymentService.ReceiptPresentFinishes` | Sources/StoreKitWrapper/Classes/PaymentService.swift:174-213 | with a receipt, no refresh is requested, exactly the occupant is finished and the slot emptied, and the sink receives success with that receipt |
| `PaymentService.AbsentReceiptRefreshes` | Sources/StoreKitWrapper/Classes/PaymentService.swift:175-184 | without a receipt and with refresh allowed, nothing is finished or delivered; the refresh waiter becomes the retry with refresh disallowed, and one refresh is requested unless one is pending |
| `PaymentService.AbsentReceiptFails` | Sources/StoreKitWrapper/Classes/PaymentService.swift:192-204 | without a receipt and with refresh disallowed, the slot is finished and the sink fails with the unknown code and "Receipt not found" |
| `PaymentService.ReconcileEndsWithFinish` | Sources/StoreKitWrapper/Classes/PaymentService.swift:174-213 | whenever something is delivered, the slot has been finished (`finishPurchase` applied once); the refresh path has finished and delivered nothing |
| `PaymentService.RetryNeverRefreshes` | Sources/StoreKitWrapper/Classes/PaymentService.swift:178-190 | the retry after a refresh never requests another: it finishes the slot and delivers exactly one result to its caller; a failed refresh delivers the refresh error |
| `PaymentService.Act` | Sources/StoreKitWrapper/Classes/PaymentService.swift:68-91 | what a routed closure does: reconcile through `finishOngoingTransaction`, or, for a cancellation, `finishPurchase` then the failure; characterized by `ReconcileEndsWithFinish`, `BuyRouting` and `CancelSettles` |
| `PaymentService.Perform` | Sources/StoreKitWrapper/Classes/PaymentService.swift:29-163 | running one invoked handler: a products completion tells its caller, a completion runs its routed action, the notification runs `handleOngoingTransaction`; characterized by `PerformOne`, `PerformAcksOnce` and `FinishedRequestReconciles` |
| `PaymentService.PerformAll` | Sources/StoreKitWrapper/Classes/PaymentService.swift:29-214 | the invoked handlers in order; characterized by `PerformAllKeepsFired` and `PerformAllAcksOnce` |
| `PaymentService.PerformOne` | Sources/StoreKitWrapper/Classes/PaymentService.swift:29-214 | settling a step that invoked one handler is running that handler |
| `PaymentService.PerformAllKeepsFired` | Sources/StoreKitWrapper/Classes/PaymentService.swift:29-214 | running handlers invokes no new handler and only appends to what callers received |
| `PaymentService.QuietStep` | Sources/StoreKitWrapper/Classes/PaymentService.swift:29-142 | a step that invokes no handler changes only the wrapper and delivers nothing |
| `PaymentService.Route` | Sources/StoreKitWrapper/Classes/PaymentService.swift:56-163 | what the closures of `buy`, `restoreTransaction`, the public `refreshReceipt` and the refresh retry do with a result; characterized by `BuyRouting`, `RestoreIgnoresResult`, `BackgroundReconciliationsDeliverNothing` and `RetryNeverRefreshes` |
| `PaymentService.BuyRouting` | Sources/StoreKitWrapper/Classes/PaymentService.swift:68-92 | a paymentCancelled failure finishes the slot and delivers the failure without reading the receipt; success reconciles with refresh disallowed and requests nothing; any other failure reconciles with refresh allowed |
| `PaymentService.RestoreIgnoresResult` | Sources/StoreKitWrapper/Classes/PaymentService.swift:108-113 | the restore completion reconciles with refresh allowed, whatever the restore result |
| `PaymentService.BackgroundReconciliationsDeliverNothing` | Sources/StoreKitWrapper/Classes/PaymentService.swift:118-122 | the public `refreshReceipt` reconciles with refresh disallowed, finishing the slot and telling no caller; the ongoing-transaction handler tells no caller either |
| `PaymentService.WrapperStep` | Sources/StoreKitWrapper/Classes/PaymentService.swift:29-142 | what each service call and platform reply does to the wrapper before any handler runs; restore replies reach the wrapper through the observer's forwarding; `WrapperStepAcksOnce` proves it finishes nothing twice |
| `PaymentService.Settle` | Sources/StoreKitWrapper/Classes/PaymentService.swift:29-214 | the invoked handlers are run in order; characterized by `StepSettles` and `PerformAllAcksOnce` |
| `PaymentService.Step` | Sources/StoreKitWrapper/Classes/PaymentService.swift:29-214 | one call or reply, then its handlers; characterized by `StepSettles`, `QuietStep` and `StepAcksOnce` |
| `PaymentService.StepSettles` | Sources/StoreKitWrapper/Classes/PaymentService.swift:29-214 | after every call or platform reply, no invoked completion is left to run, and what callers received before is kept |
| `PaymentService.CancelFinishesSlot` | Sources/StoreKitWrapper/Classes/PaymentService.swift:137-142 | `cancelTransaction` finishes the slot's occupant, if any, and delivers nothing |
| `PaymentService.CancelledPurchase` | Sources/StoreKitWrapper/Classes/PaymentService.swift:56-96 | buy, then a queue report of the transaction failed with paymentCancelled: the payment is enqueued, the transaction is finished, the slot ends empty and the buyer receives the cancellation |
| `PaymentService.RestoreWithoutReceiptRefreshesOnce` | Sources/StoreKitWrapper/Classes/PaymentService.swift:102-115 | restore with no receipt on disk, then the end of the refresh: exactly one refresh is requested, the slot ends finished, and the caller gets exactly one result: the receipt on disk after the refresh, or the missing-receipt error when there is none |
| `PaymentService.UnknownProductReconciles` | Sources/StoreKitWrapper/Classes/PaymentService.swift:80-91 | buying an uncached identifier with a receipt on disk finishes the slot's occupant and tells the buyer success with that receipt |
| `PaymentService.FinishedRequestReconciles` | Sources/StoreKitWrapper/Classes/StoreKitWrapper.swift:268-276 | the end of any request with no refresh waiting reconciles through the ongoing-transaction handler and, with a receipt, finishes the occupant |
| `PaymentService.WrapperStepAcksOnce` | Sources/StoreKitWrapper/Classes/PaymentService.swift:29-142 | whatever a call does to the wrapper keeps the finishing history sound, with the identifiers a queue update acts on added, provided those are new and distinct |
| `PaymentService.PerformAcksOnce` | Sources/StoreKitWrapper/Classes/PaymentService.swift:170-214 | running one invoked handler finishes at most the unfinished occupant, so nothing twice |
| `PaymentService.PerformAllAcksOnce` | Sources/StoreKitWrapper/Classes/PaymentService.swift:170-214 | running invoked handlers, each of which finishes at most the unfinished occupant, finishes nothing twice |
| `PaymentService.StepAcksOnce` | Sources/StoreKitWrapper/Classes/PaymentService.swift:29-214 | one service call or platform reply, with the handlers it invokes, finishes no transaction twice and only ones an update acted on, provided a queue update acts only on new, distinct transactions |
| `PaymentService.RunAcksOnce` | Sources/StoreKitWrapper/Classes/PaymentService.swift:29-214 | any sequence of calls and replies in which no queue update acts on a transaction an earlier one acted on keeps the finishing history sound |
| `PaymentService.RunFromStartAcksOnce` | Sources/StoreKitWrapper/Classes/PaymentService.swift:29-214 | from a fresh service, such a run finishes no transaction twice and finishes only transactions an update acted on |
| `PaymentService.PurchaseFlowIsFresh` | Sources/StoreKitWrapper/Classes/IAPObserver/IAPObserver.swift:77-90 | a transaction reported purchasing in one update and purchased in the next meets the run condition, so the run lemmas cover the ordinary purchase flow |

## Left out

- The receipt read (`getReceipt`, StoreKitWrapper.swift:74-90) uses the file system and base64. The receipt on disk is a parameter `receipt: Option<string>` of each step. Every reconciliation within one step sees the same receipt, because only a refresh, which completes in a later step, can change it.
- `Atomic` (Helpers/Atomic.swift) exists to provide mutual exclusion. Each atomic value is a plain field, and operations run one at a time in call order.
- `onBackground`/`onMain` and `[weak self]` are threading concerns; the service object is taken to be alive. The completions a step invokes run after the wrapper step, in the order they were invoked. In the source, the restore completion runs synchronously inside the delegate call, so within one batch it runs before the next transaction is dispatched. The model runs it after the whole batch.
- StoreKit itself (`SKPaymentQueue`, `SKProductsRequest`, `SKReceiptRefreshRequest`) is foreign code. Its calls are logs: `acks`, `requests` and `fired`. Its replies are the explicit events of `PaymentService.Call`. `SKPaymentQueue.canMakePayments()` is a parameter.
- Transaction identity is a natural-number `id`. Products are identified by their identifier only.
- Dates are whole seconds (`int`). `Date(timeIntervalSince1970:)` and the `Double` arithmetic of Extensions/Date+.swift are not modelled.
- Swift's `sorted` is not guaranteed stable. The model sorts with a stable insertion sort. The proved properties (a date-ordered permutation, the newest last) hold for any such sort. Which of several equally dated newest transactions ends up dispatched depends on the sort.
- `SKError(_nsError:)` bridging is the identity on `NSError`. The precondition that the domain is the StoreKit domain is not modelled.
- Logging, `startObservingPayments`/`stopObservingPayments` and the shared singletons are not modelled. The same goes for the retained `productRequest` field (StoreKitWrapper.swift:137, 189), which only keeps the request alive, and the empty `removedTransactions` callback.
- `refreshProductsAfterStart` is `RefreshProducts` with no caller.
- The `@unknown default` branch of the state switch is not modelled: `TransactionState` has exactly the five known states.
- Package.swift, Extensions/Foundation/Types.swift, StoreKitWraperProtocol.swift and IAPObserverDelegate.swift are not part of this model. They declare types and protocols only, and the delegate methods appear as the constructors of `IAPObserver.ObserverEvent`.
- `PaymentService.StepAcksOnce`, `PaymentService.RunAcksOnce`, `PaymentService.RunFromStartAcksOnce`: the same condition applies to every update of the run (`FreshRun`), and only "never finished twice" is claimed.
- `StoreKitWrapperProperties.PaymentQueueUpdatedAcksOnce`: "finished exactly once" is proved only as "never finished twice". It assumes that no two updates act on the same transaction, and that one update does not act on it twice (`FreshBatch` over `Obs.Handled`). Purchasing and deferred reports are not acted on and impose nothing (`PurchaseFlowIsFresh`). A purchase or restore batch acts on all its transactions. The code itself does not guard against a transaction being acted on again (see `RedeliveryFinishesTwice`). The code also leaks transactions that are never finished (`PurchaseWaiterDropsOccupant`, `CompletedRestoreNeedsWaiter`, non-StoreKit errors), so no "every transaction is eventually finished" property is claimed.
