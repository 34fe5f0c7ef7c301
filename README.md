# In-app purchase coordinator — a Dafny model

This project models `IAPManager`, the coordinator of the InAppPurchaseDemo
app. It sits between callers and StoreKit. It keeps:

- a **catalog-query registry**: one entry per `fetchProducts` call, matched back by request identity;
- a **pending-payment registry**: one entry per `purchase`, matched by product identifier, first registered first;
- a **restore session**: two optional handlers and the `restoreTransactions` accumulator.

It dispatches each batch of queue transactions by state. It also builds the
receipt-verification POST and forwards the raw answer.

How the model is laid out:

- `iap_types.dfy`: the values. These are the three-case `IAPError`, products, transactions, registry entries, and the `Effect` log.
- `registries.dfy`: first-match lookup and removal on both registries, as functions.
- `dispatch.dfy`: what one batch of updated transactions does, as a function `Run`. The lemmas prove the batch properties about it.
- `manager.dfy`: the class `IAPManager`. Its fields are the source's fields. Its methods change them in place, with the index loops of `popProductRequestTuple` and `popPaymentsTuple`. Each method states its whole new state.
- `receipt_verifier.dfy`: `verify`, as pure functions. `base64.dfy` holds the standard base64 of RFC 4648, section 4, that the request body uses.
- `scenarios.dfy`: end-to-end runs of a fresh coordinator, and one lemma about a two-transaction batch. They are proved from the contracts of the coordinator's methods and the registry and batch functions those contracts name.

Modelling choices:

- Callbacks are handler ids. An optional callback is `Option<HandlerId>`.
- Calling a callback, and calling into StoreKit, appends an `Effect` to the coordinator's `log`. The kinds are `Finish`, `Success`, `Failure`, `StartProductsRequest`, `AddPayment` and `RestoreCompletedTransactions`.
- `verify` touches none of the coordinator's state. `ReceiptVerifier.Verify` is a standalone function that returns its own effect sequence: the `PostVerifyRequest` and then the handler call. No coordinator method appends these to `log`.
- A StoreKit product request is a `nat` handle. Handles come from a counter, so each one is fresh.
- The closure that `purchaseForProductId` hands to `fetchProduct` is the value `PurchaseFirst(productId, success, failure)`. It is stored in the query's entry and run when the catalog answers.
- `SKPaymentQueue.canMakePayments()` is a boolean parameter of each operation that asks it.
- The stored receipt and the network's answer are parameters of `Verify`.

What the code does not do, and the model therefore does not do either:

- `verify` does not parse the response or look at a status field; any delivered answer goes to the success handler as raw data.
- There is no redirect between the sandbox and production verification servers.
- The only error kinds are the three of `IAPError` plus errors passed through from StoreKit and the transport.
- The restore accumulator is emptied at the start of every transaction batch (line 271 of `IAPManager.swift`) and by both terminal restore events (lines 313 and 326). Starting a restore does not empty it. `Scenarios.RestoreAcrossTwoBatches` shows the consequence: restored transactions delivered in an earlier batch never reach the success handler.

## Model

| member | source | states |
|---|---|---|
| `Registries.RemoveAt` | InAppPurchaseDemo/IAPManager.swift:89 | removing index k keeps the elements before k, shifts those after it by one, and loses exactly one occurrence of the removed element |
| `Registries.PaymentIndex` | InAppPurchaseDemo/IAPManager.swift:259-266 | the index is the earliest payment whose product identifier matches, or the length when none matches |
| `Registries.PopPayment` | InAppPurchaseDemo/IAPManager.swift:256-269 | returns nil exactly when no entry matches, and then leaves the list unchanged; otherwise returns a matching entry and removes exactly that one |
| `Registries.PopPaymentIsFifo` | InAppPurchaseDemo/IAPManager.swift:259-266 | with two matching entries i < j, the pop takes one no later than i, and entry j stays pending |
| `Registries.PopPaymentKeepsOrder` | InAppPurchaseDemo/IAPManager.swift:263 | what remains is the list with only the earliest match taken out, the rest in registration order |
| `Registries.RequestIndex` | InAppPurchaseDemo/IAPManager.swift:85-92 | the index is the first query with the identical request handle, or the length when none has it |
| `Registries.PopRequest` | InAppPurchaseDemo/IAPManager.swift:82-95 | an unknown request yields nil and changes nothing; otherwise the query for that request is removed and the others are kept |
| `Registries.PopRequestKeepsOrder` | InAppPurchaseDemo/IAPManager.swift:89 | what remains is the registry with only the answered query taken out, the others in registration order |
| `Registries.PopRequestResolvesOnce` | InAppPurchaseDemo/IAPManager.swift:229-231 | with distinct handles, after a pop no entry for that request remains, so a second answer for it finds nothing; handles stay distinct |
| `Dispatch.Resolve` | InAppPurchaseDemo/IAPManager.swift:285-292 | exactly one callback fires when an entry was popped and it has the handler the state asks for, none otherwise; failed calls that entry's failure handler with the transaction's error, the other states call its success handler with the transaction |
| `Dispatch.Step` | InAppPurchaseDemo/IAPManager.swift:274-296 | purchasing and deferred change nothing; a terminal transaction's first new effect is its finish |
| `Dispatch.StepResolvesEarliest` | InAppPurchaseDemo/IAPManager.swift:278-292 | a terminal transaction removes exactly the earliest pending payment for its product, and after its finish that entry's success handler gets the transaction, or its failure handler the error; with no such payment, nothing is removed and the finish is the only effect |
| `Dispatch.Run` | InAppPurchaseDemo/IAPManager.swift:273-297 | a batch handles its transactions in delivery order; it only appends effects and never adds a payment |
| `Dispatch.RestoredOf` | InAppPurchaseDemo/IAPManager.swift:281-283 | a transaction is accumulated exactly when it is in the batch and in the restored state |
| `Dispatch.TerminalOf` | InAppPurchaseDemo/IAPManager.swift:278-289 | a transaction is listed exactly when it is in the batch and purchased, restored or failed |
| `Dispatch.RunRestored` | InAppPurchaseDemo/IAPManager.swift:271-283 | after a batch the accumulator is what it was plus the batch's restored transactions in order; from empty, it is exactly those |
| `Dispatch.RunPaymentsBound` | InAppPurchaseDemo/IAPManager.swift:273-297 | a batch never adds payments, removes at most one per terminal transaction, and leaves a sub-multiset of the pending payments |
| `Dispatch.StepFinishes` | InAppPurchaseDemo/IAPManager.swift:278-289 | a terminal transaction adds its own finish and no other finish |
| `Dispatch.RunFinishes` | InAppPurchaseDemo/IAPManager.swift:273-297 | the transactions finished by a batch are exactly its purchased, restored and failed transactions, each once, in delivery order |
| `Dispatch.RunCallbacksFollowFinish` | InAppPurchaseDemo/IAPManager.swift:278-292 | every callback of a batch comes right after the finish of the transaction it resolves, so finish always comes before the callback |
| `Dispatch.RunInertWithoutTerminal` | InAppPurchaseDemo/IAPManager.swift:275-276 | the loop over a batch of only purchasing and deferred transactions changes neither the payments nor the accumulator and has no effects; the batch method still empties the accumulator before the loop |
| `Manager.IAPManager.constructor` | InAppPurchaseDemo/IAPManager.swift:36-41 | the coordinator starts with empty registries, an empty accumulator and no restore handlers |
| `Manager.IAPManager.FetchProducts` | InAppPurchaseDemo/IAPManager.swift:74-79 | appends exactly one entry with a fresh handle at the end, with no deduplication; earlier entries are unchanged; starts exactly that request |
| `Manager.IAPManager.FetchProduct` | InAppPurchaseDemo/IAPManager.swift:63-65 | the same as a catalog query for the one-element id set |
| `Manager.IAPManager.PopProductRequestTuple` | InAppPurchaseDemo/IAPManager.swift:82-95 | the loop returns and removes exactly what `PopRequest` specifies |
| `Manager.IAPManager.ProductsRequestDidReceive` | InAppPurchaseDemo/IAPManager.swift:222-232 | pops the query; an unknown request calls nothing; a caller's handler gets the products; a purchase-by-id continuation fails with productNotFound on an empty list and otherwise purchases the first product |
| `Manager.IAPManager.RequestDidFail` | InAppPurchaseDemo/IAPManager.swift:243-247 | pops the query, and only its own failure handler gets the error verbatim |
| `Manager.IAPManager.PurchaseForProductId` | InAppPurchaseDemo/IAPManager.swift:106-125 | when payments are impossible: fails with canNotMakePayments and starts no query; otherwise registers one query whose continuation purchases the first product found |
| `Manager.IAPManager.Purchase` | InAppPurchaseDemo/IAPManager.swift:133-143 | when payments are possible: appends exactly one entry at the end and submits the payment; otherwise only fails with canNotMakePayments and leaves the payments unchanged |
| `Manager.IAPManager.InvokeFailureBlockForCanNotMakePayment` | InAppPurchaseDemo/IAPManager.swift:157-162 | calls the failure handler, if any, with canNotMakePayments |
| `Manager.IAPManager.RestorePurchases` | InAppPurchaseDemo/IAPManager.swift:151-155 | overwrites both restore handlers and starts the restore; nothing else changes |
| `Manager.IAPManager.RestoreCompletedTransactionsFailed` | InAppPurchaseDemo/IAPManager.swift:306-316 | the failure handler, if any, gets the error; then the accumulator is emptied and both handlers are nil |
| `Manager.IAPManager.RestoreCompletedTransactionsFinished` | InAppPurchaseDemo/IAPManager.swift:319-329 | the success handler, if any, gets the accumulated transactions; then the accumulator is emptied and both handlers are nil |
| `Manager.IAPManager.PopPaymentsTuple` | InAppPurchaseDemo/IAPManager.swift:256-269 | the loop returns and removes exactly what `PopPayment` specifies |
| `Manager.IAPManager.DispatchTransaction` | InAppPurchaseDemo/IAPManager.swift:274-296 | one transaction changes the payments, the accumulator and the log exactly as `Step` does |
| `Manager.IAPManager.PaymentQueueUpdatedTransactions` | InAppPurchaseDemo/IAPManager.swift:254-298 | empties the accumulator, then leaves the payments, the accumulator and the new effects exactly as `Run` over the batch does; the query registry and the restore handlers are untouched |
| `Base64.Encode` | InAppPurchaseDemo/IAPManager.swift:184 | the output has 4·⌈n/3⌉ characters of the base64 alphabet; padding appears only in the last two places, and never when n is a multiple of 3 |
| `ReceiptVerifier.VerifyURL` | InAppPurchaseDemo/IAPManager.swift:167-170 | the production URL exactly when realEnvironment is true, and the sandbox URL exactly when it is false |
| `ReceiptVerifier.RequestBody` | InAppPurchaseDemo/IAPManager.swift:184-187 | the body has the single key receipt-data, whose value is base64 of length 4·⌈n/3⌉ |
| `ReceiptVerifier.BuildRequest` | InAppPurchaseDemo/IAPManager.swift:174-191 | no request exactly when there is no readable receipt: receiptDataNotFound without a receipt URL, the read error otherwise; else a POST to the environment's URL carrying the receipt-data body |
| `ReceiptVerifier.Verify` | InAppPurchaseDemo/IAPManager.swift:172-215 | without a readable receipt nothing is posted and only the failure handler may fire; otherwise one POST, then the transport error to failure, or any delivered answer raw to success; at most one handler fires |
| `ReceiptVerifier.VerifyForwardsAnyResponse` | InAppPurchaseDemo/IAPManager.swift:193-207 | any two delivered answers produce the same POST and the same success call, each with its own raw data: the content is not inspected |
| `Scenarios.PurchaseThenPurchased` | InAppPurchaseDemo/IAPManager.swift:133-143 | a purchase and then its purchased transaction give submit, finish, success with that transaction; nothing is left pending |
| `Scenarios.SameProductTwiceFailsFirst` | InAppPurchaseDemo/IAPManager.swift:288-292 | with two purchases of one product, a failed transaction resolves the earlier registration; the later one stays pending |
| `Scenarios.PurchaseByIdWhenPaymentsImpossible` | InAppPurchaseDemo/IAPManager.swift:122-124 | when payments are impossible, purchase by id only reports canNotMakePayments and registers nothing |
| `Scenarios.PurchaseByIdOfUnknownProduct` | InAppPurchaseDemo/IAPManager.swift:112-118 | an empty catalog answer to purchase by id reports productNotFound and registers no payment |
| `Scenarios.IdenticalQueriesResolveSeparately` | InAppPurchaseDemo/IAPManager.swift:74-95 | two identical queries are two entries; an answer resolves only its own query, and a repeated answer calls nothing |
| `Scenarios.RestoredThenPurchasedBatch` | InAppPurchaseDemo/IAPManager.swift:278-286 | with nothing pending, a restored and then a purchased transaction are both finished, nothing is called, and only the restored one is accumulated |
| `Scenarios.RestoreFinishedTwice` | InAppPurchaseDemo/IAPManager.swift:319-329 | the finished event hands the accumulated transactions to success once; a second finished event calls nothing |
| `Scenarios.RestoreAcrossTwoBatches` | InAppPurchaseDemo/IAPManager.swift:271 | the accumulator is emptied at each batch, so only the last batch's restored transactions reach the success handler |
| `Scenarios.RestoreFailsThenFinishes` | InAppPurchaseDemo/IAPManager.swift:306-316 | a failed restore reports the error once; a later finished event calls nothing |

## Left out

- Thread hops: `DispatchQueue.main.async` in `verify` is not modelled. Callbacks are appended to the log when they are decided.
- Logging: `print` is not modelled. The log-only delegate methods `requestDidFinish`, `removedTransactions` and `updatedDownloads` are not modelled either.
- Reporting invalid identifiers: the product response's `invalidProductIdentifiers` are only printed by the source. The model carries them and ignores them.
- Singleton and observer: the shared instance and the observer registration in `init`/`deinit` are not modelled. Calling back into `self` from the `[weak self]` continuation is modelled as always succeeding, because the instance is a never-released singleton.
- Description extensions: the `description` overrides and `localizedPrice` are string formatting over pointer addresses and locale rules. They are not modelled.
- Receipt and request plumbing: receipt file reading, `JSONSerialization` and `URLSession` are outside the model. The body is the dictionary value before serialization. A failure to read or serialize is the one abstract outcome `Unreadable(error)`.
- Identifier matching: product identifiers are compared code unit by code unit. Swift's `String ==` also equates canonically equivalent Unicode strings. Two such spellings of one identifier match a payment in the code but not in the model. StoreKit product identifiers are ASCII, where the two comparisons agree.
- Re-entrant callbacks: a caller's callback is assumed not to call back into the coordinator. In the code, callbacks run synchronously inside the delegate methods. A purchase success handler that calls `purchase` during a batch would add a payment before the next transaction's lookup. A restore success handler that calls `restorePurchases` would have its new handlers cleared right after it returns. The full-state contracts of `Manager.IAPManager` do not cover these cases. The one re-entry that is modelled is the purchase-by-id continuation, `PurchaseFirst`, which `ProductsRequestDidReceive` runs as a call to `Purchase`.
- The `URLResponse`: in the verify callback it is an opaque number.
- Manager.IAPManager.PaymentQueueUpdatedTransactions: it requires every failed transaction to carry an error. The source unwraps the error only when a failure handler was found, so this requirement is slightly stronger than the source's. StoreKit always sets the error of a failed transaction.
- Manager.IAPManager.DispatchTransaction: the same requirement as the batch method, for the same reason.
- Ghost views: `Valid`, `Registrations` and `RestoreSession` are ghost views of the class's fields, used only in contracts.
