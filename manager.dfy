/** The in-app purchase coordinator (IAPManager.swift). One object, driven from
    one serialized context, that keeps three registries and a restore session,
    and connects callers to StoreKit's asynchronous events. Every call into
    StoreKit and every caller callback it makes is appended to `log`. */
module Manager {
  import opened IAPTypes
  import opened Registries
  import opened Dispatch

  class IAPManager {
    /** Outstanding catalog queries, in the order they were started. */
    var productRequests: seq<ProductRequest>
    /** Pending payments, in the order they were submitted. */
    var payments: seq<Payment>
    /** `restored` transactions of the current batch, for the restore session. */
    var restoreTransactions: seq<Transaction>
    var restorePurchaseSuccessHandler: Option<HandlerId>
    var restorePurchaseFailureHandler: Option<HandlerId>
    /** The handle the next product request is created with. */
    var nextRequest: RequestHandle
    /** Everything the coordinator has done that is visible outside it, in order. */
    var log: seq<Effect>

    /** Every outstanding product request has its own handle, one already issued. */
    ghost predicate Valid()
      reads this
    {
      DistinctHandles(productRequests) &&
      forall i :: 0 <= i < |productRequests| ==> productRequests[i].request < nextRequest
    }

    /** The two correlation registries and the handle counter. */
    ghost function Registrations(): (seq<ProductRequest>, seq<Payment>, RequestHandle)
      reads this
    {
      (productRequests, payments, nextRequest)
    }

    /** The restore session: the accumulator and its two handlers. */
    ghost function RestoreSession(): (seq<Transaction>, Option<HandlerId>, Option<HandlerId>)
      reads this
    {
      (restoreTransactions, restorePurchaseSuccessHandler, restorePurchaseFailureHandler)
    }

    constructor ()
      ensures Valid()
      ensures productRequests == [] && payments == [] && restoreTransactions == []
      ensures restorePurchaseSuccessHandler == None && restorePurchaseFailureHandler == None
      ensures nextRequest == 0 && log == []
    {
      productRequests := [];
      payments := [];
      restoreTransactions := [];
      restorePurchaseSuccessHandler := None;
      restorePurchaseFailureHandler := None;
      nextRequest := 0;
      log := [];
    }

    // -------------------------------------------------------------------------
    // Products

    /** Starts one catalog query and registers it, even when an identical query
        is already outstanding. The new request's handle is fresh. */
    method FetchProducts(productIds: set<string>, success: Option<ProductsHandler>, failure: Option<HandlerId>)
      returns (request: RequestHandle)
      requires Valid()
      modifies this
      ensures Valid()
      ensures request == old(nextRequest) && nextRequest == old(nextRequest) + 1
      ensures forall i :: 0 <= i < |old(productRequests)| ==> old(productRequests)[i].request != request
      ensures productRequests == old(productRequests) + [ProductRequest(request, success, failure)]
      ensures log == old(log) + [StartProductsRequest(request, productIds)]
      ensures payments == old(payments) && RestoreSession() == old(RestoreSession())
    {
      request := nextRequest;
      nextRequest := nextRequest + 1;
      productRequests := productRequests + [ProductRequest(request, success, failure)];
      log := log + [StartProductsRequest(request, productIds)];
    }

    /** A catalog query for a single product identifier. */
    method FetchProduct(productId: string, success: Option<ProductsHandler>, failure: Option<HandlerId>)
      returns (request: RequestHandle)
      requires Valid()
      modifies this
      ensures Valid()
      ensures request == old(nextRequest) && nextRequest == old(nextRequest) + 1
      ensures productRequests == old(productRequests) + [ProductRequest(request, success, failure)]
      ensures log == old(log) + [StartProductsRequest(request, {productId})]
      ensures payments == old(payments) && RestoreSession() == old(RestoreSession())
    {
      request := FetchProducts({productId}, success, failure);
    }

    /** Removes and returns the first registered query with handle `request`. */
    method PopProductRequestTuple(request: RequestHandle) returns (entry: Option<ProductRequest>)
      modifies this`productRequests
      ensures Popped(entry, productRequests) == PopRequest(old(productRequests), request)
    {
      entry := None;
      for i := 0 to |productRequests|
        invariant productRequests == old(productRequests)
        invariant forall j :: 0 <= j < i ==> productRequests[j].request != request
      {
        if productRequests[i].request == request {
          entry := Some(productRequests[i]);
          productRequests := productRequests[..i] + productRequests[i + 1..];
          return;
        }
      }
    }

    /** The catalog answered `request`: its query is popped and resolved. A
        caller's handler receives the products; the continuation of
        PurchaseForProductId purchases the first product, or reports that none
        was found. An unknown request changes nothing and calls nothing. */
    method ProductsRequestDidReceive(request: RequestHandle, response: ProductsResponse, canMakePayments: bool)
      requires Valid()
      modifies this
      ensures Valid()
      ensures productRequests == PopRequest(old(productRequests), request).rest
      ensures nextRequest == old(nextRequest) && RestoreSession() == old(RestoreSession())
      ensures var p := PopRequest(old(productRequests), request);
              var products := response.products;
              match (if p.entry.Some? then p.entry.value.success else None)
              case None =>
                payments == old(payments) && log == old(log)
              case Some(Deliver(h)) =>
                payments == old(payments) && log == old(log) + [Success(h, ProductList(products))]
              case Some(PurchaseFirst(productId, s, f)) =>
                if products == [] then
                  payments == old(payments) && log == old(log) + FailureCall(f, IAP(ProductNotFound(productId)))
                else if canMakePayments then
                  payments == old(payments) + [Payment(products[0].productIdentifier, s, f)] &&
                  log == old(log) + [AddPayment(products[0].productIdentifier)]
                else
                  payments == old(payments) && log == old(log) + FailureCall(f, IAP(CanNotMakePayments))
    {
      PopRequestResolvesOnce(productRequests, request);
      var entry := PopProductRequestTuple(request);
      if entry.Some? {
        match entry.value.success
        case None =>
        case Some(Deliver(h)) =>
          log := log + [Success(h, ProductList(response.products))];
        case Some(PurchaseFirst(productId, s, f)) =>
          if |response.products| > 0 {
            Purchase(response.products[0], canMakePayments, s, f);
          } else if f.Some? {
            log := log + [Failure(f.value, IAP(ProductNotFound(productId)))];
          }
      }
    }

    /** The catalog query `request` failed: its query is popped and its failure
        handler gets the error verbatim. */
    method RequestDidFail(request: RequestHandle, error: Error)
      requires Valid()
      modifies this
      ensures Valid()
      ensures var p := PopRequest(old(productRequests), request);
              productRequests == p.rest &&
              log == old(log) + (if p.entry.Some? then FailureCall(p.entry.value.failure, error) else [])
      ensures payments == old(payments) && nextRequest == old(nextRequest) && RestoreSession() == old(RestoreSession())
    {
      PopRequestResolvesOnce(productRequests, request);
      var entry := PopProductRequestTuple(request);
      if entry.Some? && entry.value.failure.Some? {
        log := log + [Failure(entry.value.failure.value, error)];
      }
    }

    // -------------------------------------------------------------------------
    // Payment

    /** Looks the product up first: when payments are impossible nothing is
        requested; otherwise one catalog query is registered whose success
        continuation purchases the first product found. */
    method PurchaseForProductId(productId: string, canMakePayments: bool, success: Option<HandlerId>, failure: Option<HandlerId>)
      requires Valid()
      modifies this
      ensures Valid()
      ensures canMakePayments ==>
                productRequests == old(productRequests) + [ProductRequest(old(nextRequest), Some(PurchaseFirst(productId, success, failure)), failure)] &&
                nextRequest == old(nextRequest) + 1 &&
                log == old(log) + [StartProductsRequest(old(nextRequest), {productId})]
      ensures !canMakePayments ==>
                productRequests == old(productRequests) && nextRequest == old(nextRequest) &&
                log == old(log) + FailureCall(failure, IAP(CanNotMakePayments))
      ensures payments == old(payments) && RestoreSession() == old(RestoreSession())
    {
      if canMakePayments {
        var _ := FetchProduct(productId, Some(PurchaseFirst(productId, success, failure)), failure);
      } else {
        InvokeFailureBlockForCanNotMakePayment(failure);
      }
    }

    /** Registers one pending payment at the end of the list and submits it,
        or, when payments are impossible, only reports that. */
    method Purchase(product: Product, canMakePayments: bool, success: Option<HandlerId>, failure: Option<HandlerId>)
      requires Valid()
      modifies this
      ensures Valid()
      ensures canMakePayments ==>
                payments == old(payments) + [Payment(product.productIdentifier, success, failure)] &&
                log == old(log) + [AddPayment(product.productIdentifier)]
      ensures !canMakePayments ==>
                payments == old(payments) && log == old(log) + FailureCall(failure, IAP(CanNotMakePayments))
      ensures productRequests == old(productRequests) && nextRequest == old(nextRequest)
      ensures RestoreSession() == old(RestoreSession())
    {
      if canMakePayments {
        payments := payments + [Payment(product.productIdentifier, success, failure)];
        log := log + [AddPayment(product.productIdentifier)];
      } else {
        InvokeFailureBlockForCanNotMakePayment(failure);
      }
    }

    method InvokeFailureBlockForCanNotMakePayment(failure: Option<HandlerId>)
      modifies this`log
      ensures log == old(log) + FailureCall(failure, IAP(CanNotMakePayments))
    {
      if failure.Some? {
        log := log + [Failure(failure.value, IAP(CanNotMakePayments))];
      }
    }

    // -------------------------------------------------------------------------
    // Restore

    /** Installs the restore handlers, replacing any earlier ones, and asks the
        queue to restore completed transactions. */
    method RestorePurchases(success: Option<HandlerId>, failure: Option<HandlerId>)
      requires Valid()
      modifies this
      ensures Valid()
      ensures restorePurchaseSuccessHandler == success && restorePurchaseFailureHandler == failure
      ensures restoreTransactions == old(restoreTransactions)
      ensures log == old(log) + [RestoreCompletedTransactions]
      ensures Registrations() == old(Registrations())
    {
      restorePurchaseSuccessHandler := success;
      restorePurchaseFailureHandler := failure;
      log := log + [RestoreCompletedTransactions];
    }

    /** The restore failed: its failure handler, if any, gets the error, and
        the session is cleared, so a later terminal event calls nothing. */
    method RestoreCompletedTransactionsFailed(error: Error)
      requires Valid()
      modifies this
      ensures Valid()
      ensures log == old(log) + FailureCall(old(restorePurchaseFailureHandler), error)
      ensures restoreTransactions == [] && restorePurchaseSuccessHandler == None && restorePurchaseFailureHandler == None
      ensures Registrations() == old(Registrations())
    {
      if restorePurchaseFailureHandler.Some? {
        log := log + [Failure(restorePurchaseFailureHandler.value, error)];
      }
      restoreTransactions := [];
      restorePurchaseSuccessHandler := None;
      restorePurchaseFailureHandler := None;
    }

    /** The restore finished: its success handler, if any, gets the accumulated
        transactions, and the session is cleared, so a later terminal event
        calls nothing. */
    method RestoreCompletedTransactionsFinished()
      requires Valid()
      modifies this
      ensures Valid()
      ensures log == old(log) + SuccessCall(old(restorePurchaseSuccessHandler), RestoredTransactions(old(restoreTransactions)))
      ensures restoreTransactions == [] && restorePurchaseSuccessHandler == None && restorePurchaseFailureHandler == None
      ensures Registrations() == old(Registrations())
    {
      if restorePurchaseSuccessHandler.Some? {
        log := log + [Success(restorePurchaseSuccessHandler.value, RestoredTransactions(restoreTransactions))];
      }
      restoreTransactions := [];
      restorePurchaseSuccessHandler := None;
      restorePurchaseFailureHandler := None;
    }

    // -------------------------------------------------------------------------
    // Transactions

    /** Removes and returns the earliest-registered payment for `productIdentifier`. */
    method PopPaymentsTuple(productIdentifier: string) returns (entry: Option<Payment>)
      modifies this`payments
      ensures Popped(entry, payments) == PopPayment(old(payments), productIdentifier)
    {
      entry := None;
      for i := 0 to |payments|
        invariant payments == old(payments)
        invariant forall j :: 0 <= j < i ==> payments[j].productIdentifier != productIdentifier
      {
        if payments[i].productIdentifier == productIdentifier {
          entry := Some(payments[i]);
          payments := payments[..i] + payments[i + 1..];
          return;
        }
      }
    }

    /** One transaction of a batch, by state: `purchasing` and `deferred` are
        only logged by the source; the terminal states finish the transaction,
        then pop the earliest pending payment for its product and call its
        success handler (`purchased`, `restored`) or its failure handler with
        the transaction's error (`failed`); `restored` is also accumulated. */
    method DispatchTransaction(transaction: Transaction)
      requires WellFormed(transaction)
      modifies this`payments, this`restoreTransactions, this`log
      ensures var s := Step(Batch(old(payments), old(restoreTransactions), old(log)), transaction);
              payments == s.payments && restoreTransactions == s.restored && log == s.effects
    {
      if transaction.state == Purchased || transaction.state == Restored {
        log := log + [Finish(transaction)];
        if transaction.state == Restored {
          restoreTransactions := restoreTransactions + [transaction];
        }
        var tuple := PopPaymentsTuple(transaction.productIdentifier);
        if tuple.Some? && tuple.value.success.Some? {
          log := log + [Success(tuple.value.success.value, PaidTransaction(transaction))];
        }
      } else if transaction.state == Failed {
        log := log + [Finish(transaction)];
        var tuple := PopPaymentsTuple(transaction.productIdentifier);
        if tuple.Some? && tuple.value.failure.Some? {
          log := log + [Failure(tuple.value.failure.value, transaction.error.value)];
        }
      }
    }

    /** A batch of transaction updates, handled in delivery order after the
        accumulator is emptied. The new state and the effects are exactly those
        of `Run` on the batch. */
    method PaymentQueueUpdatedTransactions(transactions: seq<Transaction>)
      requires Valid()
      requires AllWellFormed(transactions)
      modifies this
      ensures Valid()
      ensures var b := Run(Batch(old(payments), [], []), transactions);
              payments == b.payments && restoreTransactions == b.restored && log == old(log) + b.effects
      ensures productRequests == old(productRequests) && nextRequest == old(nextRequest)
      ensures restorePurchaseSuccessHandler == old(restorePurchaseSuccessHandler)
      ensures restorePurchaseFailureHandler == old(restorePurchaseFailureHandler)
    {
      restoreTransactions := [];
      ghost var batch := Batch(payments, [], []);
      for i := 0 to |transactions|
        invariant batch == Run(Batch(old(payments), [], []), transactions[..i])
        invariant payments == batch.payments && restoreTransactions == batch.restored && log == old(log) + batch.effects
        invariant productRequests == old(productRequests) && nextRequest == old(nextRequest)
        invariant restorePurchaseSuccessHandler == old(restorePurchaseSuccessHandler)
        invariant restorePurchaseFailureHandler == old(restorePurchaseFailureHandler)
      {
        RunExtend(Batch(old(payments), [], []), transactions, i);
        StepKeepsEarlierEffects(batch, old(log), transactions[i]);
        DispatchTransaction(transactions[i]);
        batch := Step(batch, transactions[i]);
      }
      assert transactions[..|transactions|] == transactions;
    }
  }
}
