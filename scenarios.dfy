/** End-to-end runs of a fresh coordinator: what a caller observes when
    StoreKit answers in a given way, proved from the contracts of the
    coordinator's methods and the registry and batch functions they name. */
module Scenarios {
  import opened IAPTypes
  import opened Registries
  import opened Dispatch
  import opened Manager

  /** A purchase of "sku1" followed by its `purchased` transaction: the payment
      is submitted, the transaction finished once, and then the success handler
      gets it; nothing is left pending. */
  method PurchaseThenPurchased(success: HandlerId, failure: HandlerId, identity: nat)
    returns (log: seq<Effect>, pending: seq<Payment>)
    ensures var tx := Transaction(identity, Purchased, "sku1", None);
            log == [AddPayment("sku1"), Finish(tx), Success(success, PaidTransaction(tx))]
    ensures pending == []
  {
    var m := new IAPManager();
    m.Purchase(Product("sku1"), true, Some(success), Some(failure));
    var tx := Transaction(identity, Purchased, "sku1", None);
    m.PaymentQueueUpdatedTransactions([tx]);
    assert [tx][..0] == [];
    log, pending := m.log, m.payments;
  }

  /** Two purchases of the same product, then one `failed` transaction for it:
      the earlier registration gets the failure, the later stays pending. */
  method SameProductTwiceFailsFirst(s1: HandlerId, f1: HandlerId, s2: HandlerId, f2: HandlerId, identity: nat, error: Error)
    returns (log: seq<Effect>, pending: seq<Payment>)
    ensures var tx := Transaction(identity, Failed, "sku1", Some(error));
            log == [AddPayment("sku1"), AddPayment("sku1"), Finish(tx), Failure(f1, error)]
    ensures pending == [Payment("sku1", Some(s2), Some(f2))]
  {
    var m := new IAPManager();
    m.Purchase(Product("sku1"), true, Some(s1), Some(f1));
    m.Purchase(Product("sku1"), true, Some(s2), Some(f2));
    var tx := Transaction(identity, Failed, "sku1", Some(error));
    m.PaymentQueueUpdatedTransactions([tx]);
    assert [tx][..0] == [];
    log, pending := m.log, m.payments;
  }

  /** Payments impossible: the failure handler hears so, no catalog query is
      started and nothing is registered. */
  method PurchaseByIdWhenPaymentsImpossible(success: HandlerId, failure: HandlerId)
    returns (log: seq<Effect>, queries: seq<ProductRequest>, pending: seq<Payment>)
    ensures log == [Failure(failure, IAP(CanNotMakePayments))]
    ensures queries == [] && pending == []
  {
    var m := new IAPManager();
    m.PurchaseForProductId("sku1", false, Some(success), Some(failure));
    log, queries, pending := m.log, m.productRequests, m.payments;
  }

  /** Purchase by identifier when the catalog knows no such product: the query
      is resolved with `productNotFound` and no payment is registered. */
  method PurchaseByIdOfUnknownProduct(success: HandlerId, failure: HandlerId)
    returns (log: seq<Effect>, queries: seq<ProductRequest>, pending: seq<Payment>)
    ensures log == [StartProductsRequest(0, {"sku1"}), Failure(failure, IAP(ProductNotFound("sku1")))]
    ensures queries == [] && pending == []
  {
    var m := new IAPManager();
    m.PurchaseForProductId("sku1", true, Some(success), Some(failure));
    assert RequestIndex(m.productRequests, 0) == 0;
    m.ProductsRequestDidReceive(0, ProductsResponse([], ["sku1"]), true);
    log, queries, pending := m.log, m.productRequests, m.payments;
  }

  /** Two identical catalog queries are two registrations; each answer resolves
      its own query, and a repeated answer calls nothing. */
  method IdenticalQueriesResolveSeparately(h1: HandlerId, h2: HandlerId, products: seq<Product>)
    returns (log: seq<Effect>, queries: seq<ProductRequest>)
    ensures log == [StartProductsRequest(0, {"a", "b"}), StartProductsRequest(1, {"a", "b"}),
                    Success(h2, ProductList(products))]
    ensures queries == [ProductRequest(0, Some(Deliver(h1)), None)]
  {
    var m := new IAPManager();
    var r1 := m.FetchProducts({"a", "b"}, Some(Deliver(h1)), None);
    var r2 := m.FetchProducts({"a", "b"}, Some(Deliver(h2)), None);
    assert RequestIndex(m.productRequests, r2) == 1;
    m.ProductsRequestDidReceive(r2, ProductsResponse(products, []), true);
    assert m.productRequests == [ProductRequest(0, Some(Deliver(h1)), None)];
    m.ProductsRequestDidReceive(r2, ProductsResponse(products, []), true);
    log, queries := m.log, m.productRequests;
  }

  /** With nothing pending, a batch of one restored and one purchased
      transaction finishes both, calls nothing and accumulates the restored one. */
  lemma RestoredThenPurchasedBatch(r: Transaction, p: Transaction)
    requires r.state == Restored && p.state == Purchased
    ensures Run(Batch([], [], []), [r, p]) == Batch([], [r], [Finish(r), Finish(p)])
  {
    assert [r, p][..1] == [r] && [r][..0] == [];
    assert Run(Batch([], [], []), [r]) == Batch([], [r], [Finish(r)]);
  }

  /** A restore session: `restored` transactions of the batch are accumulated,
      the finished event hands them to the success handler and ends the
      session, so a second finished event calls nothing. */
  method RestoreFinishedTwice(success: HandlerId, failure: HandlerId, i1: nat, i2: nat)
    returns (log: seq<Effect>)
    ensures var r := Transaction(i1, Restored, "sku1", None);
            var p := Transaction(i2, Purchased, "sku2", None);
            log == [RestoreCompletedTransactions, Finish(r), Finish(p), Success(success, RestoredTransactions([r]))]
  {
    var m := new IAPManager();
    m.RestorePurchases(Some(success), Some(failure));
    var r := Transaction(i1, Restored, "sku1", None);
    var p := Transaction(i2, Purchased, "sku2", None);
    m.PaymentQueueUpdatedTransactions([r, p]);
    RestoredThenPurchasedBatch(r, p);
    m.RestoreCompletedTransactionsFinished();
    m.RestoreCompletedTransactionsFinished();
    log := m.log;
  }

  /** The accumulator is emptied at the start of every batch: with restored
      transactions spread over two batches, only the second batch's reach the
      success handler. */
  method RestoreAcrossTwoBatches(success: HandlerId, i1: nat, i2: nat)
    returns (delivered: seq<Effect>)
    ensures delivered == [Success(success, RestoredTransactions([Transaction(i2, Restored, "sku2", None)]))]
  {
    var m := new IAPManager();
    m.RestorePurchases(Some(success), None);
    var r1 := Transaction(i1, Restored, "sku1", None);
    var r2 := Transaction(i2, Restored, "sku2", None);
    m.PaymentQueueUpdatedTransactions([r1]);
    assert [r1][..0] == [];
    m.PaymentQueueUpdatedTransactions([r2]);
    assert [r2][..0] == [];
    assert m.restoreTransactions == [r2];
    assert m.restorePurchaseSuccessHandler == Some(success);
    var before := |m.log|;
    m.RestoreCompletedTransactionsFinished();
    delivered := m.log[before..];
  }

  /** A restore that fails: the failure handler gets the error and the session
      ends, so a later finished event calls nothing. */
  method RestoreFailsThenFinishes(success: HandlerId, failure: HandlerId, error: Error)
    returns (log: seq<Effect>)
    ensures log == [RestoreCompletedTransactions, Failure(failure, error)]
  {
    var m := new IAPManager();
    m.RestorePurchases(Some(success), Some(failure));
    m.RestoreCompletedTransactionsFailed(error);
    m.RestoreCompletedTransactionsFinished();
    log := m.log;
  }
}
