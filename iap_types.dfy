/** Values shared by the in-app purchase coordinator: errors, StoreKit entities,
    the registry entries the coordinator keeps, and the observable effects of
    its operations (calls into StoreKit, the network, and caller callbacks). */
module IAPTypes {

  datatype Option<+T> = None | Some(value: T)

  datatype Result<+T> = Ok(value: T) | Err(error: Error)

  /** A caller-supplied closure, identified by an opaque id. */
  type HandlerId = nat

  /** Identity of one outstanding StoreKit product request. */
  type RequestHandle = nat

  type byte = x: int | 0 <= x < 256

  /** The coordinator's own error kinds (IAPError.swift). */
  datatype IAPError =
    | CanNotMakePayments
    | ProductNotFound(productId: string)
    | ReceiptDataNotFound

  /** Any error a failure handler receives: one of the coordinator's own, or an
      opaque error produced by StoreKit, the file system or the transport. */
  datatype Error = IAP(reason: IAPError) | Platform(code: int)

  datatype Product = Product(productIdentifier: string)

  datatype ProductsResponse = ProductsResponse(products: seq<Product>, invalidProductIdentifiers: seq<string>)

  datatype TransactionState = Purchasing | Purchased | Failed | Restored | Deferred

  /** A queue transaction; `identity` stands for object identity. */
  datatype Transaction = Transaction(identity: nat, state: TransactionState, productIdentifier: string, error: Option<Error>)

  /** The success closure of a product request: either the caller's own handler,
      or the continuation that purchaseForProductId installs, which purchases the
      first product returned or reports that none was found. */
  datatype ProductsHandler =
    | Deliver(handler: HandlerId)
    | PurchaseFirst(productId: string, success: Option<HandlerId>, failure: Option<HandlerId>)

  /** One entry of the catalog-query registry. */
  datatype ProductRequest = ProductRequest(request: RequestHandle, success: Option<ProductsHandler>, failure: Option<HandlerId>)

  /** One entry of the pending-payment registry. */
  datatype Payment = Payment(productIdentifier: string, success: Option<HandlerId>, failure: Option<HandlerId>)

  /** A verification POST: target URL, HTTP method and the JSON object sent as body. */
  datatype HttpRequest = HttpRequest(url: string, httpMethod: string, body: map<string, string>)

  /** What a success handler is called with. */
  datatype Payload =
    | ProductList(products: seq<Product>)
    | PaidTransaction(transaction: Transaction)
    | RestoredTransactions(transactions: seq<Transaction>)
    | VerifyResponse(data: Option<seq<byte>>, response: Option<nat>)

  /** Everything the coordinator does that is visible outside it, in order. */
  datatype Effect =
    | StartProductsRequest(request: RequestHandle, productIds: set<string>)
    | AddPayment(productIdentifier: string)
    | RestoreCompletedTransactions
    | PostVerifyRequest(httpRequest: HttpRequest)
    | Finish(tx: Transaction)
    | Success(handler: HandlerId, payload: Payload)
    | Failure(handler: HandlerId, error: Error)

  /** Calling an optional success handler (`success?(payload)`). */
  function SuccessCall(h: Option<HandlerId>, payload: Payload): seq<Effect>
  {
    match h
    case None => []
    case Some(handler) => [Success(handler, payload)]
  }

  /** Calling an optional failure handler (`failure?(error)`). */
  function FailureCall(h: Option<HandlerId>, error: Error): seq<Effect>
  {
    match h
    case None => []
    case Some(handler) => [Failure(handler, error)]
  }
}
