/** Receipt verification (`verify(realEnvironment:success:failure:)`): find the
    receipt, POST it base64-encoded to the sandbox or the production endpoint,
    and hand the caller either the transport error or the raw response. The
    response body is not inspected. */
module ReceiptVerifier {
  import opened IAPTypes
  import Base64

  const SandboxVerifyURL: string := "https://sandbox.itunes.apple.com/verifyReceipt"
  const ProductionVerifyURL: string := "https://buy.itunes.apple.com/verifyReceipt"
  const ReceiptDataKey: string := "receipt-data"

  /** What looking for the stored receipt yields: no receipt URL at all, a
      file that could not be read, or the receipt's bytes. */
  datatype ReceiptLookup = NoReceiptURL | Unreadable(error: Error) | Receipt(bytes: seq<byte>)

  /** What the network hands back for the POST. */
  datatype TransportResponse =
    | TransportFailed(error: Error)
    | Delivered(data: Option<seq<byte>>, response: Option<nat>)

  /** The production endpoint exactly when the real environment is asked for. */
  function VerifyURL(realEnvironment: bool): (url: string)
    ensures url == ProductionVerifyURL <==> realEnvironment
    ensures url == SandboxVerifyURL <==> !realEnvironment
  {
    assert ProductionVerifyURL[8] != SandboxVerifyURL[8];
    if realEnvironment then ProductionVerifyURL else SandboxVerifyURL
  }

  /** The JSON object sent: the single key `receipt-data` with the receipt in base64. */
  function RequestBody(receipt: seq<byte>): (body: map<string, string>)
    ensures body.Keys == {ReceiptDataKey}
    ensures body[ReceiptDataKey] == Base64.Encode(receipt)
    ensures |body[ReceiptDataKey]| == 4 * ((|receipt| + 2) / 3)
  {
    map[ReceiptDataKey := Base64.Encode(receipt)]
  }

  /** The request `verify` sends, or why it sends none. */
  function BuildRequest(realEnvironment: bool, receipt: ReceiptLookup): (r: Result<HttpRequest>)
    ensures r.Err? <==> !receipt.Receipt?
    ensures receipt.NoReceiptURL? ==> r == Err(IAP(ReceiptDataNotFound))
    ensures receipt.Unreadable? ==> r == Err(receipt.error)
    ensures r.Ok? ==> r.value.httpMethod == "POST"
    ensures r.Ok? ==> (r.value.url == ProductionVerifyURL <==> realEnvironment)
    ensures r.Ok? ==> r.value.body.Keys == {ReceiptDataKey} && r.value.body[ReceiptDataKey] == Base64.Encode(receipt.bytes)
  {
    match receipt
    case NoReceiptURL => Err(IAP(ReceiptDataNotFound))
    case Unreadable(e) => Err(e)
    case Receipt(bytes) => Ok(HttpRequest(VerifyURL(realEnvironment), "POST", RequestBody(bytes)))
  }

  /** Everything one `verify` call does, given what the receipt lookup and the
      network yield: without a readable receipt it only reports the error and
      posts nothing; otherwise it posts once, then reports the transport error
      or forwards whatever came back, whatever its content. At most one
      handler is called. */
  function Verify(realEnvironment: bool, receipt: ReceiptLookup, answer: TransportResponse,
                  success: Option<HandlerId>, failure: Option<HandlerId>): (es: seq<Effect>)
    ensures |es| <= 2
    ensures !receipt.Receipt? ==> forall e :: e in es ==> !e.PostVerifyRequest?
    ensures receipt.NoReceiptURL? ==> es == FailureCall(failure, IAP(ReceiptDataNotFound))
    ensures receipt.Unreadable? ==> es == FailureCall(failure, receipt.error)
    ensures receipt.Receipt? ==> |es| >= 1 && es[0].PostVerifyRequest?
    ensures receipt.Receipt? ==> es[0].httpRequest.url == VerifyURL(realEnvironment) && es[0].httpRequest.httpMethod == "POST"
    ensures receipt.Receipt? ==> es[0].httpRequest.body == RequestBody(receipt.bytes)
    ensures receipt.Receipt? && answer.TransportFailed? ==> es[1..] == FailureCall(failure, answer.error)
    ensures receipt.Receipt? && answer.Delivered? ==> es[1..] == SuccessCall(success, VerifyResponse(answer.data, answer.response))
  {
    match BuildRequest(realEnvironment, receipt)
    case Err(e) => FailureCall(failure, e)
    case Ok(request) =>
      [PostVerifyRequest(request)] +
      match answer
      case TransportFailed(e) => FailureCall(failure, e)
      case Delivered(data, response) => SuccessCall(success, VerifyResponse(data, response))
  }

  /** No status inspection: any two delivered answers lead to the same POST and
      to the same handler, each getting its own raw data. */
  lemma VerifyForwardsAnyResponse(realEnvironment: bool, bytes: seq<byte>, a1: TransportResponse, a2: TransportResponse,
                                  success: HandlerId, failure: Option<HandlerId>)
    requires a1.Delivered? && a2.Delivered?
    ensures var e1 := Verify(realEnvironment, Receipt(bytes), a1, Some(success), failure);
            var e2 := Verify(realEnvironment, Receipt(bytes), a2, Some(success), failure);
            |e1| == |e2| == 2 && e1[0] == e2[0] &&
            e1[1] == Success(success, VerifyResponse(a1.data, a1.response)) &&
            e2[1] == Success(success, VerifyResponse(a2.data, a2.response))
  {
  }
}
