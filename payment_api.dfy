/**
 * The payment server's request checks and error answers: creating a payment intent, refunding
 * a payment and rendering an invoice. The payment gateway is an input: the outcome it would
 * give for the call the server makes.
 */
module PaymentApi {
  import opened Wrappers
  import opened Js
  import opened Pricing

  /** A JSON request value as the server sees it after parsing; Undefined is an absent field. */
  datatype Json = Undefined | Null | Bool(b: bool) | Num(x: real) | Str(s: string) | Object

  /** JavaScript truthiness of a parsed value. */
  predicate Truthy(v: Json)
  {
    match v
    case Undefined => false
    case Null => false
    case Bool(b) => b
    case Num(x) => x != 0.0
    case Str(s) => s != ""
    case Object => true
  }

  /** The amount check, `!amount || !Number.isInteger(amount) || amount <= 0`, negated. */
  predicate AmountAccepted(amount: Json)
  {
    Truthy(amount) && amount.Num? && amount.x.Floor as real == amount.x && amount.x > 0.0
  }

  /** A count of paise sent as a JSON number. */
  function Paise(n: nat): Json
  {
    Num(n as real)
  }

  /** The amount check accepts exactly the positive whole numbers (of paise). */
  lemma AmountAcceptedIffPositiveWhole(amount: Json)
    ensures AmountAccepted(amount) <==> exists n: nat :: n > 0 && amount == Paise(n)
  {
    if AmountAccepted(amount) {
      var n: nat := amount.x.Floor;
      assert amount == Paise(n);
    }
  }

  /** Why a gateway call failed: the `type` of the error it raised. */
  datatype ErrorType = AuthenticationError | CardError | InvalidRequestError | OtherError

  /** The outcome of a gateway call: its value, or the error raised with its message. */
  datatype Gateway<T> = Done(value: T) | Raised(kind: ErrorType, message: string)

  datatype IntentCreated = IntentCreated(clientSecret: string, paymentIntentId: string)

  /**
   * The body of a create-payment-intent request. `detailsReadable` says whether
   * `bookingDetails.userId` and `bookingDetails.hotelData.hotelName` can be read; reading them
   * from an absent object throws.
   */
  datatype IntentRequest = IntentRequest(amount: Json, currency: Json, detailsReadable: bool)

  const InvalidAmount := HttpError(400, "Invalid amount. Must be a positive integer in paise.")
  const InvalidCurrency := HttpError(400, "Invalid currency. Only INR is supported.")
  const IntentFailed := HttpError(500, "Failed to create payment intent. Please try again.")
  const RefundFailed := HttpError(500, "Failed to process refund. Please try again.")
  const BadGatewayKey := HttpError(401, "Invalid Stripe API key. Please check server configuration.")

  /** The answer to a gateway error raised while creating a payment intent. */
  function CreateIntentError(kind: ErrorType, message: string): (e: HttpError)
    ensures e.status == match kind
      case AuthenticationError => 401
      case CardError => 402
      case InvalidRequestError => 400
      case OtherError => 500
    ensures kind == CardError ==> e.message == message
  {
    match kind
    case AuthenticationError => BadGatewayKey
    case CardError => HttpError(402, message)
    case InvalidRequestError => HttpError(400, "Invalid request to Stripe API: " + message)
    case OtherError => IntentFailed
  }

  /** The answer to a gateway error raised while refunding: card errors are not singled out. */
  function RefundError(kind: ErrorType, message: string): (e: HttpError)
    ensures e.status == match kind
      case AuthenticationError => 401
      case InvalidRequestError => 400
      case _ => 500
  {
    match kind
    case AuthenticationError => BadGatewayKey
    case InvalidRequestError => HttpError(400, "Invalid request to Stripe API: " + message)
    case _ => RefundFailed
  }

  /** The two endpoints answer a gateway error with the same status except for card errors. */
  lemma ErrorStatusesAgree(kind: ErrorType, message: string)
    ensures CreateIntentError(kind, message).status == RefundError(kind, message).status <==> kind != CardError
    ensures kind in {AuthenticationError, InvalidRequestError} ==> CreateIntentError(kind, message) == RefundError(kind, message)
  {
  }

  /**
   * `/api/create-payment-intent`: the amount is checked first, then the currency; a truthy
   * currency that is not a string cannot be lower-cased and ends in the generic 500, as does an
   * unreadable `bookingDetails`; then the gateway is called and its errors are mapped.
   */
  function CreatePaymentIntent(req: IntentRequest, gateway: Gateway<IntentCreated>): (r: Result<IntentCreated, HttpError>)
    ensures !AmountAccepted(req.amount) ==> r == Failure(InvalidAmount)
    ensures AmountAccepted(req.amount) && (!Truthy(req.currency) || (req.currency.Str? && ToLower(req.currency.s) != "inr")) ==>
      r == Failure(InvalidCurrency)
    ensures r.Success? ==> AmountAccepted(req.amount) && req.currency.Str? && ToLower(req.currency.s) == "inr"
    ensures r.Success? <==> AmountAccepted(req.amount) && req.currency.Str? && ToLower(req.currency.s) == "inr"
                            && req.detailsReadable && gateway.Done?
    ensures r.Success? ==> r.value == gateway.value
    ensures AmountAccepted(req.amount) && Truthy(req.currency) && !req.currency.Str? ==> r == Failure(IntentFailed)
    ensures AmountAccepted(req.amount) && req.currency.Str? && ToLower(req.currency.s) == "inr" && !req.detailsReadable ==>
      r == Failure(IntentFailed)
    ensures AmountAccepted(req.amount) && req.currency.Str? && ToLower(req.currency.s) == "inr" && req.detailsReadable && gateway.Raised? ==>
      r == Failure(CreateIntentError(gateway.kind, gateway.message))
  {
    if !AmountAccepted(req.amount) then Failure(InvalidAmount)
    else if !Truthy(req.currency) then Failure(InvalidCurrency)
    else if !req.currency.Str? then Failure(IntentFailed)
    else if ToLower(req.currency.s) != "inr" then Failure(InvalidCurrency)
    else if !req.detailsReadable then Failure(IntentFailed)
    else match gateway
      case Done(created) => Success(created)
      case Raised(kind, message) => Failure(CreateIntentError(kind, message))
  }

  /** A request the server turns away never depends on what the gateway would have answered. */
  lemma RejectedBeforeGateway(req: IntentRequest, g1: Gateway<IntentCreated>, g2: Gateway<IntentCreated>)
    requires !(AmountAccepted(req.amount) && req.currency.Str? && ToLower(req.currency.s) == "inr" && req.detailsReadable)
    ensures CreatePaymentIntent(req, g1) == CreatePaymentIntent(req, g2)
    ensures CreatePaymentIntent(req, g1).Failure?
  {
  }

  /** The currency the booking page sends, in any letter case, passes the currency check. */
  lemma InrAccepted(s: string)
    requires |s| == 3 && s[0] in {'i', 'I'} && s[1] in {'n', 'N'} && s[2] in {'r', 'R'}
    ensures ToLower(s) == "inr"
  {
  }

  /** `/api/process-refund`: the refund id on success, the mapped error otherwise. */
  function ProcessRefund(gateway: Gateway<string>): (r: Result<string, HttpError>)
    ensures r.Success? <==> gateway.Done?
    ensures r.Success? ==> r.value == gateway.value
    ensures r.Failure? ==> r.error.status in {400, 401, 500}
    ensures gateway.Raised? ==> r == Failure(RefundError(gateway.kind, gateway.message))
  {
    match gateway
    case Done(refundId) => Success(refundId)
    case Raised(kind, message) => Failure(RefundError(kind, message))
  }

  /** The fields of an invoice request the endpoint checks and computes with. */
  datatype InvoiceBody = InvoiceBody(
    bookingId: Option<string>,
    invoiceId: Option<string>,
    basePrice: Option<int>,
    totalPriceINR: Option<int>,
    taxes: Option<int>)

  /** The figures and file name of a generated invoice. */
  datatype Invoice = Invoice(filename: string, basePrice: int, subtotal: int, taxes: int, total: int)

  /** A string field in a template literal: an absent field prints as "undefined". */
  function Template(v: Option<string>): string
  {
    match v
    case Some(s) => s
    case None => "undefined"
  }

  /** `x || 0` on a numeric field. */
  function OrZero(v: Option<int>): int
  {
    GetOr(v, 0)
  }

  /**
   * `/api/download-invoice`: 400 when the body is absent or its `bookingId` is missing or
   * empty; otherwise the file is `invoice-<invoiceId>.pdf` and the subtotal is the total less
   * the taxes, absent figures counting as 0.
   */
  function DownloadInvoice(body: Option<InvoiceBody>): (r: Result<Invoice, HttpError>)
    ensures r.Failure? <==> body.None? || body.value.bookingId.None? || body.value.bookingId.value == ""
    ensures r.Failure? ==> r.error == HttpError(400, "Invalid booking data")
    ensures r.Success? ==> r.value.filename == "invoice-" + Template(body.value.invoiceId) + ".pdf"
    ensures r.Success? ==> r.value.subtotal + r.value.taxes == r.value.total
    ensures r.Success? ==> r.value.total == OrZero(body.value.totalPriceINR) && r.value.taxes == OrZero(body.value.taxes)
  {
    if body.None? || body.value.bookingId.None? || body.value.bookingId.value == "" then
      Failure(HttpError(400, "Invalid booking data"))
    else
      var b := body.value;
      Success(Invoice(
        "invoice-" + Template(b.invoiceId) + ".pdf",
        OrZero(b.basePrice),
        OrZero(b.totalPriceINR) - OrZero(b.taxes),
        OrZero(b.taxes),
        OrZero(b.totalPriceINR)))
  }
}
