/**
 * The serverless payment-initiation handler
 * (`netlify/functions/initiate-payment.js`): an event in, a response out.
 * Method gate, then JSON body, then the four required fields, then the
 * payment method; for eSewa a signed gateway payload whose
 * `transaction_uuid` carries the caller's transaction id.
 */
module InitiatePayment {
  import opened Wrappers
  import opened Strings
  import opened Esewa

  /**
   * The destructured JSON body. A field is None when it is absent or null;
   * "" is present but falsy.
   */
  datatype RequestBody = RequestBody(
    amount: Option<string>,
    productName: Option<string>,
    transactionId: Option<string>,
    paymentMethod: Option<string>)  // the JSON field `method`

  /** The incoming event; `body` is None when `JSON.parse(event.body)` throws. */
  datatype Event = Event(httpMethod: string, body: Option<RequestBody>)

  /**
   * Environment configuration: `ESEWA_MERCHANT_CODE`, `ESEWA_SECRET_KEY`
   * (possibly unset) and the site origin `URL`.
   */
  datatype Config = Config(merchantCode: string, secretKey: Option<string>, siteUrl: string)

  /** The JSON carried in the response body. */
  datatype ResponseBody =
    | ErrorBody(error: string)
    | PaymentBody(success: bool, paymentUrl: string, formData: FormData)

  datatype Response = Response(statusCode: int, body: ResponseBody)

  /** All four fields are present and non-empty (the source's `!a || !b || ...` test, negated). */
  predicate Complete(b: RequestBody) {
    Truthy(b.amount) && Truthy(b.productName) && Truthy(b.transactionId) && Truthy(b.paymentMethod)
  }

  /** `exports.handler`, with `Date.now()` as `now` and HMAC-SHA256/Base64 as `sign`. */
  function Handler(config: Config, sign: Signer, event: Event, now: nat): (r: Response)
    // the method gate comes first: nothing is parsed or signed for other verbs
    ensures event.httpMethod != "POST" <==> r.statusCode == 405
    ensures r.statusCode == 405 ==> r.body == ErrorBody("Method not allowed")
    ensures r.statusCode == 400 <==>
              event.httpMethod == "POST" && event.body.Some? &&
              (!Complete(event.body.value) || event.body.value.paymentMethod != Some("esewa"))
    ensures r.statusCode == 400 && !Complete(event.body.value) ==> r.body == ErrorBody("Missing required fields")
    ensures r.statusCode == 400 && Complete(event.body.value) ==> r.body == ErrorBody("Unsupported payment method")
    // a body that does not parse, or a signing failure, is a generic 500
    ensures r.statusCode == 500 ==> r.body == ErrorBody("Internal server error")
    ensures r.statusCode in {200, 400, 405, 500}
    ensures r.statusCode == 200 <==>
              event.httpMethod == "POST" && event.body.Some? && Complete(event.body.value) &&
              event.body.value.paymentMethod == Some("esewa") && config.secretKey.Some?
    ensures r.statusCode == 200 ==>
              && r.body.PaymentBody? && r.body.success && r.body.paymentUrl == PaymentUrl
              && var fd := r.body.formData;
              && fd.amount == fd.total_amount == event.body.value.amount.value
              && fd.tax_amount == fd.product_service_charge == fd.product_delivery_charge == "0"
              && fd.transaction_uuid == TransactionUuid(now, event.body.value.transactionId.value)
              && fd.product_code == config.merchantCode
              && fd.success_url == config.siteUrl + "/success?method=esewa"
              && fd.failure_url == config.siteUrl
              && fd.signed_field_names == SignedFieldNames
              && fd.signature == sign(config.secretKey.value, SignatureMessage(fd.total_amount, fd.transaction_uuid, fd.product_code))
  {
    if event.httpMethod != "POST" then
      Response(405, ErrorBody("Method not allowed"))
    else if event.body.None? then
      Response(500, ErrorBody("Internal server error"))
    else
      var b := event.body.value;
      if !Truthy(b.amount) || !Truthy(b.productName) || !Truthy(b.transactionId) || !Truthy(b.paymentMethod) then
        Response(400, ErrorBody("Missing required fields"))
      else if b.paymentMethod.value == "esewa" then
        var transactionUuid := TransactionUuid(now, b.transactionId.value);
        var signatureString := SignatureMessage(b.amount.value, transactionUuid, config.merchantCode);
        match GenerateSignature(sign, config.secretKey, signatureString)
        case None => Response(500, ErrorBody("Internal server error"))
        case Some(signature) =>
          Response(200, PaymentBody(true, PaymentUrl,
            BuildFormData(b.amount.value, transactionUuid, config.merchantCode, config.siteUrl, signature)))
      else
        Response(400, ErrorBody("Unsupported payment method"))
  }

  /** Every payload the handler returns is accepted by the gateway holding the same secret. */
  lemma HandlerPayloadVerifies(config: Config, sign: Signer, event: Event, now: nat)
    requires Handler(config, sign, event, now).statusCode == 200
    ensures GatewayAccepts(sign, config.secretKey.value, Entries(Handler(config, sign, event, now).body.formData))
  {
    var b := event.body.value;
    var key := config.secretKey.value;
    var uuid := TransactionUuid(now, b.transactionId.value);
    var fd := Handler(config, sign, event, now).body.formData;
    assert fd == BuildFormData(b.amount.value, uuid, config.merchantCode, config.siteUrl,
                               sign(key, SignatureMessage(b.amount.value, uuid, config.merchantCode)));
    PayloadSelfConsistent(sign, key, b.amount.value, uuid, config.merchantCode, config.siteUrl);
  }

  /**
   * The `transaction_uuid` of a payload reads back as the request time
   * followed by the caller's transaction id, so it ends with `-<transactionId>`.
   */
  lemma HandlerUuidCarriesTransactionId(config: Config, sign: Signer, event: Event, now: nat)
    requires Handler(config, sign, event, now).statusCode == 200
    ensures var uuid := Handler(config, sign, event, now).body.formData.transaction_uuid;
            var id := event.body.value.transactionId.value;
            && SplitTransactionUuid(uuid) == (NatToString(now), id)
            && |uuid| > |id| && uuid[|uuid| - |id| - 1..] == "-" + id
  {
    var id := event.body.value.transactionId.value;
    var uuid := TransactionUuid(now, id);
    assert Handler(config, sign, event, now).body.formData.transaction_uuid == uuid;
    TransactionUuidRoundTrip(now, id);
    TransactionUuidEndsWithSuffix(now, id);
  }

  /** The signature depends on the request only through amount and transaction id: product name never reaches it. */
  lemma ProductNameNotSigned(config: Config, sign: Signer, now: nat, b1: RequestBody, b2: RequestBody)
    requires b1.amount == b2.amount && b1.transactionId == b2.transactionId && b1.paymentMethod == b2.paymentMethod
    requires Truthy(b1.productName) && Truthy(b2.productName)
    ensures Handler(config, sign, Event("POST", Some(b1)), now) == Handler(config, sign, Event("POST", Some(b2)), now)
  {
  }
}
