/**
 * The Express copy of the payment-initiation handler
 * (`POST /api/initiate-payment` in `server.js`). It differs from the
 * serverless copy in three ways: the UUID suffix is a fresh uuid rather
 * than the caller's transaction id, a method other than eSewa gets no
 * response at all, and the signing function it calls is never defined or
 * imported, so every eSewa request ends in the catch block.
 *
 * `RouteAsWritten` models the route as the file has it; `Route` is the
 * corrected route (the signer defined, unsupported methods answered with
 * 400 as in the serverless copy).
 */
module ExpressServer {
  import opened Wrappers
  import opened Strings
  import opened Esewa
  import InitiatePayment

  type RequestBody = InitiatePayment.RequestBody
  type Response = InitiatePayment.Response

  /** `ESEWA_MERCHANT_CODE`, `ESEWA_SECRET_KEY` and `FRONTEND_URL`. */
  datatype Config = Config(merchantCode: string, secretKey: Option<string>, frontendUrl: string)

  const InternalError: Response := InitiatePayment.Response(500, InitiatePayment.ErrorBody("Internal server error"))
  const MissingFields: Response := InitiatePayment.Response(400, InitiatePayment.ErrorBody("Missing required fields"))

  /**
   * The route as written. `now` is `Date.now()` and `freshUuid` is
   * `uuidv4()`. None means the handler returns without writing a
   * response. Calling the undefined `generateEsewaSignature` throws a
   * ReferenceError, which the catch turns into a 500.
   */
  function RouteAsWritten(config: Config, body: RequestBody, now: nat, freshUuid: string): (r: Option<Response>)
    ensures r.Some? <==> !InitiatePayment.Complete(body) || body.paymentMethod == Some("esewa")
    ensures r.Some? ==> r.value.statusCode in {400, 500}
    ensures r.Some? && r.value.statusCode == 400 <==> !InitiatePayment.Complete(body)
    ensures r.Some? && r.value.statusCode == 400 ==> r.value == MissingFields
    ensures r.Some? && r.value.statusCode == 500 ==> r.value == InternalError
  {
    if !Truthy(body.amount) || !Truthy(body.productName) || !Truthy(body.transactionId) || !Truthy(body.paymentMethod) then
      Some(MissingFields)
    else if body.paymentMethod.value == "esewa" then
      // the transaction UUID and the message are built, then the call to the
      // missing signing function throws
      Some(InternalError)
    else
      None
  }

  /** As written, no request ever gets a payment payload: the route never answers 200. */
  lemma RouteAsWrittenNeverPays(config: Config, body: RequestBody, now: nat, freshUuid: string)
    ensures var r := RouteAsWritten(config, body, now, freshUuid);
            r.None? || (r.value.statusCode != 200 && r.value.body.ErrorBody?)
  {
  }

  /** The request of the serverless scenario (amount "100.00", transaction "abc123", eSewa) gets a 500 here. */
  lemma RouteAsWrittenRejectsValidEsewa(config: Config, now: nat, freshUuid: string)
    ensures RouteAsWritten(config, InitiatePayment.RequestBody(Some("100.00"), Some("MAMATA"), Some("abc123"), Some("esewa")), now, freshUuid)
         == Some(InternalError)
  {
  }

  /** A complete request for another method is left without any response. */
  lemma RouteAsWrittenLeavesOtherMethodsHanging(config: Config, now: nat, freshUuid: string)
    ensures RouteAsWritten(config, InitiatePayment.RequestBody(Some("100.00"), Some("MAMATA"), Some("abc123"), Some("card")), now, freshUuid)
         == None
  {
  }

  /**
   * The corrected route: it signs with `sign` (the HMAC-SHA256/Base64
   * signer of the serverless copy) and answers an unsupported method with
   * 400. Its transaction UUID ends in the fresh uuid.
   */
  function Route(config: Config, sign: Signer, body: RequestBody, now: nat, freshUuid: string): (r: Response)
    ensures r.statusCode == 200 <==>
              InitiatePayment.Complete(body) && body.paymentMethod == Some("esewa") && config.secretKey.Some?
    ensures r.statusCode == 200 ==>
              && r.body.PaymentBody? && r.body.success && r.body.paymentUrl == PaymentUrl
              && var fd := r.body.formData;
              && fd.amount == fd.total_amount == body.amount.value
              && fd.tax_amount == fd.product_service_charge == fd.product_delivery_charge == "0"
              && fd.transaction_uuid == TransactionUuid(now, freshUuid)
              && fd.product_code == config.merchantCode
              && fd.success_url == config.frontendUrl + "/success?method=esewa"
              && fd.failure_url == config.frontendUrl
              && fd.signed_field_names == SignedFieldNames
              && fd.signature == sign(config.secretKey.value, SignatureMessage(fd.total_amount, fd.transaction_uuid, fd.product_code))
    ensures r.statusCode != 200 ==> r.body.ErrorBody? && r.statusCode in {400, 500}
    ensures !InitiatePayment.Complete(body) ==> r == MissingFields
    ensures InitiatePayment.Complete(body) && body.paymentMethod != Some("esewa") ==>
              r == InitiatePayment.Response(400, InitiatePayment.ErrorBody("Unsupported payment method"))
    ensures r.statusCode == 500 ==> r == InternalError
  {
    if !Truthy(body.amount) || !Truthy(body.productName) || !Truthy(body.transactionId) || !Truthy(body.paymentMethod) then
      MissingFields
    else if body.paymentMethod.value == "esewa" then
      var transactionUuid := TransactionUuid(now, freshUuid);
      var signatureString := SignatureMessage(body.amount.value, transactionUuid, config.merchantCode);
      match GenerateSignature(sign, config.secretKey, signatureString)
      case None => InternalError
      case Some(signature) =>
        InitiatePayment.Response(200, InitiatePayment.PaymentBody(true, PaymentUrl,
          BuildFormData(body.amount.value, transactionUuid, config.merchantCode, config.frontendUrl, signature)))
    else
      InitiatePayment.Response(400, InitiatePayment.ErrorBody("Unsupported payment method"))
  }

  /** The caller's transaction id never reaches the corrected route's response, beyond being required. */
  lemma RouteIgnoresTransactionId(config: Config, sign: Signer, b1: RequestBody, b2: RequestBody, now: nat, freshUuid: string)
    requires b1.amount == b2.amount && b1.productName == b2.productName && b1.paymentMethod == b2.paymentMethod
    requires Truthy(b1.transactionId) && Truthy(b2.transactionId)
    ensures Route(config, sign, b1, now, freshUuid) == Route(config, sign, b2, now, freshUuid)
  {
  }

  /**
   * The two copies agree once the serverless copy is given the fresh uuid
   * as transaction id and the same origin: the message format, the payload
   * and every status code are the same.
   */
  lemma RouteAgreesWithServerless(config: Config, sign: Signer, body: RequestBody, now: nat, freshUuid: string)
    requires Truthy(body.transactionId) && freshUuid != ""
    ensures Route(config, sign, body, now, freshUuid)
         == InitiatePayment.Handler(InitiatePayment.Config(config.merchantCode, config.secretKey, config.frontendUrl),
                                    sign,
                                    InitiatePayment.Event("POST", Some(body.(transactionId := Some(freshUuid)))),
                                    now)
  {
    var b' := body.(transactionId := Some(freshUuid));
    assert InitiatePayment.Complete(b') <==> InitiatePayment.Complete(body);
  }

  /** Every payload of the corrected route is accepted by the gateway holding the same secret. */
  lemma RoutePayloadVerifies(config: Config, sign: Signer, body: RequestBody, now: nat, freshUuid: string)
    requires Route(config, sign, body, now, freshUuid).statusCode == 200
    ensures GatewayAccepts(sign, config.secretKey.value, Entries(Route(config, sign, body, now, freshUuid).body.formData))
  {
    var key := config.secretKey.value;
    var uuid := TransactionUuid(now, freshUuid);
    assert Route(config, sign, body, now, freshUuid).body.formData
        == BuildFormData(body.amount.value, uuid, config.merchantCode, config.frontendUrl,
                         sign(key, SignatureMessage(body.amount.value, uuid, config.merchantCode)));
    PayloadSelfConsistent(sign, key, body.amount.value, uuid, config.merchantCode, config.frontendUrl);
  }
}
