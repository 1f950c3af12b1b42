/**
 * The checkout page (`src/pages/Checkout.tsx`): a two-step form. Step 1
 * collects the shipping details; submitting step 2 either starts an eSewa
 * payment or places the order directly. Starting an eSewa payment saves
 * the pending order first, then asks the initiation function for a signed
 * payload and posts it to the gateway as a form of hidden inputs, one per
 * payload field. A failure leaves the page where it was.
 *
 * Money is integer paisa (hundredths of a rupee); `toFixed(2)` is
 * `FormatCents`. `generateUUID()`, `import.meta.env.DEV`,
 * `window.location.origin` and the outcome of the `fetch` are parameters.
 */
module Checkout {
  import opened Wrappers
  import opened Strings
  import opened Esewa
  import InitiatePayment

  // ---------------------------------------------------------------------
  // Amounts
  // ---------------------------------------------------------------------

  /** `(cents / 100).toFixed(2)` for a non-negative whole number of cents. */
  function FormatCents(cents: nat): (r: string)
    ensures |r| >= 4 && r[|r| - 3] == '.'
    ensures AllDigits(r[..|r| - 3]) && AllDigits(r[|r| - 2..])
  {
    NatToString(cents / 100) + "." + [DigitChar(cents % 100 / 10), DigitChar(cents % 10)]
  }

  /** Reads a `toFixed(2)` rendering back into cents; None for any other shape. */
  function ParseCents(s: string): (r: Option<nat>)
    ensures r.Some? ==> |s| >= 4 && s[|s| - 3] == '.'
  {
    if |s| >= 4 && s[|s| - 3] == '.' && AllDigits(s[..|s| - 3]) && AllDigits(s[|s| - 2..]) then
      Some(ParseNat(s[..|s| - 3]) * 100 + ParseNat(s[|s| - 2..]))
    else
      None
  }

  /** The rendered amount reads back as the same number of cents. */
  lemma FormatCentsRoundTrip(cents: nat)
    ensures ParseCents(FormatCents(cents)) == Some(cents)
  {
    var q, r := cents / 100, cents % 100;
    var whole := NatToString(q);
    var frac := [DigitChar(r / 10), DigitChar(r % 10)];
    var s := FormatCents(cents);
    assert s == whole + "." + frac;
    assert s[..|s| - 3] == whole;
    assert s[|s| - 2..] == frac;
    ParseTwoDigits(r / 10, r % 10);
    ParseNatToString(q);
    assert 10 * (r / 10) + r % 10 == r;
    assert q * 100 + r == cents;
  }

  // ---------------------------------------------------------------------
  // The hidden form
  // ---------------------------------------------------------------------

  /** `<input type="hidden" name=… value=…>`. */
  datatype HiddenInput = HiddenInput(name: string, value: string)

  /** A form element appended to the document and submitted. */
  datatype HtmlForm = HtmlForm(httpMethod: string, action: string, inputs: seq<HiddenInput>)

  /** The name/value pairs a submitted form posts, in document order. */
  function PostedPairs(inputs: seq<HiddenInput>): (r: seq<(string, string)>)
    ensures |r| == |inputs|
    ensures forall i :: 0 <= i < |inputs| ==> r[i] == (inputs[i].name, inputs[i].value)
  {
    if |inputs| == 0 then [] else PostedPairs(inputs[..|inputs| - 1]) + [(inputs[|inputs| - 1].name, inputs[|inputs| - 1].value)]
  }

  /**
   * Creates a POST form to `action` and appends one hidden input per entry
   * of `Object.entries(formData)`, in order: the form posts exactly the
   * entries it was built from.
   */
  method BuildHiddenForm(action: string, entries: seq<(string, string)>) returns (form: HtmlForm)
    ensures form.httpMethod == "POST" && form.action == action
    ensures |form.inputs| == |entries|
    ensures forall i :: 0 <= i < |entries| ==> form.inputs[i] == HiddenInput(entries[i].0, entries[i].1)
    ensures PostedPairs(form.inputs) == entries
  {
    var inputs: seq<HiddenInput> := [];
    var k := 0;
    while k < |entries|
      invariant 0 <= k <= |entries|
      invariant |inputs| == k
      invariant forall i :: 0 <= i < k ==> inputs[i] == HiddenInput(entries[i].0, entries[i].1)
    {
      var (key, value) := entries[k];
      inputs := inputs + [HiddenInput(key, value)];
      k := k + 1;
    }
    form := HtmlForm("POST", action, inputs);
  }

  // ---------------------------------------------------------------------
  // The payment request and its outcome
  // ---------------------------------------------------------------------

  /** The JSON body posted to the initiation function. */
  datatype InitRequest = InitRequest(amount: string, productName: string, transactionId: string, paymentMethod: string)

  /** The production request for a cart total and a freshly generated id. */
  function EsewaRequest(totalCents: nat, generatedId: string): (r: InitRequest)
    ensures ParseCents(r.amount) == Some(totalCents)
    ensures r.productName == "MAMATA" && r.transactionId == generatedId && r.paymentMethod == "esewa"
  {
    FormatCentsRoundTrip(totalCents);
    InitRequest(FormatCents(totalCents), "MAMATA", generatedId, "esewa")
  }

  /** The JSON answer as the page reads it: `data.success`, `data.paymentUrl`, `Object.entries(data.formData)`. */
  datatype PaymentJson = PaymentJson(success: bool, paymentUrl: string, formData: seq<(string, string)>)

  /**
   * How the `fetch` ended: it threw, or a response arrived with a status
   * and a body that is JSON (Some) or not (None).
   */
  datatype FetchOutcome =
    | NetworkFailure
    | Received(status: int, json: Option<PaymentJson>)

  /**
   * The production path's decision: the action and entries of the form to
   * submit, or None when the page takes the failure path (the fetch threw,
   * the status is not 2xx, the body is not JSON, or `success` is false).
   */
  function FormToSubmit(outcome: FetchOutcome): (r: Option<(string, seq<(string, string)>)>)
    ensures r.Some? <==>
              outcome.Received? && 200 <= outcome.status <= 299 && outcome.json.Some? && outcome.json.value.success
    ensures r.Some? ==> r.value == (outcome.json.value.paymentUrl, outcome.json.value.formData)
  {
    match outcome
    case NetworkFailure => None
    case Received(status, json) =>
      // `response.ok` is a 2xx status; the body is read only after that test
      if !(200 <= status <= 299) then None
      else if json.None? then None
      else if !json.value.success then None
      else Some((json.value.paymentUrl, json.value.formData))
  }

  /** The initiation function's answer as it reaches the page. */
  function AsFetchOutcome(r: InitiatePayment.Response): FetchOutcome {
    match r.body
    case PaymentBody(success, paymentUrl, fd) => Received(r.statusCode, Some(PaymentJson(success, paymentUrl, Entries(fd))))
    // an error body has no `success` field, which reads as falsy
    case ErrorBody(_) => Received(r.statusCode, Some(PaymentJson(false, "", [])))
  }

  /** The request as the initiation function destructures it. */
  function AsHandlerBody(req: InitRequest): InitiatePayment.RequestBody {
    InitiatePayment.RequestBody(Some(req.amount), Some(req.productName), Some(req.transactionId), Some(req.paymentMethod))
  }

  /**
   * End to end: when the initiation function holds a secret key, the
   * request the page sends for any cart total and any non-empty id is
   * answered with a payload; the page then submits a form to the gateway
   * that the gateway accepts, whose amount is the cart total and whose
   * transaction uuid ends with the page's id.
   */
  lemma CheckoutRequestIsPaid(config: InitiatePayment.Config, sign: Signer, now: nat, totalCents: nat, generatedId: string)
    requires config.secretKey.Some? && generatedId != ""
    ensures var event := InitiatePayment.Event("POST", Some(AsHandlerBody(EsewaRequest(totalCents, generatedId))));
            var response := InitiatePayment.Handler(config, sign, event, now);
            var toSubmit := FormToSubmit(AsFetchOutcome(response));
            && response.statusCode == 200
            && toSubmit == Some((PaymentUrl, Entries(response.body.formData)))
            && GatewayAccepts(sign, config.secretKey.value, toSubmit.value.1)
            && Lookup(toSubmit.value.1, "total_amount") == Some(FormatCents(totalCents))
            && Lookup(toSubmit.value.1, "transaction_uuid") == Some(TransactionUuid(now, generatedId))
  {
    var event := InitiatePayment.Event("POST", Some(AsHandlerBody(EsewaRequest(totalCents, generatedId))));
    var response := InitiatePayment.Handler(config, sign, event, now);
    assert response.statusCode == 200;
    InitiatePayment.HandlerPayloadVerifies(config, sign, event, now);
    TotalAmountPosted(response.body.formData);
    TransactionUuidPosted(response.body.formData);
  }

  /** Every error answer of the initiation function sends the page down the failure path. */
  lemma HandlerErrorIsFailurePath(r: InitiatePayment.Response)
    requires r.body.ErrorBody?
    ensures FormToSubmit(AsFetchOutcome(r)).None?
  {
  }

  // ---------------------------------------------------------------------
  // The development mock
  // ---------------------------------------------------------------------

  /** The gateway's test merchant code used by the development mock. */
  const TestMerchantCode: string := "EPAYTEST"

  /** The mock `formData` of development mode, in its declaration order. */
  function MockFormEntries(amount: string, pid: string, origin: string): seq<(string, string)> {
    [ ("amt", amount), ("psc", "0"), ("pdc", "0"), ("txAmt", "0"), ("tAmt", amount),
      ("pid", pid), ("scd", TestMerchantCode),
      ("su", origin + "/payment/success"), ("fu", origin + "/payment/failure") ]
  }

  /** The mock charges no tax or fees: its total `tAmt` is its amount `amt`, the amount given. */
  lemma MockTotalIsAmount(amount: string, pid: string, origin: string)
    ensures var e := MockFormEntries(amount, pid, origin);
            Lookup(e, "amt") == Some(amount) && Lookup(e, "tAmt") == Lookup(e, "amt")
  {
    var e := MockFormEntries(amount, pid, origin);
    LookupAt(e, 0, "amt");
    LookupAt(e, 4, "tAmt");
  }

  /** The mock names the gateway's test merchant. */
  lemma MockUsesTestMerchant(amount: string, pid: string, origin: string)
    ensures Lookup(MockFormEntries(amount, pid, origin), "scd") == Some(TestMerchantCode)
  {
    LookupAt(MockFormEntries(amount, pid, origin), 6, "scd");
  }

  // ---------------------------------------------------------------------
  // The page
  // ---------------------------------------------------------------------

  /** A cart line as the cart provides it; `price` in paisa. */
  datatype CartItem = CartItem(id: string, name: string, price: nat, image: string, quantity: nat)

  /** What is saved under `'pendingOrder'` before leaving for the gateway. */
  datatype PendingOrder = PendingOrder(items: seq<CartItem>, shippingDetails: map<string, string>, amount: nat)

  /** The shipping form's initial contents. */
  const InitialShipping: map<string, string> :=
    map["firstName" := "", "lastName" := "", "email" := "", "address" := "", "city" := "",
        "state" := "", "zipCode" := "", "country" := "Nepal", "paymentMethod" := "credit"]

  const FailureAlert: string := "Failed to initiate payment. Please try again."
  const SuccessAlert: string := "Order placed successfully!"
  const ConfirmationRoute: string := "/order-confirmation"

  class CheckoutPage {
    /** The cart (`items`, `totalPrice` of the cart context). */
    var items: seq<CartItem>
    var totalPrice: nat
    /** The shipping form state (`formData`), keyed by input name. */
    var shipping: map<string, string>
    var step: int
    var isProcessing: bool
    /** `localStorage['pendingOrder']`. */
    var pendingOrder: Option<PendingOrder>
    /** Bodies posted to the initiation function, oldest first. */
    var requests: seq<InitRequest>
    /** Forms submitted to the gateway, oldest first. */
    var submitted: seq<HtmlForm>
    /** Alerts shown, oldest first. */
    var alerts: seq<string>
    /** The current route. */
    var location: string

    /** The form always has a payment method (inputs only ever overwrite keys). */
    predicate Valid()
      reads this
    {
      "paymentMethod" in shipping
    }

    /** The Back and Place Order buttons are disabled while a payment is being started. */
    predicate ButtonsDisabled()
      reads this
    {
      isProcessing
    }

    constructor (cartItems: seq<CartItem>, cartTotal: nat, here: string)
      ensures Valid()
      ensures items == cartItems && totalPrice == cartTotal
      ensures shipping == InitialShipping && shipping["paymentMethod"] == "credit" && shipping["country"] == "Nepal"
      ensures step == 1 && !isProcessing && pendingOrder.None?
      ensures requests == [] && submitted == [] && alerts == [] && location == here
    {
      items := cartItems;
      totalPrice := cartTotal;
      shipping := InitialShipping;
      step := 1;
      isProcessing := false;
      pendingOrder := None;
      requests := [];
      submitted := [];
      alerts := [];
      location := here;
    }

    /** `handleInputChange`: the named field takes the new value, the others keep theirs. */
    method ChangeInput(name: string, value: string)
      requires Valid()
      modifies this
      ensures Valid()
      ensures shipping == old(shipping)[name := value]
      ensures forall k :: k in old(shipping) && k != name ==> k in shipping && shipping[k] == old(shipping)[k]
      ensures items == old(items) && totalPrice == old(totalPrice) && step == old(step)
      ensures isProcessing == old(isProcessing) && pendingOrder == old(pendingOrder)
      ensures requests == old(requests) && submitted == old(submitted) && alerts == old(alerts) && location == old(location)
    {
      shipping := shipping[name := value];
    }

    /** The Back button: returns to step 1 unless it is disabled. */
    method ClickBack()
      requires Valid()
      modifies this
      ensures Valid()
      ensures step == (if old(isProcessing) then old(step) else 1)
      ensures items == old(items) && totalPrice == old(totalPrice) && shipping == old(shipping)
      ensures isProcessing == old(isProcessing) && pendingOrder == old(pendingOrder)
      ensures requests == old(requests) && submitted == old(submitted) && alerts == old(alerts) && location == old(location)
    {
      if !isProcessing {
        step := 1;
      }
    }

    /**
     * `handleSubmit`. On step 1 it only advances to step 2. On step 2 an
     * eSewa payment is started, or any other method places the order:
     * alert, cart cleared, navigation to the confirmation page.
     */
    method HandleSubmit(dev: bool, origin: string, generatedId: string, outcome: FetchOutcome)
      requires Valid()
      modifies this
      ensures Valid() && shipping == old(shipping)
      ensures old(step) == 1 ==>
                && step == 2 && items == old(items) && totalPrice == old(totalPrice)
                && isProcessing == old(isProcessing) && pendingOrder == old(pendingOrder)
                && requests == old(requests) && submitted == old(submitted)
                && alerts == old(alerts) && location == old(location)
      ensures old(step) != 1 && old(shipping)["paymentMethod"] != "esewa" ==>
                && step == old(step) && items == [] && totalPrice == 0
                && alerts == old(alerts) + [SuccessAlert] && location == ConfirmationRoute
                && isProcessing == old(isProcessing) && pendingOrder == old(pendingOrder)
                && requests == old(requests) && submitted == old(submitted)
      ensures old(step) != 1 && old(shipping)["paymentMethod"] == "esewa" ==>
                && step == old(step) && items == old(items) && totalPrice == old(totalPrice)
                && location == old(location)
                && pendingOrder == Some(PendingOrder(old(items), old(shipping), old(totalPrice)))
                && EsewaStarted(dev, origin, generatedId, outcome, old(totalPrice), old(requests), old(submitted), old(alerts))
    {
      if step == 1 {
        step := 2;
      } else if shipping["paymentMethod"] == "esewa" {
        InitiateEsewaPayment(dev, origin, generatedId, outcome);
      } else {
        alerts := alerts + [SuccessAlert];
        // the cart context's `clearCart`
        items := [];
        totalPrice := 0;
        location := ConfirmationRoute;
      }
    }

    /**
     * The Place Order button of step 2, the form's only submit control
     * there: while a payment is being started it is disabled and nothing
     * happens; otherwise it submits the form.
     */
    method ClickPlaceOrder(dev: bool, origin: string, generatedId: string, outcome: FetchOutcome)
      requires Valid() && step != 1
      modifies this
      ensures Valid() && shipping == old(shipping) && step == old(step)
      ensures old(ButtonsDisabled()) ==>
                && items == old(items) && totalPrice == old(totalPrice) && isProcessing == old(isProcessing)
                && pendingOrder == old(pendingOrder) && requests == old(requests) && submitted == old(submitted)
                && alerts == old(alerts) && location == old(location)
      ensures !old(ButtonsDisabled()) && old(shipping)["paymentMethod"] != "esewa" ==>
                && items == [] && totalPrice == 0
                && alerts == old(alerts) + [SuccessAlert] && location == ConfirmationRoute
                && isProcessing == old(isProcessing)
                && pendingOrder == old(pendingOrder) && requests == old(requests) && submitted == old(submitted)
      ensures !old(ButtonsDisabled()) && old(shipping)["paymentMethod"] == "esewa" ==>
                && items == old(items) && totalPrice == old(totalPrice) && location == old(location)
                && pendingOrder == Some(PendingOrder(old(items), old(shipping), old(totalPrice)))
                && EsewaStarted(dev, origin, generatedId, outcome, old(totalPrice), old(requests), old(submitted), old(alerts))
    {
      if !isProcessing {
        HandleSubmit(dev, origin, generatedId, outcome);
      }
    }

    /**
     * What starting an eSewa payment leaves behind, given the history
     * before it: in development the mock form is submitted without a
     * request; in production exactly one request is sent, then either the
     * returned payload is submitted as a form (the page stays busy while the
     * browser leaves) or an alert is shown and the page is usable again.
     */
    ghost predicate EsewaStarted(dev: bool, origin: string, generatedId: string, outcome: FetchOutcome, total: nat,
                                 requests0: seq<InitRequest>, submitted0: seq<HtmlForm>, alerts0: seq<string>)
      reads this
    {
      if dev then
        && isProcessing && requests == requests0 && alerts == alerts0
        && |submitted| == |submitted0| + 1 && submitted[..|submitted0|] == submitted0
        && var form := submitted[|submitted0|];
        && form.httpMethod == "POST" && form.action == PaymentUrl
        && PostedPairs(form.inputs) == MockFormEntries(FormatCents(total), generatedId, origin)
      else
        && requests == requests0 + [EsewaRequest(total, generatedId)]
        && match FormToSubmit(outcome)
           case Some((action, entries)) =>
             && isProcessing && alerts == alerts0
             && |submitted| == |submitted0| + 1 && submitted[..|submitted0|] == submitted0
             && var form := submitted[|submitted0|];
             && form.httpMethod == "POST" && form.action == action && PostedPairs(form.inputs) == entries
           case None =>
             !isProcessing && submitted == submitted0 && alerts == alerts0 + [FailureAlert]
    }

    /** `initiateEsewaPayment`: busy flag and pending order first, then the mock or the request. */
    method InitiateEsewaPayment(dev: bool, origin: string, generatedId: string, outcome: FetchOutcome)
      requires Valid()
      modifies this
      ensures Valid()
      ensures items == old(items) && totalPrice == old(totalPrice) && shipping == old(shipping)
      ensures step == old(step) && location == old(location)
      ensures pendingOrder == Some(PendingOrder(old(items), old(shipping), old(totalPrice)))
      ensures EsewaStarted(dev, origin, generatedId, outcome, old(totalPrice), old(requests), old(submitted), old(alerts))
    {
      isProcessing := true;
      pendingOrder := Some(PendingOrder(items, shipping, totalPrice));
      if dev {
        var form := BuildHiddenForm(PaymentUrl, MockFormEntries(FormatCents(totalPrice), generatedId, origin));
        submitted := submitted + [form];
        return;
      }
      requests := requests + [EsewaRequest(totalPrice, generatedId)];
      match FormToSubmit(outcome)
      case Some((action, entries)) =>
        var form := BuildHiddenForm(action, entries);
        submitted := submitted + [form];
      case None =>
        alerts := alerts + [FailureAlert];
        isProcessing := false;
    }
  }
}
