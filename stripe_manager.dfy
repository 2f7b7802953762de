/**
 * The Stripe payment manager: which connected account a payment is tied
 * to, how the fee is split between the marketplace and the restaurant
 * (direct charge with an application fee, or destination charge with a
 * transfer), and the requests sent to the payment processor to create,
 * confirm, authorize, capture and refund.
 *
 * The processor's SDK is a `Gateway` object that records every request it
 * receives and keeps, per charge, whether it has been captured.
 */
module Stripe {
  import opened Values

  // ---------------------------------------------------------------------
  // Entities read by the manager
  // ---------------------------------------------------------------------

  datatype Contract = Contract(restaurantPaysStripeFee: bool)

  datatype StripeAccount = StripeAccount(stripeUserId: string)

  /** A restaurant has at most one connected account per mode (live or test). */
  datatype Restaurant = Restaurant(liveAccount: Option<StripeAccount>, testAccount: Option<StripeAccount>, contract: Contract)
  {
    function StripeAccountFor(livemode: bool): Option<StripeAccount>
    {
      if livemode then liveAccount else testAccount
    }
  }

  /** An order as the manager sees it; an order without a restaurant is a cart. */
  datatype Order = Order(number: string, restaurant: Option<Restaurant>, total: int, feeTotal: int)

  /** A payment record; only the connected account id is ever changed by the manager. */
  class StripePayment {
    const order: Order
    const amount: int
    const currencyCode: string
    const paymentMethod: Option<string>
    const stripeToken: Option<string>
    const paymentIntent: Option<string>
    const charge: Option<string>
    var stripeUserId: Option<string>

    constructor (order: Order, amount: int, currencyCode: string, paymentMethod: Option<string>,
                 stripeToken: Option<string>, paymentIntent: Option<string>, charge: Option<string>)
      ensures this.order == order && this.amount == amount && this.currencyCode == currencyCode
      ensures this.paymentMethod == paymentMethod && this.stripeToken == stripeToken
      ensures this.paymentIntent == paymentIntent && this.charge == charge
      ensures stripeUserId == None
    {
      this.order := order;
      this.amount := amount;
      this.currencyCode := currencyCode;
      this.paymentMethod := paymentMethod;
      this.stripeToken := stripeToken;
      this.paymentIntent := paymentIntent;
      this.charge := charge;
      stripeUserId := None;
    }
  }

  // ---------------------------------------------------------------------
  // The payment processor
  // ---------------------------------------------------------------------

  /** A request received by the processor: its parameters and its request options. */
  datatype Request =
    | CreatePaymentIntent(payload: PhpArray, options: PhpArray)
    | ConfirmPaymentIntent(intent: string, options: PhpArray)
    | CapturePaymentIntent(intentId: string, options: PhpArray, params: PhpArray)
    | CreateCharge(params: PhpArray, options: PhpArray)
    | CaptureCharge(chargeId: string, options: PhpArray)
    | CreateRefund(args: PhpArray, options: PhpArray)

  /**
   * The processor's SDK. `apiKey` is the process-wide key the SDK uses;
   * `sent` is every request received, in order; `capturedCharges` is the
   * set of charges the processor reports as captured.
   */
  class Gateway {
    var apiKey: string
    var sent: seq<Request>
    var capturedCharges: set<string>

    constructor ()
      ensures apiKey == "" && sent == [] && capturedCharges == {}
    {
      apiKey := "";
      sent := [];
      capturedCharges := {};
    }

    method SetApiKey(key: string)
      modifies this`apiKey
      ensures apiKey == key
    {
      apiKey := key;
    }

    /** A request whose only effect on the processor that the model tracks is that it was received. */
    method Send(request: Request)
      requires !request.CaptureCharge?
      modifies this`sent
      ensures sent == old(sent) + [request]
    {
      sent := sent + [request];
    }

    /** The `captured` attribute of a retrieved charge. */
    method IsCaptured(chargeId: string) returns (captured: bool)
      ensures captured <==> chargeId in capturedCharges
    {
      captured := chargeId in capturedCharges;
    }

    method CaptureCharge(chargeId: string, options: PhpArray)
      modifies this`sent, this`capturedCharges
      ensures sent == old(sent) + [Request.CaptureCharge(chargeId, options)]
      ensures capturedCharges == old(capturedCharges) + {chargeId}
    {
      sent := sent + [Request.CaptureCharge(chargeId, options)];
      capturedCharges := capturedCharges + {chargeId};
    }
  }

  // ---------------------------------------------------------------------
  // Request construction (pure)
  // ---------------------------------------------------------------------

  const AlreadyCaptured := "Charge already captured"
  const NoToken := "No Stripe token provided"
  /** The SDK's refusal to retrieve an object without an id. */
  const MissingId := "Could not determine which URL to request"

  /** ASCII lower-casing, as `strtolower` does. */
  function LowerChar(c: char): char
  {
    if 'A' <= c <= 'Z' then (c as int + 32) as char else c
  }

  function ToLower(s: string): (r: string)
    ensures |r| == |s|
    ensures forall i :: 0 <= i < |s| ==> r[i] == LowerChar(s[i])
  {
    if s == [] then [] else [LowerChar(s[0])] + ToLower(s[1..])
  }

  /** Lower-casing twice is lower-casing once, so the currency sent is already canonical. */
  lemma ToLowerIdempotent(s: string)
    ensures ToLower(ToLower(s)) == ToLower(s)
    ensures forall i :: 0 <= i < |s| ==> !('A' <= ToLower(s)[i] <= 'Z')
  {
    var once := ToLower(s);
    forall i | 0 <= i < |s|
      ensures ToLower(once)[i] == once[i] && !('A' <= once[i] <= 'Z')
    {
      LowerCharIdempotent(s[i]);
    }
  }

  lemma LowerCharIdempotent(c: char)
    ensures LowerChar(LowerChar(c)) == LowerChar(c)
    ensures !('A' <= LowerChar(c) <= 'Z')
  {
  }

  function Description(orderNumber: string): string
  {
    "Order " + orderNumber
  }

  /**
   * The account id `configurePayment` leaves on a payment whose id was
   * `current`: the restaurant's account for the current mode when the
   * restaurant pays the processor's fee (direct charge); otherwise `current`.
   */
  function ConfiguredUserId(current: Option<string>, order: Order, livemode: bool): (r: Option<string>)
    ensures order.restaurant.None? ==> r == current
    ensures order.restaurant.Some? && order.restaurant.value.StripeAccountFor(livemode).Some?
            && order.restaurant.value.contract.restaurantPaysStripeFee
            ==> r == Some(order.restaurant.value.StripeAccountFor(livemode).value.stripeUserId)
    ensures r != current ==> order.restaurant.Some? && order.restaurant.value.contract.restaurantPaysStripeFee
                             && order.restaurant.value.StripeAccountFor(livemode).Some?
  {
    match order.restaurant
    case None => current
    case Some(restaurant) =>
      var account := restaurant.StripeAccountFor(livemode);
      if account.Some? && restaurant.contract.restaurantPaysStripeFee then Some(account.value.stripeUserId) else current
  }

  /** The request options: the connected account the request acts on, if the payment has one. */
  function StripeOptions(stripeUserId: Option<string>): (options: PhpArray)
    ensures "stripe_account" in options <==> stripeUserId.Some?
    ensures options.Keys <= {"stripe_account"}
    ensures stripeUserId.Some? ==> options["stripe_account"] == Str(stripeUserId.value)
  {
    match stripeUserId
    case None => map[]
    case Some(id) => map["stripe_account" := Str(id)]
  }

  /** The destination-charge transfer: the restaurant receives the total less the marketplace's fee. */
  function TransferData(destination: string, order: Order): Value
  {
    Dict(map["destination" := Str(destination), "amount" := Int(order.total - order.feeTotal)])
  }

  /** The fee-split attributes for a payment tied to a connected account. */
  function FeeAttributes(restaurant: Restaurant, order: Order, stripeUserId: Option<string>): PhpArray
  {
    match stripeUserId
    case None => map[]
    case Some(id) =>
      if restaurant.contract.restaurantPaysStripeFee then map["application_fee_amount" := Int(order.feeTotal)]
      else map["transfer_data" := TransferData(id, order)]
  }

  /**
   * `configureCreateIntentPayload`: the payload unchanged for a cart or a
   * payment without a connected account; otherwise the payload plus exactly
   * one fee-split attribute, merged by array union so that no key of the
   * payload is overwritten.
   */
  function ConfigureCreateIntentPayload(order: Order, stripeUserId: Option<string>, payload: PhpArray): (r: PhpArray)
    ensures order.restaurant.None? || stripeUserId.None? ==> r == payload
    ensures forall k :: k in payload ==> k in r && r[k] == payload[k]
    ensures order.restaurant.Some? && stripeUserId.Some? && order.restaurant.value.contract.restaurantPaysStripeFee ==>
              r.Keys == payload.Keys + {"application_fee_amount"}
              && ("application_fee_amount" !in payload ==> r["application_fee_amount"] == Int(order.feeTotal))
    ensures order.restaurant.Some? && stripeUserId.Some? && !order.restaurant.value.contract.restaurantPaysStripeFee ==>
              r.Keys == payload.Keys + {"transfer_data"}
              && ("transfer_data" !in payload ==> r["transfer_data"] == TransferData(stripeUserId.value, order))
  {
    match order.restaurant
    case None => payload
    case Some(restaurant) => ArrayUnion(payload, FeeAttributes(restaurant, order, stripeUserId))
  }

  /** The payload `createIntent` starts from, before the fee split. */
  function IntentBasePayload(amount: int, currencyCode: string, orderNumber: string,
                             paymentMethod: Option<string>, automaticCapture: bool): PhpArray
  {
    var payload := map[
      "amount" := Int(amount),
      "currency" := Str(ToLower(currencyCode)),
      "description" := Str(Description(orderNumber)),
      "payment_method" := StrOrNull(paymentMethod),
      "confirmation_method" := Str("manual"),
      "confirm" := Bool(true)];
    if automaticCapture then payload else payload["capture_method" := Str("manual")]
  }

  /**
   * The request `createIntent` sends for a payment whose account id was
   * `userIdBefore` on entry: the payment is configured first, then the
   * payload and the options are built from the configured id.
   */
  function IntentRequest(order: Order, amount: int, currencyCode: string, paymentMethod: Option<string>,
                         userIdBefore: Option<string>, livemode: bool, automaticCapture: bool): Request
  {
    var userId := ConfiguredUserId(userIdBefore, order, livemode);
    CreatePaymentIntent(
      ConfigureCreateIntentPayload(order, userId,
        IntentBasePayload(amount, currencyCode, order.number, paymentMethod, automaticCapture)),
      StripeOptions(userId))
  }

  /** The charge parameters `authorize` sends, and the account it sets on the payment. */
  function AuthorizeRequest(order: Order, restaurant: Restaurant, amount: int, currencyCode: string,
                            token: string, livemode: bool): Request
  {
    var params := map[
      "amount" := Int(amount),
      "currency" := Str(ToLower(currencyCode)),
      "source" := Str(token),
      "description" := Str(Description(order.number)),
      "capture" := Bool(false)];
    match restaurant.StripeAccountFor(livemode)
    case None => CreateCharge(params, map[])
    case Some(account) =>
      if restaurant.contract.restaurantPaysStripeFee then
        CreateCharge(params["application_fee" := Int(order.feeTotal)],
                     map["stripe_account" := Str(account.stripeUserId)])
      else
        CreateCharge(params["destination" := Dict(map["account" := Str(account.stripeUserId),
                                                      "amount" := Int(order.total - order.feeTotal)])],
                     map[])
  }

  /**
   * The refund arguments: the charge and the application-fee flag always;
   * the amount only when one is given and it differs from the payment's
   * amount (otherwise the processor refunds the whole charge).
   */
  function RefundArgs(charge: Option<string>, paymentAmount: int, amount: Option<int>, refundApplicationFee: bool): (args: PhpArray)
    ensures args.Keys == {"charge", "refund_application_fee"}
                         + (if amount.Some? && amount.value != paymentAmount then {"amount"} else {})
    ensures args["charge"] == StrOrNull(charge)
    ensures args["refund_application_fee"] == Bool(refundApplicationFee)
    ensures "amount" in args ==> args["amount"] == Int(amount.value)
  {
    var args := map["charge" := StrOrNull(charge)];
    var args := if amount.Some? && amount.value != paymentAmount then args["amount" := Int(amount.value)] else args;
    args["refund_application_fee" := Bool(refundApplicationFee)]
  }

  // ---------------------------------------------------------------------
  // Properties of the requests
  // ---------------------------------------------------------------------

  /**
   * Whatever the fee split adds, the intent payload always carries the
   * base keys with their base values, and asks for manual capture exactly
   * when automatic capture is off.
   */
  lemma IntentPayloadKeepsBase(order: Order, amount: int, currencyCode: string, paymentMethod: Option<string>,
                               userIdBefore: Option<string>, livemode: bool, automaticCapture: bool)
    ensures var payload := IntentRequest(order, amount, currencyCode, paymentMethod, userIdBefore, livemode, automaticCapture).payload;
            && payload["amount"] == Int(amount)
            && payload["currency"] == Str(ToLower(currencyCode))
            && payload["description"] == Str("Order " + order.number)
            && payload["payment_method"] == StrOrNull(paymentMethod)
            && payload["confirmation_method"] == Str("manual")
            && payload["confirm"] == Bool(true)
            && ("capture_method" in payload <==> !automaticCapture)
            && (!automaticCapture ==> payload["capture_method"] == Str("manual"))
  {
    var userId := ConfiguredUserId(userIdBefore, order, livemode);
    var base := IntentBasePayload(amount, currencyCode, order.number, paymentMethod, automaticCapture);
    IntentBasePayloadKeys(amount, currencyCode, order.number, paymentMethod, automaticCapture);
    assert |"capture_method"| != |"application_fee_amount"| && |"capture_method"| != |"transfer_data"|;
    assert "capture_method" in ConfigureCreateIntentPayload(order, userId, base) <==> "capture_method" in base;
  }

  lemma IntentBasePayloadKeys(amount: int, currencyCode: string, orderNumber: string,
                              paymentMethod: Option<string>, automaticCapture: bool)
    ensures var base := IntentBasePayload(amount, currencyCode, orderNumber, paymentMethod, automaticCapture);
            && base.Keys == {"amount", "currency", "description", "payment_method", "confirmation_method", "confirm"}
                            + (if automaticCapture then {} else {"capture_method"})
            && base["amount"] == Int(amount)
            && base["currency"] == Str(ToLower(currencyCode))
            && base["description"] == Str("Order " + orderNumber)
            && base["payment_method"] == StrOrNull(paymentMethod)
            && base["confirmation_method"] == Str("manual")
            && base["confirm"] == Bool(true)
            && (!automaticCapture ==> base["capture_method"] == Str("manual"))
  {
  }

  /**
   * `createIntent` on a payment that has no account id yet never produces a
   * destination charge: `configurePayment` only sets the id in the
   * restaurant-pays-fee mode, and the transfer is only built when the
   * restaurant does not pay the fee.
   */
  lemma FreshPaymentNeverTransfers(order: Order, amount: int, currencyCode: string, paymentMethod: Option<string>,
                                   livemode: bool, automaticCapture: bool)
    ensures "transfer_data" !in IntentRequest(order, amount, currencyCode, paymentMethod, None, livemode, automaticCapture).payload
  {
    var userId := ConfiguredUserId(None, order, livemode);
    var base := IntentBasePayload(amount, currencyCode, order.number, paymentMethod, automaticCapture);
    assert "transfer_data" !in base;
    if order.restaurant.Some? && userId.Some? {
      assert order.restaurant.value.contract.restaurantPaysStripeFee;
    }
  }

  /**
   * The direct charge: when the restaurant has an account for the current
   * mode and pays the fee, the intent is created on the restaurant's
   * account and the marketplace keeps `feeTotal` as application fee.
   */
  lemma DirectChargeIntent(order: Order, amount: int, currencyCode: string, paymentMethod: Option<string>,
                           userIdBefore: Option<string>, livemode: bool, automaticCapture: bool)
    requires order.restaurant.Some? && order.restaurant.value.StripeAccountFor(livemode).Some?
    requires order.restaurant.value.contract.restaurantPaysStripeFee
    ensures var request := IntentRequest(order, amount, currencyCode, paymentMethod, userIdBefore, livemode, automaticCapture);
            var id := order.restaurant.value.StripeAccountFor(livemode).value.stripeUserId;
            && request.options == map["stripe_account" := Str(id)]
            && request.payload["application_fee_amount"] == Int(order.feeTotal)
            && "transfer_data" !in request.payload
  {
    var id := order.restaurant.value.StripeAccountFor(livemode).value.stripeUserId;
    var userId := ConfiguredUserId(userIdBefore, order, livemode);
    assert userId == Some(id);
    var base := IntentBasePayload(amount, currencyCode, order.number, paymentMethod, automaticCapture);
    BaseHasNoFeeSplit(amount, currencyCode, order.number, paymentMethod, automaticCapture);
    var payload := ConfigureCreateIntentPayload(order, userId, base);
    assert IntentRequest(order, amount, currencyCode, paymentMethod, userIdBefore, livemode, automaticCapture)
           == CreatePaymentIntent(payload, StripeOptions(userId));
  }

  /**
   * The destination charge is reached only through an account id that was
   * already on the payment: then the restaurant receives the total less
   * the fee, and the request options still name that same account.
   */
  lemma PresetAccountDestinationIntent(order: Order, amount: int, currencyCode: string, paymentMethod: Option<string>,
                                       id: string, livemode: bool, automaticCapture: bool)
    requires order.restaurant.Some? && !order.restaurant.value.contract.restaurantPaysStripeFee
    ensures var request := IntentRequest(order, amount, currencyCode, paymentMethod, Some(id), livemode, automaticCapture);
            && request.payload["transfer_data"] == Dict(map["destination" := Str(id), "amount" := Int(order.total - order.feeTotal)])
            && "application_fee_amount" !in request.payload
            && request.options == map["stripe_account" := Str(id)]
  {
    assert ConfiguredUserId(Some(id), order, livemode) == Some(id);
    var base := IntentBasePayload(amount, currencyCode, order.number, paymentMethod, automaticCapture);
    BaseHasNoFeeSplit(amount, currencyCode, order.number, paymentMethod, automaticCapture);
    DestinationFeeSplit(order, id, base);
    assert IntentRequest(order, amount, currencyCode, paymentMethod, Some(id), livemode, automaticCapture)
           == CreatePaymentIntent(ConfigureCreateIntentPayload(order, Some(id), base), StripeOptions(Some(id)));
  }

  /** On a payload without fee-split keys, a restaurant that does not pay the fee gets a transfer and no application fee. */
  lemma DestinationFeeSplit(order: Order, id: string, payload: PhpArray)
    requires order.restaurant.Some? && !order.restaurant.value.contract.restaurantPaysStripeFee
    requires "application_fee_amount" !in payload && "transfer_data" !in payload
    ensures var r := ConfigureCreateIntentPayload(order, Some(id), payload);
            r["transfer_data"] == TransferData(id, order) && "application_fee_amount" !in r
  {
    assert |"application_fee_amount"| != |"transfer_data"|;
  }

  /** The payload `createIntent` starts from carries no fee-split key. */
  lemma BaseHasNoFeeSplit(amount: int, currencyCode: string, orderNumber: string,
                          paymentMethod: Option<string>, automaticCapture: bool)
    ensures var base := IntentBasePayload(amount, currencyCode, orderNumber, paymentMethod, automaticCapture);
            "application_fee_amount" !in base && "transfer_data" !in base
  {
  }

  /** A destination charge of 1000 with a fee of 150 transfers 850 to the restaurant. */
  lemma DestinationChargeExample(restaurant: Restaurant, id: string)
    requires !restaurant.contract.restaurantPaysStripeFee
    ensures var order := Order("1", Some(restaurant), 1000, 150);
            ConfigureCreateIntentPayload(order, Some(id), map[])["transfer_data"]
              == Dict(map["destination" := Str(id), "amount" := Int(850)])
  {
  }

  /**
   * `authorize` never captures; with an account in the restaurant-pays-fee
   * mode it charges on the restaurant's account with `feeTotal` as
   * application fee; otherwise it schedules a transfer of the total less
   * the fee, without request options; without an account it does neither.
   */
  lemma AuthorizeFeeSplit(order: Order, restaurant: Restaurant, amount: int, currencyCode: string, token: string, livemode: bool)
    ensures var request := AuthorizeRequest(order, restaurant, amount, currencyCode, token, livemode);
            && request.CreateCharge?
            && request.params["capture"] == Bool(false)
            && request.params["amount"] == Int(amount)
            && request.params["source"] == Str(token)
            && ("application_fee" in request.params || "destination" in request.params
                <==> restaurant.StripeAccountFor(livemode).Some?)
            && (restaurant.StripeAccountFor(livemode).Some? && restaurant.contract.restaurantPaysStripeFee ==>
                  && request.params["application_fee"] == Int(order.feeTotal)
                  && "destination" !in request.params
                  && request.options == map["stripe_account" := Str(restaurant.StripeAccountFor(livemode).value.stripeUserId)])
            && (restaurant.StripeAccountFor(livemode).Some? && !restaurant.contract.restaurantPaysStripeFee ==>
                  && request.params["destination"]
                       == Dict(map["account" := Str(restaurant.StripeAccountFor(livemode).value.stripeUserId),
                                   "amount" := Int(order.total - order.feeTotal)])
                  && "application_fee" !in request.params
                  && request.options == map[])
  {
  }

  /** Refunding nothing in particular, or exactly the payment's amount, sends no amount: a full refund. */
  lemma FullRefundSendsNoAmount(charge: Option<string>, paymentAmount: int, amount: Option<int>, refundApplicationFee: bool)
    ensures "amount" !in RefundArgs(charge, paymentAmount, amount, refundApplicationFee)
            <==> amount.None? || amount.value == paymentAmount
  {
  }

  // ---------------------------------------------------------------------
  // The manager
  // ---------------------------------------------------------------------

  class StripeManager {
    /** The settings the manager reads: live or test mode, and the secret key. */
    const livemode: bool
    const secretKey: string
    const gateway: Gateway

    constructor (livemode: bool, secretKey: string, gateway: Gateway)
      ensures this.livemode == livemode && this.secretKey == secretKey && this.gateway == gateway
    {
      this.livemode := livemode;
      this.secretKey := secretKey;
      this.gateway := gateway;
    }

    /** Ties the payment to the restaurant's account when the restaurant pays the processor's fee. */
    method ConfigurePayment(p: StripePayment)
      modifies p`stripeUserId
      ensures p.stripeUserId == ConfiguredUserId(old(p.stripeUserId), p.order, livemode)
    {
      var restaurant := p.order.restaurant;
      if restaurant.None? {
        return;
      }
      var account := restaurant.value.StripeAccountFor(livemode);
      if account.Some? && restaurant.value.contract.restaurantPaysStripeFee {
        p.stripeUserId := Some(account.value.stripeUserId);
      }
    }

    method CreateIntent(p: StripePayment, automaticCapture: bool)
      modifies p`stripeUserId, gateway
      ensures p.stripeUserId == ConfiguredUserId(old(p.stripeUserId), p.order, livemode)
      ensures gateway.apiKey == secretKey && gateway.capturedCharges == old(gateway.capturedCharges)
      ensures gateway.sent == old(gateway.sent)
                + [IntentRequest(p.order, p.amount, p.currencyCode, p.paymentMethod, old(p.stripeUserId), livemode, automaticCapture)]
    {
      gateway.SetApiKey(secretKey);
      var payload := IntentBasePayload(p.amount, p.currencyCode, p.order.number, p.paymentMethod, automaticCapture);
      ConfigurePayment(p);
      payload := ConfigureCreateIntentPayload(p.order, p.stripeUserId, payload);
      var options := StripeOptions(p.stripeUserId);
      gateway.Send(CreatePaymentIntent(payload, options));
    }

    /**
     * Retrieves the payment's intent and confirms it. Without an intent id
     * the SDK refuses the retrieval before any request.
     */
    method ConfirmIntent(p: StripePayment) returns (r: Outcome)
      modifies gateway
      ensures gateway.apiKey == secretKey && gateway.capturedCharges == old(gateway.capturedCharges)
      ensures r.Fail? <==> p.paymentIntent.None?
      ensures r.Fail? ==> gateway.sent == old(gateway.sent)
      ensures r.Pass? ==>
                gateway.sent == old(gateway.sent) + [ConfirmPaymentIntent(p.paymentIntent.value, StripeOptions(p.stripeUserId))]
    {
      gateway.SetApiKey(secretKey);
      if p.paymentIntent.None? {
        return Fail(MissingId);
      }
      gateway.Send(ConfirmPaymentIntent(p.paymentIntent.value, StripeOptions(p.stripeUserId)));
      r := Pass;
    }

    /**
     * Authorizes without capturing. Fails before any request without a
     * token; an order without a restaurant cannot be authorized (the
     * source dereferences the restaurant).
     */
    method Authorize(p: StripePayment) returns (r: Outcome)
      modifies p`stripeUserId, gateway
      ensures gateway.apiKey == secretKey && gateway.capturedCharges == old(gateway.capturedCharges)
      ensures p.stripeToken.None? ==> r == Fail(NoToken)
      ensures r.Fail? <==> p.stripeToken.None? || p.order.restaurant.None?
      ensures r.Fail? ==> gateway.sent == old(gateway.sent) && p.stripeUserId == old(p.stripeUserId)
      ensures r.Pass? ==>
                && p.stripeUserId == ConfiguredUserId(old(p.stripeUserId), p.order, livemode)
                && gateway.sent == old(gateway.sent)
                     + [AuthorizeRequest(p.order, p.order.restaurant.value, p.amount, p.currencyCode, p.stripeToken.value, livemode)]
    {
      gateway.SetApiKey(secretKey);
      if p.stripeToken.None? {
        return Fail(NoToken);
      }
      if p.order.restaurant.None? {
        return Fail("Call to a member function getStripeAccount() on null");
      }
      var restaurant := p.order.restaurant.value;
      var account := restaurant.StripeAccountFor(livemode);
      if account.Some? && restaurant.contract.restaurantPaysStripeFee {
        p.stripeUserId := Some(account.value.stripeUserId);
      }
      gateway.Send(AuthorizeRequest(p.order, restaurant, p.amount, p.currencyCode, p.stripeToken.value, livemode));
      r := Pass;
    }

    /**
     * Captures the payment intent for the payment's amount, or else the
     * charge; a charge the processor reports as captured is never captured
     * again.
     */
    method Capture(p: StripePayment) returns (r: Outcome)
      modifies gateway
      ensures gateway.apiKey == secretKey
      ensures p.paymentIntent.Some? ==>
                && r == Pass
                && gateway.capturedCharges == old(gateway.capturedCharges)
                && gateway.sent == old(gateway.sent)
                     + [CapturePaymentIntent(p.paymentIntent.value, StripeOptions(p.stripeUserId),
                                             map["amount_to_capture" := Int(p.amount)])]
      ensures p.paymentIntent.None? && p.charge.None? ==>
                r.Fail? && gateway.sent == old(gateway.sent) && gateway.capturedCharges == old(gateway.capturedCharges)
      ensures p.paymentIntent.None? && p.charge.Some? && p.charge.value in old(gateway.capturedCharges) ==>
                r == Fail(AlreadyCaptured) && gateway.sent == old(gateway.sent)
                && gateway.capturedCharges == old(gateway.capturedCharges)
      ensures p.paymentIntent.None? && p.charge.Some? && p.charge.value !in old(gateway.capturedCharges) ==>
                && r == Pass
                && gateway.sent == old(gateway.sent) + [Request.CaptureCharge(p.charge.value, StripeOptions(p.stripeUserId))]
                && gateway.capturedCharges == old(gateway.capturedCharges) + {p.charge.value}
    {
      gateway.SetApiKey(secretKey);
      if p.paymentIntent.Some? {
        gateway.Send(CapturePaymentIntent(p.paymentIntent.value, StripeOptions(p.stripeUserId),
                                          map["amount_to_capture" := Int(p.amount)]));
        return Pass;
      }
      if p.charge.None? {
        // the SDK cannot retrieve a charge without an id
        return Fail(MissingId);
      }
      var captured := gateway.IsCaptured(p.charge.value);
      if captured {
        return Fail(AlreadyCaptured);
      }
      gateway.CaptureCharge(p.charge.value, StripeOptions(p.stripeUserId));
      r := Pass;
    }

    method Refund(p: StripePayment, amount: Option<int>, refundApplicationFee: bool)
      modifies gateway
      ensures gateway.apiKey == secretKey && gateway.capturedCharges == old(gateway.capturedCharges)
      ensures gateway.sent == old(gateway.sent)
                + [CreateRefund(RefundArgs(p.charge, p.amount, amount, refundApplicationFee), StripeOptions(p.stripeUserId))]
    {
      gateway.SetApiKey(secretKey);
      var options: PhpArray := map[];
      if p.stripeUserId.Some? {
        options := options["stripe_account" := Str(p.stripeUserId.value)];
      }
      var args := map["charge" := StrOrNull(p.charge)];
      if amount.Some? {
        if amount.value != p.amount {
          args := args["amount" := Int(amount.value)];
        }
      }
      args := args["refund_application_fee" := Bool(refundApplicationFee)];
      gateway.Send(CreateRefund(args, options));
    }
  }

  /** A charge captured once cannot be captured a second time: the second call fails with "Charge already captured". */
  method CaptureTwice(m: StripeManager, p: StripePayment) returns (first: Outcome, second: Outcome)
    requires p.paymentIntent.None? && p.charge.Some?
    modifies m.gateway
    ensures second == Fail(AlreadyCaptured)
    ensures |m.gateway.sent| <= |old(m.gateway.sent)| + 1
  {
    first := m.Capture(p);
    second := m.Capture(p);
  }
}
