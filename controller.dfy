/**
 * The callback end point (`ViaBillController::callback`): ViaBill posts the
 * outcome of a checkout as JSON; the controller checks the parameters and
 * the signature, finds the order and its gateway, and then records an
 * approved payment or cancels the order. Every path ends in an HTTP
 * response. Logging is not modelled.
 */
module Controller {
  import opened Wrappers
  import opened Php
  import C = ViaBillConstants
  import P = Primitives
  import H = Helper
  import G = Gateway
  import GP = GatewayProperties
  import O = Outgoing
  import Pay = Payments
  import opened Orders

  datatype Response = Response(body: string, status: int)

  /**
   * The callback's data: the decoded body when it is non-empty and sent as
   * `application/json`. Anything else (no body, another content type, JSON
   * that is not an object) leaves every lookup NULL, as an empty map does.
   */
  function CallbackEntries(contentType: Option<string>, content: string): map<string, Value> {
    if Truthy(Str(content)) && contentType == Some("application/json") then
      match P.JsonDecode(content)
      case Arr(entries) => entries
      case _ => map[]
    else map[]
  }

  // ---------------------------------------------------------------------
  // findOrder

  /** The order's `data` holds the transaction id. */
  predicate CarriesTransaction(o: OrderRecord, transactionId: string) {
    "viabill_transaction_id" in o.data && ToStr(o.data["viabill_transaction_id"]) == transactionId
  }

  /**
   * `findOrderByTransactionId`: the first order whose data carries the id;
   * failing that, the order of the first payment with that remote id, which
   * may itself be missing.
   */
  function FindOrderByTransactionId(orders: seq<OrderRecord>, payments: seq<StoredPayment>, transactionId: Value)
    : (r: Option<nat>)
    ensures r.Some? ==> r.value < |orders|
  {
    var tid := ToStr(transactionId);
    match FirstWhere(orders, (o: OrderRecord) => CarriesTransaction(o, tid))
    case Some(i) => Some(i)
    case None =>
      match FirstWhere(payments, (p: StoredPayment) => p.remoteId == tid)
      case None => None
      case Some(j) => OrderById(orders, IntToStr(payments[j].orderId))
  }

  /** `findOrder`: a truthy order number that names a stored order wins; otherwise the transaction id decides. */
  function FindOrder(orders: seq<OrderRecord>, payments: seq<StoredPayment>, transactionId: Value, orderId: Value)
    : (r: Option<nat>)
    ensures r.Some? ==> r.value < |orders|
  {
    if Truthy(orderId) && OrderById(orders, ToStr(orderId)).Some? then OrderById(orders, ToStr(orderId))
    else FindOrderByTransactionId(orders, payments, transactionId)
  }

  /**
   * The order found is the one the order number names, or one that carries
   * the transaction id, or the order of a payment with that remote id; the
   * order number is tried first. Nothing is found only when no order has
   * the number and none carries the id.
   */
  lemma FindOrderCases(orders: seq<OrderRecord>, payments: seq<StoredPayment>, transactionId: Value, orderId: Value)
    ensures var r := FindOrder(orders, payments, transactionId, orderId);
      var tid := ToStr(transactionId);
      var named := Truthy(orderId) && exists i :: 0 <= i < |orders| && IntToStr(orders[i].id) == ToStr(orderId);
      (named ==> r.Some? && IntToStr(orders[r.value].id) == ToStr(orderId))
      && (r.Some? ==>
            (Truthy(orderId) && IntToStr(orders[r.value].id) == ToStr(orderId))
            || CarriesTransaction(orders[r.value], tid)
            || exists j :: 0 <= j < |payments| && payments[j].remoteId == tid
                           && IntToStr(payments[j].orderId) == IntToStr(orders[r.value].id))
      && (r.None? ==> !named && forall i :: 0 <= i < |orders| ==> !CarriesTransaction(orders[i], tid))
      && (!named && (exists i :: 0 <= i < |orders| && CarriesTransaction(orders[i], tid)) ==>
            r.Some? && CarriesTransaction(orders[r.value], tid))
      && (!named && (forall i :: 0 <= i < |orders| ==> !CarriesTransaction(orders[i], tid)) ==>
            r == match FirstWhere(payments, (p: StoredPayment) => p.remoteId == tid)
                 case None => None
                 case Some(j) => OrderById(orders, IntToStr(payments[j].orderId)))
  {
    var tid := ToStr(transactionId);
    OrderByIdCases(orders, ToStr(orderId));
    var byMeta := FirstWhere(orders, (o: OrderRecord) => CarriesTransaction(o, tid));
    if byMeta.None? {
      var byPayment := FirstWhere(payments, (p: StoredPayment) => p.remoteId == tid);
      if byPayment.Some? {
        OrderByIdCases(orders, IntToStr(payments[byPayment.value].orderId));
      }
    }
  }

  /**
   * Only the first payment with the remote id is consulted: when its order
   * is gone, nothing is found, even if a later payment's order exists.
   */
  lemma FirstPaymentOnly(orders: seq<OrderRecord>, payments: seq<StoredPayment>, transactionId: Value, j: nat)
    requires forall i :: 0 <= i < |orders| ==> !CarriesTransaction(orders[i], ToStr(transactionId))
    requires j < |payments| && payments[j].remoteId == ToStr(transactionId)
    requires forall i :: 0 <= i < j ==> payments[i].remoteId != ToStr(transactionId)
    requires forall i :: 0 <= i < |orders| ==> IntToStr(orders[i].id) != IntToStr(payments[j].orderId)
    ensures FindOrderByTransactionId(orders, payments, transactionId).None?
  {
    var tid := ToStr(transactionId);
    var byPayment := FirstWhere(payments, (p: StoredPayment) => p.remoteId == tid);
    assert byPayment == Some(j);
    OrderByIdCases(orders, IntToStr(payments[j].orderId));
  }

  /** `loadPaymentGateway`: the order's gateway id, when it is set and a gateway entity has it. */
  function LoadPaymentGateway(o: OrderRecord, gateways: map<string, map<string, Value>>): (r: Option<string>)
    ensures r.Some? <==> o.gatewayId.Some? && Truthy(Str(o.gatewayId.value)) && o.gatewayId.value in gateways
    ensures r.Some? ==> r.value == o.gatewayId.value
  {
    match o.gatewayId
    case None => None
    case Some(id) => if !Truthy(Str(id)) then None else if id in gateways then Some(id) else None
  }

  // ---------------------------------------------------------------------
  // callback

  /** What the callback does after its checks: answer at once, record an approved payment, or fail the order. */
  datatype Step =
    | Respond(response: Response)
    | Approve(order: nat, gatewayId: string)
    | Fail(order: nat)

  /**
   * The checks of `callback`, in order: the four parameters, the signature
   * (`verified` is what `verifyCallbackSignature` says of the data, in silent
   * mode with the default format), the order, its gateway, the status
   * (compared loosely, as `switch` does).
   */
  function CallbackStep(
    data: map<string, Value>, verified: Outcome<bool>, orders: seq<OrderRecord>, payments: seq<StoredPayment>,
    gateways: map<string, map<string, Value>>): (r: Step)
    ensures r.Approve? ==> r.order < |orders| && r.gatewayId in gateways
    ensures r.Fail? ==> r.order < |orders|
  {
    var d := Arr(data);
    var transactionId, status := Lookup(d, "transaction"), Lookup(d, "status");
    if !Truthy(transactionId) || !Truthy(status) || !Truthy(Lookup(d, "amount")) || !Truthy(Lookup(d, "currency")) then
      Respond(Response("Missing required parameters", 400))
    else
      match verified
      case Throws(message) => Respond(Response("Error processing request: " + message, 500))
      case Returns(valid) =>
        if !valid then Respond(Response("Invalid signature", 400))
        else
          match FindOrder(orders, payments, transactionId, Lookup(d, "orderNumber"))
          case None => Respond(Response("Order not found", 404))
          case Some(k) =>
            match LoadPaymentGateway(orders[k], gateways)
            case None => Respond(Response("Payment gateway configuration not found", 500))
            case Some(id) =>
              if LooseEqualsString(status, "APPROVED") then Approve(k, id)
              else if LooseEqualsString(status, "CANCELLED") || LooseEqualsString(status, "REJECTED") then Fail(k)
              else Respond(Response("Unknown status", 400))
  }

  /**
   * The callback acts on an order only after every check passed: the four
   * parameters are truthy, the signature verified, the order was found and
   * its gateway loaded; it approves exactly for an APPROVED status and
   * fails the order exactly for CANCELLED or REJECTED. Conversely, once
   * every check passed, the status alone decides between approving that
   * order, failing it, and 'Unknown status'.
   */
  lemma CallbackActsOnlyWhenVerified(
    data: map<string, Value>, verified: Outcome<bool>, orders: seq<OrderRecord>, payments: seq<StoredPayment>,
    gateways: map<string, map<string, Value>>)
    ensures var r := CallbackStep(data, verified, orders, payments, gateways);
      var d := Arr(data);
      var status := Lookup(d, "status");
      !r.Respond? ==>
        Truthy(Lookup(d, "transaction")) && Truthy(status) && Truthy(Lookup(d, "amount")) && Truthy(Lookup(d, "currency"))
        && verified == Returns(true)
        && FindOrder(orders, payments, Lookup(d, "transaction"), Lookup(d, "orderNumber")) == Some(r.order)
        && LoadPaymentGateway(orders[r.order], gateways).Some?
        && (r.Approve? <==> LooseEqualsString(status, "APPROVED"))
        && (r.Fail? <==> !LooseEqualsString(status, "APPROVED")
                         && (LooseEqualsString(status, "CANCELLED") || LooseEqualsString(status, "REJECTED")))
    ensures var r := CallbackStep(data, verified, orders, payments, gateways);
      var d := Arr(data);
      var status := Lookup(d, "status");
      var k := FindOrder(orders, payments, Lookup(d, "transaction"), Lookup(d, "orderNumber"));
      Truthy(Lookup(d, "transaction")) && Truthy(status) && Truthy(Lookup(d, "amount")) && Truthy(Lookup(d, "currency"))
      && verified == Returns(true) && k.Some? && LoadPaymentGateway(orders[k.value], gateways).Some? ==>
        r == if LooseEqualsString(status, "APPROVED") then Approve(k.value, LoadPaymentGateway(orders[k.value], gateways).value)
             else if LooseEqualsString(status, "CANCELLED") || LooseEqualsString(status, "REJECTED") then Fail(k.value)
             else Respond(Response("Unknown status", 400))
  {
  }

  /** Every response the checks give on their own is a 400, 404 or 500 with the source's message. */
  lemma CallbackRejections(
    data: map<string, Value>, verified: Outcome<bool>, orders: seq<OrderRecord>, payments: seq<StoredPayment>,
    gateways: map<string, map<string, Value>>)
    ensures var r := CallbackStep(data, verified, orders, payments, gateways);
      r.Respond? ==>
        r.response == Response("Missing required parameters", 400)
        || r.response == Response("Invalid signature", 400)
        || r.response == Response("Order not found", 404)
        || r.response == Response("Payment gateway configuration not found", 500)
        || r.response == Response("Unknown status", 400)
        || (verified.Throws? && r.response == Response("Error processing request: " + verified.message, 500))
  {
  }

  /**
   * With the default format, anyone who knows an order's number or
   * transaction id can have a payment recorded for it: a callback that
   * carries a `secret` of its own and the signature computed with it passes
   * the signature check, and an APPROVED status is then acted on.
   */
  lemma ForgedCallbackApproved(
    gateway: G.ViaBillGateway, data: map<string, Value>, secret: string,
    orders: seq<OrderRecord>, payments: seq<StoredPayment>, gateways: map<string, map<string, Value>>)
    requires GP.CallbackFieldsPresent(data) && '{' !in secret
    requires var d := Arr(data);
      Truthy(Lookup(d, "transaction")) && Truthy(Lookup(d, "amount")) && Truthy(Lookup(d, "currency"))
      && Truthy(Lookup(d, "status")) && LooseEqualsString(Lookup(d, "status"), "APPROVED")
    requires var k := FindOrder(orders, payments, Lookup(Arr(data), "transaction"), Lookup(Arr(data), "orderNumber"));
      k.Some? && LoadPaymentGateway(orders[k.value], gateways).Some?
    ensures var forged := GP.SelfSigned(data, secret);
      CallbackStep(forged, gateway.VerifyCallbackSignature(forged, "", true), orders, payments, gateways).Approve?
  {
    GP.SelfSignedCallbackAccepted(gateway, data, secret, true);
    GP.SelfSignedKeeps(data, secret, "transaction");
    GP.SelfSignedKeeps(data, secret, "orderNumber");
    GP.SelfSignedKeeps(data, secret, "amount");
    GP.SelfSignedKeeps(data, secret, "currency");
    GP.SelfSignedKeeps(data, secret, "status");
  }

  /** An empty body, or one not sent as `application/json`, is answered 400. */
  lemma CallbackNeedsJson(
    contentType: Option<string>, content: string, orders: seq<OrderRecord>, payments: seq<StoredPayment>,
    verified: Outcome<bool>, gateways: map<string, map<string, Value>>)
    requires contentType != Some("application/json") || !Truthy(Str(content))
    ensures CallbackStep(CallbackEntries(contentType, content), verified, orders, payments, gateways)
      == Respond(Response("Missing required parameters", 400))
  {
  }

  // ---------------------------------------------------------------------
  // processApprovedPayment

  /** `$configuration['transaction_type'] ?? AUTHORIZE_ONLY`, compared strictly with AUTHORIZE_CAPTURE. */
  predicate CaptureMode(configuration: map<string, Value>) {
    var t := Lookup(Arr(configuration), "transaction_type");
    (if t == Null then C.TransactionTypeAuthorizeOnly else t) == C.TransactionTypeAuthorizeCapture
  }

  /** The capture amount: the formatted amount when it is at most 0, otherwise its negation as a float. */
  function CaptureAmountValue(amount: Value): Value {
    var f := H.FormatAmount(amount);
    var x := NumericValue(f).GetOr(0.0);
    if x <= 0.0 then Str(f) else Float(-x)
  }

  lemma ZeroText()
    ensures NumericValue("0") == Some(0.0)
  {
    assert "0" == NatToStr(0);
  }

  /**
   * The capture amount is never positive: it is minus the magnitude of the
   * amount rounded to hundredths, and 0 for an amount that is not numeric.
   */
  lemma CaptureAmountNeverPositive(amount: Value)
    ensures var v := CaptureAmountValue(amount);
      NumberOf(v).Some? && NumberOf(v).value <= 0.0
      && (NumberOf(amount).Some? ==>
            var c := RoundToCents(NumberOf(amount).value) as real / 100.0;
            NumberOf(v).value == if c <= 0.0 then c else -c)
      && (NumberOf(amount).None? ==> NumberOf(v) == Some(0.0))
  {
    if NumberOf(amount).None? {
      ZeroText();
    }
  }

  /** The capture call's data: the transaction id, the API key, the capture amount and the currency. */
  function CaptureRequest(apiKey: string, transactionId: Value, amount: Value, currency: Value): map<string, Value> {
    map[
      "id" := transactionId,
      "apikey" := Str(apiKey),
      "amount" := CaptureAmountValue(amount),
      "currency" := currency]
  }

  /** What the capture call answered, in capture mode; no call is made otherwise. */
  function CaptureReply(
    gateway: G.ViaBillGateway, configuration: map<string, Value>, apiKey: string,
    transactionId: Value, amount: Value, currency: Value, client: O.HttpCall -> O.TransportResult): Outcome<Value>
  {
    if CaptureMode(configuration) then
      gateway.TransactionOutcome(CaptureRequest(apiKey, transactionId, amount, currency), "capture_transaction", client)
    else Returns(Null)
  }

  /**
   * The payment `processApprovedPayment` stores, or the exception it lets
   * through: one from the capture call, or one from building the price.
   */
  function ApprovedPayment(
    o: OrderRecord, gatewayId: string, configuration: map<string, Value>,
    transactionId: Value, amount: Value, currency: Value, capture: Outcome<Value>): Outcome<StoredPayment>
  {
    if CaptureMode(configuration) && capture.Throws? then Throws(capture.message)
    else
      var state := if CaptureMode(configuration) && capture == Returns(Bool(true)) then "completed" else "authorization";
      match Pay.NewPrice(amount, currency)
      case Throws(message) => Throws(message)
      case Returns(price) => Returns(StoredPayment(state, price, gatewayId, o.id, ToStr(transactionId), state))
  }

  /**
   * The stored payment is completed exactly when the gateway is in capture
   * mode and the capture call returned TRUE itself; a truthy error body
   * leaves it authorised. Its remote state equals its state, and it points
   * at the order, the gateway and the transaction.
   */
  lemma ApprovedPaymentCases(
    o: OrderRecord, gatewayId: string, configuration: map<string, Value>,
    transactionId: Value, amount: Value, currency: Value, capture: Outcome<Value>)
    ensures var r := ApprovedPayment(o, gatewayId, configuration, transactionId, amount, currency, capture);
      (CaptureMode(configuration) && capture.Throws? ==> r == Throws(capture.message))
      && (!(CaptureMode(configuration) && capture.Throws?) ==>
            (r.Returns? <==> Pay.NewPrice(amount, currency).Returns?))
      && (r.Returns? ==>
            (r.value.state == "completed" <==> CaptureMode(configuration) && capture == Returns(Bool(true)))
            && (r.value.state == "completed" || r.value.state == "authorization")
            && r.value.remoteState == r.value.state
            && r.value.amount == Pay.NewPrice(amount, currency).value
            && r.value.orderId == o.id && r.value.gatewayId == gatewayId
            && r.value.remoteId == ToStr(transactionId))
  {
  }

  // ---------------------------------------------------------------------
  // processFailedPayment

  /** `processFailedPayment`: an order not yet completed or canceled is moved to canceled when it can be. */
  function FailedOrder(o: OrderRecord): OrderRecord {
    if o.state != "completed" && o.state != "canceled" then Transitioned(o, "canceled") else o
  }

  /**
   * A completed or canceled order is left alone; any other order becomes
   * canceled (and is saved) exactly when its workflow allows it.
   */
  lemma FailedOrderCases(o: OrderRecord)
    ensures var r := FailedOrder(o);
      var final := o.state == "completed" || o.state == "canceled";
      var possible := exists t :: t in o.workflow && o.state in t.from && t.to == "canceled";
      (final || !possible ==> r == o)
      && (!final && possible ==> r == o.(state := "canceled", saves := o.saves + 1))
  {
    TransitionedCases(o, "canceled");
  }

  class ViaBillController {
    const storage: Storage

    constructor (storage: Storage)
      ensures this.storage == storage
    {
      this.storage := storage;
    }

    /** `updateOrderState`: the first transition to `desired` among those available is applied, and the order saved. */
    method UpdateOrderState(k: nat, desired: string)
      requires k < |storage.orders|
      modifies storage
      ensures storage.orders == old(storage.orders)[k := Transitioned(old(storage.orders[k]), desired)]
      ensures storage.payments == old(storage.payments)
    {
      var order := storage.orders[k];
      var transitions := Available(order.workflow, order.state);
      for i := 0 to |transitions|
        invariant forall j :: 0 <= j < i ==> transitions[j].to != desired
      {
        if transitions[i].to == desired {
          assert FirstWhere(transitions, (t: Transition) => t.to == desired) == Some(i);
          storage.orders := storage.orders[k := order.(state := transitions[i].to, saves := order.saves + 1)];
          return;
        }
      }
      assert FirstWhere(transitions, (t: Transition) => t.to == desired).None?;
    }

    /** `processFailedPayment`: the status only reaches the log. */
    method ProcessFailedPayment(k: nat, status: Value)
      requires k < |storage.orders|
      modifies storage
      ensures storage.orders == old(storage.orders)[k := FailedOrder(old(storage.orders[k]))]
      ensures storage.payments == old(storage.payments)
    {
      var currentState := storage.orders[k].state;
      if currentState != "completed" && currentState != "canceled" {
        UpdateOrderState(k, "canceled");
      }
    }

    /**
     * `processApprovedPayment`: the capture call in capture mode, then the
     * payment entity, created and saved. The helper and gateway are the
     * ones built from the site's ViaBill settings.
     */
    method ProcessApprovedPayment(
      k: nat, gatewayId: string, transactionId: Value, amount: Value, currency: Value,
      helper: H.ViaBillHelper, gateway: G.ViaBillGateway, client: O.HttpCall -> O.TransportResult)
      returns (r: Outcome<()>)
      requires k < |storage.orders| && gatewayId in storage.gateways
      modifies storage
      ensures var configuration := storage.gateways[gatewayId];
        var capture := CaptureReply(gateway, configuration, helper.apiKey, transactionId, amount, currency, client);
        var p := ApprovedPayment(old(storage.orders[k]), gatewayId, configuration, transactionId, amount, currency, capture);
        (p.Throws? ==> r == Throws(p.message) && storage.payments == old(storage.payments))
        && (p.Returns? ==> r == Returns(()) && storage.payments == old(storage.payments) + [p.value])
      ensures storage.orders == old(storage.orders)
    {
      var configuration := storage.gateways[gatewayId];
      var capture := Capture(configuration, helper.apiKey, transactionId, amount, currency, gateway, client);
      r := StoreApprovedPayment(k, gatewayId, transactionId, amount, currency, capture);
    }

    /** The capture call of `processApprovedPayment`, made in capture mode only. */
    method Capture(
      configuration: map<string, Value>, apiKey: string, transactionId: Value, amount: Value, currency: Value,
      gateway: G.ViaBillGateway, client: O.HttpCall -> O.TransportResult)
      returns (capture: Outcome<Value>)
      ensures capture == CaptureReply(gateway, configuration, apiKey, transactionId, amount, currency, client)
    {
      capture := Returns(Null);
      if CaptureMode(configuration) {
        var captureData := CaptureRequest(apiKey, transactionId, amount, currency);
        capture := gateway.CaptureTransaction(captureData, client);
      }
    }

    /** The rest of `processApprovedPayment`, once the capture call (if any) answered. */
    method StoreApprovedPayment(
      k: nat, gatewayId: string, transactionId: Value, amount: Value, currency: Value, capture: Outcome<Value>)
      returns (r: Outcome<()>)
      requires k < |storage.orders| && gatewayId in storage.gateways
      modifies storage
      ensures var p := ApprovedPayment(old(storage.orders[k]), gatewayId, storage.gateways[gatewayId],
          transactionId, amount, currency, capture);
        (p.Throws? ==> r == Throws(p.message) && storage.payments == old(storage.payments))
        && (p.Returns? ==> r == Returns(()) && storage.payments == old(storage.payments) + [p.value])
      ensures storage.orders == old(storage.orders)
    {
      var order := storage.orders[k];
      var paymentState := "authorization";
      if CaptureMode(storage.gateways[gatewayId]) {
        if capture.Throws? {
          return Throws(capture.message);
        }
        if capture.value == Bool(true) {
          paymentState := "completed";
        }
      }
      var price := Pay.NewPrice(amount, currency);
      if price.Throws? {
        return Throws(price.message);
      }
      var payment := StoredPayment(paymentState, price.value, gatewayId, order.id, ToStr(transactionId), paymentState);
      storage.payments := storage.payments + [payment];
      r := Returns(());
    }

    /**
     * `callback`: the response for a request with the given content type
     * and body, and the stored orders and payments afterwards.
     */
    method Callback(
      contentType: Option<string>, content: string,
      helper: H.ViaBillHelper, gateway: G.ViaBillGateway, client: O.HttpCall -> O.TransportResult)
      returns (response: Response)
      modifies storage
      ensures var data := CallbackEntries(contentType, content);
        var step := CallbackStep(data, gateway.VerifyCallbackSignature(data, "", true),
          old(storage.orders), old(storage.payments), storage.gateways);
        (step.Respond? ==>
          response == step.response
          && storage.orders == old(storage.orders) && storage.payments == old(storage.payments))
        && (step.Fail? ==>
          response == Response("OK", 200)
          && storage.orders == old(storage.orders)[step.order := FailedOrder(old(storage.orders[step.order]))]
          && storage.payments == old(storage.payments))
        && (step.Approve? ==>
          var d := Arr(data);
          var configuration := storage.gateways[step.gatewayId];
          var capture := CaptureReply(gateway, configuration, helper.apiKey,
            Lookup(d, "transaction"), Lookup(d, "amount"), Lookup(d, "currency"), client);
          var p := ApprovedPayment(old(storage.orders[step.order]), step.gatewayId, configuration,
            Lookup(d, "transaction"), Lookup(d, "amount"), Lookup(d, "currency"), capture);
          storage.orders == old(storage.orders)
          && (p.Throws? ==>
                response == Response("Error processing request: " + p.message, 500)
                && storage.payments == old(storage.payments))
          && (p.Returns? ==> response == Response("OK", 200) && storage.payments == old(storage.payments) + [p.value]))
    {
      var data := CallbackEntries(contentType, content);
      var d := Arr(data);
      var transactionId := Lookup(d, "transaction");
      var orderId := Lookup(d, "orderNumber");
      var status := Lookup(d, "status");
      var amount := Lookup(d, "amount");
      var currency := Lookup(d, "currency");
      if !Truthy(transactionId) || !Truthy(status) || !Truthy(amount) || !Truthy(currency) {
        return Response("Missing required parameters", 400);
      }
      var verified := gateway.VerifyCallbackSignature(data, "", true);
      if verified.Throws? {
        return Response("Error processing request: " + verified.message, 500);
      }
      if !verified.value {
        return Response("Invalid signature", 400);
      }
      var found := FindOrder(storage.orders, storage.payments, transactionId, orderId);
      if found.None? {
        return Response("Order not found", 404);
      }
      var k := found.value;
      var gatewayId := LoadPaymentGateway(storage.orders[k], storage.gateways);
      if gatewayId.None? {
        return Response("Payment gateway configuration not found", 500);
      }
      if LooseEqualsString(status, "APPROVED") {
        var processed := ProcessApprovedPayment(k, gatewayId.value, transactionId, amount, currency, helper, gateway, client);
        if processed.Throws? {
          return Response("Error processing request: " + processed.message, 500);
        }
      } else if LooseEqualsString(status, "CANCELLED") || LooseEqualsString(status, "REJECTED") {
        ProcessFailedPayment(k, status);
      } else {
        return Response("Unknown status", 400);
      }
      response := Response("OK", 200);
    }
  }
}
