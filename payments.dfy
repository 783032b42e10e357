/**
 * The payment gateway plugin (`ViaBillPayments`): capture, void and refund
 * of a Commerce payment through the gateway's transaction calls, the
 * operations offered for a payment, and the plugin's default settings.
 *
 * A Commerce price is a number and a currency code; numbers are exact
 * decimals. Comparing or adding prices of two currencies throws.
 */
module Payments {
  import opened Wrappers
  import opened Php
  import C = ViaBillConstants
  import H = Helper
  import G = Gateway
  import O = Outgoing

  datatype Price = Price(number: real, currency: string)

  /** Commerce's text of a price number (trailing zeros trimmed); its digits are not modelled. */
  const NumberText: real -> string

  /** `Price::__toString`: the number, a space, the currency code. */
  function PriceText(p: Price): string {
    NumberText(p.number) + " " + p.currency
  }

  /**
   * `new Price($number, $currency_code)` on raw values: the price, or the
   * exception Commerce raises for an argument it refuses. Commerce's
   * validation rules are not part of this model.
   */
  const NewPrice: (Value, Value) -> Outcome<Price>

  const CurrencyMismatch := "The provided prices have mismatched currencies."

  /** A Commerce payment entity as the plugin sees it. */
  datatype PaymentRecord = PaymentRecord(
    state: string,
    amount: Price,
    remoteId: string,
    refundedAmount: Price,
    completedTime: Option<int>,
    saves: nat)

  /** What the plugin shows the user: a status or an error message. */
  datatype Notice = Status(text: string) | ErrorMessage(text: string)

  /** `assertPaymentState`: the message for a payment in none of the allowed states. */
  function InvalidState(state: string): string {
    "The provided payment is in an invalid state (\"" + state + "\")."
  }

  // ---------------------------------------------------------------------
  // capturePayment

  /**
   * The amount `capturePayment` captures, checked before any gateway call:
   * the payment must be authorised, the amount defaults to the authorised
   * amount, and it may not exceed the authorised amount less what was
   * already captured, which is taken to be 0.
   */
  function CaptureAmount(p: PaymentRecord, amount: Option<Price>): Outcome<Price> {
    if p.state != "authorization" then Throws(InvalidState(p.state))
    else
      var a := amount.GetOr(p.amount);
      var captured := Price(0.0, p.amount.currency);
      var remaining := Price(p.amount.number - captured.number, p.amount.currency);
      if a.currency != remaining.currency then Throws(CurrencyMismatch)
      else if a.number > remaining.number then
        Throws("Cannot capture more than the remaining authorized amount of " + PriceText(remaining))
      else Returns(a)
  }

  /** The capture call's data: the negated amount with two decimals. */
  function CaptureData(p: PaymentRecord, apiKey: Value, a: Price): map<string, Value> {
    map[
      "id" := Str(p.remoteId),
      "apikey" := apiKey,
      "amount" := Str(H.FormatAmount(Float(-a.number))),
      "currency" := Str(a.currency)]
  }

  /**
   * The payment and the notice after the capture call answered: any truthy
   * answer (an error body included) completes the payment and saves it,
   * with the completed time set only when the whole authorised amount was
   * captured; a falsy answer or an exception changes nothing.
   */
  function Captured(p: PaymentRecord, a: Price, reply: Outcome<Value>, time: int): (PaymentRecord, Notice) {
    match reply
    case Throws(_) => (p, ErrorMessage("Error processing capture"))
    case Returns(v) =>
      if !Truthy(v) then (p, ErrorMessage("captureTransaction failed."))
      else
        var newCaptured := Price(0.0 + a.number, p.amount.currency);
        if newCaptured == p.amount then
          (p.(state := "completed", completedTime := Some(time), saves := p.saves + 1),
           Status("Payment fully captured"))
        else
          (p.(state := "completed", saves := p.saves + 1),
           Status("Payment partially captured: " + PriceText(newCaptured) + " of " + PriceText(p.amount)))
  }

  /**
   * A capture gets past the checks exactly when the payment is authorised
   * and the amount, in the payment's currency, is at most the authorised
   * amount; no amount means the authorised amount.
   */
  lemma CaptureAmountCases(p: PaymentRecord, amount: Option<Price>)
    ensures var r := CaptureAmount(p, amount);
      var a := amount.GetOr(p.amount);
      (r.Returns? <==> p.state == "authorization" && a.currency == p.amount.currency && a.number <= p.amount.number)
      && (r.Returns? ==> r.value == a)
      && (p.state != "authorization" ==> r == Throws(InvalidState(p.state)))
      && (amount.None? && p.state == "authorization" ==> r == Returns(p.amount))
  {
  }

  /**
   * The capture data's amount (`CaptureData`): the negated amount's text has
   * two decimals and reads back as minus the amount rounded to hundredths,
   * never positive for a non-negative amount.
   */
  lemma CaptureAmountText(a: Price)
    ensures var s := H.FormatAmount(Float(-a.number));
      H.IsTwoDecimalText(s) && NumericValue(s) == Some(RoundToCents(-a.number) as real / 100.0)
      && (a.number >= 0.0 ==> RoundToCents(-a.number) <= 0)
  {
    FloatAmountText(-a.number);
    if a.number >= 0.0 {
      NegatedCentsNonPositive(a.number);
    }
  }

  /** The formatted text of a float has two decimals and reads back as the float rounded to hundredths. */
  lemma FloatAmountText(x: real)
    ensures var s := H.FormatAmount(Float(x));
      H.IsTwoDecimalText(s) && NumericValue(s) == Some(RoundToCents(x) as real / 100.0)
  {
    assert NumberOf(Float(x)) == Some(x);
  }

  /** A non-negative amount, negated, rounds to a non-positive number of cents. */
  lemma NegatedCentsNonPositive(x: real)
    requires x >= 0.0
    ensures RoundToCents(-x) <= 0
  {
    assert -(-x) == x;
    assert (x * 100.0 + 0.5).Floor >= 0;
  }

  /**
   * After the call: the payment is completed exactly when the answer is
   * truthy, the completed time is set exactly when the whole authorised
   * amount was captured as well, and otherwise nothing changes and
   * nothing is saved. Only the state, completed time and save count move.
   */
  lemma CapturedCases(p: PaymentRecord, a: Price, reply: Outcome<Value>, time: int)
    requires a.currency == p.amount.currency
    ensures var (q, notice) := Captured(p, a, reply, time);
      var success := reply.Returns? && Truthy(reply.value);
      (success ==> q.state == "completed" && q.saves == p.saves + 1 && notice.Status?)
      && (success && a.number == p.amount.number ==> q.completedTime == Some(time))
      && (success && a.number != p.amount.number ==> q.completedTime == p.completedTime)
      && (!success ==> q == p && notice.ErrorMessage?)
      && q.amount == p.amount && q.remoteId == p.remoteId && q.refundedAmount == p.refundedAmount
  {
  }

  /**
   * An answer with a status outside 2xx and a non-empty body, other than
   * '0', still completes the payment: the body is truthy.
   */
  lemma ErrorBodyCompletesCapture(p: PaymentRecord, a: Price, output: O.Output, time: int)
    requires !G.CheckResponseStatus(output) && output.body != "" && output.body != "0"
    ensures Captured(p, a, Returns(G.TransactionResult(Some(output))), time).0.state == "completed"
  {
  }

  // ---------------------------------------------------------------------
  // voidPayment

  /** The cancel call's data; the currency is not a field of the cancel end point. */
  function VoidData(p: PaymentRecord, apiKey: Value): map<string, Value> {
    map["id" := Str(p.remoteId), "apikey" := apiKey, "currency" := Str(p.amount.currency)]
  }

  /** A truthy answer voids the payment and saves it; otherwise nothing changes. */
  function Voided(p: PaymentRecord, reply: Outcome<Value>): (PaymentRecord, Notice) {
    match reply
    case Throws(_) => (p, ErrorMessage("Error processing void"))
    case Returns(v) =>
      if Truthy(v) then (p.(state := "voided", saves := p.saves + 1), Status("Payment voided successfully"))
      else (p, ErrorMessage("Void operation failed"))
  }

  lemma VoidedCases(p: PaymentRecord, reply: Outcome<Value>)
    ensures var (q, notice) := Voided(p, reply);
      var success := reply.Returns? && Truthy(reply.value);
      (success ==> q == p.(state := "voided", saves := p.saves + 1) && notice.Status?)
      && (!success ==> q == p && notice.ErrorMessage?)
  {
  }

  // ---------------------------------------------------------------------
  // refundPayment

  /** The refund call's data: the amount (the whole payment by default) with two decimals. */
  function RefundData(p: PaymentRecord, apiKey: Value, a: Price): map<string, Value> {
    map[
      "id" := Str(p.remoteId),
      "apikey" := apiKey,
      "amount" := Str(H.FormatAmount(Float(a.number))),
      "currency" := Str(a.currency)]
  }

  /** `refundPayment` accepts a completed or partially refunded payment. */
  predicate Refundable(p: PaymentRecord) {
    p.state == "completed" || p.state == "partially_refunded"
  }

  /**
   * After a truthy answer the refunded amount grows by the amount and the
   * payment becomes partially refunded while that stays below the payment
   * amount, refunded otherwise. A price of another currency makes the sum
   * throw, which is caught: the payment is left as it was.
   */
  function Refunded(p: PaymentRecord, a: Price, reply: Outcome<Value>): (PaymentRecord, Notice) {
    match reply
    case Throws(_) => (p, ErrorMessage("Error processing refund"))
    case Returns(v) =>
      if !Truthy(v) then (p, ErrorMessage("Refund operation failed"))
      else if a.currency != p.refundedAmount.currency || p.refundedAmount.currency != p.amount.currency then
        (p, ErrorMessage("Error processing refund"))
      else
        var total := Price(p.refundedAmount.number + a.number, p.refundedAmount.currency);
        var state := if total.number < p.amount.number then "partially_refunded" else "refunded";
        (p.(state := state, refundedAmount := total, saves := p.saves + 1), Status("Refund processed successfully"))
  }

  /**
   * A successful refund adds the amount to the refunded amount and picks
   * the state by comparing the total with the payment amount. Nothing
   * bounds the amount: more than the payment amount is refunded too.
   */
  lemma RefundedCases(p: PaymentRecord, a: Price, reply: Outcome<Value>)
    requires a.currency == p.amount.currency && p.refundedAmount.currency == p.amount.currency
    ensures var (q, notice) := Refunded(p, a, reply);
      var success := reply.Returns? && Truthy(reply.value);
      (success ==>
        q.refundedAmount == Price(p.refundedAmount.number + a.number, p.amount.currency)
        && (q.state == "partially_refunded" <==> p.refundedAmount.number + a.number < p.amount.number)
        && (q.state == "refunded" <==> p.refundedAmount.number + a.number >= p.amount.number)
        && q.saves == p.saves + 1 && q.amount == p.amount && q.completedTime == p.completedTime
        && notice.Status?)
      && (!success ==> q == p && notice.ErrorMessage?)
  {
  }

  /**
   * When the amount's currency, the refunded amount's or the payment
   * amount's differ, the sum throws and is caught: whatever the answer, the
   * payment is left as it was and an error is shown.
   */
  lemma RefundCurrencyMismatch(p: PaymentRecord, a: Price, reply: Outcome<Value>)
    requires a.currency != p.refundedAmount.currency || p.refundedAmount.currency != p.amount.currency
    ensures var (q, notice) := Refunded(p, a, reply);
      q == p && notice.ErrorMessage?
      && notice == (if reply.Returns? && !Truthy(reply.value) then ErrorMessage("Refund operation failed")
                    else ErrorMessage("Error processing refund"))
  {
  }

  /** Refunding twice the payment amount of a fresh payment is accepted and marks it refunded. */
  lemma NoRefundBound(p: PaymentRecord, reply: Outcome<Value>)
    requires p.refundedAmount == Price(0.0, p.amount.currency) && p.amount.number > 0.0
    requires reply.Returns? && Truthy(reply.value)
    ensures var q := Refunded(p, Price(2.0 * p.amount.number, p.amount.currency), reply).0;
      q.state == "refunded" && q.refundedAmount.number > p.amount.number
  {
  }

  // ---------------------------------------------------------------------
  // Operations and configuration

  /** The `capture` operation: its title, page title, plugin form, access and weight. */
  const CaptureOperation: Value := Arr(map[
    "title" := Str("Capture"),
    "page_title" := Str("Capture payment"),
    "plugin_form" := Str("capture-payment"),
    "access" := Bool(true),
    "weight" := Int(10)])

  /** The plugin's own default settings, ahead of the parent's (PHP array union: the left side wins). */
  function DefaultConfiguration(parentDefaults: map<string, Value>): (r: map<string, Value>)
    ensures r.Keys == parentDefaults.Keys + {"api_key", "api_secret", "viabill_pricetag", "transaction_type"}
    ensures r["api_key"] == Str("") && r["api_secret"] == Str("") && r["viabill_pricetag"] == Str("")
    ensures r["transaction_type"] == C.TransactionTypeAuthorizeOnly
    ensures forall k :: k in parentDefaults && k !in {"api_key", "api_secret", "viabill_pricetag", "transaction_type"} ==>
      r[k] == parentDefaults[k]
  {
    parentDefaults + map[
      "api_key" := Str(""),
      "api_secret" := Str(""),
      "viabill_pricetag" := Str(""),
      "transaction_type" := C.TransactionTypeAuthorizeOnly]
  }

  /** A payment entity; `save` is counted so that the model can say when it is stored. */
  class Payment {
    var state: string
    var amount: Price
    var remoteId: string
    var refundedAmount: Price
    var completedTime: Option<int>
    var saves: nat

    constructor (state: string, amount: Price, remoteId: string)
      ensures Record() == PaymentRecord(state, amount, remoteId, Price(0.0, amount.currency), None, 0)
    {
      this.state := state;
      this.amount := amount;
      this.remoteId := remoteId;
      this.refundedAmount := Price(0.0, amount.currency);
      this.completedTime := None;
      this.saves := 0;
    }

    function Record(): PaymentRecord
      reads this
    {
      PaymentRecord(state, amount, remoteId, refundedAmount, completedTime, saves)
    }

    method Save()
      modifies this
      ensures Record() == old(Record()).(saves := old(saves) + 1)
    {
      saves := saves + 1;
    }
  }

  class ViaBillPayments {
    const configuration: map<string, Value>

    constructor (configuration: map<string, Value>)
      ensures this.configuration == configuration
    {
      this.configuration := configuration;
    }

    /** `$this->configuration['api_key']`, NULL when unset. */
    function ApiKey(): Value {
      Lookup(Arr(configuration), "api_key")
    }

    /** `createPayment`: the payment becomes new and is saved. */
    method CreatePayment(payment: Payment)
      modifies payment
      ensures payment.Record() == old(payment.Record()).(state := "new", saves := old(payment.saves) + 1)
    {
      payment.state := "new";
      payment.Save();
    }

    /** `buildPaymentOperations`: the parent's operations, plus `capture` for an authorised payment. */
    method BuildPaymentOperations(parentOperations: map<string, Value>, payment: Payment)
      returns (operations: map<string, Value>)
      ensures payment.state == "authorization" ==> operations == parentOperations["capture" := CaptureOperation]
      ensures payment.state != "authorization" ==> operations == parentOperations
    {
      operations := parentOperations;
      if payment.state == "authorization" {
        operations := operations["capture" := CaptureOperation];
      }
    }

    /**
     * `capturePayment`: the checks, then the capture call with the negated
     * amount, then the payment's new state. The checks throw to the caller;
     * the call's exceptions are caught.
     */
    method CapturePayment(
      payment: Payment, amount: Option<Price>, gateway: G.ViaBillGateway,
      client: O.HttpCall -> O.TransportResult, requestTime: int)
      returns (r: Outcome<Notice>)
      modifies payment
      ensures var checked := CaptureAmount(old(payment.Record()), amount);
        (checked.Throws? ==> r == Throws(checked.message) && payment.Record() == old(payment.Record()))
        && (checked.Returns? ==>
              var reply := gateway.TransactionOutcome(
                CaptureData(old(payment.Record()), ApiKey(), checked.value), "capture_transaction", client);
              var after := Captured(old(payment.Record()), checked.value, reply, requestTime);
              r == Returns(after.1) && payment.Record() == after.0)
    {
      var checked := CaptureAmount(payment.Record(), amount);
      if checked.Throws? {
        return Throws(checked.message);
      }
      var a := checked.value;
      var data := CaptureData(payment.Record(), ApiKey(), a);
      var reply := gateway.CaptureTransaction(data, client);
      r := ApplyCapture(payment, a, reply, requestTime);
    }

    /** The part of `capturePayment` after the call answered. */
    method ApplyCapture(payment: Payment, a: Price, reply: Outcome<Value>, requestTime: int)
      returns (r: Outcome<Notice>)
      modifies payment
      ensures var after := Captured(old(payment.Record()), a, reply, requestTime);
        r == Returns(after.1) && payment.Record() == after.0
    {
      if reply.Throws? {
        return Returns(ErrorMessage("Error processing capture"));
      }
      if !Truthy(reply.value) {
        return Returns(ErrorMessage("captureTransaction failed."));
      }
      var newCaptured := Price(0.0 + a.number, payment.amount.currency);
      if newCaptured == payment.amount {
        payment.state := "completed";
        payment.completedTime := Some(requestTime);
        r := Returns(Status("Payment fully captured"));
      } else {
        payment.state := "completed";
        r := Returns(Status("Payment partially captured: " + PriceText(newCaptured) + " of " + PriceText(payment.amount)));
      }
      payment.Save();
    }

    /** `voidPayment`: an authorised payment is cancelled at the gateway and, on success, voided. */
    method VoidPayment(payment: Payment, gateway: G.ViaBillGateway, client: O.HttpCall -> O.TransportResult)
      returns (r: Outcome<Notice>)
      modifies payment
      ensures old(payment.state) != "authorization" ==>
        r == Throws(InvalidState(old(payment.state))) && payment.Record() == old(payment.Record())
      ensures old(payment.state) == "authorization" ==>
        var reply := gateway.TransactionOutcome(VoidData(old(payment.Record()), ApiKey()), "cancel_transaction", client);
        var after := Voided(old(payment.Record()), reply);
        r == Returns(after.1) && payment.Record() == after.0
    {
      if payment.state != "authorization" {
        return Throws(InvalidState(payment.state));
      }
      var data := VoidData(payment.Record(), ApiKey());
      var reply := gateway.CancelTransaction(data, client);
      r := ApplyVoid(payment, reply);
    }

    /** The part of `voidPayment` after the call answered. */
    method ApplyVoid(payment: Payment, reply: Outcome<Value>) returns (r: Outcome<Notice>)
      modifies payment
      ensures var after := Voided(old(payment.Record()), reply);
        r == Returns(after.1) && payment.Record() == after.0
    {
      if reply.Returns? && Truthy(reply.value) {
        payment.state := "voided";
        payment.Save();
        r := Returns(Status("Payment voided successfully"));
      } else if reply.Returns? {
        r := Returns(ErrorMessage("Void operation failed"));
      } else {
        r := Returns(ErrorMessage("Error processing void"));
      }
    }

    /** `refundPayment`: a completed or partially refunded payment is refunded at the gateway. */
    method RefundPayment(
      payment: Payment, amount: Option<Price>, gateway: G.ViaBillGateway,
      client: O.HttpCall -> O.TransportResult)
      returns (r: Outcome<Notice>)
      modifies payment
      ensures !Refundable(old(payment.Record())) ==>
        r == Throws(InvalidState(old(payment.state))) && payment.Record() == old(payment.Record())
      ensures Refundable(old(payment.Record())) ==>
        var a := amount.GetOr(old(payment.amount));
        var reply := gateway.TransactionOutcome(RefundData(old(payment.Record()), ApiKey(), a), "refund_transaction", client);
        var after := Refunded(old(payment.Record()), a, reply);
        r == Returns(after.1) && payment.Record() == after.0
    {
      if !Refundable(payment.Record()) {
        return Throws(InvalidState(payment.state));
      }
      var a := amount.GetOr(payment.amount);
      var data := RefundData(payment.Record(), ApiKey(), a);
      var reply := gateway.RefundTransaction(data, client);
      r := ApplyRefund(payment, a, reply);
    }

    /** The part of `refundPayment` after the call answered. */
    method ApplyRefund(payment: Payment, a: Price, reply: Outcome<Value>) returns (r: Outcome<Notice>)
      modifies payment
      ensures var after := Refunded(old(payment.Record()), a, reply);
        r == Returns(after.1) && payment.Record() == after.0
    {
      if reply.Throws? {
        return Returns(ErrorMessage("Error processing refund"));
      }
      if !Truthy(reply.value) {
        return Returns(ErrorMessage("Refund operation failed"));
      }
      var previous := payment.refundedAmount;
      if a.currency != previous.currency || previous.currency != payment.amount.currency {
        return Returns(ErrorMessage("Error processing refund"));
      }
      var total := Price(previous.number + a.number, previous.currency);
      if total.number < payment.amount.number {
        payment.state := "partially_refunded";
      } else {
        payment.state := "refunded";
      }
      payment.refundedAmount := total;
      payment.Save();
      r := Returns(Status("Refund processed successfully"));
    }
  }
}
