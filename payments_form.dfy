/**
 * The offsite checkout form (`ViaBillPaymentsForm`): it signs and assembles
 * the checkout request for an order, marks the order pending, sends the
 * request and returns the redirect URL the gateway answered with. Its
 * helpers summarise the customer and the cart. The form render array is
 * not modelled; the result is the redirect URL.
 */
module PaymentsForm {
  import opened Wrappers
  import opened Php
  import S = Services
  import SF = SignatureFormat
  import P = Primitives
  import H = Helper
  import G = Gateway
  import GP = GatewayProperties
  import O = Outgoing
  import Pay = Payments
  import opened Orders

  // ---------------------------------------------------------------------
  // The order as the form reads it

  datatype Address = Address(
    givenName: string,
    familyName: string,
    addressLine1: string,
    addressLine2: string,
    locality: string,
    postalCode: string,
    countryCode: string)

  /** A billing profile: whether it has an `address` field and its items, and whether it has a `field_phone` field. */
  datatype BillingProfile = BillingProfile(hasAddressField: bool, addresses: seq<Address>, hasPhoneField: bool)

  /** An adjustment: its type and its amount's number. */
  datatype Adjustment = Adjustment(kind: string, amount: real)

  datatype PurchasedEntity = PurchasedEntity(id: Value, sku: string)

  /** An order item; the quantity is Commerce's decimal quantity. */
  datatype OrderItem = OrderItem(
    id: Value,
    purchased: Option<PurchasedEntity>,
    title: string,
    quantity: real,
    unitPrice: real,
    adjustments: seq<Adjustment>,
    totalPrice: real)

  /** What the form reads from the order besides its id, state and data; `created` is the formatted creation date. */
  datatype OrderContents = OrderContents(
    email: Value,
    billing: Option<BillingProfile>,
    total: Pay.Price,
    subtotal: real,
    adjustments: seq<Adjustment>,
    items: seq<OrderItem>,
    created: string)

  // ---------------------------------------------------------------------
  // buildCustomerData

  const CustomerKeys: set<string> :=
    {"email", "phoneNumber", "firstName", "lastName", "fullName", "address", "city", "postalCode", "country"}

  function EmptyCustomer(): map<string, Value> {
    map k | k in CustomerKeys :: Str("")
  }

  /** The billing address `buildCustomerData` reads: the first one, when the profile has a non-empty address field. */
  function BillingAddress(billing: Option<BillingProfile>): Option<Address> {
    if billing.Some? && billing.value.hasAddressField && |billing.value.addresses| > 0 then
      Some(billing.value.addresses[0])
    else None
  }

  /**
   * `buildCustomerData`: nine keys, all '' by default; with a billing
   * address, the email and the address parts (line 1 and line 2 joined by
   * ', '); and `phoneNumber` TRUE when the profile has a phone field.
   */
  function CustomerData(contents: OrderContents): map<string, Value> {
    var data := EmptyCustomer();
    match BillingAddress(contents.billing)
    case None => data
    case Some(a) =>
      var filled := data
        ["email" := contents.email]
        ["firstName" := Str(a.givenName)]
        ["lastName" := Str(a.familyName)]
        ["address" := Str(a.addressLine1 + ", " + a.addressLine2)]
        ["city" := Str(a.locality)]
        ["postalCode" := Str(a.postalCode)]
        ["country" := Str(a.countryCode)];
      if contents.billing.value.hasPhoneField then filled["phoneNumber" := Bool(true)] else filled
  }

  /**
   * The customer data always has exactly the nine keys; `fullName` is never
   * filled; `phoneNumber` is '' or the boolean TRUE, never a number; and
   * without a billing address every value is ''.
   */
  lemma CustomerDataShape(contents: OrderContents)
    ensures var d := CustomerData(contents);
      var a := BillingAddress(contents.billing);
      d.Keys == CustomerKeys
      && d["fullName"] == Str("")
      && (d["phoneNumber"] == Bool(true) <==> a.Some? && contents.billing.value.hasPhoneField)
      && (d["phoneNumber"] != Bool(true) ==> d["phoneNumber"] == Str(""))
      && (a.None? ==> forall k :: k in d ==> d[k] == Str(""))
      && (a.Some? ==>
            d["email"] == contents.email
            && d["address"] == Str(a.value.addressLine1 + ", " + a.value.addressLine2)
            && d["firstName"] == Str(a.value.givenName) && d["lastName"] == Str(a.value.familyName)
            && d["city"] == Str(a.value.locality) && d["postalCode"] == Str(a.value.postalCode)
            && d["country"] == Str(a.value.countryCode))
  {
  }

  // ---------------------------------------------------------------------
  // addressesAreEqual

  /** `$x == $y` on two strings: numerically when both are numeric. */
  predicate SameText(x: string, y: string) {
    LooseEqualsString(Str(x), y)
  }

  /** `addressesAreEqual`: FALSE when either is missing; otherwise six parts compared loosely, line 2 ignored. */
  function AddressesAreEqual(a1: Option<Address>, a2: Option<Address>): bool {
    if a1.None? || a2.None? then false
    else
      var x, y := a1.value, a2.value;
      SameText(x.givenName, y.givenName) && SameText(x.familyName, y.familyName)
      && SameText(x.addressLine1, y.addressLine1) && SameText(x.locality, y.locality)
      && SameText(x.postalCode, y.postalCode) && SameText(x.countryCode, y.countryCode)
  }

  lemma SameTextReflexive(x: string)
    ensures SameText(x, x)
  {
  }

  lemma SameTextSymmetric(x: string, y: string)
    ensures SameText(x, y) == SameText(y, x)
  {
  }

  /**
   * Comparing addresses is symmetric; a present address equals itself and
   * any address differing from it in line 2 only; a missing one equals
   * nothing.
   */
  lemma AddressesAreEqualCases(a1: Option<Address>, a2: Option<Address>, line2: string)
    ensures a1.None? || a2.None? ==> !AddressesAreEqual(a1, a2)
    ensures AddressesAreEqual(a1, a2) == AddressesAreEqual(a2, a1)
    ensures a1.Some? ==> AddressesAreEqual(a1, Some(a1.value.(addressLine2 := line2)))
  {
    if a1.Some? && a2.Some? {
      var x, y := a1.value, a2.value;
      SameTextSymmetric(x.givenName, y.givenName);
      SameTextSymmetric(x.familyName, y.familyName);
      SameTextSymmetric(x.addressLine1, y.addressLine1);
      SameTextSymmetric(x.locality, y.locality);
      SameTextSymmetric(x.postalCode, y.postalCode);
      SameTextSymmetric(x.countryCode, y.countryCode);
    }
    if a1.Some? {
      var x := a1.value;
      SameTextReflexive(x.givenName);
      SameTextReflexive(x.familyName);
      SameTextReflexive(x.addressLine1);
      SameTextReflexive(x.locality);
      SameTextReflexive(x.postalCode);
      SameTextReflexive(x.countryCode);
    }
  }

  /** Postal codes that are numeric compare as numbers: '0123' and '123' are the same code. */
  lemma NumericPostalCodesCompareAsNumbers(a: Address)
    requires a.postalCode == "0123"
    ensures AddressesAreEqual(Some(a), Some(a.(postalCode := "123")))
  {
    LeadingZeroValue();
    SameTextReflexive(a.givenName);
    SameTextReflexive(a.familyName);
    SameTextReflexive(a.addressLine1);
    SameTextReflexive(a.locality);
    SameTextReflexive(a.countryCode);
  }

  /** '0123' and '123' both denote 123. */
  lemma LeadingZeroValue()
    ensures NumericValue("0123") == Some(123.0) && NumericValue("123") == Some(123.0)
  {
    assert '.' !in "0123" && '.' !in "123";
    assert "0123"[..3] == "012" && "012"[..2] == "01" && "01"[..1] == "0";
    assert "123"[..2] == "12" && "12"[..1] == "1";
    assert DigitsValue("0123") == 123;
  }

  // ---------------------------------------------------------------------
  // calculateTotalItems and buildCartData

  /** PHP's `(int)` of a decimal: truncation toward zero. */
  function IntCast(x: real): int {
    if x >= 0.0 then x.Floor else -((-x).Floor)
  }

  /** The sum of the items' integer-cast quantities. */
  function TotalItems(items: seq<OrderItem>): int {
    if items == [] then 0 else TotalItems(items[..|items| - 1]) + IntCast(items[|items| - 1].quantity)
  }

  /** The total of a concatenation is the sum of the totals. */
  lemma {:induction false} TotalItemsConcat(a: seq<OrderItem>, b: seq<OrderItem>)
    ensures TotalItems(a + b) == TotalItems(a) + TotalItems(b)
    decreases |b|
  {
    if b == [] {
      assert a + b == a;
    } else {
      assert (a + b)[..|a + b| - 1] == a + b[..|b| - 1];
      TotalItemsConcat(a, b[..|b| - 1]);
    }
  }

  /** With non-negative quantities, the total is between 0 and the sum of the quantities less their fractions. */
  lemma {:induction false} TotalItemsBounds(items: seq<OrderItem>)
    requires forall i :: 0 <= i < |items| ==> items[i].quantity >= 0.0
    ensures 0 <= TotalItems(items)
    ensures forall i :: 0 <= i < |items| && items[i].quantity >= 1.0 ==> TotalItems(items) >= 1
    decreases |items|
  {
    if items != [] {
      var init := items[..|items| - 1];
      TotalItemsBounds(init);
      forall i | 0 <= i < |items| && items[i].quantity >= 1.0
        ensures TotalItems(items) >= 1
      {
        if i < |items| - 1 {
          assert init[i] == items[i];
        }
      }
    }
  }

  /** `calculateTotalItems`. */
  method CalculateTotalItems(items: seq<OrderItem>) returns (quantity: int)
    ensures quantity == TotalItems(items)
  {
    quantity := 0;
    for i := 0 to |items|
      invariant quantity == TotalItems(items[..i])
    {
      assert items[..i + 1][..i] == items[..i];
      quantity := quantity + IntCast(items[i].quantity);
    }
    assert items[..|items|] == items;
  }

  /** The sum of the amounts of the adjustments of a type; `promotion` amounts are counted by magnitude when `magnitude` holds. */
  function SumOfKind(adjustments: seq<Adjustment>, kind: string, magnitude: bool): real {
    if adjustments == [] then 0.0
    else
      var last := adjustments[|adjustments| - 1];
      var x := if magnitude && last.amount < 0.0 then -last.amount else last.amount;
      SumOfKind(adjustments[..|adjustments| - 1], kind, magnitude) + (if last.kind == kind then x else 0.0)
  }

  /** A sum of magnitudes is never negative, so the discount is never negative. */
  lemma {:induction false} MagnitudeSumNonNegative(adjustments: seq<Adjustment>, kind: string)
    ensures SumOfKind(adjustments, kind, true) >= 0.0
    decreases |adjustments|
  {
    if adjustments != [] {
      MagnitudeSumNonNegative(adjustments[..|adjustments| - 1], kind);
    }
  }

  /** Adjustments of other types do not count. */
  lemma {:induction false} SumIgnoresOtherKinds(adjustments: seq<Adjustment>, kind: string, magnitude: bool)
    requires forall i :: 0 <= i < |adjustments| ==> adjustments[i].kind != kind
    ensures SumOfKind(adjustments, kind, magnitude) == 0.0
    decreases |adjustments|
  {
    if adjustments != [] {
      SumIgnoresOtherKinds(adjustments[..|adjustments| - 1], kind, magnitude);
    }
  }

  /** One product line of the cart. */
  datatype CartItem = CartItem(id: Value, name: string, quantity: int, unitPrice: real, tax: real, subtotal: real, sku: string)

  datatype CartData = CartData(
    dateCreated: string,
    subtotal: real,
    tax: real,
    shipping: real,
    discount: real,
    total: real,
    currency: string,
    quantity: int,
    products: seq<CartItem>,
    orderId: int)

  /** The product line of an item: the purchased entity's id and SKU when there is one, the item's id and '' otherwise. */
  function CartItemOf(item: OrderItem): CartItem {
    CartItem(
      if item.purchased.Some? then item.purchased.value.id else item.id,
      item.title,
      IntCast(item.quantity),
      item.unitPrice,
      SumOfKind(item.adjustments, "tax", false),
      item.totalPrice,
      if item.purchased.Some? then item.purchased.value.sku else "")
  }

  /** The sum of the product lines' quantities. */
  function ProductQuantities(products: seq<CartItem>): int {
    if products == [] then 0 else ProductQuantities(products[..|products| - 1]) + products[|products| - 1].quantity
  }

  /** The cart's `quantity` agrees with its product lines: both sum the integer-cast quantities. */
  lemma {:induction false} QuantityMatchesProducts(items: seq<OrderItem>, products: seq<CartItem>)
    requires |products| == |items| && forall i :: 0 <= i < |items| ==> products[i] == CartItemOf(items[i])
    ensures ProductQuantities(products) == TotalItems(items)
    decreases |items|
  {
    if items != [] {
      QuantityMatchesProducts(items[..|items| - 1], products[..|products| - 1]);
    }
  }

  /** The tax, shipping and discount totals over the order's adjustments (one pass, as the source does). */
  method AdjustmentTotals(adjustments: seq<Adjustment>) returns (tax: real, shipping: real, discount: real)
    ensures tax == SumOfKind(adjustments, "tax", false)
    ensures shipping == SumOfKind(adjustments, "shipping", false)
    ensures discount == SumOfKind(adjustments, "promotion", true) && discount >= 0.0
  {
    tax, shipping, discount := 0.0, 0.0, 0.0;
    for i := 0 to |adjustments|
      invariant tax == SumOfKind(adjustments[..i], "tax", false)
      invariant shipping == SumOfKind(adjustments[..i], "shipping", false)
      invariant discount == SumOfKind(adjustments[..i], "promotion", true)
    {
      assert adjustments[..i + 1][..i] == adjustments[..i];
      var adjustment := adjustments[i];
      if adjustment.kind == "tax" {
        tax := tax + adjustment.amount;
      }
      if adjustment.kind == "shipping" {
        shipping := shipping + adjustment.amount;
      }
      if adjustment.kind == "promotion" {
        discount := discount + (if adjustment.amount < 0.0 then -adjustment.amount else adjustment.amount);
      }
    }
    assert adjustments[..|adjustments|] == adjustments;
    MagnitudeSumNonNegative(adjustments, "promotion");
  }

  /** An item's tax: the sum of its `tax` adjustments. */
  method ItemTax(adjustments: seq<Adjustment>) returns (tax: real)
    ensures tax == SumOfKind(adjustments, "tax", false)
  {
    tax := 0.0;
    for i := 0 to |adjustments|
      invariant tax == SumOfKind(adjustments[..i], "tax", false)
    {
      assert adjustments[..i + 1][..i] == adjustments[..i];
      if adjustments[i].kind == "tax" {
        tax := tax + adjustments[i].amount;
      }
    }
    assert adjustments[..|adjustments|] == adjustments;
  }

  /**
   * `buildCartData`: the adjustment totals, one product line per item in
   * order, the item count, and the order's totals. Amounts are exact
   * decimals here, where PHP sums floats.
   */
  method BuildCartData(orderId: int, contents: OrderContents) returns (cart: CartData)
    ensures cart.tax == SumOfKind(contents.adjustments, "tax", false)
    ensures cart.shipping == SumOfKind(contents.adjustments, "shipping", false)
    ensures cart.discount == SumOfKind(contents.adjustments, "promotion", true) && cart.discount >= 0.0
    ensures |cart.products| == |contents.items|
    ensures forall i :: 0 <= i < |contents.items| ==> cart.products[i] == CartItemOf(contents.items[i])
    ensures cart.quantity == TotalItems(contents.items) == ProductQuantities(cart.products)
    ensures cart.subtotal == contents.subtotal && cart.total == contents.total.number
    ensures cart.currency == contents.total.currency && cart.orderId == orderId
    ensures cart.dateCreated == contents.created
  {
    var tax, shipping, discount := AdjustmentTotals(contents.adjustments);
    var products: seq<CartItem> := [];
    for i := 0 to |contents.items|
      invariant |products| == i
      invariant forall j :: 0 <= j < i ==> products[j] == CartItemOf(contents.items[j])
    {
      var item := contents.items[i];
      var itemTax := ItemTax(item.adjustments);
      products := products + [CartItem(
        if item.purchased.Some? then item.purchased.value.id else item.id,
        item.title,
        IntCast(item.quantity),
        item.unitPrice,
        itemTax,
        item.totalPrice,
        if item.purchased.Some? then item.purchased.value.sku else "")];
    }
    var quantity := CalculateTotalItems(contents.items);
    QuantityMatchesProducts(contents.items, products);
    cart := CartData(contents.created, contents.subtotal, tax, shipping, discount,
      contents.total.number, contents.total.currency, quantity, products, orderId);
  }

  // ---------------------------------------------------------------------
  // The checkout request

  /** The values `buildConfigurationForm` puts into the request. */
  datatype CheckoutInput = CheckoutInput(
    orderId: int,
    apiKey: Value,
    secret: Value,
    transactionId: string,
    amount: string,
    currency: string,
    successUrl: string,
    cancelUrl: string,
    callbackUrl: string,
    test: Value,
    customer: map<string, Value>,
    tbyb: Value,
    platform: string)

  /** The values signed by `md5check`, in order (each as `implode` writes it). */
  function SignatureData(c: CheckoutInput): (r: seq<string>)
    ensures |r| == |S.CheckoutMd5Tokens|
  {
    [ToStr(c.apiKey), c.amount, c.currency, c.transactionId, IntToStr(c.orderId), c.successUrl, c.cancelUrl, ToStr(c.secret)]
  }

  function Md5Check(c: CheckoutInput): string {
    P.Md5(Implode("#", SignatureData(c)))
  }

  /** `request_data`: fourteen entries; the cart is not sent. */
  function RequestData(c: CheckoutInput): map<string, Value> {
    map[
      "order_number" := Int(c.orderId),
      "apikey" := c.apiKey,
      "secret" := c.secret,
      "transaction" := Str(c.transactionId),
      "amount" := Str(c.amount),
      "currency" := Str(c.currency),
      "success_url" := Str(c.successUrl),
      "cancel_url" := Str(c.cancelUrl),
      "callback_url" := Str(c.callbackUrl),
      "test" := c.test,
      "customParams" := Arr(c.customer),
      "md5check" := Str(Md5Check(c)),
      "tbyb" := c.tbyb,
      "platform" := Str(c.platform)]
  }

  /** The request carries `apikey`, so it is never a forced request. */
  lemma RequestNotForced(c: CheckoutInput)
    ensures !G.IsForceRequest(RequestData(c))
  {
  }

  /** The request as `checkout` passes it on: with `protocol` set to '3.0'. */
  function SentInput(c: CheckoutInput): map<string, Value> {
    RequestData(c)["protocol" := Str(G.ApiProtocol)]
  }

  /**
   * The form's own `md5check` is not what is sent: the gateway recomputes
   * it from the registry's checkout format over the request, which gives
   * the signed values joined by `#` and trimmed, the same text the form
   * signs whenever no value holds a `{`.
   */
  lemma SentSignatureMatchesForm(g: G.ViaBillGateway, c: CheckoutInput)
    requires forall i :: 0 <= i < |SignatureData(c)| ==> '{' !in SignatureData(c)[i]
    ensures g.ParseFormatSpec(S.JoinedFormat(S.CheckoutMd5Tokens), SentInput(c))
      == Returns(Trim(Implode("#", SignatureData(c))))
  {
    ResolvesToSignature(g, c);
    Md5TokenNames();
    JoinedSignature(g, S.CheckoutMd5Tokens, SentInput(c), SignatureData(c));
  }

  /**
   * What the gateway builds from the form's request: the form's `secret`,
   * `tbyb` and `platform` are in the request but never sent, the protocol
   * sent is '3.0', and the `md5check` sent is the MD5 of the signed values
   * joined by `#` and trimmed.
   */
  lemma FormRequestAsSent(g: G.ViaBillGateway, c: CheckoutInput)
    requires forall i :: 0 <= i < |SignatureData(c)| ==> '{' !in SignatureData(c)[i]
    ensures var input := SentInput(c);
      var r := g.EndPointData("checkout", input);
      "secret" in input && "tbyb" in input && "platform" in input
      && (r.Some? ==>
            "secret" !in r.value.data && "tbyb" !in r.value.data && "platform" !in r.value.data
            && "protocol" in r.value.data && r.value.data["protocol"] == Str(G.ApiProtocol)
            && "md5check" in r.value.data
            && r.value.data["md5check"] == Str(P.Md5(Trim(Implode("#", SignatureData(c))))))
  {
    var input := SentInput(c);
    SignedEntriesCancel(c);
    ExtraEntries(c);
    GP.CheckoutRow();
    var ed := S.GetApiEndPoint("checkout");
    assert g.EndPointData("checkout", input) == g.BuildRequest(ed, input);
    if g.BuildRequest(ed, input).Some? {
      GP.CheckoutRequestKeys(g, ed, input);
      GP.CheckoutRequestSigned(g, ed, input);
      SentSignatureMatchesForm(g, c);
      GP.CheckoutProtocol(g, RequestData(c));
    }
  }

  lemma ExtraEntries(c: CheckoutInput)
    ensures var d := SentInput(c);
      "tbyb" in d && "platform" in d && "secret" in d
  {
    assert "tbyb" in RequestData(c) && "platform" in RequestData(c);
  }

  /** An entry other than `protocol` is the same in the sent request. */
  lemma ProtocolKeeps(d: map<string, Value>, key: string)
    requires key in d && key != "protocol"
    ensures var e := d["protocol" := Str(G.ApiProtocol)]; key in e && e[key] == d[key]
  {
  }

  /** A joined format over data whose tokens resolve to `values` without a `{`. */
  lemma JoinedSignature(g: G.ViaBillGateway, names: seq<string>, d: map<string, Value>, values: seq<string>)
    requires |values| == |names|
    requires forall i :: 0 <= i < |names| ==> SF.IsTokenName(names[i])
    requires forall i :: 0 <= i < |values| ==> g.Resolve(names[i], d) == Some(values[i]) && '{' !in values[i]
    ensures g.ParseFormatSpec(S.JoinedFormat(names), d) == Returns(Trim(Implode("#", values)))
  {
    ResolvedAre(g, names, d, values);
    g.ParseJoined(names, d);
    SameJoin(g.ResolvedValues(names, d), values);
  }

  lemma SameJoin(a: seq<string>, b: seq<string>)
    requires a == b
    ensures Returns(Trim(Implode("#", a))) == Returns(Trim(Implode("#", b)))
  {
  }

  lemma ResolvedAre(g: G.ViaBillGateway, names: seq<string>, d: map<string, Value>, values: seq<string>)
    requires |values| == |names|
    requires forall i :: 0 <= i < |values| ==> g.Resolve(names[i], d) == Some(values[i])
    ensures g.ResolvedValues(names, d) == values
  {
  }

  /** The gateway resolves each signed token of the request to the corresponding signed value. */
  lemma ResolvesToSignature(g: G.ViaBillGateway, c: CheckoutInput)
    ensures forall i :: 0 <= i < |S.CheckoutMd5Tokens| ==>
      g.Resolve(S.CheckoutMd5Tokens[i], SentInput(c)) == Some(SignatureData(c)[i])
  {
    var d := RequestData(c);
    var e := SentInput(c);
    Md5Tokens();
    SignedEntriesKey(c);
    SignedEntriesCurrency(c);
    SignedEntriesOrder(c);
    SignedEntriesCancel(c);
    ProtocolKeeps(d, "apikey");
    ProtocolKeeps(d, "amount");
    ProtocolKeeps(d, "currency");
    ProtocolKeeps(d, "transaction");
    ProtocolKeeps(d, "order_number");
    ProtocolKeeps(d, "success_url");
    ProtocolKeeps(d, "cancel_url");
    ProtocolKeeps(d, "secret");
    ResolvesEntry(g, e, "apikey");
    ResolvesEntry(g, e, "amount");
    ResolvesEntry(g, e, "currency");
    ResolvesEntry(g, e, "transaction");
    ResolvesEntry(g, e, "order_number");
    ResolvesEntry(g, e, "success_url");
    ResolvesEntry(g, e, "cancel_url");
    ResolvesEntry(g, e, "secret");
  }

  /** A present token other than `country` resolves to its value's text. */
  lemma ResolvesEntry(g: G.ViaBillGateway, d: map<string, Value>, key: string)
    requires key in d && key != "country"
    ensures g.Resolve(key, d) == Some(ToStr(d[key]))
  {
  }

  lemma Md5Tokens()
    ensures S.CheckoutMd5Tokens == ["apikey", "amount", "currency", "transaction", "order_number", "success_url", "cancel_url", "secret"]
  {
  }

  /** The request's signed entries, two at a time. */
  lemma SignedEntriesKey(c: CheckoutInput)
    ensures var d := RequestData(c);
      "apikey" in d && d["apikey"] == c.apiKey && "amount" in d && d["amount"] == Str(c.amount)
  {
  }

  lemma SignedEntriesCurrency(c: CheckoutInput)
    ensures var d := RequestData(c);
      "currency" in d && d["currency"] == Str(c.currency) && "transaction" in d && d["transaction"] == Str(c.transactionId)
  {
  }

  lemma SignedEntriesOrder(c: CheckoutInput)
    ensures var d := RequestData(c);
      "order_number" in d && d["order_number"] == Int(c.orderId) && "success_url" in d && d["success_url"] == Str(c.successUrl)
  {
  }

  lemma SignedEntriesCancel(c: CheckoutInput)
    ensures var d := RequestData(c);
      "cancel_url" in d && d["cancel_url"] == Str(c.cancelUrl) && "secret" in d && d["secret"] == c.secret
  {
  }

  lemma Md5TokenNames()
    ensures forall i :: 0 <= i < |S.CheckoutMd5Tokens| ==> SF.IsTokenName(S.CheckoutMd5Tokens[i])
  {
  }

  // ---------------------------------------------------------------------
  // buildConfigurationForm

  /** The three URLs, from Drupal's routing (not modelled). */
  datatype CheckoutUrls = CheckoutUrls(success: string, cancel: string, callback: string)

  /** Both credentials are set (non-empty). */
  predicate HasCredentials(configuration: map<string, Value>) {
    Truthy(Lookup(Arr(configuration), "api_key")) && Truthy(Lookup(Arr(configuration), "api_secret"))
  }

  /**
   * The order before the checkout call: its data carries the transaction
   * id, the first available transition to `pending` (if any) is applied,
   * and it is saved once.
   */
  function PendingOrder(o: OrderRecord, transactionId: string): OrderRecord {
    var tagged := o.(data := o.data["viabill_transaction_id" := Str(transactionId)]);
    Transitioned(tagged, "pending").(saves := o.saves + 1)
  }

  /**
   * The order keeps its id, gateway and workflow, carries the transaction
   * id, is saved exactly once, and becomes pending exactly when its
   * workflow allows it (at most one transition is applied).
   */
  lemma PendingOrderCases(o: OrderRecord, transactionId: string)
    ensures var r := PendingOrder(o, transactionId);
      var possible := exists t :: t in o.workflow && o.state in t.from && t.to == "pending";
      r.id == o.id && r.gatewayId == o.gatewayId && r.workflow == o.workflow
      && r.data == o.data["viabill_transaction_id" := Str(transactionId)]
      && r.saves == o.saves + 1
      && (possible ==> r.state == "pending")
      && (!possible ==> r.state == o.state)
  {
    TransitionedCases(o.(data := o.data["viabill_transaction_id" := Str(transactionId)]), "pending");
  }

  /** What the gateway's sender returns for the checkout request. */
  function CheckoutSent(gateway: G.ViaBillGateway, input: map<string, Value>, client: O.HttpCall -> O.TransportResult)
    : Outcome<Option<O.Output>>
  {
    gateway.RequestDataResult(input, "checkout", client)
  }

  const MissingRedirect := "Invalid gateway response: Missing redirect URL"

  /** What the form returns after the checkout call: the redirect URL, or the exception, prefixed. */
  function CheckoutRedirect(sent: Outcome<Option<O.Output>>, input: map<string, Value>): (r: Outcome<Value>)
    ensures r.Returns? ==> Truthy(r.value)
  {
    match sent
    case Throws(message) => Throws("Error processing payment: " + message)
    case Returns(response) =>
      match G.CheckoutOutcome(input, response)
      case RequestAlreadyMade => Throws("Error processing payment: " + MissingRedirect)
      case CheckoutResult(url, _, _, _) =>
        if Truthy(url) then Returns(url) else Throws("Error processing payment: " + MissingRedirect)
  }

  /**
   * A redirect URL is returned exactly when the gateway answered with a
   * 301 or 302 carrying a `Location`; every other outcome is an exception
   * whose message starts with 'Error processing payment: '.
   */
  lemma CheckoutRedirectCases(sent: Outcome<Option<O.Output>>, input: map<string, Value>)
    ensures var r := CheckoutRedirect(sent, input);
      (r.Returns? <==>
        sent.Returns? && sent.value.Some?
        && (sent.value.value.status == 301 || sent.value.value.status == 302)
        && Truthy(G.LocationOf(sent.value.value)))
      && (r.Returns? ==> r.value == G.LocationOf(sent.value.value))
      && (r.Throws? ==> |r.message| >= 26 && r.message[..26] == "Error processing payment: ")
  {
    var r := CheckoutRedirect(sent, input);
    if r.Throws? {
      var rest := if sent.Throws? then sent.message else MissingRedirect;
      assert r.message == "Error processing payment: " + rest;
      assert r.message[..26] == "Error processing payment: ";
    }
  }

  class ViaBillPaymentsForm {
    const storage: Storage
    /** The gateway plugin's configuration. */
    const configuration: map<string, Value>

    constructor (storage: Storage, configuration: map<string, Value>)
      ensures this.storage == storage && this.configuration == configuration
    {
      this.storage := storage;
      this.configuration := configuration;
    }

    /** The request's values for an order, a transaction id and the URLs. */
    function Input(o: OrderRecord, contents: OrderContents, transactionId: string, urls: CheckoutUrls, test: Value, tbyb: Value)
      : CheckoutInput
    {
      CheckoutInput(
        o.id,
        Lookup(Arr(configuration), "api_key"),
        Lookup(Arr(configuration), "api_secret"),
        transactionId,
        H.FormatAmount(Float(contents.total.number)),
        contents.total.currency,
        urls.success, urls.cancel, urls.callback,
        test,
        CustomerData(contents),
        tbyb,
        H.ApiPlatform())
    }

    /**
     * `buildConfigurationForm`: the order (`None` when the payment has
     * none), the credentials check, the transaction id from the draws of
     * `random_int`, the signed request, the order set pending and saved,
     * then the checkout call. The credentials are checked before the order
     * is touched; every exception is rethrown with the prefix 'Error
     * processing payment: '.
     */
    method BuildConfigurationForm(
      order: Option<nat>, contents: OrderContents, urls: CheckoutUrls, draws: seq<int>,
      helper: H.ViaBillHelper, gateway: G.ViaBillGateway, client: O.HttpCall -> O.TransportResult)
      returns (r: Outcome<Value>)
      requires order.Some? ==> order.value < |storage.orders|
      requires 10 <= |draws| && forall i :: 0 <= i < |draws| ==> 0 <= draws[i] < |H.Alphabet|
      modifies storage
      ensures storage.payments == old(storage.payments)
      ensures order.None? ==>
        r == Throws("Error processing payment: Invalid order object") && storage.orders == old(storage.orders)
      ensures order.Some? && !HasCredentials(configuration) ==>
        r == Throws("Error processing payment: Missing ViaBill API credentials") && storage.orders == old(storage.orders)
      ensures order.Some? && HasCredentials(configuration) ==>
        var o := old(storage.orders[order.value]);
        var transactionId := H.TransactionIdText(Int(o.id), draws);
        var input := SentInput(Input(o, contents, transactionId, urls,
          helper.GetFormattedTestMode(), helper.GetFormattedTbyb()));
        storage.orders == old(storage.orders)[order.value := PendingOrder(o, transactionId)]
        && r == CheckoutRedirect(CheckoutSent(gateway, input, client), input)
    {
      if order.None? {
        return Throws("Error processing payment: Invalid order object");
      }
      var k := order.value;
      if !HasCredentials(configuration) {
        return Throws("Error processing payment: Missing ViaBill API credentials");
      }
      var transactionId, requestData := Prepare(storage.orders[k], contents, urls, draws, helper);
      r := Submit(k, transactionId, requestData, gateway, client);
    }

    /** The transaction id, the cart and the request for an order; nothing is stored. */
    method Prepare(o: OrderRecord, contents: OrderContents, urls: CheckoutUrls, draws: seq<int>, helper: H.ViaBillHelper)
      returns (transactionId: string, requestData: map<string, Value>)
      requires 10 <= |draws| && forall i :: 0 <= i < |draws| ==> 0 <= draws[i] < |H.Alphabet|
      ensures transactionId == H.TransactionIdText(Int(o.id), draws)
      ensures requestData == RequestData(Input(o, contents, transactionId, urls,
        helper.GetFormattedTestMode(), helper.GetFormattedTbyb()))
    {
      transactionId := helper.FormatTransactionId(Int(o.id), draws);
      var cart := BuildCartData(o.id, contents);
      var c := Input(o, contents, transactionId, urls, helper.GetFormattedTestMode(), helper.GetFormattedTbyb());
      requestData := RequestData(c);
    }

    /** The order set pending and saved, then the checkout call and its redirect URL. */
    method Submit(k: nat, transactionId: string, requestData: map<string, Value>,
      gateway: G.ViaBillGateway, client: O.HttpCall -> O.TransportResult)
      returns (r: Outcome<Value>)
      requires k < |storage.orders|
      modifies storage
      ensures storage.orders == old(storage.orders)[k := PendingOrder(old(storage.orders[k]), transactionId)]
      ensures storage.payments == old(storage.payments)
      ensures var input := requestData["protocol" := Str(G.ApiProtocol)];
        r == CheckoutRedirect(CheckoutSent(gateway, input, client), input)
    {
      MarkPending(k, transactionId);
      var response := gateway.Checkout(requestData, client);
      if response.Throws? {
        return Throws("Error processing payment: " + response.message);
      }
      var redirectUrl := if response.value.CheckoutResult? then response.value.redirectUrl else Null;
      if !Truthy(redirectUrl) {
        return Throws("Error processing payment: " + MissingRedirect);
      }
      r := Returns(redirectUrl);
    }

    /** The `foreach` over the available transitions: the position of the first one to `pending`, or their count. */
    static method FirstPending(transitions: seq<Transition>) returns (at: nat)
      ensures at <= |transitions|
      ensures at < |transitions| ==> transitions[at].to == "pending"
      ensures forall j :: 0 <= j < at ==> transitions[j].to != "pending"
    {
      at := |transitions|;
      for i := 0 to |transitions|
        invariant forall j :: 0 <= j < i ==> transitions[j].to != "pending"
      {
        if transitions[i].to == "pending" {
          return i;
        }
      }
    }

    /** The order update before the checkout call: the transaction id, the first transition to `pending`, one save. */
    method MarkPending(k: nat, transactionId: string)
      requires k < |storage.orders|
      modifies storage
      ensures storage.orders == old(storage.orders)[k := PendingOrder(old(storage.orders[k]), transactionId)]
      ensures storage.payments == old(storage.payments)
    {
      var o := storage.orders[k];
      var tagged := o.(data := o.data["viabill_transaction_id" := Str(transactionId)]);
      var transitions := Available(tagged.workflow, tagged.state);
      var at := FirstPending(transitions);
      var updated := tagged;
      if at < |transitions| {
        TransitionedAt(tagged, "pending", transitions, at);
        updated := tagged.(state := "pending");
      } else {
        TransitionedNone(tagged, "pending", transitions);
      }
      storage.orders := storage.orders[k := updated.(saves := o.saves + 1)];
    }
  }
}
