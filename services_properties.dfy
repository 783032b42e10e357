/**
 * Facts about the fixed end-point table: which paths carry the affiliate,
 * where signatures are required and what their formats contain.
 */
module ServicesProperties {
  import opened Wrappers
  import opened Php
  import opened SignatureFormat
  import opened Services
  import ViaBillConstants

  lemma AddonPathReplaced(row: Endpoint, prefix: string, suffix: string)
    requires row.endpoint == prefix + AddonName + suffix
    requires 'A' !in prefix && 'A' !in suffix
    ensures WithAffiliate(row).endpoint == prefix + ViaBillConstants.Affiliate + suffix
  {
    ReplaceAllOnce(prefix, suffix, AddonName, ViaBillConstants.Affiliate);
  }

  /** The checkout path carries the affiliate in place of `ADDON_NAME`. */
  lemma CheckoutPathResolved()
    ensures WithAffiliate(Checkout).endpoint == "/api/checkout-authorize/addon/" + ViaBillConstants.Affiliate
  {
    assert CheckoutPath == "/api/checkout-authorize/addon/" + AddonName + "";
    AddonPathReplaced(Checkout, "/api/checkout-authorize/addon/", "");
    assert "/api/checkout-authorize/addon/" + ViaBillConstants.Affiliate + ""
        == "/api/checkout-authorize/addon/" + ViaBillConstants.Affiliate;
  }

  /** Replacing `ADDON_NAME` leaves a path that does not mention it unchanged. */
  lemma PathKept(row: Endpoint)
    requires 'A' !in row.endpoint
    ensures WithAffiliate(row).endpoint == row.endpoint
  {
    ReplaceAllAbsent(row.endpoint, AddonName, ViaBillConstants.Affiliate);
  }

  lemma TokensOfJoinedFormat(names: seq<string>)
    requires forall i :: 0 <= i < |names| ==> IsTokenName(names[i])
    ensures Tokens(JoinedFormat(names)) == names
  {
    JoinedShape(names);
    TokensOfFlatten(Joined(names));
  }

  /**
   * The row computes `field` from a format over `tokens`: the last token is
   * `{secret}` and each other token is a required field of the same row.
   */
  predicate SignedBy(row: Endpoint, field: string, tokens: seq<string>) {
    field in row.requiredFields && field in row.formats && row.formats[field] == Some(tokens)
    && |tokens| > 0 && tokens[|tokens| - 1] == "secret"
    && forall i :: 0 <= i < |tokens| - 1 ==> tokens[i] in row.requiredFields
  }

  /** No field is both required and optional. */
  predicate DisjointFields(row: Endpoint) {
    forall f :: f in row.requiredFields ==> f !in row.optionalFields
  }

  lemma AddonRowsShape()
    ensures Login.formats["signature"] == None && "signature" !in Login.requiredFields && DisjointFields(Login)
    ensures Registration.formats["signature"] == None && "signature" !in Registration.requiredFields
    ensures DisjointFields(Registration)
    ensures SignedBy(MyViaBill, "signature", KeyTokens) && DisjointFields(MyViaBill)
    ensures SignedBy(Notifications, "signature", KeyTokens) && DisjointFields(Notifications)
  {
  }

  lemma CheckoutRowShape()
    ensures SignedBy(Checkout, "md5check", CheckoutMd5Tokens) && "signature" !in Checkout.requiredFields
    ensures DisjointFields(Checkout)
  {
  }

  lemma TransactionRowsShape()
    ensures SignedBy(CaptureTransaction, "signature", AmountTokens) && DisjointFields(CaptureTransaction)
    ensures SignedBy(RefundTransaction, "signature", AmountTokens) && DisjointFields(RefundTransaction)
    ensures SignedBy(CancelTransaction, "signature", IdTokens) && DisjointFields(CancelTransaction)
    ensures SignedBy(RenewTransaction, "signature", IdTokens) && DisjointFields(RenewTransaction)
    ensures SignedBy(TransactionStatus, "signature", IdTokens) && DisjointFields(TransactionStatus)
  {
  }

  /** Only the `myviabill`, `notifications` and `transaction_status` end points use GET. */
  lemma GetEndpoints()
    ensures forall name :: name in ApiEndPoints ==>
      (ApiEndPoints[name].httpMethod == "GET"
       <==> name == "myviabill" || name == "notifications" || name == "transaction_status")
  {
  }
}
