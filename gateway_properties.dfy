/**
 * Facts about the gateway on particular end points and on the default
 * callback format.
 */
module GatewayProperties {
  import opened Wrappers
  import opened Php
  import opened SignatureFormat
  import S = Services
  import SP = ServicesProperties
  import P = Primitives
  import opened Gateway

  /** The tokens of the default callback format other than `secret`: the callback must carry them. */
  const CallbackFields: seq<string> := ["transaction", "orderNumber", "amount", "currency", "status", "time"]

  /** The callback carries the six fields, and none of their texts holds a `{`. */
  predicate CallbackFieldsPresent(data: map<string, Value>) {
    forall i :: 0 <= i < |CallbackFields| ==> CallbackFields[i] in data && '{' !in ToStr(data[CallbackFields[i]])
  }

  /** The texts of the six fields, in format order. */
  function CallbackValues(data: map<string, Value>): (r: seq<string>)
    requires CallbackFieldsPresent(data)
    ensures |r| == |CallbackFields|
  {
    seq(|CallbackFields|, i requires 0 <= i < |CallbackFields| => ToStr(data[CallbackFields[i]]))
  }

  lemma CallbackTokenNames()
    ensures forall i :: 0 <= i < |CallbackTokens| ==> IsTokenName(CallbackTokens[i])
  {
  }

  /** The tokens of the default callback format are its seven names. */
  lemma DefaultCallbackTokens()
    ensures Tokens(DefaultCallbackFormat()) == CallbackTokens
  {
    CallbackTokenNames();
    SP.TokensOfJoinedFormat(CallbackTokens);
  }

  /** An empty or blank format (or '0') selects the default. */
  lemma BlankFormatIsDefault(format: string)
    requires forall i :: 0 <= i < |format| ==> IsTrimChar(format[i])
    ensures CallbackFormat(format) == DefaultCallbackFormat()
  {
    assert Trim(format) == [];
  }

  /** The tokens of the default format resolve, in order, to the six fields' texts and the secret. */
  lemma CallbackResolved(g: ViaBillGateway, data: map<string, Value>)
    requires "signature" in data && CallbackFieldsPresent(data)
    requires "secret" in data ==> '{' !in ToStr(data["secret"])
    requires "secret" !in data ==> '{' !in g.apiSecret
    ensures var rest := data - {"signature"};
      var secret := if "secret" in data then ToStr(data["secret"]) else g.apiSecret;
      g.ParseFormatSpec(DefaultCallbackFormat(), rest) == Returns(Trim(Implode("#", CallbackValues(data) + [secret])))
  {
    var rest := data - {"signature"};
    var secret := if "secret" in data then ToStr(data["secret"]) else g.apiSecret;
    CallbackTokenNames();
    var values := CallbackValues(data) + [secret];
    CallbackTokenValues(g, data, secret);
    assert forall i :: 0 <= i < |values| ==> '{' !in values[i];
    g.ParseJoined(CallbackTokens, rest);
    assert g.ResolvedValues(CallbackTokens, rest) == values;
  }

  lemma CallbackTokenValues(g: ViaBillGateway, data: map<string, Value>, secret: string)
    requires "signature" in data && CallbackFieldsPresent(data)
    requires secret == if "secret" in data then ToStr(data["secret"]) else g.apiSecret
    ensures forall i :: 0 <= i < |CallbackTokens| ==>
      g.Resolve(CallbackTokens[i], data - {"signature"}) == Some((CallbackValues(data) + [secret])[i])
  {
    forall i | 0 <= i < |CallbackTokens|
      ensures g.Resolve(CallbackTokens[i], data - {"signature"}) == Some((CallbackValues(data) + [secret])[i])
    {
      if i < |CallbackFields| {
        assert CallbackTokens[i] == CallbackFields[i] && CallbackFields[i] != "signature";
      }
    }
  }

  /**
   * With the default format, a callback carrying the six fields is accepted
   * exactly when its signature is the MD5 of those fields and the secret
   * joined by `#` (trimmed). The secret is the callback's own `secret`
   * entry when it has one, the API secret otherwise.
   */
  lemma DefaultCallbackVerdict(g: ViaBillGateway, data: map<string, Value>, silent: bool)
    requires "signature" in data && CallbackFieldsPresent(data)
    requires "secret" in data ==> '{' !in ToStr(data["secret"])
    requires "secret" !in data ==> '{' !in g.apiSecret
    ensures var secret := if "secret" in data then ToStr(data["secret"]) else g.apiSecret;
      var expected := Str(P.Md5(Trim(Implode("#", CallbackValues(data) + [secret]))));
      var r := g.VerifyCallbackSignature(data, "", silent);
      (r == Returns(true) <==> data["signature"] == expected)
      && (data["signature"] != expected ==> if silent then r == Returns(false) else r.Throws?)
  {
    assert CallbackFormat("") == DefaultCallbackFormat();
    CallbackResolved(g, data);
  }

  /** The callback data with `secret` set to a value of the sender's choosing and `signature` computed with it. */
  function SelfSigned(data: map<string, Value>, secret: string): map<string, Value>
    requires CallbackFieldsPresent(data)
  {
    data["secret" := Str(secret)]["signature" := Str(P.Md5(Trim(Implode("#", CallbackValues(data) + [secret]))))]
  }

  /** The self-signed data keeps every other entry. */
  lemma SelfSignedKeeps(data: map<string, Value>, secret: string, f: string)
    requires CallbackFieldsPresent(data) && f != "secret" && f != "signature"
    ensures Lookup(Arr(SelfSigned(data, secret)), f) == Lookup(Arr(data), f)
  {
  }

  /**
   * A callback that carries its own `secret` is checked against that value
   * and never against the API secret: a signature computed over a secret of
   * the sender's choosing is accepted.
   */
  lemma SelfSignedCallbackAccepted(g: ViaBillGateway, data: map<string, Value>, secret: string, silent: bool)
    requires CallbackFieldsPresent(data) && '{' !in secret
    ensures g.VerifyCallbackSignature(SelfSigned(data, secret), "", silent) == Returns(true)
  {
    var forged := SelfSigned(data, secret);
    SelfSignedEntries(data, secret);
    SameCallbackValues(data, forged);
    DefaultCallbackVerdict(g, forged, silent);
  }

  lemma SelfSignedEntries(data: map<string, Value>, secret: string)
    requires CallbackFieldsPresent(data)
    ensures var forged := SelfSigned(data, secret);
      "secret" in forged && forged["secret"] == Str(secret)
      && "signature" in forged && forged["signature"] == Str(P.Md5(Trim(Implode("#", CallbackValues(data) + [secret]))))
      && (forall k :: k in data ==> k in forged)
      && (forall i :: 0 <= i < |CallbackFields| ==> forged[CallbackFields[i]] == data[CallbackFields[i]])
  {
    CallbackFieldsNotSecret();
  }

  lemma CallbackFieldsNotSecret()
    ensures forall i :: 0 <= i < |CallbackFields| ==> CallbackFields[i] != "secret" && CallbackFields[i] != "signature"
  {
  }

  lemma SameCallbackValues(data: map<string, Value>, forged: map<string, Value>)
    requires CallbackFieldsPresent(data)
    requires forall k :: k in data ==> k in forged
    requires forall i :: 0 <= i < |CallbackFields| ==> forged[CallbackFields[i]] == data[CallbackFields[i]]
    ensures CallbackFieldsPresent(forged) && CallbackValues(forged) == CallbackValues(data)
  {
  }

  /** A field the callback lacks resolves to nothing. */
  lemma CallbackFieldUnresolved(g: ViaBillGateway, data: map<string, Value>, i: nat)
    requires i < |CallbackFields| && CallbackFields[i] !in data
    ensures g.Resolve(CallbackTokens[i], data - {"signature"}).None?
  {
    assert CallbackTokens[i] == CallbackFields[i];
  }

  /** The default format does not parse when one of its tokens resolves to nothing. */
  lemma CallbackFormatThrows(g: ViaBillGateway, data: map<string, Value>, i: nat)
    requires i < |CallbackTokens| && g.Resolve(CallbackTokens[i], data).None?
    ensures g.ParseFormatSpec(DefaultCallbackFormat(), data).Throws?
  {
    DefaultCallbackTokens();
    g.ParseFormatThrows(DefaultCallbackFormat(), data);
  }

  /** With the default format, a callback lacking one of the six fields is rejected by an exception. */
  lemma CallbackMissingField(g: ViaBillGateway, data: map<string, Value>, i: nat, silent: bool)
    requires i < |CallbackFields| && CallbackFields[i] !in data
    ensures g.VerifyCallbackSignature(data, "", silent).Throws?
  {
    assert CallbackFormat("") == DefaultCallbackFormat();
    if "signature" in data {
      CallbackFieldUnresolved(g, data, i);
      CallbackFormatThrows(g, data - {"signature"}, i);
    }
  }

  // ---------------------------------------------------------------------
  // The checkout request

  /** The checkout row of the table, with its path resolved. */
  predicate IsCheckoutRow(ed: S.Endpoint) {
    ed.requiredFields == S.CheckoutFields && ed.optionalFields == S.CheckoutOptional
    && ed.formats == S.CheckoutFormats
  }

  lemma CheckoutRow()
    ensures IsCheckoutRow(S.GetApiEndPoint("checkout"))
  {
  }

  /**
   * A built checkout request holds exactly the eleven required fields and
   * the custom or cart parameters the caller supplied, so a caller's
   * `secret`, `tbyb` or `platform` is never sent.
   */
  lemma CheckoutRequestKeys(g: ViaBillGateway, ed: S.Endpoint, data: map<string, Value>)
    requires IsCheckoutRow(ed) && g.BuildRequest(ed, data).Some?
    ensures var r := g.BuildRequest(ed, data).value;
      (forall f :: f in r.data <==> f in S.CheckoutFields || (f in S.CheckoutOptional && f in data))
      && "secret" !in r.data && "tbyb" !in r.data && "platform" !in r.data
  {
    g.BuildRequestKeys(ed, data);
    CheckoutExtrasNotFields();
  }

  lemma CheckoutExtrasNotFields()
    ensures "secret" !in S.CheckoutFields && "tbyb" !in S.CheckoutFields && "platform" !in S.CheckoutFields
    ensures "secret" !in S.CheckoutOptional && "tbyb" !in S.CheckoutOptional && "platform" !in S.CheckoutOptional
  {
  }

  /** The `md5check` of a built checkout request is the MD5 of the checkout format over the data, whatever the caller put there. */
  lemma CheckoutRequestSigned(g: ViaBillGateway, ed: S.Endpoint, data: map<string, Value>)
    requires IsCheckoutRow(ed) && g.BuildRequest(ed, data).Some?
    ensures var r := g.BuildRequest(ed, data).value;
      var parsed := g.ParseFormatSpec(S.JoinedFormat(S.CheckoutMd5Tokens), data);
      parsed.Returns? && "md5check" in r.data && r.data["md5check"] == Str(P.Md5(parsed.value))
  {
    CheckoutMd5Field();
    g.BuildRequestValues(ed, data);
    g.FieldValueCases(ed, "md5check", data);
    var r := g.BuildRequest(ed, data).value;
    var v := g.FieldValue(ed, "md5check", data).value;
    assert r.data["md5check"] == Prepared(v);
    assert v.Str?;
  }

  lemma CheckoutMd5Field()
    ensures "md5check" in S.CheckoutFields && "md5check" !in S.CheckoutOptional
    ensures "md5check" in S.CheckoutFormats && FormatText(S.CheckoutFormats["md5check"]) == S.JoinedFormat(S.CheckoutMd5Tokens)
  {
    assert S.CheckoutFields[10] == "md5check";
  }

  /** The `protocol` of a built checkout request is '3.0' unless the caller supplied one. */
  lemma CheckoutRequestProtocol(g: ViaBillGateway, ed: S.Endpoint, data: map<string, Value>)
    requires IsCheckoutRow(ed) && g.BuildRequest(ed, data).Some?
    ensures var r := g.BuildRequest(ed, data).value;
      "protocol" in r.data
      && r.data["protocol"] == Prepared(if "protocol" in data then data["protocol"] else Str(ApiProtocol))
  {
    g.BuildRequestValues(ed, data);
    g.FieldValueCases(ed, "protocol", data);
    CheckoutProtocolField();
  }

  lemma CheckoutProtocolField()
    ensures "protocol" in S.CheckoutFields && "protocol" !in S.CheckoutOptional && "protocol" !in S.CheckoutFormats
  {
    assert S.CheckoutFields[0] == "protocol";
  }

  /** `checkout` sets the protocol first, so a built checkout request always says '3.0'. */
  lemma CheckoutProtocol(g: ViaBillGateway, data: map<string, Value>)
    ensures var r := g.EndPointData("checkout", data["protocol" := Str(ApiProtocol)]);
      r.Some? ==> "protocol" in r.value.data && r.value.data["protocol"] == Str(ApiProtocol)
  {
    CheckoutRow();
    var input := data["protocol" := Str(ApiProtocol)];
    if g.EndPointData("checkout", input).Some? {
      CheckoutRequestProtocol(g, S.GetApiEndPoint("checkout"), input);
    }
  }
}
