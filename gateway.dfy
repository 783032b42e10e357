/**
 * `ViaBillGateway`: builds a request for an end point of the table (its
 * fields, signatures and injected values), sends it, classifies the
 * response, and verifies the signature of a callback.
 */
module Gateway {
  import opened Wrappers
  import opened Php
  import opened SignatureFormat
  import S = Services
  import O = Outgoing
  import C = ViaBillConstants
  import P = Primitives
  import H = Helper
  import SP = ServicesProperties

  const ApiProtocol := "3.0"
  const ClassName := "Drupal\\viabill_payments\\Helper\\ViaBillGateway"
  const MissingSignatureField := "Data is missing a required signature field; "

  /** `getEndPointData`'s result: the resolved path, the HTTP method and the prepared data. */
  datatype EndPointRequest = EndPointRequest(endpoint: string, httpMethod: string, data: map<string, Value>)

  /** The text of a row's format entry; a NULL format reads as ''. */
  function FormatText(format: Option<seq<string>>): string {
    match format
    case None => ""
    case Some(tokens) => S.JoinedFormat(tokens)
  }

  // ---------------------------------------------------------------------
  // Country codes

  /** The text `validIso` checks: trimmed and upper-cased. */
  function CountryCode(country: Value): string {
    ToUpper(Trim(ToStr(country)))
  }

  /**
   * `validIso($country, $silent)`: a code that is not two characters long is
   * refused; a two-character code outside the ISO list is refused in silent
   * mode and throws otherwise.
   */
  function ValidIsoChecked(country: Value, silent: bool): (r: Outcome<bool>)
    ensures r == Returns(true) <==> |CountryCode(country)| == 2 && CountryCode(country) in C.IsoCodes
    ensures r.Throws? <==> !silent && |CountryCode(country)| == 2 && CountryCode(country) !in C.IsoCodes
  {
    var code := CountryCode(country);
    if |code| != 2 then Returns(false)
    else if code in C.IsoCodes then Returns(true)
    else if silent then Returns(false)
    else Throws(ClassName + "::validIso: Value " + code + " is not a valid ISO 3166-1 alpha 2 Country Code.")
  }

  /** `validIso` as the gateway calls it, in silent mode: it never throws. */
  function ValidIso(country: Value): (r: bool)
    ensures ValidIsoChecked(country, true) == Returns(r)
  {
    ValidIsoChecked(country, true).value
  }

  /** A country value as sent: the normalised code when `validIso` accepts it, otherwise unchanged. */
  function NormalizeCountry(country: Value): (r: Value)
    ensures ValidIso(country) ==> r.Str? && |r.s| == 2 && r.s in C.IsoCodes
    ensures !ValidIso(country) ==> r == country
  {
    if ValidIso(country) then Str(ToUpper(Trim(ToStr(country)))) else country
  }

  // ---------------------------------------------------------------------
  // prepareData

  /** The `$checkVal` closure: a boolean becomes 'true' or 'false'. */
  function CheckVal(v: Value): Value {
    if v.Bool? then Str(if v.b then "true" else "false") else v
  }

  /** `prepareData`: every boolean, at any depth, replaced by 'true' or 'false'. */
  function Prepared(v: Value): (r: Value)
    ensures v.Arr? ==> r.Arr? && r.entries.Keys == v.entries.Keys
    ensures !v.Arr? ==> r == CheckVal(v)
    decreases v
  {
    match v
    case Arr(m) => Arr(map k | k in m :: Prepared(m[k]))
    case _ => CheckVal(v)
  }

  predicate NoBooleans(v: Value)
    decreases v
  {
    match v
    case Bool(_) => false
    case Arr(m) => forall k :: k in m ==> NoBooleans(m[k])
    case _ => true
  }

  /** Preparing leaves no boolean anywhere. */
  lemma {:induction false} PreparedNoBooleans(v: Value)
    ensures NoBooleans(Prepared(v))
    decreases v
  {
    match v
    case Arr(m) =>
      forall k | k in m ensures NoBooleans(Prepared(v).entries[k]) {
        PreparedNoBooleans(m[k]);
      }
    case _ =>
  }

  /** A value without booleans is already prepared. */
  lemma {:induction false} PreparedKeepsClean(v: Value)
    requires NoBooleans(v)
    ensures Prepared(v) == v
    decreases v
  {
    match v
    case Arr(m) =>
      forall k | k in m ensures Prepared(v).entries[k] == m[k] {
        PreparedKeepsClean(m[k]);
      }
      assert Prepared(v).entries == m;
    case _ =>
  }

  /** Preparing twice is preparing once. */
  lemma PreparedIdempotent(v: Value)
    ensures Prepared(Prepared(v)) == Prepared(v)
  {
    PreparedNoBooleans(v);
    PreparedKeepsClean(Prepared(v));
  }

  /** The nested array inside a value, for the recursion of `PrepareData`. */
  lemma EntryBelow(m: map<string, Value>, k: string)
    requires k in m
    ensures m[k] < Arr(m)
  {
  }

  // ---------------------------------------------------------------------
  // Response classification

  /** `$response['response']['body']` of the non-verbose calls, or FALSE (None). */
  function ResponseBody(response: Option<O.Output>): Option<string> {
    match response
    case None => None
    case Some(output) => Some(output.body)
  }

  /** PHP `empty()` of what a non-verbose `getRequestData` returned. */
  predicate EmptyBody(body: Option<string>) {
    body.None? || !Truthy(Str(body.value))
  }

  /** `$response['errors'][0]['error']` of a decoded response. */
  function FirstError(response: Value): Value {
    Lookup(Lookup(Lookup(response, "errors"), "0"), "error")
  }

  /**
   * `loginViabillUser` / `registerViabillUser` on the body received:
   * an 'empty response' error, the API's first error, or the decoded
   * response copied key by key (NULL when nothing could be copied).
   */
  function AccountResponse(operation: string, body: Option<string>): (r: Value)
    ensures EmptyBody(body) ==> r == Arr(map["error" := Str(operation + " returned an empty response!")])
    ensures !EmptyBody(body) && Lookup(P.JsonDecode(body.value), "errors") != Null ==>
      r == Arr(map["error" := FirstError(P.JsonDecode(body.value))])
    ensures !EmptyBody(body) && Lookup(P.JsonDecode(body.value), "errors") == Null ==>
      r == if P.JsonDecode(body.value).Arr? && |P.JsonDecode(body.value).entries| > 0 then P.JsonDecode(body.value) else Null
  {
    if EmptyBody(body) then Arr(map["error" := Str(operation + " returned an empty response!")])
    else
      var response := P.JsonDecode(body.value);
      if Lookup(response, "errors") != Null then Arr(map["error" := FirstError(response)])
      else if response.Arr? && |response.entries| > 0 then response
      else Null
  }

  /**
   * `myViabill` (`field` = 'url') and `notifications` (`field` = 'messages'):
   * FALSE for an empty response, otherwise `error` and `field`, at most one
   * of them set, the API's errors taking precedence.
   */
  function LinkResponse(field: string, body: Option<string>): (r: Value)
    requires field != "error"
    ensures EmptyBody(body) <==> r == Bool(false)
    ensures !EmptyBody(body) ==>
      r.Arr? && r.entries.Keys == {"error", field}
      && (r.entries["error"] == FirstError(P.JsonDecode(body.value)) || r.entries["error"] == Null)
    ensures !EmptyBody(body) && Lookup(P.JsonDecode(body.value), "errors") != Null ==>
      r == Arr(map["error" := FirstError(P.JsonDecode(body.value)), field := Null])
    ensures !EmptyBody(body) && r.entries["error"] != Null ==> r.entries[field] == Null
    ensures !EmptyBody(body) && Lookup(P.JsonDecode(body.value), "errors") == Null ==>
      r.entries["error"] == Null && r.entries[field] == Lookup(P.JsonDecode(body.value), field)
  {
    if EmptyBody(body) then Bool(false)
    else
      var response := P.JsonDecode(body.value);
      if Lookup(response, "errors") != Null then Arr(map["error" := FirstError(response), field := Null])
      else if Lookup(response, field) != Null then Arr(map["error" := Null, field := Lookup(response, field)])
      else Arr(map["error" := Null, field := Null])
  }

  /** `checkResponseStatus`: the status is an integer in 200..299. */
  predicate CheckResponseStatus(output: O.Output) {
    200 <= output.status <= 299
  }

  /**
   * `getRequestDataTransaction` without verbose output: TRUE for a 2xx
   * status, the raw body for any other received status, FALSE when nothing
   * was built or received.
   */
  function TransactionResult(response: Option<O.Output>): (r: Value)
    ensures r == Bool(true) <==> response.Some? && CheckResponseStatus(response.value)
    ensures response.None? <==> r == Bool(false)
    ensures response.Some? && !CheckResponseStatus(response.value) ==> r == Str(response.value.body)
  {
    match response
    case None => Bool(false)
    case Some(output) => if CheckResponseStatus(output) then Bool(true) else Str(output.body)
  }

  /** `isForceRequest`: the data carries no `apikey`. */
  predicate IsForceRequest(data: map<string, Value>) {
    "apikey" !in data
  }

  datatype CheckoutResult =
    | CheckoutResult(redirectUrl: Value, status: int, message: string, inputData: map<string, Value>)
    | RequestAlreadyMade

  const CheckoutIncomplete := "The checkout request to the ViaBill payment gateway could not be completed."

  /** `$response['response']['headers']['Location'][0]`, NULL when absent. */
  function LocationOf(output: O.Output): Value {
    if "Location" in output.responseHeaders then
      match output.responseHeaders["Location"]
      case Lines(lines) => if |lines| > 0 then Str(lines[0]) else Null
      case Single(text) => if |text| > 0 then Str([text[0]]) else Str("")
    else Null
  }

  /**
   * `checkout` on what the sender returned: status 400 when nothing came
   * back; the `Location` of a 301/302 as the redirect URL; 'Request already
   * made' when there is no redirect URL.
   */
  function CheckoutOutcome(input: map<string, Value>, response: Option<O.Output>): (r: CheckoutResult)
    ensures response.None? ==> r == CheckoutResult(Null, 400, CheckoutIncomplete, input)
    ensures response.Some? ==>
      (r.CheckoutResult? <==> (response.value.status == 301 || response.value.status == 302)
                              && Truthy(LocationOf(response.value)))
    ensures response.Some? && r.CheckoutResult? ==>
      r.redirectUrl == LocationOf(response.value) && r.status == response.value.status && r.inputData == input
      && r.message == (if r.status == 301 then S.PermanentRedirect else S.TemporaryRedirect)
  {
    match response
    case None => CheckoutResult(Null, 400, CheckoutIncomplete, input)
    case Some(output) =>
      var status := output.status;
      var redirectUrl := if status == 301 || status == 302 then LocationOf(output) else Null;
      if !Truthy(redirectUrl) then RequestAlreadyMade
      else CheckoutResult(redirectUrl, status, S.ApiEndPointMessage(status, "checkout"), input)
  }

  // ---------------------------------------------------------------------
  // Callback signatures

  /** The tokens of the default callback format. */
  const CallbackTokens: seq<string> := ["transaction", "orderNumber", "amount", "currency", "status", "time", "secret"]

  /** `{transaction}#{orderNumber}#{amount}#{currency}#{status}#{time}#{secret}` */
  function DefaultCallbackFormat(): string {
    S.JoinedFormat(CallbackTokens)
  }

  /** The format `verifyCallbackSignature` uses: the trimmed argument, or the default when that is empty. */
  function CallbackFormat(format: string): string {
    var f := Trim(format);
    if !Truthy(Str(f)) then DefaultCallbackFormat() else f
  }

  class ViaBillGateway {
    const testMode: Value
    const apiKey: string
    const apiSecret: string

    /** The settings are read from the helper once. */
    constructor (helper: H.ViaBillHelper)
      ensures testMode == helper.testMode && apiKey == helper.apiKey && apiSecret == helper.apiSecret
    {
      testMode := helper.testMode;
      apiKey := helper.apiKey;
      apiSecret := helper.apiSecret;
    }

    // -------------------------------------------------------------------
    // parseFormat

    /**
     * What a `{key}` token stands for: the data's value (a country
     * normalised), else the API secret for `secret`, the API key for `key`,
     * `apikey` or `apiKey`, the protocol version for `protocol`, the test
     * mode for `test`; nothing otherwise. A value is substituted through
     * `ToStr`: its `"Array"` arm stands for the `TypeError` that PHP 8's
     * `str_replace` raises for an array in the data, which is not modelled.
     */
    function Resolve(key: string, data: map<string, Value>): (r: Option<string>)
      ensures r.Some? <==> key in data || key in {"secret", "key", "apikey", "apiKey", "protocol", "test"}
      ensures key in data ==> r == Some(ToStr(if key == "country" then NormalizeCountry(data[key]) else data[key]))
    {
      if key in data then Some(ToStr(if key == "country" then NormalizeCountry(data[key]) else data[key]))
      else if key == "secret" then Some(apiSecret)
      else if key == "key" || key == "apikey" || key == "apiKey" then Some(apiKey)
      else if key == "protocol" then Some(ApiProtocol)
      else if key == "test" then Some(ToStr(testMode))
      else None
    }

    /** The (token, value) pairs of the tokens in order, or the first token that resolves to nothing. */
    function ResolveAll(keys: seq<string>, data: map<string, Value>): (r: Result<seq<(string, string)>, string>)
      ensures r.Success? ==>
        |r.value| == |keys|
        && forall j :: 0 <= j < |keys| ==> r.value[j].0 == keys[j] && Resolve(keys[j], data) == Some(r.value[j].1)
      decreases |keys|
    {
      if keys == [] then Success([])
      else
        var last := keys[|keys| - 1];
        match ResolveAll(keys[..|keys| - 1], data)
        case Failure(k) => Failure(k)
        case Success(pairs) =>
          match Resolve(last, data)
          case None => Failure(last)
          case Some(v) => Success(pairs + [(last, v)])
    }

    /** Resolution fails exactly when some token is unresolved, and then names the first one. */
    lemma {:induction false} ResolveAllFails(keys: seq<string>, data: map<string, Value>)
      ensures ResolveAll(keys, data).Failure? <==> exists i :: 0 <= i < |keys| && Resolve(keys[i], data).None?
      ensures ResolveAll(keys, data).Failure? ==>
        exists i :: 0 <= i < |keys| && keys[i] == ResolveAll(keys, data).error && Resolve(keys[i], data).None?
          && forall j :: 0 <= j < i ==> Resolve(keys[j], data).Some?
      decreases |keys|
    {
      if keys != [] {
        var init := keys[..|keys| - 1];
        ResolveAllFails(init, data);
        assert forall i :: 0 <= i < |init| ==> init[i] == keys[i];
        if ResolveAll(init, data).Failure? {
          var i :| 0 <= i < |init| && init[i] == ResolveAll(init, data).error && Resolve(init[i], data).None?
            && forall j :: 0 <= j < i ==> Resolve(init[j], data).Some?;
          assert keys[i] == ResolveAll(keys, data).error;
        } else if Resolve(keys[|keys| - 1], data).None? {
          assert forall j :: 0 <= j < |keys| - 1 ==> Resolve(keys[j], data).Some?;
        }
      }
    }

    /** A failure on a prefix of the tokens is the failure of them all. */
    lemma {:induction false} ResolveAllPrefixFails(keys: seq<string>, n: nat, data: map<string, Value>)
      requires n <= |keys| && ResolveAll(keys[..n], data).Failure?
      ensures ResolveAll(keys, data) == ResolveAll(keys[..n], data)
      decreases |keys|
    {
      if n < |keys| {
        var init := keys[..|keys| - 1];
        assert init[..n] == keys[..n];
        ResolveAllPrefixFails(init, n, data);
      } else {
        assert keys[..n] == keys;
      }
    }

    /**
     * `parseFormat`: every token of the format replaced, in order, by its
     * value, and the result trimmed; the first token without a value throws.
     */
    function ParseFormatSpec(format: string, data: map<string, Value>): Outcome<string> {
      match ResolveAll(Tokens(format), data)
      case Failure(key) => Throws(MissingSignatureField + key)
      case Success(pairs) => Returns(Trim(SubstituteAll(format, pairs)))
    }

    /**
     * Parsing throws exactly when some token of the format has no value, and
     * the message names the first such token.
     */
    lemma ParseFormatThrows(format: string, data: map<string, Value>)
      ensures var r := ParseFormatSpec(format, data);
        var tokens := Tokens(format);
        (r.Throws? <==> exists i :: 0 <= i < |tokens| && Resolve(tokens[i], data).None?)
        && (r.Throws? ==>
              exists i :: (0 <= i < |tokens| && r.message == MissingSignatureField + tokens[i]
                && Resolve(tokens[i], data).None? && forall j :: 0 <= j < i ==> Resolve(tokens[j], data).Some?))
    {
      ResolveAllFails(Tokens(format), data);
    }

    /** One more resolved token extends the pairs by one. */
    lemma ResolveAllStep(keys: seq<string>, i: nat, data: map<string, Value>)
      requires i < |keys| && ResolveAll(keys[..i], data).Success? && Resolve(keys[i], data).Some?
      ensures ResolveAll(keys[..i + 1], data)
        == Success(ResolveAll(keys[..i], data).value + [(keys[i], Resolve(keys[i], data).value)])
    {
      assert keys[..i + 1][..i] == keys[..i];
    }

    /** One step of the token loop: the value a token is replaced by, or none. */
    method TokenValue(key: string, data: map<string, Value>) returns (val: Option<string>)
      ensures val == Resolve(key, data)
    {
      if key in data {
        var v := data[key];
        if key == "country" {
          v := if ValidIso(v) then Str(ToUpper(Trim(ToStr(v)))) else v;
        }
        val := Some(ToStr(v));
      } else if key == "secret" {
        val := Some(apiSecret);
      } else if key == "key" || key == "apikey" || key == "apiKey" {
        val := Some(apiKey);
      } else if key == "protocol" {
        val := Some(ApiProtocol);
      } else if key == "test" {
        val := Some(ToStr(testMode));
      } else {
        val := None;
      }
    }

    /** One replacement of the token loop extends the resolved pairs and the substitution by that token. */
    lemma ParseStep(
      format: string, keys: seq<string>, i: nat, data: map<string, Value>,
      pairs: seq<(string, string)>, val: string)
      requires forall j :: 0 <= j < |keys| ==> IsTokenName(keys[j])
      requires i < |keys| && ResolveAll(keys[..i], data) == Success(pairs) && Resolve(keys[i], data) == Some(val)
      ensures ResolveAll(keys[..i + 1], data) == Success(pairs + [(keys[i], val)])
      ensures forall j :: 0 <= j < |pairs + [(keys[i], val)]| ==> |(pairs + [(keys[i], val)])[j].0| > 0
      ensures SubstituteAll(format, pairs + [(keys[i], val)])
           == ReplaceAll(SubstituteAll(format, pairs), Placeholder(keys[i]), val)
    {
      ResolveAllStep(keys, i, data);
      assert (pairs + [(keys[i], val)])[..|pairs|] == pairs;
    }

    method ParseFormat(format: string, data: map<string, Value>) returns (r: Outcome<string>)
      ensures r == ParseFormatSpec(format, data)
    {
      var formatFields := Tokens(format);
      var result := format;
      ghost var pairs: seq<(string, string)> := [];
      var i := 0;
      while i < |formatFields|
        invariant 0 <= i <= |formatFields|
        invariant ResolveAll(formatFields[..i], data) == Success(pairs)
        invariant forall j :: 0 <= j < |pairs| ==> |pairs[j].0| > 0
        invariant result == SubstituteAll(format, pairs)
      {
        var key := formatFields[i];
        var resolved := TokenValue(key, data);
        if resolved.None? {
          ParseStopsAt(format, i, data, pairs);
          return Throws(MissingSignatureField + key);
        }
        var val := resolved.value;
        ParseStep(format, formatFields, i, data, pairs, val);
        pairs := pairs + [(key, val)];
        result := ReplaceAll(result, Placeholder(key), val);
        i := i + 1;
      }
      ParseCompletes(format, data, pairs);
      r := Returns(Trim(result));
    }

    /** The token loop stops at the first token without a value, with the parse's exception. */
    lemma ParseStopsAt(format: string, i: nat, data: map<string, Value>, pairs: seq<(string, string)>)
      requires i < |Tokens(format)| && ResolveAll(Tokens(format)[..i], data) == Success(pairs)
      requires Resolve(Tokens(format)[i], data).None?
      ensures ParseFormatSpec(format, data) == Throws(MissingSignatureField + Tokens(format)[i])
    {
      var keys := Tokens(format);
      assert keys[..i + 1][..i] == keys[..i];
      ResolveAllPrefixFails(keys, i + 1, data);
    }

    /** After the last token the loop's text is the parse before trimming. */
    lemma ParseCompletes(format: string, data: map<string, Value>, pairs: seq<(string, string)>)
      requires ResolveAll(Tokens(format)[..|Tokens(format)|], data) == Success(pairs)
      ensures forall j :: 0 <= j < |pairs| ==> |pairs[j].0| > 0
      ensures ParseFormatSpec(format, data) == Returns(Trim(SubstituteAll(format, pairs)))
    {
      assert Tokens(format)[..|Tokens(format)|] == Tokens(format);
    }

    /** The values of the tokens, in order. */
    function ResolvedValues(names: seq<string>, data: map<string, Value>): (r: seq<string>)
      requires forall i :: 0 <= i < |names| ==> Resolve(names[i], data).Some?
      ensures |r| == |names|
    {
      seq(|names|, i requires 0 <= i < |names| => Resolve(names[i], data).value)
    }

    /**
     * A `{a}#{b}#...` format whose values contain no `{` parses to the values
     * joined by `#`, trimmed.
     */
    lemma ParseJoined(names: seq<string>, data: map<string, Value>)
      requires forall i :: 0 <= i < |names| ==>
        IsTokenName(names[i]) && Resolve(names[i], data).Some? && '{' !in Resolve(names[i], data).value
      ensures ParseFormatSpec(S.JoinedFormat(names), data) == Returns(Trim(Implode("#", ResolvedValues(names, data))))
    {
      SP.TokensOfJoinedFormat(names);
      JoinedPairs(names, data);
      var pairs := ResolveAll(names, data).value;
      var values := ValuesOf(pairs, data);
      JoinedShape(names);
      assert Flatten(Joined(names)) == S.JoinedFormat(names);
      SubstituteFills(Joined(names), pairs, values);
      JoinedFilled(names, KeysOf(pairs), values);
      assert JoinedValues(names, values) == ResolvedValues(names, data);
      assert SubstituteAll(S.JoinedFormat(names), pairs) == Implode("#", ResolvedValues(names, data));
    }

    /** Each token's value, by token name. */
    function ValuesOf(pairs: seq<(string, string)>, data: map<string, Value>): map<string, string>
      requires forall k :: k in KeysOf(pairs) ==> Resolve(k, data).Some?
    {
      map k | k in KeysOf(pairs) :: Resolve(k, data).value
    }

    /** Resolving the tokens of a joined format gives pairs consistent with their values. */
    lemma JoinedPairs(names: seq<string>, data: map<string, Value>)
      requires forall i :: 0 <= i < |names| ==>
        IsTokenName(names[i]) && Resolve(names[i], data).Some? && '{' !in Resolve(names[i], data).value
      ensures ResolveAll(names, data).Success?
      ensures var pairs := ResolveAll(names, data).value;
        (forall k :: k in KeysOf(pairs) ==> Resolve(k, data).Some?)
        && Consistent(pairs, ValuesOf(pairs, data))
        && forall i :: 0 <= i < |names| ==> names[i] in KeysOf(pairs)
    {
      ResolveAllFails(names, data);
      var pairs := ResolveAll(names, data).value;
      forall i | 0 <= i < |names| ensures names[i] in KeysOf(pairs) {
        assert pairs[i].0 == names[i];
      }
    }

    // -------------------------------------------------------------------
    // getEndPointData

    /**
     * The value `getEndPointData` gives a required field: the MD5 of the
     * parsed format when the row has one (whatever the data holds); else the
     * data's value (a country normalised); else '3.0' for `protocol` and the
     * gateway's test mode for `test`; nothing otherwise.
     */
    function FieldValue(row: S.Endpoint, field: string, data: map<string, Value>): Option<Value>
    {
      if field in row.formats then
        match ParseFormatSpec(FormatText(row.formats[field]), data)
        case Throws(_) => None
        case Returns(text) => Some(Str(P.Md5(text)))
      else if field in data then
        if field == "test" then Some(data[field])
        else if field == "country" then Some(NormalizeCountry(data[field]))
        else Some(data[field])
      else if field == "protocol" then Some(Str(ApiProtocol))
      else if field == "test" then Some(testMode)
      else None
    }

    /**
     * A required field has no value exactly when its format does not parse,
     * or when it has no format, is not in the data, and is neither
     * `protocol` nor `test`. A signature field is the MD5 of its parsed
     * format whatever the data holds for it; `protocol` and `test` are
     * injected only when the data lacks them. This unfolds `FieldValue`
     * case by case for the request-building proofs; what a caller sees is
     * stated by `BuildRequestValues`.
     */
    lemma FieldValueCases(row: S.Endpoint, field: string, data: map<string, Value>)
      ensures var r := FieldValue(row, field, data);
        (r.None? <==>
          (field in row.formats && ParseFormatSpec(FormatText(row.formats[field]), data).Throws?)
          || (field !in row.formats && field !in data && field != "protocol" && field != "test"))
        && (field in row.formats && r.Some? ==>
              r.value == Str(P.Md5(ParseFormatSpec(FormatText(row.formats[field]), data).value)))
        && (field !in row.formats && field in data ==>
              r == Some(if field == "country" then NormalizeCountry(data[field]) else data[field]))
        && (field !in row.formats && field !in data && field == "protocol" ==> r == Some(Str(ApiProtocol)))
        && (field !in row.formats && field !in data && field == "test" ==> r == Some(testMode))
    {
    }

    /** The required fields' values in order, or nothing when one of them has none. */
    function RequiredData(row: S.Endpoint, fields: seq<string>, data: map<string, Value>): Option<map<string, Value>>
      decreases |fields|
    {
      if fields == [] then Some(map[])
      else
        var last := fields[|fields| - 1];
        match RequiredData(row, fields[..|fields| - 1], data)
        case None => None
        case Some(m) =>
          match FieldValue(row, last, data)
          case None => None
          case Some(v) => Some(m[last := v])
    }

    /** The required data has exactly the fields, each with its `FieldValue`. */
    lemma {:induction false} RequiredDataShape(row: S.Endpoint, fields: seq<string>, data: map<string, Value>)
      requires RequiredData(row, fields, data).Some?
      ensures var m := RequiredData(row, fields, data).value;
        (forall f :: f in m <==> f in fields)
        && forall j :: 0 <= j < |fields| ==> FieldValue(row, fields[j], data) == Some(m[fields[j]])
      decreases |fields|
    {
      if fields != [] {
        var init := fields[..|fields| - 1];
        RequiredDataShape(row, init, data);
        assert forall j :: 0 <= j < |init| ==> init[j] == fields[j];
        assert fields == init + [fields[|fields| - 1]];
      }
    }

    /** The required fields fail exactly when one of them has no value. */
    lemma {:induction false} RequiredDataFails(row: S.Endpoint, fields: seq<string>, data: map<string, Value>)
      ensures RequiredData(row, fields, data).None? <==>
        exists j :: 0 <= j < |fields| && FieldValue(row, fields[j], data).None?
      decreases |fields|
    {
      if fields != [] {
        var init := fields[..|fields| - 1];
        RequiredDataFails(row, init, data);
        assert forall j :: 0 <= j < |init| ==> init[j] == fields[j];
        if RequiredData(row, init, data).None? {
          var j :| 0 <= j < |init| && FieldValue(row, init[j], data).None?;
          assert FieldValue(row, fields[j], data).None?;
        }
      }
    }

    lemma {:induction false} RequiredDataPrefixFails(row: S.Endpoint, fields: seq<string>, n: nat, data: map<string, Value>)
      requires n <= |fields| && RequiredData(row, fields[..n], data).None?
      ensures RequiredData(row, fields, data).None?
      decreases |fields|
    {
      if n < |fields| {
        var init := fields[..|fields| - 1];
        assert init[..n] == fields[..n];
        RequiredDataPrefixFails(row, init, n, data);
      } else {
        assert fields[..n] == fields;
      }
    }

    /** The optional fields present in the data, with the data's values. */
    function OptionalData(fields: seq<string>, data: map<string, Value>): map<string, Value> {
      map f | f in fields && f in data :: data[f]
    }

    /** What `getEndPointData` builds from a row of the table. */
    function BuildRequest(ed: S.Endpoint, data: map<string, Value>): Option<EndPointRequest> {
      match RequiredData(ed, ed.requiredFields, data)
      case None => None
      case Some(required) =>
        Some(EndPointRequest(ed.endpoint, ed.httpMethod, Prepared(Arr(required + OptionalData(ed.optionalFields, data))).entries))
    }

    /** What `getEndPointData` returns for an end point of the table. */
    function EndPointData(name: string, data: map<string, Value>): Option<EndPointRequest>
      requires name in S.ApiEndPoints
    {
      BuildRequest(S.GetApiEndPoint(name), data)
    }

    /** A request fails to build exactly when a required field has no value. */
    lemma BuildRequestFails(ed: S.Endpoint, data: map<string, Value>)
      ensures BuildRequest(ed, data).None? <==>
        exists j :: 0 <= j < |ed.requiredFields| && FieldValue(ed, ed.requiredFields[j], data).None?
    {
      RequiredDataFails(ed, ed.requiredFields, data);
    }

    /**
     * A built request holds exactly the required fields and the optional
     * fields the caller supplied, nothing else (so a caller's extra keys are
     * dropped), with the row's path and method.
     */
    lemma BuildRequestKeys(ed: S.Endpoint, data: map<string, Value>)
      requires BuildRequest(ed, data).Some?
      ensures var r := BuildRequest(ed, data).value;
        r.endpoint == ed.endpoint && r.httpMethod == ed.httpMethod
        && forall f :: f in r.data <==> f in ed.requiredFields || (f in ed.optionalFields && f in data)
    {
      RequiredDataShape(ed, ed.requiredFields, data);
    }

    /**
     * Each value of a built request is prepared: an optional field has the
     * caller's value, a required one its `FieldValue`.
     */
    lemma BuildRequestValues(ed: S.Endpoint, data: map<string, Value>)
      requires BuildRequest(ed, data).Some?
      ensures var r := BuildRequest(ed, data).value;
        (forall f :: f in ed.optionalFields && f in data ==> f in r.data && r.data[f] == Prepared(data[f]))
        && (forall f :: f in ed.requiredFields && !(f in ed.optionalFields && f in data) ==>
              f in r.data && FieldValue(ed, f, data).Some? && r.data[f] == Prepared(FieldValue(ed, f, data).value))
    {
      RequiredDataShape(ed, ed.requiredFields, data);
      var req := RequiredData(ed, ed.requiredFields, data).value;
      var all := req + OptionalData(ed.optionalFields, data);
      forall f | f in ed.requiredFields && !(f in ed.optionalFields && f in data)
        ensures FieldValue(ed, f, data) == Some(all[f])
      {
        var j :| 0 <= j < |ed.requiredFields| && ed.requiredFields[j] == f;
      }
    }

    /** One more field with a value extends the required data by one entry. */
    lemma RequiredDataStep(row: S.Endpoint, fields: seq<string>, i: nat, data: map<string, Value>)
      requires i < |fields| && RequiredData(row, fields[..i], data).Some? && FieldValue(row, fields[i], data).Some?
      ensures RequiredData(row, fields[..i + 1], data)
        == Some(RequiredData(row, fields[..i], data).value[fields[i] := FieldValue(row, fields[i], data).value])
    {
      assert fields[..i + 1][..i] == fields[..i];
    }

    /** A field without a value makes the whole required data fail. */
    lemma RequiredDataStops(row: S.Endpoint, fields: seq<string>, i: nat, data: map<string, Value>)
      requires i < |fields| && FieldValue(row, fields[i], data).None?
      ensures RequiredData(row, fields, data).None?
    {
      assert fields[..i + 1][..i] == fields[..i];
      RequiredDataPrefixFails(row, fields, i + 1, data);
    }

    /** `getEndPointData`: the row of the end point, then its fields. */
    method GetEndPointData(name: string, data: map<string, Value>) returns (r: Option<EndPointRequest>)
      requires name in S.ApiEndPoints
      ensures r == EndPointData(name, data)
    {
      var ed := S.GetApiEndPoint(name);
      r := BuildEndPointData(ed, data);
    }

    /** The body of `getEndPointData` for a row: required fields in order, optional ones, then `prepareData`. */
    method BuildEndPointData(ed: S.Endpoint, data: map<string, Value>) returns (r: Option<EndPointRequest>)
      ensures r == BuildRequest(ed, data)
    {
      var requestData: map<string, Value> := map[];
      var i := 0;
      while i < |ed.requiredFields|
        invariant 0 <= i <= |ed.requiredFields|
        invariant RequiredData(ed, ed.requiredFields[..i], data) == Some(requestData)
      {
        var field := ed.requiredFields[i];
        var value := RequiredFieldValue(ed, field, data);
        if value.None? {
          RequiredDataStops(ed, ed.requiredFields, i, data);
          return None;
        }
        RequiredDataStep(ed, ed.requiredFields, i, data);
        requestData := requestData[field := value.value];
        i := i + 1;
      }
      assert ed.requiredFields[..i] == ed.requiredFields;
      r := FinishRequest(ed, requestData, data);
    }

    /** The end of `getEndPointData`: the optional fields, then `prepareData`. */
    method FinishRequest(ed: S.Endpoint, requestData: map<string, Value>, data: map<string, Value>)
      returns (r: Option<EndPointRequest>)
      requires RequiredData(ed, ed.requiredFields, data) == Some(requestData)
      ensures r == BuildRequest(ed, data)
    {
      var withOptional := AddOptionalFields(requestData, ed.optionalFields, data);
      var prepared := PrepareData(Arr(withOptional));
      r := Some(EndPointRequest(ed.endpoint, ed.httpMethod, prepared.entries));
    }

    /**
     * One step of the required-field loop: a signature field, a field of
     * the data, an injected `protocol` or `test`, or a missing field (None,
     * where the source logs and returns FALSE). A format that does not parse
     * is also None.
     */
    method RequiredFieldValue(ed: S.Endpoint, field: string, data: map<string, Value>) returns (value: Option<Value>)
      ensures value == FieldValue(ed, field, data)
    {
      var isTest := field == "test";
      if field in ed.formats {
        var format := ParseFormat(FormatText(ed.formats[field]), data);
        if format.Throws? {
          return None;
        }
        value := Some(Str(P.Md5(format.value)));
      } else if field in data {
        if isTest {
          value := Some(data[field]);
        } else if field == "country" {
          value := Some(if ValidIso(data[field]) then Str(ToUpper(Trim(ToStr(data[field])))) else data[field]);
        } else {
          value := Some(data[field]);
        }
      } else if field == "protocol" {
        value := Some(Str(ApiProtocol));
      } else if isTest {
        value := Some(testMode);
      } else {
        value := None;
      }
    }

    /** The optional-field loop of `getEndPointData`: each field the data has is copied. */
    method AddOptionalFields(requestData: map<string, Value>, fields: seq<string>, data: map<string, Value>)
      returns (r: map<string, Value>)
      ensures r == requestData + OptionalData(fields, data)
    {
      r := requestData;
      var j := 0;
      while j < |fields|
        invariant 0 <= j <= |fields|
        invariant r == requestData + OptionalData(fields[..j], data)
      {
        var field := fields[j];
        assert fields[..j + 1] == fields[..j] + [field];
        if field in data {
          r := r[field := data[field]];
        }
        assert OptionalData(fields[..j + 1], data)
          == if field in data then OptionalData(fields[..j], data)[field := data[field]]
             else OptionalData(fields[..j], data);
        j := j + 1;
      }
      assert fields[..j] == fields;
    }

    /** `prepareData`, entry by entry, recursing into nested arrays. */
    method PrepareData(input: Value) returns (output: Value)
      ensures output == Prepared(input)
      decreases input
    {
      if input.Arr? {
        var entries := input.entries;
        var result := entries;
        var todo := entries.Keys;
        while todo != {}
          invariant todo <= entries.Keys && result.Keys == entries.Keys
          invariant forall k :: k in entries && k !in todo ==> result[k] == Prepared(entries[k])
          invariant forall k :: k in todo ==> result[k] == entries[k]
          decreases todo
        {
          var key :| key in todo;
          var value := entries[key];
          if value.Arr? {
            EntryBelow(entries, key);
            value := PrepareData(value);
          } else {
            value := CheckVal(value);
          }
          result := result[key := value];
          todo := todo - {key};
        }
        assert result == Prepared(input).entries;
        output := Arr(result);
      } else {
        output := CheckVal(input);
      }
    }

    // -------------------------------------------------------------------
    // Requests

    /** What the sender returns for a built request: `checkout` goes without redirects. */
    function Sent(name: string, request: EndPointRequest, client: O.HttpCall -> O.TransportResult)
      : Outcome<Option<O.Output>>
    {
      if name == "checkout" then O.NoRedirectResult(request.endpoint, request.httpMethod, request.data, client)
      else O.RequestResult(request.endpoint, request.httpMethod, request.data, map[], client)
    }

    /** What `getRequestData` returns (its verbose form): FALSE (None) when the request cannot be built. */
    function RequestDataResult(data: map<string, Value>, name: string, client: O.HttpCall -> O.TransportResult)
      : Outcome<Option<O.Output>>
      requires name in S.ApiEndPoints
    {
      match EndPointData(name, data)
      case None => Returns(None)
      case Some(request) => Sent(name, request, client)
    }

    method GetRequestData(data: map<string, Value>, name: string, client: O.HttpCall -> O.TransportResult)
      returns (r: Outcome<Option<O.Output>>)
      requires name in S.ApiEndPoints
      ensures r == RequestDataResult(data, name, client)
    {
      var request := GetEndPointData(name, data);
      if request.None? {
        return Returns(None);
      }
      var req := request.value;
      if name == "checkout" {
        r := O.RequestWithoutRedirect(req.endpoint, req.httpMethod, req.data, Truthy(testMode), client);
      } else {
        r := O.Request(req.endpoint, req.httpMethod, req.data, Truthy(testMode), map[], client);
      }
    }

    /** `loginViabillUser` with the default headers and non-verbose output. */
    method LoginViabillUser(data: map<string, Value>, client: O.HttpCall -> O.TransportResult)
      returns (r: Outcome<Value>)
      ensures var sent := RequestDataResult(data, "login", client);
        (sent.Throws? ==> r == Throws(sent.message))
        && (sent.Returns? ==> r == Returns(AccountResponse("login", ResponseBody(sent.value))))
    {
      var response := GetRequestData(data, "login", client);
      if response.Throws? {
        return Throws(response.message);
      }
      r := Returns(AccountResponse("login", ResponseBody(response.value)));
    }

    /** `registerViabillUser` with the default headers and non-verbose output. */
    method RegisterViabillUser(data: map<string, Value>, client: O.HttpCall -> O.TransportResult)
      returns (r: Outcome<Value>)
      ensures var sent := RequestDataResult(data, "registration", client);
        (sent.Throws? ==> r == Throws(sent.message))
        && (sent.Returns? ==> r == Returns(AccountResponse("registration", ResponseBody(sent.value))))
    {
      var response := GetRequestData(data, "registration", client);
      if response.Throws? {
        return Throws(response.message);
      }
      r := Returns(AccountResponse("registration", ResponseBody(response.value)));
    }

    /** `myViabill` with the default headers and non-verbose output. */
    method MyViabill(data: map<string, Value>, client: O.HttpCall -> O.TransportResult)
      returns (r: Outcome<Value>)
      ensures var sent := RequestDataResult(data, "myviabill", client);
        (sent.Throws? ==> r == Throws(sent.message))
        && (sent.Returns? ==> r == Returns(LinkResponse("url", ResponseBody(sent.value))))
    {
      var response := GetRequestData(data, "myviabill", client);
      if response.Throws? {
        return Throws(response.message);
      }
      r := Returns(LinkResponse("url", ResponseBody(response.value)));
    }

    /** `notifications` with the default headers and non-verbose output. */
    method Notifications(data: map<string, Value>, client: O.HttpCall -> O.TransportResult)
      returns (r: Outcome<Value>)
      ensures var sent := RequestDataResult(data, "notifications", client);
        (sent.Throws? ==> r == Throws(sent.message))
        && (sent.Returns? ==> r == Returns(LinkResponse("messages", ResponseBody(sent.value))))
    {
      var response := GetRequestData(data, "notifications", client);
      if response.Throws? {
        return Throws(response.message);
      }
      r := Returns(LinkResponse("messages", ResponseBody(response.value)));
    }

    /** `checkout`: the protocol version is set first, then the request is sent without redirects. */
    method Checkout(data: map<string, Value>, client: O.HttpCall -> O.TransportResult)
      returns (r: Outcome<CheckoutResult>)
      ensures var input := data["protocol" := Str(ApiProtocol)];
        var sent := RequestDataResult(input, "checkout", client);
        (sent.Throws? ==> r == Throws(sent.message))
        && (sent.Returns? ==> r == Returns(CheckoutOutcome(input, sent.value)))
    {
      var input := data["protocol" := Str(ApiProtocol)];
      var response := GetRequestData(input, "checkout", client);
      if response.Throws? {
        return Throws(response.message);
      }
      r := Returns(CheckoutOutcome(input, response.value));
    }

    /** What a transaction call returns, or the exception it propagates. */
    function TransactionOutcome(data: map<string, Value>, name: string, client: O.HttpCall -> O.TransportResult)
      : Outcome<Value>
      requires name in S.ApiEndPoints
    {
      match RequestDataResult(data, name, client)
      case Throws(message) => Throws(message)
      case Returns(response) => Returns(TransactionResult(response))
    }

    /**
     * Every output `getRequestData` passes on has a status below 400, since
     * the client raises on 4xx and 5xx answers; so a transaction call gives
     * the raw body only for a 1xx or 3xx answer.
     */
    lemma TransactionBodyBelow400(data: map<string, Value>, name: string, client: O.HttpCall -> O.TransportResult)
      requires name in S.ApiEndPoints
      ensures var sent := RequestDataResult(data, name, client);
        sent.Returns? && sent.value.Some? ==> sent.value.value.status < 400
      ensures var sent := RequestDataResult(data, name, client);
        var t := TransactionOutcome(data, name, client);
        t.Returns? && t.value.Str? ==>
          sent.Returns? && sent.value.Some? && sent.value.value.status < 400
          && !CheckResponseStatus(sent.value.value) && t.value == Str(sent.value.value.body)
    {
      match EndPointData(name, data)
      case None =>
      case Some(request) =>
        var url := O.BuildRequestUrl(O.ProdBaseUrl, request.endpoint);
        if name == "checkout" {
          var headers := O.DefaultHeaders(url);
          O.DeliveredBelow400(client(O.HttpCall(request.httpMethod, url, headers, O.FormParams(request.data), false)),
            O.RequestInfo(url, headers, request.data, request.httpMethod));
        } else {
          match O.RequestCall(request.endpoint, request.httpMethod, request.data, map[])
          case None =>
          case Some(call) =>
            O.DeliveredBelow400(client(call), O.RequestInfo(call.url, call.headers, request.data, request.httpMethod));
        }
    }

    /**
     * `getRequestDataTransaction` with non-verbose output. The force flag it
     * computes is passed on but never used.
     */
    method GetRequestDataTransaction(data: map<string, Value>, name: string, client: O.HttpCall -> O.TransportResult)
      returns (r: Outcome<Value>)
      requires name in S.ApiEndPoints
      ensures r == TransactionOutcome(data, name, client)
    {
      var force := IsForceRequest(data);
      var response := GetRequestData(data, name, client);
      if response.Throws? {
        return Throws(response.message);
      }
      match response.value
      case None =>
        r := Returns(Bool(false));
      case Some(output) =>
        if CheckResponseStatus(output) {
          r := Returns(Bool(true));
        } else {
          r := Returns(Str(output.body));
        }
    }

    method CaptureTransaction(data: map<string, Value>, client: O.HttpCall -> O.TransportResult)
      returns (r: Outcome<Value>)
      ensures r == TransactionOutcome(data, "capture_transaction", client)
    {
      r := GetRequestDataTransaction(data, "capture_transaction", client);
    }

    method RefundTransaction(data: map<string, Value>, client: O.HttpCall -> O.TransportResult)
      returns (r: Outcome<Value>)
      ensures r == TransactionOutcome(data, "refund_transaction", client)
    {
      r := GetRequestDataTransaction(data, "refund_transaction", client);
    }

    method CancelTransaction(data: map<string, Value>, client: O.HttpCall -> O.TransportResult)
      returns (r: Outcome<Value>)
      ensures r == TransactionOutcome(data, "cancel_transaction", client)
    {
      r := GetRequestDataTransaction(data, "cancel_transaction", client);
    }

    // -------------------------------------------------------------------
    // verifyCallbackSignature

    /**
     * `verifyCallbackSignature`: throws without a `signature` key or when
     * the format does not parse over the rest of the data; otherwise TRUE
     * exactly when the MD5 of the parsed format is the signature, with a
     * mismatch giving FALSE in silent mode and throwing otherwise.
     */
    function VerifyCallbackSignature(data: map<string, Value>, format: string, silent: bool): (r: Outcome<bool>)
      ensures "signature" !in data ==> r.Throws?
      ensures "signature" in data && ParseFormatSpec(CallbackFormat(format), data - {"signature"}).Throws? ==> r.Throws?
      ensures "signature" in data && ParseFormatSpec(CallbackFormat(format), data - {"signature"}).Returns? ==>
        var expected := Str(P.Md5(ParseFormatSpec(CallbackFormat(format), data - {"signature"}).value));
        (r == Returns(true) <==> data["signature"] == expected)
        && (data["signature"] != expected ==> (if silent then r == Returns(false) else r.Throws?))
    {
      if "signature" !in data then
        Throws(ClassName + "::verifyCallbackSignature: Callback data is missing a \"signature\" key.")
      else
        var sig := data["signature"];
        match ParseFormatSpec(CallbackFormat(format), data - {"signature"})
        case Throws(message) => Throws(message)
        case Returns(text) =>
          var calculated := P.Md5(text);
          if Str(calculated) == sig then Returns(true)
          else if silent then Returns(false)
          else Throws(ClassName + "::verifyCallbackSignature:Expected signature [" + ToStr(sig)
                      + "] but got signature [" + calculated + "].")
    }
  }
}
