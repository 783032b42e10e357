/**
 * `ViaBillHelper`: the module's settings (test mode, credentials, TBYB flag,
 * transaction type) and its small formatting helpers.
 */
module Helper {
  import opened Wrappers
  import opened Php
  import C = ViaBillConstants

  /** The characters of the random part of a transaction id. */
  const Alphabet: string := Digits + Lower + Upper
  const Digits: string := "0123456789"
  const Lower: string := "abcdefghijklmnopqrstuvwxyz"
  const Upper: string := "ABCDEFGHIJKLMNOPQRSTUVWXYZ"

  predicate IsAlphanumeric(c: char) {
    '0' <= c <= '9' || 'a' <= c <= 'z' || 'A' <= c <= 'Z'
  }

  lemma AlphabetShape()
    ensures |Alphabet| == 62
    ensures forall i :: 0 <= i < |Alphabet| ==> IsAlphanumeric(Alphabet[i])
  {
    assert forall i :: 0 <= i < |Digits| ==> '0' <= Digits[i] <= '9';
    assert forall i :: 0 <= i < |Lower| ==> 'a' <= Lower[i] <= 'z';
    assert forall i :: 0 <= i < |Upper| ==> 'A' <= Upper[i] <= 'Z';
  }

  /** The shape of `number_format($x, 2, '.', '')`: optional minus, digits, a point, two digits. */
  predicate IsTwoDecimalText(s: string) {
    |s| >= 4 && s[|s| - 3] == '.' && AllDigits(s[|s| - 2..])
    && var whole := if s[0] == '-' then s[1..|s| - 3] else s[..|s| - 3];
       |whole| > 0 && AllDigits(whole)
  }

  lemma TwoDecimalShape(c: int)
    ensures IsTwoDecimalText(CentsText(c))
  {
    var m := if c < 0 then -c else c;
    var w, f := NatToStr(m / 100), TwoDigits(m % 100);
    var t := CentsText(c);
    assert t == (if c < 0 then "-" else "") + w + "." + f;
    assert t[|t| - 2..] == f;
    if c < 0 {
      assert t[1..|t| - 3] == w;
    } else {
      assert t[..|t| - 3] == w;
      assert t[0] == w[0] && IsDigit(w[0]);
    }
  }

  /**
   * `formatAmount`: a numeric value as text with exactly two decimals,
   * rounded half away from zero, a `.` separator and no thousands
   * separator; anything else as '0'.
   */
  function FormatAmount(amount: Value): (r: string)
    ensures NumberOf(amount).None? ==> r == "0"
    ensures NumberOf(amount).Some? ==>
      IsTwoDecimalText(r) && NumericValue(r) == Some(RoundToCents(NumberOf(amount).value) as real / 100.0)
  {
    match NumberOf(amount)
    case Some(x) =>
      TwoDecimalShape(RoundToCents(x));
      CentsTextRoundTrip(RoundToCents(x));
      CentsText(RoundToCents(x))
    case None => "0"
  }

  /** Rounding moves the value by at most half a hundredth. */
  lemma RoundToCentsClose(x: real)
    ensures -0.005 <= RoundToCents(x) as real / 100.0 - x <= 0.005
  {
    if x >= 0.0 {
      var k := (x * 100.0 + 0.5).Floor;
      assert k as real <= x * 100.0 + 0.5 < k as real + 1.0;
    } else {
      var k := (-x * 100.0 + 0.5).Floor;
      assert k as real <= -x * 100.0 + 0.5 < k as real + 1.0;
    }
  }

  /** The formatted amount of a numeric value reads back within half a hundredth of it. */
  lemma FormatAmountClose(amount: Value)
    requires NumberOf(amount).Some?
    ensures var back := NumericValue(FormatAmount(amount));
      back.Some? && -0.005 <= back.value - NumberOf(amount).value <= 0.005
  {
    RoundToCentsClose(NumberOf(amount).value);
  }

  /** `formatTbyb`: empty gives TBYB_OFF, 'true', '1' or 1 (loosely) gives TBYB_ON, anything else TBYB_OFF. */
  function FormatTbyb(tbyb: Value): (r: Value)
    ensures !Truthy(tbyb) ==> r == C.TbybOff
    ensures r == C.TbybOn || r == C.TbybOff
  {
    if !Truthy(tbyb) then C.TbybOff
    else if LooseEqualsString(tbyb, "true") || LooseEqualsString(tbyb, "1") || LooseEqualsInt(tbyb, 1) then C.TbybOn
    else C.TbybOff
  }

  /** `formatTestMode`: empty or 'test', 'true', '1', 1 (loosely) gives TEST_MODE_ON, anything else TEST_MODE_OFF. */
  function FormatTestMode(mode: Value): (r: Value)
    ensures !Truthy(mode) ==> r == C.TestModeOn
    ensures r == C.TestModeOn || r == C.TestModeOff
  {
    if !Truthy(mode) then C.TestModeOn
    else if LooseEqualsString(mode, "test") || LooseEqualsString(mode, "true")
         || LooseEqualsString(mode, "1") || LooseEqualsInt(mode, 1) then C.TestModeOn
    else C.TestModeOff
  }

  lemma NumericOne()
    ensures NumericValue("1") == Some(1.0)
  {
    assert IndexOf("1", '.') == None;
    assert DigitsValue("1") == 1 by { assert "1"[..0] == []; }
  }

  lemma NumericOnePointZero()
    ensures NumericValue("1.0") == Some(1.0)
  {
    var s := "1.0";
    assert IndexOf(s, '.') == Some(1) by { assert IndexOf(s[1..], '.') == Some(0); }
    assert s[..1] == "1" && s[2..] == "0";
    assert DigitsValue("1") == 1 by { assert "1"[..0] == []; }
    assert DigitsValue("0") == 0 by { assert "0"[..0] == []; }
    assert Pow10(1) == 10;
  }

  /** A string whose first character is a letter is not numeric. */
  lemma LetterNotNumeric(s: string)
    requires |s| > 0 && 'a' <= s[0] <= 'z'
    ensures NumericValue(s) == None
  {
  }

  /** The strings 'true' and '1' and the booleans TRUE switch TBYB on. */
  lemma TbybOnText()
    ensures FormatTbyb(Str("true")) == C.TbybOn && FormatTbyb(Str("1")) == C.TbybOn
    ensures FormatTbyb(Bool(true)) == C.TbybOn
  {
  }

  /** Numbers and numeric strings equal to 1 switch TBYB on. */
  lemma TbybOnNumbers()
    ensures FormatTbyb(Int(1)) == C.TbybOn && FormatTbyb(Float(1.0)) == C.TbybOn
    ensures FormatTbyb(Str("1.0")) == C.TbybOn
  {
    assert LooseEqualsInt(Int(1), 1) && LooseEqualsInt(Float(1.0), 1);
    TbybOnDecimalText();
  }

  lemma TbybOnDecimalText()
    ensures FormatTbyb(Str("1.0")) == C.TbybOn
  {
    NumericOnePointZero();
    assert LooseEqualsInt(Str("1.0"), 1);
  }

  /** Empty values and other text or numbers leave TBYB off. */
  lemma TbybOffCases()
    ensures FormatTbyb(Str("0")) == C.TbybOff && FormatTbyb(Str("")) == C.TbybOff && FormatTbyb(Null) == C.TbybOff
    ensures FormatTbyb(Str("yes")) == C.TbybOff && FormatTbyb(Int(2)) == C.TbybOff
  {
    NumericOne();
    LetterTextLoose("yes", "true");
    LetterTextLoose("yes", "1");
    LetterNotNumeric("yes");
    assert IntToStr(1) == "1" && IntToStr(2) == "2";
    assert !LooseEqualsInt(Str("yes"), 1);
  }

  /** Empty values, 'test', TRUE and 1 give test mode. */
  lemma TestModeOnCases()
    ensures FormatTestMode(Str("test")) == C.TestModeOn && FormatTestMode(Bool(true)) == C.TestModeOn
    ensures FormatTestMode(Null) == C.TestModeOn && FormatTestMode(Str("0")) == C.TestModeOn
    ensures FormatTestMode(Int(1)) == C.TestModeOn
  {
    assert IntToStr(1) == "1";
  }

  /** Other text and numbers give live mode. */
  lemma TestModeOffCases()
    ensures FormatTestMode(Str("live")) == C.TestModeOff && FormatTestMode(Int(2)) == C.TestModeOff
  {
    LiveIsOff();
    TwoIsOff();
  }

  lemma LiveIsOff()
    ensures FormatTestMode(Str("live")) == C.TestModeOff
  {
    LetterTextLoose("live", "test");
    LetterTextLoose("live", "true");
    LetterTextLoose("live", "1");
    LetterNotNumeric("live");
    assert IntToStr(1) == "1";
    assert !LooseEqualsInt(Str("live"), 1);
  }

  /** Text starting with a letter is loosely equal to a literal only when it is that literal. */
  lemma LetterTextLoose(s: string, lit: string)
    requires |s| > 0 && 'a' <= s[0] <= 'z'
    ensures LooseEqualsString(Str(s), lit) <==> s == lit
  {
    LetterNotNumeric(s);
  }

  lemma TwoIsOff()
    ensures FormatTestMode(Int(2)) == C.TestModeOff
  {
    NumericOne();
    LetterNotNumeric("test");
    LetterNotNumeric("true");
    assert ToStr(Int(2)) == "2";
    assert !LooseEqualsString(Int(2), "test") && !LooseEqualsString(Int(2), "true");
    assert NumberOf(Int(2)) == Some(2.0);
    assert !LooseEqualsString(Int(2), "1");
  }

  /** Text that is not a float's text: it holds a letter other than the exponent mark. */
  lemma NotFloatText(f: real, lit: string, k: nat)
    requires k < |lit| && 'a' <= lit[k] <= 'z'
    ensures FloatToStr(f) != lit
  {
    if !IsPlainCents(f) {
      var xs := OtherFloatSymbols(f);
      assert k < |xs| ==> SymbolsText(xs)[k] == SymbolChar(xs[k]);
    }
  }

  /**
   * `formatTbyb` on every value: TBYB is on exactly for TRUE, the text
   * 'true', and the values PHP reads as the number 1 (1, 1.0, '1', '1.0',
   * ...); everything else is off.
   */
  lemma TbybRule(t: Value)
    ensures FormatTbyb(t) ==
      (if t == Bool(true) || t == Str("true") || NumberOf(t) == Some(1.0) then C.TbybOn else C.TbybOff)
  {
    LetterNotNumeric("true");
    NumericOne();
    match t
    case Int(i) =>
      assert ToStr(t) != "true" by { assert AllDigits(NatToStr(if i < 0 then -i else i)); }
    case Float(f) =>
      NotFloatText(f, "true", 0);
    case _ =>
  }

  /**
   * `formatTestMode` on every value: test mode is on exactly for an empty
   * value, TRUE, the texts 'test' and 'true', and the values PHP reads as
   * the number 1; everything else is live.
   */
  lemma TestModeRule(m: Value)
    ensures FormatTestMode(m) ==
      (if !Truthy(m) || m == Bool(true) || m == Str("test") || m == Str("true") || NumberOf(m) == Some(1.0)
       then C.TestModeOn else C.TestModeOff)
  {
    LetterNotNumeric("true");
    LetterNotNumeric("test");
    NumericOne();
    match m
    case Int(i) =>
      assert ToStr(m) != "true" && ToStr(m) != "test" by { assert AllDigits(NatToStr(if i < 0 then -i else i)); }
    case Float(f) =>
      NotFloatText(f, "true", 0);
      NotFloatText(f, "test", 0);
    case _ =>
  }

  class ViaBillHelper {
    var testMode: Value
    var transactionType: Value
    var apiSecret: string
    var apiKey: string
    var tbyb: Value
    var priceTagScript: string

    /**
     * The settings loaded from the gateway entity: `gatewayMode` is the
     * plugin's mode when the `viabill_payments` gateway exists, and
     * `configuration` its plugin configuration.
     */
    constructor (gatewayMode: Option<string>, configuration: map<string, Value>)
      ensures gatewayMode.None? ==>
        testMode == C.TestModeOn && apiKey == "" && apiSecret == "" && priceTagScript == ""
        && transactionType == Str("")
      ensures gatewayMode.Some? ==> testMode == (if gatewayMode.value == "test" then C.TestModeOn else C.TestModeOff)
      ensures gatewayMode.Some? && |configuration| == 0 ==>
        apiKey == "" && apiSecret == "" && priceTagScript == "" && transactionType == Str("")
      ensures gatewayMode.Some? && |configuration| > 0 ==>
        apiKey == ToStr(Lookup(Arr(configuration), "api_key"))
        && apiSecret == ToStr(Lookup(Arr(configuration), "api_secret"))
        && priceTagScript == ToStr(Lookup(Arr(configuration), "viabill_pricetag"))
        && transactionType == Lookup(Arr(configuration), "transaction_type")
      ensures tbyb == C.TbybOff
    {
      testMode := C.TestModeOn;
      transactionType := Str("");
      apiSecret := "";
      apiKey := "";
      tbyb := C.TbybOff;
      priceTagScript := "";
      new;
      if gatewayMode.Some? {
        testMode := if gatewayMode.value == "test" then C.TestModeOn else C.TestModeOff;
        if |configuration| > 0 {
          apiKey := ToStr(Lookup(Arr(configuration), "api_key"));
          apiSecret := ToStr(Lookup(Arr(configuration), "api_secret"));
          priceTagScript := ToStr(Lookup(Arr(configuration), "viabill_pricetag"));
          transactionType := Lookup(Arr(configuration), "transaction_type");
        }
      }
    }

    /** `loadDefaultValues`: empty credentials and settings, test mode on, TBYB off. */
    method LoadDefaultValues()
      modifies this
      ensures apiKey == "" && apiSecret == "" && priceTagScript == "" && transactionType == Str("")
      ensures testMode == C.TestModeOn && tbyb == C.TbybOff
    {
      apiKey := "";
      apiSecret := "";
      priceTagScript := "";
      transactionType := Str("");
      testMode := C.TestModeOn;
      tbyb := C.TbybOff;
    }

    function GetFormattedTbyb(): Value
      reads this
    {
      FormatTbyb(tbyb)
    }

    function GetFormattedTestMode(): Value
      reads this
    {
      FormatTestMode(testMode)
    }

    /**
     * `generateRandomString`: `length` characters, the i-th being the
     * alphabet character at the i-th result of `random_int(0, 61)`, given here
     * as `draws`.
     */
    method GenerateRandomString(length: int, draws: seq<int>) returns (s: string)
      requires length <= |draws|
      requires forall i :: 0 <= i < |draws| ==> 0 <= draws[i] < |Alphabet|
      ensures |s| == if length < 0 then 0 else length
      ensures forall i :: 0 <= i < |s| ==> s[i] == Alphabet[draws[i]] && IsAlphanumeric(s[i])
    {
      AlphabetShape();
      s := "";
      var i := 0;
      while i < length
        invariant 0 <= i <= (if length < 0 then 0 else length) && |s| == i
        invariant forall j :: 0 <= j < i ==> s[j] == Alphabet[draws[j]] && IsAlphanumeric(s[j])
      {
        var index := draws[i];
        s := s + [Alphabet[index]];
        i := i + 1;
      }
    }

    /** `formatTransactionId`: 'vb-', the order id, '-', and ten random alphanumeric characters. */
    method FormatTransactionId(orderId: Value, draws: seq<int>) returns (id: string)
      requires 10 <= |draws|
      requires forall i :: 0 <= i < |draws| ==> 0 <= draws[i] < |Alphabet|
      ensures |id| == 3 + |ToStr(orderId)| + 11
      ensures id[..3] == "vb-" && id[3..|id| - 11] == ToStr(orderId) && id[|id| - 11] == '-'
      ensures forall i :: |id| - 10 <= i < |id| ==> IsAlphanumeric(id[i])
      ensures id == TransactionIdText(orderId, draws)
    {
      var suffix := GenerateRandomString(10, draws);
      var text := ToStr(orderId);
      id := "vb-" + text + "-" + suffix;
      assert id[..3] == "vb-" && id[3..|id| - 11] == text;
      assert id[|id| - 10..] == suffix;
    }
  }

  /** The transaction id for an order id and the first ten draws of `random_int`. */
  function TransactionIdText(orderId: Value, draws: seq<int>): string
    requires 10 <= |draws|
    requires forall i :: 0 <= i < |draws| ==> 0 <= draws[i] < |Alphabet|
  {
    "vb-" + ToStr(orderId) + "-" + seq(10, i requires 0 <= i < 10 => Alphabet[draws[i]])
  }

  /** `getViaBillApiPlatform`: the affiliate name. */
  function ApiPlatform(): string {
    C.Affiliate
  }
}
