# ViaBill payments for Drupal Commerce, modelled in Dafny

This project models the core of the `viabill_payments` Drupal Commerce module. The module is a client for ViaBill, a "buy now, pay later" provider. The model has six parts:

- **End-point registry** (`ViaBillServices`). This is the constant table of ViaBill API end points: for each, the path, the HTTP method, the required and optional fields, the status messages and the signature formats. Its lookup puts the affiliate name into the path.
- **Signed-request engine** (`ViaBillGateway`):
  - `parseFormat` substitutes `{token}`s. Each token is taken from the request data first, then the API secret, then the API key, then the protocol, then the test mode.
  - `getEndPointData` builds a request from a table row.
  - `prepareData` rewrites booleans.
  - the callback signature check, the ISO-code check, and the classification of each API call's response.
- **Helpers** (`ViaBillHelper`, `ViaBillOutgoingRequests`). These cover amount formatting, the TBYB and test-mode flags, transaction ids and the module settings. They also cover URL joining, the choice between GET and POST, and how the sender's output is shaped. The HTTP client is a parameter.
- **Payment plugin** (`ViaBillPayments`). The capture, void and refund operations each check the payment's state first, then call the gateway, then record what the gateway answered.
- **Callback controller** (`ViaBillController`). It covers:
  - the ordered checks of a ViaBill callback and the HTTP response for each;
  - the three-way order lookup;
  - the payment an APPROVED callback stores;
  - the cancellation a CANCELLED or REJECTED callback requests.
- **Offsite checkout form** (`ViaBillPaymentsForm`). It signs and assembles the checkout request, marks the order pending, and returns the redirect URL the gateway answers with. Its helpers summarise the customer and the cart.

PHP values are modelled by `Php.Value`, a datatype for PHP's null, boolean, integer, float, string and array. PHP's loose comparisons, `empty()`, `trim`, `str_replace`, `implode` and `number_format` are written out in module `Php`. Failures are `Outcome` values: `Returns(v)` or `Throws(message)`.

Orders, payments and gateway entities live in an `Orders.Storage` object. Its fields are the stored orders and payments, and the methods that save entities reassign them.

Modules, by source file:

| module (file) | source |
|---|---|
| `Services`, `ServicesProperties` (services.dfy, services_properties.dfy) | ViaBillServices.php |
| `SignatureFormat`, `Gateway`, `GatewayProperties` (signature_format.dfy, gateway.dfy, gateway_properties.dfy) | ViaBillGateway.php |
| `Helper` (helper.dfy) | ViaBillHelper.php |
| `Outgoing` (outgoing.dfy) | ViaBillOutgoingRequests.php |
| `Payments` (payments.dfy) | ViaBillPayments.php |
| `Orders`, `Controller` (orders.dfy, controller.dfy) | ViaBillController.php |
| `PaymentsForm` (payments_form.dfy) | ViaBillPaymentsForm.php |
| `Php`, `Wrappers`, `ViaBillConstants`, `Primitives` | PHP built-ins, the `ViaBillConstants` class, MD5 and `json_decode` |

## Model

| member | source | states |
|---|---|---|
| Services.WithAffiliate | viabill_payments/src/Helper/ViaBillServices.php:164-175 | The lookup changes only the path of a row. The method, the fields, the status codes and the formats are the row's own. |
| Services.GetApiEndPoint | viabill_payments/src/Helper/ViaBillServices.php:164-175 | Definition; characterised by `Services.WithAffiliate` and `ServicesProperties.CheckoutPathResolved`. |
| ServicesProperties.AddonPathReplaced | viabill_payments/src/Helper/ViaBillServices.php:168-174 | In a path of the form prefix + `ADDON_NAME` + suffix, the lookup puts the affiliate in place of `ADDON_NAME` and keeps the rest. |
| ServicesProperties.CheckoutPathResolved | viabill_payments/src/Helper/ViaBillServices.php:164-175 | The checkout path is `/api/checkout-authorize/addon/` followed by the affiliate. |
| ServicesProperties.PathKept | viabill_payments/src/Helper/ViaBillServices.php:164-175 | A path without the letter `A`, so without `ADDON_NAME`, is returned unchanged. |
| ServicesProperties.AddonRowsShape | viabill_payments/src/Helper/ViaBillServices.php:13-60 | `login` and `registration` have a NULL signature and require no `signature` field. `myviabill` and `notifications` sign `signature` with `{key}#{secret}`; the last token is `secret` and every other token is a required field. Required and optional fields are disjoint. |
| ServicesProperties.CheckoutRowShape | viabill_payments/src/Helper/ViaBillServices.php:61-89 | `checkout` requires `md5check`. Its format tokens are apikey, amount, currency, transaction, order_number, success_url, cancel_url and secret, in that order; every token but `secret` is a required field. Required and optional fields are disjoint. |
| ServicesProperties.TransactionRowsShape | viabill_payments/src/Helper/ViaBillServices.php:90-158 | Each transaction end point signs `signature` with a format ending in `{secret}` whose other tokens are required fields. Capture and refund use id, apikey, amount and currency; cancel, renew and status use id and apikey. Required and optional fields are disjoint. |
| ServicesProperties.GetEndpoints | viabill_payments/src/Helper/ViaBillServices.php:12-159 | An end point uses GET exactly when it is `myviabill`, `notifications` or `transaction_status`; every other end point uses POST. |
| ServicesProperties.TokensOfJoinedFormat | viabill_payments/src/Helper/ViaBillGateway.php:492 | Tokenising a `{a}#{b}#...` format gives back its token names, in order. |
| Services.ApiEndPointMessage | viabill_payments/src/Helper/ViaBillGateway.php:565-577 | The message is the row's text for the status, or '' when the row has none. |
| SignatureFormat.Tokens | viabill_payments/src/Helper/ViaBillGateway.php:492 | Every name the tokeniser finds is a valid token name: it is non-empty and holds no `{`, `}` or `#`. |
| SignatureFormat.TokensOfFlatten | viabill_payments/src/Helper/ViaBillGateway.php:492 | A format made of text pieces without `{` and of placeholders yields exactly the placeholders' names. |
| SignatureFormat.ReplaceFills | viabill_payments/src/Helper/ViaBillGateway.php:496-521 | Replacing each placeholder in turn with `str_replace` fills every hole of that name with its value and leaves the other holes alone, provided no value holds a `{`. |
| SignatureFormat.SubstituteFills | viabill_payments/src/Helper/ViaBillGateway.php:496-527 | Substituting all (token, value) pairs in order gives the format with each hole filled by its token's value, provided no value holds a `{`. |
| SignatureFormat.SubstituteRescans | viabill_payments/src/Helper/ViaBillGateway.php:496-521 | Without that proviso the result differs: `str_replace` rescans inserted text, so filling `{a}#{b}` with a = `{b}` and b = `X` gives `X#X`. |
| SignatureFormat.JoinedFilled | viabill_payments/src/Helper/ViaBillGateway.php:496-527 | A filled `{a}#{b}#...` format is the values joined by `#`. |
| Gateway.ViaBillGateway.constructor | viabill_payments/src/Helper/ViaBillGateway.php:45-51 | The gateway reads the test mode, the API key and the API secret from the helper. |
| Gateway.ViaBillGateway.Resolve | viabill_payments/src/Helper/ViaBillGateway.php:496-524 | A token resolves exactly when it is in the data or is one of `secret`, `key`, `apikey`, `apiKey`, `protocol` or `test`. A data value always wins, and a `country` value is normalised. |
| Gateway.ViaBillGateway.ResolveAllFails | viabill_payments/src/Helper/ViaBillGateway.php:496-524 | Resolving the tokens fails exactly when some token resolves to nothing, and then names the first such token. |
| Gateway.ViaBillGateway.ParseFormatThrows | viabill_payments/src/Helper/ViaBillGateway.php:491-528 | `parseFormat` throws exactly when a token of the format has no value; the message names the first such token. |
| Gateway.ViaBillGateway.ParseFormat | viabill_payments/src/Helper/ViaBillGateway.php:491-528 | The loop (one `str_replace` per token, then `trim`) computes the format's parse. |
| Gateway.ViaBillGateway.TokenValue | viabill_payments/src/Helper/ViaBillGateway.php:497-524 | One step of the token loop picks the value `Resolve` describes: the data's value, then the secret, the key, the protocol or the test mode. |
| Gateway.ViaBillGateway.ParseJoined | viabill_payments/src/Helper/ViaBillGateway.php:491-528 | A joined format whose values hold no `{` parses to the values joined by `#`, trimmed. |
| Gateway.ValidIsoChecked | viabill_payments/src/Helper/ViaBillGateway.php:461-476 | The check accepts exactly a trimmed, upper-cased two-letter code in the ISO list. It throws only for a two-letter code outside the list, and only when not silent. |
| Gateway.NormalizeCountry | viabill_payments/src/Helper/ViaBillGateway.php:367-369 | An accepted country is sent as a two-letter code of the ISO list. Any other value passes through unchanged. |
| Gateway.ViaBillGateway.FieldValueCases | viabill_payments/src/Helper/ViaBillGateway.php:341-375 | A field with a format is the MD5 of its parse, whatever the caller supplied. `protocol` is '3.0' and `test` is the test mode, but only when the data lacks them. A field has no value exactly when its format fails to parse, or it has no format, is not in the data, and is neither `protocol` nor `test`. |
| Gateway.ViaBillGateway.RequiredDataShape | viabill_payments/src/Helper/ViaBillGateway.php:338-381 | When the required-field loop succeeds, its map has exactly the required fields, each with its field value. |
| Gateway.ViaBillGateway.RequiredDataFails | viabill_payments/src/Helper/ViaBillGateway.php:345-380 | The required-field loop fails exactly when some field has no value. |
| Gateway.ViaBillGateway.BuildRequestFails | viabill_payments/src/Helper/ViaBillGateway.php:331-397 | `getEndPointData` returns FALSE exactly when some required field has no value. |
| Gateway.ViaBillGateway.BuildRequestKeys | viabill_payments/src/Helper/ViaBillGateway.php:338-394 | A built request holds exactly the required fields plus the optional fields the caller supplied, so the caller's extra keys are dropped. It keeps the row's path and method. |
| Gateway.ViaBillGateway.BuildRequestValues | viabill_payments/src/Helper/ViaBillGateway.php:338-394 | In a built request, each optional field is the caller's value, prepared, and each required field is its field value, prepared. |
| Gateway.ViaBillGateway.GetEndPointData | viabill_payments/src/Helper/ViaBillGateway.php:331-397 | The method, with its field loops, computes the request described by the row of the named end point. |
| Gateway.ViaBillGateway.RequiredFieldValue | viabill_payments/src/Helper/ViaBillGateway.php:341-375 | One step of the required-field loop gives the field's value as `FieldValueCases` describes it. |
| Gateway.ViaBillGateway.AddOptionalFields | viabill_payments/src/Helper/ViaBillGateway.php:384-390 | The optional-field loop copies each optional field the data has, and nothing else. |
| Gateway.ViaBillGateway.PrepareData | viabill_payments/src/Helper/ViaBillGateway.php:539-560 | The in-place recursive method replaces each boolean with 'true' or 'false', at any depth, and keeps every key. |
| Gateway.CheckVal | viabill_payments/src/Helper/ViaBillGateway.php:540-545 | Definition; characterised by `Gateway.Prepared` and `Gateway.PreparedNoBooleans`. |
| Gateway.Prepared | viabill_payments/src/Helper/ViaBillGateway.php:539-560 | Preparing keeps an array's keys, and maps every other value through the boolean-to-text rule. |
| Gateway.PreparedNoBooleans | viabill_payments/src/Helper/ViaBillGateway.php:539-560 | A prepared value holds no boolean at any depth. |
| Gateway.PreparedKeepsClean | viabill_payments/src/Helper/ViaBillGateway.php:539-560 | A value without booleans is left exactly as it was. |
| Gateway.PreparedIdempotent | viabill_payments/src/Helper/ViaBillGateway.php:539-560 | Preparing twice gives the same value as preparing once. |
| Gateway.TransactionResult | viabill_payments/src/Helper/ViaBillGateway.php:594-630 | A transaction call is TRUE exactly when a response came back with a 2xx status. It is the raw body for any other delivered status, and FALSE exactly when nothing was built or delivered. |
| Gateway.CheckResponseStatus | viabill_payments/src/Helper/ViaBillGateway.php:621-630 | Definition; characterised by `Gateway.TransactionResult`. |
| Gateway.ViaBillGateway.TransactionBodyBelow400 | viabill_payments/src/Helper/ViaBillGateway.php:594-630 | Every response `getRequestData` passes on has a status below 400. A transaction call therefore gives the raw body only for a 1xx or 3xx answer; a 4xx or 5xx answer gives FALSE. |
| Gateway.ViaBillGateway.GetRequestDataTransaction | viabill_payments/src/Helper/ViaBillGateway.php:594-610 | The method gives the transaction outcome of the built request, or propagates the sender's exception. |
| Gateway.ViaBillGateway.CaptureTransaction | viabill_payments/src/Helper/ViaBillGateway.php:183-185 | `captureTransaction` is the transaction call on `capture_transaction`. |
| Gateway.ViaBillGateway.RefundTransaction | viabill_payments/src/Helper/ViaBillGateway.php:190-192 | `refundTransaction` is the transaction call on `refund_transaction`. |
| Gateway.ViaBillGateway.CancelTransaction | viabill_payments/src/Helper/ViaBillGateway.php:197-199 | `cancelTransaction` is the transaction call on `cancel_transaction`. |
| Gateway.AccountResponse | viabill_payments/src/Helper/ViaBillGateway.php:66-123 | For login and register, an empty body gives '... returned an empty response!'. A body with `errors` gives the first error. Otherwise the result is the decoded response. |
| Gateway.LinkResponse | viabill_payments/src/Helper/ViaBillGateway.php:214-275 | For `myViabill` and `notifications`, an empty body gives FALSE. Otherwise at most one of `error` and the link or messages field is set, and the API's errors take precedence. When the body decodes to a response with errors, the result is exactly the first error and a NULL link or messages field. |
| Gateway.FirstError | viabill_payments/src/Helper/ViaBillGateway.php:75 | Definition; characterised by `Gateway.AccountResponse` and `Gateway.LinkResponse`. |
| Gateway.ViaBillGateway.LoginViabillUser | viabill_payments/src/Helper/ViaBillGateway.php:66-87 | The login call's result is the account response to what the sender returned. |
| Gateway.ViaBillGateway.RegisterViabillUser | viabill_payments/src/Helper/ViaBillGateway.php:102-123 | The registration call's result is the account response to what the sender returned. |
| Gateway.ViaBillGateway.MyViabill | viabill_payments/src/Helper/ViaBillGateway.php:214-237 | The call's result is the link response with the `url` field. |
| Gateway.ViaBillGateway.Notifications | viabill_payments/src/Helper/ViaBillGateway.php:252-275 | The call's result is the link response with the `messages` field. |
| Gateway.ViaBillGateway.GetRequestData | viabill_payments/src/Helper/ViaBillGateway.php:294-318 | The result is FALSE when the request cannot be built. Otherwise it is what the sender returns: `checkout` goes without redirects, and the other end points use the row's method. |
| Gateway.IsForceRequest | viabill_payments/src/Helper/ViaBillGateway.php:641-643 | Definition; characterised by `PaymentsForm.RequestNotForced`. |
| Gateway.CheckoutOutcome | viabill_payments/src/Helper/ViaBillGateway.php:128-168 | No response gives status 400. A 301 or 302 response gives its first `Location` line as the redirect URL, with the status and its message. Any other case gives 'Request already made'. |
| Gateway.LocationOf | viabill_payments/src/Helper/ViaBillGateway.php:149 | Definition; characterised by `Gateway.CheckoutOutcome` and `PaymentsForm.CheckoutRedirectCases`. |
| Gateway.ViaBillGateway.Checkout | viabill_payments/src/Helper/ViaBillGateway.php:128-168 | `checkout` sets `protocol` to '3.0` first, then either propagates the sender's exception or classifies the answer. |
| Gateway.ViaBillGateway.VerifyCallbackSignature | viabill_payments/src/Helper/ViaBillGateway.php:414-442 | The check throws when there is no `signature` key or the format does not parse over the rest of the data. Otherwise it is TRUE exactly when the MD5 of the parse equals the signature; a mismatch is FALSE in silent mode and throws otherwise. |
| GatewayProperties.BlankFormatIsDefault | viabill_payments/src/Helper/ViaBillGateway.php:415-418 | A format made only of whitespace, the empty one included, selects the default callback format. |
| GatewayProperties.DefaultCallbackTokens | viabill_payments/src/Helper/ViaBillGateway.php:415-418 | The default callback format's tokens are transaction, orderNumber, amount, currency, status, time and secret. |
| GatewayProperties.CallbackResolved | viabill_payments/src/Helper/ViaBillGateway.php:496-524 | Over a callback carrying the six fields, where no field text and no secret holds a `{`, the default format parses to the fields' texts and then the secret, joined by `#` and trimmed. |
| GatewayProperties.DefaultCallbackVerdict | viabill_payments/src/Helper/ViaBillGateway.php:414-442 | With the default format, a callback carrying the six fields, where no field text and no secret holds a `{`, is accepted exactly when its signature is the MD5 of the fields and the secret joined by `#` and trimmed. A mismatch gives FALSE in silent mode and throws otherwise. The secret used is the callback's own `secret` entry when it has one, and the API secret otherwise. |
| GatewayProperties.SelfSignedCallbackAccepted | viabill_payments/src/Helper/ViaBillGateway.php:497-509 | A callback that carries the six fields, a `secret` of the sender's choosing and the MD5 of the trimmed `#`-join computed with it is accepted, in silent and in strict mode, provided no field text and not that secret holds a `{`. |
| GatewayProperties.SelfSignedKeeps | viabill_payments/src/Helper/ViaBillGateway.php:497-509 | Self-signing changes only `secret` and `signature`. |
| GatewayProperties.CallbackMissingField | viabill_payments/src/Helper/ViaBillGateway.php:414-442 | With the default format, a callback lacking one of the six fields is rejected by an exception, in either mode. |
| GatewayProperties.CallbackFormatThrows | viabill_payments/src/Helper/ViaBillGateway.php:521-523 | The default format does not parse when one of its tokens resolves to nothing. |
| GatewayProperties.CheckoutRequestKeys | viabill_payments/src/Helper/ViaBillGateway.php:338-394 | A built checkout request holds exactly the required checkout fields plus the optional ones supplied, so `secret`, `tbyb` and `platform` are never sent. |
| GatewayProperties.CheckoutRequestSigned | viabill_payments/src/Helper/ViaBillGateway.php:341-352 | The `md5check` of a built checkout request is the MD5 of the checkout format parsed over the data. |
| GatewayProperties.CheckoutRequestProtocol | viabill_payments/src/Helper/ViaBillGateway.php:362-366 | A built checkout request's `protocol` is the caller's value, or '3.0' when the caller gave none. |
| GatewayProperties.CheckoutProtocol | viabill_payments/src/Helper/ViaBillGateway.php:128-168 | Because `checkout` sets the protocol first, a built checkout request always says '3.0'. |
| Helper.FormatAmount | viabill_payments/src/Helper/ViaBillHelper.php:180-189 | A numeric value gives text with two decimals, a `.` and no thousands separator, whose value is the amount rounded to hundredths. Anything else gives '0'. |
| Helper.FormatAmountClose | viabill_payments/src/Helper/ViaBillHelper.php:180-189 | The formatted amount reads back within half a hundredth of the amount. |
| Helper.FormatTbyb | viabill_payments/src/Helper/ViaBillHelper.php:194-204 | Definition; characterised by `Helper.TbybRule`. |
| Helper.TbybRule | viabill_payments/src/Helper/ViaBillHelper.php:194-204 | For every value, TBYB is ON exactly for TRUE, the text 'true' and the values PHP reads as the number 1 (1, 1.0, '1', '1.0', ...); every other value, empty ones included, gives OFF. |
| Helper.TbybOnText | viabill_payments/src/Helper/ViaBillHelper.php:194-204 | 'true', '1' and TRUE switch TBYB on. |
| Helper.TbybOnNumbers | viabill_payments/src/Helper/ViaBillHelper.php:194-204 | 1, 1.0 and '1.0' switch TBYB on, because they compare loosely equal to '1' or 1. |
| Helper.TbybOffCases | viabill_payments/src/Helper/ViaBillHelper.php:194-204 | '0', '', NULL, 'yes' and 2 leave TBYB off. |
| Helper.ViaBillHelper.GetFormattedTbyb | viabill_payments/src/Helper/ViaBillHelper.php:209-211 | Definition; characterised by `Helper.TbybRule`, applied to the stored TBYB setting. |
| Helper.FormatTestMode | viabill_payments/src/Helper/ViaBillHelper.php:216-226 | Definition; characterised by `Helper.TestModeRule`. |
| Helper.TestModeRule | viabill_payments/src/Helper/ViaBillHelper.php:216-226 | For every value, test mode is ON exactly for an empty value, TRUE, the texts 'test' and 'true', and the values PHP reads as the number 1; every other value gives TEST_MODE_OFF. |
| Helper.TestModeOnCases | viabill_payments/src/Helper/ViaBillHelper.php:216-226 | 'test', TRUE, NULL, '0' and 1 give test mode. |
| Helper.TestModeOffCases | viabill_payments/src/Helper/ViaBillHelper.php:216-226 | 'live' and 2 give live mode. |
| Helper.ViaBillHelper.GetFormattedTestMode | viabill_payments/src/Helper/ViaBillHelper.php:231-233 | Definition; characterised by `Helper.TestModeRule`, applied to the stored test mode. |
| Helper.AlphabetShape | viabill_payments/src/Helper/ViaBillHelper.php:246 | The random alphabet has 62 characters, all alphanumeric. |
| Helper.ViaBillHelper.GenerateRandomString | viabill_payments/src/Helper/ViaBillHelper.php:245-259 | The string has exactly `length` characters, none for a negative length. The i-th character is the alphabet character picked by the i-th draw, so every character is alphanumeric. |
| Helper.ViaBillHelper.FormatTransactionId | viabill_payments/src/Helper/ViaBillHelper.php:172-175 | The id is 'vb-', the order id's text, '-', and ten alphanumeric characters. |
| Helper.TransactionIdText | viabill_payments/src/Helper/ViaBillHelper.php:172-175 | Definition; characterised by `Helper.ViaBillHelper.FormatTransactionId`, which computes it. |
| Helper.ApiPlatform | viabill_payments/src/Helper/ViaBillHelper.php:238-240 | Definition; characterised by `PaymentsForm.FormRequestAsSent`, which shows that the `platform` entry it fills is never sent. |
| Helper.ViaBillHelper.LoadDefaultValues | viabill_payments/src/Helper/ViaBillHelper.php:99-106 | The API key, API secret, price-tag script and transaction type become ''. Test mode becomes ON and TBYB becomes OFF. |
| Helper.ViaBillHelper.constructor | viabill_payments/src/Helper/ViaBillHelper.php:67-97 | Without the gateway entity the helper keeps its defaults. With it, test mode follows the plugin's mode. An empty configuration keeps the default key, secret, price-tag script and transaction type; a non-empty one supplies all four. TBYB stays off. |
| Outgoing.JoinedBySingleSlash | viabill_payments/src/Helper/ViaBillOutgoingRequests.php:200-204 | Extra slashes at the end of the base or the start of the path change nothing, and a clean base and path are joined by exactly one `/`. |
| Outgoing.BaseUrl | viabill_payments/src/Helper/ViaBillOutgoingRequests.php:16-43 | The base URL is the live URL whatever the test flag. |
| Outgoing.ShapeOutput | viabill_payments/src/Helper/ViaBillOutgoingRequests.php:93-186 | The output records the request as sent, the status, the body and the response headers. A 3xx status adds a `Referer` holding the request URL; other headers are kept. |
| Outgoing.Deliver | viabill_payments/src/Helper/ViaBillOutgoingRequests.php:83-186 | A received response below 400 becomes its output. A 4xx or 5xx answer, which Guzzle's default `http_errors` raises as a client or server exception, becomes FALSE, as does any other client or request exception. Any other failure propagates. A delivered output has the answer's status, which is below 400. |
| Outgoing.DeliveredBelow400 | viabill_payments/src/Helper/ViaBillOutgoingRequests.php:60-91 | The sender delivers an output exactly when an answer below 400 came back, and its status and body are the answer's. A 4xx or 5xx answer is delivered as FALSE. |
| Outgoing.RequestCallShape | viabill_payments/src/Helper/ViaBillOutgoingRequests.php:42-81 | A call is made exactly for GET or POST, compared upper-cased. GET sends the data as the query and POST as form parameters. Redirects are allowed, and extra headers override the defaults while the other defaults stay. |
| Outgoing.Request | viabill_payments/src/Helper/ViaBillOutgoingRequests.php:42-116 | `request` makes that call and delivers its outcome. With another method it returns FALSE without a call. |
| Outgoing.RequestResult | viabill_payments/src/Helper/ViaBillOutgoingRequests.php:42-116 | Definition; characterised by `Outgoing.Request`, which computes it, `Outgoing.RequestCallShape` and `Outgoing.Deliver`. |
| Outgoing.RequestWithoutRedirect | viabill_payments/src/Helper/ViaBillOutgoingRequests.php:133-187 | The method is passed on as given, with form parameters, the default headers only and redirects disabled. |
| Payments.DefaultConfiguration | viabill_payments/src/Plugin/Commerce/PaymentGateway/ViaBillPayments.php:74-81 | The plugin's defaults add an empty key, secret and price tag and an authorize-only transaction type. They take precedence over the parent's defaults, which are otherwise kept. |
| Payments.CaptureAmount | viabill_payments/src/Plugin/Commerce/PaymentGateway/ViaBillPayments.php:711-731 | Definition; characterised by `Payments.CaptureAmountCases`. |
| Payments.CaptureData | viabill_payments/src/Plugin/Commerce/PaymentGateway/ViaBillPayments.php:737-747 | Definition; characterised by `Payments.CaptureAmountText`. |
| Payments.Captured | viabill_payments/src/Plugin/Commerce/PaymentGateway/ViaBillPayments.php:750-792 | Definition; characterised by `Payments.CapturedCases`. |
| Payments.CaptureAmountCases | viabill_payments/src/Plugin/Commerce/PaymentGateway/ViaBillPayments.php:711-731 | A capture passes the checks exactly when the payment is authorised and the amount, in the payment's currency, is at most the authorised amount, because nothing is counted as captured yet. No amount means the authorised amount. |
| Payments.CaptureAmountText | viabill_payments/src/Plugin/Commerce/PaymentGateway/ViaBillPayments.php:739-747 | The amount sent has two decimals and reads back as minus the amount rounded to hundredths, so it is never positive for a non-negative amount. |
| Payments.CapturedCases | viabill_payments/src/Plugin/Commerce/PaymentGateway/ViaBillPayments.php:750-792 | The payment becomes completed and saved exactly when the answer is truthy. The completed time is set only for a full capture. A falsy answer or an exception changes nothing and saves nothing. |
| Payments.ErrorBodyCompletesCapture | viabill_payments/src/Plugin/Commerce/PaymentGateway/ViaBillPayments.php:750 | A response whose status is not 2xx but whose body is non-empty and not '0' still completes the payment. The sender delivers such a response only for a 1xx or 3xx status (below 400); a 4xx or 5xx answer arrives as FALSE. |
| Payments.VoidData | viabill_payments/src/Plugin/Commerce/PaymentGateway/ViaBillPayments.php:805-812 | Definition; characterised by `Payments.ViaBillPayments.VoidPayment`. |
| Payments.Voided | viabill_payments/src/Plugin/Commerce/PaymentGateway/ViaBillPayments.php:814-829 | Definition; characterised by `Payments.VoidedCases`. |
| Payments.VoidedCases | viabill_payments/src/Plugin/Commerce/PaymentGateway/ViaBillPayments.php:806-829 | A truthy answer voids the payment and saves it; anything else leaves it as it was. |
| Payments.RefundData | viabill_payments/src/Plugin/Commerce/PaymentGateway/ViaBillPayments.php:843-855 | Definition; characterised by `Payments.ViaBillPayments.RefundPayment`. |
| Payments.Refundable | viabill_payments/src/Plugin/Commerce/PaymentGateway/ViaBillPayments.php:836 | Definition; characterised by `Payments.ViaBillPayments.RefundPayment`. |
| Payments.Refunded | viabill_payments/src/Plugin/Commerce/PaymentGateway/ViaBillPayments.php:857-883 | Definition; characterised by `Payments.RefundedCases` and `Payments.RefundCurrencyMismatch`. |
| Payments.RefundedCases | viabill_payments/src/Plugin/Commerce/PaymentGateway/ViaBillPayments.php:845-883 | A successful refund adds the amount to the refunded amount and stores it. The payment becomes partially refunded while the total is below the payment amount, and refunded otherwise. It assumes the three prices share one currency; `Payments.RefundCurrencyMismatch` covers the other case. |
| Payments.RefundCurrencyMismatch | viabill_payments/src/Plugin/Commerce/PaymentGateway/ViaBillPayments.php:857-883 | When the refund amount, the refunded amount and the payment amount do not all share one currency, the PHP `add` throws and the error is caught. The payment is left as it was, and the message is "Error processing refund", or "Refund operation failed" for a falsy answer, which is checked first. |
| Payments.NoRefundBound | viabill_payments/src/Plugin/Commerce/PaymentGateway/ViaBillPayments.php:835-883 | Refunding twice the payment amount is accepted and marks the payment refunded. |
| Payments.Payment.Save | viabill_payments/src/Plugin/Commerce/PaymentGateway/ViaBillPayments.php:782 | Saving counts one more save and changes nothing else. |
| Payments.ViaBillPayments.CreatePayment | viabill_payments/src/Plugin/Commerce/PaymentGateway/ViaBillPayments.php:667-670 | The payment becomes `new` and is saved once. |
| Payments.ViaBillPayments.BuildPaymentOperations | viabill_payments/src/Plugin/Commerce/PaymentGateway/ViaBillPayments.php:685-705 | The parent's operations gain `capture` exactly when the payment is in `authorization`. |
| Payments.ViaBillPayments.CapturePayment | viabill_payments/src/Plugin/Commerce/PaymentGateway/ViaBillPayments.php:710-793 | A failed check throws and leaves the payment alone. Otherwise the capture data is sent and the payment becomes what `Captured` says. |
| Payments.ViaBillPayments.ApplyCapture | viabill_payments/src/Plugin/Commerce/PaymentGateway/ViaBillPayments.php:750-792 | After the answer, the payment and the message are those `Captured` gives. |
| Payments.ViaBillPayments.VoidPayment | viabill_payments/src/Plugin/Commerce/PaymentGateway/ViaBillPayments.php:798-830 | A payment not in `authorization` gives the state exception and is unchanged. Otherwise the cancel call decides, as `Voided` says. |
| Payments.ViaBillPayments.ApplyVoid | viabill_payments/src/Plugin/Commerce/PaymentGateway/ViaBillPayments.php:806-829 | After the answer, the payment and the message are those `Voided` gives. |
| Payments.ViaBillPayments.RefundPayment | viabill_payments/src/Plugin/Commerce/PaymentGateway/ViaBillPayments.php:835-884 | A payment neither completed nor partially refunded gives the state exception and is unchanged. Otherwise the whole amount, or the amount given, is refunded, as `Refunded` says. |
| Payments.ViaBillPayments.ApplyRefund | viabill_payments/src/Plugin/Commerce/PaymentGateway/ViaBillPayments.php:845-883 | After the answer, the payment and the message are those `Refunded` gives. |
| Orders.FirstWhere | viabill_payments/src/Controller/ViaBillController.php:348-353 | The result is the index of the first matching element, or nothing when none matches. |
| Orders.Available | viabill_payments/src/Controller/ViaBillController.php:347 | The available transitions are exactly the workflow's transitions that leave from the current state. |
| Orders.Transitioned | viabill_payments/src/Controller/ViaBillController.php:341-359 | Definition; characterised by `Orders.TransitionedCases`, `Orders.TransitionedAt` and `Orders.TransitionedNone`. |
| Orders.TransitionedCases | viabill_payments/src/Controller/ViaBillController.php:341-359 | The order reaches the desired state and is saved exactly when its workflow has a transition from its state to that state. Otherwise it is left as it was. |
| Orders.TransitionedAt | viabill_payments/src/Controller/ViaBillController.php:347-356 | When the first available transition to the desired state sits at a given position, the order takes that state and is saved once. |
| Orders.TransitionedNone | viabill_payments/src/Controller/ViaBillController.php:347-356 | When no available transition leads to the desired state, the order is left exactly as it was. |
| Orders.OrderById | viabill_payments/src/Controller/ViaBillController.php:168-170 | Definition; characterised by `Orders.OrderByIdCases`. |
| Orders.OrderByIdCases | viabill_payments/src/Controller/ViaBillController.php:168-170 | An order is loaded exactly when one with that id is stored, and it is that order. |
| Controller.CallbackEntries | viabill_payments/src/Controller/ViaBillController.php:91-110 | Definition; characterised by `Controller.CallbackNeedsJson` and `Controller.ViaBillController.Callback`. |
| Controller.CarriesTransaction | viabill_payments/src/Controller/ViaBillController.php:192-199 | Definition; characterised by `Controller.FindOrderCases`. |
| Controller.FindOrderByTransactionId | viabill_payments/src/Controller/ViaBillController.php:189-211 | A result is always a stored order. |
| Controller.FindOrder | viabill_payments/src/Controller/ViaBillController.php:166-178 | A result is always a stored order. |
| Controller.FindOrderCases | viabill_payments/src/Controller/ViaBillController.php:166-211 | A truthy order number naming a stored order wins. Any order found is the order named by the number, or an order whose data carries the transaction id, or the order of a payment with that remote id. Nothing is found only when no order is named and no order carries the transaction id. Without a named order, an order carrying the transaction id is always found, and it carries the id. When none carries it, the result is exactly the order of the first payment with that remote id, if that order is stored. |
| Controller.FirstPaymentOnly | viabill_payments/src/Controller/ViaBillController.php:198-208 | Only the first payment with the remote id is consulted. When its order is gone, nothing is found, even if a later payment's order exists. |
| Controller.LoadPaymentGateway | viabill_payments/src/Controller/ViaBillController.php:222-246 | The gateway is found exactly when the order names a gateway and a gateway entity has that id. |
| Controller.CallbackStep | viabill_payments/src/Controller/ViaBillController.php:106-156 | An approving step names a stored order and a configured gateway, and a failing step names a stored order. |
| Controller.CallbackActsOnlyWhenVerified | viabill_payments/src/Controller/ViaBillController.php:113-150 | The callback acts on an order only after every check passed. It approves exactly for APPROVED and fails the order exactly for CANCELLED or REJECTED. Conversely, once all four parameters are truthy, the signature verified, the order was found and its gateway loaded, APPROVED approves that order with that gateway, CANCELLED or REJECTED fails it, and any other status gets "Unknown status" (400). |
| Controller.CallbackRejections | viabill_payments/src/Controller/ViaBillController.php:113-156 | Each response the checks give on their own is a 400, 404 or 500 with the source's message. |
| Controller.ForgedCallbackApproved | viabill_payments/src/Controller/ViaBillController.php:113-150 | Anyone who knows an order's number or transaction id can get a payment approved for it. The callback, with status APPROVED and no `{` in its field texts or its secret, need only carry its own `secret` and the MD5 of the trimmed `#`-join computed with it. |
| Controller.CallbackNeedsJson | viabill_payments/src/Controller/ViaBillController.php:90-116 | An empty body, or one not sent as `application/json`, is answered 400 'Missing required parameters'. |
| Controller.CaptureMode | viabill_payments/src/Controller/ViaBillController.php:271-275 | Definition; characterised by `Controller.ApprovedPaymentCases` and `Controller.ViaBillController.Capture`. |
| Controller.CaptureAmountValue | viabill_payments/src/Controller/ViaBillController.php:280 | Definition; characterised by `Controller.CaptureAmountNeverPositive`. |
| Controller.CaptureAmountNeverPositive | viabill_payments/src/Controller/ViaBillController.php:276-282 | In capture mode the amount sent is never positive: it is minus the amount's magnitude rounded to hundredths, and 0 for a non-numeric amount. |
| Controller.CaptureRequest | viabill_payments/src/Controller/ViaBillController.php:276-282 | Definition; characterised by `Controller.ViaBillController.Capture`. |
| Controller.CaptureReply | viabill_payments/src/Controller/ViaBillController.php:275-294 | Definition; characterised by `Controller.ViaBillController.Capture`, which computes it. |
| Controller.ApprovedPayment | viabill_payments/src/Controller/ViaBillController.php:268-306 | Definition; characterised by `Controller.ApprovedPaymentCases`. |
| Controller.ApprovedPaymentCases | viabill_payments/src/Controller/ViaBillController.php:264-306 | The stored payment is completed exactly in capture mode when the capture call returned TRUE itself; a truthy body from a non-2xx answer (a 1xx or 3xx status, the only non-2xx statuses delivered) leaves it in `authorization`. Its remote state equals its state, its remote id is the transaction id, and it points at the order and the gateway. A throwing capture call stores nothing. |
| Controller.FailedOrder | viabill_payments/src/Controller/ViaBillController.php:317-331 | Definition; characterised by `Controller.FailedOrderCases`. |
| Controller.FailedOrderCases | viabill_payments/src/Controller/ViaBillController.php:317-331 | A completed or canceled order is left alone. Any other order becomes canceled, and is saved, exactly when its workflow allows it. |
| Controller.ViaBillController.UpdateOrderState | viabill_payments/src/Controller/ViaBillController.php:341-359 | The loop over the available transitions applies the first one to the desired state and saves the order; only that order changes. |
| Controller.ViaBillController.ProcessFailedPayment | viabill_payments/src/Controller/ViaBillController.php:317-331 | The order becomes `FailedOrder` of itself, and no payment changes. |
| Controller.ViaBillController.ProcessApprovedPayment | viabill_payments/src/Controller/ViaBillController.php:264-307 | Exactly one payment is appended, the one `ApprovedPayment` gives, or nothing when that throws. The orders are untouched. |
| Controller.ViaBillController.Capture | viabill_payments/src/Controller/ViaBillController.php:276-291 | The capture call is made in capture mode only, with the never-positive amount. |
| Controller.ViaBillController.StoreApprovedPayment | viabill_payments/src/Controller/ViaBillController.php:272-306 | The payment built from the capture answer is appended. Nothing is stored when the capture call or the `Price` constructor throws, and that exception is passed on. |
| Controller.ViaBillController.Callback | viabill_payments/src/Controller/ViaBillController.php:86-161 | The response and the new orders and payments are what the callback step decides for the decoded body. Approve stores one payment and answers 200 'OK'. Fail applies the cancellation and answers 200. An exception from the approved path answers 500 'Error processing request: ...'. |
| PaymentsForm.CustomerData | viabill_payments/src/PluginForm/ViaBillPaymentsForm.php:184-223 | Definition; characterised by `PaymentsForm.CustomerDataShape`. |
| PaymentsForm.CustomerDataShape | viabill_payments/src/PluginForm/ViaBillPaymentsForm.php:184-222 | The customer data always has the nine keys, and `fullName` is always ''. With a billing address, `address` is line 1, ', ' and line 2, and the other parts come from the address. `phoneNumber` is TRUE exactly when the profile has a phone field, and otherwise ''. Without an address every value is ''. |
| PaymentsForm.AddressesAreEqual | viabill_payments/src/PluginForm/ViaBillPaymentsForm.php:228-239 | Definition; characterised by `PaymentsForm.AddressesAreEqualCases` and `PaymentsForm.NumericPostalCodesCompareAsNumbers`. |
| PaymentsForm.AddressesAreEqualCases | viabill_payments/src/PluginForm/ViaBillPaymentsForm.php:228-239 | A missing address equals nothing. The comparison is symmetric, and a present address equals itself with any line 2. |
| PaymentsForm.NumericPostalCodesCompareAsNumbers | viabill_payments/src/PluginForm/ViaBillPaymentsForm.php:237 | Postal codes compare loosely: '0123' and '123' are the same code. |
| PaymentsForm.TotalItems | viabill_payments/src/PluginForm/ViaBillPaymentsForm.php:309-315 | Definition; characterised by `PaymentsForm.CalculateTotalItems`, which computes it, `PaymentsForm.TotalItemsConcat` and `PaymentsForm.TotalItemsBounds`. |
| PaymentsForm.CalculateTotalItems | viabill_payments/src/PluginForm/ViaBillPaymentsForm.php:309-315 | The loop computes the sum of the items' integer-cast quantities. |
| PaymentsForm.TotalItemsConcat | viabill_payments/src/PluginForm/ViaBillPaymentsForm.php:309-315 | The item count of two lists together is the sum of their counts. |
| PaymentsForm.TotalItemsBounds | viabill_payments/src/PluginForm/ViaBillPaymentsForm.php:309-315 | With non-negative quantities the count is non-negative, and at least 1 when some item has quantity 1 or more. |
| PaymentsForm.AdjustmentTotals | viabill_payments/src/PluginForm/ViaBillPaymentsForm.php:251-262 | One pass over the order's adjustments gives the tax total, the shipping total and a never-negative discount that sums the promotions' magnitudes. |
| PaymentsForm.MagnitudeSumNonNegative | viabill_payments/src/PluginForm/ViaBillPaymentsForm.php:259-261 | A sum of magnitudes is never negative. |
| PaymentsForm.SumIgnoresOtherKinds | viabill_payments/src/PluginForm/ViaBillPaymentsForm.php:251-262 | Adjustments of other types add nothing. |
| PaymentsForm.ItemTax | viabill_payments/src/PluginForm/ViaBillPaymentsForm.php:269-276 | The item's tax is the sum of its `tax` adjustments. |
| PaymentsForm.QuantityMatchesProducts | viabill_payments/src/PluginForm/ViaBillPaymentsForm.php:281-315 | The cart's `quantity` equals the sum of its product lines' quantities. |
| PaymentsForm.BuildCartData | viabill_payments/src/PluginForm/ViaBillPaymentsForm.php:244-304 | The cart has the adjustment totals and one product line per item, in order. Each line takes the purchased entity's id and SKU when there is one, or the item's id and ''. The cart also has the item count, the order's subtotal, total and currency, the order id and the creation date. |
| PaymentsForm.SignatureData | viabill_payments/src/PluginForm/ViaBillPaymentsForm.php:80-89 | The form signs exactly as many values as the registry's checkout format has tokens. |
| PaymentsForm.ResolvesToSignature | viabill_payments/src/PluginForm/ViaBillPaymentsForm.php:80-109 | In the sent request, the registry's i-th checkout token resolves to the i-th value the form signs, so the form's order is the registry's order. |
| PaymentsForm.Md5Check | viabill_payments/src/PluginForm/ViaBillPaymentsForm.php:90 | Definition; characterised by `PaymentsForm.SentSignatureMatchesForm` and `PaymentsForm.FormRequestAsSent`, which show that the gateway recomputes the value it sends. |
| PaymentsForm.SentSignatureMatchesForm | viabill_payments/src/PluginForm/ViaBillPaymentsForm.php:80-90 | The gateway's parse of the checkout format over the sent request is the form's signed values joined by `#` and trimmed, provided no value holds a `{`. |
| PaymentsForm.RequestData | viabill_payments/src/PluginForm/ViaBillPaymentsForm.php:93-109 | Definition; characterised by `PaymentsForm.FormRequestAsSent` and `PaymentsForm.RequestNotForced`. |
| PaymentsForm.FormRequestAsSent | viabill_payments/src/PluginForm/ViaBillPaymentsForm.php:93-124 | The form's request carries `secret`, `tbyb` and `platform`, but the built checkout request never sends them. It sends protocol '3.0' and an `md5check` that is the MD5 of the form's signed values joined by `#` and trimmed, provided no signed value holds a `{`. |
| PaymentsForm.RequestNotForced | viabill_payments/src/PluginForm/ViaBillPaymentsForm.php:95 | The request carries `apikey`, so it is never a forced request. |
| PaymentsForm.PendingOrder | viabill_payments/src/PluginForm/ViaBillPaymentsForm.php:111-122 | Definition; characterised by `PaymentsForm.PendingOrderCases`. |
| PaymentsForm.PendingOrderCases | viabill_payments/src/PluginForm/ViaBillPaymentsForm.php:111-122 | The order keeps its id, gateway and workflow, carries the transaction id, and is saved exactly once. It becomes pending exactly when its workflow allows it, so at most one transition is applied. |
| PaymentsForm.CheckoutRedirect | viabill_payments/src/PluginForm/ViaBillPaymentsForm.php:124-144 | A returned redirect URL is never empty. |
| PaymentsForm.CheckoutSent | viabill_payments/src/PluginForm/ViaBillPaymentsForm.php:124 | Definition; characterised by `PaymentsForm.CheckoutRedirectCases` and `PaymentsForm.ViaBillPaymentsForm.Submit`. |
| PaymentsForm.CheckoutRedirectCases | viabill_payments/src/PluginForm/ViaBillPaymentsForm.php:124-144 | A redirect URL is returned exactly when the gateway answered 301 or 302 with a `Location`, and it is that `Location`. Every other outcome throws, with a message starting 'Error processing payment: '. |
| PaymentsForm.ViaBillPaymentsForm.MarkPending | viabill_payments/src/PluginForm/ViaBillPaymentsForm.php:111-122 | The loop applies the first available transition to `pending`, if any, after setting the transaction id; the order is saved once and nothing else changes. |
| PaymentsForm.ViaBillPaymentsForm.FirstPending | viabill_payments/src/PluginForm/ViaBillPaymentsForm.php:114-120 | The loop finds the first transition to `pending`: every earlier one leads elsewhere, and the count is returned when none does. |
| PaymentsForm.ViaBillPaymentsForm.Submit | viabill_payments/src/PluginForm/ViaBillPaymentsForm.php:111-130 | The order is set pending and saved. Then the checkout call is made, and its redirect URL, or the prefixed exception, is returned. |
| PaymentsForm.ViaBillPaymentsForm.BuildConfigurationForm | viabill_payments/src/PluginForm/ViaBillPaymentsForm.php:21-145 | No order throws 'Error processing payment: Invalid order object'. Missing credentials throw 'Error processing payment: Missing ViaBill API credentials'. In both cases no order changes. Otherwise the order is set pending with the transaction id 'vb-', the id, '-' and ten random characters. The signed request is sent and the redirect URL returned. No payment changes. |

## Left out

- The HTTP client is a parameter. Guzzle itself is not modelled, and the client's answer is given as a reply, a caught client or request exception, or another failure that propagates. Of Guzzle's behaviour, only the default `http_errors` option is modelled: a reply with status 400 or above is raised as an exception and becomes FALSE. Which statuses a real server sends, and whether redirects are followed, is left to the client parameter.
- MD5 (`md5`) and `json_decode` are opaque functions. The `ViaBillConstants` class is not part of this model: its ISO codes, affiliate name and test-mode, TBYB and transaction-type values are opaque constants.
- Commerce's `Price` is a number and a currency code. Its validation in `new Price(...)` is an opaque function, and `Price::__toString`'s digits are opaque text.
- Float arithmetic is modelled as exact decimals (`real`): the cart sums and the price arithmetic. `number_format` is rounding half away from zero on the exact value.
- Php.FloatToStr: PHP's text of a float is modelled only for floats with at most two decimals and a magnitude below 10^15. Any other float, such as 1.234 or 1e15 (PHP prints "1.234" and "1.0E+15"), has unspecified text (`OtherFloatText`), known only to consist of digits, `.`, signs and `E`. So the signature text, and with it the callback verdict, is left open for a JSON callback amount with three or more decimals.
- Gateway.ViaBillGateway.GetRequestData: the `$headers` and `$verbose` arguments are not modelled. The member returns the verbose output (the whole response array). The account and link calls take its body through `Gateway.ResponseBody`, as their default non-verbose form does. Every caller sends no extra headers, which is the default of the public methods' `$headers`; a caller passing its own headers or asking for verbose output is not modelled.
- PHP's `is_numeric` is modelled for an optional sign, digits and an optional fraction. Surrounding whitespace and exponents are not modelled.
- Drupal's entity storage is the `Orders.Storage` object. Queries are first-match searches over its sequences.
  - The metadata query on `viabill_transaction_id` is modelled as an equality on its text.
  - `getOrder()` is modelled as the index of the order, or nothing.
- Orders.OrderById: an order id is matched by its text against the stored id's decimal text. Drupal's `load('05')` would load order 5, but the model finds no order for '05'.
- PaymentsForm.OrderContents: the order total is always a `Price`. An order whose `getTotalPrice()` is NULL makes `getNumber()` raise an `Error`, which the form's `catch (\Exception)` does not catch. That path is not modelled.
- Payments.CaptureAmount: a capture amount in another currency throws with a fixed message (`Payments.CurrencyMismatch`). Commerce's own currency-mismatch exception names both prices, and that text is not modelled.
- `random_int` is given as a sequence of draws. The three URLs of the checkout form come from routing, which is not modelled, and are parameters.
- The date formatter's text of the creation time is a parameter.
- Logging (`ViaBillHelper::log`, which drops levels other than info and error), the messenger and the commerce_log entry of a partial capture are not modelled. The messages shown to the user are returned as a `Notice`.
- Workflow guards and transition events are not modelled. A transition is its id, its from-states and its to-state.
- The UI and configuration forms are not modelled: the plugin's configuration form and its submit handler, the price-tag template checks, `buildRedirectForm`, `onReturn`, `onCancel`, the login and registration forms and the capture form. The form's result is the redirect URL.
- The form's `cartParams` is built but never sent, so the cart no longer appears in the request.
- The `catch` around `json_decode` cannot be reached, because `json_decode` does not throw without `JSON_THROW_ON_ERROR`. A body that is not JSON, or not an object, gives an empty map, which the checks answer with 400.
- The callback's `$data` is undefined for a non-JSON body. It is modelled as an empty map, in which every lookup is NULL.
- An unknown end-point name ends the PHP process (`exit`). The lookup therefore requires a name of the table.
- The NULL-credential exceptions of `parseFormat` cannot be reached: the helper always holds strings for the key and the secret.
- The `force` flag of `getRequestDataTransaction` is computed, but `getRequestData` never reads it, so it does not change any result.
- The "Format does not contain any fields" exception of `parseFormat` cannot be reached: `preg_match_all` always fills the match array with its groups, so that array is never empty.
- Php.Value: a PHP array is a `map` from string keys, so the order of its entries is not modelled. No result of the core depends on it, but the order of the encoded request parameters and of JSON output does.
- Gateway.ValidIsoChecked: the length test counts characters, while `strlen` counts bytes. So a code such as "Ä" (two bytes in UTF-8) throws in strict mode in PHP, but the model gives FALSE. No caller in the core uses strict mode.
- Gateway.ViaBillGateway.Resolve: an array value in the data is substituted as the text "Array". In PHP 8, `str_replace` with an array replacement for a string search raises a `TypeError`, which is not modelled.
- Controller.ViaBillController.Callback: the exceptions that reach the 500 branch are modelled when they come from `verifyCallbackSignature`, the capture call or the `Price` constructor (through `StoreApprovedPayment`). Exceptions from storage are not: `loadByProperties`, `$payment->save()` and `$order->save()` cannot fail in the model. Other PHP errors, such as a type error on an unusual body, are not modelled either.
- There is no check for duplicate callbacks and no locking per transaction. Concurrency is not modelled.
