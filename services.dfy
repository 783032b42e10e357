/**
 * The table of ViaBill API end points and its lookup (`ViaBillServices`).
 * Each row gives the path template, the HTTP method, the required and
 * optional request fields, the status-code messages, and the format of any
 * field the gateway computes as an MD5 signature (`signature`, `md5check`).
 */
module Services {
  import opened Wrappers
  import opened Php
  import opened SignatureFormat
  import ViaBillConstants

  /**
   * One row of the table. `formats` holds the row's `signature`/`md5check`
   * entries as the token names of a `{a}#{b}#...` format (see `JoinedFormat`);
   * `login` and `registration` carry a NULL signature (None).
   */
  datatype Endpoint = Endpoint(
    endpoint: string,
    httpMethod: string,
    requiredFields: seq<string>,
    optionalFields: seq<string>,
    statusCodes: map<int, string>,
    formats: map<string, Option<seq<string>>>)

  const AddonName := "ADDON_NAME"

  const SuccessfulRequest := "messages.viabillApiMessages.successfulRequest"
  const RequestError := "messages.viabillApiMessages.requestError"
  const ApiServerError := "messages.viabillApiMessages.apiServerError"
  const NoContentResponse := "messages.viabillApiMessages.noContentResponse"
  const PermanentRedirect := "messages.viabillApiMessages.permanentRedirect"
  const TemporaryRedirect := "messages.viabillApiMessages.temporaryRedirect"
  const DebtorCreditError := "messages.viabillApiMessages.debtorCreditError"
  const RequestFrequencyError := "messages.viabillApiMessages.requestFrequencyError"
  const SpxAccountInactive := "messages.viabillApiMessages.spxAccountInactive"

  // Status-code messages of each row.
  const BasicCodes: map<int, string> := map[200 := SuccessfulRequest, 400 := RequestError, 500 := ApiServerError]
  const CheckoutCodes: map<int, string> := map[
    200 := SuccessfulRequest, 204 := NoContentResponse, 301 := PermanentRedirect,
    302 := TemporaryRedirect, 400 := RequestError, 403 := DebtorCreditError,
    409 := RequestFrequencyError, 500 := ApiServerError]
  const CaptureCodes: map<int, string> := map[
    200 := SuccessfulRequest, 204 := NoContentResponse, 400 := RequestError,
    403 := DebtorCreditError, 409 := RequestFrequencyError, 500 := ApiServerError]
  const CancelCodes: map<int, string> := map[
    200 := SuccessfulRequest, 204 := NoContentResponse, 400 := RequestError, 500 := ApiServerError]
  const RefundCodes: map<int, string> := map[
    200 := SuccessfulRequest, 204 := NoContentResponse, 400 := RequestError,
    403 := SpxAccountInactive, 500 := ApiServerError]
  const RenewCodes: map<int, string> := map[
    200 := SuccessfulRequest, 204 := NoContentResponse, 400 := RequestError,
    403 := DebtorCreditError, 500 := ApiServerError]
  const StatusCodes: map<int, string> := CancelCodes

  /** The text `{a}#{b}#...#{z}` of a signature format over the given token names. */
  function JoinedFormat(names: seq<string>): string {
    Implode("#", Placeholders(names))
  }

  // Paths (before the affiliate is substituted).
  const LoginPath := "/api/addon/" + AddonName + "/login"
  const RegisterPath := "/api/addon/" + AddonName + "/register"
  const MyViaBillPath := "/api/addon/" + AddonName + "/myviabill"
  const NotificationsPath := "/api/addon/" + AddonName + "/notifications"
  const CheckoutPath := "/api/checkout-authorize/addon/" + AddonName
  const CapturePath := "/api/transaction/capture"
  const CancelPath := "/api/transaction/cancel"
  const RefundPath := "/api/transaction/refund"
  const RenewPath := "/api/transaction/renew"
  const StatusPath := "/api/transaction/status"

  // Field lists.
  const LoginFields: seq<string> := ["email", "password"]
  const RegisterFields: seq<string> := ["email", "name", "url", "country"]
  const RegisterOptional: seq<string> := ["taxId", "affiliate", "additionalInfo"]
  const KeyFields: seq<string> := ["key", "signature"]
  const NotificationsOptional: seq<string> := ["platform", "platform_ver", "module_ver"]
  const CheckoutFields: seq<string> := [
    "protocol", "apikey", "transaction", "order_number", "amount", "currency",
    "success_url", "cancel_url", "callback_url", "test", "md5check"]
  const CheckoutOptional: seq<string> := ["customParams", "cartParams"]
  const AmountFields: seq<string> := ["id", "apikey", "signature", "amount", "currency"]
  const IdFields: seq<string> := ["id", "apikey", "signature"]

  // Signature tokens.
  /** `{key}#{secret}` */
  const KeyTokens: seq<string> := ["key", "secret"]
  /** `{apikey}#{amount}#{currency}#{transaction}#{order_number}#{success_url}#{cancel_url}#{secret}` */
  const CheckoutMd5Tokens: seq<string> :=
    ["apikey", "amount", "currency", "transaction", "order_number", "success_url", "cancel_url", "secret"]
  /** `{id}#{apikey}#{amount}#{currency}#{secret}` */
  const AmountTokens: seq<string> := ["id", "apikey", "amount", "currency", "secret"]
  /** `{id}#{apikey}#{secret}` */
  const IdTokens: seq<string> := ["id", "apikey", "secret"]

  const NoSignature: map<string, Option<seq<string>>> := map["signature" := None]
  const KeySignature: map<string, Option<seq<string>>> := map["signature" := Some(KeyTokens)]
  const CheckoutFormats: map<string, Option<seq<string>>> := map["md5check" := Some(CheckoutMd5Tokens)]
  const AmountSignature: map<string, Option<seq<string>>> := map["signature" := Some(AmountTokens)]
  const IdSignature: map<string, Option<seq<string>>> := map["signature" := Some(IdTokens)]

  const Login := Endpoint(LoginPath, "POST", LoginFields, [], BasicCodes, NoSignature)
  const Registration := Endpoint(RegisterPath, "POST", RegisterFields, RegisterOptional, BasicCodes, NoSignature)
  const MyViaBill := Endpoint(MyViaBillPath, "GET", KeyFields, [], BasicCodes, KeySignature)
  const Notifications := Endpoint(NotificationsPath, "GET", KeyFields, NotificationsOptional, BasicCodes, KeySignature)
  const Checkout := Endpoint(CheckoutPath, "POST", CheckoutFields, CheckoutOptional, CheckoutCodes, CheckoutFormats)
  const CaptureTransaction := Endpoint(CapturePath, "POST", AmountFields, [], CaptureCodes, AmountSignature)
  const CancelTransaction := Endpoint(CancelPath, "POST", IdFields, [], CancelCodes, IdSignature)
  const RefundTransaction := Endpoint(RefundPath, "POST", AmountFields, [], RefundCodes, AmountSignature)
  const RenewTransaction := Endpoint(RenewPath, "POST", IdFields, [], RenewCodes, IdSignature)
  const TransactionStatus := Endpoint(StatusPath, "GET", IdFields, [], StatusCodes, IdSignature)

  const ApiEndPoints: map<string, Endpoint> := map[
    "login" := Login,
    "registration" := Registration,
    "myviabill" := MyViaBill,
    "notifications" := Notifications,
    "checkout" := Checkout,
    "capture_transaction" := CaptureTransaction,
    "cancel_transaction" := CancelTransaction,
    "refund_transaction" := RefundTransaction,
    "renew_transaction" := RenewTransaction,
    "transaction_status" := TransactionStatus
  ]

  /** The row with the addon name in its path replaced by the affiliate. */
  function WithAffiliate(row: Endpoint): (r: Endpoint)
    ensures r == row.(endpoint := r.endpoint)
  {
    row.(endpoint := ReplaceAll(row.endpoint, AddonName, ViaBillConstants.Affiliate))
  }

  /**
   * `getApiEndPoint`: the row of a known end point with the addon name in its
   * path replaced by the affiliate. An unknown name ends the PHP process
   * (`exit`), so the lookup is only defined for the names of the table.
   */
  function GetApiEndPoint(name: string): (r: Endpoint)
    requires name in ApiEndPoints
  {
    WithAffiliate(ApiEndPoints[name])
  }

  /** `getApiEndPointMessage`: the row's message for the status, or ''. */
  function ApiEndPointMessage(status: int, name: string): (r: string)
    requires name in ApiEndPoints
    ensures status in ApiEndPoints[name].statusCodes ==> r == ApiEndPoints[name].statusCodes[status]
    ensures status !in ApiEndPoints[name].statusCodes ==> r == ""
  {
    var codes := GetApiEndPoint(name).statusCodes;
    if status in codes then codes[status] else ""
  }
}
