/**
 * Sending requests to the ViaBill API (`ViaBillOutgoingRequests`). The HTTP
 * client is a parameter: a function from the call it is asked to make to
 * what came back. Its exceptions come in two kinds: a client or request
 * exception, which the sender catches, and any other transfer failure,
 * which propagates to the caller.
 */
module Outgoing {
  import opened Wrappers
  import opened Php

  const TestBaseUrl := "https://secure.viabill.com"
  const ProdBaseUrl := "https://secure.viabill.com"

  /** Request data sent as the query string (GET) or as form parameters. */
  datatype Payload = Query(query: map<string, Value>) | FormParams(form: map<string, Value>)

  /** What the HTTP client is asked to do. */
  datatype HttpCall = HttpCall(
    verb: string,
    url: string,
    headers: map<string, string>,
    payload: Payload,
    allowRedirects: bool)

  /** A received response: status, header lines by name, body text. */
  datatype Reply = Reply(status: int, headers: map<string, seq<string>>, body: string)

  datatype TransportResult =
    | Replied(reply: Reply)
    | RequestFailed(reason: string)   // ClientException or RequestException
    | TransferFailed(reason: string)  // any other exception of the client

  /** A response header: the client's list of lines, or a string the sender set. */
  datatype HeaderValue = Lines(lines: seq<string>) | Single(text: string)

  datatype RequestInfo = RequestInfo(
    url: string,
    headers: map<string, string>,
    params: map<string, Value>,
    verb: string)

  /** The sender's output array for a received response. */
  datatype Output = Output(
    request: RequestInfo,
    status: int,
    responseHeaders: map<string, HeaderValue>,
    body: string)

  /** `buildRequestUrl`: the base without trailing slashes, one slash, the path without leading slashes. */
  function BuildRequestUrl(baseUrl: string, endPoint: string): string {
    RTrimChar(baseUrl, '/') + "/" + LTrimChar(endPoint, '/')
  }

  lemma {:induction false} RTrimSlashes(b: string)
    ensures RTrimChar(b + "/", '/') == RTrimChar(b, '/')
  {
    assert (b + "/")[..|b + "/"| - 1] == b;
  }

  lemma LTrimSlashes(e: string)
    ensures LTrimChar("/" + e, '/') == LTrimChar(e, '/')
  {
    assert ("/" + e)[1..] == e;
  }

  lemma RTrimClean(b: string)
    requires b == [] || b[|b| - 1] != '/'
    ensures RTrimChar(b, '/') == b
  {
  }

  lemma LTrimClean(e: string)
    requires e == [] || e[0] != '/'
    ensures LTrimChar(e, '/') == e
  {
  }

  /**
   * Exactly one slash joins base and path: extra slashes on either side make
   * no difference, and a clean base and path are joined by a single `/`.
   */
  lemma JoinedBySingleSlash(baseUrl: string, endPoint: string)
    ensures BuildRequestUrl(baseUrl + "/", endPoint) == BuildRequestUrl(baseUrl, endPoint)
    ensures BuildRequestUrl(baseUrl, "/" + endPoint) == BuildRequestUrl(baseUrl, endPoint)
    ensures (baseUrl == [] || baseUrl[|baseUrl| - 1] != '/') && (endPoint == [] || endPoint[0] != '/') ==>
      BuildRequestUrl(baseUrl, endPoint) == baseUrl + "/" + endPoint
  {
    RTrimSlashes(baseUrl);
    LTrimSlashes(endPoint);
    if baseUrl == [] || baseUrl[|baseUrl| - 1] != '/' {
      RTrimClean(baseUrl);
    }
    if endPoint == [] || endPoint[0] != '/' {
      LTrimClean(endPoint);
    }
  }

  /** The test and live base URLs are the same, so the test flag never changes the URL. */
  function BaseUrl(testMode: bool): (r: string)
    ensures r == ProdBaseUrl
  {
    if testMode then TestBaseUrl else ProdBaseUrl
  }

  function DefaultHeaders(requestUrl: string): map<string, string> {
    map[
      "Accept" := "*/*",
      "Accept-Encoding" := "gzip, deflate",
      "Cache-Control" := "no-cache",
      "Connection" := "keep-alive",
      "Referer" := requestUrl]
  }

  function AsLines(headers: map<string, seq<string>>): (r: map<string, HeaderValue>)
    ensures r.Keys == headers.Keys
    ensures forall k :: k in headers ==> r[k] == Lines(headers[k])
  {
    map k | k in headers :: Lines(headers[k])
  }

  /**
   * The output array for a received response: the request as sent, the
   * status, the response headers and body, and on a 3xx status a `Referer`
   * header holding the request URL.
   */
  function ShapedOutput(info: RequestInfo, reply: Reply): Output {
    var headers := AsLines(reply.headers);
    Output(info, reply.status,
      if 300 <= reply.status < 400 then headers["Referer" := Single(info.url)] else headers,
      reply.body)
  }

  method ShapeOutput(info: RequestInfo, reply: Reply) returns (output: Output)
    ensures output == ShapedOutput(info, reply)
    ensures output.request == info && output.status == reply.status && output.body == reply.body
    ensures 300 <= reply.status < 400 ==>
      output.responseHeaders.Keys == reply.headers.Keys + {"Referer"}
      && output.responseHeaders["Referer"] == Single(info.url)
    ensures !(300 <= reply.status < 400) ==> output.responseHeaders == AsLines(reply.headers)
    ensures forall k :: k in reply.headers && k != "Referer" ==> output.responseHeaders[k] == Lines(reply.headers[k])
  {
    output := Output(info, reply.status, AsLines(reply.headers), reply.body);
    var statusCode := reply.status;
    if statusCode >= 300 && statusCode < 400 {
      output := output.(responseHeaders := output.responseHeaders["Referer" := Single(info.url)]);
    }
  }

  /**
   * Neither call sets Guzzle's `http_errors` option, so the client's default
   * holds: a 4xx answer raises a `ClientException` and a 5xx answer a
   * `ServerException`, both of them `RequestException`s that the sender
   * catches.
   */
  predicate RaisesHttpError(reply: Reply) {
    reply.status >= 400
  }

  /** What the sender returns for a client outcome: the output, FALSE (None), or the propagated exception. */
  function Delivered(t: TransportResult, info: RequestInfo): Outcome<Option<Output>> {
    match t
    case Replied(reply) => if RaisesHttpError(reply) then Returns(None) else Returns(Some(ShapedOutput(info, reply)))
    case RequestFailed(_) => Returns(None)
    case TransferFailed(reason) => Throws(reason)
  }

  /**
   * The output for a received response below 400; FALSE (None) for a 4xx or
   * 5xx answer and for a client or request exception; other exceptions
   * propagate.
   */
  method Deliver(sent: TransportResult, info: RequestInfo) returns (r: Outcome<Option<Output>>)
    ensures r == Delivered(sent, info)
    ensures r.Returns? && r.value.Some? ==> sent.Replied? && r.value.value.status == sent.reply.status < 400
  {
    match sent
    case Replied(reply) =>
      if RaisesHttpError(reply) {
        r := Returns(None);
      } else {
        var output := ShapeOutput(info, reply);
        r := Returns(Some(output));
      }
    case RequestFailed(_) =>
      r := Returns(None);
    case TransferFailed(reason) =>
      r := Throws(reason);
  }

  /**
   * Every output the sender delivers has the status of a received answer
   * below 400, and a 4xx or 5xx answer is delivered as FALSE.
   */
  lemma DeliveredBelow400(t: TransportResult, info: RequestInfo)
    ensures var r := Delivered(t, info);
      (r.Returns? && r.value.Some? <==> t.Replied? && t.reply.status < 400)
      && (r.Returns? && r.value.Some? ==> r.value.value.status == t.reply.status && r.value.value.body == t.reply.body)
      && (t.Replied? && t.reply.status >= 400 ==> r == Returns(None))
  {
  }

  /** The call `request` makes, if any: the upper-cased method must be GET or POST. */
  function RequestCall(endPoint: string, verb: string, data: map<string, Value>, extraHeaders: map<string, string>)
    : Option<HttpCall>
  {
    var url := BuildRequestUrl(ProdBaseUrl, endPoint);
    var headers := DefaultHeaders(url) + extraHeaders;
    if ToUpper(verb) == "GET" then Some(HttpCall("GET", url, headers, Query(data), true))
    else if ToUpper(verb) == "POST" then Some(HttpCall("POST", url, headers, FormParams(data), true))
    else None
  }

  /** What `request` returns. */
  function RequestResult(
    endPoint: string, verb: string, data: map<string, Value>, extraHeaders: map<string, string>,
    client: HttpCall -> TransportResult): Outcome<Option<Output>>
  {
    match RequestCall(endPoint, verb, data, extraHeaders)
    case None => Returns(None)
    case Some(call) => Delivered(client(call), RequestInfo(call.url, call.headers, data, verb))
  }

  /**
   * GET sends the data as the query string and POST as form parameters (the
   * method name is compared upper-cased); any other method makes no call.
   * Redirects are followed and extra headers override the defaults.
   */
  lemma RequestCallShape(endPoint: string, verb: string, data: map<string, Value>, extraHeaders: map<string, string>)
    ensures var c := RequestCall(endPoint, verb, data, extraHeaders);
      var url := BuildRequestUrl(ProdBaseUrl, endPoint);
      (c.Some? <==> ToUpper(verb) == "GET" || ToUpper(verb) == "POST")
      && (c.Some? ==>
            c.value.url == url && c.value.allowRedirects && c.value.verb == ToUpper(verb)
            && (c.value.payload == Query(data) <==> ToUpper(verb) == "GET")
            && (c.value.payload == FormParams(data) <==> ToUpper(verb) == "POST")
            && c.value.headers.Keys == DefaultHeaders(url).Keys + extraHeaders.Keys
            && (forall k :: k in extraHeaders ==> c.value.headers[k] == extraHeaders[k])
            && (forall k :: k in DefaultHeaders(url) && k !in extraHeaders ==> c.value.headers[k] == DefaultHeaders(url)[k]))
  {
  }

  method Request(
    endPoint: string, verb: string, data: map<string, Value>, testMode: bool,
    extraHeaders: map<string, string>, client: HttpCall -> TransportResult)
    returns (r: Outcome<Option<Output>>)
    ensures r == RequestResult(endPoint, verb, data, extraHeaders, client)
  {
    var baseUrl := BaseUrl(testMode);
    var requestUrl := BuildRequestUrl(baseUrl, endPoint);
    var headers := DefaultHeaders(requestUrl);
    headers := headers + extraHeaders;
    var info := RequestInfo(requestUrl, headers, data, verb);
    var sent: TransportResult;
    if ToUpper(verb) == "GET" {
      sent := client(HttpCall("GET", requestUrl, headers, Query(data), true));
    } else if ToUpper(verb) == "POST" {
      sent := client(HttpCall("POST", requestUrl, headers, FormParams(data), true));
    } else {
      return Returns(None);
    }
    r := Deliver(sent, info);
  }

  /**
   * What `requestWithoutRedirect` returns: the method is passed to the client
   * as given, with the data as form parameters, the default headers only,
   * and redirects disabled.
   */
  function NoRedirectResult(endPoint: string, verb: string, data: map<string, Value>, client: HttpCall -> TransportResult)
    : Outcome<Option<Output>>
  {
    var url := BuildRequestUrl(ProdBaseUrl, endPoint);
    var headers := DefaultHeaders(url);
    Delivered(client(HttpCall(verb, url, headers, FormParams(data), false)), RequestInfo(url, headers, data, verb))
  }

  method RequestWithoutRedirect(
    endPoint: string, verb: string, data: map<string, Value>, testMode: bool,
    client: HttpCall -> TransportResult)
    returns (r: Outcome<Option<Output>>)
    ensures r == NoRedirectResult(endPoint, verb, data, client)
  {
    var baseUrl := BaseUrl(testMode);
    var requestUrl := BuildRequestUrl(baseUrl, endPoint);
    var headers := DefaultHeaders(requestUrl);
    var info := RequestInfo(requestUrl, headers, data, verb);
    var sent := client(HttpCall(verb, requestUrl, headers, FormParams(data), false));
    assert requestUrl == BuildRequestUrl(ProdBaseUrl, endPoint);
    assert NoRedirectResult(endPoint, verb, data, client) == Delivered(sent, info);
    r := Deliver(sent, info);
  }
}
