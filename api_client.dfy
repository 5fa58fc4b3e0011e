/**
 * The Sheepy API client: request signing, construction of the outbound
 * request (URL, signature, header list, cURL options) and classification of
 * the response. The cURL transport is a function parameter from the options
 * sent to the response received.
 */
module ApiClient {
  import opened Php
  import opened Platform

  const ApiUrl := "https://api.sheepy.com"
  const ApiPrefix := "/api/v1"
  const InvoicesPath := "/invoices"
  const InvoicesUrl := "https://api.sheepy.com/api/v1/invoices"

  /** The `$_SERVER` keys of the notification headers. */
  const TimestampHeader := "HTTP_X_TIMESTAMP"
  const SignatureHeader := "HTTP_X_SIGNATURE"

  /** A client holds its credentials and user agent; they never change after construction. */
  datatype Client = Client(apiKey: string, secretKey: string, userAgent: string)

  datatype IpResolve = IpResolveWhatever | IpResolveV4 | IpResolveV6

  /** The cURL options `getCurlOption` sets; an option it leaves unset is None. */
  datatype CurlOptions = CurlOptions(
    postFields: Option<string>,
    customRequest: Option<string>,
    url: string,
    httpHeader: seq<string>,
    returnTransfer: bool,
    timeout: int,
    connectTimeout: int,
    ipResolve: IpResolve,
    sslVerifyPeer: bool
  )

  /** What the transport hands back: the raw body, the HTTP code and cURL's error text. */
  datatype Response = Response(body: string, code: int, curlError: string)

  datatype ClientError =
    | RequestError(message: string)
    /** `request` is declared to return an array; any other decoded body raises a TypeError. */
    | ReturnTypeError

  /** The signed text: decimal time, upper-cased method, URL and body, with no separators. */
  function CanonicalString(time: int, httpMethod: string, url: string, body: string): string {
    IntToString(time) + StrToUpper(httpMethod) + url + body
  }

  function CreateSignature(p: Platform, time: int, httpMethod: string, url: string, body: string, key: string): string {
    p.hmacSha256(key, CanonicalString(time, httpMethod, url, body))
  }

  /** An HMAC without collisions under any one key: a property assumed by name where a lemma needs it. */
  ghost predicate HmacInjective(p: Platform) {
    forall k, m1, m2 :: p.hmacSha256(k, m1) == p.hmacSha256(k, m2) ==> m1 == m2
  }

  /**
   * Under one key, a collision-free HMAC makes equal signatures mean equal
   * canonical strings: the signature covers exactly time, method, URL and body.
   */
  lemma SignatureDeterminesCanonicalString(p: Platform, t: int, m: string, u: string, b: string,
                                           t': int, m': string, u': string, b': string, k: string)
    requires HmacInjective(p)
    ensures CreateSignature(p, t, m, u, b, k) == CreateSignature(p, t', m', u', b', k) <==>
              CanonicalString(t, m, u, b) == CanonicalString(t', m', u', b')
  {
  }

  /**
   * The signature binds the timestamp: with a collision-free HMAC, a request
   * signed for one time cannot be presented with another, the rest unchanged.
   */
  lemma SignatureBindsTime(p: Platform, t: int, t': int, m: string, u: string, b: string, k: string)
    requires HmacInjective(p)
    ensures CreateSignature(p, t, m, u, b, k) == CreateSignature(p, t', m, u, b, k) <==> t == t'
  {
    if CreateSignature(p, t, m, u, b, k) == CreateSignature(p, t', m, u, b, k) {
      SignatureDeterminesCanonicalString(p, t, m, u, b, t', m, u, b, k);
      var rest := StrToUpper(m) + u + b;
      CanonicalStringSplit(t, m, u, b);
      CanonicalStringSplit(t', m, u, b);
      SuffixCancels(IntToString(t), IntToString(t'), rest);
      IntCastOfIntToString(t);
      IntCastOfIntToString(t');
    }
  }

  /** The canonical string is the decimal time followed by what does not depend on the time. */
  lemma CanonicalStringSplit(t: int, m: string, u: string, b: string)
    ensures CanonicalString(t, m, u, b) == IntToString(t) + (StrToUpper(m) + u + b)
  {
    var time, verb := IntToString(t), StrToUpper(m);
    assert time + verb + u + b == time + (verb + u + b);
  }

  lemma SuffixCancels(a: string, a': string, rest: string)
    requires a + rest == a' + rest
    ensures a == a'
  {
    assert a == (a + rest)[..|a|];
    assert a' == (a' + rest)[..|a'|];
  }

  /** With no separators, moving text between the URL and the body leaves the signature unchanged. */
  lemma SignatureIgnoresUrlBodyBoundary(p: Platform, t: int, m: string, u: string, x: string, b: string, k: string)
    ensures CreateSignature(p, t, m, u + x, b, k) == CreateSignature(p, t, m, u, x + b, k)
  {
    assert CanonicalString(t, m, u + x, b) == CanonicalString(t, m, u, x + b);
  }

  /** Signing ignores the case of the method. */
  lemma {:induction false} SignatureMethodCaseInsensitive(p: Platform, t: int, u: string, b: string, k: string)
    ensures CreateSignature(p, t, "post", u, b, k) == CreateSignature(p, t, "POST", u, b, k)
    ensures forall m1, m2 :: StrToUpper(m1) == StrToUpper(m2) ==>
              CreateSignature(p, t, m1, u, b, k) == CreateSignature(p, t, m2, u, b, k)
  {
    StrToUpperPost();
  }

  /** The request URL: base, API prefix, path and, only for non-empty URL parameters, a query. */
  function RequestUrl(p: Platform, path: string, urlParams: PhpArray): (url: string)
    ensures urlParams == [] ==> url == ApiUrl + ApiPrefix + path
    ensures urlParams != [] ==> url == ApiUrl + ApiPrefix + path + "?" + p.httpBuildQuery(Arr(urlParams))
  {
    ApiUrl + ApiPrefix + path + (if !IsEmptyValue(Arr(urlParams)) then "?" + p.httpBuildQuery(Arr(urlParams)) else "")
  }

  function RequestHeaders(c: Client, signature: string, time: int): seq<string> {
    [
      "Accept: application/json",
      "Content-type: application/json",
      "User-Agent: " + c.userAgent,
      "X-Token: " + c.apiKey,
      "X-Signature: " + signature,
      "X-Timestamp: " + IntToString(time)
    ]
  }

  /**
   * Six headers in a fixed order; the X-Timestamp value reads back, with
   * `(int)`, as the very time that was signed.
   */
  lemma HeaderLayout(c: Client, signature: string, time: int)
    ensures var h := RequestHeaders(c, signature, time);
      && |h| == 6
      && h[3] == "X-Token: " + c.apiKey
      && h[4] == "X-Signature: " + signature
      && h[5][..13] == "X-Timestamp: "
      && IntCast(h[5][13..]) == time
  {
    var h := RequestHeaders(c, signature, time);
    assert h[5][13..] == IntToString(time);
    IntCastOfIntToString(time);
  }

  /** The per-method option table of `getCurlOption`; every method gets the fixed transport options. */
  function GetCurlOption(p: Platform, httpMethod: string, url: string, headers: seq<string>, params: PhpArray): (o: CurlOptions)
    ensures o.httpHeader == headers && o.returnTransfer && o.sslVerifyPeer
    ensures o.timeout == 30 && o.connectTimeout == 10 && o.ipResolve == IpResolveV4
    ensures o.postFields == (if httpMethod in {"POST", "PUT", "PATCH"} then Some(p.jsonEncode(Arr(params))) else None)
    ensures o.customRequest == (if httpMethod in {"PUT", "PATCH", "DELETE"} then Some(httpMethod) else None)
    ensures o.url == (if httpMethod in {"GET", "DELETE"} then url + "?" + p.httpBuildQuery(Arr(params)) else url)
  {
    var query := "?" + p.httpBuildQuery(Arr(params));
    var encoded := p.jsonEncode(Arr(params));
    var (postFields, customRequest, url') :=
      if httpMethod == "GET" then (None, None, url + query)
      else if httpMethod == "POST" then (Some(encoded), None, url)
      else if httpMethod == "PUT" then (Some(encoded), Some("PUT"), url)
      else if httpMethod == "PATCH" then (Some(encoded), Some("PATCH"), url)
      else if httpMethod == "DELETE" then (None, Some("DELETE"), url + query)
      else (None, None, url);
    CurlOptions(postFields, customRequest, url', headers, true, 30, 10, IpResolveV4, true)
  }

  /** The response classification of `request`, in the order of its checks. */
  function ClassifyResponse(p: Platform, decoded: Value, code: int, curlError: string): Result<Value, ClientError> {
    if decoded == Bool(false) then Failure(RequestError("Request error: " + p.escHtml(curlError)))
    else if code != 200 then Failure(RequestError("Request error: " + p.escHtml(ToPhpString(Get(decoded, "message")))))
    else if decoded.Arr? then Success(decoded)
    else Failure(ReturnTypeError)
  }

  /**
   * A request succeeds exactly when the decoded body is an array and the code
   * is 200, and then returns that body unchanged; a decoded `false` fails with
   * cURL's error text before the code is looked at.
   */
  lemma ClassifyResponseCases(p: Platform, decoded: Value, code: int, curlError: string)
    ensures ClassifyResponse(p, decoded, code, curlError).Success? <==> code == 200 && decoded.Arr?
    ensures ClassifyResponse(p, decoded, code, curlError).Success? ==>
              ClassifyResponse(p, decoded, code, curlError).value == decoded
    ensures decoded == Bool(false) ==>
              ClassifyResponse(p, decoded, code, curlError) == Failure(RequestError("Request error: " + p.escHtml(curlError)))
    ensures decoded != Bool(false) && code != 200 ==>
              ClassifyResponse(p, decoded, code, curlError).error.RequestError?
  {
  }

  /**
   * `request`: signs `json_encode` of the body parameters with the client's
   * secret key at time `now`, sends the options through `transport` and
   * classifies what comes back.
   */
  method Request(p: Platform, c: Client, httpMethod: string, path: string, bodyParams: PhpArray, urlParams: PhpArray,
                 now: int, transport: CurlOptions -> Response)
    returns (sent: CurlOptions, result: Result<Value, ClientError>)
    ensures var signedUrl := RequestUrl(p, path, urlParams);
      && sent.httpHeader == RequestHeaders(c, CreateSignature(p, now, httpMethod, signedUrl, p.jsonEncode(Arr(bodyParams)), c.secretKey), now)
      && (httpMethod in {"POST", "PUT", "PATCH"} ==> sent.url == signedUrl && sent.postFields == Some(p.jsonEncode(Arr(bodyParams))))
      && (httpMethod in {"GET", "DELETE"} ==> sent.url == signedUrl + "?" + p.httpBuildQuery(Arr(bodyParams)) && sent.postFields == None)
    ensures sent.customRequest == (if httpMethod in {"PUT", "PATCH", "DELETE"} then Some(httpMethod) else None)
    ensures sent.timeout == 30 && sent.connectTimeout == 10 && sent.sslVerifyPeer && sent.ipResolve == IpResolveV4
    ensures sent == GetCurlOption(p, httpMethod, RequestUrl(p, path, urlParams),
                                  RequestHeaders(c, CreateSignature(p, now, httpMethod, RequestUrl(p, path, urlParams),
                                                                    p.jsonEncode(Arr(bodyParams)), c.secretKey), now), bodyParams)
    ensures var response := transport(sent);
      result == ClassifyResponse(p, p.jsonDecode(response.body), response.code, response.curlError)
  {
    var url := RequestUrl(p, path, urlParams);
    var time := now;
    var signature := CreateSignature(p, time, httpMethod, url, p.jsonEncode(Arr(bodyParams)), c.secretKey);
    var headers := RequestHeaders(c, signature, time);
    sent := GetCurlOption(p, httpMethod, url, headers, bodyParams);
    var response := transport(sent);
    var responseBody := p.jsonDecode(response.body);
    result := ClassifyResponse(p, responseBody, response.code, response.curlError);
  }

  /**
   * `createInvoice`: a POST to the invoices endpoint whose signature covers
   * exactly the URL and the body that are sent.
   */
  method CreateInvoice(p: Platform, c: Client, bodyParams: PhpArray, now: int, transport: CurlOptions -> Response)
    returns (sent: CurlOptions, result: Result<Value, ClientError>)
    ensures sent.url == InvoicesUrl
    ensures sent.postFields == Some(p.jsonEncode(Arr(bodyParams)))
    ensures sent.customRequest == None
    ensures sent.httpHeader == RequestHeaders(c, p.hmacSha256(c.secretKey, IntToString(now) + "POST" + sent.url + sent.postFields.value), now)
    ensures var response := transport(sent);
      result == ClassifyResponse(p, p.jsonDecode(response.body), response.code, response.curlError)
  {
    StrToUpperPost();
    assert RequestUrl(p, InvoicesPath, []) == InvoicesUrl;
    sent, result := Request(p, c, "POST", InvoicesPath, bodyParams, [], now, transport);
  }
}
