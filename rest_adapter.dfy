/** `RestAdapter`: an HTTP client bound to one endpoint that forwards the
    request id of the calling context. The HTTP client, `urlencode` and
    the response are parameters. */
module RestAdapter {
  import opened Wrappers
  import opened Json
  import opened Strings
  import opened BaseHandler

  /** The HTTP request handed to the client. */
  datatype Sent = Sent(url: string, verb: string, headers: map<string, string>, body: Option<string>,
                       timeout: Option<int>, validateCert: bool, caCerts: Option<string>)

  /** What `fetch(request, raise_error=False)` gives: a response, or the
      `HTTPError` it still raises (with its code and message). */
  datatype FetchOutcome = Fetched(code: int, body: Value) | FetchFailed(code: int, message: string)

  /** The URL `_request` assembles: the endpoint, then the path appended
      with trailing slashes stripped, then `?` and the encoded query. */
  function RequestUrl(endpoint: string, path: Option<string>, query: Option<Value>, urlencode: Value -> string): string {
    var withPath := if path.Some? then RStrip(endpoint + path.value, '/') else endpoint;
    if query.Some? then withPath + "?" + urlencode(query.value) else withPath
  }

  /** The headers `_request` sends: falsy headers become a fresh dict, and
      a truthy request id is added under `X-Request-Id`. */
  function RequestHeaders(headers: Option<map<string, string>>, requestId: Option<string>): map<string, string> {
    var base := if headers.None? || headers.value == map[] then map[] else headers.value;
    if requestId.Some? && requestId.value != "" then base[RequestIdHeader := requestId.value] else base
  }

  /** The `(code, body)` pair `_request` returns. */
  function Reply(outcome: FetchOutcome): (int, Payload) {
    match outcome
    case Fetched(code, body) => (code, Raw(body))
    case FetchFailed(code, message) => (code, Encoded(Single("message", Str(message))))
  }

  /** Without path and query the URL is the endpoint; with a path it is
      endpoint and path with no trailing slash; a query adds `?` and its
      encoding after that. */
  lemma UrlAssembly(endpoint: string, path: Option<string>, query: Option<Value>, urlencode: Value -> string)
    ensures path.None? && query.None? ==> RequestUrl(endpoint, path, query, urlencode) == endpoint
    ensures path.Some? && query.None? ==>
              var url := RequestUrl(endpoint, path, query, urlencode);
              |url| <= |endpoint + path.value| && url == (endpoint + path.value)[..|url|] && (url == "" || url[|url| - 1] != '/') &&
              forall k :: |url| <= k < |endpoint + path.value| ==> (endpoint + path.value)[k] == '/'
    ensures query.Some? ==>
              RequestUrl(endpoint, path, query, urlencode) ==
              RequestUrl(endpoint, path, None, urlencode) + "?" + urlencode(query.value)
  {
    if path.Some? {
      RStripProperties(endpoint + path.value, '/');
    }
  }

  /** The request-id header is sent exactly when the context carried a
      request id (or the caller set it); other caller headers are kept. */
  lemma HeaderAssembly(headers: Option<map<string, string>>, requestId: Option<string>)
    ensures requestId.Some? && requestId.value != "" ==>
              RequestIdHeader in RequestHeaders(headers, requestId) &&
              RequestHeaders(headers, requestId)[RequestIdHeader] == requestId.value
    ensures !(requestId.Some? && requestId.value != "") ==>
              RequestHeaders(headers, requestId) == (if headers.Some? then headers.value else map[])
    ensures headers.Some? ==>
              forall k :: k in headers.value && k != RequestIdHeader ==>
                k in RequestHeaders(headers, requestId) && RequestHeaders(headers, requestId)[k] == headers.value[k]
  {
  }

  /** A raised `HTTPError` gives its code and the JSON text of
      `{"message": message}`; a response gives its own code and body. */
  lemma ReplyOnError(code: int, message: string, body: Value)
    ensures Reply(FetchFailed(code, message)).0 == code
    ensures Reply(FetchFailed(code, message)).1.Encoded? &&
            Reply(FetchFailed(code, message)).1.doc == Dict(map["message" := Str(message)])
    ensures Reply(Fetched(code, body)) == (code, Raw(body))
  {
  }

  /** A REST client for one endpoint. */
  class Adapter {
    const endpoint: string
    const requestId: Option<string>
    const validateCert: bool
    const caCerts: Option<string>

    /** `RestAdapter(endpoint, context, support, validate_certs, certs)` */
    constructor (endpoint: string, context: Option<ContextData>, validateCerts: Option<bool>, certs: Option<string>)
      ensures this.endpoint == RStrip(endpoint, '/')
      ensures requestId == (if context.Some? then context.value.requestId else None)
      ensures validateCert == (validateCerts.Some? && validateCerts.value) && caCerts == certs
    {
      this.endpoint := RStrip(endpoint, '/');
      requestId := if context.Some? then context.value.requestId else None;
      validateCert := if validateCerts.Some? then validateCerts.value else false;
      caCerts := certs;
    }

    /** `_request(method, path, query, headers, body, timeout)`: `fetch`
        is the HTTP client. Returns the request sent and the `(code, body)`
        pair. */
    method Request(verb: string, path: Option<string>, query: Option<Value>, headers: Option<map<string, string>>,
                   body: Option<string>, timeout: Option<int>, urlencode: Value -> string, fetch: Sent -> FetchOutcome)
      returns (sent: Sent, code: int, responseBody: Payload)
      ensures sent == Sent(RequestUrl(endpoint, path, query, urlencode), verb, RequestHeaders(headers, requestId),
                           body, timeout, validateCert, caCerts)
      ensures (code, responseBody) == Reply(fetch(sent))
    {
      var sentHeaders := if headers.None? || headers.value == map[] then map[] else headers.value;
      if requestId.Some? && requestId.value != "" {
        sentHeaders := sentHeaders[RequestIdHeader := requestId.value];
      }
      var url := endpoint;
      if path.Some? {
        url := RStrip(url + path.value, '/');
      }
      if query.Some? {
        url := url + "?" + urlencode(query.value);
      }
      sent := Sent(url, verb, sentHeaders, body, timeout, validateCert, caCerts);
      var outcome := fetch(sent);
      match outcome {
        case Fetched(c, b) =>
          code, responseBody := c, Raw(b);
        case FetchFailed(c, message) =>
          code, responseBody := c, Encoded(Single("message", Str(message)));
      }
    }

    /** `post(path, headers, body, timeout)`: no query is sent. */
    method Post(path: Option<string>, headers: Option<map<string, string>>, body: Option<string>, timeout: Option<int>,
                urlencode: Value -> string, fetch: Sent -> FetchOutcome)
      returns (sent: Sent, code: int, responseBody: Payload)
      ensures sent.verb == "POST" && sent.body == body
      ensures sent.url == (if path.Some? then RStrip(endpoint + path.value, '/') else endpoint)
      ensures sent.headers == RequestHeaders(headers, requestId) && sent.timeout == timeout
      ensures sent.validateCert == validateCert && sent.caCerts == caCerts
      ensures (code, responseBody) == Reply(fetch(sent))
    {
      sent, code, responseBody := Request("POST", path, None, headers, body, timeout, urlencode, fetch);
    }

    /** `get(path, query, headers, timeout)`: no body is sent. */
    method Get(path: Option<string>, query: Option<Value>, headers: Option<map<string, string>>, timeout: Option<int>,
               urlencode: Value -> string, fetch: Sent -> FetchOutcome)
      returns (sent: Sent, code: int, responseBody: Payload)
      ensures sent.verb == "GET" && sent.body.None?
      ensures sent.url == RequestUrl(endpoint, path, query, urlencode)
      ensures sent.headers == RequestHeaders(headers, requestId) && sent.timeout == timeout
      ensures sent.validateCert == validateCert && sent.caCerts == caCerts
      ensures (code, responseBody) == Reply(fetch(sent))
    {
      sent, code, responseBody := Request("GET", path, query, headers, None, timeout, urlencode, fetch);
    }

    /** `put(path, query, headers, body, timeout)` */
    method Put(path: Option<string>, query: Option<Value>, headers: Option<map<string, string>>, body: Option<string>,
               timeout: Option<int>, urlencode: Value -> string, fetch: Sent -> FetchOutcome)
      returns (sent: Sent, code: int, responseBody: Payload)
      ensures sent.verb == "PUT" && sent.body == body
      ensures sent.url == RequestUrl(endpoint, path, query, urlencode)
      ensures sent.headers == RequestHeaders(headers, requestId) && sent.timeout == timeout
      ensures sent.validateCert == validateCert && sent.caCerts == caCerts
      ensures (code, responseBody) == Reply(fetch(sent))
    {
      sent, code, responseBody := Request("PUT", path, query, headers, body, timeout, urlencode, fetch);
    }

    /** `delete(path, query, headers, timeout)`: no body is sent. */
    method Delete(path: Option<string>, query: Option<Value>, headers: Option<map<string, string>>, timeout: Option<int>,
                  urlencode: Value -> string, fetch: Sent -> FetchOutcome)
      returns (sent: Sent, code: int, responseBody: Payload)
      ensures sent.verb == "DELETE" && sent.body.None?
      ensures sent.url == RequestUrl(endpoint, path, query, urlencode)
      ensures sent.headers == RequestHeaders(headers, requestId) && sent.timeout == timeout
      ensures sent.validateCert == validateCert && sent.caCerts == caCerts
      ensures (code, responseBody) == Reply(fetch(sent))
    {
      sent, code, responseBody := Request("DELETE", path, query, headers, None, timeout, urlencode, fetch);
    }
  }
}
