/** The request handler every service endpoint derives from (base.py):
    request validation, the response funnel that turns a result or an
    exception into status, headers and body, the `options` verb and the
    per-request `Context`.

    Tornado's response state (status, headers, written chunks, finished)
    is modelled as the fields of `Handler`; `set_status`, `set_header`,
    `write` and `finish` become assignments to them. */
module BaseHandler {
  import opened Json
  import opened Wrappers
  import opened Strings
  import opened Exceptions

  const RequestIdHeader := "X-Request-Id"
  const ContentTypeHeader := "Content-Type"
  const AllowMethodsHeader := "Access-Control-Allow-Methods"
  const JsonContentType := "application/json"
  /** The Content-Type Tornado's own `write` sets when handed a dict. */
  const TornadoJsonContentType := "application/json; charset=UTF-8"

  datatype Verb = OPTIONS | GET | POST | PUT | DELETE | HEAD | PATCH

  function VerbName(v: Verb): string {
    match v
    case OPTIONS => "OPTIONS"
    case GET => "GET"
    case POST => "POST"
    case PUT => "PUT"
    case DELETE => "DELETE"
    case HEAD => "HEAD"
    case PATCH => "PATCH"
  }

  /** The parts of Tornado's request the handler reads. Header names are
      taken as already normalised (Tornado compares them case-insensitively). */
  datatype Request = Request(
    verb: Verb,
    headers: map<string, string>,
    arguments: map<string, seq<string>>,
    rawQuery: string)

  /** `request.headers.get(name)` */
  function Header(request: Request, name: string): Option<string> {
    if name in request.headers then Some(request.headers[name]) else None
  }

  /** Python's repr of a list of header or parameter names, as `%s`
      formats it: `['a', 'b']`. */
  function ReprList(names: seq<string>): string {
    "[" + Join(", ", QuoteAll(names)) + "]"
  }

  function QuoteAll(names: seq<string>): (r: seq<string>)
    ensures |r| == |names|
    ensures forall i :: 0 <= i < |names| ==> r[i] == "'" + names[i] + "'"
  {
    if names == [] then [] else ["'" + names[0] + "'"] + QuoteAll(names[1..])
  }

  // ---------------------------------------------------------------------
  // From an exception to a status and a body (_build_response_from_exception)

  /** The body that replaces an exception outside the handled families:
      a fresh `GeneralInfoException` whose context is the last line of the
      traceback text. */
  function GeneralDocument(traceLine: string): Value {
    Dict(New(GeneralInfoException, Str(traceLine)).info)
  }

  /** The isinstance chain of the mapping, tested in source order. */
  function ExceptionResponse(f: Failure, traceLine: string): (r: (int, Payload)) {
    if f.Typed? && FamilyResponse(f.error).Some? then FamilyResponse(f.error).value
    else if f.WebHttpError? then (f.statusCode, Raw(Single("message", Str(f.text))))
    else if f.ClientHttpError? then (f.code, Raw(Single("message", Str(f.message))))
    else (500, Encoded(GeneralDocument(traceLine)))
  }

  /** The six `isinstance` tests on a taxonomy exception, in source order;
      None when it is in none of those families. */
  function FamilyResponse(e: TypedError): Option<(int, Payload)> {
    if IsSubclass(e.cls, BadRequestBase) then Some((400, Text(e)))
    else if IsSubclass(e.cls, UnauthorizedBase) then Some((401, Text(e)))
    else if IsSubclass(e.cls, ForbiddenBase) then Some((403, Text(e)))
    else if IsSubclass(e.cls, NotFoundBase) then Some((404, Text(e)))
    else if IsSubclass(e.cls, PermanentServiceError) then Some((500, Text(e)))
    else if IsSubclass(e.cls, TemporaryServiceError) then Some((503, Text(e)))
    else None
  }

  /** The status each handled family renders with. */
  function FamilyStatus(base: ExceptionClass): Option<int> {
    match base
    case BadRequestBase => Some(400)
    case UnauthorizedBase => Some(401)
    case ForbiddenBase => Some(403)
    case NotFoundBase => Some(404)
    case PermanentServiceError => Some(500)
    case TemporaryServiceError => Some(503)
    case _ => None
  }

  /** A member of a handled family renders with that family's status and
      with `str(ex)`, its own info dict, as the body. */
  lemma HandledFamilyRendering(e: TypedError, traceLine: string)
    requires IsConcrete(e.cls) && FamilyTable(e.cls).Some?
    requires FamilyStatus(FamilyTable(e.cls).value).Some?
    ensures ExceptionResponse(Typed(e), traceLine) ==
            (FamilyStatus(FamilyTable(e.cls).value).value, Encoded(Dict(e.info)))
  {
    Superclasses(e.cls);
    ParentIsFamily(e.cls);
  }

  /** `MethodNotAllowed` (no branch of its own) and `GeneralInfoException`
      fall to the catch-all: status 500 and a fresh general exception built
      from the traceback line, so the original context is discarded. */
  lemma UnhandledTypedRendering(e: TypedError, traceLine: string)
    requires e.cls == MethodNotAllowed || e.cls == GeneralInfoException
    ensures ExceptionResponse(Typed(e), traceLine) == (500, Encoded(GeneralDocument(traceLine)))
  {
    NoFamilyResponse(e);
  }

  lemma NoFamilyResponse(e: TypedError)
    requires e.cls == MethodNotAllowed || e.cls == GeneralInfoException
    ensures FamilyResponse(e) == None
  {
    OutsideHandledFamilies(e.cls);
  }

  lemma OutsideHandledFamilies(c: ExceptionClass)
    requires c == MethodNotAllowed || c == GeneralInfoException
    ensures !IsSubclass(c, BadRequestBase) && !IsSubclass(c, UnauthorizedBase)
    ensures !IsSubclass(c, ForbiddenBase) && !IsSubclass(c, NotFoundBase)
    ensures !IsSubclass(c, PermanentServiceError) && !IsSubclass(c, TemporaryServiceError)
  {
    Superclasses(c);
    if c == MethodNotAllowed {
      assert Parent(c) == Some(MethodNotAllowedBase);
    }
  }

  /** The catch-all body is a well-formed envelope of the general
      exception whose context is the traceback line. */
  lemma GeneralDocumentEnvelope(traceLine: string)
    ensures ReadEnvelope(GeneralDocument(traceLine)) == Some(("Exception occurred", "Service error", Str(traceLine)))
  {
    EnvelopeRoundTrip(GeneralInfoException, Str(traceLine));
  }

  /** Tornado's HTTP errors keep their own code and get a `{"message": ..}`
      body; every other Python exception renders as the catch-all 500. */
  lemma UntypedRendering(f: Failure, traceLine: string)
    requires !f.Typed?
    ensures f.WebHttpError? ==> ExceptionResponse(f, traceLine) == (f.statusCode, Raw(Single("message", Str(f.text))))
    ensures f.ClientHttpError? ==> ExceptionResponse(f, traceLine) == (f.code, Raw(Single("message", Str(f.message))))
    ensures !f.WebHttpError? && !f.ClientHttpError? ==>
              ExceptionResponse(f, traceLine) == (500, Encoded(GeneralDocument(traceLine)))
  {
  }

  // ---------------------------------------------------------------------
  // The response funnel (_build_response_internal)

  /** Tornado's response state. */
  datatype Response = Response(status: int, headers: map<string, string>, chunks: seq<Payload>, finished: bool)

  /** The headers `set_default_headers` puts on every response. */
  const DefaultHeaders: map<string, string> := map[
    "Server" := "Miramar Web Server",
    "Access-Control-Allow-Headers" := "Authorization, Content-Type, " + RequestIdHeader,
    "Access-Control-Allow-Credentials" := "true",
    "Access-Control-Allow-Origin" := "*",
    "Access-Control-Max-Age" := "1728000"]

  /** What `build_response` is handed: a plain result or an exception. */
  datatype Outcome = Returned(v: Value) | Raised(f: Failure)

  /** Tornado's `write`: appends a chunk; a dict also sets Tornado's JSON
      Content-Type. */
  function WriteChunk(r: Response, p: Payload): Response {
    var r1 := if p.Raw? && p.obj.Dict? then r.(headers := r.headers[ContentTypeHeader := TornadoJsonContentType]) else r;
    r1.(chunks := r1.chunks + [p])
  }

  /** The status a successful call gets for each verb, absent an explicit
      status; `None` for verbs that set none. */
  function SuccessStatus(verb: Verb): Option<int> {
    match verb
    case GET => Some(200)
    case POST => Some(201)
    case PUT => Some(204)
    case DELETE => Some(200)
    case _ => None
  }

  /** The state after `_build_response_internal(apply_format, result,
      status_code)` on a handler whose request has `verb` and whose
      request-id header is `requestId`; `traceLine` is the last line of the
      current traceback. */
  function AfterBuild(r: Response, verb: Verb, requestId: Option<string>, applyFormat: bool,
                      result: Outcome, statusCode: Option<int>, traceLine: string): Response
  {
    var r1 := if applyFormat then r.(headers := r.headers[ContentTypeHeader := JsonContentType]) else r;
    var r2 :=
      match result
      case Raised(f) =>
        var (status, body) := ExceptionResponse(f, traceLine);
        WriteChunk(r1.(status := status), body)
      case Returned(v) =>
        var body := if applyFormat then Encoded(v) else Raw(v);
        if SuccessStatus(verb).None? then r1
        else
          var r3 := r1.(status := statusCode.GetOr(SuccessStatus(verb).value));
          if verb == GET || verb == POST then WriteChunk(r3, body) else r3;
    var r4 := if requestId.Some? && requestId.value != "" then r2.(headers := r2.headers[RequestIdHeader := requestId.value]) else r2;
    r4.(finished := true)
  }

  /** Success: GET 200, POST 201, PUT 204, DELETE 200 unless an explicit
      status is given; other verbs keep the status. A body is written for GET
      and POST only (formatted as JSON text when formatting is applied). */
  lemma SuccessResponse(r: Response, verb: Verb, requestId: Option<string>, applyFormat: bool,
                        v: Value, statusCode: Option<int>, traceLine: string)
    ensures var after := AfterBuild(r, verb, requestId, applyFormat, Returned(v), statusCode, traceLine);
      && (SuccessStatus(verb).Some? ==> after.status == statusCode.GetOr(SuccessStatus(verb).value))
      && (SuccessStatus(verb).None? ==> after.status == r.status)
      && (verb == GET || verb == POST ==>
            after.chunks == r.chunks + [if applyFormat then Encoded(v) else Raw(v)])
      && (verb != GET && verb != POST ==> after.chunks == r.chunks)
      && after.finished
  {
  }

  /** Failure: the exception mapping decides status and body, whatever the
      verb, and an explicit status is ignored. */
  lemma FailureResponse(r: Response, verb: Verb, requestId: Option<string>, applyFormat: bool,
                        f: Failure, statusCode: Option<int>, traceLine: string)
    ensures var after := AfterBuild(r, verb, requestId, applyFormat, Raised(f), statusCode, traceLine);
      && after.status == ExceptionResponse(f, traceLine).0
      && after.chunks == r.chunks + [ExceptionResponse(f, traceLine).1]
      && after.finished
  {
  }

  /** The request-id header is echoed exactly when the request carried a
      non-empty one; otherwise that header is left as it was. */
  lemma RequestIdEcho(r: Response, verb: Verb, requestId: Option<string>, applyFormat: bool,
                      result: Outcome, statusCode: Option<int>, traceLine: string)
    ensures var after := AfterBuild(r, verb, requestId, applyFormat, result, statusCode, traceLine);
      && (requestId.Some? && requestId.value != "" ==>
            RequestIdHeader in after.headers && after.headers[RequestIdHeader] == requestId.value)
      && (!(requestId.Some? && requestId.value != "") ==>
            (RequestIdHeader in after.headers <==> RequestIdHeader in r.headers)
            && (RequestIdHeader in r.headers ==> after.headers[RequestIdHeader] == r.headers[RequestIdHeader]))
  {
  }

  /** Content-Type is `application/json` when formatting is applied, unless
      a raw dict (the `{"message": ..}` body of a Tornado HTTP error) was
      written, which Tornado labels itself; without formatting only such a
      dict changes it. */
  lemma ContentTypeRule(r: Response, verb: Verb, requestId: Option<string>, applyFormat: bool,
                        result: Outcome, statusCode: Option<int>, traceLine: string)
    ensures var after := AfterBuild(r, verb, requestId, applyFormat, result, statusCode, traceLine);
      var rawDict := |after.chunks| > |r.chunks| && after.chunks[|after.chunks| - 1].Raw?
                     && after.chunks[|after.chunks| - 1].obj.Dict?;
      && (applyFormat && !rawDict ==> after.headers[ContentTypeHeader] == JsonContentType)
      && (rawDict ==> after.headers[ContentTypeHeader] == TornadoJsonContentType)
      && (!applyFormat && !rawDict ==>
            (ContentTypeHeader in after.headers <==> ContentTypeHeader in r.headers)
            && (ContentTypeHeader in r.headers ==> after.headers[ContentTypeHeader] == r.headers[ContentTypeHeader]))
  {
  }

  // ---------------------------------------------------------------------
  // The per-request context (class Context)

  const AccountIdClaim := "account_id"
  const ClientIdClaim := "client_id"
  const DeviceIdClaim := "device_id"
  const MemberIdClaim := "member_id"
  const RoleClaim := "role"
  const ProductsClaim := "products"

  /** A verified token: its payload claims and the raw token text. */
  datatype Token = Token(payload: map<string, Value>, raw: string)

  /** The fields of a `Context`. `products` stays a `Value` because Python
      first stores the raw claim and only then its split. */
  datatype ContextData = ContextData(
    accountId: Value, clientId: Value, deviceId: Value, memberId: Value, role: Value,
    products: Value, token: Option<string>, requestId: Option<string>)

  function StrList(parts: seq<string>): (v: Value)
    ensures v.List? && |v.items| == |parts|
    ensures forall i :: 0 <= i < |parts| ==> v.items[i] == Str(parts[i])
  {
    if parts == [] then List([]) else List([Str(parts[0])] + StrList(parts[1..]).items)
  }

  /** The context as `Context(request)` leaves it, or the error
      `update_from_token` raises part way (a truthy `products` claim that is
      not a string has no `split`). */
  function ContextFrom(requestId: Option<string>, token: Option<Token>): Result<ContextData, Failure> {
    var blank := ContextData(Null, Null, Null, Null, Null, Null, None, requestId);
    match token
    case None => Ok(blank)
    case Some(t) =>
      var claim := GetOrNull(t.payload, ProductsClaim);
      if Truthy(claim) && !claim.Str? then Err(AttributeError("object has no attribute 'split'"))
      else
        Ok(ContextData(
          GetOrNull(t.payload, AccountIdClaim), GetOrNull(t.payload, ClientIdClaim),
          GetOrNull(t.payload, DeviceIdClaim), GetOrNull(t.payload, MemberIdClaim),
          GetOrNull(t.payload, RoleClaim),
          if Truthy(claim) then StrList(Split(claim.s, ',')) else List([]),
          if t.raw != "" then Some(t.raw) else None,
          requestId))
  }

  /** Without a token every claim and `products` are None. */
  lemma ContextWithoutToken(requestId: Option<string>)
    ensures ContextFrom(requestId, None) == Ok(ContextData(Null, Null, Null, Null, Null, Null, None, requestId))
  {
  }

  /** With a token, the claims are copied (None when missing), `products` is
      the comma split of the claim, or [] when it is missing or empty, and
      the token field is None exactly when the raw token is empty. Joining
      the products with ',' gives the claim back. */
  lemma ContextWithToken(requestId: Option<string>, t: Token)
    requires var claim := GetOrNull(t.payload, ProductsClaim); claim.Null? || claim.Str?
    ensures ContextFrom(requestId, Some(t)).Ok?
    ensures var c := ContextFrom(requestId, Some(t)).value;
      && c.accountId == GetOrNull(t.payload, AccountIdClaim)
      && c.clientId == GetOrNull(t.payload, ClientIdClaim)
      && c.deviceId == GetOrNull(t.payload, DeviceIdClaim)
      && c.memberId == GetOrNull(t.payload, MemberIdClaim)
      && c.role == GetOrNull(t.payload, RoleClaim)
      && c.requestId == requestId
      && (c.token.None? <==> t.raw == "")
      && (c.token.Some? ==> c.token.value == t.raw)
      && c.products.List?
      && (var claim := GetOrNull(t.payload, ProductsClaim);
          if claim == Null || claim == Str("") then c.products == List([])
          else |c.products.items| == |Split(claim.s, ',')|
               && (forall i :: 0 <= i < |c.products.items| ==> c.products.items[i] == Str(Split(claim.s, ',')[i]))
               && Join([','], Split(claim.s, ',')) == claim.s)
  {
    var claim := GetOrNull(t.payload, ProductsClaim);
    if claim.Str? && claim.s != "" {
      JoinSplit(claim.s, ',');
    }
  }

  class Context {
    var accountId: Value
    var clientId: Value
    var deviceId: Value
    var memberId: Value
    var role: Value
    var products: Value
    var token: Option<string>
    var requestId: Option<string>

    function Data(): ContextData
      reads this
    {
      ContextData(accountId, clientId, deviceId, memberId, role, products, token, requestId)
    }

    /** The part of `__init__` before `update_from_token`. */
    constructor (requestId: Option<string>)
      ensures Data() == ContextData(Null, Null, Null, Null, Null, Null, None, requestId)
    {
      accountId, clientId, deviceId, memberId, role := Null, Null, Null, Null, Null;
      products, token := Null, None;
      this.requestId := requestId;
    }

    /** `update_from_token`: assigns the claims one by one; a non-string
        `products` claim raises after the raw claim was stored. */
    method UpdateFromToken(t: Option<Token>) returns (error: Option<Failure>)
      modifies this
      ensures old(Data()) == ContextData(Null, Null, Null, Null, Null, Null, None, requestId) ==>
        (error.None? <==> ContextFrom(requestId, t).Ok?)
        && (error.None? ==> Data() == ContextFrom(requestId, t).value)
        && (error.Some? ==> error.value == ContextFrom(requestId, t).error)
      ensures requestId == old(requestId)
    {
      error := None;
      if t.Some? {
        var payload := t.value.payload;
        accountId := GetOrNull(payload, AccountIdClaim);
        clientId := GetOrNull(payload, ClientIdClaim);
        deviceId := GetOrNull(payload, DeviceIdClaim);
        memberId := GetOrNull(payload, MemberIdClaim);
        role := GetOrNull(payload, RoleClaim);
        products := GetOrNull(payload, ProductsClaim);
        if Truthy(products) && !products.Str? {
          error := Some(AttributeError("object has no attribute 'split'"));
          return;
        }
        products := if Truthy(products) then StrList(Split(products.s, ',')) else List([]);
        token := if t.value.raw != "" then Some(t.value.raw) else None;
      }
    }
  }

  /** `Context(request)`: construction followed by `update_from_token`. */
  method NewContext(requestId: Option<string>, t: Option<Token>) returns (c: Context, error: Option<Failure>)
    ensures fresh(c)
    ensures error.None? <==> ContextFrom(requestId, t).Ok?
    ensures error.None? ==> c.Data() == ContextFrom(requestId, t).value
    ensures error.Some? ==> error.value == ContextFrom(requestId, t).error
  {
    c := new Context(requestId);
    error := c.UpdateFromToken(t);
  }

  /** `get_owner`: the owner record built from the context. */
  function Owner(c: ContextData): (v: Value)
    ensures v.Dict? && v.fields.Keys == {"owner"} && v.fields["owner"].Dict?
    ensures v.fields["owner"].fields.Keys == {"applicationId", "userId", "memberId", "deviceId"}
  {
    Dict(map["owner" := Dict(map[
      "applicationId" := c.clientId, "userId" := c.accountId,
      "memberId" := c.memberId, "deviceId" := c.deviceId])])
  }

  /** The owner of a request's context names the token's client, account,
      member and device claims (None for a missing one, and all None
      without a token). */
  lemma OwnerOfToken(requestId: Option<string>, t: Option<Token>)
    requires ContextFrom(requestId, t).Ok?
    ensures var o := Owner(ContextFrom(requestId, t).value).fields["owner"].fields;
      && o["applicationId"] == (if t.Some? then GetOrNull(t.value.payload, ClientIdClaim) else Null)
      && o["userId"] == (if t.Some? then GetOrNull(t.value.payload, AccountIdClaim) else Null)
      && o["memberId"] == (if t.Some? then GetOrNull(t.value.payload, MemberIdClaim) else Null)
      && o["deviceId"] == (if t.Some? then GetOrNull(t.value.payload, DeviceIdClaim) else Null)
  {
  }

  // ---------------------------------------------------------------------
  // Request validation and the handler

  const EnvironmentVariable := "MFS_ENV"

  /** What `initialize` records about a handler's session. */
  datatype Session = Session(environment: string, requestId: Option<string>, resourceName: string)

  /** `initialize`: a missing or empty `MFS_ENV` raises; otherwise the
      session names the environment, the request id header and the resource
      `<service>_<handler>`, where the service is the `service_name`
      setting (`None` when unset, as `format` writes it) and the handler
      part is empty when there is no handler name. */
  function Initialize(request: Request, environment: Option<string>, service: Option<string>,
                      handlerName: Option<string>): (r: Result<Session, Failure>)
    ensures r.Err? <==> environment.None? || environment.value == ""
    ensures r.Err? ==> r.error == Raise(GeneralInfoException, EnvironmentVariable + " environment variable not found")
    ensures r.Ok? ==> r.value.environment == environment.value && r.value.requestId == Header(request, RequestIdHeader)
    ensures r.Ok? && service.Some? && handlerName.Some? ==> r.value.resourceName == service.value + "_" + handlerName.value
    ensures r.Ok? && service.Some? && handlerName.None? ==> r.value.resourceName == service.value + "_"
    ensures r.Ok? && service.None? ==> r.value.resourceName == "None_" + handlerName.GetOr("")
  {
    if environment.None? || environment.value == "" then
      Err(Raise(GeneralInfoException, EnvironmentVariable + " environment variable not found"))
    else
      var suffix := if handlerName.Some? && handlerName.value != "" then handlerName.value else "";
      var serviceText := if service.Some? then service.value else "None";
      Ok(Session(environment.value, Header(request, RequestIdHeader), serviceText + "_" + suffix))
  }

  /** The required headers that the request lacks, in order. */
  function Missing(required: seq<string>, headers: map<string, string>): seq<string> {
    if required == [] then []
    else (if required[0] !in headers then [required[0]] else []) + Missing(required[1..], headers)
  }

  /** A header is listed exactly when it is required and absent. */
  lemma {:induction false} MissingMembership(required: seq<string>, headers: map<string, string>, h: string)
    ensures h in Missing(required, headers) <==> h in required && h !in headers
  {
    if required != [] {
      MissingMembership(required[1..], headers, h);
      assert required == [required[0]] + required[1..];
    }
  }

  /** Listing keeps the order of the required list: it distributes over
      concatenation. */
  lemma {:induction false} MissingConcat(a: seq<string>, b: seq<string>, headers: map<string, string>)
    ensures Missing(a + b, headers) == Missing(a, headers) + Missing(b, headers)
  {
    if a != [] {
      assert (a + b)[0] == a[0];
      assert (a + b)[1..] == a[1..] + b;
      MissingConcat(a[1..], b, headers);
    } else {
      assert a + b == b;
    }
  }

  /** The required headers after `process_headers` extends them. */
  function Required(verb: Verb, given: Option<seq<string>>): seq<string> {
    given.GetOr([]) + (if verb == POST || verb == PUT then [ContentTypeHeader] else [])
  }

  /** The whole verdict of `process_headers`. */
  function HeadersVerdict(request: Request, given: Option<seq<string>>): Option<Failure> {
    var missing := Missing(Required(request.verb, given), request.headers);
    if missing == [] then None
    else Some(Raise(MissingArgumentValue, "these headers are required: " + ReprList(missing)))
  }

  /** `process_headers` raises exactly when a required header is absent;
      POST and PUT require Content-Type besides the given ones. */
  lemma HeadersVerdictIff(request: Request, given: Option<seq<string>>)
    ensures HeadersVerdict(request, given).Some? <==>
            exists h :: h in Required(request.verb, given) && h !in request.headers
    ensures (request.verb == POST || request.verb == PUT) ==> ContentTypeHeader in Required(request.verb, given)
  {
    var req := Required(request.verb, given);
    if HeadersVerdict(request, given).Some? {
      var h := Missing(req, request.headers)[0];
      MissingMembership(req, request.headers, h);
    } else {
      forall h | h in req ensures h in request.headers {
        MissingMembership(req, request.headers, h);
      }
    }
  }

  /** A sequence listing exactly the elements of a set, once each. */
  predicate Lists(listing: seq<string>, s: set<string>) {
    (forall x :: x in listing ==> x in s) && (forall x :: x in s ==> x in listing)
    && (forall i, j :: 0 <= i < j < |listing| ==> listing[i] != listing[j])
  }

  /** Query parameters outside the supported list. */
  function Unsupported(arguments: map<string, seq<string>>, supported: seq<string>): set<string> {
    set k | k in arguments && k !in supported
  }

  /** The body as `process_body` leaves it in `request.body_arguments`. */
  datatype ProcessedBody = Unprocessed | NoBody | JsonBody(doc: Value) | FormArguments(arguments: map<string, seq<string>>)

  /** The outcome of `json.loads` on the request body. */
  datatype Decoded = Parsed(doc: Value) | DecodeFailed(message: string)

  /** What `process_body` decides: the new body arguments, or the error. */
  function BodyVerdict(request: Request, decoded: Decoded): Result<ProcessedBody, Failure> {
    if request.verb == POST || request.verb == PUT then
      match Header(request, ContentTypeHeader)
      case None => Err(AttributeError("'NoneType' object has no attribute 'startswith'"))
      case Some(ct) =>
        if StartsWith(ct, JsonContentType) then
          match decoded
          case Parsed(doc) => Ok(JsonBody(doc))
          case DecodeFailed(m) => Err(Raise(InvalidArgument, "invalid body: " + m))
        else Ok(FormArguments(request.arguments))
    else Ok(NoBody)
  }

  /** The error `prepare` reports, if any. */
  function PrepareVerdict(request: Request, decoded: Decoded): Option<Failure> {
    if HeadersVerdict(request, None).Some? then HeadersVerdict(request, None)
    else if BodyVerdict(request, decoded).Err? then Some(BodyVerdict(request, decoded).error)
    else None
  }

  /** `prepare` rejects a POST or PUT without Content-Type, and a JSON body
      that does not decode; every other request passes. */
  lemma PrepareRejects(request: Request, decoded: Decoded)
    ensures PrepareVerdict(request, decoded).Some? <==>
      (request.verb == POST || request.verb == PUT) &&
      (ContentTypeHeader !in request.headers
       || (StartsWith(request.headers[ContentTypeHeader], JsonContentType) && decoded.DecodeFailed?))
  {
    MissingMembership(Required(request.verb, None), request.headers, ContentTypeHeader);
    HeadersVerdictIff(request, None);
  }

  /** The message for a POST or PUT without Content-Type. */
  lemma MissingContentType(request: Request)
    requires request.verb == POST || request.verb == PUT
    requires ContentTypeHeader !in request.headers
    ensures HeadersVerdict(request, None) ==
            Some(Raise(MissingArgumentValue, "these headers are required: " + "['Content-Type']"))
  {
    var req := Required(request.verb, None);
    assert req == [ContentTypeHeader];
    assert Missing(req, request.headers) == [ContentTypeHeader];
    ContentTypeRepr();
  }

  /** The repr of the list holding only Content-Type. */
  lemma ContentTypeRepr()
    ensures ReprList([ContentTypeHeader]) == "['Content-Type']"
  {
    assert [ContentTypeHeader][1..] == [];
    assert QuoteAll([ContentTypeHeader]) == ["'" + ContentTypeHeader + "'"];
  }

  /** The verbs `options` may announce, in its fixed order. */
  const AnnouncedVerbs: seq<Verb> := [GET, POST, PUT, DELETE, HEAD, PATCH]

  /** OPTIONS followed by the verbs the concrete handler overrides. */
  function AllowedMethods(overridden: set<Verb>): seq<string> {
    ["OPTIONS"] + AllowedFrom(AnnouncedVerbs, overridden)
  }

  function AllowedFrom(verbs: seq<Verb>, overridden: set<Verb>): seq<string> {
    if verbs == [] then []
    else (if verbs[0] in overridden then [VerbName(verbs[0])] else []) + AllowedFrom(verbs[1..], overridden)
  }

  /** The overridden verbs among `verbs`, in order. */
  function Overridden(verbs: seq<Verb>, overridden: set<Verb>): seq<Verb> {
    if verbs == [] then []
    else (if verbs[0] in overridden then [verbs[0]] else []) + Overridden(verbs[1..], overridden)
  }

  function Names(verbs: seq<Verb>): (r: seq<string>)
    ensures |r| == |verbs| && forall i :: 0 <= i < |verbs| ==> r[i] == VerbName(verbs[i])
  {
    if verbs == [] then [] else [VerbName(verbs[0])] + Names(verbs[1..])
  }

  /** Position of a verb in the announced order. */
  function Rank(v: Verb): nat {
    match v
    case GET => 0
    case POST => 1
    case PUT => 2
    case DELETE => 3
    case HEAD => 4
    case PATCH => 5
    case OPTIONS => 6
  }

  lemma {:induction false} AllowedFromNames(verbs: seq<Verb>, overridden: set<Verb>)
    ensures AllowedFrom(verbs, overridden) == Names(Overridden(verbs, overridden))
  {
    if verbs != [] {
      AllowedFromNames(verbs[1..], overridden);
    }
  }

  /** Filtering keeps exactly the overridden verbs and keeps a strictly
      rank-ordered list strictly rank-ordered. */
  lemma {:induction false} OverriddenProperties(verbs: seq<Verb>, overridden: set<Verb>)
    requires forall i, j :: 0 <= i < j < |verbs| ==> Rank(verbs[i]) < Rank(verbs[j])
    ensures forall v :: v in Overridden(verbs, overridden) <==> v in verbs && v in overridden
    ensures forall i, j :: 0 <= i < j < |Overridden(verbs, overridden)| ==>
              Rank(Overridden(verbs, overridden)[i]) < Rank(Overridden(verbs, overridden)[j])
  {
    if verbs != [] {
      var tail := verbs[1..];
      OverriddenProperties(tail, overridden);
      assert verbs == [verbs[0]] + tail;
      forall v | v in Overridden(tail, overridden) ensures Rank(verbs[0]) < Rank(v) {
        var k :| 0 <= k < |tail| && tail[k] == v;
        assert tail[k] == verbs[k + 1];
      }
    }
  }

  /** The announced list starts with OPTIONS, then names exactly the
      overridden verbs other than OPTIONS, each once, in the order GET,
      POST, PUT, DELETE, HEAD, PATCH. */
  lemma AllowedMethodsProperties(overridden: set<Verb>)
    ensures var announced := Overridden(AnnouncedVerbs, overridden);
      && AllowedMethods(overridden) == ["OPTIONS"] + Names(announced)
      && (forall v :: v in announced <==> v != OPTIONS && v in overridden)
      && (forall i, j :: 0 <= i < j < |announced| ==> Rank(announced[i]) < Rank(announced[j]))
  {
    AllowedFromNames(AnnouncedVerbs, overridden);
    OverriddenProperties(AnnouncedVerbs, overridden);
  }

  /** A request handler: the request it serves and the response state it
      builds. `token` and `context` are what the authorization wrappers
      attach (`request.token`, `self.context`); `arguments` and `query` are
      `request.arguments` and `request.query`, which the health handler
      rewrites. */
  class Handler {
    const request: Request
    const requestId: Option<string>
    var status: int
    var headers: map<string, string>
    var chunks: seq<Payload>
    var finished: bool
    var bodyArguments: ProcessedBody
    var token: Option<Token>
    var context: Option<ContextData>
    var arguments: map<string, Value>
    var query: Value

    function Snapshot(): Response
      reads this
    {
      Response(status, headers, chunks, finished)
    }

    /** Tornado's handler construction with `set_default_headers`, and
        `initialize` reading the request-id header. */
    constructor (request: Request)
      ensures this.request == request && requestId == Header(request, RequestIdHeader)
      ensures Snapshot() == Response(200, DefaultHeaders, [], false)
      ensures bodyArguments == Unprocessed && token.None? && context.None?
      ensures arguments == map k | k in request.arguments :: StrList(request.arguments[k])
      ensures query == Str(request.rawQuery)
    {
      this.request := request;
      requestId := Header(request, RequestIdHeader);
      status, headers, chunks, finished := 200, DefaultHeaders, [], false;
      bodyArguments, token, context := Unprocessed, None, None;
      arguments := map k | k in request.arguments :: StrList(request.arguments[k]);
      query := Str(request.rawQuery);
    }

    /** `_build_response_internal` (and through it `build_response` with
        `applyFormat` true and `build_response_without_format` with it
        false). */
    method BuildResponseInternal(applyFormat: bool, result: Outcome, statusCode: Option<int>, traceLine: string)
      modifies this`status, this`headers, this`chunks, this`finished
      ensures Snapshot() == AfterBuild(old(Snapshot()), request.verb, requestId, applyFormat, result, statusCode, traceLine)
    {
      if applyFormat {
        headers := headers[ContentTypeHeader := JsonContentType];
      }
      match result {
        case Raised(f) =>
          var (code, body) := ExceptionResponse(f, traceLine);
          status := code;
          Write(body);
        case Returned(v) =>
          var body := if applyFormat then Encoded(v) else Raw(v);
          if request.verb == GET {
            status := statusCode.GetOr(200);
            Write(body);
          } else if request.verb == POST {
            status := statusCode.GetOr(201);
            Write(body);
          } else if request.verb == PUT {
            status := statusCode.GetOr(204);
          } else if request.verb == DELETE {
            status := statusCode.GetOr(200);
          }
      }
      if requestId.Some? && requestId.value != "" {
        headers := headers[RequestIdHeader := requestId.value];
      }
      finished := true;
    }

    /** Tornado's `write`. */
    method Write(p: Payload)
      modifies this`headers, this`chunks
      ensures Snapshot() == WriteChunk(old(Snapshot()), p)
    {
      if p.Raw? && p.obj.Dict? {
        headers := headers[ContentTypeHeader := TornadoJsonContentType];
      }
      chunks := chunks + [p];
    }

    /** `process_headers(required_headers)`: returns the required list as
        extended in place (Content-Type appended for POST and PUT) and the
        error raised when headers are missing. */
    method ProcessHeaders(given: Option<seq<string>>) returns (required: seq<string>, error: Option<Failure>)
      ensures required == Required(request.verb, given)
      ensures error == HeadersVerdict(request, given)
    {
      required := if given.None? then [] else given.value;
      if request.verb == POST || request.verb == PUT {
        required := required + [ContentTypeHeader];
      }
      var missing: seq<string> := [];
      var i := 0;
      while i < |required|
        invariant 0 <= i <= |required|
        invariant missing == Missing(required[..i], request.headers)
      {
        MissingConcat(required[..i], [required[i]], request.headers);
        assert required[..i + 1] == required[..i] + [required[i]];
        if Header(request, required[i]).None? {
          missing := missing + [required[i]];
        }
        i := i + 1;
      }
      assert required[..i] == required;
      if |missing| > 0 {
        error := Some(Raise(MissingArgumentValue, "these headers are required: " + ReprList(missing)));
      } else {
        error := None;
      }
    }

    /** `process_query(supported)`: with a non-empty supported list, any
        other parameter raises `InvalidArgument` naming all of them (in the
        unspecified order of a Python set). */
    method ProcessQuery(supported: seq<string>) returns (error: Option<Failure>)
      ensures error.Some? <==> supported != [] && Unsupported(request.arguments, supported) != {}
      ensures error.Some? ==> exists listing :: (Lists(listing, Unsupported(request.arguments, supported))
        && error.value == Raise(InvalidArgument, "The following query parameters are not supported: " + ReprList(listing)))
    {
      error := None;
      if supported != [] {
        var rest := Unsupported(request.arguments, supported);
        ghost var all := rest;
        var listing: seq<string> := [];
        while rest != {}
          invariant forall x :: x in all <==> x in listing || x in rest
          invariant forall x :: x in listing ==> x !in rest
          invariant forall i, j :: 0 <= i < j < |listing| ==> listing[i] != listing[j]
          decreases rest
        {
          var x :| x in rest;
          listing := listing + [x];
          rest := rest - {x};
        }
        if listing != [] {
          assert listing[0] in all;
          error := Some(Raise(InvalidArgument, "The following query parameters are not supported: " + ReprList(listing)));
          assert Lists(listing, all);
        } else {
          assert all == {};
        }
      }
    }

    /** `process_body`: for POST and PUT, a JSON body is decoded (an
        undecodable one raises `InvalidArgument`) and any other body keeps
        the form arguments; other verbs have no body. */
    method ProcessBody(decoded: Decoded) returns (error: Option<Failure>)
      modifies this`bodyArguments
      ensures BodyVerdict(request, decoded).Ok? ==> error.None? && bodyArguments == BodyVerdict(request, decoded).value
      ensures BodyVerdict(request, decoded).Err? ==>
                error == Some(BodyVerdict(request, decoded).error) && bodyArguments == old(bodyArguments)
    {
      error := None;
      var processed: ProcessedBody;
      if request.verb == POST || request.verb == PUT {
        var contentType := Header(request, ContentTypeHeader);
        if contentType.None? {
          error := Some(AttributeError("'NoneType' object has no attribute 'startswith'"));
          return;
        }
        if StartsWith(contentType.value, JsonContentType) {
          match decoded {
            case Parsed(doc) =>
              processed := JsonBody(doc);
            case DecodeFailed(m) =>
              error := Some(Raise(InvalidArgument, "invalid body: " + m));
              return;
          }
        } else {
          processed := FormArguments(request.arguments);
        }
      } else {
        processed := NoBody;
      }
      bodyArguments := processed;
    }

    /** `prepare` with the base validations: `process_query()` (no
        supported list, so it accepts everything), `process_headers()` and
        `process_body()`; the first error is reported and rendered through
        `build_response`. */
    method Prepare(decoded: Decoded, traceLine: string) returns (notified: Option<Failure>)
      modifies this`status, this`headers, this`chunks, this`finished, this`bodyArguments
      ensures notified == PrepareVerdict(request, decoded)
      ensures notified.None? ==> Snapshot() == old(Snapshot()) && bodyArguments == BodyVerdict(request, decoded).value
      ensures notified.Some? ==> (bodyArguments == old(bodyArguments)
        && Snapshot() == AfterBuild(old(Snapshot()), request.verb, requestId, true, Raised(notified.value), None, traceLine))
    {
      notified := ProcessQuery([]);
      if notified.None? {
        var _, headersError := ProcessHeaders(None);
        notified := headersError;
      }
      if notified.None? {
        notified := ProcessBody(decoded);
      }
      if notified.Some? {
        BuildResponseInternal(true, Raised(notified.value), None, traceLine);
      }
    }

    /** `options`: announces OPTIONS and the verbs the concrete handler
        overrides. */
    method Options(overridden: set<Verb>)
      modifies this`headers
      ensures headers == old(headers)[AllowMethodsHeader := Join(", ", AllowedMethods(overridden))]
    {
      var optionsList := ["OPTIONS"];
      var i := 0;
      while i < |AnnouncedVerbs|
        invariant 0 <= i <= |AnnouncedVerbs|
        invariant optionsList == ["OPTIONS"] + AllowedFrom(AnnouncedVerbs[..i], overridden)
        invariant headers == old(headers)
      {
        AllowedFromConcat(AnnouncedVerbs[..i], [AnnouncedVerbs[i]], overridden);
        assert AnnouncedVerbs[..i + 1] == AnnouncedVerbs[..i] + [AnnouncedVerbs[i]];
        if AnnouncedVerbs[i] in overridden {
          optionsList := optionsList + [VerbName(AnnouncedVerbs[i])];
        }
        i := i + 1;
      }
      assert AnnouncedVerbs[..i] == AnnouncedVerbs;
      headers := headers[AllowMethodsHeader := Join(", ", optionsList)];
    }
  }

  lemma {:induction false} AllowedFromConcat(a: seq<Verb>, b: seq<Verb>, overridden: set<Verb>)
    ensures AllowedFrom(a + b, overridden) == AllowedFrom(a, overridden) + AllowedFrom(b, overridden)
  {
    if a != [] {
      assert (a + b)[0] == a[0];
      assert (a + b)[1..] == a[1..] + b;
      AllowedFromConcat(a[1..], b, overridden);
    } else {
      assert a + b == b;
    }
  }
}
