/** The handler decorators (decorators.py): OAuth2 bearer-token
    authorization, API-key authorization and exponential-backoff retry.

    The decorated coroutine, token verification, the policy service, the
    subscription lookup and the sleeping are inputs: each is represented by
    the outcome it produces. */
module Decorators {
  import opened Json
  import opened Wrappers
  import opened Strings
  import opened Exceptions
  import opened BaseHandler

  // ---------------------------------------------------------------------
  // retry(exception_to_check, tries, delay, backoff)

  /** The outcome of one call of the decorated function. */
  datatype Attempt<T, E> = Succeeded(value: T) | Failed(error: E)

  /** A whole retried call: what the caller gets, how many times the
      function was called and the delays slept between calls. */
  datatype RetryRun<T, E> = RetryRun(result: Attempt<T, E>, calls: nat, sleeps: seq<int>)

  function Pow(b: int, k: nat): int {
    if k == 0 then 1 else b * Pow(b, k - 1)
  }

  /** Whether the `except exception_to_check` clause catches the outcome.
      A success travels as `gen.Return`, itself an `Exception`, so it is
      caught when `exception_to_check` covers `Exception`
      (`catchesReturn`). */
  predicate Retried<T, E>(a: Attempt<T, E>, retryable: E -> bool, catchesReturn: bool) {
    match a
    case Succeeded(_) => catchesReturn
    case Failed(e) => retryable(e)
  }

  /** One more call, followed by a sleep of `d`, before `rest`. */
  function Then<T, E>(d: int, rest: RetryRun<T, E>): RetryRun<T, E> {
    RetryRun(rest.result, rest.calls + 1, [d] + rest.sleeps)
  }

  /** `function_retry` from the point where `left` tries remain, the delay
      is `d` and the next call is call number `i` (counting from 0). */
  function RetryLoop<T, E>(left: int, d: int, backoff: int, i: nat, attempts: nat -> Attempt<T, E>,
                           retryable: E -> bool, catchesReturn: bool): RetryRun<T, E>
    decreases left
  {
    if left > 1 && Retried(attempts(i), retryable, catchesReturn) then
      Then(d, RetryLoop(left - 1, d * backoff, backoff, i + 1, attempts, retryable, catchesReturn))
    else RetryRun(attempts(i), 1, [])
  }

  /** The shape of every retried call: at least one call and at most
      `max(left, 1)`; one sleep between consecutive calls, the k-th of
      `d * backoff^k`; the caller gets the last call's outcome; every
      earlier call was caught; and running out of tries is the only reason
      to stop on a caught outcome. */
  lemma {:induction false} RetryShape<T, E>(left: int, d: int, backoff: int, i: nat, attempts: nat -> Attempt<T, E>,
                                            retryable: E -> bool, catchesReturn: bool)
    ensures var r := RetryLoop(left, d, backoff, i, attempts, retryable, catchesReturn);
      && 1 <= r.calls && (r.calls <= left || r.calls == 1)
      && |r.sleeps| == r.calls - 1
      && (forall k :: 0 <= k < |r.sleeps| ==> r.sleeps[k] == d * Pow(backoff, k))
      && r.result == attempts(i + r.calls - 1)
      && (forall k :: i <= k < i + r.calls - 1 ==> Retried(attempts(k), retryable, catchesReturn))
      && (r.calls < left ==> !Retried(attempts(i + r.calls - 1), retryable, catchesReturn))
    decreases left
  {
    if left > 1 && Retried(attempts(i), retryable, catchesReturn) {
      var rest := RetryLoop(left - 1, d * backoff, backoff, i + 1, attempts, retryable, catchesReturn);
      RetryShape(left - 1, d * backoff, backoff, i + 1, attempts, retryable, catchesReturn);
      var r := Then(d, rest);
      forall k | 0 <= k < |r.sleeps| ensures r.sleeps[k] == d * Pow(backoff, k) {
        if k > 0 {
          assert r.sleeps[k] == rest.sleeps[k - 1] == (d * backoff) * Pow(backoff, k - 1);
          PowStep(d, backoff, k);
        }
      }
    }
  }

  /** Multiplying the delay by the backoff shifts the exponent by one. */
  lemma PowStep(d: int, backoff: int, k: nat)
    requires k > 0
    ensures (d * backoff) * Pow(backoff, k - 1) == d * Pow(backoff, k)
  {
    assert Pow(backoff, k) == backoff * Pow(backoff, k - 1);
    assert (d * backoff) * Pow(backoff, k - 1) == d * (backoff * Pow(backoff, k - 1));
  }

  /** At most one try means one unguarded call and no sleep. */
  lemma SingleTry<T, E>(tries: int, delay: int, backoff: int, attempts: nat -> Attempt<T, E>,
                        retryable: E -> bool, catchesReturn: bool)
    requires tries <= 1
    ensures RetryLoop(tries, delay, backoff, 0, attempts, retryable, catchesReturn) == RetryRun(attempts(0), 1, [])
  {
  }

  /** `retry`: the loop of `function_retry`. */
  method Retry<T, E>(tries: int, delay: int, backoff: int, attempts: nat -> Attempt<T, E>,
                     retryable: E -> bool, catchesReturn: bool)
    returns (result: Attempt<T, E>, calls: nat, sleeps: seq<int>)
    ensures RetryRun(result, calls, sleeps) == RetryLoop(tries, delay, backoff, 0, attempts, retryable, catchesReturn)
  {
    var numberOfTries := tries;
    var delaySeconds := delay;
    calls, sleeps := 0, [];
    while numberOfTries > 1
      invariant var rest := RetryLoop(numberOfTries, delaySeconds, backoff, calls, attempts, retryable, catchesReturn);
        RetryRun(rest.result, calls + rest.calls, sleeps + rest.sleeps)
          == RetryLoop(tries, delay, backoff, 0, attempts, retryable, catchesReturn)
      decreases numberOfTries
    {
      var outcome := attempts(calls);
      if !Retried(outcome, retryable, catchesReturn) {
        result, calls := outcome, calls + 1;
        return;
      }
      ghost var rest := RetryLoop(numberOfTries - 1, delaySeconds * backoff, backoff, calls + 1, attempts, retryable, catchesReturn);
      assert sleeps + ([delaySeconds] + rest.sleeps) == (sleeps + [delaySeconds]) + rest.sleeps;
      calls := calls + 1;
      sleeps := sleeps + [delaySeconds];
      numberOfTries := numberOfTries - 1;
      delaySeconds := delaySeconds * backoff;
    }
    result, calls := attempts(calls), calls + 1;
  }

  /** With `exception_to_check = Exception` a success is caught as the
      `gen.Return` carrying it: three tries of a function that always
      succeeds make three calls and sleep 3 and 6 seconds. */
  lemma RetryRepeatsSuccess()
    ensures var always := (_: nat) => Attempt<int, string>.Succeeded(7);
      RetryLoop(3, 3, 2, 0, always, (_: string) => true, true) == RetryRun(Succeeded(7), 3, [3, 6])
  {
  }

  /** Retry as intended: a success is returned at once. */
  function RetryIntended<T, E>(tries: int, delay: int, backoff: int, attempts: nat -> Attempt<T, E>,
                               retryable: E -> bool): (r: RetryRun<T, E>)
    ensures r.calls >= 1
    ensures r.result == attempts(r.calls - 1)
    ensures forall k :: 0 <= k < r.calls - 1 ==> attempts(k).Failed? && retryable(attempts(k).error)
    ensures r.calls < tries ==> r.result.Succeeded? || !retryable(r.result.error)
  {
    RetryShape(tries, delay, backoff, 0, attempts, retryable, false);
    RetryLoop(tries, delay, backoff, 0, attempts, retryable, false)
  }

  /** The intended retry calls a function that succeeds at once exactly
      once, whatever the number of tries. */
  lemma IntendedSuccessRunsOnce<T, E>(tries: int, delay: int, backoff: int, attempts: nat -> Attempt<T, E>,
                                     retryable: E -> bool)
    requires attempts(0).Succeeded?
    ensures RetryIntended(tries, delay, backoff, attempts, retryable) == RetryRun(attempts(0), 1, [])
  {
  }

  // ---------------------------------------------------------------------
  // oauth2_authorization

  const AuthorizationHeader := "Authorization"
  const BearerPrefix := "Bearer "

  /** What constructing the JWT token from the header's token text gives:
      a verified token, `InvalidToken`, or another exception. */
  datatype Verification = Verified(token: Token) | Rejected | VerifierRaised(f: Failure)

  /** What fetching the policies for the context's products and enforcing
      them gives: compliance, `PolicyEnforcementFailed(message)`, or another
      exception. */
  datatype Enforcement = Allowed | Violated(message: string) | EnforcementRaised(f: Failure)

  /** What the decorated coroutine gives. */
  datatype Wrapped = Completed | WrappedRaised(f: Failure)

  /** How far a request got through a wrapper: the token and context it
      attached (None when never attached), whether policies were enforced,
      whether the decorated coroutine ran, and the exception reported. */
  datatype Gate = Gate(token: Option<Token>, context: Option<ContextData>, enforced: bool, ran: bool, failure: Option<Failure>)

  function Rejection(token: Option<Token>, context: Option<ContextData>, f: Failure): Gate {
    Gate(token, context, false, false, Some(f))
  }

  function Ran(t: Token, c: ContextData, enforced: bool, wrapped: Wrapped): Gate {
    Gate(Some(t), Some(c), enforced, true, if wrapped.WrappedRaised? then Some(wrapped.f) else None)
  }

  /** The whole of the OAuth2 wrapper, decided on the request. */
  function OAuthGate(request: Request, verify: string -> Verification, hasEnvironment: bool,
                     enforcePolicies: bool, enforcement: Enforcement, wrapped: Wrapped): Gate
  {
    var header := Header(request, AuthorizationHeader);
    if header.None? || header.value == "" then
      Rejection(None, None, Raise(Unauthorized, "Authorization header is missing"))
    else if !Contains(header.value, BearerPrefix) then
      Rejection(None, None, Raise(Unauthorized, "Invalid token type in Authorization HTTP header"))
    else
      match verify(SliceFrom(header.value, |BearerPrefix|))
      case Rejected => Rejection(None, None, Raise(Unauthorized, "Invalid token"))
      case VerifierRaised(f) =>
        Rejection(None, None, if f.TypeError? then Raise(Unauthorized, "Invalid token") else f)
      case Verified(t) => VerifiedGate(request, t, hasEnvironment, enforcePolicies, enforcement, wrapped)
  }

  /** The wrapper once the token verified: building the context. */
  function VerifiedGate(request: Request, t: Token, hasEnvironment: bool,
                        enforcePolicies: bool, enforcement: Enforcement, wrapped: Wrapped): Gate
  {
    match ContextFrom(Header(request, RequestIdHeader), Some(t))
    case Err(f) => Rejection(Some(t), None, f)
    case Ok(c) => ContextGate(t, c, hasEnvironment, enforcePolicies, enforcement, wrapped)
  }

  /** The wrapper once the context is attached: the environment, the
      client id claim, the policies, then the decorated coroutine. */
  function ContextGate(t: Token, c: ContextData, hasEnvironment: bool,
                       enforcePolicies: bool, enforcement: Enforcement, wrapped: Wrapped): Gate
  {
    if !hasEnvironment then
      Rejection(Some(t), Some(c), AttributeError("object has no attribute 'mfs_environment'"))
    else if GetOrNull(t.payload, ClientIdClaim).Null? then
      Rejection(Some(t), Some(c), Raise(Unauthorized, "Invalid token: missing client_id on payload."))
    else if enforcePolicies && Truthy(c.products) then
      match enforcement
      case Violated(m) => Gate(Some(t), Some(c), true, false, Some(Raise(Forbidden, m)))
      case EnforcementRaised(f) => Gate(Some(t), Some(c), true, false, Some(f))
      case Allowed => Ran(t, c, true, wrapped)
    else Ran(t, c, false, wrapped)
  }

  /** After the context is attached, policies are enforced exactly when
      the environment is set, the token names a client, enforcement is on
      and the token grants some product; the coroutine runs exactly when
      those checks pass and the enforced policies allow it. */
  lemma ContextGateProperties(t: Token, c: ContextData, hasEnvironment: bool,
                              enforcePolicies: bool, enforcement: Enforcement, wrapped: Wrapped)
    ensures var g := ContextGate(t, c, hasEnvironment, enforcePolicies, enforcement, wrapped);
      && g.token == Some(t) && g.context == Some(c)
      && (g.enforced <==> hasEnvironment && !GetOrNull(t.payload, ClientIdClaim).Null?
                          && enforcePolicies && Truthy(c.products))
      && (g.ran <==> hasEnvironment && !GetOrNull(t.payload, ClientIdClaim).Null?
                     && (g.enforced ==> enforcement == Allowed))
      && (g.ran ==> (g.failure.None? <==> wrapped == Completed))
      && (!g.ran ==> g.failure.Some?)
      && (g.enforced && enforcement.Violated? ==> g.failure == Some(Raise(Forbidden, enforcement.message)))
  {
  }

  /** A request with a usable bearer token: the header is present and
      non-empty, contains "Bearer ", the text after its first seven
      characters verifies, the context builds and the payload names a
      client. */
  predicate Authenticated(request: Request, verify: string -> Verification, hasEnvironment: bool) {
    var header := Header(request, AuthorizationHeader);
    && header.Some? && header.value != "" && Contains(header.value, BearerPrefix)
    && verify(SliceFrom(header.value, |BearerPrefix|)).Verified?
    && var t := verify(SliceFrom(header.value, |BearerPrefix|)).token;
    && ContextFrom(Header(request, RequestIdHeader), Some(t)).Ok?
    && hasEnvironment
    && !GetOrNull(t.payload, ClientIdClaim).Null?
  }

  /** The decorated coroutine runs exactly for an authenticated request
      whose policies, when enforced, allow it; policies are enforced
      exactly for an authenticated request when enforcement is on and the
      token grants some product. */
  lemma OAuthRunsIffAuthorized(request: Request, verify: string -> Verification, hasEnvironment: bool,
                               enforcePolicies: bool, enforcement: Enforcement, wrapped: Wrapped)
    ensures var g := OAuthGate(request, verify, hasEnvironment, enforcePolicies, enforcement, wrapped);
      && (g.enforced <==> Authenticated(request, verify, hasEnvironment) && enforcePolicies
                          && g.context.Some? && Truthy(g.context.value.products))
      && (g.ran <==> Authenticated(request, verify, hasEnvironment)
                     && (g.enforced ==> enforcement == Allowed))
      && (g.ran ==> g.token.Some? && g.context.Some?
                    && g.context.value == ContextFrom(Header(request, RequestIdHeader), g.token).value
                    && (g.failure.None? <==> wrapped == Completed))
      && (!g.ran ==> g.failure.Some?)
  {
    var header := Header(request, AuthorizationHeader);
    if header.Some? && header.value != "" && Contains(header.value, BearerPrefix) {
      var v := verify(SliceFrom(header.value, |BearerPrefix|));
      if v.Verified? {
        var context := ContextFrom(Header(request, RequestIdHeader), Some(v.token));
        if context.Ok? {
          ContextGateProperties(v.token, context.value, hasEnvironment, enforcePolicies, enforcement, wrapped);
        }
      }
    }
  }

  /** A missing or empty Authorization header is rejected as
      `Unauthorized` (401). */
  lemma OAuthMissingHeader(request: Request, verify: string -> Verification, hasEnvironment: bool,
                           enforcePolicies: bool, enforcement: Enforcement, wrapped: Wrapped, traceLine: string)
    requires Header(request, AuthorizationHeader).None? || Header(request, AuthorizationHeader).value == ""
    ensures var g := OAuthGate(request, verify, hasEnvironment, enforcePolicies, enforcement, wrapped);
      && g.failure == Some(Raise(Unauthorized, "Authorization header is missing"))
      && ExceptionResponse(g.failure.value, traceLine).0 == 401
  {
    UnauthorizedStatus("Authorization header is missing", traceLine);
  }

  /** A header without "Bearer " is rejected as `Unauthorized` (401). */
  lemma OAuthWrongScheme(request: Request, verify: string -> Verification, hasEnvironment: bool,
                         enforcePolicies: bool, enforcement: Enforcement, wrapped: Wrapped, traceLine: string)
    requires Header(request, AuthorizationHeader).Some?
    requires Header(request, AuthorizationHeader).value != ""
    requires !Contains(Header(request, AuthorizationHeader).value, BearerPrefix)
    ensures var g := OAuthGate(request, verify, hasEnvironment, enforcePolicies, enforcement, wrapped);
      && g.failure == Some(Raise(Unauthorized, "Invalid token type in Authorization HTTP header"))
      && ExceptionResponse(g.failure.value, traceLine).0 == 401
  {
    UnauthorizedStatus("Invalid token type in Authorization HTTP header", traceLine);
  }

  /** With a bearer header present, a token the verifier rejects, or whose
      verification raises `TypeError`, is `Unauthorized` (401) with
      nothing attached and the coroutine not run; any other exception of
      the verifier is reported as it is. */
  lemma OAuthInvalidToken(request: Request, verify: string -> Verification, hasEnvironment: bool,
                          enforcePolicies: bool, enforcement: Enforcement, wrapped: Wrapped, traceLine: string)
    requires Header(request, AuthorizationHeader).Some?
    requires Header(request, AuthorizationHeader).value != ""
    requires Contains(Header(request, AuthorizationHeader).value, BearerPrefix)
    ensures var v := verify(SliceFrom(Header(request, AuthorizationHeader).value, |BearerPrefix|));
      var g := OAuthGate(request, verify, hasEnvironment, enforcePolicies, enforcement, wrapped);
      && (v.Rejected? || (v.VerifierRaised? && v.f.TypeError?) ==>
            && g == Rejection(None, None, Raise(Unauthorized, "Invalid token"))
            && ExceptionResponse(g.failure.value, traceLine).0 == 401)
      && (v.VerifierRaised? && !v.f.TypeError? ==> g == Rejection(None, None, v.f))
  {
    UnauthorizedStatus("Invalid token", traceLine);
  }

  /** Once the token verifies and the context is attached, a handler
      without `mfs_environment` fails with `AttributeError`, and a payload
      without `client_id` is `Unauthorized` (401); either way the token and
      the context stay attached and the coroutine does not run. */
  lemma OAuthMissingClientId(request: Request, verify: string -> Verification, hasEnvironment: bool,
                             enforcePolicies: bool, enforcement: Enforcement, wrapped: Wrapped, traceLine: string)
    requires Header(request, AuthorizationHeader).Some?
    requires Header(request, AuthorizationHeader).value != ""
    requires Contains(Header(request, AuthorizationHeader).value, BearerPrefix)
    requires verify(SliceFrom(Header(request, AuthorizationHeader).value, |BearerPrefix|)).Verified?
    requires ContextFrom(Header(request, RequestIdHeader),
                         Some(verify(SliceFrom(Header(request, AuthorizationHeader).value, |BearerPrefix|)).token)).Ok?
    ensures var t := verify(SliceFrom(Header(request, AuthorizationHeader).value, |BearerPrefix|)).token;
      var c := ContextFrom(Header(request, RequestIdHeader), Some(t)).value;
      var g := OAuthGate(request, verify, hasEnvironment, enforcePolicies, enforcement, wrapped);
      && (!hasEnvironment ==> g == Rejection(Some(t), Some(c), AttributeError("object has no attribute 'mfs_environment'")))
      && (hasEnvironment && GetOrNull(t.payload, ClientIdClaim).Null? ==>
            && g == Rejection(Some(t), Some(c), Raise(Unauthorized, "Invalid token: missing client_id on payload."))
            && ExceptionResponse(g.failure.value, traceLine).0 == 401)
  {
    UnauthorizedStatus("Invalid token: missing client_id on payload.", traceLine);
  }

  /** A policy violation is `Forbidden` (403) carrying the enforcer's
      message. */
  lemma OAuthPolicyViolation(request: Request, verify: string -> Verification, hasEnvironment: bool,
                             enforcePolicies: bool, message: string, wrapped: Wrapped, traceLine: string)
    ensures var g := OAuthGate(request, verify, hasEnvironment, enforcePolicies, Violated(message), wrapped);
      g.enforced ==>
        && g.failure == Some(Raise(Forbidden, message))
        && ExceptionResponse(g.failure.value, traceLine) == (403, Encoded(Dict(New(Forbidden, Str(message)).info)))
  {
    var header := Header(request, AuthorizationHeader);
    if header.Some? && header.value != "" && Contains(header.value, BearerPrefix) {
      var v := verify(SliceFrom(header.value, |BearerPrefix|));
      if v.Verified? {
        var context := ContextFrom(Header(request, RequestIdHeader), Some(v.token));
        if context.Ok? {
          ContextGateProperties(v.token, context.value, hasEnvironment, enforcePolicies, Violated(message), wrapped);
        }
      }
    }
    ForbiddenStatus(message, traceLine);
  }

  lemma ForbiddenStatus(message: string, traceLine: string)
    ensures ExceptionResponse(Raise(Forbidden, message), traceLine) == (403, Encoded(Dict(New(Forbidden, Str(message)).info)))
  {
    HandledFamilyRendering(New(Forbidden, Str(message)), traceLine);
  }

  lemma UnauthorizedStatus(message: string, traceLine: string)
    ensures ExceptionResponse(Raise(Unauthorized, message), traceLine) == (401, Encoded(Dict(New(Unauthorized, Str(message)).info)))
  {
    Superclasses(Unauthorized);
  }

  /** The state a wrapper leaves on the handler for its gate: the token and
      context it attached, and, when it reports a failure, the response
      `build_response(ex)` renders for it. */
  twostate predicate GateApplied(h: Handler, g: Gate, traceLine: string)
    reads h
  {
    && h.token == (if g.token.Some? then g.token else old(h.token))
    && h.context == (if g.context.Some? then g.context else old(h.context))
    && (g.failure.None? ==> h.Snapshot() == old(h.Snapshot()))
    && (g.failure.Some? ==>
          h.Snapshot() == AfterBuild(old(h.Snapshot()), h.request.verb, h.requestId, true, Raised(g.failure.value), None, traceLine))
  }

  /** The steps of the OAuth2 wrapper up to and including the decorated
      coroutine, in source order: the token and context it attaches and the
      exception it ends with. */
  method DecideOAuth(request: Request, verify: string -> Verification, hasEnvironment: bool,
                     enforcePolicies: bool, enforcement: Enforcement, wrapped: Wrapped)
    returns (g: Gate)
    ensures g == OAuthGate(request, verify, hasEnvironment, enforcePolicies, enforcement, wrapped)
  {
    var header := Header(request, AuthorizationHeader);
    if header.None? || header.value == "" {
      return Rejection(None, None, Raise(Unauthorized, "Authorization header is missing"));
    }
    if !Contains(header.value, BearerPrefix) {
      return Rejection(None, None, Raise(Unauthorized, "Invalid token type in Authorization HTTP header"));
    }
    var tokenText := SliceFrom(header.value, |BearerPrefix|);
    match verify(tokenText) {
      case Rejected =>
        return Rejection(None, None, Raise(Unauthorized, "Invalid token"));
      case VerifierRaised(f) =>
        return Rejection(None, None, if f.TypeError? then Raise(Unauthorized, "Invalid token") else f);
      case Verified(t) =>
        g := DecideVerified(request, t, hasEnvironment, enforcePolicies, enforcement, wrapped);
    }
  }

  /** The steps after the token verified: the context, the checks on it
      and the policies. */
  method DecideVerified(request: Request, t: Token, hasEnvironment: bool,
                        enforcePolicies: bool, enforcement: Enforcement, wrapped: Wrapped)
    returns (g: Gate)
    ensures g == VerifiedGate(request, t, hasEnvironment, enforcePolicies, enforcement, wrapped)
  {
    var c, contextError := NewContext(Header(request, RequestIdHeader), Some(t));
    if contextError.Some? {
      return Rejection(Some(t), None, contextError.value);
    }
    var context := c.Data();
    if !hasEnvironment {
      return Rejection(Some(t), Some(context), AttributeError("object has no attribute 'mfs_environment'"));
    }
    if GetOrNull(t.payload, ClientIdClaim).Null? {
      return Rejection(Some(t), Some(context), Raise(Unauthorized, "Invalid token: missing client_id on payload."));
    }
    var enforced := enforcePolicies && Truthy(context.products);
    if enforced {
      match enforcement {
        case Violated(m) =>
          return Gate(Some(t), Some(context), true, false, Some(Raise(Forbidden, m)));
        case EnforcementRaised(f) =>
          return Gate(Some(t), Some(context), true, false, Some(f));
        case Allowed =>
      }
    }
    g := Ran(t, context, enforced, wrapped);
  }

  /** Attaches a gate's token and context to the handler and renders its
      failure with `build_response`. */
  method ApplyGate(h: Handler, g: Gate, traceLine: string)
    modifies h`token, h`context, h`status, h`headers, h`chunks, h`finished
    ensures GateApplied(h, g, traceLine)
  {
    if g.token.Some? {
      h.token := g.token;
    }
    if g.context.Some? {
      h.context := g.context;
    }
    if g.failure.Some? {
      h.BuildResponseInternal(true, Raised(g.failure.value), None, traceLine);
    }
  }

  /** `oauth2_authorization`: the wrapper around a handler verb. It returns
      whether the decorated coroutine ran and the exception handed to
      `support.notify_error`, if any. */
  method OAuth2Authorization(h: Handler, verify: string -> Verification, hasEnvironment: bool,
                             enforcePolicies: bool, enforcement: Enforcement, wrapped: Wrapped, traceLine: string)
    returns (ran: bool, notified: Option<Failure>)
    modifies h`token, h`context, h`status, h`headers, h`chunks, h`finished
    ensures var g := OAuthGate(h.request, verify, hasEnvironment, enforcePolicies, enforcement, wrapped);
      ran == g.ran && notified == g.failure && GateApplied(h, g, traceLine)
  {
    var g := DecideOAuth(h.request, verify, hasEnvironment, enforcePolicies, enforcement, wrapped);
    ApplyGate(h, g, traceLine);
    ran, notified := g.ran, g.failure;
  }

  // ---------------------------------------------------------------------
  // api_key_authorization

  /** `get_argument(name)`: the last value given for the argument, with
      each control character Tornado removes turned into a space and the
      surrounding whitespace stripped. */
  function LastArgument(arguments: map<string, seq<string>>, name: string): Option<string> {
    if name in arguments && |arguments[name]| > 0 then Some(Strip(ReplaceControls(arguments[name][|arguments[name]| - 1])))
    else None
  }

  /** An argument's value is there exactly when the argument was given; it
      is the raw last value, control characters made spaces, cut down to a
      slice that neither starts nor ends with whitespace, and it is empty
      exactly when that raw value is all whitespace and control
      characters. */
  lemma LastArgumentProperties(arguments: map<string, seq<string>>, name: string)
    ensures var r := LastArgument(arguments, name);
      && (r.Some? <==> name in arguments && |arguments[name]| > 0)
      && (r.Some? ==> var raw := arguments[name][|arguments[name]| - 1];
            && (exists i, j :: Trims(ReplaceControls(raw), i, j) && r.value == ReplaceControls(raw)[i..j])
            && (r.value == "" <==> forall k :: 0 <= k < |raw| ==> IsSpace(raw[k]) || IsRemovedControl(raw[k])))
  {
    if name in arguments && |arguments[name]| > 0 {
      var raw := arguments[name][|arguments[name]| - 1];
      var cleaned := ReplaceControls(raw);
      StripProperties(cleaned);
      assert forall k :: 0 <= k < |raw| ==> (IsSpace(cleaned[k]) <==> IsSpace(raw[k]) || IsRemovedControl(raw[k]));
    }
  }

  const ErrorTemplate := "internal_error.html"
  const FormfactorArgument := "formfactor"
  const DefaultFormfactor := "desktop"

  /** How the API-key wrapper answered: the request passed, a failure was
      rendered by `build_response`, a taxonomy failure was rendered as the
      error page of the request's form factor, or looking up the form factor
      raised `KeyError` while handling the failure. */
  datatype Handling =
    | Passed
    | Responded(f: Failure)
    | RenderedPage(f: Failure, template: string, errorMessage: Value)
    | HandlerRaised(f: Failure, escaped: Failure)

  /** The authorization part of the API-key wrapper. */
  function ApiKeyGate(request: Request, token: Option<Token>, keyName: string,
                      lookup: string -> Result<Value, Failure>, wrapped: Wrapped): Gate
  {
    var key := LastArgument(request.arguments, keyName);
    if key.None? || key.value == "" then Rejection(None, None, Raise(Unauthorized, "Missing api_key"))
    else
      match lookup(key.value)
      case Err(f) => Rejection(None, None, f)
      case Ok(subscription) =>
        if !Truthy(subscription) then Rejection(None, None, Raise(Unauthorized, "Invalid client_id query parameter."))
        else
          match ContextFrom(Header(request, RequestIdHeader), token)
          case Err(f) => Rejection(None, None, f)
          case Ok(c) => Gate(None, Some(c), false, true, if wrapped.WrappedRaised? then Some(wrapped.f) else None)
  }

  /** How a failure of the API-key wrapper is answered. */
  function ApiKeyHandling(request: Request, failure: Option<Failure>, renderResponse: bool,
                          folders: map<string, string>): Handling
  {
    match failure
    case None => Passed
    case Some(f) =>
      if f.Typed? && renderResponse then
        var formfactor := LastArgumentOr(request.arguments, FormfactorArgument, DefaultFormfactor);
        if formfactor in folders then RenderedPage(f, folders[formfactor] + "/" + ErrorTemplate, Message(f.error))
        else HandlerRaised(f, UnknownFormfactor(formfactor, FormfactorArgument in request.arguments && |request.arguments[FormfactorArgument]| > 0))
      else Responded(f)
  }

  /** The `KeyError` of looking up a form factor without a templates
      folder. A form factor the request gave is the unicode string Tornado
      decoded, so the text is its Python 2 repr `u'...'`; the default
      `'desktop'` is a plain `str` literal and has no `u`. */
  function UnknownFormfactor(formfactor: string, given: bool): Failure {
    if given then KeyError("u'" + formfactor + "'") else KeyError("'" + formfactor + "'")
  }

  /** `get_argument(name, default)`. */
  function LastArgumentOr(arguments: map<string, seq<string>>, name: string, default: string): string {
    var v := LastArgument(arguments, name);
    if v.Some? then v.value else default
  }

  /** The decorated coroutine runs exactly when the key argument is given
      and non-empty, the lookup finds a subscription for it and the context
      builds; a missing key and an unknown one are rejected as
      `Unauthorized`. */
  lemma ApiKeyRunsIffSubscribed(request: Request, token: Option<Token>, keyName: string,
                                lookup: string -> Result<Value, Failure>, wrapped: Wrapped)
    ensures var g := ApiKeyGate(request, token, keyName, lookup, wrapped);
      var key := LastArgument(request.arguments, keyName);
      && (g.ran <==> key.Some? && key.value != "" && lookup(key.value).Ok? && Truthy(lookup(key.value).value)
                     && ContextFrom(Header(request, RequestIdHeader), token).Ok?)
      && (g.ran ==> g.context == Some(ContextFrom(Header(request, RequestIdHeader), token).value)
                    && (g.failure.None? <==> wrapped == Completed))
      && (!g.ran ==> g.failure.Some? && g.context.None?)
      && (key.None? || key.value == "" ==> g.failure == Some(Raise(Unauthorized, "Missing api_key")))
      && (key.Some? && key.value != "" && lookup(key.value).Ok? && !Truthy(lookup(key.value).value) ==>
            g.failure == Some(Raise(Unauthorized, "Invalid client_id query parameter.")))
      && g.token.None?
  {
  }

  /** A key argument whose last value is only whitespace and control
      characters strips to nothing and is rejected as a missing key. */
  lemma ApiKeyBlankKey(request: Request, token: Option<Token>, keyName: string,
                       lookup: string -> Result<Value, Failure>, wrapped: Wrapped)
    requires keyName in request.arguments && |request.arguments[keyName]| > 0
    requires var raw := request.arguments[keyName][|request.arguments[keyName]| - 1];
      forall k :: 0 <= k < |raw| ==> IsSpace(raw[k]) || IsRemovedControl(raw[k])
    ensures var g := ApiKeyGate(request, token, keyName, lookup, wrapped);
      !g.ran && g.failure == Some(Raise(Unauthorized, "Missing api_key"))
  {
    LastArgumentProperties(request.arguments, keyName);
  }

  /** Only taxonomy failures are rendered as a page, and only when asked
      to: the page is the error template in the folder of the request's
      stripped form factor (`desktop` when none is given) and shows the
      exception's message; a form factor without a folder makes the
      handler raise `KeyError` for it instead, a unicode key when the
      request gave it and the plain `'desktop'` otherwise. */
  lemma ApiKeyRendering(request: Request, f: Failure, renderResponse: bool, folders: map<string, string>)
    ensures var r := ApiKeyHandling(request, Some(f), renderResponse, folders);
      var ff := LastArgumentOr(request.arguments, FormfactorArgument, DefaultFormfactor);
      && (FormfactorArgument !in request.arguments ==> ff == DefaultFormfactor)
      && (!(f.Typed? && renderResponse) ==> r == Responded(f))
      && (f.Typed? && renderResponse && ff in folders ==>
            r == RenderedPage(f, folders[ff] + "/" + ErrorTemplate, Message(f.error)))
      && (f.Typed? && renderResponse && ff !in folders && LastArgument(request.arguments, FormfactorArgument).Some? ==>
            r == HandlerRaised(f, KeyError("u'" + ff + "'")))
      && (f.Typed? && renderResponse && ff !in folders && LastArgument(request.arguments, FormfactorArgument).None? ==>
            r == HandlerRaised(f, KeyError("'" + DefaultFormfactor + "'")))
      && (r.RenderedPage? ==> f.Typed? && renderResponse)
  {
  }

  /** `api_key_authorization`: the wrapper around a handler verb. It
      returns how the request was answered. `render(template, message)` is
      the page Tornado's template engine produces; `render` writes it and
      finishes the response. */
  method ApiKeyAuthorization(h: Handler, keyName: string, renderResponse: bool,
                             lookup: string -> Result<Value, Failure>, folders: map<string, string>,
                             render: (string, Value) -> string, wrapped: Wrapped, traceLine: string)
    returns (handling: Handling)
    modifies h`context, h`status, h`headers, h`chunks, h`finished
    ensures var g := ApiKeyGate(h.request, h.token, keyName, lookup, wrapped);
      && handling == ApiKeyHandling(h.request, g.failure, renderResponse, folders)
      && h.context == (if g.context.Some? then g.context else old(h.context))
      && (handling.Passed? || handling.HandlerRaised? ==> h.Snapshot() == old(h.Snapshot()))
      && (handling.RenderedPage? ==>
            h.Snapshot() == old(h.Snapshot()).(chunks := old(h.chunks) + [Raw(Str(render(handling.template, handling.errorMessage)))],
                                               finished := true))
      && (handling.Responded? ==>
            h.Snapshot() == AfterBuild(old(h.Snapshot()), h.request.verb, h.requestId, true, Raised(handling.f), None, traceLine))
  {
    var g := DecideApiKey(h.request, h.token, keyName, lookup, wrapped);
    if g.context.Some? {
      h.context := g.context;
    }
    var failure := g.failure;
    handling := ApiKeyHandling(h.request, failure, renderResponse, folders);
    match handling {
      case Passed =>
      case Responded(f) =>
        h.BuildResponseInternal(true, Raised(f), None, traceLine);
      case RenderedPage(_, template, errorMessage) =>
        h.Write(Raw(Str(render(template, errorMessage))));
        h.finished := true;
      case HandlerRaised(_, _) =>
    }
  }

  /** The checks of the API-key wrapper and the decorated coroutine. */
  method DecideApiKey(request: Request, token: Option<Token>, keyName: string,
                      lookup: string -> Result<Value, Failure>, wrapped: Wrapped)
    returns (g: Gate)
    ensures g == ApiKeyGate(request, token, keyName, lookup, wrapped)
  {
    var key := LastArgument(request.arguments, keyName);
    if key.None? || key.value == "" {
      return Rejection(None, None, Raise(Unauthorized, "Missing api_key"));
    }
    var found := lookup(key.value);
    if found.Err? {
      return Rejection(None, None, found.error);
    }
    if !Truthy(found.value) {
      return Rejection(None, None, Raise(Unauthorized, "Invalid client_id query parameter."));
    }
    var c, contextError := NewContext(Header(request, RequestIdHeader), token);
    if contextError.Some? {
      return Rejection(None, None, contextError.value);
    }
    g := Gate(None, Some(c.Data()), false, true, if wrapped.WrappedRaised? then Some(wrapped.f) else None);
  }
}
