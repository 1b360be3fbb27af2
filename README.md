# A verified model of the Tornado service core

This project models the request pipeline and the data utilities of a small
Tornado web service, from luafran/tornado-service, in Dafny. Every operation
the service performs on a request is stated here over values:

- the exception taxonomy and how each kind of failure renders as an HTTP
  status and body;
- the response funnel `_build_response_internal`;
- request validation (`process_headers`, `process_query`, `process_body`)
  and the `options` verb;
- the per-request `Context`;
- the `retry` decorator with exponential backoff;
- the OAuth2 and API-key authorization wrappers;
- the `/health` resource and the health monitor's severity fold;
- the request-scoped `Support` logger with its message queue;
- the resource normaliser;
- `DotNotationDict` and `BidirectionalDict`;
- the key-value adapter with its extension hooks;
- the REST client's URL and header assembly;
- the two settings loaders.

Python exceptions are the datatype `Exceptions.Failure`. A raised exception
is an `Err` value or an `Option<Failure>` result.

Everything the service obtains from outside is a parameter of the operation
that uses it:

- the HTTP client, token verification, the policy service and the
  subscription lookup;
- module imports, `os.environ` and the installed version;
- the last traceback line and `urlencode`.

`json.dumps` is not re-implemented: `Json.Payload.Encoded(doc)` stands for
the JSON text of `doc`.

One module per source file:

| module | file |
|---|---|
| `Exceptions` | `exceptions.dfy` |
| `BaseHandler` | `base_handler.dfy` |
| `Decorators` | `decorators.dfy` |
| `HealthMonitor` | `health_monitor.dfy` |
| `HealthHandler` | `health_handler.dfy` |
| `Support` | `support.dfy` |
| `ResourceNormalizer` | `resource_normalizer.dfy` |
| `Dictionaries` | `dictionaries.dfy` |
| `KeyValueAdapter` | `keyvalue_adapter.dfy` |
| `RestAdapter` | `rest_adapter.dfy` |
| `CommonSettingsLoader` | `settings_common.dfy` |
| `SettingsLoader` | `settings_loader.dfy` |

Three shared modules support them:

- `Wrappers`: Option and Result.
- `Json`: JSON-like values and Python truthiness.
- `Strings`: Python's `split`, `join`, `rstrip`, `strip`, `lower`, `upper` and `title`, and Tornado's control-character replacement.

State that the source changes in place is kept as class fields updated by
methods:

- the handler's response state (`BaseHandler.Handler`);
- `Context`;
- `Support`;
- `DotNotationDict` and `BidirectionalDict`;
- the key-value `Adapter`;
- the settings `Loader`s.

Each such method is proved against a function of the old state. The loops of
the source stay loops: the retry loop, the header and query loops, the
options list, the plugin loop, the queue drain, the normaliser's loops, the
extension filter and the settings import and lookup loops.

## Model

| member | source | states |
|---|---|---|
| Exceptions.Parent | common_pkg/prjname/common/exceptions.py:13-372 | The class hierarchy: `InfoException` alone has no parent, every parent is one level higher, and depth-one classes hang directly below `InfoException` |
| Exceptions.FamilyMembership | common_pkg/prjname/common/exceptions.py:50-372 | A concrete class is a subclass of a family base exactly when that base is its family, so families are disjoint; every concrete class is an `InfoException` |
| Exceptions.Superclasses | common_pkg/prjname/common/exceptions.py:35-372 | The superclasses of each class: itself, its parent and `InfoException`, and nothing else; so `GeneralInfoException` is in no family |
| Exceptions.DepthOneSubclass | common_pkg/prjname/common/exceptions.py:35-298 | A direct child of `InfoException` is a subclass only of itself and `InfoException` |
| Exceptions.ParentIsFamily | common_pkg/prjname/common/exceptions.py:61-372 | The parent of every concrete class below a base is that class's family base |
| Exceptions.MessagesAgreeExceptGeneral | common_pkg/prjname/common/exceptions.py:41-372 | Developer and user messages agree for every class except `GeneralInfoException` ('Exception occurred' / 'Service error') |
| Exceptions.New | common_pkg/prjname/common/exceptions.py:41-47 | A constructor builds an exception of the class asked for |
| Exceptions.EnvelopeShape | common_pkg/prjname/common/exceptions.py:67-71 | The info dict has exactly the keys developer_message, user_message and context, never more_info, holding the two messages and the caller's context unchanged |
| Exceptions.FromInfo | common_pkg/prjname/common/exceptions.py:20-22 | The base-class constructor, over the info dict; its contract is BaseConstructorContract |
| Exceptions.BaseConstructorContract | common_pkg/prjname/common/exceptions.py:20-32 | `InfoException(info)` succeeds exactly when info has a context key, otherwise raises `KeyError('context')`; it keeps info as given, so `information()` is info and `str(ex)` its JSON text, and the argument and `ex.message` are `info['context']` |
| Exceptions.ConstructorContract | common_pkg/prjname/common/exceptions.py:20-47 | For every concrete class: the info dict's keys and messages, no more_info, `information()` is that dict, the argument and `ex.message` are the context, `str(ex)` is its JSON text |
| Exceptions.EnvelopeRoundTrip | common_pkg/prjname/common/exceptions.py:31-32 | Reading the three fields back from `str(ex)`'s document gives the messages and the context the exception was built with |
| Exceptions.EnvelopeDetermined | common_pkg/prjname/common/exceptions.py:31-32 | A document read back as a class's envelope is exactly the one that class's constructor writes for that context |
| Exceptions.EnvelopeFields | common_pkg/prjname/common/exceptions.py:7-10 | A document with the three envelope fields and no others is determined by them |
| Exceptions.Raise | common_pkg/prjname/common/exceptions.py:61-372 | Raising a class with a context string gives a well-formed exception of that class whose argument is the string |
| BaseHandler.QuoteAll | prjname/common/tornado/handlers/base.py:134-135 | The repr of a list writes each name between single quotes, one for one and in order |
| BaseHandler.HandledFamilyRendering | prjname/common/tornado/handlers/base.py:233-250 | A member of the BadRequest, Unauthorized, Forbidden, NotFound, Permanent or Temporary family renders 400, 401, 403, 404, 500 or 503 with `str(ex)` as body |
| BaseHandler.UnhandledTypedRendering | prjname/common/tornado/handlers/base.py:257-262 | `MethodNotAllowed` and `GeneralInfoException` fall to the catch-all: 500 with a fresh general exception whose context is the traceback line |
| BaseHandler.NoFamilyResponse | prjname/common/tornado/handlers/base.py:233-250 | None of the six family tests matches `MethodNotAllowed` or `GeneralInfoException` |
| BaseHandler.OutsideHandledFamilies | prjname/common/tornado/handlers/base.py:233-250 | `MethodNotAllowed` and `GeneralInfoException` are subclasses of none of the six handled bases |
| BaseHandler.GeneralDocumentEnvelope | prjname/common/tornado/handlers/base.py:259-262 | The catch-all body is the general exception's envelope with the traceback line as context |
| BaseHandler.ExceptionResponse | prjname/common/tornado/handlers/base.py:229-264 | The status and body for each kind of exception; HandledFamilyRendering, UnhandledTypedRendering and UntypedRendering state the mapping |
| BaseHandler.UntypedRendering | prjname/common/tornado/handlers/base.py:251-262 | Tornado HTTP errors keep their own code with a `{"message": ..}` body; every other Python exception renders 500 with the catch-all body |
| BaseHandler.SuccessResponse | prjname/common/tornado/handlers/base.py:203-219 | GET 200, POST 201, PUT 204, DELETE 200 unless a status is given, other verbs keep the status; a body is written for GET and POST only, formatted when asked |
| BaseHandler.FailureResponse | prjname/common/tornado/handlers/base.py:199-201 | On an exception the mapping decides status and body whatever the verb, and a given status is ignored |
| BaseHandler.RequestIdEcho | prjname/common/tornado/handlers/base.py:221-222 | The request-id header is set exactly when the request carried a non-empty one, and left alone otherwise |
| BaseHandler.ContentTypeRule | prjname/common/tornado/handlers/base.py:196-197 | Content-Type is application/json when formatting is applied, except where Tornado's `write` of a dict labels it itself; without formatting only such a write changes it |
| BaseHandler.AfterBuild | prjname/common/tornado/handlers/base.py:191-227 | The response funnel over the response state; SuccessResponse, FailureResponse, RequestIdEcho and ContentTypeRule state what it does |
| BaseHandler.StrList | prjname/common/tornado/handlers/base.py:321 | The products list holds the split parts, one for one |
| BaseHandler.ContextFrom | prjname/common/tornado/handlers/base.py:296-322 | The context `Context(request)` builds, or the error of a non-string products claim; ContextWithoutToken and ContextWithToken state its fields |
| BaseHandler.ContextWithoutToken | prjname/common/tornado/handlers/base.py:300-311 | Without a token every claim and `products` is None |
| BaseHandler.ContextWithToken | prjname/common/tornado/handlers/base.py:313-322 | With a token the claims are copied (None when missing), `products` is the comma split of the claim or [] when it is missing or empty (and joins back to the claim), and the token is None exactly when the raw token is empty |
| BaseHandler.Context.constructor | prjname/common/tornado/handlers/base.py:296-308 | A fresh context has every claim None and the request's request id |
| BaseHandler.Context.UpdateFromToken | prjname/common/tornado/handlers/base.py:313-322 | The fields assigned one by one end as the context function gives, or the error of a non-string products claim |
| BaseHandler.NewContext | prjname/common/tornado/handlers/base.py:296-311 | `Context(request)` is the context of the request's token, or the error building it raises |
| BaseHandler.Owner | prjname/common/tornado/handlers/base.py:324-332 | `get_owner` is a dict with one `owner` key holding applicationId, userId, memberId and deviceId |
| BaseHandler.OwnerOfToken | prjname/common/tornado/handlers/base.py:324-332 | The owner fields are the token's client, account, member and device claims, all None without a token |
| BaseHandler.Initialize | prjname/common/tornado/handlers/base.py:38-63 | A missing or empty `MFS_ENV` raises `GeneralInfoException`; otherwise the session holds the environment and the request id header, and the resource name is exactly `<service>_<handler>`, `<service>_` without a handler, with `None` for an unset service name |
| BaseHandler.Missing | prjname/common/tornado/handlers/base.py:126-131 | The required headers absent from the request, in order; MissingMembership and MissingConcat state it |
| BaseHandler.HeadersVerdict | prjname/common/tornado/handlers/base.py:109-137 | The verdict of `process_headers`; HeadersVerdictIff and MissingContentType state it |
| BaseHandler.MissingMembership | prjname/common/tornado/handlers/base.py:126-131 | A header is listed missing exactly when it is required and absent |
| BaseHandler.MissingConcat | prjname/common/tornado/handlers/base.py:126-131 | The missing list keeps the order of the required list |
| BaseHandler.HeadersVerdictIff | prjname/common/tornado/handlers/base.py:116-135 | `process_headers` raises exactly when some required header is absent, and POST and PUT require Content-Type |
| BaseHandler.PrepareRejects | prjname/common/tornado/handlers/base.py:65-99 | `prepare` rejects exactly a POST or PUT that lacks Content-Type, or whose Content-Type is JSON and whose body does not decode |
| BaseHandler.MissingContentType | prjname/common/tornado/handlers/base.py:133-135 | A POST or PUT without Content-Type raises `MissingArgumentValue` with "these headers are required: ['Content-Type']" |
| BaseHandler.ContentTypeRepr | prjname/common/tornado/handlers/base.py:134-135 | The repr of the list holding only Content-Type is `['Content-Type']` |
| BaseHandler.Names | prjname/common/tornado/handlers/base.py:19-21 | Verb names, one for one |
| BaseHandler.AllowedFromNames | prjname/common/tornado/handlers/base.py:269-285 | The announced names are the names of the overridden verbs in order |
| BaseHandler.OverriddenProperties | prjname/common/tornado/handlers/base.py:269-285 | Filtering keeps exactly the overridden verbs and keeps the fixed order |
| BaseHandler.AllowedMethodsProperties | prjname/common/tornado/handlers/base.py:266-288 | The allowed methods are OPTIONS then exactly the overridden verbs, each once, in the order GET, POST, PUT, DELETE, HEAD, PATCH |
| BaseHandler.AllowedFromConcat | prjname/common/tornado/handlers/base.py:269-285 | The filter distributes over concatenation |
| BaseHandler.Handler.constructor | prjname/common/tornado/handlers/base.py:101-107 | A fresh handler has status 200, the default headers, nothing written, no token or context, the request's arguments as string lists and its raw query |
| BaseHandler.Handler.BuildResponseInternal | prjname/common/tornado/handlers/base.py:191-227 | The response state afterwards is the funnel's function of the old state |
| BaseHandler.Handler.Write | prjname/common/tornado/handlers/base.py:201 | `write` appends the chunk; a dict also sets Tornado's JSON content type |
| BaseHandler.Handler.ProcessHeaders | prjname/common/tornado/handlers/base.py:109-137 | The extended required list (Content-Type appended for POST and PUT) and the verdict listing every missing header in order |
| BaseHandler.Handler.ProcessQuery | prjname/common/tornado/handlers/base.py:139-151 | Raises `InvalidArgument` exactly when the supported list is non-empty and some parameter is outside it, naming each such parameter once |
| BaseHandler.Handler.ProcessBody | prjname/common/tornado/handlers/base.py:153-177 | POST and PUT decode a JSON body (an undecodable one raises `InvalidArgument`) or keep the form arguments; other verbs have no body; a failure leaves the body arguments alone |
| BaseHandler.Handler.Prepare | prjname/common/tornado/handlers/base.py:65-99 | The first validation error is reported and rendered by `build_response`; otherwise nothing is written |
| BaseHandler.Handler.Options | prjname/common/tornado/handlers/base.py:266-288 | The Allow-Methods header is the allowed list joined by ', ' and nothing else changes |
| Decorators.RetryShape | common_pkg/prjname/common/tornado/handlers/decorators.py:158-172 | At least one call and at most max(tries, 1); one sleep between calls, the k-th of `delay*backoff^k`; the caller gets the last call's outcome; every earlier outcome was caught; stopping early means an uncaught outcome |
| Decorators.PowStep | common_pkg/prjname/common/tornado/handlers/decorators.py:169 | Multiplying the delay by the backoff raises the exponent by one |
| Decorators.RetryLoop | common_pkg/prjname/common/tornado/handlers/decorators.py:158-172 | The calls and sleeps of the retry loop; RetryShape and SingleTry state them |
| Decorators.SingleTry | common_pkg/prjname/common/tornado/handlers/decorators.py:161-172 | With at most one try, there is one unguarded call and no sleep |
| Decorators.Retry | common_pkg/prjname/common/tornado/handlers/decorators.py:153-172 | The loop's result, call count and sleeps are those of the retry function |
| Decorators.RetryRepeatsSuccess | common_pkg/prjname/common/tornado/handlers/decorators.py:162-165 | As written, catching `Exception` also catches the `gen.Return` of a success: three tries of an always-successful call make three calls and sleep 3 and 6 |
| Decorators.RetryIntended | common_pkg/prjname/common/tornado/handlers/decorators.py:158-172 | Retry as intended: every call but the last failed with a retryable error, and stopping before the tries run out means success or a non-retryable error |
| Decorators.IntendedSuccessRunsOnce | common_pkg/prjname/common/tornado/handlers/decorators.py:162-164 | As intended, a first-call success returns at once, with one call and no sleep |
| Decorators.OAuthGate | common_pkg/prjname/common/tornado/handlers/decorators.py:25-80 | The OAuth2 wrapper decided on the request; OAuthRunsIffAuthorized and the OAuth lemmas below state it |
| Decorators.VerifiedGate | common_pkg/prjname/common/tornado/handlers/decorators.py:34-58 | The wrapper once the token verified; stated through OAuthRunsIffAuthorized and OAuthMissingClientId |
| Decorators.ContextGate | common_pkg/prjname/common/tornado/handlers/decorators.py:44-74 | The wrapper once the context is attached; ContextGateProperties states it |
| Decorators.ContextGateProperties | common_pkg/prjname/common/tornado/handlers/decorators.py:56-74 | Once the context is built, policies are enforced exactly when the environment is readable, the token names a client, enforcement is on and products are non-empty; the function runs exactly when those checks and any enforced policy pass; an enforced violation is `Forbidden(message)` |
| Decorators.OAuthRunsIffAuthorized | common_pkg/prjname/common/tornado/handlers/decorators.py:25-74 | The protected function runs exactly for an authenticated request whose enforced policies allow it; policies are enforced exactly when enforcement is on and the token grants products; any other outcome reports a failure |
| Decorators.OAuthMissingHeader | common_pkg/prjname/common/tornado/handlers/decorators.py:26-29 | A missing or empty Authorization header is `Unauthorized('Authorization header is missing')`, rendered 401 |
| Decorators.OAuthWrongScheme | common_pkg/prjname/common/tornado/handlers/decorators.py:30-32 | A header without 'Bearer ' is `Unauthorized('Invalid token type ...')`, rendered 401 |
| Decorators.OAuthInvalidToken | common_pkg/prjname/common/tornado/handlers/decorators.py:34-54 | With a bearer header, a token the verifier rejects or whose verification raises `TypeError` is `Unauthorized('Invalid token')`, rendered 401, with no token or context attached and the function not run; any other exception of the verifier is reported unchanged |
| Decorators.OAuthMissingClientId | common_pkg/prjname/common/tornado/handlers/decorators.py:39-58 | Once the token verifies and the context builds, an unreadable `mfs_environment` reports `AttributeError`, and a payload without `client_id` is `Unauthorized('Invalid token: missing client_id on payload.')`, rendered 401; the token and context stay attached and the function does not run |
| Decorators.OAuthPolicyViolation | common_pkg/prjname/common/tornado/handlers/decorators.py:69-72 | An enforced policy violation is `Forbidden` with the enforcer's message, rendered 403 |
| Decorators.ForbiddenStatus | prjname/common/tornado/handlers/base.py:239-241 | A `Forbidden` renders 403 with its envelope |
| Decorators.UnauthorizedStatus | prjname/common/tornado/handlers/base.py:236-238 | An `Unauthorized` renders 401 with its envelope |
| Decorators.DecideOAuth | common_pkg/prjname/common/tornado/handlers/decorators.py:25-74 | The wrapper's steps in source order give the OAuth gate |
| Decorators.DecideVerified | common_pkg/prjname/common/tornado/handlers/decorators.py:39-74 | The steps after verification give the verified gate |
| Decorators.ApplyGate | common_pkg/prjname/common/tornado/handlers/decorators.py:75-80 | The token and context are attached, and a failure is rendered by `build_response` |
| Decorators.OAuth2Authorization | common_pkg/prjname/common/tornado/handlers/decorators.py:20-87 | Whether the function ran, what was notified, and the handler state are those of the OAuth gate |
| Decorators.LastArgument | common_pkg/prjname/common/tornado/handlers/decorators.py:97 | `get_argument`; its contract is LastArgumentProperties |
| Decorators.LastArgumentProperties | common_pkg/prjname/common/tornado/handlers/decorators.py:97 | A value is there exactly when the argument was given; it is the last raw value with Tornado's control characters made spaces, cut to a slice with only whitespace cut away and none left at either end, and empty exactly when the raw value is all whitespace and control characters |
| Decorators.ApiKeyGate | common_pkg/prjname/common/tornado/handlers/decorators.py:96-112 | The API-key checks; ApiKeyRunsIffSubscribed and ApiKeyBlankKey state them |
| Decorators.ApiKeyHandling | common_pkg/prjname/common/tornado/handlers/decorators.py:113-127 | How a failure of the API-key wrapper is answered; ApiKeyRendering states it |
| Decorators.ApiKeyRunsIffSubscribed | common_pkg/prjname/common/tornado/handlers/decorators.py:96-112 | The function runs exactly when the stripped key is non-empty, has a truthy subscription and the context builds; a missing or empty key is `Unauthorized('Missing api_key')`, an unknown one `Unauthorized('Invalid client_id query parameter.')` |
| Decorators.ApiKeyBlankKey | common_pkg/prjname/common/tornado/handlers/decorators.py:97-100 | A key whose last value is only whitespace and control characters is rejected as `Unauthorized('Missing api_key')` and the function does not run |
| Decorators.ApiKeyRendering | common_pkg/prjname/common/tornado/handlers/decorators.py:113-127 | Only taxonomy failures are rendered as a page, and only when asked to; the page is `<folder>/internal_error.html` for the folder of the stripped form factor (desktop when none is given), showing `ex.message`; a form factor without a folder makes the handler raise `KeyError` for it, `u'<formfactor>'` when the request gave it and `'desktop'` for the default |
| Decorators.ApiKeyAuthorization | common_pkg/prjname/common/tornado/handlers/decorators.py:91-132 | The answer and the handler state follow the API-key gate and its failure handling; a rendered page is written as the response body and the response is finished |
| Decorators.DecideApiKey | common_pkg/prjname/common/tornado/handlers/decorators.py:96-112 | The wrapper's steps give the API-key gate |
| HealthMonitor.WorstIsMaximum | common_pkg/prjname/common/health/health_monitor.py:18-25 | The overall health is the maximum plugin severity, OK when there are none |
| HealthMonitor.Worst | common_pkg/prjname/common/health/health_monitor.py:18-25 | The severity fold; WorstIsMaximum states it |
| HealthMonitor.Statuses | common_pkg/prjname/common/health/health_monitor.py:25 | The plugin statuses, in plugin order |
| HealthMonitor.CollectedProperties | common_pkg/prjname/common/health/health_monitor.py:21-25 | Every plugin answering gives their reports in order; otherwise the first exception raised is the result |
| HealthMonitor.Collected | common_pkg/prjname/common/health/health_monitor.py:21-25 | The plugin reports, or the first exception; CollectedProperties and CollectedPrefixError state it |
| HealthMonitor.StatusOf | common_pkg/prjname/common/health/health_monitor.py:16-39 | The monitor's status; StatusListShape states it |
| HealthMonitor.StatusListShape | common_pkg/prjname/common/health/health_monitor.py:27-39 | The list is empty without details; with details it is the systemHealth entry for the worst severity, then the plugin statuses in order; the version is returned |
| HealthMonitor.GetStatus | common_pkg/prjname/common/health/health_monitor.py:16-39 | The plugin loop gives the monitor's status function |
| HealthMonitor.CollectedPrefixError | common_pkg/prjname/common/health/health_monitor.py:21-22 | An exception from an earlier plugin ends the whole loop with it |
| HealthHandler.IncludeDetailsAccepted | common_pkg/prjname/common/tornado/handlers/health.py:57-69 | `include_details` is accepted exactly when its first value is 'true' or 'false' in any case, and becomes that boolean; absent is fine; anything else raises `InvalidArgument` |
| HealthHandler.IncludeDetailsVerdict | common_pkg/prjname/common/tornado/handlers/health.py:57-69 | The `include_details` check; IncludeDetailsAccepted states it |
| HealthHandler.ProcessQuery | common_pkg/prjname/common/tornado/handlers/health.py:49-71 | An unsupported parameter or a bad `include_details` raises; otherwise `include_details` becomes its boolean and the arguments become the query |
| HealthHandler.HealthFailureRendering | common_pkg/prjname/common/tornado/handlers/health.py:82-84 | A failure is rendered through the family mapping whatever the verb |
| HealthHandler.HealthSuccessRendering | common_pkg/prjname/common/tornado/handlers/health.py:85-94 | A GET answers 200 unless a truthy status is given, with the `{"status": {health, info, version}}` text; other verbs write nothing |
| HealthHandler.MonitorFailure | common_pkg/prjname/common/tornado/handlers/health.py:30-45 | When the monitor fails, health is False, version None and the failure is the result |
| HealthHandler.MonitorSuccessWithoutDetails | common_pkg/prjname/common/tornado/handlers/health.py:30-45 | Without details the body reports the worst severity, an empty list and the version |
| HealthHandler.BuildHealthResponse | common_pkg/prjname/common/tornado/handlers/health.py:73-94 | The response state afterwards is the health response function of the old state |
| HealthHandler.WriteStatusAndBody | common_pkg/prjname/common/tornado/handlers/health.py:82-92 | Sets the status and writes the body when there is one |
| HealthHandler.Get | common_pkg/prjname/common/tornado/handlers/health.py:25-45 | The response is the one built from the monitor's outcome; a failure is reported with `notify_error('[Health Handler] error while getting health status')`, and a success notifies nothing |
| Support.InitialExtraProperties | prjname/common/utils/support.py:24-35 | The extra fields: requestId defaults to no-request-id only when absent, details start empty |
| Support.Drained | prjname/common/utils/support.py:45-51 | Draining logs every queued message, in queue order, with the current extra |
| Support.AfterNotify | prjname/common/utils/support.py:53-93 | The logger state after a notification; DrainingNotify, QueueingNotify and QueueStaysEmpty state it |
| Support.DrainingNotify | prjname/common/utils/support.py:53-69 | With full-request logging, an error or critical event logs the queue oldest first with the new details, then its own message, and empties the queue |
| Support.QueueingNotify | prjname/common/utils/support.py:71-93 | Warning, info and debug log at once, and queue the message exactly when the whole request is logged |
| Support.QueueStaysEmpty | prjname/common/utils/support.py:43 | Without full-request logging the queue stays empty |
| Support.DrainedConcat | prjname/common/utils/support.py:47-49 | Draining two queues in turn logs them in turn |
| Support.Support.constructor | prjname/common/utils/support.py:16-43 | Full-request logging is on exactly for CRITICAL and ERROR; the extra is the initial one; queue and log are empty |
| Support.Support.LogEntireRequest | prjname/common/utils/support.py:45-51 | The queue ends empty and the log gains the drained entries |
| Support.Support.Notify | prjname/common/utils/support.py:53-93 | The state afterwards is the notification function of the old state |
| ResourceNormalizer.Segments | prjname/common/utils/resource_normalizer.py:131 | A path splits into at least one segment |
| ResourceNormalizer.GetPathConcat | prjname/common/utils/resource_normalizer.py:151-152 | The getter's walk composes over a split path |
| ResourceNormalizer.GetPathCases | prjname/common/utils/resource_normalizer.py:148-156 | A present path gives the nested value; a missing key continues the walk from the default; a non-dict is returned as is |
| ResourceNormalizer.GetPath | prjname/common/utils/resource_normalizer.py:148-156 | The getter's walk; GetPathCases and GetPathConcat state it |
| ResourceNormalizer.GetResourceValue | prjname/common/utils/resource_normalizer.py:140-156 | The getter's loop gives the walk over the segments |
| ResourceNormalizer.SetPathProperties | prjname/common/utils/resource_normalizer.py:131-137 | After a set the path holds the value and reads back as it; the top level gains only the first segment, and its other keys are unchanged |
| ResourceNormalizer.SetPathFails | prjname/common/utils/resource_normalizer.py:133-137 | A set fails exactly when an intermediate segment is missing or is not a dict |
| ResourceNormalizer.SetPath | prjname/common/utils/resource_normalizer.py:131-137 | The setter; SetPathProperties, SetPathFails and SetPathErrorKinds state it |
| ResourceNormalizer.SetPathErrorKinds | prjname/common/utils/resource_normalizer.py:131-137 | A failed set raises only `KeyError` or `TypeError`, and a resource that is not a dict always raises `TypeError` |
| ResourceNormalizer.SetPathThroughString | prjname/common/utils/resource_normalizer.py:134-137 | Assigning into a string raises `TypeError("'unicode' object does not support item assignment")`, and indexing through one `TypeError("string indices must be integers")` |
| ResourceNormalizer.SetPathThroughInt | prjname/common/utils/resource_normalizer.py:137 | Indexing through an integer raises `TypeError("'int' object has no attribute '__getitem__'")` |
| ResourceNormalizer.CollectKwArgs | prjname/common/utils/resource_normalizer.py:104-107 | The keyword arguments hold each path's value under its last segment, later paths overwriting earlier ones |
| ResourceNormalizer.Normalize | prjname/common/utils/resource_normalizer.py:93-120 | `_normalize` gives the rule-application function |
| ResourceNormalizer.KwArgsNames | prjname/common/utils/resource_normalizer.py:105-107 | The keyword names are exactly the last segments, and the last path's name holds the last path's value |
| ResourceNormalizer.TwoMembers | prjname/common/utils/resource_normalizer.py:114 | A set has more than one member exactly when two different members exist |
| ResourceNormalizer.DistinctArgNames | prjname/common/utils/resource_normalizer.py:114 | There are more than one keyword names exactly when two paths end in different segments |
| ResourceNormalizer.NormalizeTooManyArgs | prjname/common/utils/resource_normalizer.py:114-116 | Without execute, `InvalidArgument` is raised exactly when two paths end in different segments |
| ResourceNormalizer.NormalizeNoArgs | prjname/common/utils/resource_normalizer.py:118 | Without execute and without arguments, `popitem` raises `KeyError` |
| ResourceNormalizer.NormalizeOneName | prjname/common/utils/resource_normalizer.py:117-118 | Without execute and with one name, the rule gives the last path's value, with the default substituted on a miss |
| ResourceNormalizer.NormalizeWithExecute | prjname/common/utils/resource_normalizer.py:105-113 | With execute, missing paths are passed as None, and a raising execute gives the default |
| ResourceNormalizer.NormalizeSpec | prjname/common/utils/resource_normalizer.py:93-120 | One rule applied to a resource; the Normalize lemmas above state it |
| ResourceNormalizer.BuildKeys | prjname/common/utils/resource_normalizer.py:50-64 | A normalised resource has exactly one top-level key per first segment of a rule path |
| ResourceNormalizer.BuildPlainPath | prjname/common/utils/resource_normalizer.py:52-62 | A plain rule path not overwritten later holds its rule's value, a nested rules dict giving the same resource normalised by it |
| ResourceNormalizer.UntouchedKey | prjname/common/utils/resource_normalizer.py:52-62 | A key no rule path starts with keeps its value |
| ResourceNormalizer.Build | prjname/common/utils/resource_normalizer.py:50-64 | The rule loop over a resource; BuildKeys, BuildPlainPath and UntouchedKey state it |
| ResourceNormalizer.BuildEntries | prjname/common/utils/resource_normalizer.py:50-64 | The rule loop gives the build function |
| ResourceNormalizer.RuleValue | prjname/common/utils/resource_normalizer.py:53-58 | A nested rules dict is normalised recursively, a rule by `_normalize` |
| ResourceNormalizer.NormalizeResource | prjname/common/utils/resource_normalizer.py:42-64 | `normalize_resource` gives the tree value of the rules |
| ResourceNormalizer.NormalizeAllElementwise | prjname/common/utils/resource_normalizer.py:32-39 | A list normalises to one resource per resource, in order, or fails with the first failure |
| ResourceNormalizer.NormalizeAll | prjname/common/utils/resource_normalizer.py:32-39 | A list normalised element by element; NormalizeAllElementwise states it |
| ResourceNormalizer.NormalizeResources | prjname/common/utils/resource_normalizer.py:24-39 | The list loop gives the elementwise function |
| ResourceNormalizer.NormalizeResponse | prjname/common/utils/resource_normalizer.py:67-87 | No rules leaves the response unchanged, and no `KeyError` escapes |
| ResourceNormalizer.NormalizeResponseDispatch | prjname/common/utils/resource_normalizer.py:78-87 | A dict goes to `normalize_resource`, a list to `normalize_resources` (one result per element), and anything else raises `ValueError` naming its type; a `KeyError` on the way becomes `ValueError('Normalization error: ' + <the key's repr>)` and every other failure passes unchanged |
| Dictionaries.GetMissingPlainKey | common_pkg/prjname/common/utils/dictionaries.py:19-20 | A missing key without a dot reads as None |
| Dictionaries.GetMissingHead | common_pkg/prjname/common/utils/dictionaries.py:14-16 | A dotted key with a missing head raises `KeyError` for the head |
| Dictionaries.SetInEmptySucceeds | common_pkg/prjname/common/utils/dictionaries.py:23-37 | Any write into an empty dict succeeds |
| Dictionaries.SetThenGet | common_pkg/prjname/common/utils/dictionaries.py:12-37 | A successful write then a read of the same key gives the value, when no head on the way is None |
| Dictionaries.SetLeavesOtherKeys | common_pkg/prjname/common/utils/dictionaries.py:23-37 | After a write the head is present, and every other top-level key is as it was |
| Dictionaries.SetCreatesHead | common_pkg/prjname/common/utils/dictionaries.py:25-31 | A dotted write with a missing head creates the head as a dict |
| Dictionaries.SetBelowNoneIsLost | common_pkg/prjname/common/utils/dictionaries.py:30-31 | A write below a head holding None changes nothing |
| Dictionaries.GetIn | common_pkg/prjname/common/utils/dictionaries.py:12-21 | `__getitem__`; GetMissingPlainKey, GetMissingHead, SetThenGet, GetFailureIffNotNavigable and the GetBelow lemmas state it |
| Dictionaries.SetIn | common_pkg/prjname/common/utils/dictionaries.py:23-37 | `__setitem__`; SetInEmptySucceeds, SetThenGet, SetLeavesOtherKeys, SetCreatesHead, SetBelowNoneIsLost and SetSucceedsIffNavigable state it |
| Dictionaries.SetBelow | common_pkg/prjname/common/utils/dictionaries.py:30-34 | The dotted branch of `__setitem__` once the head is present |
| Dictionaries.SplitFirstAtSecond | common_pkg/prjname/common/utils/dictionaries.py:15 | A key whose second character is the first dot splits into its first character and everything after the dot |
| Dictionaries.ElementFailure | common_pkg/prjname/common/utils/dictionaries.py:10 | `dict()` fails on an element only with `TypeError` or `ValueError`, and a string element fails exactly when its length is not two |
| Dictionaries.PairsFailure | common_pkg/prjname/common/utils/dictionaries.py:10 | Converting a list fails only with `TypeError` or `ValueError`, and succeeds exactly when no element fails |
| Dictionaries.WrapFailure | common_pkg/prjname/common/utils/dictionaries.py:8-10 | `DotNotationDict(v)` of a value other than a dict or None fails only with `TypeError` or `ValueError`, and always fails for a boolean, an integer or a non-empty string |
| Dictionaries.GetBelowOther | common_pkg/prjname/common/utils/dictionaries.py:16-20 | Reading through a value other than a dict or None always fails, never with `KeyError` |
| Dictionaries.SetBelowOther | common_pkg/prjname/common/utils/dictionaries.py:24-36 | Writing through a value other than a dict or None fails, never with `KeyError` |
| Dictionaries.SetSucceedsIffNavigable | common_pkg/prjname/common/utils/dictionaries.py:8-37 | A write succeeds exactly when every head on its way is missing, None or a dict; otherwise it fails, never with `KeyError` |
| Dictionaries.GetFailureIffNotNavigable | common_pkg/prjname/common/utils/dictionaries.py:8-21 | A read through missing heads, None and dicts only fails with `KeyError`; a read through any other value always fails, and not with `KeyError` |
| Dictionaries.GetBelowHead | common_pkg/prjname/common/utils/dictionaries.py:14-18 | `{'a': v}['a.b']` reads below `v` |
| Dictionaries.GetBelowInt | common_pkg/prjname/common/utils/dictionaries.py:18 | `{'a': 5}['a.b']` raises `TypeError("'int' object is not iterable")` |
| Dictionaries.GetBelowString | common_pkg/prjname/common/utils/dictionaries.py:18 | `{'a': 'xyz'}['a.b']` raises the `ValueError` of an element of length 1 |
| Dictionaries.GetBelowNonPair | common_pkg/prjname/common/utils/dictionaries.py:18 | `{'a': [1]}['a.b']` raises the `TypeError` of a non-sequence element #0 |
| Dictionaries.GetBelowPairs | common_pkg/prjname/common/utils/dictionaries.py:18-20 | `{'a': [['b', 1]]}['a.b']` converts and then raises `AttributeError` for `get` on the list |
| Dictionaries.SetBelowSequences | common_pkg/prjname/common/utils/dictionaries.py:26-37 | Writing below a list or the empty string raises the `TypeError` of indexing it with a string |
| Dictionaries.DotNotationDict.constructor | common_pkg/prjname/common/utils/dictionaries.py:8-10 | Wraps the given dict, or an empty one |
| Dictionaries.DotNotationDict.SetItem | common_pkg/prjname/common/utils/dictionaries.py:23-37 | The dict afterwards is the write function of the old one; a failed write leaves it unchanged |
| Dictionaries.DotNotationDict.WriteBelow | common_pkg/prjname/common/utils/dictionaries.py:30-34 | The dotted branch once the head is present |
| Dictionaries.ForwardHolds | common_pkg/prjname/common/utils/dictionaries.py:41-44 | With distinct keys, every original pair is in the dict |
| Dictionaries.BackwardHolds | common_pkg/prjname/common/utils/dictionaries.py:43 | With distinct values, every reversed pair is in the reverse dict |
| Dictionaries.BackwardKeys | common_pkg/prjname/common/utils/dictionaries.py:43 | The reverse dict's keys are the original values |
| Dictionaries.ConstructorPairs | common_pkg/prjname/common/utils/dictionaries.py:41-44 | The constructor stores the reverse of every pair, and keeps each original pair whose key is no value |
| Dictionaries.Assign | common_pkg/prjname/common/utils/dictionaries.py:46-48 | `__setitem__` on the storage; AssignBothWays states it |
| Dictionaries.AssignBothWays | common_pkg/prjname/common/utils/dictionaries.py:46-48 | After `d[k] = v`, both `k -> v` and `v -> k` hold and every other key is unchanged |
| Dictionaries.Delete | common_pkg/prjname/common/utils/dictionaries.py:50-52 | `__delitem__` on the storage; DeleteRemovesBoth states it |
| Dictionaries.DeleteRemovesBoth | common_pkg/prjname/common/utils/dictionaries.py:50-52 | `del d[k]` raises `KeyError` for a missing key; when its value is stored as a key too, both are removed and every other key is unchanged |
| Dictionaries.BidirectionalDict.constructor | common_pkg/prjname/common/utils/dictionaries.py:41-44 | Both the two-way storage and the inherited dict hold the pairs and their reverses |
| Dictionaries.BidirectionalDict.SetItem | common_pkg/prjname/common/utils/dictionaries.py:46-48 | Stores both directions in the two-way storage |
| Dictionaries.BidirectionalDict.DelItem | common_pkg/prjname/common/utils/dictionaries.py:50-52 | Removes the key and then its value, or raises `KeyError` |
| Dictionaries.StaleLookupAfterAssign | common_pkg/prjname/common/utils/dictionaries.py:46-48 | As written, `d['a'] = 'b'` on an empty dict leaves the inherited lookup of 'a' raising `KeyError` |
| Dictionaries.LookupAfterAssign | common_pkg/prjname/common/utils/dictionaries.py:46-48 | As intended, on a dict built from any items, both `d[k]` and `d[v]` find the pair after `d[k] = v` |
| KeyValueAdapter.MatchingMembers | common_pkg/prjname/common/utils/keyvalue_adapter.py:314-321 | An extension is kept exactly when its name starts with the bucket |
| KeyValueAdapter.MatchingConcat | common_pkg/prjname/common/utils/keyvalue_adapter.py:318-320 | The filter keeps registry order |
| KeyValueAdapter.Matching | common_pkg/prjname/common/utils/keyvalue_adapter.py:314-321 | The extension filter; MatchingMembers and MatchingConcat state it |
| KeyValueAdapter.GetExtensions | common_pkg/prjname/common/utils/keyvalue_adapter.py:314-321 | An empty bucket fails to compile; otherwise the kept extensions, in order |
| KeyValueAdapter.SetEvents | common_pkg/prjname/common/utils/keyvalue_adapter.py:278-284 | One `on_set` per extension, in order |
| KeyValueAdapter.DeleteEvents | common_pkg/prjname/common/utils/keyvalue_adapter.py:305-311 | One `on_delete` per extension, in order |
| KeyValueAdapter.AddSemantics | common_pkg/prjname/common/utils/keyvalue_adapter.py:85-95 | An existing key raises `DatabaseOperationError` and changes nothing; a new key is inserted, runs `on_set` and is returned |
| KeyValueAdapter.PutSemantics | common_pkg/prjname/common/utils/keyvalue_adapter.py:97-113 | Upsert: afterwards the key holds the value; an update runs every `on_delete` before any `on_set`, an insert only `on_set` |
| KeyValueAdapter.DeleteSemantics | common_pkg/prjname/common/utils/keyvalue_adapter.py:115-123 | A missing key raises before any delete; otherwise it is removed, `on_delete` runs and the result is True |
| KeyValueAdapter.Add | common_pkg/prjname/common/utils/keyvalue_adapter.py:85-95 | `add_value` on the store; AddSemantics states it |
| KeyValueAdapter.Put | common_pkg/prjname/common/utils/keyvalue_adapter.py:97-113 | `set_value` on the store; PutSemantics states it |
| KeyValueAdapter.Delete | common_pkg/prjname/common/utils/keyvalue_adapter.py:115-123 | `delete_key` on the store; DeleteSemantics states it |
| KeyValueAdapter.OtherKeysUntouched | common_pkg/prjname/common/utils/keyvalue_adapter.py:85-123 | Writes to one key leave every other key as it was |
| KeyValueAdapter.Adapter.constructor | common_pkg/prjname/common/utils/keyvalue_adapter.py:27-44 | The adapter over a connected table, with no hooks run |
| KeyValueAdapter.Adapter.GetValue | common_pkg/prjname/common/utils/keyvalue_adapter.py:66-73 | The stored value, or `DatabaseOperationError` for a missing key |
| KeyValueAdapter.Adapter.ExecuteOnSet | common_pkg/prjname/common/utils/keyvalue_adapter.py:274-284 | The hooks run are those of the on-set function |
| KeyValueAdapter.Adapter.ExecuteOnDelete | common_pkg/prjname/common/utils/keyvalue_adapter.py:301-311 | The hooks run are those of the on-delete function |
| KeyValueAdapter.Adapter.AddValue | common_pkg/prjname/common/utils/keyvalue_adapter.py:85-95 | The store and result are those of the add function |
| KeyValueAdapter.Adapter.SetValue | common_pkg/prjname/common/utils/keyvalue_adapter.py:97-113 | The store and result are those of the upsert function |
| KeyValueAdapter.Adapter.DeleteKey | common_pkg/prjname/common/utils/keyvalue_adapter.py:115-123 | The store and result are those of the delete function |
| KeyValueAdapter.ConnectionFailure | common_pkg/prjname/common/utils/keyvalue_adapter.py:45-46 | A connection failure is `CouldNotConnectToDatabase` |
| KeyValueAdapter.Connect | common_pkg/prjname/common/utils/keyvalue_adapter.py:27-46 | Any driver failure becomes `CouldNotConnectToDatabase`; otherwise an adapter over the table |
| RestAdapter.UrlAssembly | prjname/common/utils/rest_adapter.py:102-106 | The URL is the endpoint; with a path, endpoint and path with no trailing '/'; a query adds '?' and its encoding |
| RestAdapter.HeaderAssembly | prjname/common/utils/rest_adapter.py:96-100 | The request-id header is set exactly when the context had a request id; other caller headers are kept |
| RestAdapter.ReplyOnError | prjname/common/utils/rest_adapter.py:124-135 | A raised `HTTPError` gives its code and the `{"message": ..}` JSON text; a response gives its own code and body |
| RestAdapter.RequestUrl | prjname/common/utils/rest_adapter.py:102-106 | The URL assembly; UrlAssembly states it |
| RestAdapter.RequestHeaders | prjname/common/utils/rest_adapter.py:96-100 | The header assembly; HeaderAssembly states it |
| RestAdapter.Reply | prjname/common/utils/rest_adapter.py:124-135 | The `(code, body)` pair; ReplyOnError states it |
| RestAdapter.Adapter.constructor | prjname/common/utils/rest_adapter.py:23-33 | The endpoint loses its trailing '/'; certificate validation is off unless asked; the request id is the context's |
| RestAdapter.Adapter.Request | prjname/common/utils/rest_adapter.py:89-135 | The request sent and the `(code, body)` returned are those the assembly and reply functions give |
| RestAdapter.Adapter.Post | prjname/common/utils/rest_adapter.py:35-44 | POST sends the body and no query, with the assembled headers, the timeout and the certificate settings; the reply is that of the fetch |
| RestAdapter.Adapter.Get | prjname/common/utils/rest_adapter.py:46-55 | GET sends the query and no body, with the assembled headers, the timeout and the certificate settings; the reply is that of the fetch |
| RestAdapter.Adapter.Put | prjname/common/utils/rest_adapter.py:57-68 | PUT sends the query and the body, with the assembled headers, the timeout and the certificate settings; the reply is that of the fetch |
| RestAdapter.Adapter.Delete | prjname/common/utils/rest_adapter.py:70-79 | DELETE sends the query and no body, with the assembled headers, the timeout and the certificate settings; the reply is that of the fetch |
| CommonSettingsLoader.EnvironmentMissing | common_pkg/prjname/common/utils/settings_loader.py:10-14 | A missing variable is a `GeneralInfoException` naming it |
| CommonSettingsLoader.ModuleNames | common_pkg/prjname/common/utils/settings_loader.py:16-20 | The module names in priority order; ChainPriority states what the order decides |
| CommonSettingsLoader.ImportedConcat | common_pkg/prjname/common/utils/settings_loader.py:22-28 | Failed imports never reorder the rest |
| CommonSettingsLoader.ImportedMembers | common_pkg/prjname/common/utils/settings_loader.py:22-28 | A module is kept exactly when its name imports; all importing gives them one for one; none gives none |
| CommonSettingsLoader.Imported | common_pkg/prjname/common/utils/settings_loader.py:22-28 | The modules that import; ImportedMembers and ImportedConcat state it |
| CommonSettingsLoader.FirstSetProperties | common_pkg/prjname/common/utils/settings_loader.py:30-41 | A lookup succeeds exactly when some module sets the name, with the first such value; otherwise `AttributeError` |
| CommonSettingsLoader.FirstSet | common_pkg/prjname/common/utils/settings_loader.py:30-41 | The first module setting a name; FirstSetProperties states it |
| CommonSettingsLoader.ImportAll | common_pkg/prjname/common/utils/settings_loader.py:22-28 | The import loop keeps the modules that import, in order |
| CommonSettingsLoader.LookupLoop | common_pkg/prjname/common/utils/settings_loader.py:31-39 | The lookup loop gives the first-set function |
| CommonSettingsLoader.Loader.constructor | common_pkg/prjname/common/utils/settings_loader.py:16-28 | The modules are those that import, in priority order |
| CommonSettingsLoader.Loader.GetAttr | common_pkg/prjname/common/utils/settings_loader.py:30-41 | `__getattr__` is the first-set lookup over the modules |
| CommonSettingsLoader.NewLoader | common_pkg/prjname/common/utils/settings_loader.py:9-28 | Raises exactly for an unset or empty variable; otherwise a loader over the imported modules |
| CommonSettingsLoader.ChainPriority | common_pkg/prjname/common/utils/settings_loader.py:16-39 | The package environment module wins, then the package base; a name no module sets raises `AttributeError` |
| SettingsLoader.LookupIntended | prjname/common/utils/settings_loader.py:42-59 | The lookup as intended; IntendedAgreesExceptEmpty and EmptyVariableShadowsModules state how it differs from the one as written |
| SettingsLoader.LookupAsWritten | prjname/common/utils/settings_loader.py:42-59 | The lookup as written; stated by IntendedAgreesExceptEmpty and Loader.GetAttr |
| SettingsLoader.IntendedAgreesExceptEmpty | prjname/common/utils/settings_loader.py:43-51 | The lookup as written differs from the intended one only for a variable set to '', where it returns '' |
| SettingsLoader.EmptyVariableShadowsModules | prjname/common/utils/settings_loader.py:43-51 | `MFS_DEBUG=''` with `DEBUG = True` in a module: as written '' comes back, as intended True |
| SettingsLoader.ModuleEntriesProperties | prjname/common/utils/settings_loader.py:69-82 | A module reports exactly the displayed names with truthy values, each with its entry |
| SettingsLoader.ActualProperties | prjname/common/utils/settings_loader.py:61-84 | A setting is reported exactly when some module shows it, with the entry of the highest-priority such module: the variable's value and 'environment' whenever it is set, else the module value and the last part of the module name |
| SettingsLoader.ActualOf | prjname/common/utils/settings_loader.py:61-84 | The actual settings; ActualProperties states it |
| SettingsLoader.Loader.constructor | prjname/common/utils/settings_loader.py:12-24 | Modules are imported at construction only when lazy loading is off |
| SettingsLoader.Loader.LazyModuleImport | prjname/common/utils/settings_loader.py:26-40 | The modules that import, in priority order |
| SettingsLoader.Loader.GetAttr | prjname/common/utils/settings_loader.py:42-59 | A non-empty variable answers without importing; otherwise modules are imported if none are loaded; the result is the lookup as written |
| SettingsLoader.Loader.ActualSettings | prjname/common/utils/settings_loader.py:61-84 | Modules are loaded if needed and the result is the actual-settings function over them |
| SettingsLoader.AddModuleEntries | prjname/common/utils/settings_loader.py:70-82 | One module's loop adds its entries over earlier ones |
| SettingsLoader.NewLoader | prjname/common/utils/settings_loader.py:12-24 | Raises exactly for an unset or empty variable; otherwise a loader, eager or lazy |
| Strings.Split | prjname/common/utils/resource_normalizer.py:131 | `split` gives at least one part |
| Strings.SplitPartsLackSeparator | prjname/common/utils/resource_normalizer.py:131 | No part of a split contains the separator |
| Strings.JoinSplit | prjname/common/tornado/handlers/base.py:321 | Joining the comma split gives the claim back |
| Strings.SplitWithoutSeparator | prjname/common/utils/resource_normalizer.py:131 | A path without a dot is one segment |
| Strings.FirstIndex | common_pkg/prjname/common/utils/dictionaries.py:15 | The first occurrence of the separator |
| Strings.SplitFirst | common_pkg/prjname/common/utils/dictionaries.py:15 | `split('.', 1)`: the key is the head, the dot and the rest, and the head holds no dot |
| Strings.RStripProperties | prjname/common/utils/rest_adapter.py:27 | `rstrip` keeps a prefix, removes only copies of the character and leaves none at the end |
| Strings.LStripProperties | common_pkg/prjname/common/tornado/handlers/decorators.py:97 | `lstrip` keeps a suffix, cuts away only whitespace and leaves none at the start |
| Strings.RStripSpaceProperties | common_pkg/prjname/common/tornado/handlers/decorators.py:97 | `rstrip` keeps a prefix, cuts away only whitespace and leaves none at the end |
| Strings.StripProperties | common_pkg/prjname/common/tornado/handlers/decorators.py:97 | `strip` keeps a slice whose cut-away ends are whitespace and which neither starts nor ends with whitespace; it is empty exactly when the text is all whitespace |
| Strings.ContainsAt | common_pkg/prjname/common/tornado/handlers/decorators.py:30 | 'Bearer ' is in the header exactly when it occurs at some position |
| Strings.Lower | common_pkg/prjname/common/tornado/handlers/health.py:60 | Lower-casing is character by character |
| Strings.Upper | prjname/common/utils/settings_loader.py:44 | Upper-casing is character by character |
| Strings.TitleAfter | common_pkg/prjname/common/tornado/handlers/health.py:60 | Title-casing changes only letter case |
| Strings.TitleOfLowerIsWord | common_pkg/prjname/common/tornado/handlers/health.py:60-61 | `s.lower().title()` is 'True' or 'False' exactly when `s.lower()` is 'true' or 'false' |
| Strings.TitleOfWords | common_pkg/prjname/common/tornado/handlers/health.py:61 | 'true' and 'false' title-case to 'True' and 'False' |
| Strings.TitleAfterLowerCase | common_pkg/prjname/common/tornado/handlers/health.py:60 | A lower-case run after a letter is unchanged by title-casing |

## Left out

- Coroutines, the IOLoop and timeouts are not modelled. Every operation runs sequentially, and retry sleeps are a list of integer delays.
- Logging backends, statsd counters and `sys.getsizeof` are left out. `Support` records log entries as values.
- `json.dumps` and `json.loads` are oracles. `Encoded(doc)` stands for the JSON text of `doc`, and a body's decoding is a parameter.
- Token verification, the policy configuration and enforcer, the subscription lookup, template rendering and `urlencode` are parameters. So are the traceback text, module imports, `os.environ` and the installed version.
- Tornado's header names are case-insensitive, but here the request's header map holds them already normalised.
- Python set order in the `process_query` error message is unspecified. The model states only that the message lists each unsupported parameter once, in some order.
- The analytics step of the OAuth2 wrapper reads `self.mfs_environment`, which the handler never sets. It is a flag `hasEnvironment`: when false, the `AttributeError` is reported just as the source reports it.
- `ResourceNormalizer`: rules are a sequence of (path, rule) pairs in iteration order. Python 2 dict iteration order is not modelled.
- `ResourceNormalizer`: `_set` mutates the caller's nested dicts in place. The model builds a new value, so aliasing between the resource and the result is not captured.
- `ResourceNormalizer`: the exception text of `execute` is not kept, because a raising `execute` gives the default.
- `KeyValueAdapter.GetExtensions`: the bucket is taken as free of regular-expression metacharacters, where `bucket+` with `match` is a prefix test. An empty bucket is modelled as the regex compile error.
- `KeyValueAdapter`: TTLs, the Cassandra driver and its futures are left out. The table is a map, `_get_internal`'s JSON decoding is the identity, and failures of an extension hook are not modelled.
- `DotNotationDict`: the model has the one field `dictionary`, for `_dictionary`. The inherited dict storage that the constructor copies and `super().__setitem__` updates (dictionaries.py:10, 28, 34, 37) is not modelled, so neither is its divergence from `_dictionary` after a nested write below a newly created head. `_dictionary` is the caller's own dict and nested writes mutate nested dicts in place; the model builds new values, so that aliasing is not captured.
- `DotNotationDict`: the failure texts are Python 2.7's for `str` values. A `unicode` value names `unicode` in them, and the key order in which `dict()` reads a dict element is not modelled (it does not change whether the conversion succeeds).
- `BidirectionalDict`: the inherited dict storage and `_dictionary` are separate fields, as in the source. `_dictionary` is the caller's own dict (dictionaries.py:42), so the constructor's `update` and every `__setitem__` and `__delitem__` also change the caller's dict; the model builds new values, so that aliasing is not captured.
- `BidirectionalDict.constructor`: requires distinct keys, the items of a Python dict. A dict with one key equal to another pair's value keeps that pair only in the order the model uses.
- `RestAdapter`: mutating the caller's headers dict in place, the system proxies and the debug notifications are not modelled.
- Settings loaders: `DISPLAY_SETTINGS` is the `display` field of a module rather than an attribute.
- Settings loaders: Python 2's iterator `.next()` is a loop over the module list.
- `upper`, `lower` and `title` are defined on ASCII letters only. Other characters are left as they are.
- `ExceptionResponse`: Tornado's `set_status` raises `ValueError('unknown status code')` for a code its status table lacks (such as 599, which its own HTTP client reports for a timeout); the model renders every `HTTPError` with its own code. Which codes are known depends on the Tornado and Python versions, so that table is not modelled.
- `UntypedRendering`: states the `HTTPError`'s own code as the status for every code, without the `ValueError` of an unknown one (see `ExceptionResponse`).
- `SuccessResponse`: an explicit `status_code` unknown to Tornado raises `ValueError` in `set_status`; the model sets it.
- `AfterBuild`: neither the unknown-status `ValueError` of `set_status` nor the `TypeError` Tornado's `write` raises for a body that is not a string, bytes or dict (a list, number, boolean, or None when the response is finished) is modelled; such a body is appended as it is. Both depend on the Tornado version.
- `BuildResponseInternal`: proved equal to `AfterBuild`, so it has the same two gaps.
- `Write`: appends any chunk; Tornado's `TypeError` for a chunk that is not bytes, unicode or a dict is not modelled.
- `HealthSuccessRendering`: a truthy `status_code` unknown to Tornado raises `ValueError` in `set_status`; the model sets it.
- `BuildHealthResponse`: the unknown-status `ValueError` of `set_status` is not modelled.
- `WriteStatusAndBody`: sets any status, without the `ValueError` of an unknown code.
- `Prepare`: the `Support` effects of `prepare` are not modelled: the four `notify_debug` calls on success (each queued under full-request logging), the `notify_error` of a failure (which drains that queue) and the `stat_increment` counters. The failure is returned instead. The same holds for the `notify_error` calls of the OAuth2 and API-key wrappers, whose failure is returned as `notified` or in the handling.
- `QuoteAll`: writes each name between single quotes. Python's `repr` also escapes quotes, backslashes and non-printable characters, and uses double quotes for a name holding a single quote; those cases are not modelled, because unfolding the escaping in every message built from a name list makes the proofs of `process_headers` and `process_query` too expensive.
- `LastArgument`: argument values are taken as already decoded from UTF-8; a value that does not decode, which Tornado rejects with a 400, is not modelled.
- `ApiKeyHandling`: the `KeyError` text is `u'<formfactor>'` for a form factor the request gave and `'desktop'` for the default, without `repr`'s escaping of quotes, backslashes and non-ASCII characters.
- `ApiKeyAuthorization`: the page is the text of a `render` parameter for the template and the message; Tornado's insertion of UI module scripts and styles and its `Etag` and `Content-Length` headers on `finish` are not modelled.
- `SetPath`: the `TypeError` texts are Python 2.7's for `str` path segments and decoded JSON values, whose strings are `unicode`.
- The process bootstrap, command-line entry points, packaging, the Cassandra driver wrapper and the curl proxy setup are not part of this model. The constants-only settings files are used as literals.

## Findings

| source | as written | input that shows it | evidently intended | confidence | as-written member | corrected member |
|---|---|---|---|---|---|---|
| common_pkg/prjname/common/tornado/handlers/decorators.py:162-165 | `raise gen.Return(response)` sits inside `try ... except exception_to_check`, so with `exception_to_check=Exception` a success is caught and retried | `tries=3`, `delay=3`, `backoff=2` (`exception_to_check=Exception`), with a function that always succeeds: three calls, sleeps of 3 and 6 | A success is returned at once after one call | not executed | Decorators.RetryRepeatsSuccess | Decorators.IntendedSuccessRunsOnce |
| common_pkg/prjname/common/utils/dictionaries.py:46-48 | `__setitem__` updates only `_dictionary`, never the inherited dict storage that `d[k]` reads | `d = BidirectionalDict(); d['a'] = 'b'; d['a']` raises `KeyError` | After `d[k] = v`, both `d[k]` and `d[v]` find the pair | not executed | Dictionaries.StaleLookupAfterAssign | Dictionaries.LookupAfterAssign |
| prjname/common/utils/settings_loader.py:43-51 | An environment variable set to '' makes `if not setting_value` pass, but the `while setting_value is None` loop never runs, so '' is returned | `MFS_DEBUG=''` and `DEBUG = True` in `pkg.base_settings`: `loader.DEBUG` is '' | An empty variable falls back to the settings modules (True) | not executed | SettingsLoader.EmptyVariableShadowsModules | SettingsLoader.IntendedAgreesExceptEmpty |
