/** `HealthHandler`: the `/health` resource. Its query accepts only
    `include_details` (true or false, in any case) and `_`; a GET reports
    the monitor's overall severity, status list and version, or renders the
    monitor's exception through the base family mapping. */
module HealthHandler {
  import opened Wrappers
  import opened Json
  import opened Strings
  import opened Exceptions
  import opened BaseHandler
  import opened HealthMonitor
  import Support

  const IncludeDetails := "include_details"

  /** The query parameters the resource accepts. */
  const SupportedQuery: seq<string> := [IncludeDetails, "_"]

  const IncludeDetailsInvalid := "include_details must be true or false"

  /** What indexing an empty argument list raises. */
  const EmptyArgumentList := "list index out of range"

  /** What calling `get` on a query that is still a string raises. */
  const QueryWithoutGet := "'str' object has no attribute 'get'"

  /** The `include_details` check of `process_query`: absent is fine; the
      first value, lower-cased and title-cased, must be 'True' or 'False'. */
  function IncludeDetailsVerdict(arguments: map<string, seq<string>>): Result<Option<bool>, Failure> {
    if IncludeDetails !in arguments then Ok(None)
    else if arguments[IncludeDetails] == [] then Err(OtherError(EmptyArgumentList))
    else
      var value := Title(Lower(arguments[IncludeDetails][0]));
      if value == "True" then Ok(Some(true))
      else if value == "False" then Ok(Some(false))
      else Err(Raise(InvalidArgument, IncludeDetailsInvalid))
  }

  /** `include_details` is accepted exactly when its first value is 'true'
      or 'false' ignoring case, and becomes the matching boolean; an absent
      parameter is accepted and left absent. */
  lemma IncludeDetailsAccepted(arguments: map<string, seq<string>>)
    ensures IncludeDetailsVerdict(arguments) == Ok(None) <==> IncludeDetails !in arguments
    ensures forall b: bool :: IncludeDetailsVerdict(arguments) == Ok(Some(b)) <==>
              (IncludeDetails in arguments && arguments[IncludeDetails] != [] &&
               Lower(arguments[IncludeDetails][0]) == (if b then "true" else "false"))
    ensures IncludeDetails in arguments && arguments[IncludeDetails] != [] &&
            Lower(arguments[IncludeDetails][0]) != "true" && Lower(arguments[IncludeDetails][0]) != "false" ==>
              IncludeDetailsVerdict(arguments) == Err(Raise(InvalidArgument, IncludeDetailsInvalid))
  {
    TitleOfWords();
    if IncludeDetails in arguments && arguments[IncludeDetails] != [] {
      var first := arguments[IncludeDetails][0];
      TitleOfLowerIsWord(first, "true");
      TitleOfLowerIsWord(first, "false");
    }
  }

  /** `HealthHandler.process_query()`: an unsupported parameter or a bad
      `include_details` raises; otherwise `include_details` (when present)
      is replaced by its boolean and the arguments become the query. */
  method ProcessQuery(h: Handler) returns (error: Option<Failure>)
    modifies h`arguments, h`query
    ensures error.Some? <==>
              Unsupported(h.request.arguments, SupportedQuery) != {} || IncludeDetailsVerdict(h.request.arguments).Err?
    ensures Unsupported(h.request.arguments, SupportedQuery) != {} ==>
              error.Some? && error.value.Typed? && error.value.error.cls == InvalidArgument
    ensures Unsupported(h.request.arguments, SupportedQuery) == {} && IncludeDetailsVerdict(h.request.arguments).Err? ==>
              error == Some(IncludeDetailsVerdict(h.request.arguments).error)
    ensures error.Some? ==> h.arguments == old(h.arguments) && h.query == old(h.query)
    ensures error.None? ==>
              var verdict := IncludeDetailsVerdict(h.request.arguments).value;
              h.arguments == (if verdict.Some? then old(h.arguments)[IncludeDetails := Bool(verdict.value)] else old(h.arguments))
              && h.query == Dict(h.arguments)
  {
    error := h.ProcessQuery(SupportedQuery);
    if error.Some? {
      return;
    }
    var verdict := IncludeDetailsVerdict(h.request.arguments);
    if verdict.Err? {
      return Some(verdict.error);
    }
    if verdict.value.Some? {
      h.arguments := h.arguments[IncludeDetails := Bool(verdict.value.value)];
    }
    h.query := Dict(h.arguments);
  }

  /** What `build_health_response` is handed as its result: the status
      list, or the exception caught. */
  datatype HealthResult = Info(info: seq<Value>) | Failed(f: Failure)

  /** The document a successful health GET writes. */
  function HealthDocument(health: Value, info: seq<Value>, version: Value): Value {
    Single("status", Dict(map["health" := health, "info" := List(info), "version" := version]))
  }

  /** The response state after `build_health_response(service_health,
      result, version, status_code)`. */
  function AfterHealth(r: Response, verb: Verb, health: Value, result: HealthResult, version: Value,
                       statusCode: Option<int>, traceLine: string): Response
  {
    var r1 := r.(headers := r.headers[ContentTypeHeader := JsonContentType]);
    var written := HealthWrite(verb, health, result, version, statusCode, traceLine);
    var r2 := if written.Some? then WriteChunk(r1.(status := written.value.0), written.value.1) else r1;
    r2.(finished := true)
  }

  /** The status set and the body written by `build_health_response`, if
      any: a failure through the family mapping, a GET's status list as a
      JSON document. */
  function HealthWrite(verb: Verb, health: Value, result: HealthResult, version: Value,
                       statusCode: Option<int>, traceLine: string): Option<(int, Payload)>
  {
    match result
    case Failed(f) => Some(ExceptionResponse(f, traceLine))
    case Info(info) =>
      if verb == GET then
        Some((if statusCode.Some? && statusCode.value != 0 then statusCode.value else 200,
              Encoded(HealthDocument(health, info, version))))
      else None
  }

  /** A failure is rendered through the family mapping, with the status
      and body that mapping gives, whatever the verb. */
  lemma HealthFailureRendering(r: Response, verb: Verb, health: Value, f: Failure, version: Value,
                               statusCode: Option<int>, traceLine: string)
    ensures var after := AfterHealth(r, verb, health, Failed(f), version, statusCode, traceLine);
      after.status == ExceptionResponse(f, traceLine).0 &&
      after.chunks == r.chunks + [ExceptionResponse(f, traceLine).1] && after.finished
  {
  }

  /** A successful GET answers 200 unless a truthy status is given, with
      the JSON text of `{"status": {"health", "info", "version"}}` as body
      and a JSON content type; other verbs write nothing. */
  lemma HealthSuccessRendering(r: Response, verb: Verb, health: Value, info: seq<Value>, version: Value,
                               statusCode: Option<int>, traceLine: string)
    ensures var after := AfterHealth(r, verb, health, Info(info), version, statusCode, traceLine);
      after.finished && after.headers[ContentTypeHeader] == JsonContentType &&
      (verb == GET ==>
         after.status == (if statusCode.Some? && statusCode.value != 0 then statusCode.value else 200) &&
         after.chunks == r.chunks + [Encoded(HealthDocument(health, info, version))]) &&
      (verb != GET ==> after.status == r.status && after.chunks == r.chunks)
  {
  }

  /** What `get` hands to `build_health_response`: on success the overall
      severity, the status list and the version; on any exception health
      False, the exception and no version. */
  function HealthOutcome(query: Value, outcomes: seq<Result<PluginReport, Failure>>, version: string): (Value, HealthResult, Value) {
    if !query.Dict? then (Bool(false), Failed(AttributeError(QueryWithoutGet)), Null)
    else
      match StatusOf(outcomes, Truthy(GetOrNull(query.fields, IncludeDetails)), version)
      case Err(f) => (Bool(false), Failed(f), Null)
      case Ok(s) => (SeverityValue(s.health), Info(s.info), Str(s.version))
  }

  /** When a plugin fails, the response is that failure rendered through
      the family mapping: health False and version None never reach the
      body. */
  lemma MonitorFailure(query: Value, outcomes: seq<Result<PluginReport, Failure>>, version: string)
    requires query.Dict? && StatusOf(outcomes, Truthy(GetOrNull(query.fields, IncludeDetails)), version).Err?
    ensures HealthOutcome(query, outcomes, version) ==
              (Bool(false), Failed(StatusOf(outcomes, Truthy(GetOrNull(query.fields, IncludeDetails)), version).error), Null)
  {
  }

  /** With every plugin answering and `include_details` false or absent,
      the body reports the worst severity, an empty status list and the
      version. */
  lemma MonitorSuccessWithoutDetails(fields: map<string, Value>, outcomes: seq<Result<PluginReport, Failure>>, version: string)
    requires forall i :: 0 <= i < |outcomes| ==> outcomes[i].Ok?
    requires !Truthy(GetOrNull(fields, IncludeDetails))
    ensures var (health, result, v) := HealthOutcome(Dict(fields), outcomes, version);
      result == Info([]) && v == Str(version) &&
      exists s: Severity :: health == SeverityValue(s) &&
        forall i :: 0 <= i < |outcomes| ==> Level(outcomes[i].value.health) <= Level(s)
  {
    StatusListShape(outcomes, false, version);
    var s := StatusOf(outcomes, false, version).value;
    assert SeverityValue(s.health) == HealthOutcome(Dict(fields), outcomes, version).0;
  }

  /** `build_health_response(service_health, result, version, status_code)` */
  method BuildHealthResponse(h: Handler, health: Value, result: HealthResult, version: Value,
                             statusCode: Option<int>, traceLine: string)
    modifies h`status, h`headers, h`chunks, h`finished
    ensures h.Snapshot() == AfterHealth(old(h.Snapshot()), h.request.verb, health, result, version, statusCode, traceLine)
  {
    h.headers := h.headers[ContentTypeHeader := JsonContentType];
    WriteStatusAndBody(h, HealthWrite(h.request.verb, health, result, version, statusCode, traceLine));
    h.finished := true;
  }

  /** `set_status` followed by `write`, when there is something to write. */
  method WriteStatusAndBody(h: Handler, written: Option<(int, Payload)>)
    modifies h`status, h`headers, h`chunks
    ensures h.Snapshot() ==
              if written.Some? then WriteChunk(old(h.Snapshot()).(status := written.value.0), written.value.1) else old(h.Snapshot())
  {
    if written.Some? {
      h.status := written.value.0;
      h.Write(written.value.1);
    }
  }

  /** `LOG_TAG % 'error while getting health status'` */
  const StatusErrorMessage := "[Health Handler] error while getting health status"

  /** `get()`: `outcomes` is what each health plugin answers and `version`
      the installed version. Any failure is reported through the
      request's `support` with `notify_error` before the response is
      built. */
  method Get(h: Handler, support: Support.Support, outcomes: seq<Result<PluginReport, Failure>>, version: string,
             traceLine: string)
    modifies h`status, h`headers, h`chunks, h`finished, support`extra, support`queue, support`log
    ensures var (health, result, v) := HealthOutcome(h.query, outcomes, version);
      h.Snapshot() == AfterHealth(old(h.Snapshot()), h.request.verb, health, result, v, None, traceLine)
    ensures HealthOutcome(h.query, outcomes, version).1.Failed? ==>
              support.Snapshot() == Support.AfterNotify(old(support.Snapshot()), support.logEntireRequest, Support.ERROR,
                                                        StatusErrorMessage, Null)
    ensures HealthOutcome(h.query, outcomes, version).1.Info? ==> support.Snapshot() == old(support.Snapshot())
  {
    var health: Value := Bool(false);
    var v: Value := Null;
    var result: HealthResult;
    if !h.query.Dict? {
      result := Failed(AttributeError(QueryWithoutGet));
    } else {
      var status := GetStatus(outcomes, Truthy(GetOrNull(h.query.fields, IncludeDetails)), version);
      if status.Ok? {
        health, result, v := SeverityValue(status.value.health), Info(status.value.info), Str(status.value.version);
      } else {
        result := Failed(status.error);
      }
    }
    if result.Failed? {
      support.Notify(Support.ERROR, StatusErrorMessage, Null);
    }
    BuildHealthResponse(h, health, result, v, None, traceLine);
  }
}
