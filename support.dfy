/** `Support`: request-scoped event notification. Every event is logged
    with the request's `extra` fields; when the configured log level is
    CRITICAL or ERROR, lower-level messages are also queued and the whole
    queue is logged, oldest first, before an error or critical event. */
module Support {
  import opened Wrappers
  import opened Json

  /** `constants.NO_REQUEST_ID` */
  const NoRequestId := "no-request-id"

  /** The logger method an event is sent to. */
  datatype Level = CRITICAL | ERROR | WARNING | INFO | DEBUG

  /** One call of a logger method: the level, the message and the `extra`
      fields as they were at that call. */
  datatype LogEntry = LogEntry(level: Level, message: string, extra: map<string, Value>)

  /** The state of a `Support` object: its `extra` fields, the message
      queue and the log written so far. */
  datatype State = State(extra: map<string, Value>, queue: seq<string>, log: seq<LogEntry>)

  /** `self._extra` as the constructor builds it from the session info
      (None or empty counting as no session info). */
  function InitialExtra(sessionInfo: map<string, Value>): map<string, Value> {
    map["env" := GetOrNull(sessionInfo, "environment"),
        "service" := GetOrNull(sessionInfo, "service"),
        "handler" := GetOrNull(sessionInfo, "handler"),
        "requestId" := if "requestId" in sessionInfo then sessionInfo["requestId"] else Str(NoRequestId),
        "details" := Str("")]
  }

  /** The request id defaults to `NO_REQUEST_ID` only when the session info
      has no `requestId` key; the details start empty. */
  lemma InitialExtraProperties(sessionInfo: map<string, Value>)
    ensures InitialExtra(sessionInfo).Keys == {"env", "service", "handler", "requestId", "details"}
    ensures "requestId" !in sessionInfo ==> InitialExtra(sessionInfo)["requestId"] == Str(NoRequestId)
    ensures "requestId" in sessionInfo ==> InitialExtra(sessionInfo)["requestId"] == sessionInfo["requestId"]
    ensures InitialExtra(sessionInfo)["details"] == Str("")
    ensures InitialExtra(map[])["env"] == Null
  {
  }

  /** `settings.LOG_LEVEL in ['CRITICAL', 'ERROR']` */
  predicate LogsEntireRequest(logLevel: string) {
    logLevel == "CRITICAL" || logLevel == "ERROR"
  }

  /** `details if details else message` */
  function Details(message: string, details: Value): Value {
    if Truthy(details) then details else Str(message)
  }

  /** The entries `_log_entire_request` writes: every queued message, in
      queue order, at the given level and with the given `extra`. */
  function Drained(queue: seq<string>, level: Level, extra: map<string, Value>): (r: seq<LogEntry>)
    ensures |r| == |queue|
    ensures forall i :: 0 <= i < |r| ==> r[i] == LogEntry(level, queue[i], extra)
  {
    if queue == [] then [] else [LogEntry(level, queue[0], extra)] + Drained(queue[1..], level, extra)
  }

  /** Events that drain the queue. */
  predicate Draining(level: Level) {
    level == CRITICAL || level == ERROR
  }

  /** The state after `notify_<level>(message, details)`. */
  function AfterNotify(s: State, logEntire: bool, level: Level, message: string, details: Value): State {
    var extra := s.extra["details" := Details(message, details)];
    if Draining(level) then
      if logEntire then State(extra, [], s.log + Drained(s.queue, level, extra) + [LogEntry(level, message, extra)])
      else State(extra, s.queue, s.log + [LogEntry(level, message, extra)])
    else State(extra, if logEntire then s.queue + [message] else s.queue, s.log + [LogEntry(level, message, extra)])
  }

  /** An error or critical event with the request logged in full logs the
      queued messages oldest first, with the new details already set, then
      its own message, and leaves the queue empty. */
  lemma DrainingNotify(s: State, level: Level, message: string, details: Value)
    requires Draining(level)
    ensures var after := AfterNotify(s, true, level, message, details);
      && after.queue == []
      && |after.log| == |s.log| + |s.queue| + 1
      && after.log[..|s.log|] == s.log
      && (forall i :: 0 <= i < |s.queue| ==>
            after.log[|s.log| + i] == LogEntry(level, s.queue[i], after.extra))
      && after.log[|after.log| - 1] == LogEntry(level, message, after.extra)
      && after.extra["details"] == Details(message, details)
  {
    var after := AfterNotify(s, true, level, message, details);
    var drained := Drained(s.queue, level, after.extra);
    assert after.log == s.log + drained + [LogEntry(level, message, after.extra)];
    forall i | 0 <= i < |s.queue| ensures after.log[|s.log| + i] == LogEntry(level, s.queue[i], after.extra) {
      assert after.log[|s.log| + i] == drained[i];
    }
  }

  /** A warning, info or debug event is logged at once and queued exactly
      when the request is logged in full. */
  lemma QueueingNotify(s: State, logEntire: bool, level: Level, message: string, details: Value)
    requires !Draining(level)
    ensures var after := AfterNotify(s, logEntire, level, message, details);
      && after.log == s.log + [LogEntry(level, message, after.extra)]
      && (logEntire ==> after.queue == s.queue + [message])
      && (!logEntire ==> after.queue == s.queue)
  {
  }

  /** Without full-request logging nothing is ever queued: an empty queue
      stays empty through every event. */
  lemma QueueStaysEmpty(s: State, level: Level, message: string, details: Value)
    requires s.queue == []
    ensures AfterNotify(s, false, level, message, details).queue == []
  {
  }

  /** The support object of one request. */
  class Support {
    const logEntireRequest: bool
    var extra: map<string, Value>
    var queue: seq<string>
    var log: seq<LogEntry>

    function Snapshot(): State
      reads this
    {
      State(extra, queue, log)
    }

    /** `Support(logger, session_info)` with the configured `LOG_LEVEL`. */
    constructor (sessionInfo: map<string, Value>, logLevel: string)
      ensures logEntireRequest == LogsEntireRequest(logLevel)
      ensures Snapshot() == State(InitialExtra(sessionInfo), [], [])
    {
      logEntireRequest := LogsEntireRequest(logLevel);
      extra := InitialExtra(sessionInfo);
      queue := [];
      log := [];
    }

    /** `_log_entire_request(log_method)`: takes messages off the queue
        until it is empty, logging each. */
    method LogEntireRequest(level: Level)
      modifies this`queue, this`log
      ensures queue == [] && log == old(log) + Drained(old(queue), level, extra)
    {
      while queue != []
        invariant log + Drained(queue, level, extra) == old(log) + Drained(old(queue), level, extra)
        decreases |queue|
      {
        var message := queue[0];
        assert Drained(queue, level, extra) == [LogEntry(level, message, extra)] + Drained(queue[1..], level, extra);
        queue := queue[1..];
        log := log + [LogEntry(level, message, extra)];
      }
      assert log + [] == log;
    }

    /** `notify_critical`, `notify_error`, `notify_warning`, `notify_info`
        and `notify_debug`, selected by `level`. */
    method Notify(level: Level, message: string, details: Value)
      modifies this`extra, this`queue, this`log
      ensures Snapshot() == AfterNotify(old(Snapshot()), logEntireRequest, level, message, details)
    {
      extra := extra["details" := Details(message, details)];
      if Draining(level) {
        if logEntireRequest {
          LogEntireRequest(level);
        }
        log := log + [LogEntry(level, message, extra)];
      } else {
        log := log + [LogEntry(level, message, extra)];
        if logEntireRequest {
          queue := queue + [message];
        }
      }
    }
  }

  /** Draining two queues one after the other logs them one after the
      other. */
  lemma {:induction false} DrainedConcat(a: seq<string>, b: seq<string>, level: Level, extra: map<string, Value>)
    ensures Drained(a + b, level, extra) == Drained(a, level, extra) + Drained(b, level, extra)
    decreases |a|
  {
    if a == [] {
      assert a + b == b;
    } else {
      assert (a + b)[1..] == a[1..] + b;
      DrainedConcat(a[1..], b, level, extra);
    }
  }
}
