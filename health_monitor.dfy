/** `HealthMonitor.get_status`: the overall health of the service is the
    worst severity its health plugins report. */
module HealthMonitor {
  import opened Wrappers
  import opened Json
  import opened Exceptions

  /** `HealthPlugin.HEALTH_SEVERITY`: the tuples (0, 'OK'), (1, 'WARNING')
      and (2, 'ERROR'), ordered by their first element. */
  datatype Severity = OK | WARNING | ERROR

  function Level(s: Severity): nat {
    match s
    case OK => 0
    case WARNING => 1
    case ERROR => 2
  }

  function SeverityName(s: Severity): string {
    match s
    case OK => "OK"
    case WARNING => "WARNING"
    case ERROR => "ERROR"
  }

  /** A severity tuple as it appears in a JSON document. */
  function SeverityValue(s: Severity): Value {
    List([Int(Level(s)), Str(SeverityName(s))])
  }

  /** `HealthPlugin.HIGH` */
  const HighExposure := "HIGH"

  /** What a plugin's `get_status()` returns: its severity and its status
      dict. */
  datatype PluginReport = PluginReport(health: Severity, status: Value)

  /** The monitor's result: overall severity, status list and version. */
  datatype Status = Status(health: Severity, info: seq<Value>, version: string)

  /** `health if health > service_health else service_health` */
  function Worse(current: Severity, health: Severity): Severity {
    if Level(health) > Level(current) then health else current
  }

  /** The fold of the plugin loop, starting from OK. */
  function Worst(reports: seq<PluginReport>): Severity {
    if reports == [] then OK
    else Worse(Worst(reports[..|reports| - 1]), reports[|reports| - 1].health)
  }

  /** The overall health is the maximum plugin severity: no plugin is
      worse, and it is some plugin's severity (OK when there are none). */
  lemma {:induction false} WorstIsMaximum(reports: seq<PluginReport>)
    ensures forall i :: 0 <= i < |reports| ==> Level(reports[i].health) <= Level(Worst(reports))
    ensures (reports == [] && Worst(reports) == OK) ||
            (exists i :: 0 <= i < |reports| && Worst(reports) == reports[i].health)
    ensures reports == [] ==> Worst(reports) == OK
    decreases |reports|
  {
    if reports != [] {
      var init := reports[..|reports| - 1];
      WorstIsMaximum(init);
      forall i | 0 <= i < |init| ensures reports[i] == init[i] { }
      if Worst(reports) != reports[|reports| - 1].health {
        if init != [] {
          var i :| 0 <= i < |init| && Worst(init) == init[i].health;
          assert Worst(reports) == reports[i].health;
        }
      }
    }
  }

  /** The `systemHealth` entry that heads the detailed status list. */
  function SystemHealthEntry(s: Severity): Value {
    Dict(map["name" := Str("systemHealth"), "status" := Str(SeverityName(s)), "exposure" := Str(HighExposure)])
  }

  /** The plugin results in order, or the first exception a plugin's
      `get_status()` raised. */
  function Collected(outcomes: seq<Result<PluginReport, Failure>>): Result<seq<PluginReport>, Failure> {
    if outcomes == [] then Ok([])
    else
      match Collected(outcomes[..|outcomes| - 1])
      case Err(e) => Err(e)
      case Ok(reports) =>
        match outcomes[|outcomes| - 1]
        case Err(e) => Err(e)
        case Ok(report) => Ok(reports + [report])
  }

  /** The plugins' status dicts, in plugin order. */
  function Statuses(reports: seq<PluginReport>): (r: seq<Value>)
    ensures |r| == |reports|
    ensures forall i :: 0 <= i < |r| ==> r[i] == reports[i].status
  {
    if reports == [] then [] else Statuses(reports[..|reports| - 1]) + [reports[|reports| - 1].status]
  }

  /** `get_status(include_details)` given what each plugin returns and the
      installed version. */
  function StatusOf(outcomes: seq<Result<PluginReport, Failure>>, includeDetails: bool, version: string): Result<Status, Failure> {
    match Collected(outcomes)
    case Err(e) => Err(e)
    case Ok(reports) =>
      var health := Worst(reports);
      Ok(Status(health, if includeDetails then [SystemHealthEntry(health)] + Statuses(reports) else [], version))
  }

  /** When every plugin answers, the collected reports are their answers in
      order; otherwise the first exception is the result. */
  lemma {:induction false} CollectedProperties(outcomes: seq<Result<PluginReport, Failure>>)
    ensures Collected(outcomes).Ok? <==> forall i :: 0 <= i < |outcomes| ==> outcomes[i].Ok?
    ensures Collected(outcomes).Ok? ==>
              |Collected(outcomes).value| == |outcomes| &&
              forall i :: 0 <= i < |outcomes| ==> Collected(outcomes).value[i] == outcomes[i].value
    ensures Collected(outcomes).Err? ==>
              exists i :: 0 <= i < |outcomes| && outcomes[i] == Err(Collected(outcomes).error)
                && forall j :: 0 <= j < i ==> outcomes[j].Ok?
    decreases |outcomes|
  {
    if outcomes != [] {
      var init := outcomes[..|outcomes| - 1];
      CollectedProperties(init);
      forall i | 0 <= i < |init| ensures outcomes[i] == init[i] { }
      if Collected(init).Err? {
        var i :| 0 <= i < |init| && init[i] == Err(Collected(init).error) && forall j :: 0 <= j < i ==> init[j].Ok?;
        assert outcomes[i] == Err(Collected(outcomes).error);
      } else if outcomes[|outcomes| - 1].Err? {
        assert forall j :: 0 <= j < |outcomes| - 1 ==> outcomes[j].Ok?;
      }
    }
  }

  /** The status list is empty without details; with details it is the
      `systemHealth` entry for the overall severity followed by the plugin
      statuses in plugin order. */
  lemma StatusListShape(outcomes: seq<Result<PluginReport, Failure>>, includeDetails: bool, version: string)
    requires forall i :: 0 <= i < |outcomes| ==> outcomes[i].Ok?
    ensures StatusOf(outcomes, includeDetails, version).Ok?
    ensures var s := StatusOf(outcomes, includeDetails, version).value;
      && s.version == version
      && (forall i :: 0 <= i < |outcomes| ==> Level(outcomes[i].value.health) <= Level(s.health))
      && (!includeDetails ==> s.info == [])
      && (includeDetails ==>
            |s.info| == |outcomes| + 1 && s.info[0] == SystemHealthEntry(s.health) &&
            forall i :: 0 <= i < |outcomes| ==> s.info[i + 1] == outcomes[i].value.status)
  {
    CollectedProperties(outcomes);
    var reports := Collected(outcomes).value;
    WorstIsMaximum(reports);
    var s := StatusOf(outcomes, includeDetails, version).value;
    assert s.health == Worst(reports);
    if includeDetails {
      var statuses := Statuses(reports);
      assert s.info == [SystemHealthEntry(s.health)] + statuses;
      forall i | 0 <= i < |outcomes| ensures s.info[i + 1] == outcomes[i].value.status {
        assert s.info[i + 1] == statuses[i] == reports[i].status;
      }
    }
  }

  /** `HealthMonitor().get_status(include_details)`: `outcomes` is what
      each plugin's `get_status()` gives, in plugin order, and `version`
      what `version.get_version()` returns. */
  method GetStatus(outcomes: seq<Result<PluginReport, Failure>>, includeDetails: bool, version: string)
    returns (r: Result<Status, Failure>)
    ensures r == StatusOf(outcomes, includeDetails, version)
  {
    var serviceHealth := OK;
    var reports: seq<PluginReport> := [];
    var pluginStatus: seq<Value> := [];
    var i := 0;
    while i < |outcomes|
      invariant 0 <= i <= |outcomes|
      invariant Collected(outcomes[..i]) == Ok(reports)
      invariant serviceHealth == Worst(reports) && pluginStatus == Statuses(reports)
    {
      assert outcomes[..i + 1][..i] == outcomes[..i];
      if outcomes[i].Err? {
        assert Collected(outcomes[..i + 1]) == Err(outcomes[i].error);
        CollectedPrefixError(outcomes, i + 1);
        return Err(outcomes[i].error);
      }
      var report := outcomes[i].value;
      assert (reports + [report])[..|reports|] == reports;
      serviceHealth := Worse(serviceHealth, report.health);
      pluginStatus := pluginStatus + [report.status];
      reports := reports + [report];
      i := i + 1;
    }
    assert outcomes[..i] == outcomes;
    var serviceStatus := [SystemHealthEntry(serviceHealth)];
    var status: seq<Value> := [];
    if includeDetails {
      status := status + serviceStatus;
      status := status + pluginStatus;
      assert status == [SystemHealthEntry(serviceHealth)] + Statuses(reports);
    }
    r := Ok(Status(serviceHealth, status, version));
  }

  /** A failure collected from a prefix of the outcomes is the failure of
      all of them. */
  lemma {:induction false} CollectedPrefixError(outcomes: seq<Result<PluginReport, Failure>>, n: nat)
    requires n <= |outcomes| && Collected(outcomes[..n]).Err?
    ensures Collected(outcomes) == Collected(outcomes[..n])
    decreases |outcomes| - n
  {
    if n == |outcomes| {
      assert outcomes[..n] == outcomes;
    } else {
      assert outcomes[..n + 1][..n] == outcomes[..n];
      CollectedPrefixError(outcomes, n + 1);
    }
  }
}
