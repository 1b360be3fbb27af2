/** `SettingsLoader` of the service package: an environment variable
    `PREFIX_NAME` set to a non-empty value overrides the settings modules;
    the modules are imported on first use (or at construction when lazy
    loading is off); `actual_settings` reports, for each displayed setting,
    its effective value and where it came from. The process environment
    is the parameter `env`, importing the oracle `importable`. */
module SettingsLoader {
  import opened Wrappers
  import opened Json
  import opened Strings
  import opened Exceptions
  import opened CommonSettingsLoader

  /** `SettingsLoader.FROM_ENVIRONMENT` */
  const FromEnvironment := "environment"

  /** The package this loader's common settings modules live in. */
  const LoaderCommonPackage := "miramar.common"

  /** The environment variable that overrides `name`. */
  function EnvName(prefix: string, name: string): string {
    prefix + "_" + Upper(name)
  }

  /** `__getattr__(name)` as written, over the modules it ends up with: a
      set variable that is empty is not None, so the module loop is never
      entered and the empty string is returned. */
  function LookupAsWritten(env: map<string, string>, prefix: string, modules: seq<SettingsModule>, name: string)
    : Result<Value, Failure>
  {
    var key := EnvName(prefix, name);
    if key in env then Ok(Str(env[key])) else FirstSet(modules, name)
  }

  /** `__getattr__(name)` as intended: only a non-empty variable overrides
      the modules. */
  function LookupIntended(env: map<string, string>, prefix: string, modules: seq<SettingsModule>, name: string)
    : Result<Value, Failure>
  {
    var key := EnvName(prefix, name);
    if key in env && env[key] != "" then Ok(Str(env[key])) else FirstSet(modules, name)
  }

  /** The intended lookup differs from the one as written only for a
      variable set to the empty string, where it falls back to the modules. */
  lemma IntendedAgreesExceptEmpty(env: map<string, string>, prefix: string, modules: seq<SettingsModule>, name: string)
    ensures LookupIntended(env, prefix, modules, name) != LookupAsWritten(env, prefix, modules, name) ==>
              EnvName(prefix, name) in env && env[EnvName(prefix, name)] == ""
    ensures EnvName(prefix, name) in env && env[EnvName(prefix, name)] == "" ==>
              LookupAsWritten(env, prefix, modules, name) == Ok(Str("")) &&
              LookupIntended(env, prefix, modules, name) == FirstSet(modules, name)
  {
  }

  /** A module `pkg.base_settings` with `DEBUG = True` and `MFS_DEBUG`
      set to the empty string: as written the lookup gives the empty
      string, as intended it gives True. */
  lemma EmptyVariableShadowsModules()
    ensures var env := map["MFS_DEBUG" := ""];
      var modules := [SettingsModule("pkg.base_settings", map["DEBUG" := Bool(true)], [])];
      LookupAsWritten(env, "MFS", modules, "DEBUG") == Ok(Str("")) &&
      LookupIntended(env, "MFS", modules, "DEBUG") == Ok(Bool(true))
  {
    assert Upper("DEBUG") == "DEBUG";
    assert EnvName("MFS", "DEBUG") == "MFS_DEBUG";
  }

  /** One `actual_settings` entry: the variable's value whenever it is
      set, even to the empty string, and then `environment` as source;
      otherwise the module's value and the last part of its name. */
  datatype Displayed = Displayed(value: Value, from: string)

  function Entry(m: SettingsModule, prefix: string, env: map<string, string>, name: string): Displayed {
    var key := EnvName(prefix, name);
    if key in env then Displayed(Str(env[key]), FromEnvironment)
    else Displayed(Attr(m, name), LastSegment(m.name, '.'))
  }

  /** A module reports a setting when it lists it in `DISPLAY_SETTINGS`
      and its value is truthy. */
  predicate Shows(m: SettingsModule, name: string) {
    name in m.display && Truthy(Attr(m, name))
  }

  /** The entries one module writes, for the first `names` of its display
      list. */
  function ModuleEntries(m: SettingsModule, names: seq<string>, prefix: string, env: map<string, string>)
    : map<string, Displayed>
  {
    if names == [] then map[]
    else
      var name := names[|names| - 1];
      var earlier := ModuleEntries(m, names[..|names| - 1], prefix, env);
      if Truthy(Attr(m, name)) then earlier[name := Entry(m, prefix, env, name)] else earlier
  }

  /** `actual_settings()` over the modules: the loop runs from the lowest
      priority module up, so a higher-priority module overwrites. */
  function ActualOf(modules: seq<SettingsModule>, prefix: string, env: map<string, string>): map<string, Displayed> {
    if modules == [] then map[]
    else ActualOf(modules[1..], prefix, env) + ModuleEntries(modules[0], modules[0].display, prefix, env)
  }

  /** A module writes exactly the names it lists with a truthy value, each
      with the entry for that module. */
  lemma {:induction false} ModuleEntriesProperties(m: SettingsModule, names: seq<string>, prefix: string,
                                                   env: map<string, string>)
    ensures forall name :: name in ModuleEntries(m, names, prefix, env) <==> name in names && Truthy(Attr(m, name))
    ensures forall name :: name in ModuleEntries(m, names, prefix, env) ==>
              ModuleEntries(m, names, prefix, env)[name] == Entry(m, prefix, env, name)
    decreases |names|
  {
    if names != [] {
      var init := names[..|names| - 1];
      ModuleEntriesProperties(m, init, prefix, env);
      assert names == init + [names[|names| - 1]];
    }
  }

  /** A setting is reported exactly when some module shows it, and then
      with the entry of the highest-priority module that shows it. */
  lemma {:induction false} ActualProperties(modules: seq<SettingsModule>, prefix: string, env: map<string, string>,
                                            name: string)
    ensures name in ActualOf(modules, prefix, env) <==> exists i :: 0 <= i < |modules| && Shows(modules[i], name)
    ensures name in ActualOf(modules, prefix, env) ==>
              exists i :: 0 <= i < |modules| && Shows(modules[i], name) &&
                (forall j :: 0 <= j < i ==> !Shows(modules[j], name)) &&
                ActualOf(modules, prefix, env)[name] == Entry(modules[i], prefix, env, name)
    decreases |modules|
  {
    if modules != [] {
      var tail := modules[1..];
      ActualProperties(tail, prefix, env, name);
      ModuleEntriesProperties(modules[0], modules[0].display, prefix, env);
      forall i | 0 <= i < |tail| ensures tail[i] == modules[i + 1] { }
      if !Shows(modules[0], name) && name in ActualOf(tail, prefix, env) {
        var i :| 0 <= i < |tail| && Shows(tail[i], name) && (forall j :: 0 <= j < i ==> !Shows(tail[j], name)) &&
                 ActualOf(tail, prefix, env)[name] == Entry(tail[i], prefix, env, name);
        assert Shows(modules[i + 1], name);
        assert forall j :: 0 <= j < i + 1 ==> !Shows(modules[j], name) by {
          forall j | 0 <= j < i + 1 ensures !Shows(modules[j], name) {
            if j > 0 {
              assert modules[j] == tail[j - 1];
            }
          }
        }
      } else if !Shows(modules[0], name) {
        forall i | 0 <= i < |modules| ensures !Shows(modules[i], name) {
          if i > 0 {
            assert modules[i] == tail[i - 1];
          }
        }
      }
    }
  }

  /** The modules a loader holds after a lookup that needs them. */
  function Loaded(modules: seq<SettingsModule>, package: string, environment: string,
                  importable: map<string, SettingsModule>): seq<SettingsModule>
  {
    if modules == [] then Imported(ModuleNames(package, environment, LoaderCommonPackage), importable) else modules
  }

  /** The loader of one settings package. */
  class Loader {
    const package: string
    const environment: string
    const prefix: string
    var modules: seq<SettingsModule>

    /** The constructor once the environment is known to be set: the
        modules are imported at once only when lazy loading is off. */
    constructor (package: string, environment: string, prefix: string, lazy: bool,
                 importable: map<string, SettingsModule>)
      ensures this.package == package && this.environment == environment && this.prefix == prefix
      ensures modules == (if lazy then [] else Imported(ModuleNames(package, environment, LoaderCommonPackage), importable))
    {
      this.package := package;
      this.environment := environment;
      this.prefix := prefix;
      var found: seq<SettingsModule> := [];
      if !lazy {
        found := ImportAll(ModuleNames(package, environment, LoaderCommonPackage), importable);
      }
      modules := found;
    }

    /** `_lazy_module_import()` */
    method LazyModuleImport(importable: map<string, SettingsModule>)
      modifies this`modules
      ensures modules == Imported(ModuleNames(package, environment, LoaderCommonPackage), importable)
    {
      modules := ImportAll(ModuleNames(package, environment, LoaderCommonPackage), importable);
    }

    /** `__getattr__(name)`: a non-empty variable answers without touching
        the modules; otherwise the modules are imported if there are none
        yet, and the lookup always ends as `LookupAsWritten`. */
    method GetAttr(name: string, env: map<string, string>, importable: map<string, SettingsModule>)
      returns (r: Result<Value, Failure>)
      modifies this`modules
      ensures var key := EnvName(prefix, name);
        modules == (if key in env && env[key] != "" then old(modules)
                    else Loaded(old(modules), package, environment, importable))
      ensures r == LookupAsWritten(env, prefix, modules, name)
    {
      var key := EnvName(prefix, name);
      var value: Option<Value> := if key in env then Some(Str(env[key])) else None;
      if !(value.Some? && value.value != Str("")) {
        if modules == [] {
          LazyModuleImport(importable);
        }
        if value.None? {
          r := LookupLoop(modules, name);
          return;
        }
      }
      r := Ok(value.value);
    }

    /** `actual_settings()` */
    method ActualSettings(env: map<string, string>, importable: map<string, SettingsModule>)
      returns (settings: map<string, Displayed>)
      modifies this`modules
      ensures modules == Loaded(old(modules), package, environment, importable)
      ensures settings == ActualOf(modules, prefix, env)
    {
      if modules == [] {
        LazyModuleImport(importable);
      }
      var all := modules;
      settings := map[];
      var i := |all|;
      while i > 0
        invariant 0 <= i <= |all|
        invariant modules == all && settings == ActualOf(all[i..], prefix, env)
      {
        i := i - 1;
        assert all[i..][1..] == all[i + 1..];
        settings := AddModuleEntries(settings, all[i], prefix, env);
      }
    }
  }

  /** The inner loop of `actual_settings` for one module. */
  method AddModuleEntries(settings: map<string, Displayed>, m: SettingsModule, prefix: string, env: map<string, string>)
    returns (r: map<string, Displayed>)
    ensures r == settings + ModuleEntries(m, m.display, prefix, env)
  {
    r := settings;
    for k := 0 to |m.display|
      invariant r == settings + ModuleEntries(m, m.display[..k], prefix, env)
    {
      var name := m.display[k];
      assert m.display[..k + 1][..k] == m.display[..k];
      if Truthy(Attr(m, name)) {
        r := r[name := Entry(m, prefix, env, name)];
      }
    }
    assert m.display[..|m.display|] == m.display;
  }

  /** `SettingsLoader(settings_package, mfs_environment_name,
      environment_prefix, modules_lazy_load)`: an unset or empty
      environment variable raises. */
  method NewLoader(package: string, environmentName: string, prefix: string, lazy: bool, env: map<string, string>,
                   importable: map<string, SettingsModule>)
    returns (r: Result<Loader, Failure>)
    ensures r.Err? <==> environmentName !in env || env[environmentName] == ""
    ensures r.Err? ==> r.error == EnvironmentMissing(environmentName)
    ensures r.Ok? ==>
              fresh(r.value) && r.value.environment == env[environmentName] && r.value.prefix == prefix &&
              r.value.modules ==
                (if lazy then [] else Imported(ModuleNames(package, env[environmentName], LoaderCommonPackage), importable))
  {
    if environmentName !in env || env[environmentName] == "" {
      return Err(EnvironmentMissing(environmentName));
    }
    var loader := new Loader(package, env[environmentName], prefix, lazy, importable);
    r := Ok(loader);
  }
}
