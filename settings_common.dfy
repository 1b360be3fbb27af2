/** `SettingsLoader` of the common package: settings are looked up in an
    ordered chain of settings modules (the package's environment module,
    the package's base module, then the common environment and base
    modules); the first module that defines the name with a value other
    than None wins. Importing is an oracle: `importable` maps each module
    name that imports to the module it gives. */
module CommonSettingsLoader {
  import opened Wrappers
  import opened Json
  import opened Exceptions

  /** An imported settings module: its `__name__`, its attributes, and its
      `DISPLAY_SETTINGS` list (empty when it has none). */
  datatype SettingsModule = SettingsModule(name: string, attrs: map<string, Value>, display: seq<string>)

  /** The package the common settings modules live in. */
  const CommonPackage := "prjname.common"

  /** `getattr(module, name, None)`, with None as `Null`. */
  function Attr(m: SettingsModule, name: string): Value {
    if name in m.attrs then m.attrs[name] else Null
  }

  /** What the constructor raises when the environment variable is unset
      or empty. */
  function EnvironmentMissing(environmentName: string): (f: Failure)
    ensures f.Typed? && f.error.cls == GeneralInfoException && WellFormed(f.error)
    ensures Argument(f.error) == Str(environmentName + " environment variable not found")
  {
    Raise(GeneralInfoException, environmentName + " environment variable not found")
  }

  /** What a lookup raises when no module has the name. */
  function NotInSettings(name: string): Failure {
    AttributeError(name + " was not found in settings")
  }

  /** The module names tried, highest priority first. */
  function ModuleNames(package: string, environment: string, common: string): seq<string> {
    [package + "." + environment + "_settings", package + ".base_settings",
     common + "." + environment + "_settings", common + ".base_settings"]
  }

  /** The modules the import loop keeps: those names that import, in
      order. */
  function Imported(names: seq<string>, importable: map<string, SettingsModule>): seq<SettingsModule> {
    if names == [] then []
    else
      var last := names[|names| - 1];
      Imported(names[..|names| - 1], importable) + (if last in importable then [importable[last]] else [])
  }

  /** Importing a list in two parts keeps the modules of the first part
      before those of the second: failed imports never reorder the rest. */
  lemma {:induction false} ImportedConcat(a: seq<string>, b: seq<string>, importable: map<string, SettingsModule>)
    ensures Imported(a + b, importable) == Imported(a, importable) + Imported(b, importable)
    decreases |b|
  {
    if b == [] {
      assert a + b == a;
    } else {
      var init := b[..|b| - 1];
      assert (a + b)[..|a + b| - 1] == a + init;
      ImportedConcat(a, init, importable);
    }
  }

  /** A module is kept exactly when some name imports to it; when every
      name imports, the modules are those of the names, one for one. */
  lemma {:induction false} ImportedMembers(names: seq<string>, importable: map<string, SettingsModule>)
    ensures |Imported(names, importable)| <= |names|
    ensures forall m :: m in Imported(names, importable) <==>
              exists j :: 0 <= j < |names| && names[j] in importable && importable[names[j]] == m
    ensures (forall j :: 0 <= j < |names| ==> names[j] in importable) ==>
              |Imported(names, importable)| == |names| &&
              forall j :: 0 <= j < |names| ==> Imported(names, importable)[j] == importable[names[j]]
    ensures (forall j :: 0 <= j < |names| ==> names[j] !in importable) ==> Imported(names, importable) == []
    decreases |names|
  {
    if names != [] {
      var init := names[..|names| - 1];
      ImportedMembers(init, importable);
      forall j | 0 <= j < |init| ensures names[j] == init[j] { }
      var r := Imported(names, importable);
      forall m ensures m in r <==> exists j :: 0 <= j < |names| && names[j] in importable && importable[names[j]] == m {
        if m in Imported(init, importable) {
          var j :| 0 <= j < |init| && init[j] in importable && importable[init[j]] == m;
          assert names[j] in importable && importable[names[j]] == m;
        }
      }
    }
  }

  /** `__getattr__(name)`: the value of the first module that has the name
      with a value other than None. */
  function FirstSet(modules: seq<SettingsModule>, name: string): Result<Value, Failure> {
    if modules == [] then Err(NotInSettings(name))
    else if Attr(modules[0], name) != Null then Ok(Attr(modules[0], name))
    else FirstSet(modules[1..], name)
  }

  /** A lookup succeeds exactly when some module sets the name, and then
      gives the value of the first such module; otherwise it raises
      `AttributeError`. */
  lemma {:induction false} FirstSetProperties(modules: seq<SettingsModule>, name: string)
    ensures FirstSet(modules, name).Ok? <==> exists i :: 0 <= i < |modules| && Attr(modules[i], name) != Null
    ensures FirstSet(modules, name).Ok? ==>
              exists i :: 0 <= i < |modules| && FirstSet(modules, name).value == Attr(modules[i], name) &&
                Attr(modules[i], name) != Null && forall j :: 0 <= j < i ==> Attr(modules[j], name) == Null
    ensures FirstSet(modules, name).Err? ==> FirstSet(modules, name).error == NotInSettings(name)
    decreases |modules|
  {
    if modules != [] && Attr(modules[0], name) == Null {
      var tail := modules[1..];
      FirstSetProperties(tail, name);
      forall i | 0 <= i < |tail| ensures tail[i] == modules[i + 1] { }
      if FirstSet(tail, name).Ok? {
        var i :| 0 <= i < |tail| && FirstSet(tail, name).value == Attr(tail[i], name) &&
                 Attr(tail[i], name) != Null && forall j :: 0 <= j < i ==> Attr(tail[j], name) == Null;
        assert FirstSet(modules, name).value == Attr(modules[i + 1], name);
      } else {
        forall i | 0 <= i < |modules| ensures Attr(modules[i], name) == Null {
          if i > 0 {
            assert modules[i] == tail[i - 1];
          }
        }
      }
    }
  }

  /** The import loop: every module that fails to import is skipped. */
  method ImportAll(names: seq<string>, importable: map<string, SettingsModule>) returns (modules: seq<SettingsModule>)
    ensures modules == Imported(names, importable)
  {
    modules := [];
    for i := 0 to |names|
      invariant modules == Imported(names[..i], importable)
    {
      assert names[..i + 1][..i] == names[..i];
      if names[i] in importable {
        modules := modules + [importable[names[i]]];
      }
    }
    assert names[..|names|] == names;
  }

  /** The lookup loop: advances through the modules until a value other
      than None is found. */
  method LookupLoop(modules: seq<SettingsModule>, name: string) returns (r: Result<Value, Failure>)
    ensures r == FirstSet(modules, name)
  {
    var value := Null;
    var i := 0;
    while value == Null
      invariant 0 <= i <= |modules|
      invariant value == Null ==> FirstSet(modules, name) == FirstSet(modules[i..], name)
      invariant value != Null ==> FirstSet(modules, name) == Ok(value)
      decreases |modules| - i, if value == Null then 1 else 0
    {
      if i == |modules| {
        return Err(NotInSettings(name));
      }
      assert modules[i..][1..] == modules[i + 1..];
      value := Attr(modules[i], name);
      i := i + 1;
    }
    r := Ok(value);
  }

  /** The loader: the settings modules found, in priority order. */
  class Loader {
    var modules: seq<SettingsModule>

    /** The constructor once the environment is known to be set. */
    constructor (package: string, environment: string, importable: map<string, SettingsModule>)
      ensures modules == Imported(ModuleNames(package, environment, CommonPackage), importable)
    {
      var found := ImportAll(ModuleNames(package, environment, CommonPackage), importable);
      modules := found;
    }

    /** `__getattr__(name)` */
    method GetAttr(name: string) returns (r: Result<Value, Failure>)
      ensures r == FirstSet(modules, name)
    {
      r := LookupLoop(modules, name);
    }
  }

  /** `SettingsLoader(settings_package, environment_name)`, with `env` the
      process environment: an unset or empty variable raises. */
  method NewLoader(package: string, environmentName: string, env: map<string, string>,
                   importable: map<string, SettingsModule>)
    returns (r: Result<Loader, Failure>)
    ensures r.Err? <==> environmentName !in env || env[environmentName] == ""
    ensures r.Err? ==> r.error == EnvironmentMissing(environmentName)
    ensures r.Ok? ==>
              fresh(r.value) &&
              r.value.modules == Imported(ModuleNames(package, env[environmentName], CommonPackage), importable)
  {
    if environmentName !in env || env[environmentName] == "" {
      return Err(EnvironmentMissing(environmentName));
    }
    var loader := new Loader(package, env[environmentName], importable);
    r := Ok(loader);
  }

  /** The priority order: the package's environment module wins over
      everything; failing that its base module wins over the common
      modules; a name no importable module sets raises `AttributeError`. */
  lemma ChainPriority(package: string, environment: string, importable: map<string, SettingsModule>, name: string)
    ensures var names := ModuleNames(package, environment, CommonPackage);
      && (names[0] in importable && Attr(importable[names[0]], name) != Null ==>
            FirstSet(Imported(names, importable), name) == Ok(Attr(importable[names[0]], name)))
      && ((names[0] !in importable || Attr(importable[names[0]], name) == Null) &&
          names[1] in importable && Attr(importable[names[1]], name) != Null ==>
            FirstSet(Imported(names, importable), name) == Ok(Attr(importable[names[1]], name)))
      && ((forall j :: 0 <= j < 4 && names[j] in importable ==> Attr(importable[names[j]], name) == Null) ==>
            FirstSet(Imported(names, importable), name) == Err(NotInSettings(name)))
  {
    var names := ModuleNames(package, environment, CommonPackage);
    var rest := Imported(names[2..], importable);
    assert names == names[..1] + names[1..2] + names[2..];
    ImportedConcat(names[..1] + names[1..2], names[2..], importable);
    ImportedConcat(names[..1], names[1..2], importable);
    assert names[..1][..0] == [] && names[1..2][..0] == [];
    var modules := Imported(names, importable);
    ImportedMembers(names, importable);
    FirstSetProperties(modules, name);
    if FirstSet(modules, name).Ok? {
      var i :| 0 <= i < |modules| && Attr(modules[i], name) != Null;
      assert modules[i] in modules;
    }
  }
}
