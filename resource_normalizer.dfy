/** Rule-driven reshaping of JSON resources (resource_normalizer.py): a
    rule picks values out of a resource by dotted paths and optionally
    transforms them; a tree of rules builds a new resource path by path.

    Values are immutable here, so `_set_resource_value_based_on_dotted_path`
    returns the updated resource instead of writing into a shared nested
    dict. */
module ResourceNormalizer {
  import opened Json
  import opened Wrappers
  import opened Strings
  import opened Exceptions

  /** `Rule(args, execute, default)`: `execute` is the transformation (given
      the keyword arguments; `None` when it raises), absent when the rule
      has none. */
  datatype Rule = Rule(args: seq<string>, execute: Option<map<string, Value> -> Option<Value>>, default: Value)

  /** A rules dict: each path maps to a rule or to a nested rules dict. */
  datatype RuleTree = Leaf(rule: Rule) | Nested(entries: seq<(string, RuleTree)>)

  function Segments(path: string): (keys: seq<string>)
    ensures |keys| >= 1
  {
    Split(path, '.')
  }

  // ---------------------------------------------------------------------
  // _get_resource_value_based_on_dotted_path

  /** The walk of the getter: each key is looked up with `.get(key,
      default)`; a value without `.get` (not a dict) ends the walk and is
      the result. */
  function GetPath(keys: seq<string>, resource: Value, default: Value): Value {
    if keys == [] || !resource.Dict? then resource
    else GetPath(keys[1..], if keys[0] in resource.fields then resource.fields[keys[0]] else default, default)
  }

  /** The walk composes: getting `a + b` is getting `b` from where `a`
      ended, including when `a` already stopped at a non-dict. */
  lemma {:induction false} GetPathConcat(a: seq<string>, b: seq<string>, resource: Value, default: Value)
    ensures GetPath(a + b, resource, default) == GetPath(b, GetPath(a, resource, default), default)
  {
    if a == [] {
      assert a + b == b;
    } else if !resource.Dict? {
      if b != [] {
        assert (a + b) != [];
      }
    } else {
      assert (a + b)[0] == a[0];
      assert (a + b)[1..] == a[1..] + b;
      var next := if a[0] in resource.fields then resource.fields[a[0]] else default;
      GetPathConcat(a[1..], b, next, default);
    }
  }

  /** The value at a path whose every segment is present. */
  predicate PathPresent(keys: seq<string>, resource: Value) {
    keys == [] || (resource.Dict? && keys[0] in resource.fields && PathPresent(keys[1..], resource.fields[keys[0]]))
  }

  function ValueAt(keys: seq<string>, resource: Value): Value
    requires PathPresent(keys, resource)
  {
    if keys == [] then resource else ValueAt(keys[1..], resource.fields[keys[0]])
  }

  /** When every segment is present the getter returns the nested value,
      whatever the default; a missing key in a dict substitutes the default
      and the walk goes on from it; a non-dict resource is returned as
      is. */
  lemma {:induction false} GetPathCases(keys: seq<string>, resource: Value, default: Value)
    ensures PathPresent(keys, resource) ==> GetPath(keys, resource, default) == ValueAt(keys, resource)
    ensures keys != [] && resource.Dict? && keys[0] !in resource.fields ==>
              GetPath(keys, resource, default) == GetPath(keys[1..], default, default)
    ensures !resource.Dict? ==> GetPath(keys, resource, default) == resource
  {
    if keys != [] && resource.Dict? && keys[0] in resource.fields {
      GetPathCases(keys[1..], resource.fields[keys[0]], default);
    }
  }

  /** `_get_resource_value_based_on_dotted_path(path, resource, default)` */
  method GetResourceValue(path: string, resource: Value, default: Value) returns (v: Value)
    ensures v == GetPath(Segments(path), resource, default)
  {
    var keys := Segments(path);
    v := resource;
    var i := 0;
    while i < |keys| && v.Dict?
      invariant 0 <= i <= |keys|
      invariant GetPath(keys[i..], v, default) == GetPath(keys, resource, default)
    {
      assert keys[i..][1..] == keys[i + 1..];
      v := if keys[i] in v.fields then v.fields[keys[i]] else default;
      i := i + 1;
    }
  }

  // ---------------------------------------------------------------------
  // _set_resource_value_based_on_dotted_path

  /** The `TypeError` of `resource[key]`, with a `str` key, on a decoded
      JSON value that is not a dict (its strings are `unicode`). */
  function IndexFailure(resource: Value): Failure
    requires !resource.Dict?
  {
    match resource
    case Null => TypeError("'NoneType' object has no attribute '__getitem__'")
    case Bool(_) => TypeError("'bool' object has no attribute '__getitem__'")
    case Int(_) => TypeError("'int' object has no attribute '__getitem__'")
    case Str(_) => TypeError("string indices must be integers")
    case List(_) => TypeError("list indices must be integers, not str")
  }

  /** The `TypeError` of `resource[key] = value`, with a `str` key, on a
      decoded JSON value that is not a dict. */
  function AssignFailure(resource: Value): Failure
    requires !resource.Dict?
  {
    match resource
    case Null => TypeError("'NoneType' object does not support item assignment")
    case Bool(_) => TypeError("'bool' object does not support item assignment")
    case Int(_) => TypeError("'int' object does not support item assignment")
    case Str(_) => TypeError("'unicode' object does not support item assignment")
    case List(_) => TypeError("list indices must be integers, not str")
  }

  /** Every intermediate key must exist (`resource[key]` raises `KeyError`
      otherwise) and every container on the way must be a dict (anything
      else raises the `TypeError` of indexing it, or of assigning into it
      at the last key); the last key is assigned. */
  function SetPath(keys: seq<string>, v: Value, resource: Value): Result<Value, Failure>
    requires |keys| >= 1
  {
    if !resource.Dict? then Err(if |keys| == 1 then AssignFailure(resource) else IndexFailure(resource))
    else if |keys| == 1 then Ok(Dict(resource.fields[keys[0] := v]))
    else if keys[0] !in resource.fields then Err(KeyError("'" + keys[0] + "'"))
    else
      match SetPath(keys[1..], v, resource.fields[keys[0]])
      case Err(e) => Err(e)
      case Ok(inner) => Ok(Dict(resource.fields[keys[0] := inner]))
  }

  /** A successful set leaves the value at the path, every intermediate
      segment present, and every other key of the top-level dict as it
      was. */
  lemma {:induction false} SetPathProperties(keys: seq<string>, v: Value, resource: Value, default: Value)
    requires |keys| >= 1 && SetPath(keys, v, resource).Ok?
    ensures var r := SetPath(keys, v, resource).value;
      && PathPresent(keys, r) && ValueAt(keys, r) == v
      && GetPath(keys, r, default) == v
      && r.Dict? && resource.Dict? && r.fields.Keys == resource.fields.Keys + {keys[0]}
      && (forall k :: k in resource.fields && k != keys[0] ==> r.fields[k] == resource.fields[k])
  {
    var r := SetPath(keys, v, resource).value;
    if |keys| > 1 {
      SetPathProperties(keys[1..], v, resource.fields[keys[0]], default);
    }
    GetPathCases(keys, r, default);
  }

  /** Setting fails exactly when an intermediate segment is missing or a
      container on the way is not a dict. */
  lemma {:induction false} SetPathFails(keys: seq<string>, v: Value, resource: Value)
    requires |keys| >= 1
    ensures SetPath(keys, v, resource).Err? <==>
            (!resource.Dict? || !PathPresent(keys[..|keys| - 1], resource) || !ValueAt(keys[..|keys| - 1], resource).Dict?)
  {
    if resource.Dict? && |keys| > 1 {
      assert keys[..|keys| - 1][0] == keys[0];
      if keys[0] in resource.fields {
        SetPathFails(keys[1..], v, resource.fields[keys[0]]);
        assert keys[1..][..|keys[1..]| - 1] == keys[..|keys| - 1][1..];
      }
    }
  }

  /** A failed set raises only `KeyError`, for a missing intermediate
      segment, or `TypeError`, for a container that is not a dict. */
  lemma {:induction false} SetPathErrorKinds(keys: seq<string>, v: Value, resource: Value)
    requires |keys| >= 1
    ensures var r := SetPath(keys, v, resource);
      r.Err? ==> r.error.KeyError? || r.error.TypeError?
    ensures !resource.Dict? ==> SetPath(keys, v, resource).Err? && SetPath(keys, v, resource).error.TypeError?
  {
    if resource.Dict? && |keys| > 1 && keys[0] in resource.fields {
      SetPathErrorKinds(keys[1..], v, resource.fields[keys[0]]);
    }
  }

  /** Assigning into a string, and indexing through one, raise Python's
      own `TypeError`s. */
  lemma SetPathThroughString(s: string, v: Value)
    ensures SetPath(["a", "b"], v, Dict(map["a" := Str(s)])) ==
              Err(TypeError("'unicode' object does not support item assignment"))
    ensures SetPath(["a", "b", "c"], v, Dict(map["a" := Str(s)])) ==
              Err(TypeError("string indices must be integers"))
  {
    var d := Dict(map["a" := Str(s)]);
    assert ["a", "b"][1..] == ["b"];
    assert SetPath(["b"], v, Str(s)) == Err(AssignFailure(Str(s)));
    assert SetPath(["a", "b"], v, d) == SetPath(["b"], v, Str(s));
    assert ["a", "b", "c"][1..] == ["b", "c"];
    assert SetPath(["b", "c"], v, Str(s)) == Err(IndexFailure(Str(s)));
    assert SetPath(["a", "b", "c"], v, d) == SetPath(["b", "c"], v, Str(s));
  }

  /** Indexing through an integer raises the `TypeError` of its missing
      `__getitem__`. */
  lemma SetPathThroughInt(n: int, v: Value)
    ensures SetPath(["a", "b", "c"], v, Dict(map["a" := Int(n)])) ==
              Err(TypeError("'int' object has no attribute '__getitem__'"))
  {
    assert ["a", "b", "c"][1..] == ["b", "c"];
    assert SetPath(["b", "c"], v, Int(n)) == Err(IndexFailure(Int(n)));
    assert SetPath(["a", "b", "c"], v, Dict(map["a" := Int(n)])) == SetPath(["b", "c"], v, Int(n));
  }

  // ---------------------------------------------------------------------
  // _normalize

  /** The name an argument path is passed under: its last segment. */
  function ArgName(path: string): string {
    LastSegment(path, '.')
  }

  /** The message a rule without `execute` and several names raises with. */
  const TooManyArgs := "too many args for a rule with no \"execute\""

  /** The `KeyError` text of `popitem()` on an empty dict. */
  const EmptyPopitem := "'popitem(): dictionary is empty'"

  /** The keyword arguments `_normalize` builds: each argument path's
      value under its last segment, a later path replacing an earlier one
      with the same name. */
  function KwArgs(args: seq<string>, resource: Value, default: Value): map<string, Value> {
    if args == [] then map[]
    else KwArgs(args[..|args| - 1], resource, default)[ArgName(args[|args| - 1]) := GetPath(Segments(args[|args| - 1]), resource, default)]
  }

  /** The names passed, one per distinct last segment. */
  function ArgNames(args: seq<string>): set<string> {
    set i | 0 <= i < |args| :: ArgName(args[i])
  }

  /** What `_normalize` gives. Without `execute` and with a single name,
      `popitem` returns the value under that name, which is the last
      argument's name. */
  function NormalizeSpec(rule: Rule, resource: Value): Result<Value, Failure> {
    var kwargs := KwArgs(rule.args, resource, if rule.execute.None? then rule.default else Null);
    if rule.execute.Some? then
      var out := rule.execute.value(kwargs);
      Ok(if out.Some? then out.value else rule.default)
    else if |kwargs.Keys| > 1 then Err(Raise(InvalidArgument, TooManyArgs))
    else if rule.args == [] then Err(KeyError(EmptyPopitem))
    else Ok(kwargs[ArgName(rule.args[|rule.args| - 1])])
  }

  /** The keyword-argument loop of `_normalize`. */
  method CollectKwArgs(args: seq<string>, resource: Value, fallback: Value) returns (kwargs: map<string, Value>)
    ensures kwargs == KwArgs(args, resource, fallback)
  {
    kwargs := map[];
    var i := 0;
    while i < |args|
      invariant 0 <= i <= |args|
      invariant kwargs == KwArgs(args[..i], resource, fallback)
    {
      var v := GetResourceValue(args[i], resource, fallback);
      assert args[..i + 1][..i] == args[..i];
      kwargs := kwargs[ArgName(args[i]) := v];
      i := i + 1;
    }
    assert args[..i] == args;
  }

  /** `_normalize(rule, resource)` */
  method Normalize(rule: Rule, resource: Value) returns (r: Result<Value, Failure>)
    ensures r == NormalizeSpec(rule, resource)
  {
    var kwargs := CollectKwArgs(rule.args, resource, if rule.execute.None? then rule.default else Null);
    if rule.execute.Some? {
      var out := rule.execute.value(kwargs);
      r := Ok(if out.Some? then out.value else rule.default);
    } else if |kwargs.Keys| > 1 {
      r := Err(Raise(InvalidArgument, TooManyArgs));
    } else if |rule.args| == 0 {
      r := Err(KeyError(EmptyPopitem));
    } else {
      r := Ok(kwargs[ArgName(rule.args[|rule.args| - 1])]);
    }
  }

  /** The keyword names are exactly the last segments of the argument
      paths, and the last path's name holds the last path's value. */
  lemma {:induction false} KwArgsNames(args: seq<string>, resource: Value, default: Value)
    ensures KwArgs(args, resource, default).Keys == ArgNames(args)
    ensures args != [] ==> KwArgs(args, resource, default)[ArgName(args[|args| - 1])] == GetPath(Segments(args[|args| - 1]), resource, default)
    decreases |args|
  {
    if args != [] {
      var init := args[..|args| - 1];
      KwArgsNames(init, resource, default);
      forall x | x in ArgNames(args) ensures x in ArgNames(init) + {ArgName(args[|args| - 1])} {
        var i :| 0 <= i < |args| && ArgName(args[i]) == x;
        if i < |init| { assert init[i] == args[i]; }
      }
      forall x | x in ArgNames(init) ensures x in ArgNames(args) {
        var i :| 0 <= i < |init| && ArgName(init[i]) == x;
        assert args[i] == init[i];
      }
    }
  }

  /** A set with two different members has more than one member, and one
      with more than one member has two different members. */
  lemma TwoMembers(s: set<string>)
    ensures |s| > 1 <==> exists a, b :: a in s && b in s && a != b
  {
    if exists a, b :: a in s && b in s && a != b {
      var a, b :| a in s && b in s && a != b;
      assert |s - {a}| == |s| - 1;
      assert b in s - {a};
    }
    if |s| > 1 {
      var a :| a in s;
      assert |s - {a}| == |s| - 1;
      assert s - {a} != {};
      var b :| b in s - {a};
      assert a in s && b in s && a != b;
    }
  }

  /** Two argument paths have different last segments exactly when more
      than one name is passed. */
  lemma DistinctArgNames(args: seq<string>)
    ensures (exists i, j :: 0 <= i < j < |args| && ArgName(args[i]) != ArgName(args[j])) <==> |ArgNames(args)| > 1
  {
    TwoMembers(ArgNames(args));
    if exists a, b :: a in ArgNames(args) && b in ArgNames(args) && a != b {
      var a, b :| a in ArgNames(args) && b in ArgNames(args) && a != b;
      var i :| 0 <= i < |args| && ArgName(args[i]) == a;
      var j :| 0 <= j < |args| && ArgName(args[j]) == b;
      if i < j {
        assert 0 <= i < j < |args| && ArgName(args[i]) != ArgName(args[j]);
      } else {
        assert 0 <= j < i < |args| && ArgName(args[j]) != ArgName(args[i]);
      }
    }
    if exists i, j :: 0 <= i < j < |args| && ArgName(args[i]) != ArgName(args[j]) {
      var i, j :| 0 <= i < j < |args| && ArgName(args[i]) != ArgName(args[j]);
      assert ArgName(args[i]) in ArgNames(args) && ArgName(args[j]) in ArgNames(args);
    }
  }

  /** Without `execute`, a rule raises `InvalidArgument` exactly when two
      of its argument paths have different last segments. */
  lemma NormalizeTooManyArgs(rule: Rule, resource: Value)
    requires rule.execute.None?
    ensures (exists i, j :: 0 <= i < j < |rule.args| && ArgName(rule.args[i]) != ArgName(rule.args[j])) <==>
            NormalizeSpec(rule, resource) == Err(Raise(InvalidArgument, TooManyArgs))
  {
    KwArgsNames(rule.args, resource, rule.default);
    DistinctArgNames(rule.args);
    if |ArgNames(rule.args)| <= 1 && rule.args != [] {
      assert NormalizeSpec(rule, resource).Ok?;
    }
  }

  /** Without `execute` and without arguments, the rule fails with the
      `KeyError` of `popitem` on an empty dict. */
  lemma NormalizeNoArgs(rule: Rule, resource: Value)
    requires rule.execute.None? && rule.args == []
    ensures NormalizeSpec(rule, resource) == Err(KeyError(EmptyPopitem))
  {
    assert |KwArgs(rule.args, resource, rule.default).Keys| == 0;
  }

  /** Without `execute` and with all argument paths under one name, the
      rule yields the value read for its last path, the rule's default
      standing in for a missing key. */
  lemma NormalizeOneName(rule: Rule, resource: Value)
    requires rule.execute.None? && rule.args != []
    requires forall i :: 0 <= i < |rule.args| ==> ArgName(rule.args[i]) == ArgName(rule.args[0])
    ensures NormalizeSpec(rule, resource) == Ok(GetPath(Segments(rule.args[|rule.args| - 1]), resource, rule.default))
  {
    var args := rule.args;
    KwArgsNames(args, resource, rule.default);
    assert ArgNames(args) == {ArgName(args[0])};
  }

  /** With `execute`, a path that does not resolve is passed as None, and
      a raising `execute` yields the rule's default. */
  lemma NormalizeWithExecute(rule: Rule, resource: Value)
    requires rule.execute.Some?
    ensures var kwargs := KwArgs(rule.args, resource, Null);
      var out := rule.execute.value(kwargs);
      && NormalizeSpec(rule, resource) == Ok(if out.Some? then out.value else rule.default)
      && kwargs.Keys == ArgNames(rule.args)
      && (rule.args != [] ==> kwargs[ArgName(rule.args[|rule.args| - 1])] == GetPath(Segments(rule.args[|rule.args| - 1]), resource, Null))
  {
    KwArgsNames(rule.args, resource, Null);
  }

  // ---------------------------------------------------------------------
  // normalize_resource, normalize_resources, normalize_response

  /** The value a rule tree produces for a resource. */
  function TreeValue(resource: Value, t: RuleTree): Result<Value, Failure>
    decreases t, 1
  {
    match t
    case Leaf(rule) => NormalizeSpec(rule, resource)
    case Nested(entries) => Build(resource, t, entries, Dict(map[]))
  }

  /** Writing the entries' values into `acc`, in order; the first failure
      ends the build. */
  function Build(resource: Value, ghost parent: RuleTree, entries: seq<(string, RuleTree)>, acc: Value): Result<Value, Failure>
    requires forall i :: 0 <= i < |entries| ==> entries[i].1 < parent
    decreases parent, 0, |entries|
  {
    if entries == [] then Ok(acc)
    else
      match TreeValue(resource, entries[0].1)
      case Err(e) => Err(e)
      case Ok(v) =>
        match SetPath(Segments(entries[0].0), v, acc)
        case Err(e) => Err(e)
        case Ok(acc') => Build(resource, parent, entries[1..], acc')
  }

  /** What `normalize_resource(resource, rules)` gives. */
  function NormalizeResourceSpec(resource: Value, rules: seq<(string, RuleTree)>): Result<Value, Failure> {
    TreeValue(resource, Nested(rules))
  }

  /** The first segments of the entries' paths. */
  function Heads(entries: seq<(string, RuleTree)>): set<string> {
    set i | 0 <= i < |entries| :: Segments(entries[i].0)[0]
  }

  /** A successful build writes one entry per rule path: the top level of
      the result holds exactly the accumulator's keys and the first segment
      of every rule path. */
  lemma {:induction false} BuildKeys(resource: Value, parent: RuleTree, entries: seq<(string, RuleTree)>, acc: Value)
    requires forall i :: 0 <= i < |entries| ==> entries[i].1 < parent
    requires acc.Dict?
    requires Build(resource, parent, entries, acc).Ok?
    ensures Build(resource, parent, entries, acc).value.Dict?
    ensures Build(resource, parent, entries, acc).value.fields.Keys == acc.fields.Keys + Heads(entries)
    decreases |entries|
  {
    if entries != [] {
      var v := TreeValue(resource, entries[0].1).value;
      var keys := Segments(entries[0].0);
      var acc' := SetPath(keys, v, acc).value;
      SetPathProperties(keys, v, acc, Null);
      BuildKeys(resource, parent, entries[1..], acc');
      assert Heads(entries) == {keys[0]} + Heads(entries[1..]) by {
        forall x | x in Heads(entries) ensures x in {keys[0]} + Heads(entries[1..]) {
          var i :| 0 <= i < |entries| && Segments(entries[i].0)[0] == x;
          if i > 0 { assert entries[1..][i - 1] == entries[i]; }
        }
        forall x | x in Heads(entries[1..]) ensures x in Heads(entries) {
          var i :| 0 <= i < |entries[1..]| && Segments(entries[1..][i].0)[0] == x;
          assert entries[i + 1] == entries[1..][i];
        }
      }
    } else {
      assert Heads(entries) == {};
    }
  }

  /** A plain (undotted) rule path that no later rule path starts with
      holds its own rule's value after the build (for a nested rules dict,
      the same resource normalised by those rules). */
  lemma {:induction false} BuildPlainPath(resource: Value, parent: RuleTree, entries: seq<(string, RuleTree)>, acc: Value, i: nat)
    requires forall i :: 0 <= i < |entries| ==> entries[i].1 < parent
    requires acc.Dict?
    requires Build(resource, parent, entries, acc).Ok?
    requires i < |entries| && '.' !in entries[i].0
    requires forall j :: i < j < |entries| ==> Segments(entries[j].0)[0] != entries[i].0
    ensures TreeValue(resource, entries[i].1).Ok?
    ensures var r := Build(resource, parent, entries, acc).value;
      r.Dict? && entries[i].0 in r.fields && r.fields[entries[i].0] == TreeValue(resource, entries[i].1).value
    decreases |entries|
  {
    var v := TreeValue(resource, entries[0].1).value;
    var keys := Segments(entries[0].0);
    var acc' := SetPath(keys, v, acc).value;
    SetPathProperties(keys, v, acc, Null);
    if i == 0 {
      SplitWithoutSeparator(entries[0].0, '.');
      forall j | 0 <= j < |entries[1..]| ensures Segments(entries[1..][j].0)[0] != entries[0].0 {
        assert entries[1..][j] == entries[j + 1];
      }
      UntouchedKey(resource, parent, entries[1..], acc', entries[0].0);
    } else {
      assert entries[1..][i - 1] == entries[i];
      forall j | i - 1 < j < |entries[1..]| ensures Segments(entries[1..][j].0)[0] != entries[1..][i - 1].0 {
        assert entries[1..][j] == entries[j + 1];
      }
      BuildPlainPath(resource, parent, entries[1..], acc', i - 1);
    }
  }

  /** A top-level key that no entry's first segment names keeps its value
      through a build. */
  lemma {:induction false} UntouchedKey(resource: Value, parent: RuleTree, entries: seq<(string, RuleTree)>, acc: Value, k: string)
    requires forall i :: 0 <= i < |entries| ==> entries[i].1 < parent
    requires acc.Dict? && Build(resource, parent, entries, acc).Ok? && k in acc.fields
    requires forall j :: 0 <= j < |entries| ==> Segments(entries[j].0)[0] != k
    ensures Build(resource, parent, entries, acc).value.Dict?
    ensures k in Build(resource, parent, entries, acc).value.fields
    ensures Build(resource, parent, entries, acc).value.fields[k] == acc.fields[k]
    decreases |entries|
  {
    if entries != [] {
      var v := TreeValue(resource, entries[0].1).value;
      var ks := Segments(entries[0].0);
      var acc' := SetPath(ks, v, acc).value;
      SetPathProperties(ks, v, acc, Null);
      UntouchedKey(resource, parent, entries[1..], acc', k);
    } else {
      assert Build(resource, parent, entries, acc) == Ok(acc);
    }
  }

  /** The rule entries under `parent`, normalised into a fresh dict: the
      loop of `normalize_resource`, descending into nested rules dicts. */
  method BuildEntries(resource: Value, ghost parent: RuleTree, entries: seq<(string, RuleTree)>)
    returns (r: Result<Value, Failure>)
    requires forall i :: 0 <= i < |entries| ==> entries[i].1 < parent
    ensures r == Build(resource, parent, entries, Dict(map[]))
    decreases parent, 0
  {
    var normalized := Dict(map[]);
    var i := 0;
    while i < |entries|
      invariant 0 <= i <= |entries|
      invariant Build(resource, parent, entries[i..], normalized) == Build(resource, parent, entries, Dict(map[]))
    {
      var (path, rule) := entries[i];
      assert entries[i..][1..] == entries[i + 1..];
      var value := RuleValue(resource, rule);
      if value.Err? {
        return Err(value.error);
      }
      var written := SetPath(Segments(path), value.value, normalized);
      if written.Err? {
        return Err(written.error);
      }
      normalized := written.value;
      i := i + 1;
    }
    r := Ok(normalized);
  }

  /** One rule's value: a nested rules dict is normalised recursively, a
      rule by `_normalize`. */
  method RuleValue(resource: Value, t: RuleTree) returns (value: Result<Value, Failure>)
    ensures value == TreeValue(resource, t)
    decreases t, 1
  {
    if t.Nested? {
      value := BuildEntries(resource, t, t.entries);
    } else {
      value := Normalize(t.rule, resource);
    }
  }

  /** `normalize_resource(resource, rules)` */
  method NormalizeResource(resource: Value, rules: seq<(string, RuleTree)>) returns (r: Result<Value, Failure>)
    ensures r == NormalizeResourceSpec(resource, rules)
  {
    r := BuildEntries(resource, Nested(rules), rules);
  }

  /** What `normalize_resources` gives: every resource normalised, in
      order, or the first failure. */
  function NormalizeAll(resources: seq<Value>, rules: seq<(string, RuleTree)>): Result<seq<Value>, Failure> {
    if resources == [] then Ok([])
    else
      match NormalizeResourceSpec(resources[0], rules)
      case Err(e) => Err(e)
      case Ok(v) =>
        match NormalizeAll(resources[1..], rules)
        case Err(e) => Err(e)
        case Ok(rest) => Ok([v] + rest)
  }

  /** Normalising a list keeps its length and order, normalising each
      element on its own; it fails exactly when some element fails, with
      the first failing element's failure. */
  lemma {:induction false} NormalizeAllElementwise(resources: seq<Value>, rules: seq<(string, RuleTree)>)
    ensures NormalizeAll(resources, rules).Ok? <==>
            forall i :: 0 <= i < |resources| ==> NormalizeResourceSpec(resources[i], rules).Ok?
    ensures NormalizeAll(resources, rules).Ok? ==>
            |NormalizeAll(resources, rules).value| == |resources|
            && forall i :: 0 <= i < |resources| ==>
                 NormalizeAll(resources, rules).value[i] == NormalizeResourceSpec(resources[i], rules).value
    ensures NormalizeAll(resources, rules).Err? ==>
            exists i :: 0 <= i < |resources| && NormalizeResourceSpec(resources[i], rules).Err?
              && NormalizeAll(resources, rules).error == NormalizeResourceSpec(resources[i], rules).error
              && forall j :: 0 <= j < i ==> NormalizeResourceSpec(resources[j], rules).Ok?
    decreases |resources|
  {
    if resources != [] {
      var tail := resources[1..];
      NormalizeAllElementwise(tail, rules);
      forall i | 0 <= i < |tail| ensures tail[i] == resources[i + 1] { }
      if NormalizeResourceSpec(resources[0], rules).Ok? && NormalizeAll(tail, rules).Err? {
        var i :| 0 <= i < |tail| && NormalizeResourceSpec(tail[i], rules).Err?
              && NormalizeAll(tail, rules).error == NormalizeResourceSpec(tail[i], rules).error
              && forall j :: 0 <= j < i ==> NormalizeResourceSpec(tail[j], rules).Ok?;
        assert NormalizeResourceSpec(resources[i + 1], rules).Err?;
        forall j | 0 <= j < i + 1 ensures NormalizeResourceSpec(resources[j], rules).Ok? {
          if j > 0 { assert resources[j] == tail[j - 1]; }
        }
      }
      if NormalizeResourceSpec(resources[0], rules).Ok? && NormalizeAll(tail, rules).Ok? {
        forall i | 0 <= i < |resources| ensures NormalizeResourceSpec(resources[i], rules).Ok? {
          if i > 0 { assert resources[i] == tail[i - 1]; }
        }
      }
    }
  }

  /** `normalize_resources(resources, rules)` */
  method NormalizeResources(resources: seq<Value>, rules: seq<(string, RuleTree)>) returns (r: Result<seq<Value>, Failure>)
    ensures r == NormalizeAll(resources, rules)
  {
    var normalized: seq<Value> := [];
    var i := 0;
    assert resources[0..] == resources;
    if NormalizeAll(resources, rules).Ok? {
      assert [] + NormalizeAll(resources, rules).value == NormalizeAll(resources, rules).value;
    }
    while i < |resources|
      invariant 0 <= i <= |resources|
      invariant NormalizeAll(resources, rules) ==
        match NormalizeAll(resources[i..], rules)
        case Err(e) => Err(e)
        case Ok(rest) => Ok(normalized + rest)
    {
      assert resources[i..][1..] == resources[i + 1..];
      var one := NormalizeResource(resources[i], rules);
      if one.Err? {
        return Err(one.error);
      }
      if NormalizeAll(resources[i + 1..], rules).Ok? {
        var rest := NormalizeAll(resources[i + 1..], rules).value;
        assert normalized + ([one.value] + rest) == (normalized + [one.value]) + rest;
      }
      normalized := normalized + [one.value];
      i := i + 1;
    }
    assert normalized + [] == normalized;
    r := Ok(normalized);
  }

  /** Python 2's name of a decoded JSON value's type. */
  function PyTypeName(v: Value): string {
    match v
    case Null => "NoneType"
    case Bool(_) => "bool"
    case Int(_) => "int"
    case Str(_) => "unicode"
    case List(_) => "list"
    case Dict(_) => "dict"
  }

  /** Python 2's `str` of a JSON value's type. */
  function TypeName(v: Value): string {
    "<type '" + PyTypeName(v) + "'>"
  }

  /** `except KeyError as ex: raise ValueError('Normalization error: %s' % ex)` */
  function KeyErrorAsValueError<T>(r: Result<T, Failure>): Result<T, Failure> {
    if r.Err? && r.error.KeyError? then Err(ValueError("Normalization error: " + r.error.text)) else r
  }

  /** `normalize_response(response, rules)`: no rules, no change; a dict is
      normalised as one resource and a list element by element; anything
      else, and any `KeyError` on the way, is a `ValueError`. */
  function NormalizeResponse(response: Value, rules: Option<seq<(string, RuleTree)>>): (r: Result<Value, Failure>)
    ensures rules.None? ==> r == Ok(response)
    ensures r.Err? ==> !r.error.KeyError?
  {
    match rules
    case None => Ok(response)
    case Some(rs) =>
      if response.Dict? then KeyErrorAsValueError(NormalizeResourceSpec(response, rs))
      else if response.List? then
        match KeyErrorAsValueError(NormalizeAll(response.items, rs))
        case Err(e) => Err(e)
        case Ok(items) => Ok(List(items))
      else Err(ValueError("Normalization error: " + TypeName(response)))
  }

  /** The dispatch of `normalize_response`, stated per kind of response:
      a `KeyError` on the way becomes `ValueError('Normalization error: '
      + str(ex))`, whose text is the missing key's repr (or `popitem`'s
      message), and every other failure passes unchanged. */
  lemma NormalizeResponseDispatch(response: Value, rules: seq<(string, RuleTree)>)
    ensures response.Dict? && NormalizeResourceSpec(response, rules).Ok? ==>
              NormalizeResponse(response, Some(rules)) == NormalizeResourceSpec(response, rules)
    ensures response.Dict? && NormalizeResourceSpec(response, rules).Err? ==>
              var e := NormalizeResourceSpec(response, rules).error;
              NormalizeResponse(response, Some(rules)) ==
                (if e.KeyError? then Err(ValueError("Normalization error: " + e.text)) else Err(e))
    ensures response.List? && NormalizeAll(response.items, rules).Err? ==>
              var e := NormalizeAll(response.items, rules).error;
              NormalizeResponse(response, Some(rules)) ==
                (if e.KeyError? then Err(ValueError("Normalization error: " + e.text)) else Err(e))
    ensures response.List? && NormalizeAll(response.items, rules).Ok? ==>
              NormalizeResponse(response, Some(rules)) == Ok(List(NormalizeAll(response.items, rules).value))
              && |NormalizeResponse(response, Some(rules)).value.items| == |response.items|
    ensures !response.Dict? && !response.List? ==>
              NormalizeResponse(response, Some(rules)) == Err(ValueError("Normalization error: " + TypeName(response)))
  {
    if response.List? {
      NormalizeAllElementwise(response.items, rules);
    }
  }
}
