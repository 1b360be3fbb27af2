/** The dict subclasses of the utilities package: `DotNotationDict`, which
    reads and writes nested dicts through dotted keys, and
    `BidirectionalDict`, which stores every pair in both directions. */
module Dictionaries {
  import opened Wrappers
  import opened Json
  import opened Strings
  import opened Exceptions

  /** The `KeyError` Python raises for a missing string key. */
  function MissingKey(key: string): Failure {
    KeyError("'" + key + "'")
  }

  /** `str(n)` for a natural number. */
  function Decimal(n: nat): string
    decreases n
  {
    var digit := "0123456789"[n % 10];
    if n < 10 then [digit] else Decimal(n / 10) + [digit]
  }

  /** The `ValueError` text of `dict()` for an update sequence element of
      the wrong length (Python 2.7). */
  function LengthMessage(index: nat, length: nat): string {
    "dictionary update sequence element #" + Decimal(index) + " has length " + Decimal(length) + "; 2 is required"
  }

  /** The `TypeError` text of `dict()` for an update sequence element
      that is not iterable (Python 2.7). */
  function NotASequence(index: nat): string {
    "cannot convert dictionary update sequence element #" + Decimal(index) + " to a sequence"
  }

  /** What `dict(items)` raises for the element at `index`, if anything:
      it must be iterable, of length two, with a hashable first item. */
  function ElementFailure(e: Value, index: nat): (r: Option<Failure>)
    ensures r.Some? ==> r.value.TypeError? || r.value.ValueError?
    ensures e.Str? ==> (r.None? <==> |e.s| == 2)
  {
    match e
    case Null => Some(TypeError(NotASequence(index)))
    case Bool(_) => Some(TypeError(NotASequence(index)))
    case Int(_) => Some(TypeError(NotASequence(index)))
    case Str(t) => if |t| != 2 then Some(ValueError(LengthMessage(index, |t|))) else None
    case List(xs) =>
      if |xs| != 2 then Some(ValueError(LengthMessage(index, |xs|)))
      else if xs[0].List? then Some(TypeError("unhashable type: 'list'"))
      else if xs[0].Dict? then Some(TypeError("unhashable type: 'dict'"))
      else None
    case Dict(f) => if |f| != 2 then Some(ValueError(LengthMessage(index, |f|))) else None
  }

  /** What `dict(items)` raises for a list: the failure of its first bad
      element, counting from `index`. */
  function PairsFailure(items: seq<Value>, index: nat): (r: Option<Failure>)
    ensures r.Some? ==> r.value.TypeError? || r.value.ValueError?
    ensures r.None? <==> forall k :: 0 <= k < |items| ==> ElementFailure(items[k], index + k).None?
    decreases |items|
  {
    if items == [] then None
    else if ElementFailure(items[0], index).Some? then ElementFailure(items[0], index)
    else PairsFailure(items[1..], index + 1)
  }

  /** What `DotNotationDict(v)` raises for a value other than a dict or
      None, whose inherited `dict(v)` conversion runs: booleans and
      integers are not iterable, a non-empty string has elements of length
      one, and a list must hold pairs. */
  function WrapFailure(v: Value): (r: Option<Failure>)
    ensures r.Some? ==> r.value.TypeError? || r.value.ValueError?
    ensures v.Bool? || v.Int? || (v.Str? && v.s != "") ==> r.Some?
  {
    match v
    case Bool(_) => Some(TypeError("'bool' object is not iterable"))
    case Int(_) => Some(TypeError("'int' object is not iterable"))
    case Str(t) => if t == "" then None else Some(ValueError(LengthMessage(0, 1)))
    case List(items) => PairsFailure(items, 0)
    case _ => None
  }

  /** `DotNotationDict(v)[key]` for a value other than a dict or None: the
      conversion fails, or it succeeds (an empty string, a list of pairs)
      and `_dictionary` stays that string or list, which is then indexed
      by a string or asked for `get`. */
  function GetBelowOther(v: Value, key: string): (r: Result<Value, Failure>)
    requires !v.Dict? && !v.Null?
    ensures r.Err? && !r.error.KeyError?
  {
    if WrapFailure(v).Some? then Err(WrapFailure(v).value)
    else if '.' in key then
      Err(TypeError(if v.List? then "list indices must be integers, not str" else "string indices must be integers, not str"))
    else Err(AttributeError(if v.List? then "'list' object has no attribute 'get'" else "'str' object has no attribute 'get'"))
  }

  /** `DotNotationDict(v)[key] = value` for a value other than a dict or
      None: the conversion fails, or the write indexes the string or list
      that `_dictionary` still is. For the empty string the membership test
      of a dotted key's head is a substring test, which only the empty head
      passes. */
  function SetBelowOther(v: Value, key: string): (r: Failure)
    requires !v.Dict? && !v.Null?
    ensures !r.KeyError?
  {
    if WrapFailure(v).Some? then WrapFailure(v).value
    else if v.List? then TypeError("list indices must be integers, not str")
    else if '.' in key && SplitFirst(key, '.').0 == "" && SplitFirst(key, '.').1 != "" then
      TypeError("string indices must be integers, not str")
    else TypeError("'str' object does not support item assignment")
  }

  // ---------------------------------------------------------------------
  // DotNotationDict

  /** `DotNotationDict(d)[key]`: a key without a dot is looked up with
      `get` (None when absent); a dotted key is split at its first dot, the
      head must be present, and the rest of the key is looked up in a
      `DotNotationDict` around the head's value (None standing for an empty
      dict). */
  function GetIn(d: map<string, Value>, key: string): Result<Value, Failure>
    decreases |key|
  {
    if '.' in key then
      var (head, tail) := SplitFirst(key, '.');
      if head !in d then Err(MissingKey(head))
      else if tail == "" then Ok(d[head])
      else
        match d[head]
        case Dict(f) => GetIn(f, tail)
        case Null => GetIn(map[], tail)
        case _ => GetBelowOther(d[head], tail)
    else Ok(GetOrNull(d, key))
  }

  /** `DotNotationDict(d)[key] = value` on the dict `d`, giving the dict
      afterwards: a missing head is created as an empty dict first; a
      write below a head holding None goes into a throw-away dict and is
      lost. */
  function SetIn(d: map<string, Value>, key: string, value: Value): Result<map<string, Value>, Failure>
    decreases |key|, 1
  {
    if '.' in key then
      var (head, tail) := SplitFirst(key, '.');
      SetBelow(if head in d then d else d[head := Dict(map[])], head, tail, value)
    else Ok(d[key := value])
  }

  /** The dotted part of a write, once the head is present in `d`: the rest
      of the key is written into the head's value. */
  function SetBelow(d: map<string, Value>, head: string, tail: string, value: Value): Result<map<string, Value>, Failure>
    requires head in d
    decreases |tail|, 2
  {
    if tail == "" then Ok(d[head := value])
    else
      match d[head]
      case Dict(f) =>
        (match SetIn(f, tail, value)
         case Ok(f2) => Ok(d[head := Dict(f2)])
         case Err(e) => Err(e))
      case Null => Ok(d)
      case _ => Err(SetBelowOther(d[head], tail))
  }

  /** The top-level key a (possibly dotted) key writes to. */
  function Head(key: string): string {
    if '.' in key then SplitFirst(key, '.').0 else key
  }

  /** A write of `key` into `d` reaches its target: no head on the way
      holds None. */
  predicate WritesThrough(d: map<string, Value>, key: string)
    decreases |key|
  {
    '.' !in key ||
    var (head, tail) := SplitFirst(key, '.');
    tail == "" || head !in d || (d[head].Dict? && WritesThrough(d[head].fields, tail))
  }

  /** Every head a dotted key passes through is missing, None or a dict:
      no `DotNotationDict` is ever built around another kind of value. */
  predicate Navigable(d: map<string, Value>, key: string)
    decreases |key|
  {
    '.' !in key ||
    var (head, tail) := SplitFirst(key, '.');
    tail == "" || head !in d || d[head].Null? || (d[head].Dict? && Navigable(d[head].fields, tail))
  }

  /** A write succeeds exactly when its key is navigable; otherwise what
      fails is the conversion of, or the indexing into, a value that is
      neither a dict nor None. */
  lemma {:induction false} SetSucceedsIffNavigable(d: map<string, Value>, key: string, value: Value)
    ensures SetIn(d, key, value).Ok? <==> Navigable(d, key)
    ensures SetIn(d, key, value).Err? ==> !SetIn(d, key, value).error.KeyError?
    decreases |key|
  {
    if '.' in key {
      var (head, tail) := SplitFirst(key, '.');
      if tail != "" {
        if head !in d {
          SetInEmptySucceeds(tail, value);
        } else if d[head].Dict? {
          SetSucceedsIffNavigable(d[head].fields, tail, value);
        }
      }
    }
  }

  /** A read of a navigable key fails only with `KeyError` for a missing
      head; a read of any other key always fails, and never with
      `KeyError`. */
  lemma {:induction false} GetFailureIffNotNavigable(d: map<string, Value>, key: string)
    ensures Navigable(d, key) ==> GetIn(d, key).Ok? || GetIn(d, key).error.KeyError?
    ensures !Navigable(d, key) ==> GetIn(d, key).Err? && !GetIn(d, key).error.KeyError?
    decreases |key|
  {
    if '.' in key {
      var (head, tail) := SplitFirst(key, '.');
      if tail != "" && head in d {
        if d[head].Dict? {
          GetFailureIffNotNavigable(d[head].fields, tail);
        } else if d[head].Null? {
          GetFailureIffNotNavigable(map[], tail);
        }
      }
    }
  }

  /** `{'a': v}['a.b']` for a value `v` other than a dict or None reads
      below that value. */
  lemma GetBelowHead(v: Value)
    requires !v.Dict? && !v.Null?
    ensures GetIn(map["a" := v], "a.b") == GetBelowOther(v, "b")
  {
    SplitFirstAtSecond("a.b");
    assert "a.b"[..1] == "a" && "a.b"[2..] == "b";
  }

  /** `{'a': 5}['a.b']`: an integer is not iterable. */
  lemma GetBelowInt()
    ensures GetIn(map["a" := Int(5)], "a.b") == Err(TypeError("'int' object is not iterable"))
  {
    GetBelowHead(Int(5));
  }

  /** `{'a': 'xyz'}['a.b']`: the first element of a non-empty string has
      length one. */
  lemma GetBelowString()
    ensures GetIn(map["a" := Str("xyz")], "a.b") == Err(ValueError(LengthMessage(0, 1)))
  {
    GetBelowHead(Str("xyz"));
  }

  /** `{'a': [1]}['a.b']`: the list's first element is not a sequence. */
  lemma GetBelowNonPair()
    ensures GetIn(map["a" := List([Int(1)])], "a.b") == Err(TypeError(NotASequence(0)))
  {
    GetBelowHead(List([Int(1)]));
    assert PairsFailure([Int(1)], 0) == ElementFailure(Int(1), 0);
  }

  /** `{'a': [['b', 1]]}['a.b']`: a list of pairs converts, and `get` is
      then called on the list itself. */
  lemma GetBelowPairs()
    ensures GetIn(map["a" := List([List([Str("b"), Int(1)])])], "a.b")
              == Err(AttributeError("'list' object has no attribute 'get'"))
  {
    var pair := List([Str("b"), Int(1)]);
    GetBelowHead(List([pair]));
    assert '.' !in "b";
    assert ElementFailure(pair, 0).None?;
    assert [pair][1..] == [];
    assert PairsFailure([pair], 0).None?;
  }

  /** Writing below a head that holds a list or the empty string indexes
      that list or string with a string. */
  lemma SetBelowSequences(value: Value)
    ensures SetIn(map["a" := List([])], "a.b", value) == Err(TypeError("list indices must be integers, not str"))
    ensures SetIn(map["a" := Str("")], "a.b", value) == Err(TypeError("'str' object does not support item assignment"))
  {
    SplitFirstAtSecond("a.b");
    assert "a.b"[..1] == "a" && "a.b"[2..] == "b" && '.' !in "b";
  }

  /** A key whose only character before the first dot is its first. */
  lemma SplitFirstAtSecond(key: string)
    requires |key| >= 2 && key[0] != '.' && key[1] == '.'
    ensures '.' in key && SplitFirst(key, '.') == (key[..1], key[2..])
  {
    assert key[1..][0] == '.';
    assert FirstIndex(key, '.') == 1;
  }

  /** A missing key without a dot reads as None rather than failing. */
  lemma GetMissingPlainKey(d: map<string, Value>, key: string)
    requires '.' !in key && key !in d
    ensures GetIn(d, key) == Ok(Null)
  {
  }

  /** A dotted key whose head is missing raises `KeyError` naming the
      head. */
  lemma GetMissingHead(d: map<string, Value>, key: string)
    requires '.' in key && SplitFirst(key, '.').0 !in d
    ensures GetIn(d, key) == Err(MissingKey(SplitFirst(key, '.').0))
  {
  }

  /** Writing into an empty dict always succeeds, whatever the key. */
  lemma {:induction false} SetInEmptySucceeds(key: string, value: Value)
    ensures SetIn(map[], key, value).Ok?
    decreases |key|
  {
    if '.' in key {
      var (head, tail) := SplitFirst(key, '.');
      if tail != "" {
        SetInEmptySucceeds(tail, value);
      }
    }
  }

  /** Setting a key and then getting it yields the stored value, as long as
      the write reaches its target. */
  lemma {:induction false} SetThenGet(d: map<string, Value>, key: string, value: Value)
    requires SetIn(d, key, value).Ok? && WritesThrough(d, key)
    ensures GetIn(SetIn(d, key, value).value, key) == Ok(value)
    decreases |key|
  {
    if '.' in key {
      var (head, tail) := SplitFirst(key, '.');
      var d1 := if head in d then d else d[head := Dict(map[])];
      if tail != "" {
        var f := d1[head].fields;
        assert WritesThrough(f, tail) by {
          if head !in d {
            assert f == map[];
            if '.' in tail {
              assert SplitFirst(tail, '.').0 !in f;
            }
          }
        }
        SetThenGet(f, tail, value);
      }
    }
  }

  /** A write leaves every top-level key other than the key's head as it
      was, and afterwards the head is present. */
  lemma SetLeavesOtherKeys(d: map<string, Value>, key: string, value: Value)
    requires SetIn(d, key, value).Ok?
    ensures var d2 := SetIn(d, key, value).value;
      Head(key) in d2 &&
      forall k :: k != Head(key) ==> (k in d2 <==> k in d) && (k in d ==> d2[k] == d[k])
  {
  }

  /** A dotted write whose head is missing creates the head as a dict. */
  lemma SetCreatesHead(d: map<string, Value>, key: string, value: Value)
    requires '.' in key && SplitFirst(key, '.').0 !in d && SplitFirst(key, '.').1 != ""
    ensures SetIn(d, key, value).Ok?
    ensures Head(key) in SetIn(d, key, value).value && SetIn(d, key, value).value[Head(key)].Dict?
  {
    var (head, tail) := SplitFirst(key, '.');
    if tail != "" {
      SetInEmptySucceeds(tail, value);
    }
  }

  /** A write below a head holding None changes nothing. */
  lemma SetBelowNoneIsLost(d: map<string, Value>, key: string, value: Value)
    requires '.' in key && SplitFirst(key, '.').1 != ""
    requires SplitFirst(key, '.').0 in d && d[SplitFirst(key, '.').0] == Null
    ensures SetIn(d, key, value) == Ok(d)
  {
  }

  /** A dict that reads and writes nested dicts through dotted keys. */
  class DotNotationDict {
    var dictionary: map<string, Value>

    /** `DotNotationDict(dictionary)`: wraps the given dict, or a fresh
        empty one for None. */
    constructor (dictionary: Option<map<string, Value>>)
      ensures this.dictionary == (if dictionary.Some? then dictionary.value else map[])
    {
      this.dictionary := if dictionary.Some? then dictionary.value else map[];
    }

    /** `__getitem__` */
    function GetItem(key: string): Result<Value, Failure>
      reads this
    {
      GetIn(dictionary, key)
    }

    /** `__setitem__`: a failed write leaves the dict as it was. */
    method SetItem(key: string, value: Value) returns (error: Option<Failure>)
      modifies this
      ensures SetIn(old(dictionary), key, value).Ok? ==>
                error.None? && dictionary == SetIn(old(dictionary), key, value).value
      ensures SetIn(old(dictionary), key, value).Err? ==>
                error == Some(SetIn(old(dictionary), key, value).error) && dictionary == old(dictionary)
      decreases |key|, 1
    {
      if '.' in key {
        var (head, tail) := SplitFirst(key, '.');
        if head !in dictionary {
          dictionary := dictionary[head := Dict(map[])];
          if tail != "" {
            SetInEmptySucceeds(tail, value);
          }
        }
        error := WriteBelow(head, tail, value);
      } else {
        dictionary := dictionary[key := value];
        error := None;
      }
    }

    /** The dotted branch of `__setitem__` once the head is present:
        nested dicts are written through a fresh `DotNotationDict` around
        the head's value; a head holding None gets a throw-away one. */
    method WriteBelow(head: string, tail: string, value: Value) returns (error: Option<Failure>)
      requires head in dictionary
      modifies this
      ensures SetBelow(old(dictionary), head, tail, value).Ok? ==>
                error.None? && dictionary == SetBelow(old(dictionary), head, tail, value).value
      ensures SetBelow(old(dictionary), head, tail, value).Err? ==>
                error == Some(SetBelow(old(dictionary), head, tail, value).error) && dictionary == old(dictionary)
      decreases |tail|, 2
    {
      error := None;
      if tail == "" {
        dictionary := dictionary[head := value];
      } else {
        match dictionary[head]
        case Dict(f) =>
          var inner := new DotNotationDict(Some(f));
          error := inner.SetItem(tail, value);
          if error.None? {
            dictionary := dictionary[head := Dict(inner.dictionary)];
          }
        case Null =>
          var inner := new DotNotationDict(None);
          SetInEmptySucceeds(tail, value);
          error := inner.SetItem(tail, value);
        case _ =>
          error := Some(SetBelowOther(dictionary[head], tail));
      }
    }
  }

  // ---------------------------------------------------------------------
  // BidirectionalDict

  /** The dict built from `items` in order, a later pair replacing an
      earlier one with the same key. */
  function Forward(items: seq<(string, string)>): map<string, string> {
    if items == [] then map[]
    else Forward(items[..|items| - 1])[items[|items| - 1].0 := items[|items| - 1].1]
  }

  /** `dict([reversed(i) for i in items])` */
  function Backward(items: seq<(string, string)>): map<string, string> {
    if items == [] then map[]
    else Backward(items[..|items| - 1])[items[|items| - 1].1 := items[|items| - 1].0]
  }

  /** The storage `BidirectionalDict.__init__` builds from a dict whose
      items come in the order `items`: the dict updated with its reverse. */
  function WithReverse(items: seq<(string, string)>): map<string, string> {
    Forward(items) + Backward(items)
  }

  /** The items of a dict have distinct keys. */
  predicate DistinctKeys(items: seq<(string, string)>) {
    forall i, j :: 0 <= i < j < |items| ==> items[i].0 != items[j].0
  }

  /** No two pairs share a value. */
  predicate DistinctValues(items: seq<(string, string)>) {
    forall i, j :: 0 <= i < j < |items| ==> items[i].1 != items[j].1
  }

  /** With distinct keys, every pair is in the forward dict. */
  lemma {:induction false} ForwardHolds(items: seq<(string, string)>, i: nat)
    requires DistinctKeys(items) && i < |items|
    ensures items[i].0 in Forward(items) && Forward(items)[items[i].0] == items[i].1
    decreases |items|
  {
    var init := items[..|items| - 1];
    if i < |init| {
      assert init[i] == items[i];
      ForwardHolds(init, i);
    }
  }

  /** With distinct values, every reversed pair is in the backward dict. */
  lemma {:induction false} BackwardHolds(items: seq<(string, string)>, i: nat)
    requires DistinctValues(items) && i < |items|
    ensures items[i].1 in Backward(items) && Backward(items)[items[i].1] == items[i].0
    decreases |items|
  {
    var init := items[..|items| - 1];
    if i < |init| {
      assert init[i] == items[i];
      BackwardHolds(init, i);
    }
  }

  /** The backward dict's keys are exactly the values of the pairs. */
  lemma {:induction false} BackwardKeys(items: seq<(string, string)>)
    ensures Backward(items).Keys == set i | 0 <= i < |items| :: items[i].1
    decreases |items|
  {
    if items != [] {
      var init := items[..|items| - 1];
      BackwardKeys(init);
      forall x | x in Backward(items).Keys ensures exists i :: 0 <= i < |items| && items[i].1 == x {
        if x != items[|items| - 1].1 {
          var i :| 0 <= i < |init| && init[i].1 == x;
          assert items[i] == init[i];
        }
      }
      forall i | 0 <= i < |items| ensures items[i].1 in Backward(items) {
        if i < |init| {
          assert init[i] == items[i];
        }
      }
    }
  }

  /** The constructor adds the reverse of every original pair (when no two
      pairs share a value), and keeps an original pair whose key is not also
      some pair's value. */
  lemma ConstructorPairs(items: seq<(string, string)>)
    requires DistinctKeys(items)
    ensures DistinctValues(items) ==>
              forall i :: 0 <= i < |items| ==> items[i].1 in WithReverse(items) && WithReverse(items)[items[i].1] == items[i].0
    ensures forall i :: 0 <= i < |items| && (forall j :: 0 <= j < |items| ==> items[j].1 != items[i].0) ==>
              items[i].0 in WithReverse(items) && WithReverse(items)[items[i].0] == items[i].1
  {
    BackwardKeys(items);
    if DistinctValues(items) {
      forall i | 0 <= i < |items| ensures WithReverse(items)[items[i].1] == items[i].0 {
        BackwardHolds(items, i);
      }
    }
    forall i | 0 <= i < |items| && (forall j :: 0 <= j < |items| ==> items[j].1 != items[i].0)
      ensures items[i].0 in WithReverse(items) && WithReverse(items)[items[i].0] == items[i].1
    {
      ForwardHolds(items, i);
      assert items[i].0 !in Backward(items);
    }
  }

  /** `d[key] = value`: both directions are stored. */
  function Assign(d: map<string, string>, key: string, value: string): map<string, string> {
    d[key := value][value := key]
  }

  /** After an assignment both `key -> value` and `value -> key` hold, and
      every other key is untouched. */
  lemma AssignBothWays(d: map<string, string>, key: string, value: string)
    ensures Lookup(Assign(d, key, value), key) == Ok(value)
    ensures Lookup(Assign(d, key, value), value) == Ok(key)
    ensures forall k :: k != key && k != value ==> Lookup(Assign(d, key, value), k) == Lookup(d, k)
  {
  }

  /** `del d[key]` on the storage: the dict afterwards and the error. The
      key is popped first and then its value; when the value is no longer
      present (it was the key itself, or had been reassigned) the second
      pop raises with the key already gone. */
  function Delete(d: map<string, string>, key: string): (map<string, string>, Option<Failure>) {
    if key !in d then (d, Some(MissingKey(key)))
    else
      var value := d[key];
      var d1 := d - {key};
      if value !in d1 then (d1, Some(MissingKey(value)))
      else (d1 - {value}, None)
  }

  /** Deleting a present key whose value is still stored removes both and
      keeps everything else; deleting an absent key raises `KeyError` and
      changes nothing. */
  lemma DeleteRemovesBoth(d: map<string, string>, key: string)
    ensures key !in d ==> Delete(d, key) == (d, Some(MissingKey(key)))
    ensures key in d && d[key] != key && d[key] in d ==>
              var (d2, error) := Delete(d, key);
              error.None? && key !in d2 && d[key] !in d2 &&
              forall k :: k != key && k != d[key] ==> Lookup(d2, k) == Lookup(d, k)
  {
  }

  /** `d[key]` looked up in a storage map. */
  function Lookup(storage: map<string, string>, key: string): Result<string, Failure> {
    if key in storage then Ok(storage[key]) else Err(MissingKey(key))
  }

  /** A dict holding every pair in both directions. `storage` is the
      inherited dict's own storage, which the constructor fills and the
      overridden `__setitem__` and `__delitem__` never touch. */
  class BidirectionalDict {
    var dictionary: map<string, string>
    var storage: map<string, string>

    /** `BidirectionalDict(dictionary)` for a dict whose items come in the
        order `items` (no items for None or an empty dict). */
    constructor (items: seq<(string, string)>)
      requires DistinctKeys(items)
      ensures dictionary == WithReverse(items) && storage == dictionary
    {
      var forward: map<string, string> := map[];
      var backward: map<string, string> := map[];
      var i := 0;
      while i < |items|
        invariant 0 <= i <= |items|
        invariant forward == Forward(items[..i]) && backward == Backward(items[..i])
      {
        assert items[..i + 1][..i] == items[..i];
        forward := forward[items[i].0 := items[i].1];
        backward := backward[items[i].1 := items[i].0];
        i := i + 1;
      }
      assert items[..i] == items;
      dictionary := forward + backward;
      storage := forward + backward;
    }

    /** `d[key]` as written: the lookup is the inherited one and reads the
        inherited storage. */
    function GetItem(key: string): Result<string, Failure>
      reads this
    {
      Lookup(storage, key)
    }

    /** `d[key]` as intended: a lookup in the two-way storage. */
    function Get(key: string): Result<string, Failure>
      reads this
    {
      Lookup(dictionary, key)
    }

    /** `__setitem__` */
    method SetItem(key: string, value: string)
      modifies this`dictionary
      ensures dictionary == Assign(old(dictionary), key, value)
    {
      dictionary := dictionary[key := value];
      dictionary := dictionary[value := key];
    }

    /** `__delitem__` */
    method DelItem(key: string) returns (error: Option<Failure>)
      modifies this`dictionary
      ensures (dictionary, error) == Delete(old(dictionary), key)
    {
      if key !in dictionary {
        return Some(MissingKey(key));
      }
      var value := dictionary[key];
      dictionary := dictionary - {key};
      if value !in dictionary {
        return Some(MissingKey(value));
      }
      dictionary := dictionary - {value};
      error := None;
    }
  }

  /** As written, a pair assigned after construction is not found by the
      inherited lookup: on a dict built empty, `d['a'] = 'b'` followed by
      `d['a']` raises `KeyError`, although the two-way storage holds it. */
  lemma StaleLookupAfterAssign()
    ensures var storage := WithReverse([]);
      Lookup(storage, "a") == Err(MissingKey("a")) &&
      Lookup(Assign(storage, "a", "b"), "a") == Ok("b")
  {
    assert "a" !in WithReverse([]);
  }

  /** Intended lookup, a lookup in the two-way storage: on a dict built
      from any items, `d[key] = value` followed by `d[key]` or `d[value]`
      finds the pair. */
  lemma LookupAfterAssign(items: seq<(string, string)>, key: string, value: string)
    ensures Lookup(Assign(WithReverse(items), key, value), key) == Ok(value)
    ensures Lookup(Assign(WithReverse(items), key, value), value) == Ok(key)
  {
    AssignBothWays(WithReverse(items), key, value);
  }
}
