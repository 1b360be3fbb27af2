/** `KeyValueAdapter`: a key-value store over one table of the database,
    with view extensions whose `on_set` and `on_delete` hooks run after
    each write. The database is a map from key to value; the hooks are
    recorded as events. */
module KeyValueAdapter {
  import opened Wrappers
  import opened Json
  import opened Strings
  import opened Exceptions

  /** A hook call on a registered extension. */
  datatype Event = OnSet(extension: string, key: string, value: Value) | OnDelete(extension: string, key: string)

  /** The table and the hooks run so far. */
  datatype Store = Store(table: map<string, Value>, events: seq<Event>)

  /** What compiling the pattern `bucket + '+'` raises for the empty
      bucket. */
  const NothingToRepeat := "nothing to repeat"

  /** The extensions, in registry order, whose names the pattern
      `bucket + '+'` matches at the start: for a bucket without regular
      expression metacharacters, those whose names start with the bucket. */
  function Matching(bucket: string, registry: seq<string>): seq<string> {
    if registry == [] then []
    else
      var last := registry[|registry| - 1];
      Matching(bucket, registry[..|registry| - 1]) + (if StartsWith(last, bucket) then [last] else [])
  }

  /** An extension is kept exactly when its name starts with the bucket. */
  lemma {:induction false} MatchingMembers(bucket: string, registry: seq<string>)
    ensures forall x :: x in Matching(bucket, registry) <==> x in registry && StartsWith(x, bucket)
    decreases |registry|
  {
    if registry != [] {
      var init := registry[..|registry| - 1];
      MatchingMembers(bucket, init);
      assert registry == init + [registry[|registry| - 1]];
    }
  }

  /** Filtering keeps registry order: the filter of two registries one
      after the other is the two filters one after the other. */
  lemma {:induction false} MatchingConcat(bucket: string, a: seq<string>, b: seq<string>)
    ensures Matching(bucket, a + b) == Matching(bucket, a) + Matching(bucket, b)
    decreases |b|
  {
    if b == [] {
      assert a + b == a;
    } else {
      var init := b[..|b| - 1];
      MatchingConcat(bucket, a, init);
      assert (a + b)[..|a + b| - 1] == a + init;
      assert (a + b)[|a + b| - 1] == b[|b| - 1];
    }
  }

  /** `get_extensions(bucket)` over the extension registry (its names in
      registration order). */
  method GetExtensions(bucket: string, registry: seq<string>) returns (r: Result<seq<string>, Failure>)
    ensures bucket == "" ==> r == Err(OtherError(NothingToRepeat))
    ensures bucket != "" ==> r == Ok(Matching(bucket, registry))
  {
    if bucket == "" {
      return Err(OtherError(NothingToRepeat));
    }
    var extensions: seq<string> := [];
    var i := 0;
    while i < |registry|
      invariant 0 <= i <= |registry|
      invariant extensions == Matching(bucket, registry[..i])
    {
      assert registry[..i + 1][..i] == registry[..i];
      if StartsWith(registry[i], bucket) {
        extensions := extensions + [registry[i]];
      }
      i := i + 1;
    }
    assert registry[..i] == registry;
    r := Ok(extensions);
  }

  /** The `on_set` calls for the extensions, in order. */
  function SetEvents(extensions: seq<string>, key: string, value: Value): (r: seq<Event>)
    ensures |r| == |extensions|
    ensures forall i :: 0 <= i < |r| ==> r[i] == OnSet(extensions[i], key, value)
  {
    if extensions == [] then []
    else SetEvents(extensions[..|extensions| - 1], key, value) + [OnSet(extensions[|extensions| - 1], key, value)]
  }

  /** The `on_delete` calls for the extensions, in order. */
  function DeleteEvents(extensions: seq<string>, key: string): (r: seq<Event>)
    ensures |r| == |extensions|
    ensures forall i :: 0 <= i < |r| ==> r[i] == OnDelete(extensions[i], key)
  {
    if extensions == [] then []
    else DeleteEvents(extensions[..|extensions| - 1], key) + [OnDelete(extensions[|extensions| - 1], key)]
  }

  /** `_execute_extensions_on_set` */
  function RunSet(s: Store, bucket: string, registry: seq<string>, key: string, value: Value): (Store, Option<Failure>) {
    if bucket == "" then (s, Some(OtherError(NothingToRepeat)))
    else (s.(events := s.events + SetEvents(Matching(bucket, registry), key, value)), None)
  }

  /** `_execute_extensions_on_delete` */
  function RunDelete(s: Store, bucket: string, registry: seq<string>, key: string): (Store, Option<Failure>) {
    if bucket == "" then (s, Some(OtherError(NothingToRepeat)))
    else (s.(events := s.events + DeleteEvents(Matching(bucket, registry), key)), None)
  }

  /** `_insert_internal`: the row is written, then the `on_set` hooks run. */
  function Insert(s: Store, bucket: string, registry: seq<string>, key: string, value: Value): (Store, Option<Failure>) {
    RunSet(s.(table := s.table[key := value]), bucket, registry, key, value)
  }

  /** `_update_internal`: the row is rewritten, then every `on_delete`
      hook runs, then every `on_set` hook. */
  function Update(s: Store, bucket: string, registry: seq<string>, key: string, value: Value): (Store, Option<Failure>) {
    var (s1, error) := RunDelete(s.(table := s.table[key := value]), bucket, registry, key);
    if error.Some? then (s1, error) else RunSet(s1, bucket, registry, key, value)
  }

  /** `_delete_internal`: the row is removed, then the `on_delete` hooks
      run. */
  function Remove(s: Store, bucket: string, registry: seq<string>, key: string): (Store, Option<Failure>) {
    RunDelete(s.(table := s.table - {key}), bucket, registry, key)
  }

  /** The error `_get_internal` raises for a missing key; the message
      names the table where the key belongs and the key where the table
      belongs. */
  function KeyNotFound(bucket: string, key: string): Failure
  {
    Raise(DatabaseOperationError, "Value for Key " + bucket + " on table " + key + " not found")
  }

  /** The error `add_value` raises for a key that is already stored. */
  function AlreadyExists(key: string): Failure
  {
    Raise(DatabaseOperationError, "Invalid Key " + key + ", it already exists")
  }

  /** `get_value(key)` */
  function Get(table: map<string, Value>, bucket: string, key: string): Result<Value, Failure> {
    if key in table then Ok(table[key]) else Err(KeyNotFound(bucket, key))
  }

  /** `add_value(key, value)`: the store afterwards and the result. */
  function Add(s: Store, bucket: string, registry: seq<string>, key: string, value: Value): (Store, Result<string, Failure>) {
    if key in s.table then (s, Err(AlreadyExists(key)))
    else
      var (s1, error) := Insert(s, bucket, registry, key, value);
      (s1, if error.Some? then Err(error.value) else Ok(key))
  }

  /** `set_value(key, value)`: an update when the key is stored, an insert
      otherwise. */
  function Put(s: Store, bucket: string, registry: seq<string>, key: string, value: Value): (Store, Result<string, Failure>) {
    var (s1, error) := if key in s.table then Update(s, bucket, registry, key, value) else Insert(s, bucket, registry, key, value);
    (s1, if error.Some? then Err(error.value) else Ok(key))
  }

  /** `delete_key(key)`: the lookup raises first for a missing key. */
  function Delete(s: Store, bucket: string, registry: seq<string>, key: string): (Store, Result<bool, Failure>) {
    if key !in s.table then (s, Err(KeyNotFound(bucket, key)))
    else
      var (s1, error) := Remove(s, bucket, registry, key);
      (s1, if error.Some? then Err(error.value) else Ok(true))
  }

  /** Adding an existing key raises `DatabaseOperationError` and leaves
      the store and the hooks as they were; adding a new key stores it,
      runs the `on_set` hooks of the matching extensions and returns the
      key. */
  lemma AddSemantics(s: Store, bucket: string, registry: seq<string>, key: string, value: Value)
    ensures key in s.table ==> Add(s, bucket, registry, key, value) == (s, Err(AlreadyExists(key)))
    ensures key !in s.table && bucket != "" ==>
              Add(s, bucket, registry, key, value) ==
              (Store(s.table[key := value], s.events + SetEvents(Matching(bucket, registry), key, value)), Ok(key))
    ensures key !in s.table ==> Get(Add(s, bucket, registry, key, value).0.table, bucket, key) == Ok(value)
  {
  }

  /** `set_value` upserts: afterwards the key holds the value whether or
      not it was stored before; an update runs every `on_delete` hook
      before any `on_set` hook, an insert runs only the `on_set` hooks. */
  lemma PutSemantics(s: Store, bucket: string, registry: seq<string>, key: string, value: Value)
    ensures Get(Put(s, bucket, registry, key, value).0.table, bucket, key) == Ok(value)
    ensures Put(s, bucket, registry, key, value).0.table == s.table[key := value]
    ensures bucket != "" ==>
              var extensions := Matching(bucket, registry);
              Put(s, bucket, registry, key, value) ==
              (Store(s.table[key := value],
                     s.events + (if key in s.table then DeleteEvents(extensions, key) else []) + SetEvents(extensions, key, value)),
               Ok(key))
  {
    if bucket != "" {
      var extensions := Matching(bucket, registry);
      if key !in s.table {
        assert s.events + [] + SetEvents(extensions, key, value) == s.events + SetEvents(extensions, key, value);
      }
    }
  }

  /** Deleting a missing key raises before anything is deleted; deleting a
      stored key removes it, runs the `on_delete` hooks and returns True,
      after which the key is not found. */
  lemma DeleteSemantics(s: Store, bucket: string, registry: seq<string>, key: string)
    ensures key !in s.table ==> Delete(s, bucket, registry, key) == (s, Err(KeyNotFound(bucket, key)))
    ensures key in s.table && bucket != "" ==>
              Delete(s, bucket, registry, key) ==
              (Store(s.table - {key}, s.events + DeleteEvents(Matching(bucket, registry), key)), Ok(true))
    ensures Get(Delete(s, bucket, registry, key).0.table, bucket, key) == Err(KeyNotFound(bucket, key))
  {
  }

  /** Writes to one key leave every other key's value as it was. */
  lemma OtherKeysUntouched(s: Store, bucket: string, registry: seq<string>, key: string, other: string, value: Value)
    requires other != key
    ensures Get(Add(s, bucket, registry, key, value).0.table, bucket, other) == Get(s.table, bucket, other)
    ensures Get(Put(s, bucket, registry, key, value).0.table, bucket, other) == Get(s.table, bucket, other)
    ensures Get(Delete(s, bucket, registry, key).0.table, bucket, other) == Get(s.table, bucket, other)
  {
  }

  /** The adapter over one table (`bucket`) of a keyspace; `registry` is the
      names of the registered view extensions, in registration order. */
  class Adapter {
    const bucket: string
    const keyspace: string
    const registry: seq<string>
    var table: map<string, Value>
    var events: seq<Event>

    function Snapshot(): Store
      reads this
    {
      Store(table, events)
    }

    /** An adapter over a connected session whose table holds `table`. */
    constructor (bucket: string, keyspace: string, registry: seq<string>, table: map<string, Value>)
      ensures this.bucket == bucket && this.keyspace == keyspace && this.registry == registry
      ensures Snapshot() == Store(table, [])
    {
      this.bucket := bucket;
      this.keyspace := keyspace;
      this.registry := registry;
      this.table := table;
      events := [];
    }

    /** `get_value(key)`: the stored value, or `DatabaseOperationError`. */
    method GetValue(key: string) returns (r: Result<Value, Failure>)
      ensures key in table ==> r == Ok(table[key])
      ensures key !in table ==> r == Err(KeyNotFound(bucket, key))
    {
      if key in table {
        r := Ok(table[key]);
      } else {
        r := Err(KeyNotFound(bucket, key));
      }
    }

    /** `_execute_extensions_on_set(key, value)` */
    method ExecuteOnSet(key: string, value: Value) returns (error: Option<Failure>)
      modifies this`events
      ensures (Snapshot(), error) == RunSet(old(Snapshot()), bucket, registry, key, value)
    {
      var extensions := GetExtensions(bucket, registry);
      if extensions.Err? {
        return Some(extensions.error);
      }
      var i := 0;
      while i < |extensions.value|
        invariant 0 <= i <= |extensions.value|
        invariant table == old(table)
        invariant events == old(events) + SetEvents(extensions.value[..i], key, value)
      {
        assert extensions.value[..i + 1][..i] == extensions.value[..i];
        events := events + [OnSet(extensions.value[i], key, value)];
        i := i + 1;
      }
      assert extensions.value[..i] == extensions.value;
      error := None;
    }

    /** `_execute_extensions_on_delete(key)` */
    method ExecuteOnDelete(key: string) returns (error: Option<Failure>)
      modifies this`events
      ensures (Snapshot(), error) == RunDelete(old(Snapshot()), bucket, registry, key)
    {
      var extensions := GetExtensions(bucket, registry);
      if extensions.Err? {
        return Some(extensions.error);
      }
      var i := 0;
      while i < |extensions.value|
        invariant 0 <= i <= |extensions.value|
        invariant table == old(table)
        invariant events == old(events) + DeleteEvents(extensions.value[..i], key)
      {
        assert extensions.value[..i + 1][..i] == extensions.value[..i];
        events := events + [OnDelete(extensions.value[i], key)];
        i := i + 1;
      }
      assert extensions.value[..i] == extensions.value;
      error := None;
    }

    /** `add_value(key, value)` */
    method AddValue(key: string, value: Value) returns (r: Result<string, Failure>)
      modifies this`table, this`events
      ensures (Snapshot(), r) == Add(old(Snapshot()), bucket, registry, key, value)
    {
      var found := GetValue(key);
      if found.Ok? {
        return Err(AlreadyExists(key));
      }
      table := table[key := value];
      var error := ExecuteOnSet(key, value);
      r := if error.Some? then Err(error.value) else Ok(key);
    }

    /** `set_value(key, value)` */
    method SetValue(key: string, value: Value) returns (r: Result<string, Failure>)
      modifies this`table, this`events
      ensures (Snapshot(), r) == Put(old(Snapshot()), bucket, registry, key, value)
    {
      var found := GetValue(key);
      table := table[key := value];
      var error: Option<Failure>;
      if found.Ok? {
        error := ExecuteOnDelete(key);
        if error.None? {
          error := ExecuteOnSet(key, value);
        }
      } else {
        error := ExecuteOnSet(key, value);
      }
      r := if error.Some? then Err(error.value) else Ok(key);
    }

    /** `delete_key(key)` */
    method DeleteKey(key: string) returns (r: Result<bool, Failure>)
      modifies this`table, this`events
      ensures (Snapshot(), r) == Delete(old(Snapshot()), bucket, registry, key)
    {
      var found := GetValue(key);
      if found.Err? {
        return Err(found.error);
      }
      table := table - {key};
      var error := ExecuteOnDelete(key);
      r := if error.Some? then Err(error.value) else Ok(true);
    }
  }

  /** The error the constructor raises when the driver fails to connect. */
  function ConnectionFailure(message: string): (f: Failure)
    ensures f.Typed? && f.error.cls == CouldNotConnectToDatabase
  {
    Raise(CouldNotConnectToDatabase, "Could not connect to Cassandra: " + message)
  }

  /** `KeyValueAdapter(bucket, hosts, keyspace)`: `connection` is what
      connecting the driver to the keyspace gives, the table's contents or
      the message of the exception it raised; any such exception becomes
      `CouldNotConnectToDatabase`. */
  method Connect(bucket: string, keyspace: string, registry: seq<string>, connection: Result<map<string, Value>, string>)
    returns (r: Result<Adapter, Failure>)
    ensures r.Ok? <==> connection.Ok?
    ensures r.Ok? ==> fresh(r.value) && r.value.bucket == bucket && r.value.keyspace == keyspace
                      && r.value.registry == registry && r.value.Snapshot() == Store(connection.value, [])
    ensures r.Err? ==> r.error == ConnectionFailure(connection.error)
  {
    if connection.Err? {
      return Err(ConnectionFailure(connection.error));
    }
    var adapter := new Adapter(bucket, keyspace, registry, connection.value);
    r := Ok(adapter);
  }
}
