/** `jsonwrapper/handler.py`: a key/value store kept in a JSON file, with
    strict insertion (`add`) against update (`edit`) and a reconciliation of
    the stored keys against a default mapping. The file is `stored`: None
    while it does not exist, otherwise the mapping it holds; every read
    takes the whole mapping and every write replaces it. */
module JsonWrapper {
  import opened Python

  type Store = map<string, Json>

  /** The entries of `data` whose key is in `keys`. */
  function Restrict(data: Store, keys: set<string>): (r: Store)
    ensures r.Keys == data.Keys * keys
    ensures forall k :: k in r ==> r[k] == data[k]
  {
    map k | k in data && k in keys :: data[k]
  }

  /** What `_checkout` leaves of the stored `data` for the defaults
      `config`. The decision is taken on the NUMBER of entries only. */
  function Reconciled(data: Store, config: Store): Store {
    if |data| > |config| then Restrict(data, config.Keys)
    else if |data| < |config| then config + data
    else data
  }

  /** More entries than the defaults: every key that is not a default is
      removed, the others keep their values. */
  lemma ReconcileRemovesExtras(data: Store, config: Store)
    requires |data| > |config|
    ensures Reconciled(data, config).Keys == data.Keys * config.Keys
    ensures forall k :: k in Reconciled(data, config) ==> Reconciled(data, config)[k] == data[k]
  {
  }

  /** Fewer entries than the defaults: every missing default is added with
      its default value, and the stored values are kept. */
  lemma ReconcileAddsMissing(data: Store, config: Store)
    requires |data| < |config|
    ensures Reconciled(data, config).Keys == data.Keys + config.Keys
    ensures forall k :: k in data ==> Reconciled(data, config)[k] == data[k]
    ensures forall k :: k in config && k !in data ==> Reconciled(data, config)[k] == config[k]
  {
  }

  /** When the stored keys only lack some defaults, or only have some
      extras, reconciliation yields exactly the keys of the defaults. */
  lemma ReconcileMatchesSchema(data: Store, config: Store)
    requires data.Keys <= config.Keys || config.Keys <= data.Keys
    ensures Reconciled(data, config).Keys == config.Keys
  {
    assert |data| == |data.Keys| && |config| == |config.Keys|;
    if data.Keys <= config.Keys {
      SubsetCardinality(data.Keys, config.Keys);
    } else {
      SubsetCardinality(config.Keys, data.Keys);
    }
  }

  /** Because only the counts are compared, a store with extra keys AND
      missing defaults loses its extras without gaining the defaults, and a
      second reconciliation then changes it again. */
  lemma ReconcileIsCountBased()
    ensures var data := map["volume" := Num(50), "a.mp3.delay" := Num(2), "b.mp3.delay" := Num(1)];
            var config := map["volume" := Num(100), "is_muted" := Bool(false)];
            && Reconciled(data, config) == map["volume" := Num(50)]
            && Reconciled(Reconciled(data, config), config) != Reconciled(data, config)
  {
    var data := map["volume" := Num(50), "a.mp3.delay" := Num(2), "b.mp3.delay" := Num(1)];
    var config := map["volume" := Num(100), "is_muted" := Bool(false)];
    assert data.Keys == {"volume", "a.mp3.delay", "b.mp3.delay"};
    assert config.Keys == {"volume", "is_muted"};
    var once := Reconciled(data, config);
    assert once == map["volume" := Num(50)];
    assert |once| == 1;
    assert "is_muted" in Reconciled(once, config);
  }

  /** Equal counts leave the store alone even with different keys. */
  lemma ReconcileEqualCountKeepsAll(data: Store, config: Store)
    requires |data| == |config|
    ensures Reconciled(data, config) == data
  {
  }

  class Handler {
    /** `_file`, the path of the JSON file. */
    const file: string
    /** `_config`, the default mapping. */
    const config: Store
    /** The file's contents, None while the file does not exist. */
    var stored: Option<Store>

    /** `Handler(file, config)`; `stored` is the state of the file system at
        that moment. */
    constructor (file: string, config: Store, stored: Option<Store>)
      ensures this.file == file && this.config == config && this.stored == stored
    {
      this.file := file;
      this.config := config;
      this.stored := stored;
    }

    /** `read()` / `_read()`: the whole mapping, FileNotFoundError without a
        file. */
    function Read(): (r: Result<Store>)
      reads this
      ensures r.Ok? <==> stored.Some?
      ensures r.Ok? ==> r.value == stored.value
      ensures r.Err? ==> r.error == FileNotFoundError
    {
      if stored.Some? then Ok(stored.value) else Err(FileNotFoundError)
    }

    /** `write(data)` / `_write(data)`: replaces (or creates) the file. */
    method Write(data: Store)
      modifies this`stored
      ensures stored == Some(data)
    {
      stored := Some(data);
    }

    /** `get(key, default)`: the stored value, or `default` for a missing
        key; only a missing file raises. */
    method Get(key: string, default: Json) returns (r: Result<Json>)
      ensures stored.None? ==> r == Err(FileNotFoundError)
      ensures stored.Some? && key in stored.value ==> r == Ok(stored.value[key])
      ensures stored.Some? && key !in stored.value ==> r == Ok(default)
    {
      var data := Read();
      if data.Err? {
        return Err(data.error);
      }
      r := Ok(if key in data.value then data.value[key] else default);
    }

    /** `handler[key]`: KeyError for a missing key. */
    method GetItem(key: string) returns (r: Result<Json>)
      ensures stored.None? ==> r == Err(FileNotFoundError)
      ensures stored.Some? && key in stored.value ==> r == Ok(stored.value[key])
      ensures stored.Some? && key !in stored.value ==> r == Err(KeyError)
    {
      var data := Read();
      if data.Err? {
        return Err(data.error);
      }
      if key !in data.value {
        return Err(KeyError);
      }
      r := Ok(data.value[key]);
    }

    /** `key in handler`. */
    method Contains(key: string) returns (r: Result<bool>)
      ensures stored.None? ==> r == Err(FileNotFoundError)
      ensures stored.Some? ==> r == Ok(key in stored.value)
    {
      var data := Read();
      if data.Err? {
        return Err(data.error);
      }
      r := Ok(key in data.value);
    }

    /** `len(handler)`. */
    method Len() returns (r: Result<nat>)
      ensures stored.None? ==> r == Err(FileNotFoundError)
      ensures stored.Some? ==> r == Ok(|stored.value|)
    {
      var data := Read();
      if data.Err? {
        return Err(data.error);
      }
      r := Ok(|data.value|);
    }

    /** `bool(handler)`: false exactly for an empty mapping. */
    method Bool() returns (r: Result<bool>)
      ensures stored.None? ==> r == Err(FileNotFoundError)
      ensures stored.Some? ==> r.Ok? && (r.value <==> stored.value != map[])
    {
      var data := Read();
      if data.Err? {
        return Err(data.error);
      }
      r := Ok(|data.value| != 0);
    }

    /** `edit(key, value)`: HandlerError, with the file unchanged, for a key
        that is not stored; otherwise only that key's value is replaced. */
    method Edit(key: string, value: Json) returns (o: Outcome)
      modifies this`stored
      ensures old(stored).None? ==> o == Fail(FileNotFoundError) && stored == old(stored)
      ensures old(stored).Some? && key !in old(stored).value ==> o == Fail(HandlerError) && stored == old(stored)
      ensures old(stored).Some? && key in old(stored).value ==>
                o == Pass && stored == Some(old(stored).value[key := value])
    {
      var data := Read();
      if data.Err? {
        return Fail(data.error);
      }
      if key !in data.value {
        return Fail(HandlerError);
      }
      Write(data.value[key := value]);
      o := Pass;
    }

    /** `add(key, value)`: HandlerError, with the file unchanged, for a key
        that is already stored; otherwise the key is inserted and the other
        entries are kept. */
    method Add(key: string, value: Json) returns (o: Outcome)
      modifies this`stored
      ensures old(stored).None? ==> o == Fail(FileNotFoundError) && stored == old(stored)
      ensures old(stored).Some? && key in old(stored).value ==> o == Fail(HandlerError) && stored == old(stored)
      ensures old(stored).Some? && key !in old(stored).value ==>
                o == Pass && stored == Some(old(stored).value[key := value])
    {
      var data := Read();
      if data.Err? {
        return Fail(data.error);
      }
      if key in data.value {
        return Fail(HandlerError);
      }
      Write(data.value[key := value]);
      o := Pass;
    }

    /** `handler[key] = value` is `add`: assigning a stored key raises. */
    method SetItem(key: string, value: Json) returns (o: Outcome)
      modifies this`stored
      ensures old(stored).None? ==> o == Fail(FileNotFoundError) && stored == old(stored)
      ensures old(stored).Some? && key in old(stored).value ==> o == Fail(HandlerError) && stored == old(stored)
      ensures old(stored).Some? && key !in old(stored).value ==>
                o == Pass && stored == Some(old(stored).value[key := value])
    {
      o := Add(key, value);
    }

    /** `remove_key(key)`: KeyError for a missing key, otherwise the entry is
        deleted. */
    method RemoveKey(key: string) returns (o: Outcome)
      modifies this`stored
      ensures old(stored).None? ==> o == Fail(FileNotFoundError) && stored == old(stored)
      ensures old(stored).Some? && key !in old(stored).value ==> o == Fail(KeyError) && stored == old(stored)
      ensures old(stored).Some? && key in old(stored).value ==>
                o == Pass && stored == Some(old(stored).value - {key})
    {
      var data := Read();
      if data.Err? {
        return Fail(data.error);
      }
      if key !in data.value {
        return Fail(KeyError);
      }
      Write(data.value - {key});
      o := Pass;
    }

    /** `clear()`: writes an empty mapping, whose truth value is false. */
    method Clear()
      modifies this`stored
      ensures stored == Some(map[])
    {
      Write(map[]);
    }

    /** `purge()`: deletes the file; FileNotFoundError when there is none. */
    method Purge() returns (o: Outcome)
      modifies this`stored
      ensures old(stored).None? ==> o == Fail(FileNotFoundError) && stored == old(stored)
      ensures old(stored).Some? ==> o == Pass && stored == None
    {
      if stored.None? {
        return Fail(FileNotFoundError);
      }
      stored := None;
      o := Pass;
    }

    /** `_remove_entry()`: removes, one `remove_key` at a time, each stored key
        that is not a default. The keys are those read when the iteration
        starts. */
    method RemoveEntry() returns (o: Outcome)
      modifies this`stored
      ensures old(stored).None? ==> o == Fail(FileNotFoundError) && stored == old(stored)
      ensures old(stored).Some? ==> o == Pass && stored == Some(Restrict(old(stored).value, config.Keys))
    {
      var items := Read();
      if items.Err? {
        return Fail(items.error);
      }
      var data := items.value;
      var pending := data.Keys;
      assert Restrict(data, config.Keys + pending) == data;
      while pending != {}
        invariant pending <= data.Keys
        invariant stored == Some(Restrict(data, config.Keys + pending))
        decreases pending
      {
        var k :| k in pending;
        if k !in config {
          var _ := RemoveKey(k);
          assert Restrict(data, config.Keys + pending) - {k} == Restrict(data, config.Keys + (pending - {k}));
        } else {
          assert config.Keys + pending == config.Keys + (pending - {k});
        }
        pending := pending - {k};
      }
      assert config.Keys + pending == config.Keys;
      o := Pass;
    }

    /** `_add_entry()`: adds, one `add` at a time, each default whose key is
        not stored. Every membership test reads the file, so without a file
        it raises unless there are no defaults. */
    method AddEntry() returns (o: Outcome)
      modifies this`stored
      ensures old(stored).None? && config != map[] ==> o == Fail(FileNotFoundError) && stored == old(stored)
      ensures old(stored).None? && config == map[] ==> o == Pass && stored == old(stored)
      ensures old(stored).Some? ==> o == Pass && stored == Some(config + old(stored).value)
    {
      ghost var base := stored;
      var pending := config.Keys;
      if base.Some? {
        assert Restrict(config, config.Keys - pending) + base.value == base.value;
      }
      while pending != {}
        invariant pending <= config.Keys
        invariant base.None? ==> stored == base && pending == config.Keys
        invariant base.Some? ==> stored == Some(Restrict(config, config.Keys - pending) + base.value)
        decreases pending
      {
        var k :| k in pending;
        var present := Contains(k);
        if present.Err? {
          return Fail(present.error);
        }
        if !present.value {
          var _ := Add(k, config[k]);
          assert Restrict(config, config.Keys - (pending - {k})) + base.value
              == (Restrict(config, config.Keys - pending) + base.value)[k := config[k]];
        } else {
          assert Restrict(config, config.Keys - (pending - {k})) + base.value
              == Restrict(config, config.Keys - pending) + base.value;
        }
        pending := pending - {k};
      }
      if base.Some? {
        assert config.Keys - pending == config.Keys;
        assert Restrict(config, config.Keys) == config;
      }
      o := Pass;
    }

    /** `_checkout()`: with more entries than the defaults, drop the extras;
        with fewer, add the missing defaults; otherwise do nothing. */
    method Checkout() returns (o: Outcome)
      modifies this`stored
      ensures old(stored).None? ==> o == Fail(FileNotFoundError) && stored == old(stored)
      ensures old(stored).Some? ==> o == Pass && stored == Some(Reconciled(old(stored).value, config))
    {
      var len := Len();
      if len.Err? {
        return Fail(len.error);
      }
      if len.value > |config| {
        o := RemoveEntry();
      } else if len.value < |config| {
        o := AddEntry();
      } else {
        o := Pass;
      }
    }

    /** `sync()`: the same reconciliation on demand. */
    method Sync() returns (o: Outcome)
      modifies this`stored
      ensures old(stored).None? ==> o == Fail(FileNotFoundError) && stored == old(stored)
      ensures old(stored).Some? ==> o == Pass && stored == Some(Reconciled(old(stored).value, config))
    {
      o := Checkout();
    }

    /** `init()`: writes the defaults only when there is no file, then
        reconciles; a fresh file therefore holds exactly the defaults. */
    method Init()
      modifies this`stored
      ensures old(stored).None? ==> stored == Some(config)
      ensures old(stored).Some? ==> stored == Some(Reconciled(old(stored).value, config))
    {
      if stored.None? {
        Write(config);
      }
      var _ := Checkout();
    }

    /** `restore_default()`: purge, then init. The purge raises when there is
        no file, and then nothing else happens. */
    method RestoreDefault() returns (o: Outcome)
      modifies this`stored
      ensures old(stored).None? ==> o == Fail(FileNotFoundError) && stored == old(stored)
      ensures old(stored).Some? ==> o == Pass && stored == Some(config)
    {
      o := Purge();
      if o.Fail? {
        return;
      }
      Init();
    }

    /** `update(other)`: merges the other mapping into this one, the other
        side winning on shared keys, and writes the result. Anything but a
        dict or a handler raises HandlerError. */
    method Update(other: Operand) returns (o: Outcome)
      modifies this`stored
      ensures other.OtherArg? ==> o == Fail(HandlerError) && stored == old(stored)
      ensures !other.OtherArg? && (old(Read()).Err? || old(Contents(other)).Err?) ==>
                o == Fail(FileNotFoundError) && stored == old(stored)
      ensures !other.OtherArg? && old(Read()).Ok? && old(Contents(other)).Ok? ==>
                o == Pass && stored == Some(old(Read()).value + old(Contents(other)).value)
    {
      if other.OtherArg? {
        return Fail(HandlerError);
      }
      var data := Read();
      if data.Err? {
        return Fail(data.error);
      }
      var more := Contents(other);
      if more.Err? {
        return Fail(more.error);
      }
      Write(data.value + more.value);
      o := Pass;
    }

    /** `handler | other`: the same merge, which is written to this handler's
        file and also returned. Anything but a dict or a handler raises
        TypeError. */
    method Or(other: Operand) returns (r: Result<Store>)
      modifies this`stored
      ensures other.OtherArg? ==> r == Err(TypeError) && stored == old(stored)
      ensures !other.OtherArg? && (old(Read()).Err? || old(Contents(other)).Err?) ==>
                r == Err(FileNotFoundError) && stored == old(stored)
      ensures !other.OtherArg? && old(Read()).Ok? && old(Contents(other)).Ok? ==>
                r == Ok(old(Read()).value + old(Contents(other)).value) && stored == Some(r.value)
    {
      if other.OtherArg? {
        return Err(TypeError);
      }
      var data := Read();
      if data.Err? {
        return Err(data.error);
      }
      var more := Contents(other);
      if more.Err? {
        return Err(more.error);
      }
      var merged := data.value + more.value;
      Write(merged);
      r := Ok(merged);
    }

    /** `handler == other`: equal to a dict or a handler exactly when the
        mappings are equal under Python's `==`, never equal to anything
        else; only a missing file raises. */
    method Eq(other: Operand) returns (r: Result<bool>)
      ensures other.OtherArg? ==> r == Ok(false)
      ensures !other.OtherArg? ==> (r.Ok? <==> stored.Some? && Contents(other).Ok?)
      ensures !other.OtherArg? && r.Ok? ==> (r.value <==> DictEq(stored.value, Contents(other).value))
      ensures r.Err? ==> r.error == FileNotFoundError
    {
      if other.OtherArg? {
        return Ok(false);
      }
      var data := Read();
      if data.Err? {
        return Err(data.error);
      }
      var more := Contents(other);
      if more.Err? {
        return Err(more.error);
      }
      r := Ok(DictEq(data.value, more.value));
    }
  }

  /** A handler equals a dict holding the same mapping, and values compare
      as Python compares them: a stored `0` equals `False`. */
  lemma EqualStoresCompareEqual(data: Store)
    ensures DictEq(data, data)
    ensures DictEq(map["is_muted" := Num(0)], map["is_muted" := Bool(false)])
    ensures !DictEq(map["is_muted" := Num(2)], map["is_muted" := Bool(true)])
  {
    PyEqReflexive(Obj(data));
    var two, yes := map["is_muted" := Num(2)], map["is_muted" := Bool(true)];
    assert !PyEq(two["is_muted"], yes["is_muted"]);
  }

  /** The right operand of `update`, `|` and `==`. */
  datatype Operand = HandlerArg(h: Handler) | DictArg(d: Store) | OtherArg {
    function Objects(): set<object> {
      if HandlerArg? then {h} else {}
    }
  }

  /** The mapping an operand stands for; a handler's is read from its file. */
  function Contents(other: Operand): Result<Store>
    reads other.Objects()
  {
    match other
    case HandlerArg(h) => h.Read()
    case DictArg(d) => Ok(d)
    case OtherArg => Err(TypeError)
  }
}
