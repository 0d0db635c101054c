/** What the dumper promises: where the default tables send each runtime
    class, that scalars come back unchanged, that sequences become lists of
    their dumped items and mappings dicts with dumped string keys, that an enum
    member dumps as its value, how the alias function is composed, and the two
    defects of the code as written. */
module DumpingProperties {
  import opened Wrappers
  import opened Forms
  import opened Values
  import opened TypePaths
  import opened Exceptions
  import opened Dispatch
  import opened Predicates
  import opened AliasFunctions
  import opened Dumping

  /** The configuration of a dumper built with the default tables. */
  function DefaultConfig(external: ExternalDumpers): DumpConfig {
    DumpConfig(DefaultDumpMappers(), external, KeyValueError)
  }

  // ---------------------------------------------------------------------------
  // Routing

  /** The dumper the default predicate table gives a class of each kind: IP
      addresses and UUIDs as scalars, enums by value, dates, dataclasses,
      named tuples and paths by their external dumpers; none for the rest. */
  function KindDumper(k: Kind): Option<DumperFn> {
    match k
    case KIpAddress => Some(DumpSimpleScalar)
    case KUuid => Some(DumpSimpleScalar)
    case KEnum => Some(DumpEnum)
    case KDatetime => Some(DumpExternal("dump_datetime"))
    case KDataclass(_) => Some(DumpExternal("dump_dataclass"))
    case KNamedTuple => Some(DumpExternal("dump_namedtuple"))
    case KFspath => Some(DumpExternal("dump_fspath"))
    case _ => None
  }

  /** A class missing from the exact table gets the dumper of its kind: the
      predicates of the default table test for distinct kinds, so their order
      decides nothing. */
  lemma DefaultDumpRouting(tf: TypeForm)
    ensures FirstMatch(DefaultDumpMappers(), tf) == KindDumper(tf.kind)
  {
    match tf.kind
    case KIpAddress => ScalarKindsRouted(tf);
    case KUuid => ScalarKindsRouted(tf);
    case KEnum => ScalarKindsRouted(tf);
    case KDatetime => DateKindsRouted(tf);
    case KDataclass(_) => DateKindsRouted(tf);
    case KNamedTuple => TupleKindsRouted(tf);
    case KFspath => TupleKindsRouted(tf);
    case _ => OtherKindsUnrouted(tf);
  }

  lemma ScalarKindsRouted(tf: TypeForm)
    requires tf.kind == KIpAddress || tf.kind == KUuid || tf.kind == KEnum
    ensures FirstMatch(DefaultDumpMappers(), tf) == KindDumper(tf.kind)
  {
    var ms := DefaultDumpMappers();
    match tf.kind
    case KIpAddress => FirstMatchWins(ms, tf, 0);
    case KUuid => FirstMatchWins(ms, tf, 1);
    case KEnum => FirstMatchWins(ms, tf, 2);
  }

  lemma DateKindsRouted(tf: TypeForm)
    requires tf.kind == KDatetime || tf.kind.KDataclass?
    ensures FirstMatch(DefaultDumpMappers(), tf) == KindDumper(tf.kind)
  {
    var ms := DefaultDumpMappers();
    if tf.kind == KDatetime {
      FirstMatchWins(ms, tf, 3);
    } else {
      FirstMatchWins(ms, tf, 4);
    }
  }

  lemma TupleKindsRouted(tf: TypeForm)
    requires tf.kind == KNamedTuple || tf.kind == KFspath
    ensures FirstMatch(DefaultDumpMappers(), tf) == KindDumper(tf.kind)
  {
    var ms := DefaultDumpMappers();
    if tf.kind == KNamedTuple {
      FirstMatchWins(ms, tf, 5);
    } else {
      FirstMatchWins(ms, tf, 6);
    }
  }

  lemma OtherKindsUnrouted(tf: TypeForm)
    requires KindDumper(tf.kind).None?
    ensures FirstMatch(DefaultDumpMappers(), tf).None?
  {
    var ms := DefaultDumpMappers();
    assert !IsIpAddressType(tf) && !IsUuidType(tf) && !IsEnumType(tf) && !IsDatetimeType(tf);
    assert !IsDataclassType(tf) && !IsNamedTupleType(tf) && !IsFspathType(tf);
    assert forall i :: 0 <= i < |ms| ==> !Holds(ms[i].pred, tf);
  }

  /** `None`, booleans, integers, floats and strings dump as themselves, and
      the table is left as it was, in any state a dumper built on the default
      exact table reaches. */
  lemma ScalarsDumpAsThemselves(exact: Table, cfg: DumpConfig, v: Value, path: Path)
    requires SoundCache(exact, DefaultDumpers(), cfg.mappers)
    requires v.VNone? || v.VBool? || v.VInt? || v.VFloat? || v.VStr?
    ensures DumpF(exact, cfg, v, path) == (exact, Ok(v))
  {
    assert TypeOf(v) in DefaultDumpers() && DefaultDumpers()[TypeOf(v)] == DumpIdentity;
    assert DumpF(exact, cfg, v, path) == (exact, DumpWith(exact, cfg, DumpIdentity, v, path).1);
  }

  /** An entry for `dump_simple_scalar` gives the `str()` of the value. */
  lemma SimpleScalarDumpsText(exact: Table, initial: Table, cfg: DumpConfig, v: Value, path: Path)
    requires SoundCache(exact, initial, cfg.mappers)
    requires Resolve(initial, cfg.mappers, TypeOf(v)) == Some(DumpSimpleScalar)
    ensures DumpF(exact, cfg, v, path).1 == Ok(VStr(StrOf(v)))
  {
    SoundCacheResolves(exact, initial, cfg.mappers, TypeOf(v));
    var memo := Memoised(exact, cfg.mappers, TypeOf(v));
    assert DumpF(exact, cfg, v, path).1 == DumpWith(memo, cfg, DumpSimpleScalar, v, path).1;
  }

  /** An entry for `dump_enum` dumps the member's value at the same path; a
      failure there is reported for the member. */
  lemma EnumDumpsValue(exact: Table, initial: Table, cfg: DumpConfig, v: Value, path: Path)
    requires SoundCache(exact, initial, cfg.mappers) && v.VEnum?
    requires Resolve(initial, cfg.mappers, TypeOf(v)) == Some(DumpEnum)
    ensures var inner := DumpF(initial, cfg, v.value, path).1;
      DumpF(exact, cfg, v, path).1 == if inner.Err? then Err(Wrap(inner.error, v, TypeOf(v), path)) else inner
  {
    SoundCacheResolves(exact, initial, cfg.mappers, TypeOf(v));
    var memo := Memoised(exact, cfg.mappers, TypeOf(v));
    MemoisedSound(exact, initial, cfg.mappers, TypeOf(v));
    assert DumpWith(memo, cfg, DumpEnum, v, path) == DumpF(memo, cfg, v.value, path);
    DumpCacheTransparent(memo, initial, cfg, v.value, path);
  }

  // ---------------------------------------------------------------------------
  // Sequences

  /** Each item of a sequence dumped on its own through the initial table,
      item `k` at `path + (k,)`. */
  function ItemDumps(initial: Table, cfg: DumpConfig, items: seq<Value>, path: Path)
    : (r: seq<Result<Value, EngineError>>)
    ensures |r| == |items|
    ensures forall k :: 0 <= k < |items| ==> r[k] == DumpF(initial, cfg, items[k], path + [VInt(k)]).1
  {
    seq(|items|, k requires 0 <= k < |items| => DumpF(initial, cfg, items[k], path + [VInt(k)]).1)
  }

  /** The results from `i` on, appended in order to `dumped` up to the first
      failure. */
  function AppendFrom(results: seq<Result<Value, EngineError>>, i: nat, dumped: seq<Value>)
    : Result<seq<Value>, EngineError>
    requires i <= |results|
    decreases |results| - i
  {
    if i == |results| then Ok(dumped)
    else if results[i].Err? then Err(results[i].error)
    else AppendFrom(results, i + 1, dumped + [results[i].value])
  }

  predicate AllOk(results: seq<Result<Value, EngineError>>, i: nat) {
    forall k :: i <= k < |results| ==> results[k].Ok?
  }

  /** Appending succeeds exactly when every result is a success, and then
      gives `dumped` followed by the values in order. */
  lemma {:induction false} AppendPointwise(results: seq<Result<Value, EngineError>>, i: nat, dumped: seq<Value>)
    requires i <= |results|
    ensures AppendFrom(results, i, dumped).Ok? <==> AllOk(results, i)
    ensures AppendFrom(results, i, dumped).Ok? ==>
      && |AppendFrom(results, i, dumped).value| == |dumped| + |results| - i
      && AppendFrom(results, i, dumped).value[..|dumped|] == dumped
      && forall k :: i <= k < |results| ==> AppendFrom(results, i, dumped).value[|dumped| + k - i] == results[k].value
    decreases |results| - i
  {
    if i < |results| && results[i].Ok? {
      var d := dumped + [results[i].value];
      assert AppendFrom(results, i, dumped) == AppendFrom(results, i + 1, d);
      AppendPointwise(results, i + 1, d);
      if AppendFrom(results, i, dumped).Ok? {
        var out := AppendFrom(results, i, dumped).value;
        assert out[..|d|][..|dumped|] == out[..|dumped|];
        assert out[|dumped|] == out[..|d|][|dumped|];
      }
    }
  }

  /** The comprehension of `dump_simple_sequence`, whatever the table it
      starts from, appends the item dumps to those already made. */
  lemma {:induction false} ItemsCollect(a: Table, initial: Table, cfg: DumpConfig, items: seq<Value>, path: Path,
                                        bound: nat, i: nat, dumped: seq<Value>)
    requires SoundCache(a, initial, cfg.mappers)
    requires i <= |items| && ItemsBelow(items, bound)
    ensures DumpItemsF(a, cfg, items, path, bound, i, dumped).1 == AppendFrom(ItemDumps(initial, cfg, items, path), i, dumped)
    decreases |items| - i
  {
    if i < |items| {
      DumpCacheTransparent(a, initial, cfg, items[i], path + [VInt(i)]);
      var o := DumpF(a, cfg, items[i], path + [VInt(i)]);
      if o.1.Ok? {
        SoundCacheChain(o.0, a, initial, cfg.mappers);
        ItemsCollect(o.0, initial, cfg, items, path, bound, i + 1, dumped + [o.1.value]);
      }
    }
  }

  /** `dump_simple_sequence` on an iterable other than a string, from any
      table sound for the initial one: the list of the collected item dumps,
      or the first failure. */
  lemma SequenceWithCollects(memo: Table, initial: Table, cfg: DumpConfig, v: Value, path: Path)
    requires SoundCache(memo, initial, cfg.mappers)
    requires Iterate(v).Some? && !v.VStr?
    ensures var c := AppendFrom(ItemDumps(initial, cfg, Iterate(v).value, path), 0, []);
      DumpWith(memo, cfg, DumpSimpleSequence, v, path).1 == if c.Ok? then Ok(VList(c.value)) else Err(c.error)
  {
    IterateLighter(v);
    ItemsCollect(memo, initial, cfg, Iterate(v).value, path, Weight(v), 0, []);
  }

  /** A value whose type dispatches to `dump_simple_sequence` dumps as the
      list of the collected item dumps; a failure is wrapped at the value. */
  lemma SequenceDumpCollects(exact: Table, initial: Table, cfg: DumpConfig, v: Value, path: Path)
    requires SoundCache(exact, initial, cfg.mappers)
    requires Resolve(initial, cfg.mappers, TypeOf(v)) == Some(DumpSimpleSequence)
    requires Iterate(v).Some? && !v.VStr?
    ensures var c := AppendFrom(ItemDumps(initial, cfg, Iterate(v).value, path), 0, []);
      DumpF(exact, cfg, v, path).1 == if c.Ok? then Ok(VList(c.value)) else Err(Wrap(c.error, v, TypeOf(v), path))
  {
    DumpCacheTransparent(exact, initial, cfg, v, path);
    var memo := Memoised(initial, cfg.mappers, TypeOf(v));
    MemoisedSound(initial, initial, cfg.mappers, TypeOf(v));
    SequenceWithCollects(memo, initial, cfg, v, path);
  }

  /** An entry for `dump_simple_sequence` turns an iterable (other than a
      string) into a list: it succeeds exactly when every item dumps, item `k`
      dumped at `path + (k,)`, and the list holds those dumps in order. */
  lemma SequenceDumpsToList(exact: Table, initial: Table, cfg: DumpConfig, v: Value, path: Path)
    requires SoundCache(exact, initial, cfg.mappers)
    requires Resolve(initial, cfg.mappers, TypeOf(v)) == Some(DumpSimpleSequence)
    requires Iterate(v).Some? && !v.VStr?
    ensures var results := ItemDumps(initial, cfg, Iterate(v).value, path);
      var r := DumpF(exact, cfg, v, path).1;
      && (r.Ok? <==> AllOk(results, 0))
      && (r.Ok? ==> r.value.VList? && |r.value.items| == |results|
                    && forall k :: 0 <= k < |results| ==> r.value.items[k] == results[k].value)
  {
    var results := ItemDumps(initial, cfg, Iterate(v).value, path);
    SequenceDumpCollects(exact, initial, cfg, v, path);
    ListOfResults(results, DumpF(exact, cfg, v, path).1);
  }

  /** A result built from appending all of `results` from the start is a list
      exactly when every result is a success, and then holds their values. */
  lemma ListOfResults(results: seq<Result<Value, EngineError>>, r: Result<Value, EngineError>)
    requires var c := AppendFrom(results, 0, []);
      && (c.Ok? ==> r == Ok(VList(c.value)))
      && (c.Err? ==> r.Err?)
    ensures r.Ok? <==> AllOk(results, 0)
    ensures r.Ok? ==> r.value.VList? && |r.value.items| == |results|
    ensures r.Ok? ==> forall k :: 0 <= k < |results| ==> r.value.items[k] == results[k].value
  {
    AppendPointwise(results, 0, []);
  }

  // ---------------------------------------------------------------------------
  // Mappings

  /** One entry of a dict dumped on its own through the initial table: the
      key through `_dump_key`, then the value at `path + (key,)`. */
  function EntryDump(initial: Table, cfg: DumpConfig, e: Entry, path: Path): (r: Result<(Value, Value), EngineError>)
    ensures r.Ok? ==> r.value.0.VStr?
  {
    var k := DumpKeyF(initial, cfg, e.key, path).1;
    if k.Err? then Err(k.error)
    else
      var o := DumpF(initial, cfg, e.value, path + [e.key]).1;
      if o.Err? then Err(o.error) else Ok((k.value, o.value))
  }

  function EntryDumps(initial: Table, cfg: DumpConfig, entries: seq<Entry>, path: Path)
    : (r: seq<Result<(Value, Value), EngineError>>)
    ensures |r| == |entries|
    ensures forall i :: 0 <= i < |entries| ==> r[i] == EntryDump(initial, cfg, entries[i], path)
  {
    seq(|entries|, i requires 0 <= i < |entries| => EntryDump(initial, cfg, entries[i], path))
  }

  /** The dumped pairs from `i` on, stored in order into `dumped` up to the
      first failure. */
  function InsertFrom(results: seq<Result<(Value, Value), EngineError>>, i: nat, dumped: seq<Entry>)
    : Result<seq<Entry>, EngineError>
    requires i <= |results|
    decreases |results| - i
  {
    if i == |results| then Ok(dumped)
    else if results[i].Err? then Err(results[i].error)
    else InsertFrom(results, i + 1, Insert(dumped, results[i].value.0, results[i].value.1))
  }

  predicate AllDumped(results: seq<Result<(Value, Value), EngineError>>, i: nat) {
    forall j :: i <= j < |results| ==> results[j].Ok?
  }

  /** Storing the pairs succeeds exactly when every pair dumped. */
  lemma {:induction false} InsertFromSucceeds(results: seq<Result<(Value, Value), EngineError>>, i: nat,
                                              dumped: seq<Entry>)
    requires i <= |results|
    ensures InsertFrom(results, i, dumped).Ok? <==> AllDumped(results, i)
    decreases |results| - i
  {
    if i < |results| && results[i].Ok? {
      InsertFromSucceeds(results, i + 1, Insert(dumped, results[i].value.0, results[i].value.1));
    }
  }

  /** A key no stored pair has reads as it did in `dumped`. */
  lemma {:induction false} InsertFromUntouched(results: seq<Result<(Value, Value), EngineError>>, i: nat,
                                               dumped: seq<Entry>, q: Value)
    requires i <= |results| && AllDumped(results, i)
    requires forall j :: i <= j < |results| ==> results[j].value.0 != q
    ensures InsertFrom(results, i, dumped).Ok?
    ensures Lookup(InsertFrom(results, i, dumped).value, q) == Lookup(dumped, q)
    decreases |results| - i
  {
    if i < |results| {
      var k, v := results[i].value.0, results[i].value.1;
      var d := Insert(dumped, k, v);
      assert InsertFrom(results, i, dumped) == InsertFrom(results, i + 1, d);
      InsertFromUntouched(results, i + 1, d, q);
      InsertLookup(dumped, k, v, q);
    }
  }

  /** The key of the last pair that has it reads as that pair's value. */
  lemma {:induction false} InsertFromLastWins(results: seq<Result<(Value, Value), EngineError>>, i: nat,
                                              dumped: seq<Entry>, j: nat)
    requires i <= j < |results| && AllDumped(results, i)
    requires forall l :: j < l < |results| ==> results[l].value.0 != results[j].value.0
    ensures InsertFrom(results, i, dumped).Ok?
    ensures Lookup(InsertFrom(results, i, dumped).value, results[j].value.0) == Some(results[j].value.1)
    decreases |results| - i
  {
    var k, v := results[i].value.0, results[i].value.1;
    var d := Insert(dumped, k, v);
    assert InsertFrom(results, i, dumped) == InsertFrom(results, i + 1, d);
    if i < j {
      InsertFromLastWins(results, i + 1, d, j);
    } else {
      InsertFromUntouched(results, i + 1, d, k);
      InsertLookup(dumped, k, v, k);
    }
  }

  /** The keys of the pairs from `i` on. */
  function KeysFrom(results: seq<Result<(Value, Value), EngineError>>, i: nat): (r: seq<Value>)
    requires i <= |results| && AllDumped(results, i)
    ensures |r| == |results| - i
    ensures forall j :: i <= j < |results| ==> r[j - i] == results[j].value.0
  {
    seq(|results| - i, j requires 0 <= j < |results| - i => results[i + j].value.0)
  }

  /** The keys of the stored pairs are the keys of `dumped` and the dumped
      keys. */
  lemma {:induction false} InsertFromKeys(results: seq<Result<(Value, Value), EngineError>>, i: nat,
                                          dumped: seq<Entry>, q: Value)
    requires i <= |results| && AllDumped(results, i)
    ensures InsertFrom(results, i, dumped).Ok?
    ensures q in Keys(InsertFrom(results, i, dumped).value) <==> q in Keys(dumped) || q in KeysFrom(results, i)
    decreases |results| - i
  {
    if i < |results| {
      var d := Insert(dumped, results[i].value.0, results[i].value.1);
      assert InsertFrom(results, i, dumped) == InsertFrom(results, i + 1, d);
      InsertFromKeys(results, i + 1, d, q);
      assert KeysFrom(results, i) == [results[i].value.0] + KeysFrom(results, i + 1);
    } else {
      assert KeysFrom(results, i) == [];
    }
  }

  /** Storing pairs with string keys into a dict with string keys gives a
      dict with string keys. */
  lemma {:induction false} InsertFromStrKeys(results: seq<Result<(Value, Value), EngineError>>, i: nat,
                                             dumped: seq<Entry>)
    requires i <= |results| && StrKeys(dumped)
    requires forall j :: i <= j < |results| && results[j].Ok? ==> results[j].value.0.VStr?
    ensures InsertFrom(results, i, dumped).Ok? ==> StrKeys(InsertFrom(results, i, dumped).value)
    decreases |results| - i
  {
    if i < |results| && results[i].Ok? {
      var d := Insert(dumped, results[i].value.0, results[i].value.1);
      assert InsertFrom(results, i, dumped) == InsertFrom(results, i + 1, d);
      InsertFromStrKeys(results, i + 1, d);
    }
  }

  /** The comprehension of `dump_simple_mapping`, whatever the table it
      starts from, stores the entry dumps after the entries already made. */
  lemma {:induction false} EntriesCollect(a: Table, initial: Table, cfg: DumpConfig, entries: seq<Entry>, path: Path,
                                          bound: nat, i: nat, dumped: seq<Entry>)
    requires SoundCache(a, initial, cfg.mappers)
    requires i <= |entries| && EntriesBelow(entries, bound)
    ensures DumpEntriesF(a, cfg, entries, path, bound, i, dumped).1 ==
      InsertFrom(EntryDumps(initial, cfg, entries, path), i, dumped)
    decreases |entries| - i
  {
    if i < |entries| {
      var e := entries[i];
      SameKey(a, initial, initial, cfg, e.key, path);
      var k := DumpKeyF(a, cfg, e.key, path);
      if k.1.Ok? {
        SoundCacheChain(k.0, a, initial, cfg.mappers);
        DumpCacheTransparent(k.0, initial, cfg, e.value, path + [e.key]);
        var o := DumpF(k.0, cfg, e.value, path + [e.key]);
        if o.1.Ok? {
          SoundCacheChain(o.0, k.0, initial, cfg.mappers);
          EntriesCollect(o.0, initial, cfg, entries, path, bound, i + 1, Insert(dumped, k.1.value, o.1.value));
        }
      }
    }
  }

  /** A value whose type dispatches to `dump_simple_mapping` and that is a
      dict dumps as the dict of the stored entry dumps; a failure is wrapped
      at the value. */
  lemma MappingDumpStores(exact: Table, initial: Table, cfg: DumpConfig, v: Value, path: Path)
    requires SoundCache(exact, initial, cfg.mappers)
    requires Resolve(initial, cfg.mappers, TypeOf(v)) == Some(DumpSimpleMapping) && v.VDict?
    ensures var c := InsertFrom(EntryDumps(initial, cfg, v.entries, path), 0, []);
      DumpF(exact, cfg, v, path).1 == if c.Ok? then Ok(VDict(c.value)) else Err(Wrap(c.error, v, TypeOf(v), path))
  {
    DumpCacheTransparent(exact, initial, cfg, v, path);
    var memo := Memoised(initial, cfg.mappers, TypeOf(v));
    MemoisedSound(initial, initial, cfg.mappers, TypeOf(v));
    EntriesLighter(v.entries);
    EntriesCollect(memo, initial, cfg, v.entries, path, Weight(v), 0, []);
  }

  /** An entry for `dump_simple_mapping` turns a dict into a dict with
      string keys: it succeeds exactly when every key dumps to a `str` and
      every value dumps. */
  lemma MappingDumpsToDict(exact: Table, initial: Table, cfg: DumpConfig, v: Value, path: Path)
    requires SoundCache(exact, initial, cfg.mappers)
    requires Resolve(initial, cfg.mappers, TypeOf(v)) == Some(DumpSimpleMapping) && v.VDict?
    ensures var r := DumpF(exact, cfg, v, path).1;
      && (r.Ok? <==> forall j :: 0 <= j < |v.entries| ==> EntryDump(initial, cfg, v.entries[j], path).Ok?)
      && (r.Ok? ==> r.value.VDict? && StrKeys(r.value.entries))
  {
    var ds := EntryDumps(initial, cfg, v.entries, path);
    MappingDumpStores(exact, initial, cfg, v, path);
    InsertFromSucceeds(ds, 0, []);
    InsertFromStrKeys(ds, 0, []);
  }

  /** The keys of the dumped dict are exactly the dumped keys of its
      entries. */
  lemma MappingKeys(exact: Table, initial: Table, cfg: DumpConfig, v: Value, path: Path)
    requires SoundCache(exact, initial, cfg.mappers)
    requires Resolve(initial, cfg.mappers, TypeOf(v)) == Some(DumpSimpleMapping) && v.VDict?
    requires forall j :: 0 <= j < |v.entries| ==> EntryDump(initial, cfg, v.entries[j], path).Ok?
    ensures DumpF(exact, cfg, v, path).1.Ok? && DumpF(exact, cfg, v, path).1.value.VDict?
    ensures forall q :: q in Keys(DumpF(exact, cfg, v, path).1.value.entries) <==>
      exists j :: 0 <= j < |v.entries| && EntryDump(initial, cfg, v.entries[j], path).value.0 == q
  {
    var ds := EntryDumps(initial, cfg, v.entries, path);
    MappingDumpStores(exact, initial, cfg, v, path);
    assert AllDumped(ds, 0);
    DictOfResults(ds, DumpF(exact, cfg, v, path).1);
    var r := DumpF(exact, cfg, v, path).1;
    forall q | q in Keys(r.value.entries)
      ensures exists j :: 0 <= j < |v.entries| && EntryDump(initial, cfg, v.entries[j], path).value.0 == q
    {
      var j :| 0 <= j < |ds| && ds[j].value.0 == q;
      assert EntryDump(initial, cfg, v.entries[j], path) == ds[j];
    }
    forall q, j | 0 <= j < |v.entries| && EntryDump(initial, cfg, v.entries[j], path).value.0 == q
      ensures q in Keys(r.value.entries)
    {
      assert ds[j].value.0 == q;
    }
  }

  /** A dict built by storing every pair of `results` has as keys exactly the
      keys of the pairs. */
  lemma DictOfResults(ds: seq<Result<(Value, Value), EngineError>>, r: Result<Value, EngineError>)
    requires AllDumped(ds, 0)
    requires var c := InsertFrom(ds, 0, []); c.Ok? ==> r == Ok(VDict(c.value))
    ensures r.Ok? && r.value.VDict?
    ensures forall q :: q in Keys(r.value.entries) <==> exists j :: 0 <= j < |ds| && ds[j].value.0 == q
  {
    InsertFromSucceeds(ds, 0, []);
    forall q
      ensures q in Keys(InsertFrom(ds, 0, []).value) <==> exists j :: 0 <= j < |ds| && ds[j].value.0 == q
    {
      InsertFromKeys(ds, 0, [], q);
      if q in KeysFrom(ds, 0) {
        var j :| 0 <= j < |ds| - 0 && KeysFrom(ds, 0)[j] == q;
        assert ds[j].value.0 == q;
      }
    }
  }

  /** In the dumped dict, a key reads as the dumped value of the last entry
      whose key dumps to it: a later entry overwrites an earlier one. */
  lemma MappingLastWriterWins(exact: Table, initial: Table, cfg: DumpConfig, v: Value, path: Path, j: nat)
    requires SoundCache(exact, initial, cfg.mappers)
    requires Resolve(initial, cfg.mappers, TypeOf(v)) == Some(DumpSimpleMapping) && v.VDict?
    requires forall l :: 0 <= l < |v.entries| ==> EntryDump(initial, cfg, v.entries[l], path).Ok?
    requires j < |v.entries|
    requires forall l :: j < l < |v.entries| ==>
      EntryDump(initial, cfg, v.entries[l], path).value.0 != EntryDump(initial, cfg, v.entries[j], path).value.0
    ensures DumpF(exact, cfg, v, path).1.Ok? && DumpF(exact, cfg, v, path).1.value.VDict?
    ensures Lookup(DumpF(exact, cfg, v, path).1.value.entries, EntryDump(initial, cfg, v.entries[j], path).value.0)
            == Some(EntryDump(initial, cfg, v.entries[j], path).value.1)
  {
    var ds := EntryDumps(initial, cfg, v.entries, path);
    MappingDumpStores(exact, initial, cfg, v, path);
    InsertFromSucceeds(ds, 0, []);
    InsertFromLastWins(ds, 0, [], j);
  }

  // ---------------------------------------------------------------------------
  // Examples of the test suite

  const SampleEnumClass := ClassForm("SampleEnum", KEnum)
  const SampleStrEnumClass := ClassForm("SampleStrEnum", KEnum)
  const IPv4AddressClass := ClassForm("IPv4Address", KIpAddress)

  /** A value of a scalar builtin class. */
  predicate IsBuiltinScalar(v: Value) {
    v.VNone? || v.VBool? || v.VInt? || v.VFloat? || v.VStr?
  }

  /** With the default exact table, a list or tuple of builtin scalars dumps
      as the list of the same items. */
  lemma ScalarSequenceDumpsAsList(exact: Table, cfg: DumpConfig, v: Value, path: Path)
    requires SoundCache(exact, DefaultDumpers(), cfg.mappers)
    requires v.VList? || v.VTuple?
    requires forall k :: 0 <= k < |v.items| ==> IsBuiltinScalar(v.items[k])
    ensures DumpF(exact, cfg, v, path).1 == Ok(VList(v.items))
  {
    var initial := DefaultDumpers();
    assert Resolve(initial, cfg.mappers, TypeOf(v)) == Some(DumpSimpleSequence);
    SequenceDumpsToList(exact, initial, cfg, v, path);
    forall k | 0 <= k < |v.items|
      ensures DumpF(initial, cfg, v.items[k], path + [VInt(k)]).1 == Ok(v.items[k])
    {
      ScalarsDumpAsThemselves(initial, cfg, v.items[k], path + [VInt(k)]);
    }
    assert DumpF(exact, cfg, v, path).1.value.items == v.items;
  }

  /** `Dumper().dump((1, 2, 3)) == [1, 2, 3]`. */
  lemma DumperTupleExample(external: ExternalDumpers)
    ensures DumpF(DefaultDumpers(), DefaultConfig(external), VTuple([VInt(1), VInt(2), VInt(3)]), []).1
            == Ok(VList([VInt(1), VInt(2), VInt(3)]))
  {
    var v := VTuple([VInt(1), VInt(2), VInt(3)]);
    assert forall k :: 0 <= k < |v.items| ==> IsBuiltinScalar(v.items[k]);
    ScalarSequenceDumpsAsList(DefaultDumpers(), DefaultConfig(external), v, []);
  }

  /** An address or UUID of a class missing from the exact table dumps as
      its text. */
  lemma DefaultScalarDumpsText(external: ExternalDumpers, v: Value)
    requires v.VScalar? && (v.cls.kind == KIpAddress || v.cls.kind == KUuid) && v.cls !in DefaultDumpers()
    ensures DumpF(DefaultDumpers(), DefaultConfig(external), v, []).1 == Ok(VStr(v.text))
  {
    ScalarKindsRouted(v.cls);
    SimpleScalarDumpsText(DefaultDumpers(), DefaultDumpers(), DefaultConfig(external), v, []);
  }

  /** `Dumper().dump(IPv4Address("127.0.0.1")) == "127.0.0.1"`. */
  lemma DumperAddressExample(external: ExternalDumpers)
    ensures DumpF(DefaultDumpers(), DefaultConfig(external), VScalar(IPv4AddressClass, "127.0.0.1"), []).1
            == Ok(VStr("127.0.0.1"))
  {
    assert IPv4AddressClass !in DefaultDumpers();
    DefaultScalarDumpsText(external, VScalar(IPv4AddressClass, "127.0.0.1"));
  }

  /** A member of an enum missing from the exact table dumps as its value. */
  lemma DefaultEnumDumpsValue(external: ExternalDumpers, v: Value)
    requires v.VEnum? && v.cls.kind == KEnum && v.cls !in DefaultDumpers()
    ensures DumpF(DefaultDumpers(), DefaultConfig(external), v, []).1.Ok? ==>
      DumpF(DefaultDumpers(), DefaultConfig(external), v, []).1 == DumpF(DefaultDumpers(), DefaultConfig(external), v.value, []).1
    ensures DumpF(DefaultDumpers(), DefaultConfig(external), v.value, []).1.Ok? ==>
      DumpF(DefaultDumpers(), DefaultConfig(external), v, []).1.Ok?
  {
    ScalarKindsRouted(v.cls);
    EnumDumpsValue(DefaultDumpers(), DefaultDumpers(), DefaultConfig(external), v, []);
  }

  /** `Dumper().dump(SampleEnum.FOO) == [1, 2]` for `FOO = (1, 2)`. */
  lemma DumperEnumExample(external: ExternalDumpers)
    ensures DumpF(DefaultDumpers(), DefaultConfig(external), VEnum(SampleEnumClass, "FOO", VTuple([VInt(1), VInt(2)])), []).1
            == Ok(VList([VInt(1), VInt(2)]))
  {
    var inner := VTuple([VInt(1), VInt(2)]);
    assert SampleEnumClass !in DefaultDumpers();
    assert forall k :: 0 <= k < |inner.items| ==> IsBuiltinScalar(inner.items[k]);
    ScalarSequenceDumpsAsList(DefaultDumpers(), DefaultConfig(external), inner, []);
    DefaultEnumDumpsValue(external, VEnum(SampleEnumClass, "FOO", inner));
  }

  /** `Dumper().dump(SampleStrEnum.BAR) == "bar"`. */
  lemma DumperStrEnumExample(external: ExternalDumpers)
    ensures DumpF(DefaultDumpers(), DefaultConfig(external), VEnum(SampleStrEnumClass, "BAR", VStr("bar")), []).1
            == Ok(VStr("bar"))
  {
    assert SampleStrEnumClass !in DefaultDumpers();
    ScalarsDumpAsThemselves(DefaultDumpers(), DefaultConfig(external), VStr("bar"), []);
    DefaultEnumDumpsValue(external, VEnum(SampleStrEnumClass, "BAR", VStr("bar")));
  }

  // ---------------------------------------------------------------------------
  // `_dump_key` and its `TressedValueError`

  /** `{1: "a"}`: the key dumps to the `int` 1, which is not a string. */
  const IntKeyedDict := VDict([Entry(VInt(1), VStr("a"))])

  /** The first entry of `{1: "a"}` fails at its key with the exception the
      key check raises. */
  lemma IntKeyFails(cfg: DumpConfig)
    requires cfg.mappers == DefaultDumpMappers()
    ensures InsertFrom(EntryDumps(DefaultDumpers(), cfg, IntKeyedDict.entries, []), 0, [])
            == Err(KeyFailure(cfg.keyCheck, VInt(1), [VInt(1)]))
  {
    ScalarsDumpAsThemselves(DefaultDumpers(), cfg, VInt(1), [VInt(1)]);
    assert [] + [VInt(1)] == [VInt(1)];
    assert DumpKeyF(DefaultDumpers(), cfg, VInt(1), []).1 == Err(KeyFailure(cfg.keyCheck, VInt(1), [VInt(1)]));
  }

  /** A dict dumped with the default exact table from the root: the stored
      entry dumps, or the first failure wrapped at the dict. */
  lemma DefaultDictDump(cfg: DumpConfig, v: Value)
    requires v.VDict?
    ensures var c := InsertFrom(EntryDumps(DefaultDumpers(), cfg, v.entries, []), 0, []);
      DumpF(DefaultDumpers(), cfg, v, []).1 == if c.Ok? then Ok(VDict(c.value)) else Err(Wrap(c.error, v, DictClass, []))
  {
    assert Resolve(DefaultDumpers(), cfg.mappers, DictClass) == Some(DumpSimpleMapping);
    MappingDumpStores(DefaultDumpers(), DefaultDumpers(), cfg, v, []);
  }

  /** As written, `TressedValueError` is imported only for type checkers, so
      the `raise` in `_dump_key` fails with a `NameError`; `_dump` turns that
      into a value error for the whole dict at the root, and the offending key
      and its path are lost. */
  lemma DumpKeyNameErrorAsWritten(external: ExternalDumpers)
    ensures DumpF(DefaultDumpers(), DumpConfig(DefaultDumpMappers(), external, KeyNameError), IntKeyedDict, []).1
            == Err(Invalid(IntKeyedDict, DictClass, []))
  {
    var cfg := DumpConfig(DefaultDumpMappers(), external, KeyNameError);
    IntKeyFails(cfg);
    assert KeyFailure(cfg.keyCheck, VInt(1), [VInt(1)]) == Foreign("NameError");
    DefaultDictDump(cfg, IntKeyedDict);
  }

  /** With the exception class in scope, the value error names the key, its
      type and the path `(1,)`, and passes through `_dump` unchanged. */
  lemma DumpKeyReportsKey(external: ExternalDumpers)
    ensures DumpF(DefaultDumpers(), DefaultConfig(external), IntKeyedDict, []).1
            == Err(Invalid(VInt(1), IntClass, [VInt(1)]))
  {
    var cfg := DefaultConfig(external);
    IntKeyFails(cfg);
    assert KeyFailure(cfg.keyCheck, VInt(1), [VInt(1)]) == Invalid(VInt(1), IntClass, [VInt(1)]);
    DefaultDictDump(cfg, IntKeyedDict);
  }

  // ---------------------------------------------------------------------------
  // The alias function of `__init__`

  /** The function consulted after the field metadata: `alias_fn`, or the
      identity when it is `None`. */
  function Consulted(aliasFn: Option<AliasFn>): AliasFn {
    if aliasFn.Some? then aliasFn.value else IdentityFn
  }

  /** As written, `__init__` imports `identity_alias_fn` from `tressed.alias`,
      which the package does not provide: every construction fails with an
      `ImportError`, whatever the arguments. */
  lemma DumperImportFailsAsWritten(aliasField: Option<string>, aliasFn: Option<AliasFn>)
    ensures InitAliasFn(DumperImportsAsWritten, aliasField, aliasFn) == Err("ImportError")
  {
    assert "identity_alias_fn" in DumperImportsAsWritten;
    assert "identity_alias_fn" !in AliasPackageNames;
  }

  /** Importing the package's identity `to_identity` instead, the import
      succeeds, and without an alias field the resolver gets `alias_fn` (the
      identity when `None`) unchanged. */
  lemma DumperImportsResolve(aliasField: Option<string>, aliasFn: Option<AliasFn>)
    ensures ImportAliasNames(DumperImports).Ok?
    ensures aliasField.None? || aliasField == Some("") ==>
      InitAliasFn(DumperImports, aliasField, aliasFn) == Normalize(Consulted(aliasFn), Package)
  {
    assert forall n :: n in DumperImports ==> n in AliasPackageNames;
  }

  /** The composed function of `__init__`, called with a name, a type form
      and a path, asks the field metadata first, then `alias_fn`, and falls
      back to the name itself. */
  lemma ComposedDumperAlias(field: string, aliasFn: Option<AliasFn>, name: string, tf: TypeForm, path: Path)
    requires field != ""
    requires Normalize(Consulted(aliasFn), Package).Ok?
    ensures DumperAliasFn(Some(field), aliasFn).Ok? && DumperAliasFn(Some(field), aliasFn).value.Some?
    ensures var f := DumperAliasFn(Some(field), aliasFn).value.value;
      var args := CallArgs(name, tf, path);
      var m := Apply(Normalize(MakeMaybeDataclassAliasFn(field), Package).value, args);
      var a := Apply(Normalize(Consulted(aliasFn), Package).value, args);
      && f.code == OwnCode(3, false)
      && f.body(args) == if !m.NotFound? then m else if !a.NotFound? then a else Found(name)
  {
    var args := CallArgs(name, tf, path);
    var fns := [MakeMaybeDataclassAliasFn(field), Consulted(aliasFn)];
    MaybeDataclassAliasCases(field, Package, name, tf, path);
    IdentityResolvesToName(Package, name, tf, path);
    var normalized := NormalizeAll(fns, Package).value;
    var m := Apply(normalized[0], args);
    if m.NotFound? {
      if Apply(normalized[1], args).NotFound? {
        ComposedFallsBack(normalized, Normalize(IdentityFn, Package).value, args);
      } else {
        ComposedPicksFirst(normalized, Normalize(IdentityFn, Package).value, args, 1);
      }
    } else {
      ComposedPicksFirst(normalized, Normalize(IdentityFn, Package).value, args, 0);
    }
  }

  /** With an alias field, the resolver's function takes all three arguments
      and gives the field-metadata alias first, then `alias_fn`'s answer, then
      the name. */
  lemma DumperAliasOrder(field: string, aliasFn: Option<AliasFn>, name: string, tf: TypeForm, path: Path)
    requires field != ""
    requires Normalize(Consulted(aliasFn), Package).Ok?
    ensures InitAliasFn(DumperImports, Some(field), aliasFn).Ok?
    ensures var args := CallArgs(name, tf, path);
      var m := Apply(Normalize(MakeMaybeDataclassAliasFn(field), Package).value, args);
      var a := Apply(Normalize(Consulted(aliasFn), Package).value, args);
      Apply(InitAliasFn(DumperImports, Some(field), aliasFn).value, args)
        == if !m.NotFound? then m else if !a.NotFound? then a else Found(name)
  {
    DumperImportsResolve(Some(field), aliasFn);
    ComposedDumperAlias(field, aliasFn, name, tf, path);
    var args := CallArgs(name, tf, path);
    assert args[..3] == args;
  }

  /** `Dumper()`: the default alias field `"alias"` and no `alias_fn` build,
      and a class without dataclass fields keeps its names. */
  lemma DefaultDumperAlias(name: string, tf: TypeForm, path: Path)
    requires !tf.kind.KDataclass? || tf.kind.fields == []
    ensures InitAliasFn(DumperImports, Some("alias"), None).Ok?
    ensures Apply(InitAliasFn(DumperImports, Some("alias"), None).value, CallArgs(name, tf, path)) == Found(name)
  {
    IdentityResolvesToName(Package, name, tf, path);
    MaybeDataclassAliasCases("alias", Package, name, tf, path);
    DumperAliasOrder("alias", None, name, tf, path);
  }
}
