/** The tressed dumper: `Dumper._dump` (dispatch on the exact runtime class of
    the value through an exact table, an ordered predicate table consulted on a
    miss and memoised, and the `except` clauses around the dumper), the
    dumpers of `dumpers.py`, and the constructor that merges the tables and
    composes the alias function.

    As for the loader, the semantics is first given as functions that pass the
    exact table from call to call in evaluation order; the class `Dumper`
    updates that table in place and is proved to compute exactly what those
    functions describe. */
module Dumping {
  import opened Wrappers
  import opened Forms
  import opened Values
  import opened TypePaths
  import opened Exceptions
  import opened Dispatch
  import opened Predicates
  import opened AliasFunctions
  import opened AliasResolution

  /** The dumpers of `dumpers.py`, and those the tables name without
      `dumpers.py` defining them (`dump_complex`, `dump_datetime`,
      `dump_dataclass`, `dump_namedtuple`, `dump_fspath`), by name. */
  datatype DumperFn =
    | DumpIdentity
    | DumpSimpleScalar
    | DumpSimpleSequence
    | DumpSimpleMapping
    | DumpEnum
    | DumpExternal(name: string)

  /** What an external dumper returns for a value at a path. */
  type ExternalDumpers = (string, Value, Path) -> Result<Value, EngineError>

  /** What `_dump_key` raises for a key that does not dump to a `str`: the
      `TressedValueError` it names is bound only under `TYPE_CHECKING`, so the
      name lookup itself fails with a `NameError`; the `TressedValueError` for
      the key at its own path is what the code evidently means. */
  datatype KeyCheck = KeyNameError | KeyValueError

  /** What is fixed at construction: `_type_mappers`, the external dumpers
      and the key check. */
  datatype DumpConfig = DumpConfig(mappers: seq<Mapper<DumperFn>>, external: ExternalDumpers, keyCheck: KeyCheck)

  /** `_type_dumpers`. */
  type Table = map<TypeForm, DumperFn>

  // ---------------------------------------------------------------------------
  // Weights: the dumpers only recurse into the parts of a value

  function Weight(v: Value): nat {
    match v
    case VList(items) => 1 + WeightAll(items)
    case VTuple(items) => 1 + WeightAll(items)
    case VSet(items) => 1 + WeightAll(items)
    case VFrozenSet(items) => 1 + WeightAll(items)
    case VObject(_, items) => 1 + WeightAll(items)
    case VDict(entries) => 1 + WeightEntries(entries)
    case VEnum(_, _, value) => 1 + Weight(value)
    case _ => 1
  }

  function WeightAll(items: seq<Value>): nat {
    if items == [] then 0 else Weight(items[0]) + WeightAll(items[1..])
  }

  function WeightEntries(entries: seq<Entry>): nat {
    if entries == [] then 0 else WeightEntry(entries[0]) + WeightEntries(entries[1..])
  }

  function WeightEntry(e: Entry): nat {
    Weight(e.key) + Weight(e.value)
  }

  predicate ItemsBelow(items: seq<Value>, bound: nat) {
    forall i :: 0 <= i < |items| ==> Weight(items[i]) < bound
  }

  predicate EntriesBelow(entries: seq<Entry>, bound: nat) {
    forall i :: 0 <= i < |entries| ==> Weight(entries[i].key) < bound && Weight(entries[i].value) < bound
  }

  lemma {:induction false} WeightAllBound(items: seq<Value>, i: nat)
    requires i < |items|
    ensures Weight(items[i]) <= WeightAll(items)
  {
    if i > 0 {
      WeightAllBound(items[1..], i - 1);
    }
  }

  lemma {:induction false} WeightEntriesBound(entries: seq<Entry>, i: nat)
    requires i < |entries|
    ensures Weight(entries[i].key) + Weight(entries[i].value) <= WeightEntries(entries)
  {
    if i > 0 {
      WeightEntriesBound(entries[1..], i - 1);
    }
  }

  /** The items `for item in v` visits weigh less than `v`, a string aside. */
  lemma IterateLighter(v: Value)
    requires Iterate(v).Some? && !v.VStr?
    ensures ItemsBelow(Iterate(v).value, Weight(v))
  {
    var items := Iterate(v).value;
    forall i | 0 <= i < |items|
      ensures Weight(items[i]) < Weight(v)
    {
      if v.VDict? {
        WeightEntriesBound(v.entries, i);
      } else {
        WeightAllBound(items, i);
      }
    }
  }

  /** The keys and values of a dict weigh less than the dict. */
  lemma EntriesLighter(entries: seq<Entry>)
    ensures EntriesBelow(entries, Weight(VDict(entries)))
  {
    forall i | 0 <= i < |entries|
      ensures Weight(entries[i].key) < Weight(VDict(entries)) && Weight(entries[i].value) < Weight(VDict(entries))
    {
      WeightEntriesBound(entries, i);
    }
  }

  /** Every key of a dumped dict is a `str`. */
  predicate StrKeys(entries: seq<Entry>) {
    forall k :: k in Keys(entries) ==> k.VStr?
  }

  // ---------------------------------------------------------------------------
  // The engine

  /** `Dumper._dump(value, type_path)`: dispatch on `type(value)`. */
  function DumpF(exact: Table, cfg: DumpConfig, v: Value, path: Path): (out: (Table, Result<Value, EngineError>))
    ensures SoundCache(out.0, exact, cfg.mappers)
    ensures out.1.Err? ==> out.1.error.Invalid? || out.1.error.Unhandled?
    ensures (out.1.Err? && out.1.error.Unhandled?) <==> Resolve(exact, cfg.mappers, TypeOf(v)).None?
    ensures Resolve(exact, cfg.mappers, TypeOf(v)).None? ==> out == (exact, Err(Unhandled(v, TypeOf(v), path)))
    decreases Weight(v), 2, 0
  {
    var tf := TypeOf(v);
    match Resolve(exact, cfg.mappers, tf)
    case None => (exact, Err(Unhandled(v, tf, path)))
    case Some(fn) =>
      var memo := Memoised(exact, cfg.mappers, tf);
      MemoisedSound(exact, exact, cfg.mappers, tf);
      var o := DumpWith(memo, cfg, fn, v, path);
      SoundCacheChain(o.0, memo, exact, cfg.mappers);
      (o.0, if o.1.Err? then Err(Wrap(o.1.error, v, tf, path)) else o.1)
  }

  /** Calling the dumper a table gives for the value. */
  function DumpWith(exact: Table, cfg: DumpConfig, fn: DumperFn, v: Value, path: Path)
    : (out: (Table, Result<Value, EngineError>))
    ensures SoundCache(out.0, exact, cfg.mappers)
    decreases Weight(v), 1, 0
  {
    match fn
    case DumpIdentity => (exact, Ok(v))
    case DumpSimpleScalar => (exact, Ok(VStr(StrOf(v))))
    case DumpSimpleSequence =>
      if Iterate(v).None? then (exact, Err(Foreign("TypeError")))
      else if v.VStr? then
        // Each character is a `str` dumped the same way: only "" ends.
        (exact, if v.s == [] then Ok(VList([])) else Err(Foreign("RecursionError")))
      else
        IterateLighter(v);
        var o := DumpItemsF(exact, cfg, Iterate(v).value, path, Weight(v), 0, []);
        (o.0, if o.1.Err? then Err(o.1.error) else Ok(VList(o.1.value)))
    case DumpSimpleMapping =>
      if !v.VDict? then (exact, Err(Foreign("AttributeError")))
      else
        EntriesLighter(v.entries);
        var o := DumpEntriesF(exact, cfg, v.entries, path, Weight(v), 0, []);
        (o.0, if o.1.Err? then Err(o.1.error) else Ok(VDict(o.1.value)))
    case DumpEnum =>
      if !v.VEnum? then (exact, Err(Foreign("AttributeError")))
      else DumpF(exact, cfg, v.value, path)
    case DumpExternal(name) => (exact, cfg.external(name, v, path))
  }

  /** The comprehension of `dump_simple_sequence` from item `i` on, after the
      items `dumped`: item `i` is dumped at `path + (i,)`; the first failure
      ends it. */
  function DumpItemsF(exact: Table, cfg: DumpConfig, items: seq<Value>, path: Path, bound: nat, i: nat,
                      dumped: seq<Value>)
    : (out: (Table, Result<seq<Value>, EngineError>))
    requires i <= |items| && ItemsBelow(items, bound)
    ensures SoundCache(out.0, exact, cfg.mappers)
    ensures out.1.Ok? ==> |out.1.value| == |dumped| + |items| - i && out.1.value[..|dumped|] == dumped
    decreases bound, 0, |items| - i
  {
    if i == |items| then (exact, Ok(dumped))
    else
      var o := DumpF(exact, cfg, items[i], path + [VInt(i)]);
      if o.1.Err? then (o.0, Err(o.1.error))
      else
        var rest := DumpItemsF(o.0, cfg, items, path, bound, i + 1, dumped + [o.1.value]);
        SoundCacheChain(rest.0, o.0, exact, cfg.mappers);
        assert rest.1.Ok? ==> rest.1.value[..|dumped|] == (dumped + [o.1.value])[..|dumped|];
        rest
  }

  /** `_dump_key(key, type_path, dumper)`: the key is dumped at
      `path + (key,)` and must give exactly a `str`. */
  function DumpKeyF(exact: Table, cfg: DumpConfig, key: Value, path: Path)
    : (out: (Table, Result<Value, EngineError>))
    ensures SoundCache(out.0, exact, cfg.mappers)
    ensures out.1.Ok? ==> out.1.value.VStr?
    decreases Weight(key), 3, 0
  {
    var keyPath := path + [key];
    var o := DumpF(exact, cfg, key, keyPath);
    if o.1.Err? || o.1.value.VStr? then o
    else (o.0, Err(KeyFailure(cfg.keyCheck, key, keyPath)))
  }

  /** The exception of the `raise` in `_dump_key`. */
  function KeyFailure(check: KeyCheck, key: Value, keyPath: Path): EngineError {
    match check
    case KeyNameError => Foreign("NameError")
    case KeyValueError => Invalid(key, TypeOf(key), keyPath)
  }

  /** The comprehension of `dump_simple_mapping` from entry `i` on, after the
      entries `dumped`: the key through `_dump_key`, then the value at
      `path + (key,)`; an equal dumped key replaces the earlier value. */
  function DumpEntriesF(exact: Table, cfg: DumpConfig, entries: seq<Entry>, path: Path, bound: nat, i: nat,
                        dumped: seq<Entry>)
    : (out: (Table, Result<seq<Entry>, EngineError>))
    requires i <= |entries| && EntriesBelow(entries, bound)
    ensures SoundCache(out.0, exact, cfg.mappers)
    ensures out.1.Ok? && StrKeys(dumped) ==> StrKeys(out.1.value)
    ensures out.1.Ok? ==> |out.1.value| <= |dumped| + |entries| - i
    decreases bound, 0, |entries| - i
  {
    if i == |entries| then (exact, Ok(dumped))
    else
      var k := DumpKeyF(exact, cfg, entries[i].key, path);
      if k.1.Err? then (k.0, Err(k.1.error))
      else
        var o := DumpF(k.0, cfg, entries[i].value, path + [entries[i].key]);
        SoundCacheChain(o.0, k.0, exact, cfg.mappers);
        if o.1.Err? then (o.0, Err(o.1.error))
        else
          var rest := DumpEntriesF(o.0, cfg, entries, path, bound, i + 1, Insert(dumped, k.1.value, o.1.value));
          SoundCacheChain(rest.0, o.0, exact, cfg.mappers);
          rest
  }

  // ---------------------------------------------------------------------------
  // The exact table never changes a result

  /** Two tables sound for the same initial table dump every value alike: the
      entries memoisation adds are the first matches the predicate table
      would give anyway. */
  lemma {:induction false} SameDump(a: Table, b: Table, initial: Table, cfg: DumpConfig, v: Value, path: Path)
    requires SoundCache(a, initial, cfg.mappers) && SoundCache(b, initial, cfg.mappers)
    ensures DumpF(a, cfg, v, path).1 == DumpF(b, cfg, v, path).1
    decreases Weight(v), 2, 0
  {
    var tf := TypeOf(v);
    SoundCacheResolves(a, initial, cfg.mappers, tf);
    SoundCacheResolves(b, initial, cfg.mappers, tf);
    match Resolve(a, cfg.mappers, tf)
    case None =>
    case Some(fn) =>
      assert Resolve(b, cfg.mappers, tf) == Some(fn);
      MemoisedSound(a, initial, cfg.mappers, tf);
      MemoisedSound(b, initial, cfg.mappers, tf);
      var oa := DumpWith(Memoised(a, cfg.mappers, tf), cfg, fn, v, path).1;
      var ob := DumpWith(Memoised(b, cfg.mappers, tf), cfg, fn, v, path).1;
      assert DumpF(a, cfg, v, path).1 == if oa.Err? then Err(Wrap(oa.error, v, tf, path)) else oa;
      assert DumpF(b, cfg, v, path).1 == if ob.Err? then Err(Wrap(ob.error, v, tf, path)) else ob;
      SameDumpWith(Memoised(a, cfg.mappers, tf), Memoised(b, cfg.mappers, tf), initial, cfg, fn, v, path);
  }

  lemma {:induction false} SameDumpWith(a: Table, b: Table, initial: Table, cfg: DumpConfig, fn: DumperFn,
                                        v: Value, path: Path)
    requires SoundCache(a, initial, cfg.mappers) && SoundCache(b, initial, cfg.mappers)
    ensures DumpWith(a, cfg, fn, v, path).1 == DumpWith(b, cfg, fn, v, path).1
    decreases Weight(v), 1, 0
  {
    match fn
    case DumpSimpleSequence =>
      if Iterate(v).Some? && !v.VStr? {
        IterateLighter(v);
        SameItems(a, b, initial, cfg, Iterate(v).value, path, Weight(v), 0, []);
      }
    case DumpSimpleMapping =>
      if v.VDict? {
        EntriesLighter(v.entries);
        SameEntries(a, b, initial, cfg, v.entries, path, Weight(v), 0, []);
      }
    case DumpEnum =>
      if v.VEnum? {
        SameDump(a, b, initial, cfg, v.value, path);
      }
    case _ =>
  }

  lemma {:induction false} SameItems(a: Table, b: Table, initial: Table, cfg: DumpConfig, items: seq<Value>,
                                     path: Path, bound: nat, i: nat, dumped: seq<Value>)
    requires SoundCache(a, initial, cfg.mappers) && SoundCache(b, initial, cfg.mappers)
    requires i <= |items| && ItemsBelow(items, bound)
    ensures DumpItemsF(a, cfg, items, path, bound, i, dumped).1 == DumpItemsF(b, cfg, items, path, bound, i, dumped).1
    decreases bound, 0, |items| - i
  {
    if i < |items| {
      var p := path + [VInt(i)];
      SameDump(a, b, initial, cfg, items[i], p);
      var oa := DumpF(a, cfg, items[i], p);
      var ob := DumpF(b, cfg, items[i], p);
      if oa.1.Ok? {
        SoundCacheChain(oa.0, a, initial, cfg.mappers);
        SoundCacheChain(ob.0, b, initial, cfg.mappers);
        SameItems(oa.0, ob.0, initial, cfg, items, path, bound, i + 1, dumped + [oa.1.value]);
      }
    }
  }

  lemma {:induction false} SameKey(a: Table, b: Table, initial: Table, cfg: DumpConfig, key: Value, path: Path)
    requires SoundCache(a, initial, cfg.mappers) && SoundCache(b, initial, cfg.mappers)
    ensures DumpKeyF(a, cfg, key, path).1 == DumpKeyF(b, cfg, key, path).1
    decreases Weight(key), 3, 0
  {
    SameDump(a, b, initial, cfg, key, path + [key]);
  }

  lemma {:induction false} SameEntries(a: Table, b: Table, initial: Table, cfg: DumpConfig, entries: seq<Entry>,
                                       path: Path, bound: nat, i: nat, dumped: seq<Entry>)
    requires SoundCache(a, initial, cfg.mappers) && SoundCache(b, initial, cfg.mappers)
    requires i <= |entries| && EntriesBelow(entries, bound)
    ensures DumpEntriesF(a, cfg, entries, path, bound, i, dumped).1 ==
            DumpEntriesF(b, cfg, entries, path, bound, i, dumped).1
    decreases bound, 0, |entries| - i
  {
    if i < |entries| {
      SameKey(a, b, initial, cfg, entries[i].key, path);
      var ka := DumpKeyF(a, cfg, entries[i].key, path);
      var kb := DumpKeyF(b, cfg, entries[i].key, path);
      if ka.1.Ok? {
        SoundCacheChain(ka.0, a, initial, cfg.mappers);
        SoundCacheChain(kb.0, b, initial, cfg.mappers);
        var p := path + [entries[i].key];
        SameDump(ka.0, kb.0, initial, cfg, entries[i].value, p);
        var oa := DumpF(ka.0, cfg, entries[i].value, p);
        var ob := DumpF(kb.0, cfg, entries[i].value, p);
        if oa.1.Ok? {
          SoundCacheChain(oa.0, ka.0, initial, cfg.mappers);
          SoundCacheChain(ob.0, kb.0, initial, cfg.mappers);
          SameEntries(oa.0, ob.0, initial, cfg, entries, path, bound, i + 1, Insert(dumped, ka.1.value, oa.1.value));
        }
      }
    }
  }

  /** Memoisation is invisible: dumping through any table the dumper reaches
      from its initial table gives what dumping through the initial table
      gives. */
  lemma DumpCacheTransparent(exact: Table, initial: Table, cfg: DumpConfig, v: Value, path: Path)
    requires SoundCache(exact, initial, cfg.mappers)
    ensures DumpF(exact, cfg, v, path).1 == DumpF(initial, cfg, v, path).1
  {
    SameDump(exact, initial, initial, cfg, v, path);
  }

  // ---------------------------------------------------------------------------
  // Default tables and construction

  /** `_default_type_dumpers()`. */
  function DefaultDumpers(): Table {
    map[StrClass := DumpIdentity, IntClass := DumpIdentity, FloatClass := DumpIdentity,
        BoolClass := DumpIdentity, NoneTypeClass := DumpIdentity,
        ListClass := DumpSimpleSequence, TupleClass := DumpSimpleSequence,
        SetClass := DumpSimpleSequence, FrozenSetClass := DumpSimpleSequence,
        DictClass := DumpSimpleMapping, ComplexClass := DumpExternal("dump_complex")]
  }

  /** `_default_type_mappers(specialize)`; `specialize` is not used. */
  function DefaultDumpMappers(): seq<Mapper<DumperFn>> {
    [Mapper(IpAddressPred, DumpSimpleScalar), Mapper(UuidPred, DumpSimpleScalar), Mapper(EnumPred, DumpEnum),
     Mapper(DatetimePred, DumpExternal("dump_datetime")), Mapper(DataclassPred, DumpExternal("dump_dataclass")),
     Mapper(NamedTuplePred, DumpExternal("dump_namedtuple")), Mapper(FspathPred, DumpExternal("dump_fspath"))]
  }

  /** The names `tressed.alias` provides: its `__all__`, served by its
      module `__getattr__`. */
  const AliasPackageNames: seq<string> :=
    ["Alias", "AliasFn", "AliasResolver", "to_identity", "to_camel", "to_pascal",
     "compose_alias_fn", "make_maybe_dataclass_alias_fn"]

  /** `from tressed.alias import names`: a name the package does not provide
      makes its `__getattr__` raise, which the import reports as an
      `ImportError`. */
  function ImportAliasNames(names: seq<string>): (r: Result<(), string>)
    ensures r.Ok? <==> forall n :: n in names ==> n in AliasPackageNames
  {
    if forall n :: n in names ==> n in AliasPackageNames then Ok(()) else Err("ImportError")
  }

  /** The names `__init__` imports from `tressed.alias`, as written: the
      identity is imported under the single-module name `identity_alias_fn`. */
  const DumperImportsAsWritten: seq<string> :=
    ["AliasResolver", "compose_alias_fn", "identity_alias_fn", "make_maybe_dataclass_alias_fn"]

  /** The same imports naming the package's identity, `to_identity`. */
  const DumperImports: seq<string> :=
    ["AliasResolver", "compose_alias_fn", "to_identity", "make_maybe_dataclass_alias_fn"]

  /** The alias function `__init__` gives the resolver: with a non-empty
      `alias_field`, the field-metadata function composed before `alias_fn`
      (the identity when it is `None`). */
  function DumperAliasFn(aliasField: Option<string>, aliasFn: Option<AliasFn>): Result<Option<AliasFn>, string> {
    if aliasField.Some? && aliasField.value != "" then
      var composed :- ComposeAliasFn([MakeMaybeDataclassAliasFn(aliasField.value),
                                      if aliasFn.Some? then aliasFn.value else IdentityFn],
                                     IdentityFn, Package);
      Ok(Some(composed))
    else
      Ok(aliasFn)
  }

  /** The part of `__init__` that can fail, with the names it imports: the
      import, the composition, then normalisation in `AliasResolver`. */
  function InitAliasFn(imports: seq<string>, aliasField: Option<string>, aliasFn: Option<AliasFn>)
    : Result<PathAliasFn, string>
  {
    var imported :- ImportAliasNames(imports);
    var f :- DumperAliasFn(aliasField, aliasFn);
    Normalize(if f.Some? then f.value else IdentityFn, Package)
  }

  // ---------------------------------------------------------------------------
  // The object

  /** `Dumper`: the exact table, the predicate table, `hide_defaults` and the
      alias resolver. */
  class Dumper {
    /** `_type_dumpers`. */
    var typeDumpers: Table
    /** `_type_mappers`, in insertion order. */
    const typeMappers: seq<Mapper<DumperFn>>
    const external: ExternalDumpers
    const hideDefaults: bool
    /** What the `raise` of `_dump_key` raises. */
    const keyCheck: KeyCheck
    /** `_alias_resolver`. */
    const aliasResolver: AliasResolver
    /** `_type_dumpers` as constructed. */
    ghost const initialDumpers: Table

    /** The exact table only ever gains first matches. */
    ghost predicate Valid()
      reads this
    {
      SoundCache(typeDumpers, initialDumpers, typeMappers)
    }

    function Cfg(): DumpConfig {
      DumpConfig(typeMappers, external, keyCheck)
    }

    constructor Init(typeDumpers: Table, typeMappers: seq<Mapper<DumperFn>>, external: ExternalDumpers,
                     hideDefaults: bool, keyCheck: KeyCheck, aliasResolver: AliasResolver)
      ensures this.typeDumpers == typeDumpers && this.typeMappers == typeMappers && this.external == external
      ensures this.hideDefaults == hideDefaults && this.keyCheck == keyCheck && this.aliasResolver == aliasResolver
      ensures initialDumpers == typeDumpers && Valid()
    {
      this.typeDumpers := typeDumpers;
      this.typeMappers := typeMappers;
      this.external := external;
      this.hideDefaults := hideDefaults;
      this.keyCheck := keyCheck;
      this.aliasResolver := aliasResolver;
      initialDumpers := typeDumpers;
    }

    /** `Dumper(hide_defaults=..., default_type_dumpers=..., ...)`: the default
        tables (or copies of the given ones) updated with the extra ones, and a
        caching resolver over the composed alias function. A key that does not
        dump to a `str` meets the `raise` of `_dump_key` as written, a
        `NameError`. */
    static method Create(hideDefaults: bool, defaultTypeDumpers: Option<Table>,
                         defaultTypeMappers: Option<seq<Mapper<DumperFn>>>,
                         extraTypeDumpers: Table, extraTypeMappers: seq<Mapper<DumperFn>>,
                         aliasField: Option<string>, aliasFn: Option<AliasFn>, external: ExternalDumpers)
      returns (r: Result<Dumper, string>)
      ensures r.Ok? <==> InitAliasFn(DumperImports, aliasField, aliasFn).Ok?
      ensures r.Err? ==> r.error == InitAliasFn(DumperImports, aliasField, aliasFn).error
      ensures r.Ok? ==>
        && fresh(r.value) && fresh(r.value.aliasResolver)
        && r.value.typeDumpers ==
             (if defaultTypeDumpers.Some? then defaultTypeDumpers.value else DefaultDumpers()) + extraTypeDumpers
        && r.value.typeMappers ==
             MergeMappers(if defaultTypeMappers.Some? then defaultTypeMappers.value else DefaultDumpMappers(),
                          extraTypeMappers)
        && r.value.external == external && r.value.hideDefaults == hideDefaults && r.value.keyCheck == KeyNameError
        && r.value.aliasResolver.Valid() && r.value.aliasResolver.cacheResolvedAliases
        && r.value.aliasResolver.aliasFn == InitAliasFn(DumperImports, aliasField, aliasFn).value
        && r.value.aliasResolver.cache == map[]
        && r.value.initialDumpers == r.value.typeDumpers && r.value.Valid()
    {
      var typeDumpers := if defaultTypeDumpers.Some? then defaultTypeDumpers.value else DefaultDumpers();
      if |extraTypeDumpers| > 0 {
        typeDumpers := typeDumpers + extraTypeDumpers;
      }
      var typeMappers := if defaultTypeMappers.Some? then defaultTypeMappers.value else DefaultDumpMappers();
      if |extraTypeMappers| > 0 {
        typeMappers := MergeMappers(typeMappers, extraTypeMappers);
      }
      var imported := ImportAliasNames(DumperImports);
      if imported.Err? {
        return Err(imported.error);
      }
      var composed := DumperAliasFn(aliasField, aliasFn);
      if composed.Err? {
        return Err(composed.error);
      }
      var resolver := AliasResolver.Create(composed.value, true, Package);
      if resolver.Err? {
        return Err(resolver.error);
      }
      var d := new Dumper.Init(typeDumpers, typeMappers, external, hideDefaults, KeyNameError, resolver.value);
      return Ok(d);
    }

    /** `_resolve_alias(type_, type_path, name)`. */
    method ResolveAlias(tf: TypeForm, path: Path, name: string) returns (o: Outcome)
      requires aliasResolver.Valid()
      modifies aliasResolver
      ensures aliasResolver.Valid()
      ensures o == aliasResolver.Answer(Key(name, tf, path))
    {
      o := aliasResolver.Resolve(name, tf, path);
    }

    /** `dump(value)`: `_dump` at the root path. Whatever was dumped before,
        the result is the one a freshly constructed dumper gives. */
    method Dump(v: Value) returns (r: Result<Value, EngineError>)
      requires Valid()
      modifies this
      ensures Valid()
      ensures (typeDumpers, r) == DumpF(old(typeDumpers), Cfg(), v, [])
      ensures r == DumpF(initialDumpers, Cfg(), v, []).1
    {
      ghost var t0 := typeDumpers;
      r := DumpAt(v, []);
      SoundCacheChain(typeDumpers, t0, initialDumpers, typeMappers);
      DumpCacheTransparent(t0, initialDumpers, Cfg(), v, []);
    }

    /** `_dump(value, type_path)`. */
    method DumpAt(v: Value, path: Path) returns (r: Result<Value, EngineError>)
      modifies this
      ensures (typeDumpers, r) == DumpF(old(typeDumpers), Cfg(), v, path)
      decreases Weight(v), 2, 0
    {
      var tf := TypeOf(v);
      var found := FindDumper(tf);
      if found.None? {
        return Err(Unhandled(v, tf, path));
      }
      r := Call(found.value, v, path);
      if r.Err? {
        r := Err(Wrap(r.error, v, tf, path));
      }
    }

    /** The lookup at the head of `_dump`: the exact entry, else the first
        match of the predicate table, which is then cached. */
    method FindDumper(tf: TypeForm) returns (found: Option<DumperFn>)
      modifies this
      ensures found == Resolve(old(typeDumpers), typeMappers, tf)
      ensures typeDumpers == Memoised(old(typeDumpers), typeMappers, tf)
    {
      if tf in typeDumpers {
        return Some(typeDumpers[tf]);
      }
      found := ScanMappers(typeMappers, tf);
      if found.Some? {
        // Cache lookup for next time.
        typeDumpers := typeDumpers[tf := found.value];
      }
    }

    /** `type_dumper(value, type_path, self)`. */
    method Call(fn: DumperFn, v: Value, path: Path) returns (r: Result<Value, EngineError>)
      modifies this
      ensures (typeDumpers, r) == DumpWith(old(typeDumpers), Cfg(), fn, v, path)
      decreases Weight(v), 1, 0
    {
      match fn {
        case DumpIdentity =>
          r := Ok(v);
        case DumpSimpleScalar =>
          r := Ok(VStr(StrOf(v)));
        case DumpSimpleSequence =>
          r := DumpSequence(v, path);
        case DumpSimpleMapping =>
          if !v.VDict? {
            return Err(Foreign("AttributeError"));
          }
          EntriesLighter(v.entries);
          var entries := DumpMapping(v.entries, path, Weight(v));
          r := if entries.Err? then Err(entries.error) else Ok(VDict(entries.value));
        case DumpEnum =>
          if !v.VEnum? {
            return Err(Foreign("AttributeError"));
          }
          r := DumpAt(v.value, path);
        case DumpExternal(name) =>
          r := external(name, v, path);
      }
    }

    /** `dump_simple_sequence(value, type_path, self)`. */
    method DumpSequence(v: Value, path: Path) returns (r: Result<Value, EngineError>)
      modifies this
      ensures (typeDumpers, r) == DumpWith(old(typeDumpers), Cfg(), DumpSimpleSequence, v, path)
      decreases Weight(v), 0, 1
    {
      var iterated := Iterate(v);
      if iterated.None? {
        return Err(Foreign("TypeError"));
      }
      if v.VStr? {
        return if v.s == [] then Ok(VList([])) else Err(Foreign("RecursionError"));
      }
      IterateLighter(v);
      var items := DumpItems(iterated.value, path, Weight(v));
      r := if items.Err? then Err(items.error) else Ok(VList(items.value));
    }

    /** The comprehension of `dump_simple_sequence`. */
    method DumpItems(items: seq<Value>, path: Path, ghost bound: nat) returns (r: Result<seq<Value>, EngineError>)
      requires ItemsBelow(items, bound)
      modifies this
      ensures (typeDumpers, r) == DumpItemsF(old(typeDumpers), Cfg(), items, path, bound, 0, [])
      decreases bound, 0, 0
    {
      ghost var t0 := typeDumpers;
      var dumped: seq<Value> := [];
      var i := 0;
      while i < |items|
        invariant 0 <= i <= |items|
        invariant DumpItemsF(typeDumpers, Cfg(), items, path, bound, i, dumped) ==
                  DumpItemsF(t0, Cfg(), items, path, bound, 0, [])
      {
        var item := DumpAt(items[i], path + [VInt(i)]);
        if item.Err? {
          return Err(item.error);
        }
        dumped := dumped + [item.value];
        i := i + 1;
      }
      r := Ok(dumped);
    }

    /** `_dump_key(key, type_path, self)`. */
    method DumpKey(key: Value, path: Path) returns (r: Result<Value, EngineError>)
      modifies this
      ensures (typeDumpers, r) == DumpKeyF(old(typeDumpers), Cfg(), key, path)
      decreases Weight(key), 3, 0
    {
      var keyPath := path + [key];
      r := DumpAt(key, keyPath);
      if r.Ok? && !r.value.VStr? {
        r := Err(KeyFailure(keyCheck, key, keyPath));
      }
    }

    /** The comprehension of `dump_simple_mapping`. */
    method DumpMapping(entries: seq<Entry>, path: Path, ghost bound: nat) returns (r: Result<seq<Entry>, EngineError>)
      requires EntriesBelow(entries, bound)
      modifies this
      ensures (typeDumpers, r) == DumpEntriesF(old(typeDumpers), Cfg(), entries, path, bound, 0, [])
      decreases bound, 0, 0
    {
      ghost var t0 := typeDumpers;
      var dumped: seq<Entry> := [];
      var i := 0;
      while i < |entries|
        invariant 0 <= i <= |entries|
        invariant DumpEntriesF(typeDumpers, Cfg(), entries, path, bound, i, dumped) ==
                  DumpEntriesF(t0, Cfg(), entries, path, bound, 0, [])
      {
        var key := DumpKey(entries[i].key, path);
        if key.Err? {
          return Err(key.error);
        }
        var value := DumpAt(entries[i].value, path + [entries[i].key]);
        if value.Err? {
          return Err(value.error);
        }
        dumped := Insert(dumped, key.value, value.value);
        i := i + 1;
      }
      r := Ok(dumped);
    }
  }
}
