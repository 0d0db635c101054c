/** The loader engines of both packages: `Loader._load` (an exact table, an
    ordered predicate table consulted on a miss and memoised, and the `except`
    clauses around the converter), the converters of `loaders.py`, and the
    `SpecializingLoader` that switches a (type form, path) key to a generated
    routine after the threshold.

    The semantics is first given as functions that pass the engine state (the
    exact table, the alias cache and every `SpecializingLoader`'s entries) from
    call to call in evaluation order; the classes `Loader` and
    `SpecializingLoader` below update that state in place and are proved to
    compute exactly what those functions describe. */
module Loading {
  import opened Wrappers
  import opened Forms
  import opened Values
  import opened TypePaths
  import opened Predicates
  import opened Exceptions
  import opened Dispatch
  import opened Specialization
  import opened Specializers
  import opened AliasFunctions
  import opened CodeGeneration

  /** The converters of `loaders.py`; gluetypes has the first three. */
  datatype Converter = LoadSimpleScalar | LoadSimpleCollection | LoadTuple | LoadDataclass | LoadNewtype

  /** A value of the loader tables: a converter, or a `SpecializingLoader`
      wrapping one. */
  datatype LoaderFn = Plain(converter: Converter) | Specializing(loader: SpecializingLoader)

  /** `specialize_load_tuple` and `specialize_load_simple_collection` of a
      package; the collection specializer is the generator as written or its
      corrected revision. */
  datatype Specializer =
    | SpecializeLoadTupleOf(package: Package)
    | SpecializeLoadSimpleCollectionOf(package: Package, revision: Revision)

  /** The key of `_specialized_loaders` and of the loader's alias cache. */
  type SpecKey = (TypeForm, Path)
  type AliasKey = (TypeForm, Path, string)
  type AliasCache = map<AliasKey, string>

  /** Everything a load may change: `_type_loaders`, `_alias_cache`, and the
      `_specialized_loaders` of each `SpecializingLoader`. */
  datatype EngineState = EngineState(
    loaders: map<TypeForm, LoaderFn>,
    aliases: map<AliasKey, string>,
    spec: map<SpecializingLoader, map<SpecKey, SpecEntry<Behaviour>>>)

  /** What is fixed at construction: the package, `_type_mappers` and `_alias_field`. */
  datatype Config = Config(package: Package, mappers: seq<Mapper<LoaderFn>>, aliasField: string)

  // ---------------------------------------------------------------------------
  // Specialisation

  /** Calling the specializer on a key. The specializers of both packages never
      return `None`: they produce a routine or raise. Executing the generated
      text is modelled by the behaviour that text denotes. */
  function Specialize(sp: Specializer, tf: TypeForm, path: Path): Result<Behaviour, string> {
    match sp
    case SpecializeLoadTupleOf(_) => TuplePlan(tf, path)
    case SpecializeLoadSimpleCollectionOf(p, rev) => CollectionPlan(tf, path, p, rev)
  }

  function AttemptOf(sp: Specializer, tf: TypeForm, path: Path): Attempt<Behaviour> {
    match Specialize(sp, tf, path)
    case Ok(r) => Produced(r)
    case Err(e) => Failed(e)
  }

  /** Every type form a routine loads with is smaller than `bound`. */
  predicate RoutineBelow(r: Behaviour, bound: nat) {
    match r
    case Unpack(forms, _) => forall i :: 0 <= i < |forms| && forms[i].Some? ==> Size(forms[i].value) < bound
    case Each(_, form, _) => form.Some? ==> Size(form.value) < bound
  }

  /** A generated routine only loads with forms smaller than the form it was
      generated for. */
  lemma SpecializedBelow(sp: Specializer, tf: TypeForm, path: Path)
    requires Specialize(sp, tf, path).Ok?
    ensures RoutineBelow(Specialize(sp, tf, path).value, Size(tf))
  {
    var r := Specialize(sp, tf, path).value;
    match sp
    case SpecializeLoadTupleOf(_) =>
      var args := tf.args.items;
      var forms := r.forms;
      forall i | 0 <= i < |forms| && forms[i].Some?
        ensures Size(forms[i].value) < Size(tf)
      {
        assert forms[i] == BuiltinByName(args[i].qualname);
        BuiltinSmallest(args[i].qualname);
        ArgSmaller(tf, i);
      }
    case SpecializeLoadSimpleCollectionOf(p, _) =>
      ArgSmaller(tf, 0);
      if r.form.Some? && p == Gluetypes {
        BuiltinSmallest(tf.args.items[0].qualname);
      }
  }

  /** The entries are well formed: a stored routine is the one the specializer
      generates for its key. */
  ghost predicate Wf(st: EngineState) {
    forall s | s in st.spec :: WfEntries(s.specializer, st.spec[s])
  }

  ghost predicate WfEntries(sp: Specializer, entries: map<SpecKey, SpecEntry<Behaviour>>) {
    forall k {:trigger entries[k]} | k in entries && entries[k].Compiled? :: Specialize(sp, k.0, k.1) == Ok(entries[k].routine)
  }

  function EntriesOf(st: EngineState, s: SpecializingLoader): map<SpecKey, SpecEntry<Behaviour>> {
    if s in st.spec then st.spec[s] else map[]
  }

  function EntryAt(entries: map<SpecKey, SpecEntry<Behaviour>>, k: SpecKey): Option<SpecEntry<Behaviour>> {
    if k in entries then Some(entries[k]) else None
  }

  /** Every cached alias is the uncached resolution of its key. */
  ghost predicate AliasesSound(cache: AliasCache, aliasField: string) {
    forall k {:trigger cache[k]} | k in cache :: ResolveAliasNoCache(k.0, k.2, aliasField) == Ok(cache[k])
  }

  /** What a load keeps true of the state. */
  ghost predicate Sound(st: EngineState, cfg: Config) {
    Wf(st) && AliasesSound(st.aliases, cfg.aliasField)
  }

  // ---------------------------------------------------------------------------
  // Item loading

  /** The type forms the items of a value are loaded with: one for all of them,
      or one per position. `None` is a name the routine cannot resolve. */
  datatype ItemForms = Homogeneous(form: Option<TypeForm>) | Positional(forms: seq<Option<TypeForm>>)

  /** The form item `i` is loaded with, or the exception reaching it raises:
      `args[pos]` past the end, or an unresolved name. */
  function FormFor(f: ItemForms, i: nat): Result<TypeForm, string> {
    match f
    case Homogeneous(form) => if form.Some? then Ok(form.value) else Err("NameError")
    case Positional(forms) =>
      if i >= |forms| then Err("IndexError")
      else if forms[i].Some? then Ok(forms[i].value) else Err("NameError")
  }

  predicate FormsBelow(f: ItemForms, bound: nat) {
    match f
    case Homogeneous(form) => form.Some? ==> Size(form.value) < bound
    case Positional(forms) => forall i :: 0 <= i < |forms| && forms[i].Some? ==> Size(forms[i].value) < bound
  }

  function Somes(args: seq<TypeForm>): (r: seq<Option<TypeForm>>)
    ensures |r| == |args| && forall i :: 0 <= i < |args| ==> r[i] == Some(args[i])
  {
    seq(|args|, i requires 0 <= i < |args| => Some(args[i]))
  }

  /** `number of arguments `load_simple_collection` expects. */
  function ExpectedArgs(origin: TypeForm): nat {
    if origin == TupleClass then 2 else 1
  }

  /** Whether the origin's constructor hashes each item as it receives it. */
  predicate Hashes(origin: TypeForm) {
    origin == SetClass || origin == FrozenSetClass
  }

  /** `origin(items)`: a typing construct cannot be instantiated, and a set
      hashes its items and keeps one of equal ones. */
  function Construct(origin: TypeForm, items: seq<Value>): Result<Value, EngineError> {
    if origin == ListClass then Ok(VList(items))
    else if origin == TupleClass then Ok(VTuple(items))
    else if origin == SetClass || origin == FrozenSetClass then
      if !AllHashable(items) then Err(Foreign("TypeError"))
      else if origin == SetClass then Ok(VSet(Dedup(items))) else Ok(VFrozenSet(Dedup(items)))
    else if origin.kind.KSpecial? then Err(Foreign("TypeError"))
    else Ok(VObject(origin, items))
  }

  /** What a collection routine returns for its loaded items. */
  function Collect(shape: Shape, items: seq<Value>): Result<Value, EngineError> {
    match shape
    case ListShape => Ok(VList(items))
    case SetShape => Ok(VSet(Dedup(items)))
    case CallShape(ctor) => if ctor.Some? then Construct(ctor.value, items) else Err(Foreign("NameError"))
  }

  /** How a scalar mismatch fails: tressed raises a value error; gluetypes
      reads `__name___` while formatting its message and raises an
      `AttributeError` instead. */
  function ScalarMismatch(package: Package, v: Value, tf: TypeForm, path: Path): EngineError {
    if package == Tressed then Invalid(v, tf, path) else Foreign("AttributeError")
  }

  // ---------------------------------------------------------------------------
  // Aliases (tressed only)

  /** `_resolve_alias_no_cache`: the field's metadata entry under the alias
      field, else the name. Without (or with empty) `__dataclass_fields__` the
      local `alias` is unbound; a name that is not a field is a `KeyError`. */
  function ResolveAliasNoCache(tf: TypeForm, name: string, aliasField: string): Result<string, string> {
    if !tf.kind.KDataclass? || tf.kind.fields == [] then Err("UnboundLocalError")
    else
      match FieldNamed(tf.kind.fields, name)
      case None => Err("KeyError")
      case Some(f) => Ok(if aliasField in f.metadata then f.metadata[aliasField] else name)
  }

  /** `_resolve_alias`: the cached alias of the key, else the uncached one,
      which is then cached. */
  function ResolveAliasF(cache: AliasCache, aliasField: string, tf: TypeForm, path: Path, name: string)
    : (out: (AliasCache, Result<string, string>))
    requires AliasesSound(cache, aliasField)
    ensures AliasesSound(out.0, aliasField) && cache.Keys <= out.0.Keys
  {
    var key := (tf, path, name);
    if key in cache then (cache, Ok(cache[key]))
    else
      match ResolveAliasNoCache(tf, name, aliasField)
      case Err(e) => (cache, Err(e))
      case Ok(a) => (cache[key := a], Ok(a))
  }

  /** The names bound so far. */
  function KwNames(kwargs: seq<KwArg>): (r: seq<string>)
    ensures |r| == |kwargs| && forall i :: 0 <= i < |kwargs| ==> r[i] == kwargs[i].name
  {
    seq(|kwargs|, i requires 0 <= i < |kwargs| => kwargs[i].name)
  }

  /** One pass of the loop of `load_dataclass`: resolve the field's alias,
      then bind the raw value under the field name if the input has the alias. */
  function FieldStep(cache: AliasCache, aliasField: string, v: Value, tf: TypeForm, path: Path, name: string,
                     kwargs: seq<KwArg>)
    : (out: (AliasCache, Result<seq<KwArg>, EngineError>))
    requires AliasesSound(cache, aliasField)
    ensures AliasesSound(out.0, aliasField) && cache.Keys <= out.0.Keys
  {
    var a := ResolveAliasF(cache, aliasField, tf, path, name);
    if a.1.Err? then (a.0, Err(Foreign(a.1.error)))
    else if !v.VDict? then (a.0, Err(Foreign("AttributeError")))
    else
      match Lookup(v.entries, VStr(a.1.value))
      case None => (a.0, Ok(kwargs))
      case Some(x) => (a.0, Ok(kwargs + [KwArg(name, x)]))
  }

  /** The loop of `load_dataclass` from field `i` on, with `kwargs` bound by
      the fields before it; the first failure ends the loop. */
  function LoadFieldsF(cache: AliasCache, aliasField: string, v: Value, tf: TypeForm, path: Path,
                       fields: seq<Field>, i: nat, kwargs: seq<KwArg>)
    : (out: (AliasCache, Result<seq<KwArg>, EngineError>))
    requires i <= |fields| && AliasesSound(cache, aliasField)
    ensures AliasesSound(out.0, aliasField) && cache.Keys <= out.0.Keys
    decreases |fields| - i
  {
    if i == |fields| then (cache, Ok(kwargs))
    else
      var o := FieldStep(cache, aliasField, v, tf, path, fields[i].name, kwargs);
      if o.1.Err? then o else LoadFieldsF(o.0, aliasField, v, tf, path, fields, i + 1, o.1.value)
  }

  /** Whether `type_form(**kwargs)` gets every field its `__init__` requires. */
  predicate RequiredBound(fields: seq<Field>, kwargs: seq<KwArg>) {
    forall i :: 0 <= i < |fields| && fields[i].required ==> fields[i].name in KwNames(kwargs)
  }

  /** `load_dataclass`. */
  function LoadDataclassF(cache: AliasCache, aliasField: string, v: Value, tf: TypeForm, path: Path)
    : (out: (AliasCache, Result<Value, EngineError>))
    requires AliasesSound(cache, aliasField)
    ensures AliasesSound(out.0, aliasField) && cache.Keys <= out.0.Keys
  {
    if !tf.kind.KDataclass? then (cache, Err(Foreign("TypeError")))
    else
      var fields := tf.kind.fields;
      var o := LoadFieldsF(cache, aliasField, v, tf, path, fields, 0, []);
      if o.1.Err? then (o.0, Err(o.1.error))
      else if !RequiredBound(fields, o.1.value) then (o.0, Err(Foreign("TypeError")))
      else (o.0, Ok(VRecord(tf, o.1.value)))
  }

  // ---------------------------------------------------------------------------
  // The engine

  /** `Loader._load(value, type_form, type_path)`. */
  function LoadF(st: EngineState, cfg: Config, v: Value, tf: TypeForm, path: Path)
    : (out: (EngineState, Result<Value, EngineError>))
    requires Sound(st, cfg)
    ensures Sound(out.0, cfg)
    decreases Size(tf), 4, 0
  {
    match Resolve(st.loaders, cfg.mappers, tf)
    case None => (st, Err(Unhandled(v, tf, path)))
    case Some(fn) =>
      var st1 := st.(loaders := Memoised(st.loaders, cfg.mappers, tf));
      var o := ApplyF(st1, cfg, fn, v, tf, path);
      (o.0, if o.1.Err? then Err(Wrap(o.1.error, v, tf, path)) else o.1)
  }

  /** Calling a table entry. */
  function ApplyF(st: EngineState, cfg: Config, fn: LoaderFn, v: Value, tf: TypeForm, path: Path)
    : (out: (EngineState, Result<Value, EngineError>))
    requires Sound(st, cfg)
    ensures Sound(out.0, cfg)
    decreases Size(tf), 3, 0
  {
    match fn
    case Plain(c) => ConvertF(st, cfg, c, v, tf, path)
    case Specializing(s) => SpecCallF(st, cfg, s, v, tf, path)
  }

  /** `SpecializingLoader.__call__`: one step of the entry's state machine,
      then what the step decided. */
  function SpecCallF(st: EngineState, cfg: Config, s: SpecializingLoader, v: Value, tf: TypeForm, path: Path)
    : (out: (EngineState, Result<Value, EngineError>))
    requires Sound(st, cfg)
    ensures Sound(out.0, cfg)
    decreases Size(tf), 2, 1
  {
    var entries := EntriesOf(st, s);
    var key := (tf, path);
    var step := Step(EntryAt(entries, key), AttemptOf(s.specializer, tf, path));
    if step.1.UseRoutine? then
      assert Specialize(s.specializer, tf, path) == Ok(step.1.routine);
      SpecializedBelow(s.specializer, tf, path);
      RunActionF(st.(spec := st.spec[s := entries[key := step.0]]), cfg, s, step.1, v, tf, path)
    else
      RunActionF(st.(spec := st.spec[s := entries[key := step.0]]), cfg, s, step.1, v, tf, path)
  }

  /** The generic converter, the routine, or the specializer's exception. */
  function RunActionF(st: EngineState, cfg: Config, s: SpecializingLoader, action: Action<Behaviour>,
                      v: Value, tf: TypeForm, path: Path)
    : (out: (EngineState, Result<Value, EngineError>))
    requires Sound(st, cfg) && (action.UseRoutine? ==> RoutineBelow(action.routine, Size(tf)))
    ensures Sound(out.0, cfg)
    decreases Size(tf), 2, 0
  {
    match action
    case UseGeneric => ConvertF(st, cfg, s.base, v, tf, path)
    case UseRoutine(r) => RunRoutineF(st, cfg, r, v, tf, path)
    case Raise(reason) => (st, Err(Foreign(reason)))
  }

  /** The converters. */
  function ConvertF(st: EngineState, cfg: Config, c: Converter, v: Value, tf: TypeForm, path: Path)
    : (out: (EngineState, Result<Value, EngineError>))
    requires Sound(st, cfg)
    ensures Sound(out.0, cfg)
    decreases Size(tf), 1, 1
  {
    match c
    case LoadSimpleScalar =>
      (st, if TypeOf(v) == tf then Ok(v) else Err(ScalarMismatch(cfg.package, v, tf, path)))
    case LoadSimpleCollection => CollectionF(st, cfg, v, tf, path)
    case LoadTuple => TupleF(st, cfg, v, tf, path)
    case LoadDataclass =>
      var o := LoadDataclassF(st.aliases, cfg.aliasField, v, tf, path);
      (st.(aliases := o.0), o.1)
    case LoadNewtype =>
      if tf.kind.KNewType? then
        SupertypeSmaller(tf);
        LoadF(st, cfg, v, tf.kind.supertype, path)
      else (st, Err(Foreign("AttributeError")))
  }

  /** `load_simple_collection`: a generic list, set, frozenset or homogeneous
      tuple, item by item with the single argument. */
  function CollectionF(st: EngineState, cfg: Config, v: Value, tf: TypeForm, path: Path)
    : (out: (EngineState, Result<Value, EngineError>))
    requires Sound(st, cfg)
    ensures Sound(out.0, cfg)
    decreases Size(tf), 1, 0
  {
    if tf.origin.None? || tf.args.NoArgs? || |tf.args.items| != ExpectedArgs(tf.origin.value) then
      (st, Err(Invalid(v, tf, path)))
    else if Iterate(v).None? || tf.origin.value.kind.KSpecial? then
      (st, Err(Foreign("TypeError")))
    else
      var origin := tf.origin.value;
      var items := Iterate(v).value;
      ArgSmaller(tf, 0);
      var o := LoadItemsF(st, cfg, items, Homogeneous(Some(tf.args.items[0])), path, Size(tf), 0, Hashes(origin), []);
      (o.0, if o.1.Err? then Err(o.1.error) else Construct(origin, o.1.value))
  }

  /** `load_tuple`: a heterogeneous tuple, item by item with the argument at
      the same position. */
  function TupleF(st: EngineState, cfg: Config, v: Value, tf: TypeForm, path: Path)
    : (out: (EngineState, Result<Value, EngineError>))
    requires Sound(st, cfg)
    ensures Sound(out.0, cfg)
    decreases Size(tf), 1, 0
  {
    if tf.origin.None? || tf.args.NoArgs? then (st, Err(Invalid(v, tf, path)))
    else if Iterate(v).None? then (st, Err(Foreign("TypeError")))
    else
      var items := Iterate(v).value;
      forall i | 0 <= i < |tf.args.items| ensures Size(tf.args.items[i]) < Size(tf) {
        ArgSmaller(tf, i);
      }
      var o := LoadItemsF(st, cfg, items, Positional(Somes(tf.args.items)), path, Size(tf), 0, false, []);
      (o.0, if o.1.Err? then Err(o.1.error) else Ok(VTuple(o.1.value)))
  }

  /** What an executed routine does. */
  function RunRoutineF(st: EngineState, cfg: Config, r: Behaviour, v: Value, tf: TypeForm, path: Path)
    : (out: (EngineState, Result<Value, EngineError>))
    requires Sound(st, cfg) && RoutineBelow(r, Size(tf))
    ensures Sound(out.0, cfg)
    decreases Size(tf), 1, 0
  {
    match r
    case Unpack(forms, rpath) =>
      if |forms| == 0 then (st, Ok(VTuple([])))
      else if Iterate(v).None? then (st, Err(Foreign("TypeError")))
      else if |Iterate(v).value| != |forms| then (st, Err(Foreign("ValueError")))
      else
        var items := Iterate(v).value;
        var o := LoadItemsF(st, cfg, items, Positional(forms), rpath, Size(tf), 0, false, []);
        (o.0, if o.1.Err? then Err(o.1.error) else Ok(VTuple(o.1.value)))
    case Each(shape, form, rpath) =>
      if shape.CallShape? && shape.ctor.None? then (st, Err(Foreign("NameError")))
      else if Iterate(v).None? then (st, Err(Foreign("TypeError")))
      else
        var items := Iterate(v).value;
        var o := LoadItemsF(st, cfg, items, Homogeneous(form), rpath, Size(tf), 0, shape.SetShape?, []);
        (o.0, if o.1.Err? then Err(o.1.error) else Collect(shape, o.1.value))
  }

  /** One pass of the item loop: item `i` loaded with its form at
      `path + (i,)`, and hashed when `hashed`, after the items `loaded`. */
  function ItemStep(st: EngineState, cfg: Config, items: seq<Value>, forms: ItemForms, path: Path,
                    bound: nat, i: nat, hashed: bool, loaded: seq<Value>)
    : (out: (EngineState, Result<seq<Value>, EngineError>))
    requires i < |items| && FormsBelow(forms, bound) && Sound(st, cfg)
    ensures Sound(out.0, cfg)
    ensures out.1.Ok? ==> |out.1.value| == |loaded| + 1 && out.1.value[..|loaded|] == loaded
    ensures out.1.Ok? && hashed ==> Hashable(out.1.value[|loaded|])
    decreases bound, 0, 0
  {
    match FormFor(forms, i)
    case Err(e) => (st, Err(Foreign(e)))
    case Ok(form) =>
      var o := LoadF(st, cfg, items[i], form, path + [VInt(i)]);
      if o.1.Err? then (o.0, Err(o.1.error))
      else if hashed && !Hashable(o.1.value) then (o.0, Err(Foreign("TypeError")))
      else (o.0, Ok(loaded + [o.1.value]))
  }

  /** The item loop from item `i` on, after the items `loaded`; the first
      failure ends the loop. */
  function LoadItemsF(st: EngineState, cfg: Config, items: seq<Value>, forms: ItemForms, path: Path,
                      bound: nat, i: nat, hashed: bool, loaded: seq<Value>)
    : (out: (EngineState, Result<seq<Value>, EngineError>))
    requires i <= |items| && FormsBelow(forms, bound) && Sound(st, cfg)
    ensures Sound(out.0, cfg)
    ensures out.1.Ok? ==> |out.1.value| == |loaded| + |items| - i && out.1.value[..|loaded|] == loaded
    ensures out.1.Ok? && hashed && AllHashable(loaded) ==> AllHashable(out.1.value)
    decreases bound, 0, |items| - i
  {
    if i == |items| then (st, Ok(loaded))
    else
      var o := ItemStep(st, cfg, items, forms, path, bound, i, hashed, loaded);
      if o.1.Err? then o
      else
        var rest := LoadItemsF(o.0, cfg, items, forms, path, bound, i + 1, hashed, o.1.value);
        assert rest.1.Ok? ==> rest.1.value[..|loaded|] == o.1.value[..|loaded|];
        rest
  }

  // ---------------------------------------------------------------------------
  // Default tables

  /** `_default_type_loaders()` of both packages. */
  function DefaultLoaders(): map<TypeForm, LoaderFn> {
    map[BoolClass := Plain(LoadSimpleScalar), IntClass := Plain(LoadSimpleScalar),
        FloatClass := Plain(LoadSimpleScalar), StrClass := Plain(LoadSimpleScalar),
        NoneTypeClass := Plain(LoadSimpleScalar)]
  }

  /** `_default_type_mappers(specialize)`, given the entries it uses for tuples
      and for homogeneous collections; only tressed loads dataclasses. */
  function DefaultMappers(package: Package, tupleFn: LoaderFn, collectionFn: LoaderFn): seq<Mapper<LoaderFn>> {
    [Mapper(HomogeneousTuplePred, collectionFn), Mapper(TuplePred, tupleFn),
     Mapper(ListPred, collectionFn), Mapper(SetPred, collectionFn), Mapper(FrozenSetPred, collectionFn)]
    + (if package == Tressed then [Mapper(DataclassPred, Plain(LoadDataclass))] else [])
  }

  /** The converters a `loaders` module binds, by name. */
  const TressedLoadersModule: seq<(string, Converter)> :=
    [("load_simple_scalar", LoadSimpleScalar), ("load_simple_collection", LoadSimpleCollection),
     ("load_tuple", LoadTuple), ("load_dataclass", LoadDataclass), ("load_newtype", LoadNewtype)]
  const GlueLoadersModule: seq<(string, Converter)> :=
    [("load_simple_scalar", LoadSimpleScalar), ("load_simple_sequence", LoadSimpleCollection),
     ("load_tuple", LoadTuple)]

  /** The names `_default_type_mappers` imports. gluetypes, as written, asks
      for a name its module does not bind; it means its sequence converter. */
  const TressedMapperImports := ["load_dataclass", "load_simple_collection", "load_tuple"]
  const GlueMapperImportsAsWritten := ["load_simple_collection", "load_tuple"]
  const GlueMapperImports := ["load_simple_sequence", "load_tuple"]

  function BoundTo(defs: seq<(string, Converter)>, name: string): (r: Option<Converter>)
    ensures r.Some? <==> exists i :: 0 <= i < |defs| && defs[i].0 == name
  {
    if defs == [] then None
    else if defs[0].0 == name then Some(defs[0].1)
    else
      var r := BoundTo(defs[1..], name);
      assert r.Some? ==> exists i :: 1 <= i < |defs| && defs[i].0 == name by {
        if r.Some? {
          var k :| 0 <= k < |defs[1..]| && defs[1..][k].0 == name;
          assert defs[k + 1].0 == name;
        }
      }
      r
  }

  /** `from module import names`, for the module's bindings `defs`: the
      converters bound to the names, or an `ImportError` for a name the module
      does not bind. */
  function ImportFrom(defs: seq<(string, Converter)>, names: seq<string>): (r: Result<seq<Converter>, string>)
    ensures r.Ok? <==> forall i :: 0 <= i < |names| ==> BoundTo(defs, names[i]).Some?
    ensures r.Err? ==> r.error == "ImportError"
    ensures r.Ok? ==> |r.value| == |names| && forall i :: 0 <= i < |names| ==> r.value[i] == BoundTo(defs, names[i]).value
  {
    if names == [] then Ok([])
    else
      match BoundTo(defs, names[0])
      case None => Err("ImportError")
      case Some(c) =>
        match ImportFrom(defs, names[1..])
        case Err(e) => Err(e)
        case Ok(rest) => Ok([c] + rest)
  }

  /** The `from ... loaders import ...` of `_default_type_mappers` as
      written: the converters it binds, or the `ImportError` it raises. */
  function DefaultMapperImports(package: Package): Result<seq<Converter>, string> {
    if package == Tressed then ImportFrom(TressedLoadersModule, TressedMapperImports)
    else ImportFrom(GlueLoadersModule, GlueMapperImportsAsWritten)
  }

  /** The tables only hold `SpecializingLoader`s of `specs`. */
  ghost predicate Closed(st: EngineState, cfg: Config, specs: set<SpecializingLoader>) {
    && (forall i | 0 <= i < |cfg.mappers| && cfg.mappers[i].fn.Specializing? :: cfg.mappers[i].fn.loader in specs)
    && (forall t | t in st.loaders && st.loaders[t].Specializing? :: st.loaders[t].loader in specs)
  }

  /** A converter found by the predicate table is one of its entries. */
  lemma FirstMatchIsEntry<F>(mappers: seq<Mapper<F>>, tf: TypeForm)
    requires FirstMatch(mappers, tf).Some?
    ensures exists i :: 0 <= i < |mappers| && mappers[i].fn == FirstMatch(mappers, tf).value
  {
    var k := FirstMatchIndex(mappers, tf);
    assert mappers[k].fn == FirstMatch(mappers, tf).value;
  }

  // ---------------------------------------------------------------------------
  // The objects

  /** A second store under the same key replaces the first. */
  lemma UpdateTwice<K, V>(m: map<K, V>, k: K, a: V, b: V)
    ensures m[k := a][k := b] == m[k := b]
  {
  }

  /** Storing the value already stored changes nothing. */
  lemma UpdateSame<K, V>(m: map<K, V>, k: K)
    requires k in m
    ensures m[k := m[k]] == m
  {
  }

  /** `SpecializingLoader(loader, specializer)`. */
  class SpecializingLoader {
    const base: Converter
    const specializer: Specializer
    /** `_specialized_loaders`. */
    var entries: map<SpecKey, SpecEntry<Behaviour>>

    constructor (base: Converter, specializer: Specializer)
      ensures this.base == base && this.specializer == specializer && entries == map[]
    {
      this.base := base;
      this.specializer := specializer;
      entries := map[];
    }

    /** `self._specialized_loaders[key] = entry`. */
    method Store(key: SpecKey, entry: SpecEntry<Behaviour>, loader: Loader)
      requires loader.Valid() && this in loader.specs
      requires entry.Compiled? ==> Specialize(specializer, key.0, key.1) == Ok(entry.routine)
      modifies this
      ensures entries == old(entries)[key := entry]
      ensures loader.SpecState() == old(loader.SpecState())[this := entries]
      ensures loader.Valid()
    {
      ghost var specs0 := loader.SpecState();
      entries := entries[key := entry];
      assert loader.SpecState() == specs0[this := entries];
    }

    /** `__call__(value, type_form, type_path, loader)`. */
    method Call(v: Value, tf: TypeForm, path: Path, loader: Loader) returns (r: Result<Value, EngineError>)
      requires loader.Valid() && this in loader.specs
      modifies loader, loader.specs
      ensures loader.Valid()
      ensures (loader.State(), r) == SpecCallF(old(loader.State()), loader.Cfg(), this, v, tf, path)
      decreases Size(tf), 2, 2
    {
      ghost var st := loader.State();
      var key := (tf, path);
      var entry := EntryAt(entries, key);
      assert EntriesOf(st, this) == entries;
      if entry.Some? && entry.value.Compiled? {
        var routine := entry.value.routine;
        SpecializedBelow(specializer, tf, path);
        UpdateSame(entries, key);
        UpdateSame(st.spec, this);
        r := loader.RunRoutine(routine, v, tf, path);
      } else {
        r := Tally(v, tf, path, loader);
      }
    }

    /** The rest of `__call__` for a key without a routine: the counter is
        stored, then either the specializer is asked or the generic converter
        runs. */
    method Tally(v: Value, tf: TypeForm, path: Path, loader: Loader) returns (r: Result<Value, EngineError>)
      requires loader.Valid() && this in loader.specs
      requires var entry := EntryAt(entries, (tf, path)); entry.None? || entry.value.Count?
      modifies loader, loader.specs
      ensures loader.Valid()
      ensures (loader.State(), r) == SpecCallF(old(loader.State()), loader.Cfg(), this, v, tf, path)
      decreases Size(tf), 2, 1
    {
      ghost var st := loader.State();
      var key := (tf, path);
      var count := NextCount(EntryAt(entries, key));
      assert EntriesOf(st, this) == entries;
      Store(key, Count(count), loader);
      if count > Threshold {
        r := Consult(v, tf, path, loader, st, count);
      } else {
        r := loader.Convert(base, v, tf, path);
      }
    }

    /** `self.specializer(type_form, type_path)`: the routine's text is
        generated and executed; the result is the behaviour that text denotes,
        or the exception generating it raised. */
    method Generate(tf: TypeForm, path: Path) returns (plan: Result<Behaviour, string>)
      ensures plan == Specialize(specializer, tf, path)
    {
      var code: Result<string, string>;
      match specializer {
        case SpecializeLoadTupleOf(_) =>
          code := SpecializeLoadTuple(tf, path);
          TuplePlanAgrees(tf, path);
        case SpecializeLoadSimpleCollectionOf(p, rev) =>
          code := SpecializeLoadSimpleCollection(tf, path, p, rev);
          CollectionPlanAgrees(tf, path, p, rev);
      }
      if code.Err? {
        return Err(code.error);
      }
      // `exec` of the text defines the routine whose behaviour was planned.
      plan := Ok(Specialize(specializer, tf, path).value);
    }

    /** The rest of `__call__` once the counter `count` is stored and passes the
        threshold: ask the specializer, keep and run the routine it generates. */
    method Consult(v: Value, tf: TypeForm, path: Path, loader: Loader, ghost st: EngineState, count: int)
      returns (r: Result<Value, EngineError>)
      requires loader.Valid() && this in loader.specs && Sound(st, loader.Cfg())
      requires var entry := EntryAt(EntriesOf(st, this), (tf, path));
        (entry.None? || entry.value.Count?) && NextCount(entry) == count && count > Threshold
      requires entries == EntriesOf(st, this)[(tf, path) := Count(count)]
      requires loader.State() == st.(spec := st.spec[this := entries])
      modifies loader, loader.specs
      ensures loader.Valid()
      ensures (loader.State(), r) == SpecCallF(st, loader.Cfg(), this, v, tf, path)
      decreases Size(tf), 2, 0
    {
      var key := (tf, path);
      var plan := Generate(tf, path);
      if plan.Err? {
        return Err(Foreign(plan.error));
      }
      var routine := plan.value;
      ghost var counted := entries;
      Store(key, Compiled(routine), loader);
      UpdateTwice(EntriesOf(st, this), key, Count(count), Compiled(routine));
      UpdateTwice(st.spec, this, counted, entries);
      SpecializedBelow(specializer, tf, path);
      r := loader.RunRoutine(routine, v, tf, path);
    }
  }

  /** `Loader`: the exact table, the predicate table, the alias field and the
      alias cache. The `SpecializingLoader`s its tables hold are `specs`. */
  class Loader {
    const package: Package
    /** `_type_loaders`. */
    var typeLoaders: map<TypeForm, LoaderFn>
    /** `_type_mappers`, in insertion order. */
    const typeMappers: seq<Mapper<LoaderFn>>
    /** `_alias_field`. */
    const aliasField: string
    /** `_alias_cache`. */
    var aliasCache: map<AliasKey, string>
    ghost const specs: set<SpecializingLoader>

    function Cfg(): Config {
      Config(package, typeMappers, aliasField)
    }

    /** The entries of the `SpecializingLoader`s the tables hold. */
    ghost function SpecState(): map<SpecializingLoader, map<SpecKey, SpecEntry<Behaviour>>>
      reads specs
    {
      map s | s in specs :: s.entries
    }

    ghost function State(): EngineState
      reads this, specs
    {
      EngineState(typeLoaders, aliasCache, SpecState())
    }

    ghost predicate Valid()
      reads this, specs
    {
      Closed(State(), Cfg(), specs) && Sound(State(), Cfg())
    }

    /** `Loader(type_loaders, type_mappers, enable_specialization, alias_field)`.
        With specialization on and no `type_mappers`, one `SpecializingLoader`
        serves tuples and one, with the collection generator as written,
        serves every homogeneous collection. The imports that building the
        default mapper table needs are taken as done (see `Create`). */
    constructor (package: Package, typeLoaders: Option<map<TypeForm, LoaderFn>>,
                 typeMappers: Option<seq<Mapper<LoaderFn>>>, enableSpecialization: bool, aliasField: string)
      requires typeLoaders.Some? ==> forall t | t in typeLoaders.value :: typeLoaders.value[t].Plain?
      requires typeMappers.Some? ==> forall i | 0 <= i < |typeMappers.value| :: typeMappers.value[i].fn.Plain?
      ensures Valid()
      ensures this.package == package && this.aliasField == aliasField && aliasCache == map[]
      ensures this.typeLoaders == if typeLoaders.Some? then typeLoaders.value else DefaultLoaders()
      ensures typeMappers.Some? ==> this.typeMappers == typeMappers.value && specs == {}
      ensures typeMappers.None? && !enableSpecialization ==>
        this.typeMappers == DefaultMappers(package, Plain(LoadTuple), Plain(LoadSimpleCollection))
      ensures typeMappers.None? && enableSpecialization ==>
        exists t: SpecializingLoader, c: SpecializingLoader ::
          && fresh(t) && fresh(c) && t != c && specs == {t, c}
          && t.base == LoadTuple && t.specializer == SpecializeLoadTupleOf(package) && t.entries == map[]
          && c.base == LoadSimpleCollection && c.specializer == SpecializeLoadSimpleCollectionOf(package, AsWritten)
          && c.entries == map[]
          && this.typeMappers == DefaultMappers(package, Specializing(t), Specializing(c))
    {
      this.package := package;
      this.typeLoaders := if typeLoaders.Some? then typeLoaders.value else DefaultLoaders();
      this.aliasField := aliasField;
      aliasCache := map[];
      if typeMappers.Some? {
        this.typeMappers := typeMappers.value;
        specs := {};
      } else if enableSpecialization {
        var t := new SpecializingLoader(LoadTuple, SpecializeLoadTupleOf(package));
        var c := new SpecializingLoader(LoadSimpleCollection, SpecializeLoadSimpleCollectionOf(package, AsWritten));
        this.typeMappers := DefaultMappers(package, Specializing(t), Specializing(c));
        specs := {t, c};
      } else {
        this.typeMappers := DefaultMappers(package, Plain(LoadTuple), Plain(LoadSimpleCollection));
        specs := {};
      }
    }

    /** `Loader(...)` with the imports of `_default_type_mappers` as written:
        without a mapper table the default one is built, and its import fails
        where the loaders module does not bind a name it asks for. */
    static method Create(package: Package, typeLoaders: Option<map<TypeForm, LoaderFn>>,
                         typeMappers: Option<seq<Mapper<LoaderFn>>>, enableSpecialization: bool, aliasField: string)
      returns (r: Result<Loader, string>)
      requires typeLoaders.Some? ==> forall t | t in typeLoaders.value :: typeLoaders.value[t].Plain?
      requires typeMappers.Some? ==> forall i | 0 <= i < |typeMappers.value| :: typeMappers.value[i].fn.Plain?
      ensures r.Err? <==> typeMappers.None? && DefaultMapperImports(package).Err?
      ensures r.Err? ==> r.error == "ImportError"
      ensures r.Ok? ==>
        && fresh(r.value) && r.value.Valid()
        && r.value.package == package && r.value.aliasField == aliasField && r.value.aliasCache == map[]
        && r.value.typeLoaders == (if typeLoaders.Some? then typeLoaders.value else DefaultLoaders())
        && (typeMappers.Some? ==> r.value.typeMappers == typeMappers.value)
        && (typeMappers.None? && !enableSpecialization ==>
              r.value.typeMappers == DefaultMappers(package, Plain(LoadTuple), Plain(LoadSimpleCollection)))
    {
      if typeMappers.None? {
        var imported := DefaultMapperImports(package);
        if imported.Err? {
          return Err(imported.error);
        }
      }
      var loader := new Loader(package, typeLoaders, typeMappers, enableSpecialization, aliasField);
      return Ok(loader);
    }

    /** `_load(value, type_form, type_path)`. */
    method LoadAt(v: Value, tf: TypeForm, path: Path) returns (r: Result<Value, EngineError>)
      requires Valid()
      modifies this, specs
      ensures Valid()
      ensures (State(), r) == LoadF(old(State()), Cfg(), v, tf, path)
      decreases Size(tf), 4, 0
    {
      var found := FindLoader(tf);
      if found.None? {
        return Err(Unhandled(v, tf, path));
      }
      var fn := found.value;
      r := Apply(fn, v, tf, path);
      if r.Err? {
        r := Err(Wrap(r.error, v, tf, path));
      }
    }

    /** The lookup at the head of `_load`: the exact entry, else the first
        match of the predicate table, which is then cached. */
    method FindLoader(tf: TypeForm) returns (found: Option<LoaderFn>)
      requires Valid()
      modifies this`typeLoaders
      ensures Valid()
      ensures found == Resolve(old(typeLoaders), typeMappers, tf)
      ensures State() == old(State()).(loaders := Memoised(old(typeLoaders), typeMappers, tf))
      ensures found.Some? && found.value.Specializing? ==> found.value.loader in specs
    {
      if tf in typeLoaders {
        return Some(typeLoaders[tf]);
      }
      found := ScanMappers(typeMappers, tf);
      if found.Some? {
        FirstMatchIsEntry(typeMappers, tf);
        // Cache lookup for next time.
        typeLoaders := typeLoaders[tf := found.value];
      }
    }

    /** `load(value, type_form)`: a load from the root path. */
    method Load(v: Value, tf: TypeForm) returns (r: Result<Value, EngineError>)
      requires Valid()
      modifies this, specs
      ensures Valid()
      ensures (State(), r) == LoadF(old(State()), Cfg(), v, tf, [])
    {
      r := LoadAt(v, tf, []);
    }

    method Apply(fn: LoaderFn, v: Value, tf: TypeForm, path: Path) returns (r: Result<Value, EngineError>)
      requires Valid()
      requires fn.Specializing? ==> fn.loader in specs
      modifies this, specs
      ensures Valid()
      ensures (State(), r) == ApplyF(old(State()), Cfg(), fn, v, tf, path)
      decreases Size(tf), 3, 0
    {
      match fn
      case Plain(c) =>
        r := Convert(c, v, tf, path);
      case Specializing(s) =>
        r := s.Call(v, tf, path, this);
    }

    /** The converters of `loaders.py`. */
    method Convert(c: Converter, v: Value, tf: TypeForm, path: Path) returns (r: Result<Value, EngineError>)
      requires Valid()
      modifies this, specs
      ensures Valid()
      ensures (State(), r) == ConvertF(old(State()), Cfg(), c, v, tf, path)
      decreases Size(tf), 1, 1
    {
      match c
      case LoadSimpleScalar =>
        if TypeOf(v) == tf {
          r := Ok(v);
        } else {
          r := Err(ScalarMismatch(package, v, tf, path));
        }
      case LoadSimpleCollection =>
        r := ConvertCollection(v, tf, path);
      case LoadTuple =>
        r := ConvertTuple(v, tf, path);
      case LoadDataclass =>
        r := LoadDataclass(v, tf, path);
      case LoadNewtype =>
        if !tf.kind.KNewType? {
          return Err(Foreign("AttributeError"));
        }
        SupertypeSmaller(tf);
        r := LoadAt(v, tf.kind.supertype, path);
    }

    /** `load_simple_collection(value, type_form, type_path, loader)`. */
    method ConvertCollection(v: Value, tf: TypeForm, path: Path) returns (r: Result<Value, EngineError>)
      requires Valid()
      modifies this, specs
      ensures Valid()
      ensures (State(), r) == CollectionF(old(State()), Cfg(), v, tf, path)
      decreases Size(tf), 1, 0
    {
      if tf.origin.None? || tf.args.NoArgs? || |tf.args.items| != ExpectedArgs(tf.origin.value) {
        return Err(Invalid(v, tf, path));
      }
      var items := Iterate(v);
      if items.None? || tf.origin.value.kind.KSpecial? {
        return Err(Foreign("TypeError"));
      }
      ArgSmaller(tf, 0);
      var loaded := LoadItems(items.value, Homogeneous(Some(tf.args.items[0])), path, Size(tf),
                              Hashes(tf.origin.value));
      if loaded.Err? {
        return Err(loaded.error);
      }
      r := Construct(tf.origin.value, loaded.value);
    }

    /** `load_tuple(value, type_form, type_path, loader)`. */
    method ConvertTuple(v: Value, tf: TypeForm, path: Path) returns (r: Result<Value, EngineError>)
      requires Valid()
      modifies this, specs
      ensures Valid()
      ensures (State(), r) == TupleF(old(State()), Cfg(), v, tf, path)
      decreases Size(tf), 1, 0
    {
      if tf.origin.None? || tf.args.NoArgs? {
        return Err(Invalid(v, tf, path));
      }
      var items := Iterate(v);
      if items.None? {
        return Err(Foreign("TypeError"));
      }
      forall i | 0 <= i < |tf.args.items| ensures Size(tf.args.items[i]) < Size(tf) {
        ArgSmaller(tf, i);
      }
      var loaded := LoadItems(items.value, Positional(Somes(tf.args.items)), path, Size(tf), false);
      if loaded.Err? {
        return Err(loaded.error);
      }
      r := Ok(VTuple(loaded.value));
    }

    /** A generated routine called as `routine(value, loader)`. */
    method RunRoutine(routine: Behaviour, v: Value, tf: TypeForm, path: Path) returns (r: Result<Value, EngineError>)
      requires Valid() && RoutineBelow(routine, Size(tf))
      modifies this, specs
      ensures Valid()
      ensures (State(), r) == RunRoutineF(old(State()), Cfg(), routine, v, tf, path)
      decreases Size(tf), 1, 0
    {
      match routine
      case Unpack(forms, rpath) =>
        if |forms| == 0 {
          return Ok(VTuple([]));
        }
        var items := Iterate(v);
        if items.None? {
          return Err(Foreign("TypeError"));
        }
        if |items.value| != |forms| {
          return Err(Foreign("ValueError"));
        }
        var loaded := LoadItems(items.value, Positional(forms), rpath, Size(tf), false);
        if loaded.Err? {
          return Err(loaded.error);
        }
        r := Ok(VTuple(loaded.value));
      case Each(shape, form, rpath) =>
        if shape.CallShape? && shape.ctor.None? {
          return Err(Foreign("NameError"));
        }
        var items := Iterate(v);
        if items.None? {
          return Err(Foreign("TypeError"));
        }
        var loaded := LoadItems(items.value, Homogeneous(form), rpath, Size(tf), shape.SetShape?);
        if loaded.Err? {
          return Err(loaded.error);
        }
        r := Collect(shape, loaded.value);
    }

    /** The loop over `enumerate(value)` shared by the converters and the
        routines: item `pos` is loaded at `path + (pos,)`. */
    method LoadItems(items: seq<Value>, forms: ItemForms, path: Path, ghost bound: nat, hashed: bool)
      returns (r: Result<seq<Value>, EngineError>)
      requires Valid() && FormsBelow(forms, bound)
      modifies this, specs
      ensures Valid()
      ensures (State(), r) == LoadItemsF(old(State()), Cfg(), items, forms, path, bound, 0, hashed, [])
      decreases bound, 0, 1
    {
      ghost var st0 := State();
      var loaded: seq<Value> := [];
      var i := 0;
      while i < |items|
        invariant 0 <= i <= |items|
        invariant Valid()
        invariant LoadItemsF(State(), Cfg(), items, forms, path, bound, i, hashed, loaded) ==
                  LoadItemsF(st0, Cfg(), items, forms, path, bound, 0, hashed, [])
      {
        var step := LoadItem(items, forms, path, bound, i, hashed, loaded);
        if step.Err? {
          return step;
        }
        loaded := step.value;
        i := i + 1;
      }
      r := Ok(loaded);
    }

    /** One pass of that loop. */
    method LoadItem(items: seq<Value>, forms: ItemForms, path: Path, ghost bound: nat, i: nat, hashed: bool,
                    loaded: seq<Value>)
      returns (r: Result<seq<Value>, EngineError>)
      requires Valid() && FormsBelow(forms, bound) && i < |items|
      modifies this, specs
      ensures Valid()
      ensures (State(), r) == ItemStep(old(State()), Cfg(), items, forms, path, bound, i, hashed, loaded)
      decreases bound, 0, 0
    {
      var form := FormFor(forms, i);
      if form.Err? {
        return Err(Foreign(form.error));
      }
      var x := LoadAt(items[i], form.value, path + [VInt(i)]);
      if x.Err? {
        return Err(x.error);
      }
      if hashed && !Hashable(x.value) {
        return Err(Foreign("TypeError"));
      }
      r := Ok(loaded + [x.value]);
    }

    /** `_resolve_alias(type_form, type_path, name)`. */
    method ResolveAlias(tf: TypeForm, path: Path, name: string) returns (r: Result<string, string>)
      requires AliasesSound(aliasCache, aliasField)
      modifies this`aliasCache
      ensures AliasesSound(aliasCache, aliasField)
      ensures (aliasCache, r) == ResolveAliasF(old(aliasCache), aliasField, tf, path, name)
    {
      var key := (tf, path, name);
      if key in aliasCache {
        return Ok(aliasCache[key]);
      }
      r := ResolveAliasNoCache(tf, name, aliasField);
      if r.Ok? {
        aliasCache := aliasCache[key := r.value];
      }
    }

    /** `load_dataclass`: the loop over `fields(type_form)`, then the call. */
    method LoadDataclass(v: Value, tf: TypeForm, path: Path) returns (r: Result<Value, EngineError>)
      requires AliasesSound(aliasCache, aliasField)
      modifies this`aliasCache
      ensures AliasesSound(aliasCache, aliasField)
      ensures (aliasCache, r) == LoadDataclassF(old(aliasCache), aliasField, v, tf, path)
    {
      if !tf.kind.KDataclass? {
        return Err(Foreign("TypeError"));
      }
      var kwargs := LoadFields(v, tf, path, tf.kind.fields);
      if kwargs.Err? {
        return Err(kwargs.error);
      }
      if !RequiredBound(tf.kind.fields, kwargs.value) {
        return Err(Foreign("TypeError"));
      }
      r := Ok(VRecord(tf, kwargs.value));
    }

    /** The loop of `load_dataclass`. */
    method LoadFields(v: Value, tf: TypeForm, path: Path, fields: seq<Field>) returns (r: Result<seq<KwArg>, EngineError>)
      requires AliasesSound(aliasCache, aliasField)
      modifies this`aliasCache
      ensures AliasesSound(aliasCache, aliasField)
      ensures (aliasCache, r) == LoadFieldsF(old(aliasCache), aliasField, v, tf, path, fields, 0, [])
    {
      ghost var cache0 := aliasCache;
      var kwargs: seq<KwArg> := [];
      var i := 0;
      while i < |fields|
        invariant 0 <= i <= |fields|
        invariant AliasesSound(aliasCache, aliasField)
        invariant LoadFieldsF(aliasCache, aliasField, v, tf, path, fields, i, kwargs) ==
                  LoadFieldsF(cache0, aliasField, v, tf, path, fields, 0, [])
      {
        var step := BindField(v, tf, path, fields[i].name, kwargs);
        if step.Err? {
          return step;
        }
        kwargs := step.value;
        i := i + 1;
      }
      r := Ok(kwargs);
    }

    /** One pass of that loop. */
    method BindField(v: Value, tf: TypeForm, path: Path, name: string, kwargs: seq<KwArg>)
      returns (r: Result<seq<KwArg>, EngineError>)
      requires AliasesSound(aliasCache, aliasField)
      modifies this`aliasCache
      ensures AliasesSound(aliasCache, aliasField)
      ensures (aliasCache, r) == FieldStep(old(aliasCache), aliasField, v, tf, path, name, kwargs)
    {
      var alias := ResolveAlias(tf, path, name);
      if alias.Err? {
        return Err(Foreign(alias.error));
      }
      if !v.VDict? {
        return Err(Foreign("AttributeError"));
      }
      var x := Lookup(v.entries, VStr(alias.value));
      if x.Some? {
        r := Ok(kwargs + [KwArg(name, x.value)]);
      } else {
        r := Ok(kwargs);
      }
    }
  }
}
