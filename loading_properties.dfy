/** What a load guarantees: how it fails, the order of the default predicate
    table, what the converters return, that the alias cache and the
    specialised routines change no result, and the two places where the
    loaders as written fail before they get that far. */
module LoadingProperties {
  import opened Wrappers
  import opened Forms
  import opened Values
  import opened TypePaths
  import opened Predicates
  import opened Exceptions
  import opened Dispatch
  import opened Specialization
  import Specializers
  import opened AliasFunctions
  import opened Loading

  // ---------------------------------------------------------------------------
  // Failures

  /** A load fails in one of two ways: no converter handles the type form (and
      nothing is cached), or a value error for some step. Every other exception
      a converter raises is turned into a value error on its way out. */
  lemma LoadFailureKinds(st: EngineState, cfg: Config, v: Value, tf: TypeForm, path: Path)
    requires Sound(st, cfg)
    ensures var out := LoadF(st, cfg, v, tf, path);
      out.1.Err? ==>
        || (out.1.error == Unhandled(v, tf, path) && out.0 == st && Resolve(st.loaders, cfg.mappers, tf).None?)
        || out.1.error.Invalid?
    ensures Resolve(st.loaders, cfg.mappers, tf).None? ==> LoadF(st, cfg, v, tf, path) == (st, Err(Unhandled(v, tf, path)))
  {
  }

  /** A value error names the step it is raised for: the wrapped converter's
      own step when the converter raised anything but a value error. */
  lemma ForeignBecomesInvalidHere(st: EngineState, cfg: Config, fn: LoaderFn, v: Value, tf: TypeForm, path: Path)
    requires Sound(st, cfg) && Resolve(st.loaders, cfg.mappers, tf) == Some(fn)
    requires var st1 := st.(loaders := Memoised(st.loaders, cfg.mappers, tf));
      var o := ApplyF(st1, cfg, fn, v, tf, path); o.1.Err? && !o.1.error.Invalid?
    ensures LoadF(st, cfg, v, tf, path).1 == Err(Invalid(v, tf, path))
  {
  }

  // ---------------------------------------------------------------------------
  // The default predicate table

  /** `tuple[T, ...]` goes to the collection converter although `is_tuple`
      also holds: the more specific predicate comes first. */
  lemma DefaultOrderHomogeneousTuple(package: Specializers.Package, t: LoaderFn, c: LoaderFn, tf: TypeForm)
    requires IsHomogeneousTupleType(tf)
    ensures FirstMatch(DefaultMappers(package, t, c), tf) == Some(c)
  {
    FirstMatchWins(DefaultMappers(package, t, c), tf, 0);
  }

  /** Any other tuple goes to the tuple converter. */
  lemma DefaultOrderTuple(package: Specializers.Package, t: LoaderFn, c: LoaderFn, tf: TypeForm)
    requires IsTupleType(tf) && !IsHomogeneousTupleType(tf)
    ensures FirstMatch(DefaultMappers(package, t, c), tf) == Some(t)
  {
    FirstMatchWins(DefaultMappers(package, t, c), tf, 1);
  }

  /** Lists, sets and frozensets go to the collection converter. */
  lemma DefaultOrderCollections(package: Specializers.Package, t: LoaderFn, c: LoaderFn, tf: TypeForm)
    requires IsListType(tf) || IsSetType(tf) || IsFrozenSetType(tf)
    ensures FirstMatch(DefaultMappers(package, t, c), tf) == Some(c)
  {
    var ms := DefaultMappers(package, t, c);
    CollectionPredicatesExclusive(tf);
    HomogeneousTupleIsTuple(tf);
    if IsListType(tf) {
      FirstMatchWins(ms, tf, 2);
    } else if IsSetType(tf) {
      FirstMatchWins(ms, tf, 3);
    } else {
      FirstMatchWins(ms, tf, 4);
    }
  }

  /** A dataclass goes to `load_dataclass` in tressed; gluetypes has no
      converter for it. */
  lemma DefaultOrderDataclass(package: Specializers.Package, t: LoaderFn, c: LoaderFn, tf: TypeForm)
    requires IsDataclassType(tf) && tf.origin.None?
    ensures FirstMatch(DefaultMappers(package, t, c), tf)
      == if package == Specializers.Tressed then Some(Plain(LoadDataclass)) else None
  {
    var ms := DefaultMappers(package, t, c);
    NoOriginNoMatch(tf);
    if package == Specializers.Tressed {
      FirstMatchWins(ms, tf, 5);
    } else {
      assert FirstMatchIndex(ms, tf) == -1;
    }
  }

  // ---------------------------------------------------------------------------
  // Converters

  /** A scalar loads exactly when its type is the type form, unchanged; any
      other value is a value error for this step, in both packages. */
  lemma ScalarExact(st: EngineState, cfg: Config, v: Value, tf: TypeForm, path: Path)
    requires Sound(st, cfg) && tf in st.loaders && st.loaders[tf] == Plain(LoadSimpleScalar)
    ensures LoadF(st, cfg, v, tf, path) == (st, if TypeOf(v) == tf then Ok(v) else Err(Invalid(v, tf, path)))
  {
    ExactEntryWins(st.loaders, cfg.mappers, tf);
    assert st.(loaders := st.loaders) == st;
    assert ApplyF(st, cfg, Plain(LoadSimpleScalar), v, tf, path) == ConvertF(st, cfg, LoadSimpleScalar, v, tf, path);
  }

  /** The value `load_simple_collection` builds from `n` loaded items for an
      origin: a list or tuple of them all, a set or frozenset of hashable
      distinct items, or an instance of the origin class built from them all. */
  predicate CollectionFits(origin: TypeForm, n: nat, r: Value) {
    if origin == ListClass then r.VList? && |r.items| == n
    else if origin == TupleClass then r.VTuple? && |r.items| == n
    else if origin == SetClass || origin == FrozenSetClass then
      && (if origin == SetClass then r.VSet? else r.VFrozenSet?)
      && (forall x | x in r.items :: Hashable(x))
      && (forall i, j :: 0 <= i < j < |r.items| ==> r.items[i] != r.items[j])
    else r.VObject? && r.cls == origin && |r.items| == n
  }

  /** `loaded` are the items loaded one after the other: item `k` with
      `forms[k]` at `path + (k,)`, taking the state from `states[k]` to
      `states[k + 1]`. */
  ghost predicate LoadsInOrder(cfg: Config, items: seq<Value>, forms: seq<TypeForm>, path: Path,
                         states: seq<EngineState>, loaded: seq<Value>)
  {
    && |forms| == |items| && |loaded| == |items| && |states| == |items| + 1
    && forall k :: 0 <= k < |items| ==>
         && Sound(states[k], cfg)
         && LoadF(states[k], cfg, items[k], forms[k], path + [VInt(k)]) == (states[k + 1], Ok(loaded[k]))
  }

  /** `n` copies of the form `t`. */
  function Copies(t: TypeForm, n: nat): (r: seq<TypeForm>)
    ensures |r| == n && forall k :: 0 <= k < n ==> r[k] == t
  {
    seq(n, _ => t)
  }

  /** The item loop from item `i` on, as `LoadsInOrder` says it for the
      items from `i` on. */
  ghost predicate LoadsFrom(cfg: Config, items: seq<Value>, forms: ItemForms, path: Path, i: nat,
                            states: seq<EngineState>, loaded: seq<Value>)
  {
    && i <= |items| && |states| == |items| + 1 && |loaded| == |items|
    && forall k :: i <= k < |items| ==>
         && Sound(states[k], cfg) && FormFor(forms, k).Ok?
         && LoadF(states[k], cfg, items[k], FormFor(forms, k).value, path + [VInt(k)]) == (states[k + 1], Ok(loaded[k]))
  }

  /** A successful pass of the item loop loaded item `i` with its form at
      `path + (i,)`. */
  lemma ItemStepLoads(st: EngineState, cfg: Config, items: seq<Value>, forms: ItemForms, path: Path,
                      bound: nat, i: nat, hashed: bool, loaded: seq<Value>)
    requires i < |items| && FormsBelow(forms, bound) && Sound(st, cfg)
    ensures var o := ItemStep(st, cfg, items, forms, path, bound, i, hashed, loaded);
      o.1.Ok? ==> && FormFor(forms, i).Ok?
                  && LoadF(st, cfg, items[i], FormFor(forms, i).value, path + [VInt(i)]) == (o.0, Ok(o.1.value[|loaded|]))
  {
  }

  /** When the item loop succeeds, every item from `i` on was loaded with its
      form at its own position of the path, one after the other, and the loop
      ends in the last of those states. */
  lemma {:induction false} ItemsLoadInOrder(st: EngineState, cfg: Config, items: seq<Value>, forms: ItemForms,
                                            path: Path, bound: nat, i: nat, hashed: bool, loaded: seq<Value>)
    requires i <= |items| && |loaded| == i && FormsBelow(forms, bound) && Sound(st, cfg)
    ensures var out := LoadItemsF(st, cfg, items, forms, path, bound, i, hashed, loaded);
      out.1.Ok? ==> exists states: seq<EngineState> ::
        LoadsFrom(cfg, items, forms, path, i, states, out.1.value) && states[i] == st && states[|items|] == out.0
    decreases |items| - i
  {
    var out := LoadItemsF(st, cfg, items, forms, path, bound, i, hashed, loaded);
    if out.1.Ok? {
      if i == |items| {
        var states := seq(|items| + 1, _ => st);
        assert LoadsFrom(cfg, items, forms, path, i, states, out.1.value) && states[i] == st && states[|items|] == out.0;
      } else {
        var o := ItemStep(st, cfg, items, forms, path, bound, i, hashed, loaded);
        assert out == LoadItemsF(o.0, cfg, items, forms, path, bound, i + 1, hashed, o.1.value);
        ItemStepLoads(st, cfg, items, forms, path, bound, i, hashed, loaded);
        ItemsLoadInOrder(o.0, cfg, items, forms, path, bound, i + 1, hashed, o.1.value);
        var rest :| LoadsFrom(cfg, items, forms, path, i + 1, rest, out.1.value) && rest[i + 1] == o.0 && rest[|items|] == out.0;
        assert o.1.value[i] == out.1.value[i] by {
          assert o.1.value == out.1.value[..i + 1];
        }
        var states := rest[i := st];
        forall k | i <= k < |items|
          ensures && Sound(states[k], cfg) && FormFor(forms, k).Ok?
                  && LoadF(states[k], cfg, items[k], FormFor(forms, k).value, path + [VInt(k)])
                     == (states[k + 1], Ok(out.1.value[k]))
        {
          if k > i {
            assert states[k] == rest[k] && states[k + 1] == rest[k + 1];
          }
        }
        assert LoadsFrom(cfg, items, forms, path, i, states, out.1.value) && states[i] == st && states[|items|] == out.0;
      }
    }
  }

  /** A successful item loop from the first item, with the forms spelled out. */
  lemma ItemsLoaded(st: EngineState, cfg: Config, items: seq<Value>, forms: ItemForms, fs: seq<TypeForm>,
                    path: Path, bound: nat, hashed: bool)
    requires FormsBelow(forms, bound) && Sound(st, cfg)
    requires |fs| == |items| && forall k :: 0 <= k < |items| ==> FormFor(forms, k) == Ok(fs[k])
    ensures var out := LoadItemsF(st, cfg, items, forms, path, bound, 0, hashed, []);
      out.1.Ok? ==> exists states :: LoadsInOrder(cfg, items, fs, path, states, out.1.value)
                                     && states[0] == st && states[|items|] == out.0
  {
    var out := LoadItemsF(st, cfg, items, forms, path, bound, 0, hashed, []);
    if out.1.Ok? {
      ItemsLoadInOrder(st, cfg, items, forms, path, bound, 0, hashed, []);
      var states :| LoadsFrom(cfg, items, forms, path, 0, states, out.1.value) && states[0] == st && states[|items|] == out.0;
      assert LoadsInOrder(cfg, items, fs, path, states, out.1.value);
    }
  }

  /** What `load_simple_collection` returns is an instance of the form's
      origin built from the items of the value, item `k` loaded with the
      single argument at `path + (k,)`, one after the other; a set keeps one
      of equal loaded items. It only gets that far with exactly the number of
      arguments the origin expects. */
  lemma CollectionResult(st: EngineState, cfg: Config, v: Value, tf: TypeForm, path: Path)
    requires Sound(st, cfg)
    ensures var o := CollectionF(st, cfg, v, tf, path);
      o.1.Ok? ==> tf.origin.Some? && Iterate(v).Some? && CollectionFits(tf.origin.value, |Iterate(v).value|, o.1.value)
    ensures var o := CollectionF(st, cfg, v, tf, path);
      o.1.Ok? ==>
        && tf.origin.Some? && tf.args.ArgsOf? && |tf.args.items| == ExpectedArgs(tf.origin.value)
        && Iterate(v).Some?
        && exists states, loaded ::
             && LoadsInOrder(cfg, Iterate(v).value, Copies(tf.args.items[0], |Iterate(v).value|), path, states, loaded)
             && states[0] == st && o.0 == states[|Iterate(v).value|]
             && o.1 == Construct(tf.origin.value, loaded)
  {
    var o := CollectionF(st, cfg, v, tf, path);
    if o.1.Ok? {
      var items := Iterate(v).value;
      var arg := tf.args.items[0];
      ArgSmaller(tf, 0);
      ItemsLoaded(st, cfg, items, Homogeneous(Some(arg)), Copies(arg, |items|), path, Size(tf), Hashes(tf.origin.value));
    }
  }

  /** A collection form with no origin, no arguments, or a number of arguments
      other than the origin expects (two for `tuple`, one otherwise) is a value
      error for this step; the form is still memoised. */
  lemma CollectionArity(st: EngineState, cfg: Config, v: Value, tf: TypeForm, path: Path)
    requires Sound(st, cfg) && Resolve(st.loaders, cfg.mappers, tf) == Some(Plain(LoadSimpleCollection))
    requires tf.origin.None? || tf.args.NoArgs? || |tf.args.items| != ExpectedArgs(tf.origin.value)
    ensures LoadF(st, cfg, v, tf, path) == (st.(loaders := Memoised(st.loaders, cfg.mappers, tf)), Err(Invalid(v, tf, path)))
  {
    var st1 := st.(loaders := Memoised(st.loaders, cfg.mappers, tf));
    assert ApplyF(st1, cfg, Plain(LoadSimpleCollection), v, tf, path) == CollectionF(st1, cfg, v, tf, path);
  }

  /** With positional forms, the item loop only succeeds when no item is left
      without a form. */
  lemma {:induction false} PositionalWithin(st: EngineState, cfg: Config, items: seq<Value>, forms: seq<Option<TypeForm>>,
                                            path: Path, bound: nat, i: nat, hashed: bool, loaded: seq<Value>)
    requires i <= |items| && i <= |forms| && FormsBelow(Positional(forms), bound) && Sound(st, cfg)
    ensures LoadItemsF(st, cfg, items, Positional(forms), path, bound, i, hashed, loaded).1.Ok? ==> |items| <= |forms|
    decreases |items| - i
  {
    if i < |items| {
      var o := ItemStep(st, cfg, items, Positional(forms), path, bound, i, hashed, loaded);
      if o.1.Ok? {
        PositionalWithin(o.0, cfg, items, forms, path, bound, i + 1, hashed, o.1.value);
      }
    }
  }

  /** `load_tuple` returns a tuple of the items of the value, item `k` loaded
      with the argument at position `k` at `path + (k,)`, one after the other;
      a value with more items than the form has arguments fails. */
  lemma TupleResult(st: EngineState, cfg: Config, v: Value, tf: TypeForm, path: Path)
    requires Sound(st, cfg)
    ensures var o := TupleF(st, cfg, v, tf, path);
      o.1.Ok? ==> && tf.args.ArgsOf? && Iterate(v).Some? && o.1.value.VTuple?
                  && |o.1.value.items| == |Iterate(v).value| <= |tf.args.items|
    ensures var o := TupleF(st, cfg, v, tf, path);
      o.1.Ok? ==>
        && tf.args.ArgsOf? && Iterate(v).Some? && |Iterate(v).value| <= |tf.args.items|
        && exists states, loaded ::
             && LoadsInOrder(cfg, Iterate(v).value, tf.args.items[..|Iterate(v).value|], path, states, loaded)
             && states[0] == st && o.0 == states[|Iterate(v).value|]
             && o.1 == Ok(VTuple(loaded))
  {
    var o := TupleF(st, cfg, v, tf, path);
    if o.1.Ok? {
      var args := tf.args.items;
      var items := Iterate(v).value;
      forall i | 0 <= i < |args| ensures Size(args[i]) < Size(tf) {
        ArgSmaller(tf, i);
      }
      PositionalWithin(st, cfg, items, Somes(args), path, Size(tf), 0, false, []);
      ItemsLoaded(st, cfg, items, Positional(Somes(args)), args[..|items|], path, Size(tf), false);
    }
  }

  /** A newtype loads as its supertype at the same path; a failure to load the
      supertype is a value error, reported for the newtype when the supertype
      had no converter. */
  lemma NewtypeAsSupertype(st: EngineState, cfg: Config, v: Value, tf: TypeForm, path: Path)
    requires Sound(st, cfg) && tf in st.loaders && st.loaders[tf] == Plain(LoadNewtype) && tf.kind.KNewType?
    ensures var inner := LoadF(st, cfg, v, tf.kind.supertype, path);
      LoadF(st, cfg, v, tf, path) == (inner.0, if inner.1.Ok? then inner.1 else Err(Wrap(inner.1.error, v, tf, path)))
  {
    ExactEntryWins(st.loaders, cfg.mappers, tf);
    assert st.(loaders := st.loaders) == st;
    assert ApplyF(st, cfg, Plain(LoadNewtype), v, tf, path) == ConvertF(st, cfg, LoadNewtype, v, tf, path);
    SupertypeSmaller(tf);
    assert ConvertF(st, cfg, LoadNewtype, v, tf, path) == LoadF(st, cfg, v, tf.kind.supertype, path);
  }

  // ---------------------------------------------------------------------------
  // Dataclasses and the alias cache

  /** Python gives the fields of a dataclass distinct names. */
  predicate DistinctNames(fields: seq<Field>) {
    forall i, j :: 0 <= i < j < |fields| ==> fields[i].name != fields[j].name
  }

  /** The key a field is read under: its metadata entry for the alias field,
      else its name. */
  function AliasOf(f: Field, aliasField: string): string {
    if aliasField in f.metadata then f.metadata[aliasField] else f.name
  }

  /** What one field contributes: itself bound to the input's value under
      its key, or nothing when the input lacks the key. */
  function FieldBinding(f: Field, aliasField: string, entries: seq<Entry>): (r: seq<KwArg>)
    ensures |r| <= 1
  {
    match Lookup(entries, VStr(AliasOf(f, aliasField)))
    case None => []
    case Some(x) => [KwArg(f.name, x)]
  }

  /** The keyword arguments `load_dataclass` passes, without any cache: in
      field order, each field whose key is in the input, bound to the raw value
      under that key. */
  function BoundFields(fields: seq<Field>, aliasField: string, entries: seq<Entry>): (r: seq<KwArg>)
    ensures |r| <= |fields|
  {
    if fields == [] then [] else FieldBinding(fields[0], aliasField, entries) + BoundFields(fields[1..], aliasField, entries)
  }

  /** `load_dataclass` described without the cache: a field-less dataclass is
      built from nothing, any other needs a mapping, and the class is called
      with the bound fields, failing when a required one is missing. */
  function DataclassReference(aliasField: string, v: Value, tf: TypeForm): Result<Value, EngineError> {
    if !tf.kind.KDataclass? then Err(Foreign("TypeError"))
    else if tf.kind.fields == [] then Ok(VRecord(tf, []))
    else if !v.VDict? then Err(Foreign("AttributeError"))
    else
      var kwargs := BoundFields(tf.kind.fields, aliasField, v.entries);
      if RequiredBound(tf.kind.fields, kwargs) then Ok(VRecord(tf, kwargs)) else Err(Foreign("TypeError"))
  }

  /** A field's alias, whether cached or not, is the key `AliasOf` names. */
  lemma FieldAlias(cache: AliasCache, aliasField: string, tf: TypeForm, path: Path, i: nat)
    requires tf.kind.KDataclass? && DistinctNames(tf.kind.fields) && i < |tf.kind.fields|
    requires AliasesSound(cache, aliasField)
    ensures ResolveAliasF(cache, aliasField, tf, path, tf.kind.fields[i].name).1
      == Ok(AliasOf(tf.kind.fields[i], aliasField))
  {
    var fields := tf.kind.fields;
    var f := FieldNamed(fields, fields[i].name);
    var j :| 0 <= j < |fields| && fields[j] == f.value;
    assert j == i;
  }

  /** One pass of the loop binds what the field contributes. */
  lemma FieldStepBinds(cache: AliasCache, aliasField: string, v: Value, tf: TypeForm, path: Path,
                       i: nat, kwargs: seq<KwArg>)
    requires tf.kind.KDataclass? && DistinctNames(tf.kind.fields) && i < |tf.kind.fields|
    requires AliasesSound(cache, aliasField) && v.VDict?
    ensures FieldStep(cache, aliasField, v, tf, path, tf.kind.fields[i].name, kwargs).1
      == Ok(kwargs + FieldBinding(tf.kind.fields[i], aliasField, v.entries))
  {
    FieldAlias(cache, aliasField, tf, path, i);
    var f := tf.kind.fields[i];
    match Lookup(v.entries, VStr(AliasOf(f, aliasField))) {
      case None => assert kwargs + [] == kwargs;
      case Some(x) =>
    }
  }

  /** From field `i` on, the loop binds exactly what the reference binds,
      whatever the cache holds. */
  lemma {:induction false} FieldsAgree(cache: AliasCache, aliasField: string, v: Value, tf: TypeForm, path: Path,
                                       i: nat, kwargs: seq<KwArg>)
    requires tf.kind.KDataclass? && DistinctNames(tf.kind.fields) && i <= |tf.kind.fields|
    requires AliasesSound(cache, aliasField) && v.VDict?
    ensures LoadFieldsF(cache, aliasField, v, tf, path, tf.kind.fields, i, kwargs).1
      == Ok(kwargs + BoundFields(tf.kind.fields[i..], aliasField, v.entries))
    decreases |tf.kind.fields| - i
  {
    var fields := tf.kind.fields;
    if i == |fields| {
      assert fields[i..] == [];
      assert kwargs + [] == kwargs;
    } else {
      FieldStepBinds(cache, aliasField, v, tf, path, i, kwargs);
      var o := FieldStep(cache, aliasField, v, tf, path, fields[i].name, kwargs);
      var head := FieldBinding(fields[i], aliasField, v.entries);
      var rest := BoundFields(fields[i + 1..], aliasField, v.entries);
      assert LoadFieldsF(cache, aliasField, v, tf, path, fields, i, kwargs)
        == LoadFieldsF(o.0, aliasField, v, tf, path, fields, i + 1, kwargs + head);
      FieldsAgree(o.0, aliasField, v, tf, path, i + 1, kwargs + head);
      BoundFieldsSplit(fields, i, aliasField, v.entries);
      AppendAssoc(kwargs, head, rest);
    }
  }

  lemma AppendAssoc<T>(a: seq<T>, b: seq<T>, c: seq<T>)
    ensures a + b + c == a + (b + c)
  {
  }

  lemma BoundFieldsSplit(fields: seq<Field>, i: nat, aliasField: string, entries: seq<Entry>)
    requires i < |fields|
    ensures BoundFields(fields[i..], aliasField, entries)
      == FieldBinding(fields[i], aliasField, entries) + BoundFields(fields[i + 1..], aliasField, entries)
  {
    assert fields[i..][1..] == fields[i + 1..];
  }

  /** `load_dataclass` computes the reference, whatever the alias cache holds:
      the cache changes no result. */
  lemma DataclassCacheTransparent(cache: AliasCache, aliasField: string, v: Value, tf: TypeForm, path: Path)
    requires AliasesSound(cache, aliasField)
    requires tf.kind.KDataclass? ==> DistinctNames(tf.kind.fields)
    ensures LoadDataclassF(cache, aliasField, v, tf, path).1 == DataclassReference(aliasField, v, tf)
  {
    if tf.kind.KDataclass? && tf.kind.fields != [] {
      var fields := tf.kind.fields;
      if v.VDict? {
        FieldsAgree(cache, aliasField, v, tf, path, 0, []);
        assert fields[0..] == fields;
        var kwargs := BoundFields(fields, aliasField, v.entries);
        assert [] + kwargs == kwargs;
      } else {
        FieldAlias(cache, aliasField, tf, path, 0);
      }
    }
  }

  /** A resolved alias is cached: asking again returns it from the cache and
      changes nothing. */
  lemma AliasResolvedOnce(cache: AliasCache, aliasField: string, tf: TypeForm, path: Path, name: string)
    requires AliasesSound(cache, aliasField)
    ensures var o := ResolveAliasF(cache, aliasField, tf, path, name);
      o.1.Ok? ==> (tf, path, name) in o.0 && ResolveAliasF(o.0, aliasField, tf, path, name) == o
  {
  }

  // ---------------------------------------------------------------------------
  // Specialisation

  /** Until a key has been seen more than `Threshold` times, the call stores
      the new counter and runs the generic converter. */
  lemma GenericWhileCounting(st: EngineState, cfg: Config, s: SpecializingLoader, v: Value, tf: TypeForm, path: Path)
    requires Sound(st, cfg)
    requires var e := EntryAt(EntriesOf(st, s), (tf, path)); (e.None? || e.value.Count?) && NextCount(e) <= Threshold
    ensures var e := EntryAt(EntriesOf(st, s), (tf, path));
      SpecCallF(st, cfg, s, v, tf, path)
        == ConvertF(st.(spec := st.spec[s := EntriesOf(st, s)[(tf, path) := Count(NextCount(e))]]), cfg, s.base, v, tf, path)
  {
  }

  /** Once stored, the routine runs on every call for its key and the
      specializer's state is left as it is. The routine is the one the
      specializer generates for the key. */
  lemma StoredRoutineRuns(st: EngineState, cfg: Config, s: SpecializingLoader, v: Value, tf: TypeForm, path: Path)
    requires Sound(st, cfg) && s in st.spec && (tf, path) in st.spec[s] && st.spec[s][(tf, path)].Compiled?
    ensures var r := st.spec[s][(tf, path)].routine;
      && Specialize(s.specializer, tf, path) == Ok(r)
      && RoutineBelow(r, Size(tf))
      && SpecCallF(st, cfg, s, v, tf, path) == RunRoutineF(st, cfg, r, v, tf, path)
  {
    var entries := st.spec[s];
    var key := (tf, path);
    assert WfEntries(s.specializer, entries);
    assert Specialize(s.specializer, tf, path) == Ok(entries[key].routine);
    SpecializedBelow(s.specializer, tf, path);
    UpdateSame(entries, key);
    UpdateSame(st.spec, s);
    assert st.(spec := st.spec) == st;
  }

  /** Every argument without a qualname spoils the routine; with all of them
      named, the generator succeeds. */
  lemma {:induction false} AllNamedOf(items: seq<(string, TypeForm)>, n: nat)
    requires n <= |items| && forall i :: 0 <= i < n ==> items[i].1.qualname != ""
    ensures Specializers.AllNamed(items, n)
    decreases n
  {
    if n > 0 {
      AllNamedOf(items, n - 1);
    }
  }

  /** The routine for a tuple of builtin classes does what `load_tuple` does
      for every value of the right length (and for anything not iterable). */
  lemma TupleRoutineTransparent(st: EngineState, cfg: Config, v: Value, tf: TypeForm, path: Path)
    requires Sound(st, cfg) && tf.origin.Some? && tf.args.ArgsOf? && |tf.args.items| > 0
    requires forall i :: 0 <= i < |tf.args.items| ==> BuiltinByName(tf.args.items[i].qualname) == Some(tf.args.items[i])
    requires Iterate(v).Some? ==> |Iterate(v).value| == |tf.args.items|
    ensures var plan := Specializers.TuplePlan(tf, path);
      && plan.Ok?
      && RoutineBelow(plan.value, Size(tf))
      && RunRoutineF(st, cfg, plan.value, v, tf, path) == TupleF(st, cfg, v, tf, path)
  {
    var args := tf.args.items;
    var items := Specializers.UnpackItems(args);
    forall i | 0 <= i < |items| ensures items[i].1.qualname != "" {
      assert items[i].1 == args[i];
    }
    AllNamedOf(items, |items|);
    SpecializedBelow(SpecializeLoadTupleOf(Specializers.Tressed), tf, path);
    assert Specializers.ItemForms(args) == Somes(args);
  }

  /** The routine rejects a value of another length with a `ValueError`
      (the unpacking), which the generic converter does not check. */
  lemma RoutineChecksLength(st: EngineState, cfg: Config, v: Value, tf: TypeForm, path: Path)
    requires Sound(st, cfg) && Specializers.TuplePlan(tf, path).Ok? && |tf.args.items| > 0
    requires Iterate(v).Some? && |Iterate(v).value| != |tf.args.items|
    ensures var plan := Specializers.TuplePlan(tf, path);
      && RoutineBelow(plan.value, Size(tf))
      && RunRoutineF(st, cfg, plan.value, v, tf, path) == (st, Err(Foreign("ValueError")))
  {
    SpecializedBelow(SpecializeLoadTupleOf(Specializers.Tressed), tf, path);
  }

  /** Whether the routine's text names the element type so that it evaluates
      back to it: tressed renders the whole form, gluetypes only its name. */
  predicate ElementEvaluates(package: Specializers.Package, arg: TypeForm) {
    if package == Specializers.Tressed then Specializers.Evaluable(arg)
    else BuiltinByName(arg.qualname) == Some(arg)
  }

  /** The shape a collection routine collects its items into for the origins
      whose class has a display or a builtin name. */
  function ShapeFor(origin: TypeForm): Specializers.Shape {
    if origin == ListClass then Specializers.ListShape
    else if origin == SetClass then Specializers.SetShape
    else Specializers.CallShape(Some(origin))
  }

  /** For a list, set or homogeneous tuple whose element type the text can
      name, the routine loads every item with that element type at the
      form's path. */
  lemma CollectionPlanFor(p: Specializers.Package, tf: TypeForm, path: Path)
    requires tf.origin == Some(ListClass) || tf.origin == Some(SetClass) || tf.origin == Some(TupleClass)
    requires tf.args.ArgsOf? && |tf.args.items| > 0
    requires ElementEvaluates(p, tf.args.items[0])
    ensures Specializers.CollectionPlan(tf, path, p, Specializers.Corrected)
      == Ok(Specializers.Each(ShapeFor(tf.origin.value), Some(tf.args.items[0]), path))
  {
    if p == Specializers.Tressed {
      Specializers.RenderRoundTrip(tf.args.items[0]);
    }
  }

  /** The routine for a list, set or homogeneous tuple whose element type the
      text can name does what `load_simple_collection` does, for every value. */
  lemma CollectionRoutineTransparent(st: EngineState, cfg: Config, p: Specializers.Package,
                                     v: Value, tf: TypeForm, path: Path)
    requires Sound(st, cfg)
    requires tf.origin == Some(ListClass) || tf.origin == Some(SetClass) || tf.origin == Some(TupleClass)
    requires tf.args.ArgsOf? && |tf.args.items| == ExpectedArgs(tf.origin.value)
    requires ElementEvaluates(p, tf.args.items[0])
    ensures var plan := Specializers.CollectionPlan(tf, path, p, Specializers.Corrected);
      && plan.Ok?
      && RoutineBelow(plan.value, Size(tf))
      && RunRoutineF(st, cfg, plan.value, v, tf, path) == CollectionF(st, cfg, v, tf, path)
  {
    CollectionPlanFor(p, tf, path);
    SpecializedBelow(SpecializeLoadSimpleCollectionOf(p, Specializers.Corrected), tf, path);
    var r := Specializers.Each(ShapeFor(tf.origin.value), Some(tf.args.items[0]), path);
    EachMatchesCollection(st, cfg, r, v, tf, path);
  }

  /** The routine the collection specializer as written generates for a
      frozenset builds a `set`, where `load_simple_collection` builds a
      `frozenset`: once a key is specialised the loader returns another type. */
  lemma FrozenSetRoutineLoadsSet(st: EngineState, cfg: Config, p: Specializers.Package, v: Value, tf: TypeForm, path: Path)
    requires Sound(st, cfg) && tf.origin == Some(FrozenSetClass)
    requires Specializers.CollectionPlan(tf, path, p, Specializers.AsWritten).Ok?
    ensures var plan := Specializers.CollectionPlan(tf, path, p, Specializers.AsWritten).value;
      && RoutineBelow(plan, Size(tf))
      && (RunRoutineF(st, cfg, plan, v, tf, path).1.Ok? ==> RunRoutineF(st, cfg, plan, v, tf, path).1.value.VSet?)
    ensures CollectionF(st, cfg, v, tf, path).1.Ok? ==> CollectionF(st, cfg, v, tf, path).1.value.VFrozenSet?
  {
    SpecializedBelow(SpecializeLoadSimpleCollectionOf(p, Specializers.AsWritten), tf, path);
    assert Specializers.Delimiters(FrozenSetClass, Specializers.AsWritten).value.2 == Specializers.SetShape;
    CollectionResult(st, cfg, v, tf, path);
  }

  /** Running the collecting routine is the converter, item loop and result. */
  lemma EachMatchesCollection(st: EngineState, cfg: Config, r: Specializers.Behaviour, v: Value, tf: TypeForm, path: Path)
    requires Sound(st, cfg)
    requires tf.origin == Some(ListClass) || tf.origin == Some(SetClass) || tf.origin == Some(TupleClass)
    requires tf.args.ArgsOf? && |tf.args.items| == ExpectedArgs(tf.origin.value)
    requires r == Specializers.Each(ShapeFor(tf.origin.value), Some(tf.args.items[0]), path)
    requires RoutineBelow(r, Size(tf))
    ensures RunRoutineF(st, cfg, r, v, tf, path) == CollectionF(st, cfg, v, tf, path)
  {
    if Iterate(v).Some? {
      var origin := tf.origin.value;
      var items := Iterate(v).value;
      ArgSmaller(tf, 0);
      var o := LoadItemsF(st, cfg, items, Homogeneous(Some(tf.args.items[0])), path, Size(tf), 0, Hashes(origin), []);
      assert r.shape.SetShape? == Hashes(origin);
      if o.1.Ok? {
        assert Collect(r.shape, o.1.value) == Construct(origin, o.1.value);
      }
    }
  }

  // ---------------------------------------------------------------------------
  // The exceptions tressed's `_load` raises

  /** The exception classes `_load` raises. */
  datatype ErrorClass = TressedTypeErrorClass | TressedValueErrorClass

  /** The positional parameters each `__init__` requires: `value, type_path`,
      and `value, type_form, type_path`. */
  function RequiredArgs(c: ErrorClass): nat {
    match c
    case TressedTypeErrorClass => 2
    case TressedValueErrorClass => 3
  }

  function ClassName(c: ErrorClass): string {
    match c
    case TressedTypeErrorClass => "TressedTypeError"
    case TressedValueErrorClass => "TressedValueError"
  }

  /** What `raise C(...)` raises with `n` positional arguments: the new
      instance, or the `TypeError` of a call that misses required ones. */
  function Raised(c: ErrorClass, n: nat): (name: string)
    ensures name == "TypeError" <==> n < RequiredArgs(c)
  {
    if n < RequiredArgs(c) then "TypeError" else ClassName(c)
  }

  /** The class `_load` raises for a failure: the type error when no converter
      handles the form, the value error otherwise. */
  function ClassOf(e: EngineError): ErrorClass {
    if e.Unhandled? then TressedTypeErrorClass else TressedValueErrorClass
  }

  /** As written, `_load` passes its formatted message as the only argument. */
  function RaisedAsWritten(e: EngineError): string {
    Raised(ClassOf(e), 1)
  }

  /** With the arguments the constructors declare. */
  function RaisedDeclared(e: EngineError): string {
    Raised(ClassOf(e), RequiredArgs(ClassOf(e)))
  }

  /** As written, no failure reaches the caller as a tressed exception: each
      constructor call itself raises a plain `TypeError`. */
  lemma EveryFailureIsTypeErrorAsWritten(e: EngineError)
    ensures RaisedAsWritten(e) == "TypeError"
    ensures RaisedDeclared(e) != "TypeError"
  {
  }

  /** The engine state of a fresh `Loader()`: the default exact table, empty
      caches and no specializing entries. */
  function FreshState(): EngineState {
    EngineState(DefaultLoaders(), map[], map[])
  }

  /** tressed's `Loader()`. */
  function TressedDefaults(): Config {
    Config(Specializers.Tressed, DefaultMappers(Specializers.Tressed, Plain(LoadTuple), Plain(LoadSimpleCollection)), "alias")
  }

  /** `Loader().load("x", int)`: the value error the engine means to raise
      comes out as a `TypeError`. */
  lemma StringForIntAsWritten()
    ensures var out := LoadF(FreshState(), TressedDefaults(), VStr("x"), IntClass, []);
      && out.1 == Err(Invalid(VStr("x"), IntClass, []))
      && RaisedAsWritten(out.1.error) == "TypeError"
      && RaisedDeclared(out.1.error) == "TressedValueError"
  {
    ScalarExact(FreshState(), TressedDefaults(), VStr("x"), IntClass, []);
  }

  /** With the declared arguments, a failed load raises `TressedTypeError`
      exactly when no converter handles the type form, and
      `TressedValueError` otherwise. */
  lemma FailureRaisesDeclaredError(st: EngineState, cfg: Config, v: Value, tf: TypeForm, path: Path)
    requires Sound(st, cfg)
    ensures var out := LoadF(st, cfg, v, tf, path);
      out.1.Err? ==>
        && (RaisedDeclared(out.1.error) == "TressedTypeError" <==> Resolve(st.loaders, cfg.mappers, tf).None?)
        && (RaisedDeclared(out.1.error) == "TressedTypeError" || RaisedDeclared(out.1.error) == "TressedValueError")
  {
    LoadFailureKinds(st, cfg, v, tf, path);
  }

  // ---------------------------------------------------------------------------
  // The imports of `_default_type_mappers`

  /** As written, gluetypes' `Loader()` without a mapper table fails while
      building the default one. */
  lemma GlueDefaultMappersImportFails()
    ensures ImportFrom(GlueLoadersModule, GlueMapperImportsAsWritten) == Err("ImportError")
  {
    assert BoundTo(GlueLoadersModule, "load_simple_collection").None?;
  }

  /** As written, building the default mapper table only fails for
      gluetypes, so `Loader()` without a mapper table only fails there. */
  lemma DefaultMapperImportsFailForGluetypes(package: Specializers.Package)
    ensures DefaultMapperImports(package).Err? <==> package == Specializers.Gluetypes
  {
    GlueDefaultMappersImportFails();
    DefaultMappersImport();
  }

  /** With the intended name, both packages import the converters their
      default tables install. */
  lemma DefaultMappersImport()
    ensures ImportFrom(GlueLoadersModule, GlueMapperImports) == Ok([LoadSimpleCollection, LoadTuple])
    ensures ImportFrom(TressedLoadersModule, TressedMapperImports) == Ok([LoadDataclass, LoadSimpleCollection, LoadTuple])
  {
    var g := GlueMapperImports;
    assert BoundTo(GlueLoadersModule, g[0]) == Some(LoadSimpleCollection);
    assert BoundTo(GlueLoadersModule, g[1]) == Some(LoadTuple);
    var r := ImportFrom(GlueLoadersModule, g);
    assert r.value == [LoadSimpleCollection, LoadTuple];
    var t := TressedMapperImports;
    assert BoundTo(TressedLoadersModule, t[0]) == Some(LoadDataclass);
    assert BoundTo(TressedLoadersModule, t[1]) == Some(LoadSimpleCollection);
    assert BoundTo(TressedLoadersModule, t[2]) == Some(LoadTuple);
    var q := ImportFrom(TressedLoadersModule, t);
    assert q.value == [LoadDataclass, LoadSimpleCollection, LoadTuple];
  }
}
