/** Alias functions: how a field name becomes the key looked up in (or written
    to) serialised data. An alias function is called with one, two or three
    positional arguments (the name, the type form holding the field, the type
    path); `normalize_alias_fn` turns each into a three-argument function, and
    `compose_alias_fn` tries several in order. The package `tressed.alias` and
    the single module `tressed/alias.py` carry the same functions and differ
    only in how `normalize_alias_fn` inspects its argument. */
module AliasFunctions {
  import opened Wrappers
  import opened Text
  import opened Forms
  import opened TypePaths
  import CaseConversion

  /** A positional argument of an alias function call. */
  datatype Arg = NameArg(name: string) | FormArg(form: TypeForm) | PathArg(path: Path)

  /** The result of calling an alias function: an alias, `None`, or an exception. */
  datatype Outcome = Found(alias: string) | NotFound | Raised(reason: string)

  /** What inspection finds on a callable: its own `__code__` (with `co_argcount`
      and whether it is a bound method), only a `__call__` method with code (a
      callable instance; `__call__` is bound), or no code at all (a builtin). */
  datatype CodeSource = OwnCode(argCount: nat, bound: bool) | CallCode(argCount: nat) | NoCode

  /** A user-supplied alias function: its inspectable code and its behaviour on
      a sequence of positional arguments. */
  datatype AliasFn = AliasFn(code: CodeSource, body: seq<Arg> -> Outcome)

  datatype Arity = One | Two | Three

  /** A `TypePathAliasFn`: the original function, called with the first
      `arity` of (name, type form, type path). */
  datatype PathAliasFn = PathAliasFn(arity: Arity, target: AliasFn)

  /** Which copy of `normalize_alias_fn`: the package one falls back to
      `__call__`, the single-module one reads `__code__` directly. */
  datatype Source = Package | SingleModule

  function CallArgs(name: string, tf: TypeForm, path: Path): (args: seq<Arg>)
    ensures |args| == 3
  {
    [NameArg(name), FormArg(tf), PathArg(path)]
  }

  /** The arguments a normalised function passes on to the original one. */
  function Passed(arity: Arity, args: seq<Arg>): (r: seq<Arg>)
    requires |args| == 3
    ensures r == args[..match arity case One => 1 case Two => 2 case Three => 3]
  {
    match arity
    case One => args[..1]
    case Two => args[..2]
    case Three => args
  }

  /** Calling a normalised alias function with (name, type form, type path). */
  function Apply(f: PathAliasFn, args: seq<Arg>): Outcome
    requires |args| == 3
  {
    f.target.body(Passed(f.arity, args))
  }

  /** The positional argument count `normalize_alias_fn` computes, or the
      exception it raises before getting one. */
  function ArgCount(code: CodeSource, source: Source): Result<int, string> {
    match code
    case OwnCode(n, bound) => Ok(if bound then n - 1 else n)
    case CallCode(n) =>
      if source == Package then Ok(n - 1) else Err("AttributeError")
    case NoCode =>
      if source == Package then Err("ValueError") else Err("AttributeError")
  }

  /** `normalize_alias_fn`. */
  function Normalize(f: AliasFn, source: Source): (r: Result<PathAliasFn, string>) {
    var n :- ArgCount(f.code, source);
    if n == 3 then Ok(PathAliasFn(Three, f))
    else if n == 2 then Ok(PathAliasFn(Two, f))
    else if n == 1 then Ok(PathAliasFn(One, f))
    else Err("AssertionError")
  }

  /** Normalisation succeeds exactly for one, two or three arguments besides a
      bound `self`, and then keeps exactly that many of the call's arguments. */
  lemma NormalizeByArity(f: AliasFn, source: Source, name: string, tf: TypeForm, path: Path)
    ensures Normalize(f, source).Ok? <==>
      ArgCount(f.code, source).Ok? && 1 <= ArgCount(f.code, source).value <= 3
    ensures Normalize(f, source).Ok? ==>
      var args := CallArgs(name, tf, path);
      Apply(Normalize(f, source).value, args) == f.body(args[..ArgCount(f.code, source).value])
  {
  }

  /** A two-argument function ignores the path, a one-argument function also
      ignores the type form. */
  lemma NormalizedIgnoresUnusedArguments(f: AliasFn, source: Source, name: string,
                                         tf1: TypeForm, tf2: TypeForm, path1: Path, path2: Path)
    requires Normalize(f, source).Ok?
    ensures ArgCount(f.code, source).value <= 2 ==>
      Apply(Normalize(f, source).value, CallArgs(name, tf1, path1))
        == Apply(Normalize(f, source).value, CallArgs(name, tf1, path2))
    ensures ArgCount(f.code, source).value == 1 ==>
      Apply(Normalize(f, source).value, CallArgs(name, tf1, path1))
        == Apply(Normalize(f, source).value, CallArgs(name, tf2, path2))
  {
    var g := Normalize(f, source).value;
    match g.arity
    case One =>
      assert CallArgs(name, tf1, path1)[..1] == CallArgs(name, tf2, path2)[..1];
      assert CallArgs(name, tf1, path1)[..1] == CallArgs(name, tf1, path2)[..1];
    case Two =>
      assert CallArgs(name, tf1, path1)[..2] == CallArgs(name, tf1, path2)[..2];
    case Three =>
  }

  /** A bound method's `self` is not counted: binding adds one to `co_argcount`
      and normalisation sees the same arity. */
  lemma BoundSelfNotCounted(n: nat, body: seq<Arg> -> Outcome, source: Source)
    ensures var bound := Normalize(AliasFn(OwnCode(n + 1, true), body), source);
            var plain := Normalize(AliasFn(OwnCode(n, false), body), source);
            bound.Ok? == plain.Ok? && (bound.Ok? ==> bound.value.arity == plain.value.arity)
  {
  }

  /** Where normalisation fails: a callable without code is rejected with a
      `ValueError` by the package, and anything without its own `__code__` with
      an `AttributeError` by the single module; an unsupported count trips the
      `assert False`. */
  lemma NormalizeErrors(f: AliasFn, source: Source)
    ensures f.code.NoCode? && source == Package ==> Normalize(f, source) == Err("ValueError")
    ensures !f.code.OwnCode? && source == SingleModule ==> Normalize(f, source) == Err("AttributeError")
    ensures ArgCount(f.code, source).Ok? && !(1 <= ArgCount(f.code, source).value <= 3) ==>
      Normalize(f, source) == Err("AssertionError")
  {
  }

  /** A one-argument function of the name; a call with any other arguments is
      a `TypeError`. */
  function NameFn(g: string -> Outcome): AliasFn {
    AliasFn(OwnCode(1, false), (args: seq<Arg>) => if |args| == 1 && args[0].NameArg? then g(args[0].name) else Raised("TypeError"))
  }

  /** `to_identity` (package) and `identity_alias_fn` (single module). */
  const IdentityFn := NameFn(name => Found(name))

  /** `to_camel` and `to_pascal` as alias functions. */
  const ToCamelFn := NameFn(name => Found(CaseConversion.CamelPascal(name, true, CaseConversion.Intended)))
  const ToPascalFn := NameFn(name => Found(CaseConversion.CamelPascal(name, false, CaseConversion.Intended)))

  /** The identity normalises to a function returning the name it is given. */
  lemma IdentityResolvesToName(source: Source, name: string, tf: TypeForm, path: Path)
    ensures Normalize(IdentityFn, source).Ok?
    ensures Apply(Normalize(IdentityFn, source).value, CallArgs(name, tf, path)) == Found(name)
  {
  }

  /** The field of a dataclass with a given name (`__dataclass_fields__[name]`). */
  function FieldNamed(fields: seq<Field>, name: string): (r: Option<Field>)
    ensures r.Some? ==> r.value in fields && r.value.name == name
    ensures r.None? ==> forall f | f in fields :: f.name != name
  {
    if |fields| == 0 then None
    else if fields[0].name == name then Some(fields[0])
    else FieldNamed(fields[1..], name)
  }

  /** The body of `_maybe_dataclass_alias_fn`: a type form without (or with an
      empty) `__dataclass_fields__` gives `None`; otherwise the named field must
      exist, and its metadata entry under `aliasField` is the alias if present. */
  function MaybeDataclassAlias(aliasField: string, args: seq<Arg>): Outcome {
    if |args| != 3 then Raised("TypeError")
    else if !args[1].FormArg? || !args[1].form.kind.KDataclass? || |args[1].form.kind.fields| == 0 then NotFound
    else if !args[0].NameArg? then Raised("KeyError")
    else
      match FieldNamed(args[1].form.kind.fields, args[0].name)
      case None => Raised("KeyError")
      case Some(field) => if aliasField in field.metadata then Found(field.metadata[aliasField]) else NotFound
  }

  /** `make_maybe_dataclass_alias_fn(alias_field)`. */
  function MakeMaybeDataclassAliasFn(aliasField: string): AliasFn {
    AliasFn(OwnCode(3, false), (args: seq<Arg>) => MaybeDataclassAlias(aliasField, args))
  }

  /** The metadata alias function finds the field's `aliasField` entry on a
      dataclass with that field, gives `None` for anything that is not a
      dataclass with fields, and fails for a name that is not a field. */
  lemma MaybeDataclassAliasCases(aliasField: string, source: Source, name: string, tf: TypeForm, path: Path)
    ensures Normalize(MakeMaybeDataclassAliasFn(aliasField), source).Ok?
    ensures var o := Apply(Normalize(MakeMaybeDataclassAliasFn(aliasField), source).value, CallArgs(name, tf, path));
      && (!tf.kind.KDataclass? || tf.kind.fields == [] ==> o == NotFound)
      && (tf.kind.KDataclass? && tf.kind.fields != [] ==>
            match FieldNamed(tf.kind.fields, name)
            case None => o == Raised("KeyError")
            case Some(f) => o == if aliasField in f.metadata then Found(f.metadata[aliasField]) else NotFound)
  {
  }

  /** The body of `_composed_alias_fn`: the first function whose result is not
      `None` decides (an exception propagates), else the default. */
  function Composed(fns: seq<PathAliasFn>, default: PathAliasFn, args: seq<Arg>): Outcome
    requires |args| == 3
  {
    if |fns| == 0 then Apply(default, args)
    else
      var o := Apply(fns[0], args);
      if o.NotFound? then Composed(fns[1..], default, args) else o
  }

  /** `[normalize_alias_fn(f) for f in alias_fns]`: the first failure propagates. */
  function NormalizeAll(fns: seq<AliasFn>, source: Source): (r: Result<seq<PathAliasFn>, string>)
    ensures r.Ok? <==> forall i :: 0 <= i < |fns| ==> Normalize(fns[i], source).Ok?
    ensures r.Ok? ==> |r.value| == |fns|
    ensures r.Ok? ==> forall i :: 0 <= i < |fns| ==> r.value[i] == Normalize(fns[i], source).value
  {
    if |fns| == 0 then Ok([])
    else
      var head :- Normalize(fns[0], source);
      var tail :- NormalizeAll(fns[1..], source);
      Ok([head] + tail)
  }

  /** `compose_alias_fn(*alias_fns, default_alias_fn=default)`: every function is
      normalised when composing; the result takes all three arguments. */
  function ComposeAliasFn(fns: seq<AliasFn>, default: AliasFn, source: Source): Result<AliasFn, string> {
    var normalized :- NormalizeAll(fns, source);
    var normalizedDefault :- Normalize(default, source);
    Ok(AliasFn(OwnCode(3, false),
               (args: seq<Arg>) => if |args| == 3 then Composed(normalized, normalizedDefault, args) else Raised("TypeError")))
  }

  /** The loop of `_composed_alias_fn`. */
  method CallComposed(fns: seq<PathAliasFn>, default: PathAliasFn, args: seq<Arg>) returns (o: Outcome)
    requires |args| == 3
    ensures o == Composed(fns, default, args)
  {
    var i := 0;
    while i < |fns|
      invariant 0 <= i <= |fns|
      invariant Composed(fns[i..], default, args) == Composed(fns, default, args)
    {
      var alias := Apply(fns[i], args);
      if !alias.NotFound? {
        return alias;
      }
      assert fns[i..][1..] == fns[i + 1..];
      i := i + 1;
    }
    o := Apply(default, args);
  }

  /** The first function that does not answer `None` decides the result. */
  lemma {:induction false} ComposedPicksFirst(fns: seq<PathAliasFn>, default: PathAliasFn, args: seq<Arg>, i: nat)
    requires |args| == 3 && i < |fns|
    requires forall j :: 0 <= j < i ==> Apply(fns[j], args).NotFound?
    requires !Apply(fns[i], args).NotFound?
    ensures Composed(fns, default, args) == Apply(fns[i], args)
  {
    if i > 0 {
      ComposedPicksFirst(fns[1..], default, args, i - 1);
    }
  }

  /** When every function answers `None`, the default decides. */
  lemma {:induction false} ComposedFallsBack(fns: seq<PathAliasFn>, default: PathAliasFn, args: seq<Arg>)
    requires |args| == 3
    requires forall j :: 0 <= j < |fns| ==> Apply(fns[j], args).NotFound?
    ensures Composed(fns, default, args) == Apply(default, args)
  {
    if |fns| > 0 {
      ComposedFallsBack(fns[1..], default, args);
    }
  }

  /** Composition fails exactly when one of its functions fails to normalise. */
  lemma ComposeNormalizesEagerly(fns: seq<AliasFn>, default: AliasFn, source: Source)
    ensures ComposeAliasFn(fns, default, source).Ok? <==>
      (forall i :: 0 <= i < |fns| ==> Normalize(fns[i], source).Ok?) && Normalize(default, source).Ok?
  {
  }

  /** Three one-argument functions composed in order over the identity: the
      first two answer for one name each, the third for every name. */
  lemma ComposeTriesInOrder()
    ensures
      var maybeAlias := NameFn(name => if name == "foo" then Found("FOO!") else NotFound);
      var maybeAnotherAlias := NameFn(name => if name == "bar" then Found("bar?") else NotFound);
      var definitelyAnAlias := NameFn(name => Found(Upper(name)));
      var r := ComposeAliasFn([maybeAlias, maybeAnotherAlias, definitelyAnAlias], IdentityFn, Package);
      && r.Ok?
      && r.value.body(CallArgs("foo", IntClass, [])) == Found("FOO!")
      && r.value.body(CallArgs("bar", IntClass, [])) == Found("bar?")
      && r.value.body(CallArgs("baz", IntClass, [])) == Found("BAZ")
  {
    var definitelyAnAlias := NameFn(name => Found(Upper(name)));
    assert Upper("baz") == "BAZ";
  }
}
