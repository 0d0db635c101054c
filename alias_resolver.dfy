/** `AliasResolver`: a normalised alias function behind a per-key cache that
    can be switched off. The package class and the single-module class are the
    same apart from the `normalize_alias_fn` they call. */
module AliasResolution {
  import opened Wrappers
  import opened Forms
  import opened TypePaths
  import opened AliasFunctions

  /** `(name, type_form, type_path)`, the cache key. */
  datatype Key = Key(name: string, form: TypeForm, path: Path)

  function KeyArgs(k: Key): (args: seq<Arg>)
    ensures |args| == 3
  {
    CallArgs(k.name, k.form, k.path)
  }

  class AliasResolver {
    const aliasFn: PathAliasFn
    const cacheResolvedAliases: bool
    /** `_cache`; a `None` answer is stored too. */
    var cache: map<Key, Outcome>
    /** Every key the alias function was called with, in order. */
    ghost var calls: seq<Key>

    /** The alias function's answer for a key. */
    function Answer(k: Key): Outcome {
      Apply(aliasFn, KeyArgs(k))
    }

    /** The cache only holds the function's own answers, never an exception;
        without caching it stays empty; with caching, a key the function
        answers with an alias has been called exactly once if cached and never
        otherwise. */
    ghost predicate Valid()
      reads this
    {
      && (forall k | k in cache :: cache[k] == Answer(k) && !cache[k].Raised?)
      && (!cacheResolvedAliases ==> cache == map[])
      && (cacheResolvedAliases ==>
            forall k {:trigger multiset(calls)[k]} | Answer(k).Found? :: multiset(calls)[k] == if k in cache then 1 else 0)
    }

    constructor (aliasFn: PathAliasFn, cacheResolvedAliases: bool)
      ensures Valid()
      ensures this.aliasFn == aliasFn && this.cacheResolvedAliases == cacheResolvedAliases
      ensures cache == map[] && calls == []
    {
      this.aliasFn := aliasFn;
      this.cacheResolvedAliases := cacheResolvedAliases;
      cache := map[];
      calls := [];
    }

    /** `AliasResolver(alias_fn, cache_resolved_aliases)`: a missing function
        is the identity; normalisation errors propagate. */
    static method Create(aliasFn: Option<AliasFn>, cacheResolvedAliases: bool, source: Source)
      returns (r: Result<AliasResolver, string>)
      ensures var f := if aliasFn.Some? then aliasFn.value else IdentityFn;
        && (r.Ok? <==> Normalize(f, source).Ok?)
        && (r.Err? ==> r.error == Normalize(f, source).error)
        && (r.Ok? ==> fresh(r.value) && r.value.Valid() && r.value.cache == map[] && r.value.calls == []
                      && r.value.aliasFn == Normalize(f, source).value
                      && r.value.cacheResolvedAliases == cacheResolvedAliases)
    {
      var f := if aliasFn.Some? then aliasFn.value else IdentityFn;
      match Normalize(f, source)
      case Err(e) =>
        r := Err(e);
      case Ok(g) =>
        var resolver := new AliasResolver(g, cacheResolvedAliases);
        r := Ok(resolver);
    }

    /** `resolve(name, type_form, type_path)`: `_resolve_cached` when caching,
        the alias function itself otherwise. The answer is always the alias
        function's; the function is skipped only for a cached alias; the cache
        gains the answer unless it is an exception. */
    method Resolve(name: string, tf: TypeForm, path: Path) returns (o: Outcome)
      requires Valid()
      modifies this
      ensures Valid()
      ensures o == Answer(Key(name, tf, path))
      ensures var k := Key(name, tf, path);
        calls == if cacheResolvedAliases && k in old(cache) && old(cache)[k].Found? then old(calls) else old(calls) + [k]
      ensures var k := Key(name, tf, path);
        cache == if cacheResolvedAliases && !o.Raised? then old(cache)[k := o] else old(cache)
    {
      var k := Key(name, tf, path);
      if !cacheResolvedAliases {
        calls := calls + [k];
        o := Apply(aliasFn, KeyArgs(k));
        return;
      }
      if k in cache && cache[k].Found? {
        o := cache[k];
        assert cache[k := o] == cache;
        return;
      }
      calls := calls + [k];
      o := Apply(aliasFn, KeyArgs(k));
      if !o.Raised? {
        cache := cache[k := o];
      }
    }
  }

  /** The identity alias function, normalised to one argument, answers a
      name with itself whatever the type form and the path. */
  lemma IdentityAnswersName(name: string, tf: TypeForm, path: Path)
    ensures Apply(PathAliasFn(One, IdentityFn), CallArgs(name, tf, path)) == Found(name)
  {
    assert Passed(One, CallArgs(name, tf, path)) == [NameArg(name)];
  }

  /** The caching scenario: one call per key, later lookups served from the
      cache; keys differing in the type form or the path are separate. */
  method CachingCallsOncePerKey() returns (aliases: seq<Outcome>, ghost calls: seq<Key>)
    ensures aliases == [Found("foo"), Found("foo"), Found("foo"), Found("foo")]
    ensures calls == [Key("foo", IntClass, [Values.VStr("abc"), Values.VInt(1)]),
                      Key("foo", StrClass, [Values.VStr("abc"), Values.VInt(1)]),
                      Key("foo", StrClass, [Values.VStr("abc"), Values.VInt(2)])]
  {
    var resolver := new AliasResolver(PathAliasFn(One, IdentityFn), true);
    var path1 := [Values.VStr("abc"), Values.VInt(1)];
    var path2 := [Values.VStr("abc"), Values.VInt(2)];
    IdentityAnswersName("foo", IntClass, path1);
    IdentityAnswersName("foo", StrClass, path1);
    IdentityAnswersName("foo", StrClass, path2);
    var a := resolver.Resolve("foo", IntClass, path1);
    var b := resolver.Resolve("foo", IntClass, path1);
    var c := resolver.Resolve("foo", StrClass, path1);
    var d := resolver.Resolve("foo", StrClass, path2);
    aliases := [a, b, c, d];
    calls := resolver.calls;
  }
}
