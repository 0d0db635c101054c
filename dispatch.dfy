/** Predicate-ordered dispatch, shared by the loaders and the dumper: an exact
    table from type forms to converters, an ordered table of (predicate,
    converter) pairs consulted on a miss, and the memoisation of the first
    match in the exact table. */
module Dispatch {
  import opened Wrappers
  import opened Forms
  import opened Predicates

  /** One entry of a `type_mappers` dict. */
  datatype Mapper<F> = Mapper(pred: TypePredicate, fn: F)

  /** The index of the first mapper whose predicate holds, or -1. */
  function FirstMatchIndex<F>(mappers: seq<Mapper<F>>, tf: TypeForm): (k: int)
    ensures -1 <= k < |mappers|
    ensures k == -1 <==> forall i :: 0 <= i < |mappers| ==> !Holds(mappers[i].pred, tf)
    ensures k >= 0 ==> Holds(mappers[k].pred, tf)
    ensures k >= 0 ==> forall j :: 0 <= j < k ==> !Holds(mappers[j].pred, tf)
  {
    if |mappers| == 0 then -1
    else if Holds(mappers[0].pred, tf) then 0
    else
      var k := FirstMatchIndex(mappers[1..], tf);
      if k < 0 then -1 else k + 1
  }

  /** The converter of the first mapper whose predicate holds. */
  function FirstMatch<F>(mappers: seq<Mapper<F>>, tf: TypeForm): Option<F> {
    var k := FirstMatchIndex(mappers, tf);
    if k < 0 then None else Some(mappers[k].fn)
  }

  /** The converter `_load`/`_dump` runs for a type form: the exact table's
      entry if there is one, else the first match. */
  function Resolve<F>(exact: map<TypeForm, F>, mappers: seq<Mapper<F>>, tf: TypeForm): Option<F> {
    if tf in exact then Some(exact[tf]) else FirstMatch(mappers, tf)
  }

  /** What a dispatch leaves in the exact table: the first match is stored on a
      miss that found one; nothing changes otherwise. */
  function Memoised<F>(exact: map<TypeForm, F>, mappers: seq<Mapper<F>>, tf: TypeForm): map<TypeForm, F> {
    if tf !in exact && FirstMatch(mappers, tf).Some? then exact[tf := FirstMatch(mappers, tf).value] else exact
  }

  /** The scan of an ordered table: the mapper with the lowest index whose
      predicate holds, found by the `for ... break ... else` loop. */
  method ScanMappers<F>(mappers: seq<Mapper<F>>, tf: TypeForm) returns (r: Option<F>)
    ensures r == FirstMatch(mappers, tf)
  {
    var i := 0;
    while i < |mappers|
      invariant 0 <= i <= |mappers|
      invariant forall j :: 0 <= j < i ==> !Holds(mappers[j].pred, tf)
    {
      if Holds(mappers[i].pred, tf) {
        assert FirstMatchIndex(mappers, tf) == i;
        return Some(mappers[i].fn);
      }
      i := i + 1;
    }
    return None;
  }

  /** On a miss, the converter is the one of the first mapper (in table order)
      whose predicate holds; no earlier predicate holds. */
  lemma FirstMatchWins<F>(mappers: seq<Mapper<F>>, tf: TypeForm, k: nat)
    requires k < |mappers| && Holds(mappers[k].pred, tf)
    requires forall j :: 0 <= j < k ==> !Holds(mappers[j].pred, tf)
    ensures FirstMatch(mappers, tf) == Some(mappers[k].fn)
  {
    assert FirstMatchIndex(mappers, tf) >= 0;
  }

  /** An exact entry is used as is, whatever the predicates say. */
  lemma ExactEntryWins<F>(exact: map<TypeForm, F>, mappers: seq<Mapper<F>>, tf: TypeForm)
    requires tf in exact
    ensures Resolve(exact, mappers, tf) == Some(exact[tf])
    ensures Memoised(exact, mappers, tf) == exact
  {
  }

  /** Storing the first match changes no later dispatch: every type form
      resolves to the same converter before and after. */
  lemma MemoisationTransparent<F>(exact: map<TypeForm, F>, mappers: seq<Mapper<F>>, tf: TypeForm, t: TypeForm)
    ensures Resolve(Memoised(exact, mappers, tf), mappers, t) == Resolve(exact, mappers, t)
  {
  }

  /** The exact table only grows: no entry is replaced or removed, and the
      dispatched form is present afterwards exactly when it resolved. */
  lemma MemoisedGrows<F>(exact: map<TypeForm, F>, mappers: seq<Mapper<F>>, tf: TypeForm)
    ensures forall t | t in exact :: t in Memoised(exact, mappers, tf) && Memoised(exact, mappers, tf)[t] == exact[t]
    ensures tf in Memoised(exact, mappers, tf) <==> Resolve(exact, mappers, tf).Some?
    ensures Resolve(exact, mappers, tf).Some? ==> Memoised(exact, mappers, tf)[tf] == Resolve(exact, mappers, tf).value
    ensures forall t | t in Memoised(exact, mappers, tf) && t != tf :: t in exact
  {
  }

  /** An exact table is sound for an initial table and a mapper table when it
      extends the initial one and every added entry is a first match. */
  ghost predicate SoundCache<F>(cache: map<TypeForm, F>, initial: map<TypeForm, F>, mappers: seq<Mapper<F>>) {
    && (forall t | t in initial :: t in cache && cache[t] == initial[t])
    && (forall t | t in cache && t !in initial :: FirstMatch(mappers, t) == Some(cache[t]))
  }

  /** Dispatch through a sound cache is dispatch through the initial table:
      the predicate table is consulted at most once per form and the outcome
      never changes. */
  lemma SoundCacheResolves<F>(cache: map<TypeForm, F>, initial: map<TypeForm, F>, mappers: seq<Mapper<F>>, t: TypeForm)
    requires SoundCache(cache, initial, mappers)
    ensures Resolve(cache, mappers, t) == Resolve(initial, mappers, t)
  {
  }

  /** Memoising keeps a cache sound. */
  lemma MemoisedSound<F>(cache: map<TypeForm, F>, initial: map<TypeForm, F>, mappers: seq<Mapper<F>>, tf: TypeForm)
    requires SoundCache(cache, initial, mappers)
    ensures SoundCache(Memoised(cache, mappers, tf), initial, mappers)
  {
  }

  /** Soundness chains: a cache sound for one sound for the initial table is
      sound for the initial table. */
  lemma SoundCacheChain<F>(c: map<TypeForm, F>, b: map<TypeForm, F>, a: map<TypeForm, F>, mappers: seq<Mapper<F>>)
    requires SoundCache(b, a, mappers) && SoundCache(c, b, mappers)
    ensures SoundCache(c, a, mappers)
  {
  }

  /** The predicates of a table, in order. */
  function Preds<F>(ms: seq<Mapper<F>>): (r: seq<TypePredicate>)
    ensures |r| == |ms| && forall i :: 0 <= i < |ms| ==> r[i] == ms[i].pred
  {
    seq(|ms|, i requires 0 <= i < |ms| => ms[i].pred)
  }

  /** `d[pred]` on a table. */
  function LookupPred<F>(ms: seq<Mapper<F>>, p: TypePredicate): (r: Option<F>)
    ensures r.Some? <==> p in Preds(ms)
  {
    if ms == [] then None
    else if ms[0].pred == p then Some(ms[0].fn)
    else LookupPred(ms[1..], p)
  }

  /** A dict has each key once. */
  predicate DistinctPreds<F>(ms: seq<Mapper<F>>) {
    forall i, j :: 0 <= i < j < |ms| ==> ms[i].pred != ms[j].pred
  }

  /** `d[pred] = fn`: an existing key keeps its position, a new one goes last. */
  function SetMapper<F>(ms: seq<Mapper<F>>, m: Mapper<F>): (r: seq<Mapper<F>>)
    ensures Preds(r) == if m.pred in Preds(ms) then Preds(ms) else Preds(ms) + [m.pred]
    ensures forall p :: LookupPred(r, p) == if p == m.pred then Some(m.fn) else LookupPred(ms, p)
  {
    if ms == [] then [m]
    else if ms[0].pred == m.pred then [m] + ms[1..]
    else
      var rest := SetMapper(ms[1..], m);
      assert Preds([ms[0]] + rest) == [ms[0].pred] + Preds(rest);
      assert Preds(ms) == [ms[0].pred] + Preds(ms[1..]);
      [ms[0]] + rest
  }

  /** `base |= extra`. */
  function MergeMappers<F>(base: seq<Mapper<F>>, extra: seq<Mapper<F>>): seq<Mapper<F>>
    decreases |extra|
  {
    if extra == [] then base else MergeMappers(SetMapper(base, extra[0]), extra[1..])
  }

  /** After `base |= extra`, a predicate of `extra` maps to its converter in
      `extra`, every other predicate to its converter in `base`; the predicates
      of `base` keep their order at the front. */
  lemma {:induction false} MergeMappersLookup<F>(base: seq<Mapper<F>>, extra: seq<Mapper<F>>, p: TypePredicate)
    requires DistinctPreds(extra)
    ensures LookupPred(MergeMappers(base, extra), p) ==
      if p in Preds(extra) then LookupPred(extra, p) else LookupPred(base, p)
    ensures Preds(base) <= Preds(MergeMappers(base, extra))
    decreases |extra|
  {
    if extra != [] {
      var rest := extra[1..];
      assert DistinctPreds(rest);
      MergeMappersLookup(SetMapper(base, extra[0]), rest, p);
      assert Preds(extra) == [extra[0].pred] + Preds(rest);
      if p == extra[0].pred {
        assert p !in Preds(rest);
      }
    }
  }
}
