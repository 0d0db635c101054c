/** Discriminators: choosing one member of a union for a value, by a scoring
    function and a strategy. */
module DiscriminatedUnion {
  import opened Wrappers
  import opened Forms
  import opened Values

  /** `MatchStrategy`. */
  datatype Strategy = FirstMatch | BestMatch

  /** The strategy named by a string; any other name fails the constructor's
      assertion. */
  function ParseStrategy(name: string): (r: Result<Strategy, string>)
    ensures r == Ok(FirstMatch) <==> name == "first-match"
    ensures r == Ok(BestMatch) <==> name == "best-match"
    ensures r.Err? <==> name != "first-match" && name != "best-match"
  {
    if name == "first-match" then Ok(FirstMatch)
    else if name == "best-match" then Ok(BestMatch)
    else Err("AssertionError")
  }

  /** The scores a match function gives to each candidate; a boolean result
      counts as 0 or 1. */
  function Scores(matchFn: (Value, TypeForm) -> int, value: Value, candidates: seq<TypeForm>): (s: seq<int>)
    ensures |s| == |candidates|
    ensures forall i :: 0 <= i < |candidates| ==> s[i] == matchFn(value, candidates[i])
  {
    seq(|candidates|, i requires 0 <= i < |candidates| => matchFn(value, candidates[i]))
  }

  /** Candidate `i` scores at least 1 and strictly more than every other candidate. */
  predicate UniqueBest(s: seq<int>, i: int) {
    0 <= i < |s| && s[i] >= 1 && forall j :: 0 <= j < |s| && j != i ==> s[j] < s[i]
  }

  class Discriminator {
    const matchFn: (Value, TypeForm) -> int
    const strategy: Strategy

    constructor(matchFn: (Value, TypeForm) -> int, strategy: Strategy)
      ensures this.matchFn == matchFn && this.strategy == strategy
    {
      this.matchFn := matchFn;
      this.strategy := strategy;
    }

    /** The first candidate whose score is truthy (non-zero). */
    method FirstMatchOf(value: Value, candidates: seq<TypeForm>) returns (r: Option<TypeForm>)
      ensures var s := Scores(matchFn, value, candidates);
        r.None? <==> forall i :: 0 <= i < |s| ==> s[i] == 0
      ensures var s := Scores(matchFn, value, candidates);
        r.Some? ==> exists i :: 0 <= i < |s| && r.value == candidates[i] && s[i] != 0
                                && forall j :: 0 <= j < i ==> s[j] == 0
    {
      ghost var s := Scores(matchFn, value, candidates);
      var k := 0;
      while k < |candidates|
        invariant 0 <= k <= |candidates|
        invariant forall j :: 0 <= j < k ==> s[j] == 0
      {
        if matchFn(value, candidates[k]) != 0 {
          assert s[k] != 0;
          return Some(candidates[k]);
        }
        k := k + 1;
      }
      return None;
    }

    /** The single candidate with the highest score of at least 1; none when no
        candidate scores 1 or more or when several share the highest score. */
    method BestMatchOf(value: Value, candidates: seq<TypeForm>) returns (r: Option<TypeForm>)
      ensures var s := Scores(matchFn, value, candidates);
        r.Some? <==> exists i :: UniqueBest(s, i)
      ensures var s := Scores(matchFn, value, candidates);
        forall i :: UniqueBest(s, i) ==> r == Some(candidates[i])
    {
      ghost var s := Scores(matchFn, value, candidates);
      var best: seq<TypeForm> := [];
      ghost var bestAt: seq<nat> := [];
      var bestScore := 0;
      var k := 0;
      while k < |candidates|
        invariant 0 <= k <= |candidates|
        invariant bestScore >= 0
        invariant |best| == |bestAt|
        invariant forall m :: 0 <= m < |bestAt| ==>
          bestAt[m] < k && s[bestAt[m]] == bestScore && best[m] == candidates[bestAt[m]]
        invariant forall m, n :: 0 <= m < n < |bestAt| ==> bestAt[m] < bestAt[n]
        invariant forall j :: 0 <= j < k && s[j] >= 1 ==> s[j] <= bestScore
        invariant forall j :: 0 <= j < k && s[j] >= 1 && s[j] == bestScore ==> j in bestAt
        invariant bestScore > 0 ==> |bestAt| > 0
        invariant bestScore == 0 ==> bestAt == []
      {
        var score := matchFn(value, candidates[k]);
        if score >= 1 {
          if score > bestScore {
            best, bestAt, bestScore := [candidates[k]], [k], score;
          } else if score == bestScore {
            best, bestAt := best + [candidates[k]], bestAt + [k];
          }
        }
        k := k + 1;
      }
      if |best| == 1 {
        r := Some(best[0]);
        assert UniqueBest(s, bestAt[0]);
        forall i | UniqueBest(s, i) ensures i == bestAt[0] {
          UniqueBestIsUnique(s, i, bestAt[0]);
        }
      } else {
        r := None;
        forall i | 0 <= i < |s| ensures !UniqueBest(s, i) {
          if |best| == 0 {
            assert s[i] < 1;
          } else if i != bestAt[0] {
            assert !(s[bestAt[0]] < s[i]);
          } else {
            assert !(s[bestAt[1]] < s[i]);
          }
        }
      }
    }

    /** `match`: the method the strategy selects. */
    method Match(value: Value, candidates: seq<TypeForm>) returns (r: Option<TypeForm>)
      ensures var s := Scores(matchFn, value, candidates);
        strategy == BestMatch ==> (r.Some? <==> exists i :: UniqueBest(s, i))
      ensures var s := Scores(matchFn, value, candidates);
        strategy == FirstMatch ==> (r.None? <==> forall i :: 0 <= i < |s| ==> s[i] == 0)
      ensures var s := Scores(matchFn, value, candidates);
        strategy == FirstMatch && r.Some? ==>
          exists i :: 0 <= i < |s| && r.value == candidates[i] && s[i] != 0 && forall j :: 0 <= j < i ==> s[j] == 0
      ensures var s := Scores(matchFn, value, candidates);
        strategy == BestMatch ==> forall i :: UniqueBest(s, i) ==> r == Some(candidates[i])
    {
      match strategy {
        case FirstMatch => r := FirstMatchOf(value, candidates);
        case BestMatch => r := BestMatchOf(value, candidates);
      }
    }
  }

  /** At most one candidate is the unique best. */
  lemma UniqueBestIsUnique(s: seq<int>, i: int, j: int)
    requires UniqueBest(s, i) && UniqueBest(s, j)
    ensures i == j
  {
  }

  /** Under the best-match strategy a winner is also a first-match candidate: it
      has a truthy score. */
  lemma UniqueBestIsTruthy(s: seq<int>, i: int)
    requires UniqueBest(s, i)
    ensures exists j :: 0 <= j < |s| && s[j] != 0
  {
    assert s[i] != 0;
  }
}
