/** `to_camel` / `to_pascal`: snake_case names to camelCase and PascalCase.

    The conversion splits a name after each run of underscores that follows its
    first non-underscore character, title-cases every part, drops a separating
    underscore when it is alone and "more is to come", and then lower-cases
    (camel) or title-cases (pascal) the first part. `Variant` selects between
    the condition for "more is to come" as the source writes it (two more
    characters) and the one its comment describes (any more character). */
module CaseConversion {
  import opened Text

  datatype Variant = AsWritten | Intended

  /** The index the leading `for` loop stops at: the first non-underscore
      character, or the last index of an all-underscore name. */
  function LeadingFrom(name: string, i: nat): (f: nat)
    requires i < |name| || i == 0
    requires forall j :: 0 <= j < i ==> name[j] == '_'
    ensures i <= f && (|name| > 0 ==> f < |name|) && (|name| == 0 ==> f == 0)
    ensures forall j :: 0 <= j < f ==> name[j] == '_'
    ensures |name| > 0 ==> name[f] != '_' || f == |name| - 1
    decreases |name| - i
  {
    if i + 1 < |name| && name[i] == '_' then LeadingFrom(name, i + 1) else i
  }

  function LeadingEnd(name: string): nat {
    LeadingFrom(name, 0)
  }

  /** `s.find("_", start)`. */
  function FindFrom(s: string, start: nat): (r: int)
    ensures r == -1 || (start <= r < |s| && s[r] == '_')
    ensures r == -1 ==> forall j :: start <= j < |s| ==> s[j] != '_'
    ensures r >= 0 ==> forall j :: start <= j < r ==> s[j] != '_'
    decreases |s| - start
  {
    if start >= |s| then -1 else if s[start] == '_' then start else FindFrom(s, start + 1)
  }

  /** The last index of the run of underscores starting at `u`. */
  function RunEnd(name: string, u: nat): (r: nat)
    requires u < |name| && name[u] == '_'
    ensures u <= r < |name| && name[r] == '_'
    ensures forall j :: u <= j <= r ==> name[j] == '_'
    ensures r + 1 == |name| || name[r + 1] != '_'
    decreases |name| - u
  {
    if u + 1 < |name| && name[u + 1] == '_' then RunEnd(name, u + 1) else u
  }

  /** Position `u` holds a lone separating underscore with more to come, which
      the conversion drops. */
  predicate Removed(name: string, variant: Variant, u: int) {
    0 < u && u + 1 < |name| && name[u] == '_' && name[u - 1] != '_' && name[u + 1] != '_'
    && (variant == AsWritten ==> u + 2 < |name|)
  }

  /** Where the first part ends: before its dropped separator, or after its
      kept run of underscores; the whole name when nothing separates it. */
  function FirstBoundary(name: string, variant: Variant): (p: nat)
    ensures p <= |name|
  {
    if |name| < 2 then |name|
    else
      var u := FindFrom(name, LeadingEnd(name));
      if u < 0 then |name|
      else if Removed(name, variant, u) then u
      else RunEnd(name, u) + 1
  }

  /** The case of character `j` in the result: lower-cased inside a camel
      name's first part, title-cased everywhere else. */
  function CasedAt(name: string, firstLower: bool, p: nat, j: nat): char
    requires j < |name|
  {
    if firstLower && j < p then ToLower(name[j]) else TitleAt(name, j)
  }

  function Cased(name: string, firstLower: bool, variant: Variant): (r: string)
    ensures |r| == |name|
  {
    var p := FirstBoundary(name, variant);
    seq(|name|, j requires 0 <= j < |name| => CasedAt(name, firstLower, p, j))
  }

  /** Before the first boundary, a camel name is lower-cased and a pascal
      name title-cased. */
  lemma CasedHead(name: string, firstLower: bool, variant: Variant, e: nat)
    requires e <= FirstBoundary(name, variant)
    ensures Cased(name, firstLower, variant)[..e] == if firstLower then Lower(name[..e]) else Title(name)[..e]
  {
  }

  /** From the first boundary on, every character is title-cased. */
  lemma CasedTail(name: string, firstLower: bool, variant: Variant, a: nat, b: nat)
    requires FirstBoundary(name, variant) <= a <= b <= |name|
    ensures Cased(name, firstLower, variant)[a..b] == Title(name)[a..b]
  {
  }

  /** The cased characters before position `k` that are not dropped. */
  function Select(name: string, firstLower: bool, variant: Variant, k: nat): string
    requires k <= |name|
  {
    if k == 0 then ""
    else Select(name, firstLower, variant, k - 1)
         + (if Removed(name, variant, k - 1) then "" else [Cased(name, firstLower, variant)[k - 1]])
  }

  /** The converted name. */
  function CamelPascal(name: string, firstLower: bool, variant: Variant): string {
    Select(name, firstLower, variant, |name|)
  }

  function TitleAll(parts: seq<string>): (r: seq<string>)
    ensures |r| == |parts|
    ensures forall i :: 0 <= i < |parts| ==> r[i] == Title(parts[i])
  {
    seq(|parts|, i requires 0 <= i < |parts| => Title(parts[i]))
  }

  /** `first_fn(first) + "".join(map(rest_fn, rest))`. */
  function Joined(parts: seq<string>, firstLower: bool): string
    requires |parts| > 0
  {
    (if firstLower then Lower(parts[0]) else Title(parts[0])) + Concat(TitleAll(parts[1..]))
  }

  /** `_snake_to_camel_pascal`, with `first_fn` lower-casing (`firstLower`) or
      title-casing and `rest_fn` title-casing. */
  method SnakeToCamelPascal(name: string, firstLower: bool, variant: Variant) returns (r: string)
    ensures r == CamelPascal(name, firstLower, variant)
  {
    var index := SkipLeadingUnderscores(name);
    var parts: seq<string> := [];
    assert Scanned(name, firstLower, variant, parts, 0, index);
    var end := |name| - 1;
    var start := 0;
    ghost var scanFrom := index;
    while start < end
      invariant Scanned(name, firstLower, variant, parts, start, index) && scanFrom == index
      decreases |name| - start
    {
      ghost var (oldParts, oldStart, oldIndex) := (parts, start, index);
      index := FindFrom(name, index);
      if index < 0 {
        break;
      }
      ghost var u := index;
      var count;
      index, count := CountUnderscores(name, index);
      ghost var v := index;
      ghost var drop := v == u && (if variant == AsWritten then v + 1 < |name| - 1 else v + 1 <= |name| - 1);
      ghost var e := if drop then u else v + 1;
      if count == 1 && (if variant == AsWritten then index + 1 < end else index + 1 <= end) {
        parts := parts + [Title(name[start..index])];
      } else {
        parts := parts + [Title(name[start..index + 1])];
      }
      index := index + 1;
      start := index;
      ScanStep(name, firstLower, variant, oldParts, oldStart, oldIndex, u, v, e, parts, start);
      scanFrom := index;
    }
    ScanFinish(name, firstLower, variant, parts, start, scanFrom);
    parts := parts + [name[start..]];
    r := Joined(parts, firstLower);
  }

  /** The leading `for` loop: the index of the first non-underscore character
      (the last index when there is none). */
  method SkipLeadingUnderscores(name: string) returns (index: nat)
    ensures index == LeadingEnd(name)
  {
    index := 0;
    while index + 1 < |name| && name[index] == '_'
      invariant index < |name| || index == 0
      invariant forall j :: 0 <= j < index ==> name[j] == '_'
      invariant LeadingFrom(name, index) == LeadingEnd(name)
    {
      index := index + 1;
    }
  }

  /** The inner `while` loop: the end of the run of underscores at `u` and its
      length. */
  method CountUnderscores(name: string, u: nat) returns (index: nat, count: nat)
    requires u < |name| && name[u] == '_'
    ensures index == RunEnd(name, u) && count == index - u + 1
  {
    index, count := u, 1;
    while index + 1 <= |name| - 1 && name[index + 1] == '_'
      invariant u <= index < |name| && name[index] == '_'
      invariant RunEnd(name, index) == RunEnd(name, u)
      invariant count == index - u + 1
    {
      index := index + 1;
      count := count + 1;
    }
  }

  /** The scanning loop's invariant: the parts found so far, joined, are the
      result for the characters before `start`. */
  ghost predicate Scanned(name: string, firstLower: bool, variant: Variant, parts: seq<string>,
                          start: int, index: int)
  {
    0 <= start <= |name|
    && (parts == [] ==> start == 0 && index == LeadingEnd(name))
    && (parts != [] ==>
          index == start && 0 < start && name[start - 1] == '_'
          && (start < |name| ==> name[start] != '_')
          && FirstBoundary(name, variant) <= start
          && Joined(parts, firstLower) == Select(name, firstLower, variant, start))
  }

  /** One turn of the scanning loop keeps its invariant: the separator run
      `[u, v]` found ends the part `name[start..e]`. */
  lemma ScanStep(name: string, firstLower: bool, variant: Variant, parts: seq<string>, start: int, index: int,
                 u: nat, v: nat, e: nat, parts': seq<string>, next: int)
    requires Scanned(name, firstLower, variant, parts, start, index) && start < |name| - 1
    requires u == FindFrom(name, index)
    requires u < |name| && name[u] == '_' && v == RunEnd(name, u)
    requires e == if v == u && (if variant == AsWritten then v + 1 < |name| - 1 else v + 1 <= |name| - 1) then u else v + 1
    requires parts' == parts + [Title(name[start..e])] && next == v + 1
    ensures Scanned(name, firstLower, variant, parts', next, next)
  {
    SeparatorDecision(name, variant, start, u, v, v - u + 1, parts == []);
    if e == u {
      ScanDrop(name, firstLower, variant, parts, start, u);
    } else {
      ScanKeep(name, firstLower, variant, parts, start, v);
    }
  }

  /** A turn that drops the lone separator at `u`. */
  lemma ScanDrop(name: string, firstLower: bool, variant: Variant, parts: seq<string>, start: nat, u: nat)
    requires start <= u < |name| && Removed(name, variant, u)
    requires parts == [] ==> start == 0 && u == FirstBoundary(name, variant)
    requires parts != [] ==> 0 < start && name[start - 1] == '_' && FirstBoundary(name, variant) <= start
    requires parts != [] ==> Joined(parts, firstLower) == Select(name, firstLower, variant, start)
    requires forall j :: start <= j < u ==> !Removed(name, variant, j)
    ensures Scanned(name, firstLower, variant, parts + [Title(name[start..u])], u + 1, u + 1)
  {
    PartStep(name, firstLower, variant, parts, start, u);
  }

  /** A turn that keeps the run of underscores ending at `v`. */
  lemma ScanKeep(name: string, firstLower: bool, variant: Variant, parts: seq<string>, start: nat, v: nat)
    requires start <= v < |name| && name[v] == '_' && (v + 1 < |name| ==> name[v + 1] != '_')
    requires parts == [] ==> start == 0 && v + 1 == FirstBoundary(name, variant)
    requires parts != [] ==> 0 < start && name[start - 1] == '_' && FirstBoundary(name, variant) <= start
    requires parts != [] ==> Joined(parts, firstLower) == Select(name, firstLower, variant, start)
    requires forall j :: start <= j <= v ==> !Removed(name, variant, j)
    ensures Scanned(name, firstLower, variant, parts + [Title(name[start..v + 1])], v + 1, v + 1)
  {
    PartStep(name, firstLower, variant, parts, start, v + 1);
  }

  /** Leaving the scanning loop, appending the rest gives the result. */
  lemma ScanFinish(name: string, firstLower: bool, variant: Variant, parts: seq<string>, start: int, index: int)
    requires Scanned(name, firstLower, variant, parts, start, index)
    requires start >= |name| - 1 || FindFrom(name, index) < 0
    ensures Joined(parts + [name[start..]], firstLower) == CamelPascal(name, firstLower, variant)
  {
    assert forall j :: start <= j < |name| ==> !Removed(name, variant, j);
    LastPart(name, firstLower, variant, parts, start);
  }

  /** The loop's decision to drop the separator found at `u` agrees with
      `Removed`, and the first part found ends at `FirstBoundary`. */
  lemma SeparatorDecision(name: string, variant: Variant, start: nat, u: nat, index: nat, count: int,
                          first: bool)
    requires start < |name| - 1 && u < |name| && name[u] == '_'
    requires first ==> start == 0 && u == FindFrom(name, LeadingEnd(name))
    requires !first ==> 0 < start <= u && name[start - 1] == '_' && name[start] != '_'
    requires forall j :: start <= j < u && (!first || LeadingEnd(name) <= j) ==> name[j] != '_'
    requires index == RunEnd(name, u) && count == index - u + 1
    ensures var drop := count == 1 && (if variant == AsWritten then index + 2 < |name| else index + 1 < |name|);
      drop <==> Removed(name, variant, u)
    ensures var drop := count == 1 && (if variant == AsWritten then index + 2 < |name| else index + 1 < |name|);
      first ==> FirstBoundary(name, variant) == if drop then u else index + 1
    ensures forall j :: start <= j <= index && j != u ==> !Removed(name, variant, j)
    ensures count != 1 ==> !Removed(name, variant, u)
  {
    var f := LeadingEnd(name);
    if first && name[f] == '_' {
      assert u == f && f == |name| - 1;
    }
  }

  /** Appending the title-cased part `name[start..e]` extends the joined result
      by the selected characters of that range. */
  lemma PartStep(name: string, firstLower: bool, variant: Variant, parts: seq<string>, start: nat, e: nat)
    requires start <= e <= |name|
    requires parts == [] ==> start == 0 && e == FirstBoundary(name, variant)
    requires parts != [] ==> 0 < start && name[start - 1] == '_' && FirstBoundary(name, variant) <= start
    requires parts != [] ==> Joined(parts, firstLower) == Select(name, firstLower, variant, start)
    requires forall j :: start <= j < e ==> !Removed(name, variant, j)
    ensures Joined(parts + [Title(name[start..e])], firstLower) == Select(name, firstLower, variant, e)
    ensures e < |name| && Removed(name, variant, e) ==>
      Joined(parts + [Title(name[start..e])], firstLower) == Select(name, firstLower, variant, e + 1)
  {
    SelectRange(name, firstLower, variant, start, e);
    if parts == [] {
      FirstPart(name, firstLower, variant, e);
    } else {
      LaterPart(name, firstLower, variant, parts, start, e);
    }
  }

  /** The first part, cut at the first boundary, is the cased name up to it. */
  lemma FirstPart(name: string, firstLower: bool, variant: Variant, e: nat)
    requires e == FirstBoundary(name, variant)
    ensures Joined([Title(name[..e])], firstLower) == Cased(name, firstLower, variant)[..e]
  {
    var part := Title(name[..e]);
    assert Joined([part], firstLower) == (if firstLower then Lower(part) else Title(part)) + Concat([]);
    CasedHead(name, firstLower, variant, e);
    TitleSlice(name, 0, e);
    assert name[0..e] == name[..e];
    if firstLower {
      LowerTitle(name[..e]);
    } else {
      TitleTitle(name[..e]);
    }
  }

  /** A later part `name[a..b]` extends the joined result by the cased range. */
  lemma LaterPart(name: string, firstLower: bool, variant: Variant, parts: seq<string>, a: nat, b: nat)
    requires 0 < a <= b <= |name| && name[a - 1] == '_' && FirstBoundary(name, variant) <= a
    requires parts != []
    ensures Joined(parts + [Title(name[a..b])], firstLower)
         == Joined(parts, firstLower) + Cased(name, firstLower, variant)[a..b]
  {
    TitleSlice(name, a, b);
    TitleTitle(name[a..b]);
    JoinedAppend(parts, firstLower, Title(name[a..b]));
    CasedTail(name, firstLower, variant, a, b);
  }

  /** Appending the untouched rest `name[start..]` completes the result. */
  lemma LastPart(name: string, firstLower: bool, variant: Variant, parts: seq<string>, start: nat)
    requires start <= |name|
    requires parts == [] ==> start == 0 && FirstBoundary(name, variant) == |name|
    requires parts != [] ==> 0 < start && name[start - 1] == '_' && FirstBoundary(name, variant) <= start
    requires parts != [] ==> Joined(parts, firstLower) == Select(name, firstLower, variant, start)
    requires forall j :: start <= j < |name| ==> !Removed(name, variant, j)
    ensures Joined(parts + [name[start..]], firstLower) == CamelPascal(name, firstLower, variant)
  {
    SelectRange(name, firstLower, variant, start, |name|);
    if parts == [] {
      WholeFirstPart(name, firstLower, variant);
      assert name[start..] == name;
    } else {
      LaterRest(name, firstLower, variant, parts, start);
    }
  }

  /** A name with no boundary is one part: cased as a whole. */
  lemma WholeFirstPart(name: string, firstLower: bool, variant: Variant)
    requires FirstBoundary(name, variant) == |name|
    ensures Joined([name], firstLower) == Cased(name, firstLower, variant)[0..|name|]
  {
    assert Joined([name], firstLower) == (if firstLower then Lower(name) else Title(name)) + Concat([]);
    CasedHead(name, firstLower, variant, |name|);
    assert name[..|name|] == name;
  }

  /** The rest after the last separator, appended as is, is title-cased by
      the join. */
  lemma LaterRest(name: string, firstLower: bool, variant: Variant, parts: seq<string>, a: nat)
    requires 0 < a <= |name| && name[a - 1] == '_' && FirstBoundary(name, variant) <= a
    requires parts != []
    ensures Joined(parts + [name[a..]], firstLower)
         == Joined(parts, firstLower) + Cased(name, firstLower, variant)[a..|name|]
  {
    TitleSlice(name, a, |name|);
    JoinedAppend(parts, firstLower, name[a..]);
    CasedTail(name, firstLower, variant, a, |name|);
    assert name[a..|name|] == name[a..];
  }

  lemma JoinedAppend(parts: seq<string>, firstLower: bool, x: string)
    requires |parts| > 0
    ensures Joined(parts + [x], firstLower) == Joined(parts, firstLower) + Title(x)
  {
    assert (parts + [x])[1..] == parts[1..] + [x];
    assert TitleAll(parts[1..] + [x]) == TitleAll(parts[1..]) + [Title(x)];
    ConcatAppend(TitleAll(parts[1..]), Title(x));
  }

  /** Without dropped positions in `[a, b)`, selection copies the cased range. */
  lemma {:induction false} SelectRange(name: string, firstLower: bool, variant: Variant, a: nat, b: nat)
    requires a <= b <= |name|
    requires forall j :: a <= j < b ==> !Removed(name, variant, j)
    ensures Select(name, firstLower, variant, b)
         == Select(name, firstLower, variant, a) + Cased(name, firstLower, variant)[a..b]
    decreases b - a
  {
    if a < b {
      SelectRange(name, firstLower, variant, a, b - 1);
      var c := Cased(name, firstLower, variant);
      assert c[a..b] == c[a..b - 1] + [c[b - 1]];
    }
  }

  /** With a single dropped position `u`, the result is the cased name without it. */
  lemma DropOne(name: string, firstLower: bool, variant: Variant, u: nat)
    requires u < |name|
    requires forall j :: 0 <= j < |name| ==> (Removed(name, variant, j) <==> j == u)
    ensures var c := Cased(name, firstLower, variant);
            CamelPascal(name, firstLower, variant) == c[..u] + c[u + 1..]
  {
    var c := Cased(name, firstLower, variant);
    assert Select(name, firstLower, variant, u) == c[..u] by {
      SelectRange(name, firstLower, variant, 0, u);
      assert c[..u] == c[0..u];
    }
    assert Select(name, firstLower, variant, u + 1) == Select(name, firstLower, variant, u) by {
      assert Removed(name, variant, u);
    }
    assert Select(name, firstLower, variant, |name|) == Select(name, firstLower, variant, u + 1) + c[u + 1..] by {
      SelectRange(name, firstLower, variant, u + 1, |name|);
      assert c[u + 1..] == c[u + 1..|name|];
    }
  }

  /** Title-casing a slice that starts after a non-letter is slicing the
      title-cased string. */
  lemma TitleSlice(s: string, a: nat, b: nat)
    requires a <= b <= |s|
    requires a == 0 || !IsLetter(s[a - 1])
    ensures Title(s[a..b]) == Title(s)[a..b]
  {
    forall i | 0 <= i < b - a
      ensures TitleAt(s[a..b], i) == TitleAt(s, a + i)
    {
      if i > 0 {
        assert s[a..b][i - 1] == s[a + i - 1];
      }
    }
  }

  lemma TitleTitle(s: string)
    ensures Title(Title(s)) == s[..0] + Title(s)
  {
    var t := Title(s);
    forall i | 0 <= i < |s|
      ensures TitleAt(t, i) == t[i]
    {
      assert IsLetter(t[i]) <==> IsLetter(s[i]);
      if i > 0 {
        assert IsLetter(t[i - 1]) <==> IsLetter(s[i - 1]);
      }
    }
  }

  lemma LowerTitle(s: string)
    ensures Lower(Title(s)) == Lower(s)
  {
  }

  /** `to_pascal`, with the separator rule its comment describes. */
  method ToPascal(name: string) returns (r: string)
    ensures r == CamelPascal(name, false, Intended)
  {
    r := SnakeToCamelPascal(name, false, Intended);
  }

  /** `to_camel`, with the separator rule its comment describes. */
  method ToCamel(name: string) returns (r: string)
    ensures r == CamelPascal(name, true, Intended)
  {
    r := SnakeToCamelPascal(name, true, Intended);
  }

  /** The characters of `name[..k]` the conversion keeps, uncased. */
  function Kept(name: string, variant: Variant, k: nat): string
    requires k <= |name|
  {
    if k == 0 then ""
    else Kept(name, variant, k - 1) + (if Removed(name, variant, k - 1) then "" else [name[k - 1]])
  }

  lemma LowerConcat(a: string, b: string)
    ensures Lower(a + b) == Lower(a) + Lower(b)
  {
  }

  /** The conversion changes nothing but letter case, apart from the dropped
      separators: compared case-insensitively the result is the name without them. */
  lemma {:induction false} ConversionOnlyRecases(name: string, firstLower: bool, variant: Variant, k: nat)
    requires k <= |name|
    ensures Lower(Select(name, firstLower, variant, k)) == Lower(Kept(name, variant, k))
  {
    if k > 0 {
      ConversionOnlyRecases(name, firstLower, variant, k - 1);
      var c := Cased(name, firstLower, variant);
      var tail := if Removed(name, variant, k - 1) then "" else [c[k - 1]];
      var rawTail := if Removed(name, variant, k - 1) then "" else [name[k - 1]];
      LowerConcat(Select(name, firstLower, variant, k - 1), tail);
      LowerConcat(Kept(name, variant, k - 1), rawTail);
      assert Lower(tail) == Lower(rawTail);
    }
  }

  /** Title case works piecewise across a boundary that is not inside a word. */
  lemma TitleConcat(a: string, b: string)
    requires a == [] || b == [] || !IsLetter(a[|a| - 1]) || !IsLetter(b[0])
    ensures Title(a + b) == Title(a) + Title(b)
  {
    var s := a + b;
    forall i | 0 <= i < |s|
      ensures TitleAt(s, i) == (Title(a) + Title(b))[i]
    {
      if i < |a| {
        if i > 0 {
          assert s[i - 1] == a[i - 1];
        }
      } else {
        assert s[i] == b[i - |a|];
        if i > |a| {
          assert s[i - 1] == b[i - |a| - 1];
        }
      }
    }
  }

  /** A name with one dropped separator `u`, at its first boundary, converts
      to camel case as its lower-cased head and its title-cased tail. */
  lemma CamelAroundSeparator(name: string, u: nat, head: string, tail: string)
    requires u < |name| && u == FirstBoundary(name, Intended)
    requires forall j :: 0 <= j < |name| ==> (Removed(name, Intended, j) <==> j == u)
    requires Lower(name[..u]) == head && Title(name)[u + 1..] == tail
    ensures CamelPascal(name, true, Intended) == head + tail
  {
    DropOne(name, true, Intended, u);
    CasedHead(name, true, Intended, u);
    CasedTail(name, true, Intended, u + 1, |name|);
    var c := Cased(name, true, Intended);
    assert c[u + 1..] == c[u + 1..|name|];
    assert Title(name)[u + 1..] == Title(name)[u + 1..|name|];
  }

  /** The same name converts to pascal case as its title-cased head and tail. */
  lemma PascalAroundSeparator(name: string, u: nat, head: string, tail: string)
    requires u < |name|
    requires forall j :: 0 <= j < |name| ==> (Removed(name, Intended, j) <==> j == u)
    requires Title(name)[..u] == head && Title(name)[u + 1..] == tail
    ensures CamelPascal(name, false, Intended) == head + tail
  {
    DropOne(name, false, Intended, u);
    PascalCasesByTitle(name, Intended);
  }

  /** `foo_bar`: the lone underscore at 3 separates and is dropped. */
  lemma TwoWordSeparator()
    ensures FirstBoundary("foo_bar", Intended) == 3
    ensures forall j :: 0 <= j < 7 ==> (Removed("foo_bar", Intended, j) <==> j == 3)
  {
    assert LeadingEnd("foo_bar") == 0 && FindFrom("foo_bar", 0) == 3;
    assert Removed("foo_bar", Intended, 3);
  }

  /** The words of `foo_bar`, title-cased. */
  lemma TwoWordTitles()
    ensures Title("foo_bar")[..3] == "Foo" && Title("foo_bar")[4..] == "Bar"
  {
    var name := "foo_bar";
    TitleSlice(name, 0, 3);
    TitleSlice(name, 4, 7);
    assert name[0..3] == "foo" && name[4..7] == "bar";
    assert Title("foo") == "Foo" && Title("bar") == "Bar";
    assert Title(name)[..3] == Title(name)[0..3];
    assert Title(name)[4..] == Title(name)[4..7];
  }

  /** `to_camel` on a plain two-word name. */
  lemma CamelTwoWords()
    ensures CamelPascal("foo_bar", true, Intended) == "fooBar"
  {
    TwoWordSeparator();
    TwoWordTitles();
    assert "foo_bar"[..3] == "foo" && Lower("foo") == "foo";
    CamelAroundSeparator("foo_bar", 3, "foo", "Bar");
  }

  /** `to_pascal` on a plain two-word name. */
  lemma PascalTwoWords()
    ensures CamelPascal("foo_bar", false, Intended) == "FooBar"
  {
    TwoWordSeparator();
    TwoWordTitles();
    PascalAroundSeparator("foo_bar", 3, "Foo", "Bar");
  }

  /** Pascal case title-cases every character it keeps. */
  lemma PascalCasesByTitle(name: string, variant: Variant)
    ensures Cased(name, false, variant) == Title(name)
  {
  }

  /** In `_foO_bar__baz___` only the underscore at 4 separates and is dropped. */
  lemma MixedNameSeparators()
    ensures FirstBoundary("_foO_bar__baz___", Intended) == 4
    ensures forall j :: 0 <= j < 16 ==> (Removed("_foO_bar__baz___", Intended, j) <==> j == 4)
  {
    var long := "_foO_bar__baz___";
    assert LeadingEnd(long) == 1 && FindFrom(long, 1) == 4;
    assert Removed(long, Intended, 4);
  }

  /** `to_camel` on a name with leading, doubled and trailing underscores: only the
      lone separator goes, the first part is lower-cased, later parts title-cased. */
  lemma CamelKeepsUnderscoreRuns()
    ensures CamelPascal("_foO_bar__baz___", true, Intended) == "_fooBar__Baz___"
  {
    MixedNameSeparators();
    TitledMixedName();
    assert "_foO_bar__baz___"[..4] == "_foO";
    LowerFirstWord();
    CamelAroundSeparator("_foO_bar__baz___", 4, "_foo", "Bar__Baz___");
  }

  lemma LowerFirstWord()
    ensures Lower("_foO") == "_foo"
  {
    var l := Lower("_foO");
    assert l[0] == '_' && l[1] == 'f' && l[2] == 'o' && l[3] == 'o';
  }

  /** Title case of `_foO_bar__baz___` around its separator. */
  lemma TitledMixedName()
    ensures Title("_foO_bar__baz___")[..4] == "_Foo"
    ensures Title("_foO_bar__baz___")[5..] == "Bar__Baz___"
  {
    var long := "_foO_bar__baz___";
    TitleSlice(long, 0, 4);
    TitleSlice(long, 5, 16);
    assert long[0..4] == "_" + "foO";
    TitleConcat("_", "foO");
    assert Title("_") == "_" && Title("foO") == "Foo";
    assert Title(long)[..4] == Title(long)[0..4];
    assert long[5..16] == "bar" + ("__" + ("baz" + "___"));
    TitleConcat("baz", "___");
    TitleConcat("__", "baz" + "___");
    TitleConcat("bar", "__" + ("baz" + "___"));
    assert Title("bar") == "Bar" && Title("baz") == "Baz";
    assert Title("__") == "__" && Title("___") == "___";
    assert Title(long)[5..] == Title(long)[5..16];
  }

  /** `to_pascal` on the same name title-cases the first part as well. */
  lemma PascalKeepsUnderscoreRuns()
    ensures CamelPascal("_foO_bar__baz___", false, Intended) == "_FooBar__Baz___"
  {
    MixedNameSeparators();
    TitledMixedName();
    PascalAroundSeparator("_foO_bar__baz___", 4, "_Foo", "Bar__Baz___");
  }

  /** The separator rule as written keeps a lone underscore that is followed by
      exactly one character, where the rule its comment states drops it. */
  lemma LoneSeparatorBeforeLastCharacter()
    ensures CamelPascal("foo_b", true, AsWritten) == "foo_B"
    ensures CamelPascal("foo_b", true, Intended) == "fooB"
  {
    var name := "foo_b";
    assert LeadingEnd(name) == 0;
    assert FindFrom(name, 0) == 3;
    assert !Removed(name, AsWritten, 3);
    assert Removed(name, Intended, 3);
    assert FirstBoundary(name, AsWritten) == 4;
    assert FirstBoundary(name, Intended) == 3;
    var c := Cased(name, true, AsWritten);
    assert c[0] == 'f' && c[1] == 'o' && c[2] == 'o' && c[3] == '_' && c[4] == 'B';
    assert c == "foo_B";
    SelectRange(name, true, AsWritten, 0, 5);
    var d := Cased(name, true, Intended);
    assert d[0] == 'f' && d[1] == 'o' && d[2] == 'o' && d[4] == 'B';
    SelectRange(name, true, Intended, 0, 3);
    assert d[..3] == "foo";
    assert Select(name, true, Intended, 4) == "foo";
  }
}
