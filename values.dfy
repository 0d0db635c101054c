/** The host values the engines load and dump, with `type()`, iteration,
    hashing, `repr()` and `str()` as far as the engines use them. */
module Values {
  import opened Wrappers
  import opened Text
  import opened Forms

  datatype Value =
    | VNone
    | VBool(b: bool)
    | VInt(i: int)
    | VFloat(text: string)                         // a float, by its repr
    | VStr(s: string)
    | VList(items: seq<Value>)
    | VTuple(items: seq<Value>)
    | VSet(items: seq<Value>)                      // distinct elements, first-insertion order
    | VFrozenSet(items: seq<Value>)                // distinct elements, first-insertion order
    | VDict(entries: seq<Entry>)                   // distinct keys, insertion order
    | VObject(cls: TypeForm, items: seq<Value>)    // `cls(iterable)` for any other class
    | VRecord(cls: TypeForm, kwargs: seq<KwArg>)   // `cls(**kwargs)`
    | VEnum(cls: TypeForm, member: string, value: Value)
    | VScalar(cls: TypeForm, text: string)         // an object whose `str()` is `text` (UUID, IP address)

  datatype Entry = Entry(key: Value, value: Value)
  datatype KwArg = KwArg(name: string, value: Value)

  /** `type(v)`. */
  function TypeOf(v: Value): TypeForm {
    match v
    case VNone => NoneTypeClass
    case VBool(_) => BoolClass
    case VInt(_) => IntClass
    case VFloat(_) => FloatClass
    case VStr(_) => StrClass
    case VList(_) => ListClass
    case VTuple(_) => TupleClass
    case VSet(_) => SetClass
    case VFrozenSet(_) => FrozenSetClass
    case VDict(_) => DictClass
    case VObject(c, _) => c
    case VRecord(c, _) => c
    case VEnum(c, _, _) => c
    case VScalar(c, _) => c
  }

  function Keys(entries: seq<Entry>): (r: seq<Value>)
    ensures |r| == |entries|
    ensures forall i :: 0 <= i < |entries| ==> r[i] == entries[i].key
  {
    if entries == [] then [] else [entries[0].key] + Keys(entries[1..])
  }

  function Chars(s: string): (r: seq<Value>)
    ensures |r| == |s|
    ensures forall i :: 0 <= i < |s| ==> r[i] == VStr([s[i]])
  {
    if s == [] then [] else [VStr([s[0]])] + Chars(s[1..])
  }

  /** The items `for item in v` visits, or `None` when `v` is not iterable. */
  function Iterate(v: Value): Option<seq<Value>> {
    match v
    case VList(items) => Some(items)
    case VTuple(items) => Some(items)
    case VSet(items) => Some(items)
    case VFrozenSet(items) => Some(items)
    case VObject(_, items) => Some(items)
    case VDict(entries) => Some(Keys(entries))
    case VStr(s) => Some(Chars(s))
    case _ => None
  }

  /** Whether `hash(v)` succeeds: lists, sets and dicts are unhashable, a tuple is
      hashable when its items are. */
  predicate Hashable(v: Value) {
    match v
    case VList(_) => false
    case VSet(_) => false
    case VDict(_) => false
    case VTuple(items) => AllHashable(items)
    case _ => true
  }

  predicate AllHashable(items: seq<Value>) {
    forall i :: 0 <= i < |items| ==> Hashable(items[i])
  }

  /** The distinct items in order of first occurrence. */
  function Dedup(items: seq<Value>): (r: seq<Value>)
    ensures forall x :: x in r <==> x in items
    ensures forall i, j :: 0 <= i < j < |r| ==> r[i] != r[j]
    decreases |items|
  {
    if items == [] then []
    else
      var rest := Dedup(items[..|items| - 1]);
      var last := items[|items| - 1];
      assert items == items[..|items| - 1] + [last];
      if last in rest then rest else rest + [last]
  }

  /** `d[k] = v` on an insertion-ordered dict: an existing key keeps its position. */
  function Insert(entries: seq<Entry>, k: Value, v: Value): (r: seq<Entry>)
    ensures Keys(r) == if k in Keys(entries) then Keys(entries) else Keys(entries) + [k]
  {
    if entries == [] then [Entry(k, v)]
    else if entries[0].key == k then [Entry(k, v)] + entries[1..]
    else [entries[0]] + Insert(entries[1..], k, v)
  }

  /** `d.get(k)`. */
  function Lookup(entries: seq<Entry>, k: Value): (r: Option<Value>)
    ensures r.Some? <==> k in Keys(entries)
  {
    if entries == [] then None
    else if entries[0].key == k then Some(entries[0].value)
    else Lookup(entries[1..], k)
  }

  /** After `d[k] = v`, `d.get(k)` is `v` and every other key reads as before. */
  lemma {:induction false} InsertLookup(entries: seq<Entry>, k: Value, v: Value, q: Value)
    ensures Lookup(Insert(entries, k, v), q) == if q == k then Some(v) else Lookup(entries, q)
  {
    if entries != [] && entries[0].key != k {
      InsertLookup(entries[1..], k, v, q);
    }
  }

  /** `repr(v)`; strings are quoted with `'` and not escaped. */
  function ReprOf(v: Value): string {
    match v
    case VNone => "None"
    case VBool(b) => if b then "True" else "False"
    case VInt(i) => IntToString(i)
    case VFloat(t) => t
    case VStr(s) => "'" + s + "'"
    case VList(items) => "[" + Join(ReprAll(items), ", ") + "]"
    case VTuple(items) =>
      if |items| == 1 then "(" + ReprOf(items[0]) + ",)" else "(" + Join(ReprAll(items), ", ") + ")"
    case VSet(items) => if items == [] then "set()" else "{" + Join(ReprAll(items), ", ") + "}"
    case VFrozenSet(items) =>
      if items == [] then "frozenset()" else "frozenset({" + Join(ReprAll(items), ", ") + "})"
    case VDict(entries) => "{" + Join(ReprEntries(entries), ", ") + "}"
    case VObject(c, items) => c.qualname + "([" + Join(ReprAll(items), ", ") + "])"
    case VRecord(c, kwargs) => c.qualname + "(" + Join(ReprKwArgs(kwargs), ", ") + ")"
    case VEnum(c, m, value) => "<" + c.qualname + "." + m + ": " + ReprOf(value) + ">"
    case VScalar(c, t) => c.qualname + "('" + t + "')"
  }

  function ReprAll(items: seq<Value>): (r: seq<string>)
    ensures |r| == |items|
  {
    if items == [] then [] else [ReprOf(items[0])] + ReprAll(items[1..])
  }

  function ReprEntries(entries: seq<Entry>): seq<string> {
    if entries == [] then []
    else [ReprEntry(entries[0])] + ReprEntries(entries[1..])
  }

  function ReprEntry(e: Entry): string {
    ReprOf(e.key) + ": " + ReprOf(e.value)
  }

  function ReprKwArgs(kwargs: seq<KwArg>): seq<string> {
    if kwargs == [] then []
    else [kwargs[0].name + "=" + ReprOf(kwargs[0].value)] + ReprKwArgs(kwargs[1..])
  }

  /** `str(v)`: the text of a string or scalar object, `Cls.MEMBER` for an enum
      member, the `repr` otherwise. */
  function StrOf(v: Value): string {
    match v
    case VStr(s) => s
    case VScalar(_, t) => t
    case VEnum(c, m, _) => c.qualname + "." + m
    case _ => ReprOf(v)
  }
}
