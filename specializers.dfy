/** The specialisers: for a tuple or homogeneous-collection type form at a type
    path, the source text of a `__specialized_fn(value, loader)` routine, and
    what that text does once executed. Names in the text are evaluated in a
    namespace whose only globals are the builtins, so a class is only found
    again when it is a builtin. */
module Specializers {
  import opened Wrappers
  import opened Text
  import opened Forms
  import opened Values
  import opened TypePaths

  /** Which repository's specialisers: `tressed.loader.specializers` or its
      predecessor `gluetypes.loader.specializers`. */
  datatype Package = Tressed | Gluetypes

  /** The frozenset branch of `specialize_load_simple_collection` as written
      (a parenthesised set comprehension) or corrected (the generic
      `frozenset([...])` call). */
  datatype Revision = AsWritten | Corrected

  /** A rendered type form: the text placed in the routine and the type form
      that text evaluates to when the routine runs (`None`: a `NameError`). */
  datatype Rendered = Rendered(text: string, denotes: Option<TypeForm>)

  /** `tf.__qualname__` used as a name; an absent qualname fails while generating. */
  function RenderName(tf: TypeForm): (r: Result<Rendered, string>)
    ensures r.Ok? ==> r.value.text == tf.qualname && r.value.denotes == BuiltinByName(tf.qualname)
    ensures r.Err? <==> tf.qualname == ""
  {
    if tf.qualname == "" then Err("AttributeError")
    else Ok(Rendered(tf.qualname, BuiltinByName(tf.qualname)))
  }

  /** The type forms a sequence of rendered forms evaluates to, if all resolve. */
  function Denoted(rs: seq<Rendered>): (r: Option<seq<TypeForm>>)
    ensures r.Some? <==> forall i :: 0 <= i < |rs| ==> rs[i].denotes.Some?
    ensures r.Some? ==> |r.value| == |rs| && forall i :: 0 <= i < |rs| ==> r.value[i] == rs[i].denotes.value
  {
    if rs == [] then Some([])
    else if rs[0].denotes.None? then None
    else
      match Denoted(rs[1..])
      case None => None
      case Some(rest) => Some([rs[0].denotes.value] + rest)
  }

  /** `_type_form_repr` (with `_generic_type_repr`): a generic renders as
      `origin[a, ...]` (`origin[()]` without arguments), anything else as its
      qualname. What the text denotes is never larger than the form itself. */
  function RenderForm(tf: TypeForm): (r: Result<Rendered, string>)
    ensures r.Ok? && r.value.denotes.Some? ==> Size(r.value.denotes.value) <= Size(tf)
    decreases Size(tf), 1
  {
    match tf.origin
    case None => RenderName(tf)
    case Some(o) =>
      match tf.args
      case NoArgs => Err("AssertionError")
      case ArgsOf(items) =>
        var rs :- RenderAll(items);
        var argsText := if |items| == 0 then "()" else Join(Texts(rs), ", ");
        var head :- RenderName(o);
        var denotes :=
          match (head.denotes, Denoted(rs))
          case (Some(b), Some(ds)) => Some(Generic(b, ds))
          case _ => None;
        assert denotes.Some? ==> Size(denotes.value) <= Size(tf) by {
          if denotes.Some? {
            var ds := Denoted(rs).value;
            BuiltinSmallest(o.qualname);
            forall i | 0 <= i < |ds| ensures Size(ds[i]) <= Size(items[i]) {
              assert ds[i] == rs[i].denotes.value;
            }
            SumSizesPointwise(ds, items);
            var b := head.denotes.value;
            assert b == BuiltinByName(o.qualname).value;
            assert Size(Generic(b, ds)) == 2 + SumSizes(ds);
            assert OriginSize(tf.origin) == Size(o) >= 1;
            assert ArgsSize(tf.args) == SumSizes(items);
          }
        }
        Ok(Rendered(head.text + "[" + argsText + "]", denotes))
  }

  function RenderAll(items: seq<TypeForm>): (r: Result<seq<Rendered>, string>)
    ensures r.Ok? ==> |r.value| == |items|
    ensures r.Ok? ==> forall i :: 0 <= i < |items| ==>
      r.value[i].denotes.Some? ==> Size(r.value[i].denotes.value) <= Size(items[i])
    decreases SumSizes(items), 2
  {
    if items == [] then Ok([])
    else
      SumSizesBound(items, 0);
      assert SumSizes(items[1..]) < SumSizes(items);
      var first :- RenderForm(items[0]);
      var rest :- RenderAll(items[1..]);
      Ok([first] + rest)
  }

  function Texts(rs: seq<Rendered>): (r: seq<string>)
    ensures |r| == |rs| && forall i :: 0 <= i < |rs| ==> r[i] == rs[i].text
  {
    seq(|rs|, i requires 0 <= i < |rs| => rs[i].text)
  }

  lemma {:induction false} SumSizesPointwise(a: seq<TypeForm>, b: seq<TypeForm>)
    requires |a| == |b|
    requires forall i :: 0 <= i < |a| ==> Size(a[i]) <= Size(b[i])
    ensures SumSizes(a) <= SumSizes(b)
    decreases |a|
  {
    if |a| > 0 {
      SumSizesPointwise(a[1..], b[1..]);
    }
  }

  /** An argument of `_type_path_repr`: a path item, rendered by `repr`, or an
      `Ident`, whose name is printed as is. */
  datatype PathPiece = Item(value: Value) | Ident(name: string)

  function PieceText(p: PathPiece): string {
    match p
    case Item(v) => ReprOf(v)
    case Ident(name) => name
  }

  function Items(path: Path): (r: seq<PathPiece>)
    ensures |r| == |path| && forall i :: 0 <= i < |path| ==> r[i] == Item(path[i])
  {
    seq(|path|, i requires 0 <= i < |path| => Item(path[i]))
  }

  function PieceTexts(pieces: seq<PathPiece>): (r: seq<string>)
    ensures |r| == |pieces| && forall i :: 0 <= i < |pieces| ==> r[i] == PieceText(pieces[i])
  {
    seq(|pieces|, i requires 0 <= i < |pieces| => PieceText(pieces[i]))
  }

  /** `_type_path_repr(*pieces)`: a tuple display, with the trailing comma a
      one-item tuple needs. For path items alone this is `repr` of the tuple. */
  function PathReprText(pieces: seq<PathPiece>): string {
    var texts := PieceTexts(pieces);
    if |texts| == 1 then "(" + texts[0] + ",)" else "(" + Join(texts, ", ") + ")"
  }

  /** The path text of gluetypes' collection routine: the item reprs and `pos`
      joined by commas inside parentheses. */
  function GluePathText(path: Path): string {
    "(" + Join(ReprAll(path) + ["pos"], ", ") + ")"
  }

  const FnName := "__specialized_fn"
  const Indent := "    "

  /** The first line `code()` writes. */
  const Header := "def " + FnName + "(value, loader):\n"

  /** The text `code()` returns for the emitted `body`. */
  function Def(body: string): string {
    Header + body + "\n"
  }

  /** `_emit_line(text, indent)`. */
  function Line(text: string, indent: nat): string {
    Repeat(Indent, indent + 1) + text + "\n"
  }

  function ItemIdent(pos: nat): string {
    "_item_" + NatToString(pos)
  }

  /** The `(identifier, type form)` pairs `emit_unpack_args` names. */
  function UnpackItems(args: seq<TypeForm>): (r: seq<(string, TypeForm)>)
    ensures |r| == |args|
  {
    seq(|args|, i requires 0 <= i < |args| => (ItemIdent(i), args[i]))
  }

  function ItemNames(items: seq<(string, TypeForm)>): (r: seq<string>)
    ensures |r| == |items|
  {
    seq(|items|, i requires 0 <= i < |items| => items[i].0)
  }

  /** `emit_unpack_args(ident, args)` for the named `items`. */
  function UnpackText(items: seq<(string, TypeForm)>, ident: string): string {
    if |items| == 0 then ""
    else if |items| == 1 then Line(items[0].0 + ", = " + ident, 0)
    else Line(Join(ItemNames(items), ", ") + " = " + ident, 0)
  }

  const LoadFnLine := Line("_load" + " = loader._load", 0)

  /** The statement `emit_load` writes: `ident` loaded with the type named
      `name` at the path extended by `item`. */
  function LoadStatement(ident: string, name: string, path: Path, item: Value): string {
    ident + "_loaded" + " = _load(" + ident + ", " + name + ", " + PathReprText(Items(path) + [Item(item)]) + ")"
  }

  /** `emit_load` for position `pos` of the named `item`. */
  function LoadLine(pos: nat, item: (string, TypeForm), path: Path): string {
    Line(LoadStatement(item.0, item.1.qualname, path, VInt(pos)), 0)
  }

  /** One identifier of `emit_tuple`: on its own indented line, or compact. */
  function TupleEntry(ident: string, compact: bool): string {
    if compact then ident + "," else Repeat(Indent, 2) + ident + "," + "\n"
  }

  function TupleEntries(idents: seq<string>, compact: bool): (r: seq<string>)
    ensures |r| == |idents| && forall i :: 0 <= i < |idents| ==> r[i] == TupleEntry(idents[i], compact)
  {
    seq(|idents|, i requires 0 <= i < |idents| => TupleEntry(idents[i], compact))
  }

  /** `emit_tuple(idents, compact=compact)`: a parenthesised display. */
  function TupleText(idents: seq<string>, compact: bool): string {
    "(" + (if compact then "" else "\n")
    + Concat(TupleEntries(idents, compact))
    + (if compact then "" else Repeat(Indent, 1)) + ")" + "\n"
  }

  function LoadedIdents(items: seq<(string, TypeForm)>): (r: seq<string>)
    ensures |r| == |items|
  {
    seq(|items|, i requires 0 <= i < |items| => items[i].0 + "_loaded")
  }

  /** Whether the first `n` items all have a type form with a qualname. */
  predicate AllNamed(items: seq<(string, TypeForm)>, n: nat)
    requires n <= |items|
  {
    n == 0 || (AllNamed(items, n - 1) && items[n - 1].1.qualname != "")
  }

  /** One type form without a qualname spoils every longer prefix. */
  lemma {:induction false} UnnamedSpoils(items: seq<(string, TypeForm)>, j: nat, n: nat)
    requires j < n <= |items| && items[j].1.qualname == ""
    ensures !AllNamed(items, n)
    decreases n
  {
    if j < n - 1 {
      UnnamedSpoils(items, j, n - 1);
    }
  }

  /** The load lines for the first `n` items, one per position. */
  function LoadText(items: seq<(string, TypeForm)>, path: Path, n: nat): string
    requires n <= |items|
  {
    if n == 0 then "" else LoadText(items, path, n - 1) + LoadLine(n - 1, items[n - 1], path)
  }

  /** What the name in each load line evaluates to. */
  function ItemForms(args: seq<TypeForm>): (r: seq<Option<TypeForm>>)
    ensures |r| == |args| && forall i :: 0 <= i < |args| ==> r[i] == BuiltinByName(args[i].qualname)
  {
    seq(|args|, i requires 0 <= i < |args| => BuiltinByName(args[i].qualname))
  }

  /** The generated text alone, or the error generating it raises. */
  function CodeOf(r: Result<Routine, string>): Result<string, string> {
    match r
    case Ok(routine) => Ok(routine.code)
    case Err(e) => Err(e)
  }

  /** What an executed routine does with `value`.
      `Unpack`: `_item_0, ..., _item_{n-1} = value`, then `_load(_item_i, forms[i],
      path + (i,))` in order, returning the tuple of results.
      `Each`: `_load(item, form, path + (pos,))` for every item of `value`,
      collected as a list, a set, or passed as a list to `ctor`. */
  datatype Behaviour =
    | Unpack(forms: seq<Option<TypeForm>>, path: Path)
    | Each(shape: Shape, form: Option<TypeForm>, path: Path)

  datatype Shape = ListShape | SetShape | CallShape(ctor: Option<TypeForm>)

  datatype Routine = Routine(code: string, behaviour: Behaviour)

  /** `specialize_load_tuple(tf, path)` (the same in both packages): an
      argument without a qualname fails while generating. */
  function SpecializeTuple(tf: TypeForm, path: Path): (r: Result<Routine, string>)
    ensures r.Ok? ==>
      && r.value.behaviour.Unpack?
      && r.value.behaviour.path == path
      && |r.value.behaviour.forms| == |ArgItems(tf)|
  {
    match tf.args
    case NoArgs => Err("AssertionError")
    case ArgsOf(args) =>
      var items := UnpackItems(args);
      if !AllNamed(items, |items|) then Err("AttributeError")
      else
        var code := Def(UnpackText(items, "value") + LoadFnLine + LoadText(items, path, |items|)
          + Repeat(Indent, 1) + "return " + TupleText(LoadedIdents(items), false));
        Ok(Routine(code, Unpack(ItemForms(args), path)))
  }

  /** The delimiters and the shape of the collected result for an origin. */
  function Delimiters(origin: TypeForm, revision: Revision): Result<(string, string, Shape), string> {
    if origin == ListClass then Ok(("[", "]", ListShape))
    else if origin == SetClass then Ok(("{", "}", SetShape))
    else if origin == FrozenSetClass && revision == AsWritten then Ok(("({", "})", SetShape))
    else if origin.qualname == "" then Err("AttributeError")
    else Ok((origin.qualname + "([", "])", CallShape(BuiltinByName(origin.qualname))))
  }

  /** The comprehension a collection routine returns. */
  function Comprehension(open: string, close: string, element: string, pathText: string): string {
    open + "\n"
    + "        " + "_load" + "(item, " + element + ", " + pathText + ")\n"
    + "        for pos, item\n"
    + "        in enumerate(value)\n"
    + "    " + close + "\n"
  }

  /** `specialize_load_simple_collection(tf, path)`: tressed renders the element
      type with `_type_form_repr` and the path with `_type_path_repr`; gluetypes
      uses the element's qualname and its own path text. */
  function SpecializeCollection(tf: TypeForm, path: Path, package: Package, revision: Revision)
    : (r: Result<Routine, string>)
    ensures r.Ok? ==> r.value.behaviour.Each? && r.value.behaviour.path == path
  {
    if tf.origin.None? || tf.args.NoArgs? then Err("AssertionError")
    else if |tf.args.items| == 0 then Err("IndexError")
    else
      var arg := tf.args.items[0];
      var delimiters :- Delimiters(tf.origin.value, revision);
      var pathText :=
        if package == Gluetypes && revision == AsWritten then GluePathText(path)
        else PathReprText(Items(path) + [Ident("pos")]);
      var element :- if package == Tressed then RenderForm(arg) else RenderName(arg);
      var code := Def(LoadFnLine + Repeat(Indent, 1) + "return "
        + Comprehension(delimiters.0, delimiters.1, element.text, pathText));
      Ok(Routine(code, Each(delimiters.2, element.denotes, path)))
  }

  /** The behaviour of a generated routine, or the error generating it raises. */
  function BehaviourOf(r: Result<Routine, string>): Result<Behaviour, string> {
    match r
    case Ok(routine) => Ok(routine.behaviour)
    case Err(e) => Err(e)
  }

  /** What `specialize_load_tuple` decides, without the text: it fails exactly
      where the generator does and otherwise unpacks into the named classes. */
  function TuplePlan(tf: TypeForm, path: Path): Result<Behaviour, string>
  {
    match tf.args
    case NoArgs => Err("AssertionError")
    case ArgsOf(args) =>
      if !AllNamed(UnpackItems(args), |args|) then Err("AttributeError")
      else Ok(Unpack(ItemForms(args), path))
  }

  /** What `specialize_load_simple_collection` decides, without the text. */
  function CollectionPlan(tf: TypeForm, path: Path, package: Package, revision: Revision)
    : Result<Behaviour, string>
  {
    if tf.origin.None? || tf.args.NoArgs? then Err("AssertionError")
    else if |tf.args.items| == 0 then Err("IndexError")
    else
      var arg := tf.args.items[0];
      var delimiters :- Delimiters(tf.origin.value, revision);
      var element :- if package == Tressed then RenderForm(arg) else RenderName(arg);
      Ok(Each(delimiters.2, element.denotes, path))
  }

  /** The text `specialize_load_tuple` generates denotes the plan's behaviour,
      and it fails exactly when the plan does, with the same error. */
  lemma TuplePlanAgrees(tf: TypeForm, path: Path)
    ensures BehaviourOf(SpecializeTuple(tf, path)) == TuplePlan(tf, path)
  {
  }

  lemma CollectionPlanAgrees(tf: TypeForm, path: Path, package: Package, revision: Revision)
    ensures BehaviourOf(SpecializeCollection(tf, path, package, revision)) == CollectionPlan(tf, path, package, revision)
  {
  }

  /** Forms whose rendered text evaluates back to themselves: builtin classes
      and generics of builtin origins over such forms. */
  predicate Evaluable(tf: TypeForm)
    decreases Size(tf), 1
  {
    match tf.origin
    case None => BuiltinByName(tf.qualname) == Some(tf)
    case Some(o) =>
      match tf.args
      case NoArgs => false
      case ArgsOf(items) =>
        && BuiltinByName(o.qualname) == Some(o)
        && tf == Generic(o, items)
        && (assert ArgsSize(tf.args) == SumSizes(items); AllEvaluable(items))
  }

  predicate AllEvaluable(items: seq<TypeForm>)
    decreases SumSizes(items), 2
  {
    if items == [] then true
    else
      SumSizesBound(items, 0);
      assert SumSizes(items[1..]) < SumSizes(items);
      Evaluable(items[0]) && AllEvaluable(items[1..])
  }

  /** Rendering then evaluating an evaluable form gives the form back. */
  lemma {:induction false} RenderRoundTrip(tf: TypeForm)
    requires Evaluable(tf)
    ensures RenderForm(tf).Ok? && RenderForm(tf).value.denotes == Some(tf)
    decreases Size(tf), 1
  {
    match tf.origin
    case None =>
    case Some(o) =>
      var items := tf.args.items;
      assert ArgsSize(tf.args) == SumSizes(items);
      RenderAllRoundTrip(items);
  }

  lemma {:induction false} RenderAllRoundTrip(items: seq<TypeForm>)
    requires AllEvaluable(items)
    ensures RenderAll(items).Ok? && Denoted(RenderAll(items).value) == Some(items)
    decreases SumSizes(items), 2
  {
    if items != [] {
      SumSizesBound(items, 0);
      assert SumSizes(items[1..]) < SumSizes(items);
      RenderRoundTrip(items[0]);
      RenderAllRoundTrip(items[1..]);
      var rs := RenderAll(items).value;
      assert rs[1..] == RenderAll(items[1..]).value;
      assert rs[0] == RenderForm(items[0]).value;
      assert items == [items[0]] + items[1..];
    }
  }

  lemma {:induction false} PieceTextsOfPath(path: Path)
    ensures PieceTexts(Items(path)) == ReprAll(path)
  {
    if path != [] {
      PieceTextsOfPath(path[1..]);
      assert PieceTexts(Items(path))[1..] == PieceTexts(Items(path[1..]));
    }
  }

  /** `_type_path_repr` of path items is the `repr` of the path tuple. */
  lemma PathReprIsTupleRepr(path: Path)
    ensures PathReprText(Items(path)) == ReprOf(VTuple(path))
  {
    PieceTextsOfPath(path);
  }

  /** With the identifier bound to `v`, the text `_type_path_repr(*path, Ident(..))`
      writes reads as the `repr` of the extended path tuple. */
  lemma IdentStandsForItem(path: Path, v: Value)
    ensures PathReprText(Items(path) + [Ident(ReprOf(v))]) == ReprOf(VTuple(path + [v]))
  {
    assert PieceTexts(Items(path) + [Ident(ReprOf(v))]) == PieceTexts(Items(path + [v]));
    PathReprIsTupleRepr(path + [v]);
  }

  /** The class a routine's result is an instance of, when the name resolves. */
  function ShapeClass(shape: Shape): Option<TypeForm> {
    match shape
    case ListShape => Some(ListClass)
    case SetShape => Some(SetClass)
    case CallShape(ctor) => ctor
  }

  /** Corrected, a collection routine builds an instance of the class its
      origin's name denotes; as written, a frozenset routine builds a set. */
  lemma CollectionRoutineBuildsOrigin(tf: TypeForm, path: Path, package: Package)
    requires SpecializeCollection(tf, path, package, Corrected).Ok?
    ensures ShapeClass(SpecializeCollection(tf, path, package, Corrected).value.behaviour.shape)
      == BuiltinByName(tf.origin.value.qualname)
  {
  }

  lemma FrozenSetRoutineBuildsSet(tf: TypeForm, path: Path, package: Package)
    requires tf.origin == Some(FrozenSetClass)
    requires SpecializeCollection(tf, path, package, AsWritten).Ok?
    ensures ShapeClass(SpecializeCollection(tf, path, package, AsWritten).value.behaviour.shape) == Some(SetClass)
    ensures SpecializeCollection(tf, path, package, Corrected).Ok?
    ensures ShapeClass(SpecializeCollection(tf, path, package, Corrected).value.behaviour.shape) == Some(FrozenSetClass)
  {
    CollectionShape(tf, path, package, AsWritten);
    var arg := tf.args.items[0];
    assert (if package == Tressed then RenderForm(arg) else RenderName(arg)).Ok?;
    assert BuiltinByName(FrozenSetClass.qualname) == Some(FrozenSetClass);
    assert Delimiters(FrozenSetClass, Corrected).Ok?;
    assert Delimiters(FrozenSetClass, Corrected).value.2 == CallShape(Some(FrozenSetClass));
    CollectionShape(tf, path, package, Corrected);
  }

  /** A collection routine builds the shape its delimiters name. */
  lemma CollectionShape(tf: TypeForm, path: Path, package: Package, revision: Revision)
    requires SpecializeCollection(tf, path, package, revision).Ok?
    ensures tf.origin.Some? && Delimiters(tf.origin.value, revision).Ok?
    ensures SpecializeCollection(tf, path, package, revision).value.behaviour.shape
      == Delimiters(tf.origin.value, revision).value.2
  {
  }

  /** gluetypes' path text agrees with the tuple display for every non-empty
      path; at the root it is `(pos)`, which is not a tuple. */
  lemma GluePathAgreesOffRoot(path: Path)
    requires path != []
    ensures GluePathText(path) == PathReprText(Items(path) + [Ident("pos")])
  {
    PieceTextsOfPath(path);
    assert PieceTexts(Items(path) + [Ident("pos")]) == ReprAll(path) + ["pos"];
  }

  lemma GlueRootPathIsNotATuple()
    ensures GluePathText([]) == "(pos)"
    ensures PathReprText([Ident("pos")]) == "(pos,)"
  {
  }

  /** Both packages write the same load lines: gluetypes renders the extended
      path with `repr` of the tuple, tressed with `_type_path_repr`. */
  lemma LoadPathTextsAgree(path: Path, item: Value)
    ensures PathReprText(Items(path) + [Item(item)]) == ReprOf(VTuple(path + [item]))
  {
    assert Items(path) + [Item(item)] == Items(path + [item]);
    PathReprIsTupleRepr(path + [item]);
  }
}
