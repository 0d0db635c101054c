/** The code generator of `tressed.loader.specializers`: a buffer of emitted
    parts turned once into the text of a `def` statement, and the two
    specialisers written with it. Each method is proved to produce the text the
    `Specializers` functions describe. */
module CodeGeneration {
  import opened Wrappers
  import opened Text
  import opened Forms
  import opened Values
  import opened TypePaths
  import opened Specializers

  /** The three parts `_emit_line(text, indent)` appends. */
  function LineParts(indentUnit: string, text: string, indent: nat): seq<string> {
    [Repeat(indentUnit, indent + 1), text, "\n"]
  }

  /** The parts `emit_unpack_args(ident, ...)` appends for the named `items`. */
  function UnpackParts(indentUnit: string, items: seq<(string, TypeForm)>, ident: string): seq<string> {
    if |items| == 0 then []
    else if |items| == 1 then LineParts(indentUnit, items[0].0 + ", = " + ident, 0)
    else LineParts(indentUnit, Join(ItemNames(items), ", ") + " = " + ident, 0)
  }

  lemma EmitLineText(parts: seq<string>, text: string, indent: nat)
    ensures Concat(parts + LineParts(Indent, text, indent)) == Concat(parts) + Line(text, indent)
  {
    var a := Repeat(Indent, indent + 1);
    ConcatAppend(parts, a);
    ConcatAppend(parts + [a], text);
    ConcatAppend(parts + [a] + [text], "\n");
    assert parts + LineParts(Indent, text, indent) == parts + [a] + [text] + ["\n"];
  }

  /** The parts `emit_tuple` appends for one identifier. */
  function EntryPart(indentUnit: string, ident: string, compact: bool): seq<string> {
    if compact then [ident + ","] else [Repeat(indentUnit, 2), ident + ",", "\n"]
  }

  function EntryParts(indentUnit: string, idents: seq<string>, compact: bool): seq<string> {
    if idents == [] then []
    else EntryPart(indentUnit, idents[0], compact) + EntryParts(indentUnit, idents[1..], compact)
  }

  /** All the parts `emit_tuple(idents, compact=compact)` appends. */
  function TupleParts(indentUnit: string, idents: seq<string>, compact: bool): seq<string> {
    ["("] + (if compact then [] else ["\n"])
    + EntryParts(indentUnit, idents, compact)
    + (if compact then [] else [Repeat(indentUnit, 1)]) + [")", "\n"]
  }

  lemma {:induction false} EntryPartsAppend(indentUnit: string, idents: seq<string>, ident: string, compact: bool)
    ensures EntryParts(indentUnit, idents + [ident], compact)
         == EntryParts(indentUnit, idents, compact) + EntryPart(indentUnit, ident, compact)
    decreases |idents|
  {
    if idents == [] {
      assert [] + [ident] == [ident];
    } else {
      assert (idents + [ident])[1..] == idents[1..] + [ident];
      EntryPartsAppend(indentUnit, idents[1..], ident, compact);
    }
  }

  lemma EntryPartText(ident: string, compact: bool)
    ensures Concat(EntryPart(Indent, ident, compact)) == TupleEntry(ident, compact)
  {
    if !compact {
      ConcatPair([Repeat(Indent, 2)], ident + ",", "\n");
      assert [Repeat(Indent, 2)] + [ident + ",", "\n"] == EntryPart(Indent, ident, compact);
    }
  }

  lemma {:induction false} EntryPartsText(idents: seq<string>, compact: bool)
    ensures Concat(EntryParts(Indent, idents, compact)) == Concat(TupleEntries(idents, compact))
    decreases |idents|
  {
    if idents != [] {
      EntryPartsText(idents[1..], compact);
      EntryPartText(idents[0], compact);
      ConcatSplit(EntryPart(Indent, idents[0], compact), EntryParts(Indent, idents[1..], compact));
      assert TupleEntries(idents, compact)[1..] == TupleEntries(idents[1..], compact);
    }
  }

  lemma ConcatPair(parts: seq<string>, a: string, b: string)
    ensures Concat(parts + [a, b]) == Concat(parts) + a + b
  {
    ConcatAppend(parts, a);
    ConcatAppend(parts + [a], b);
    assert parts + [a] + [b] == parts + [a, b];
  }

  /** The appended parts spell the tuple display. */
  lemma TuplePartsText(idents: seq<string>, compact: bool)
    ensures Concat(TupleParts(Indent, idents, compact)) == TupleText(idents, compact)
  {
    var newline: seq<string> := if compact then [] else ["\n"];
    var closeIndent: seq<string> := if compact then [] else [Repeat(Indent, 1)];
    var entries := EntryParts(Indent, idents, compact);
    EntryPartsText(idents, compact);
    ConcatSplit(["("], newline);
    ConcatSplit(["("] + newline, entries);
    ConcatSplit(["("] + newline + entries, closeIndent);
    ConcatSplit(["("] + newline + entries + closeIndent, [")", "\n"]);
    assert Concat(newline) == (if compact then "" else "\n");
    assert Concat(closeIndent) == (if compact then "" else Repeat(Indent, 1));
    assert Concat([")", "\n"]) == ")" + "\n";
  }

  class Codegen {
    const fnName: string
    const indent: string
    var parts: seq<string>
    var cachedCode: Option<string>

    constructor (fnName: string)
      ensures this.fnName == fnName && indent == Indent
      ensures parts == [] && cachedCode == None
    {
      this.fnName := fnName;
      indent := Indent;
      parts := [];
      cachedCode := None;
    }

    /** `code()`: the first call writes the header, the parts and a blank line,
        keeps the text and clears the parts; later calls return the kept text. */
    method Code() returns (code: string)
      modifies this
      ensures old(cachedCode).Some? && old(cachedCode).value != "" ==>
        code == old(cachedCode).value && parts == old(parts) && cachedCode == old(cachedCode)
      ensures old(cachedCode).None? || old(cachedCode).value == "" ==>
        && code == "def " + fnName + "(value, loader):\n" + Concat(old(parts)) + "\n"
        && (fnName == FnName ==> code == Def(Concat(old(parts))))
        && cachedCode == Some(code)
        && parts == []
    {
      if cachedCode.Some? && cachedCode.value != "" {
        return cachedCode.value;
      }
      var header := "def " + fnName + "(value, loader):\n";
      var builder := header;
      var lines := parts;
      var i := 0;
      while i < |lines|
        invariant 0 <= i <= |lines|
        invariant builder == header + Concat(lines[..i])
      {
        ConcatAppend(lines[..i], lines[i]);
        assert lines[..i + 1] == lines[..i] + [lines[i]];
        builder := builder + lines[i];
        i := i + 1;
      }
      assert lines[..i] == lines;
      builder := builder + "\n";
      cachedCode := Some(builder);
      parts := [];
      code := builder;
    }

    method Emit(part: string)
      modifies this
      ensures parts == old(parts) + [part] && cachedCode == old(cachedCode)
    {
      parts := parts + [part];
    }

    method EmitIndent(indent: nat)
      modifies this
      ensures parts == old(parts) + [Repeat(this.indent, indent + 1)] && cachedCode == old(cachedCode)
    {
      Emit(Repeat(this.indent, indent + 1));
    }

    method EmitNewline()
      modifies this
      ensures parts == old(parts) + ["\n"] && cachedCode == old(cachedCode)
    {
      Emit("\n");
    }

    method EmitLine(line: string, indent: nat)
      modifies this
      ensures parts == old(parts) + LineParts(this.indent, line, indent) && cachedCode == old(cachedCode)
    {
      EmitIndent(indent);
      Emit(line);
      EmitNewline();
    }

    /** `emit_unpack_args(ident, args)`: names `_item_0 ...` the positions and
        writes the unpacking assignment (none for no arguments, a trailing
        comma for one). */
    method EmitUnpackArgs(ident: string, args: seq<TypeForm>) returns (items: seq<(string, TypeForm)>)
      modifies this
      ensures items == UnpackItems(args)
      ensures parts == old(parts) + UnpackParts(indent, items, ident) && cachedCode == old(cachedCode)
    {
      items := seq(|args|, i requires 0 <= i < |args| => (ItemIdent(i), args[i]));
      if |items| == 0 {
      } else if |items| == 1 {
        EmitLine(items[0].0 + ", = " + ident, 0);
      } else {
        var idents := seq(|items|, i requires 0 <= i < |items| => items[i].0);
        assert idents == ItemNames(items);
        EmitLine(Join(idents, ", ") + " = " + ident, 0);
      }
    }

    method EmitLoadFn(ident: string) returns (r: string)
      modifies this
      ensures r == ident
      ensures parts == old(parts) + LineParts(indent, ident + " = loader._load", 0) && cachedCode == old(cachedCode)
    {
      EmitLine(ident + " = loader._load", 0);
      return ident;
    }

    /** `emit_load`: the call is written to `_load` whatever `loaderIdent` is,
        the type form by its qualname (an `AttributeError` without one). */
    method EmitLoad(loaderIdent: string, ident: string, tf: TypeForm, path: Path, item: Value)
      returns (r: Result<string, string>)
      modifies this
      ensures tf.qualname == "" ==> r == Err("AttributeError") && parts == old(parts)
      ensures tf.qualname != "" ==>
        && r == Ok(ident + "_loaded")
        && parts == old(parts) + LineParts(indent, LoadStatement(ident, tf.qualname, path, item), 0)
      ensures cachedCode == old(cachedCode)
    {
      if tf.qualname == "" {
        return Err("AttributeError");
      }
      var loaded := ident + "_loaded";
      var pathText := PathRepr(Items(path) + [Item(item)]);
      EmitLine(loaded + " = _load(" + ident + ", " + tf.qualname + ", " + pathText + ")", 0);
      return Ok(loaded);
    }

    /** `emit_tuple(idents, compact=compact)`. */
    method EmitTuple(idents: seq<string>, compact: bool)
      modifies this
      ensures parts == old(parts) + TupleParts(indent, idents, compact)
      ensures cachedCode == old(cachedCode)
    {
      ghost var before := parts;
      Emit("(");
      if !compact {
        EmitNewline();
      }
      ghost var started := parts;
      EmitEntries(idents, compact);
      ghost var entered := parts;
      if !compact {
        EmitIndent(0);
      }
      Emit(")");
      EmitNewline();
      ghost var opening := ["("] + (if compact then [] else ["\n"]);
      ghost var entries := EntryParts(indent, idents, compact);
      ghost var close := (if compact then [] else [Repeat(indent, 1)]) + [")", "\n"];
      assert started == before + opening;
      assert entered == started + entries;
      assert parts == entered + close;
      assert TupleParts(indent, idents, compact) == opening + entries + close;
    }

    /** The entries of `emit_tuple`, in order. */
    method EmitEntries(idents: seq<string>, compact: bool)
      modifies this
      ensures parts == old(parts) + EntryParts(indent, idents, compact)
      ensures cachedCode == old(cachedCode)
    {
      for i := 0 to |idents|
        invariant cachedCode == old(cachedCode)
        invariant parts == old(parts) + EntryParts(indent, idents[..i], compact)
      {
        EntryPartsAppend(indent, idents[..i], idents[i], compact);
        assert idents[..i + 1] == idents[..i] + [idents[i]];
        EmitEntry(idents[i], compact);
      }
      assert idents[..|idents|] == idents;
    }

    /** One line (or, compact, one item) of `emit_tuple`. */
    method EmitEntry(ident: string, compact: bool)
      modifies this
      ensures parts == old(parts) + EntryPart(indent, ident, compact)
      ensures cachedCode == old(cachedCode)
    {
      if !compact {
        EmitIndent(1);
      }
      Emit(ident + ",");
      if !compact {
        EmitNewline();
      }
    }

    method EmitReturn()
      modifies this
      ensures parts == old(parts) + [Repeat(indent, 1), "return "] && cachedCode == old(cachedCode)
    {
      EmitIndent(0);
      Emit("return ");
    }
  }

  /** `_type_path_repr(*pieces)`. */
  method PathRepr(pieces: seq<PathPiece>) returns (s: string)
    ensures s == PathReprText(pieces)
  {
    var items: seq<string> := [];
    for i := 0 to |pieces|
      invariant items == PieceTexts(pieces)[..i]
    {
      match pieces[i]
      case Ident(name) => items := items + [name];
      case Item(v) => items := items + [ReprOf(v)];
    }
    assert items == PieceTexts(pieces);
    if |items| == 1 {
      s := "(" + items[0] + ",)";
    } else {
      s := "(" + Join(items, ", ") + ")";
    }
  }

  lemma UnpackPartsText(items: seq<(string, TypeForm)>, ident: string)
    ensures Concat(UnpackParts(Indent, items, ident)) == UnpackText(items, ident)
  {
    if |items| == 1 {
      EmitLineText([], items[0].0 + ", = " + ident, 0);
      assert [] + UnpackParts(Indent, items, ident) == UnpackParts(Indent, items, ident);
    } else if |items| > 1 {
      EmitLineText([], Join(ItemNames(items), ", ") + " = " + ident, 0);
      assert [] + UnpackParts(Indent, items, ident) == UnpackParts(Indent, items, ident);
    }
  }

  /** The parts the loads of the first `n` items append. */
  function LoadParts(items: seq<(string, TypeForm)>, path: Path, n: nat): seq<string>
    requires n <= |items|
  {
    if n == 0 then []
    else LoadParts(items, path, n - 1) + LineParts(Indent, LoadStatement(items[n - 1].0, items[n - 1].1.qualname, path, VInt(n - 1)), 0)
  }

  lemma {:induction false} LoadPartsText(items: seq<(string, TypeForm)>, path: Path, n: nat)
    requires n <= |items|
    ensures Concat(LoadParts(items, path, n)) == LoadText(items, path, n)
  {
    if n > 0 {
      LoadPartsText(items, path, n - 1);
      EmitLineText(LoadParts(items, path, n - 1), LoadStatement(items[n - 1].0, items[n - 1].1.qualname, path, VInt(n - 1)), 0);
    }
  }

  lemma LoadedIdentsStep(items: seq<(string, TypeForm)>, pos: nat)
    requires pos < |items|
    ensures LoadedIdents(items)[..pos + 1] == LoadedIdents(items)[..pos] + [items[pos].0 + "_loaded"]
  {
  }

  /** One iteration of the loop of `specialize_load_tuple`. */
  method EmitItemLoad(cg: Codegen, loadFn: string, items: seq<(string, TypeForm)>, path: Path, pos: nat, ghost base: seq<string>)
    returns (l: Result<string, string>)
    requires pos < |items| && cg.indent == Indent && AllNamed(items, pos)
    requires cg.parts == base + LoadParts(items, path, pos)
    modifies cg
    ensures cg.cachedCode == old(cg.cachedCode)
    ensures l.Err? ==> !AllNamed(items, |items|) && l.error == "AttributeError"
    ensures l.Ok? ==> && l.value == items[pos].0 + "_loaded"
                      && AllNamed(items, pos + 1)
                      && cg.parts == base + LoadParts(items, path, pos + 1)
  {
    ghost var line := LineParts(Indent, LoadStatement(items[pos].0, items[pos].1.qualname, path, VInt(pos)), 0);
    l := cg.EmitLoad(loadFn, items[pos].0, items[pos].1, path, VInt(pos));
    if l.Ok? {
      assert LoadParts(items, path, pos + 1) == LoadParts(items, path, pos) + line;
      assert cg.parts == base + LoadParts(items, path, pos) + line;
    } else {
      UnnamedSpoils(items, pos, |items|);
    }
  }

  /** The loop of `specialize_load_tuple`: one load line per item, failing at
      the first type form without a qualname. */
  method EmitItemLoads(cg: Codegen, loadFn: string, items: seq<(string, TypeForm)>, path: Path)
    returns (r: Result<seq<string>, string>)
    requires cg.indent == Indent
    modifies cg
    ensures cg.cachedCode == old(cg.cachedCode)
    ensures r.Err? <==> !AllNamed(items, |items|)
    ensures r.Err? ==> r.error == "AttributeError"
    ensures r.Ok? ==> r.value == LoadedIdents(items)
    ensures r.Ok? ==> cg.parts == old(cg.parts) + LoadParts(items, path, |items|)
  {
    var loaded: seq<string> := [];
    for pos := 0 to |items|
      invariant cg.cachedCode == old(cg.cachedCode)
      invariant cg.parts == old(cg.parts) + LoadParts(items, path, pos)
      invariant loaded == LoadedIdents(items)[..pos]
      invariant AllNamed(items, pos)
    {
      var l := EmitItemLoad(cg, loadFn, items, path, pos, old(cg.parts));
      if l.Err? {
        return Err(l.error);
      }
      LoadedIdentsStep(items, pos);
      loaded := loaded + [l.value];
    }
    assert LoadedIdents(items)[..|items|] == LoadedIdents(items);
    return Ok(loaded);
  }

  /** `specialize_load_tuple(tf, path)`. */
  method SpecializeLoadTuple(tf: TypeForm, path: Path) returns (r: Result<string, string>)
    ensures r == CodeOf(SpecializeTuple(tf, path))
  {
    if tf.args.NoArgs? {
      return Err("AssertionError");
    }
    var args := tf.args.items;
    var cg := new Codegen(FnName);
    var items := cg.EmitUnpackArgs("value", args);
    ghost var unpacked := cg.parts;
    var loadFn := cg.EmitLoadFn("_load");
    ghost var loading := cg.parts;
    var loads := EmitItemLoads(cg, loadFn, items, path);
    if loads.Err? {
      return Err(loads.error);
    }
    ghost var body := cg.parts;
    assert Concat(unpacked) == UnpackText(items, "value") by {
      UnpackPartsText(items, "value");
      assert unpacked == UnpackParts(Indent, items, "value");
    }
    assert Concat(loading) == Concat(unpacked) + LoadFnLine by {
      EmitLineText(unpacked, "_load" + " = loader._load", 0);
    }
    assert Concat(body) == Concat(loading) + LoadText(items, path, |items|) by {
      ConcatSplit(loading, LoadParts(items, path, |items|));
      LoadPartsText(items, path, |items|);
    }
    cg.EmitReturn();
    ghost var returned := cg.parts;
    cg.EmitTuple(loads.value, false);
    assert Concat(cg.parts) == UnpackText(items, "value") + LoadFnLine + LoadText(items, path, |items|)
      + Repeat(Indent, 1) + "return " + TupleText(LoadedIdents(items), false) by {
      ConcatPair(body, Repeat(Indent, 1), "return ");
      ConcatSplit(returned, TupleParts(Indent, loads.value, false));
      TuplePartsText(loads.value, false);
    }
    var code := cg.Code();
    return Ok(code);
  }

  /** `specialize_load_simple_collection(tf, path)` of either package. */
  method SpecializeLoadSimpleCollection(tf: TypeForm, path: Path, package: Package, revision: Revision)
    returns (r: Result<string, string>)
    ensures r == CodeOf(SpecializeCollection(tf, path, package, revision))
  {
    if tf.origin.None? || tf.args.NoArgs? {
      return Err("AssertionError");
    }
    if |tf.args.items| == 0 {
      return Err("IndexError");
    }
    var origin := tf.origin.value;
    var arg := tf.args.items[0];
    var cg := new Codegen(FnName);
    var loadFn := cg.EmitLoadFn("_load");
    ghost var start := cg.parts;
    cg.EmitReturn();
    assert Concat(cg.parts) == LoadFnLine + Repeat(Indent, 1) + "return " by {
      EmitLineText([], "_load" + " = loader._load", 0);
      assert start == [] + LineParts(Indent, "_load" + " = loader._load", 0);
      ConcatPair(start, Repeat(Indent, 1), "return ");
    }
    var delimiters := CollectionDelimiters(origin, revision);
    if delimiters.Err? {
      return Err(delimiters.error);
    }
    var (open, close) := delimiters.value;
    var pathText := CollectionPathText(path, package, revision);
    var rendered := ElementText(arg, package);
    if rendered.Err? {
      return Err(rendered.error);
    }
    var element := rendered.value;
    ghost var returned := cg.parts;
    var text := Comprehension(open, close, element, pathText);
    cg.Emit(text);
    assert Concat(cg.parts) == LoadFnLine + Repeat(Indent, 1) + "return " + text by {
      ConcatAppend(returned, text);
    }
    var code := cg.Code();
    return Ok(code);
  }

  /** The brackets of the comprehension for the collection `origin`. */
  method CollectionDelimiters(origin: TypeForm, revision: Revision) returns (r: Result<(string, string), string>)
    ensures Delimiters(origin, revision).Err? ==> r == Err(Delimiters(origin, revision).error)
    ensures Delimiters(origin, revision).Ok? ==>
      r == Ok((Delimiters(origin, revision).value.0, Delimiters(origin, revision).value.1))
  {
    if origin == ListClass {
      r := Ok(("[", "]"));
    } else if origin == SetClass {
      r := Ok(("{", "}"));
    } else if origin == FrozenSetClass && revision == AsWritten {
      r := Ok(("({", "})"));
    } else if origin.qualname == "" {
      r := Err("AttributeError");
    } else {
      r := Ok((origin.qualname + "([", "])"));
    }
  }

  /** The path text of the `_load` call for item `pos`. */
  method CollectionPathText(path: Path, package: Package, revision: Revision) returns (s: string)
    ensures s == if package == Gluetypes && revision == AsWritten then GluePathText(path)
                 else PathReprText(Items(path) + [Ident("pos")])
  {
    if package == Gluetypes && revision == AsWritten {
      s := "(" + Join(ReprAll(path) + ["pos"], ", ") + ")";
    } else {
      s := PathRepr(Items(path) + [Ident("pos")]);
    }
  }

  /** The element type as written in the generated code. */
  method ElementText(arg: TypeForm, package: Package) returns (r: Result<string, string>)
    ensures var e := if package == Tressed then RenderForm(arg) else RenderName(arg);
      r == if e.Ok? then Ok(e.value.text) else Err(e.error)
  {
    if package == Tressed {
      var rendered := RenderForm(arg);
      if rendered.Err? {
        return Err(rendered.error);
      }
      return Ok(rendered.value.text);
    } else {
      if arg.qualname == "" {
        return Err("AttributeError");
      }
      return Ok(arg.qualname);
    }
  }
}
