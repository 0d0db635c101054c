/** The routine `specialize_load_tuple` writes for `tuple[int, float, str]` at
    the path `("foo", 1)`, worked out line by line. Each expected line is
    spelled in the pieces the generator writes it in: the indentation, the
    statement and the newline. */
module SpecializerVectors {
  import opened Wrappers
  import opened Text
  import opened Forms
  import opened Values
  import opened TypePaths
  import opened Specializers

  const ThreeArgs := [IntClass, FloatClass, StrClass]
  const ThreeTuple := Generic(TupleClass, ThreeArgs)
  const FooOne: Path := [VStr("foo"), VInt(1)]
  const ThreeItems := [("_item_0", IntClass), ("_item_1", FloatClass), ("_item_2", StrClass)]

  const ExpectedHeader := "def " + "__specialized_fn" + "(value, loader):\n"
  const ExpectedUnpack := "    " + (("_item_0" + ", ") + (("_item_1" + ", ") + "_item_2")) + " = " + "value" + "\n"
  const ExpectedLoadFn := "    " + "_load = loader._load" + "\n"
  const ExpectedLoad0 := "    " + "_item_0" + "_loaded" + " = _load(" + "_item_0" + ", " + "int" + ", " + "('foo', 1, 0)" + ")" + "\n"
  const ExpectedLoad1 := "    " + "_item_1" + "_loaded" + " = _load(" + "_item_1" + ", " + "float" + ", " + "('foo', 1, 1)" + ")" + "\n"
  const ExpectedLoad2 := "    " + "_item_2" + "_loaded" + " = _load(" + "_item_2" + ", " + "str" + ", " + "('foo', 1, 2)" + ")" + "\n"
  const ExpectedEntry0 := "        " + "_item_0_loaded" + "," + "\n"
  const ExpectedEntry1 := "        " + "_item_1_loaded" + "," + "\n"
  const ExpectedEntry2 := "        " + "_item_2_loaded" + "," + "\n"
  const ExpectedTuple := "(" + "\n" + (ExpectedEntry0 + (ExpectedEntry1 + (ExpectedEntry2 + ""))) + "    " + ")" + "\n"

  lemma ThreeItemsNamed()
    ensures UnpackItems(ThreeArgs) == ThreeItems
  {
    assert ItemIdent(0) == "_item_0";
    assert ItemIdent(1) == "_item_1";
    assert ItemIdent(2) == "_item_2";
  }

  lemma IndentRepeated()
    ensures Repeat(Indent, 1) == "    "
    ensures Repeat(Indent, 2) == "        "
  {
    assert Repeat(Indent, 1) == Indent + Repeat(Indent, 0);
    assert Repeat(Indent, 2) == Indent + Repeat(Indent, 1);
  }

  lemma JoinThree(a: string, b: string, c: string, sep: string)
    ensures Join([a, b, c], sep) == (a + sep) + ((b + sep) + c)
  {
    assert [a, b, c][1..] == [b, c];
    assert Join([b, c], sep) == (b + sep) + Join([c], sep);
  }

  lemma ConcatThree(a: string, b: string, c: string)
    ensures Concat([a, b, c]) == a + (b + (c + ""))
  {
    assert [a, b, c][1..] == [b, c];
    assert Concat([b, c]) == b + Concat([c]);
    assert Concat([c]) == c + Concat([]);
  }

  lemma HeaderText()
    ensures Header == ExpectedHeader
  {
  }

  lemma LoadFnText()
    ensures LoadFnLine == ExpectedLoadFn
  {
    IndentRepeated();
  }

  lemma UnpackLine()
    ensures UnpackText(ThreeItems, "value") == ExpectedUnpack
  {
    IndentRepeated();
    assert ItemNames(ThreeItems) == ["_item_0", "_item_1", "_item_2"];
    JoinThree("_item_0", "_item_1", "_item_2", ", ");
  }

  lemma PathText(pos: nat)
    requires pos < 10
    ensures PathReprText(Items(FooOne) + [Item(VInt(pos))]) == "('foo', 1, " + [Digit(pos)] + ")"
  {
    var pieces := Items(FooOne) + [Item(VInt(pos))];
    assert pieces == [Item(VStr("foo")), Item(VInt(1)), Item(VInt(pos))];
    var one := ReprOf(VInt(1));
    assert one == "1" by {
      assert NatToString(1) == [Digit(1)];
      assert Digit(1) == '1';
    }
    var texts := PieceTexts(pieces);
    assert texts[0] == "'foo'";
    assert texts[1] == one;
    assert texts[2] == [Digit(pos)];
    assert texts == ["'foo'", one, [Digit(pos)]];
    JoinThree("'foo'", one, [Digit(pos)], ", ");
  }

  /** The path text of item `pos` under `('foo', 1)`, with the digit spelled. */
  lemma ItemPathText(pos: nat, digit: string)
    requires pos < 3 && digit == [Digit(pos)]
    ensures PathReprText(Items(FooOne) + [Item(VInt(pos))]) == "('foo', 1, " + digit + ")"
  {
    PathText(pos);
  }

  lemma LoadLine0()
    ensures LoadLine(0, ThreeItems[0], FooOne) == ExpectedLoad0
  {
    IndentRepeated();
    ItemPathText(0, "0");
  }

  lemma LoadLine1()
    ensures LoadLine(1, ThreeItems[1], FooOne) == ExpectedLoad1
  {
    IndentRepeated();
    ItemPathText(1, "1");
  }

  lemma LoadLine2()
    ensures LoadLine(2, ThreeItems[2], FooOne) == ExpectedLoad2
  {
    IndentRepeated();
    ItemPathText(2, "2");
  }

  lemma LoadLines()
    ensures LoadText(ThreeItems, FooOne, 3) == ExpectedLoad0 + ExpectedLoad1 + ExpectedLoad2
  {
    LoadLine0();
    LoadLine1();
    LoadLine2();
    assert LoadText(ThreeItems, FooOne, 1) == "" + ExpectedLoad0;
    assert "" + ExpectedLoad0 == ExpectedLoad0;
  }

  lemma TupleLines()
    ensures TupleText(LoadedIdents(ThreeItems), false) == ExpectedTuple
  {
    IndentRepeated();
    var idents := LoadedIdents(ThreeItems);
    assert idents[0] == "_item_0_loaded";
    assert idents[1] == "_item_1_loaded";
    assert idents[2] == "_item_2_loaded";
    var entries := TupleEntries(idents, false);
    assert entries == [ExpectedEntry0, ExpectedEntry1, ExpectedEntry2];
    ConcatThree(ExpectedEntry0, ExpectedEntry1, ExpectedEntry2);
  }

  /** The text and the behaviour of the routine: unpack three items and load
      them as `int`, `float` and `str` at `("foo", 1, i)`. */
  lemma SpecializesThreeTuple()
    ensures SpecializeTuple(ThreeTuple, FooOne).Ok?
    ensures SpecializeTuple(ThreeTuple, FooOne).value.code
         == ExpectedHeader
            + (ExpectedUnpack + ExpectedLoadFn + (ExpectedLoad0 + ExpectedLoad1 + ExpectedLoad2)
               + "    " + "return " + ExpectedTuple)
            + "\n"
    ensures SpecializeTuple(ThreeTuple, FooOne).value.behaviour
         == Unpack([Some(IntClass), Some(FloatClass), Some(StrClass)], FooOne)
  {
    ThreeItemsNamed();
    HeaderText();
    UnpackLine();
    LoadFnText();
    LoadLines();
    TupleLines();
    IndentRepeated();
    assert AllNamed(ThreeItems, 3) by {
      assert AllNamed(ThreeItems, 1);
      assert AllNamed(ThreeItems, 2);
    }
    assert ItemForms(ThreeArgs) == [Some(IntClass), Some(FloatClass), Some(StrClass)];
  }
}
