/** Type paths: where in a value the engines are, as a sequence of keys and
    positions, and their dotted rendering for messages. */
module TypePaths {
  import opened Text
  import opened Values

  /** `tuple[str | int, ...]`; the dumper also places raw mapping keys in paths. */
  type Path = seq<Value>

  function StrAll(path: Path): (r: seq<string>)
    ensures |r| == |path|
    ensures forall i :: 0 <= i < |path| ==> r[i] == StrOf(path[i])
  {
    seq(|path|, i requires 0 <= i < |path| => StrOf(path[i]))
  }

  /** `type_path_repr`: a dot, then the items' `str` joined by dots. */
  function TypePathRepr(path: Path): (r: string)
    ensures |r| >= 1 && r[0] == '.'
  {
    "." + Join(StrAll(path), ".")
  }

  /** Extending a path by one item extends its rendering by that item's text,
      after a separating dot unless the path was the root. */
  lemma TypePathReprExtend(path: Path, item: Value)
    ensures TypePathRepr(path + [item]) ==
      TypePathRepr(path) + (if path == [] then "" else ".") + StrOf(item)
  {
    assert StrAll(path + [item]) == StrAll(path) + [StrOf(item)];
    if path != [] {
      JoinAppend(StrAll(path), ".", StrOf(item));
    }
  }

  /** The root renders as a lone dot. */
  lemma TypePathReprRoot()
    ensures TypePathRepr([]) == "."
  {
  }
}
