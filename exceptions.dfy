/** The exceptions of the package, their messages, and the failure kinds the
    engines produce. */
module Exceptions {
  import opened Wrappers
  import opened Text
  import opened Forms
  import opened Values
  import opened TypePaths
  import opened TypeFormText

  /** `TressedTypeError`, `TressedTypeFormError` and `TressedValueError` with the
      attributes their constructors store. */
  datatype TressedError =
    | TressedTypeError(value: Value, typ: TypeForm, path: Path, message: string)
    | TressedTypeFormError(value: Value, typeForm: TypeForm, path: Path, message: string)
    | TressedValueError(value: Value, typeForm: TypeForm, path: Path, message: string,
                        exceptions: seq<TressedError>)

  /** `TressedTypeError(value, type_path, message)` records `type(value)`. */
  function NewTypeError(value: Value, path: Path, message: string): (e: TressedError)
    ensures e.TressedTypeError? && e.typ == TypeOf(value)
    ensures e.value == value && e.path == path && e.message == message
  {
    TressedTypeError(value, TypeOf(value), path, message)
  }

  /** `" at path P for value V"` and the optional `": message"`. */
  function Tail(value: Value, path: Path, message: string): string {
    " at path " + TypePathRepr(path) + " for value " + ReprOf(value)
    + (if message != "" then ": " + message else "")
  }

  /** `str(error)`; `None` when a type form in it cannot be rendered. */
  function ErrorStr(e: TressedError): (r: Option<string>) {
    match e
    case TressedTypeError(value, typ, path, message) =>
      var t :- TypeFormRepr(typ);
      Some("Unhandled type " + t + Tail(value, path, message))
    case TressedTypeFormError(value, tf, path, message) =>
      var t :- TypeFormRepr(tf);
      Some("Unhandled type form " + t + Tail(value, path, message))
    case TressedValueError(value, tf, path, message, exceptions) =>
      var head :- ValueErrorHead(value, tf, path);
      Some(head + (if message != "" then ": " + message else "")
           + (if exceptions != [] then " (" + NatToString(|exceptions|) + " sub-exceptions)" else ""))
  }

  /** `"Failed to load value of type T at path P into type form F"`. */
  function ValueErrorHead(value: Value, tf: TypeForm, path: Path): Option<string> {
    var vt :- TypeFormRepr(TypeOf(value));
    var t :- TypeFormRepr(tf);
    Some("Failed to load value of type " + vt + " at path " + TypePathRepr(path)
         + " into type form " + t)
  }

  /** The exception group `raise_exception_group` raises: the error's message and
      its sub-exceptions. */
  datatype ExceptionGroup = ExceptionGroup(message: Option<string>, exceptions: seq<TressedError>)

  /** `raise_exception_group()`: an `ExceptionGroup` refuses an empty sequence
      of sub-exceptions with a `ValueError`. */
  function RaiseExceptionGroup(e: TressedError): (r: Result<ExceptionGroup, string>)
    requires e.TressedValueError?
    ensures r.Err? <==> e.exceptions == []
    ensures r.Err? ==> r.error == "ValueError"
    ensures r.Ok? ==> r.value.exceptions == e.exceptions && r.value.message == ErrorStr(e)
  {
    if e.exceptions == [] then Err("ValueError") else Ok(ExceptionGroup(ErrorStr(e), e.exceptions))
  }

  /** The message of every error whose type forms render. */
  lemma ErrorStrDefined(e: TressedError)
    requires e.TressedTypeError? ==> Renderable(e.typ)
    requires e.TressedTypeFormError? || e.TressedValueError? ==> Renderable(e.typeForm)
    requires e.TressedValueError? ==> Renderable(TypeOf(e.value))
    ensures ErrorStr(e).Some?
  {
    match e {
      case TressedTypeError(_, typ, _, _) => RenderableRepr(typ);
      case TressedTypeFormError(_, tf, _, _) => RenderableRepr(tf);
      case TressedValueError(value, tf, _, _, _) =>
        RenderableRepr(tf);
        RenderableRepr(TypeOf(value));
    }
  }

  /** `s` ends with `x`. */
  predicate EndsWith(s: string, x: string) {
    |x| <= |s| && s[|s| - |x|..] == x
  }

  lemma Suffix(a: string, b: string)
    ensures EndsWith(a + b, b)
  {
    assert (a + b)[|a + b| - |b|..] == b;
  }

  lemma PrefixExtend(a: string, p: string, s: string)
    requires p <= s
    ensures a + p <= a + s
  {
    assert (a + s)[..|a + p|] == a + p;
  }

  /** The tail of an unhandled-type message opens with the path. */
  lemma TailStarts(value: Value, path: Path, message: string)
    ensures " at path " + TypePathRepr(path) <= Tail(value, path, message)
  {
    var h := " at path " + TypePathRepr(path);
    assert Tail(value, path, message) == h + (" for value " + ReprOf(value) + (if message != "" then ": " + message else ""));
  }

  /** Every message opens with what went wrong and where: the unhandled type
      (or type form) and the path, or, for a value error, the value's type,
      the path and the target type form. */
  lemma MessageHead(e: TressedError)
    requires ErrorStr(e).Some?
    ensures e.TressedTypeError? ==>
      "Unhandled type " + TypeFormRepr(e.typ).value + " at path " + TypePathRepr(e.path) <= ErrorStr(e).value
    ensures e.TressedTypeFormError? ==>
      "Unhandled type form " + TypeFormRepr(e.typeForm).value + " at path " + TypePathRepr(e.path) <= ErrorStr(e).value
    ensures e.TressedValueError? ==>
      "Failed to load value of type " + TypeFormRepr(TypeOf(e.value)).value + " at path " + TypePathRepr(e.path)
        + " into type form " + TypeFormRepr(e.typeForm).value <= ErrorStr(e).value
  {
    match e {
      case TressedTypeError(value, typ, path, message) =>
        TailStarts(value, path, message);
        PrefixExtend("Unhandled type " + TypeFormRepr(typ).value, " at path " + TypePathRepr(path), Tail(value, path, message));
      case TressedTypeFormError(value, tf, path, message) =>
        TailStarts(value, path, message);
        PrefixExtend("Unhandled type form " + TypeFormRepr(tf).value, " at path " + TypePathRepr(path), Tail(value, path, message));
      case TressedValueError(value, tf, path, message, exceptions) =>
        ValueErrorStarts(value, tf, path, message, exceptions);
    }
  }

  /** A value error's message opens with its head. */
  lemma ValueErrorStarts(value: Value, tf: TypeForm, path: Path, message: string, exceptions: seq<TressedError>)
    requires ErrorStr(TressedValueError(value, tf, path, message, exceptions)).Some?
    ensures TypeFormRepr(TypeOf(value)).Some? && TypeFormRepr(tf).Some?
    ensures "Failed to load value of type " + TypeFormRepr(TypeOf(value)).value + " at path " + TypePathRepr(path)
      + " into type form " + TypeFormRepr(tf).value <= ErrorStr(TressedValueError(value, tf, path, message, exceptions)).value
  {
    ValueErrorParts(value, tf, path, message, exceptions);
    ValueHeadIs(value, tf, path);
    PrefixOfSum(ValueErrorHead(value, tf, path).value, if message != "" then ": " + message else "",
      if exceptions != [] then " (" + NatToString(|exceptions|) + " sub-exceptions)" else "");
  }

  lemma PrefixOfSum(h: string, m: string, c: string)
    ensures h <= h + m + c
  {
    assert (h + m + c)[..|h|] == h;
  }

  /** The head of a value error's message, spelled out. */
  lemma ValueHeadIs(value: Value, tf: TypeForm, path: Path)
    requires ValueErrorHead(value, tf, path).Some?
    ensures TypeFormRepr(TypeOf(value)).Some? && TypeFormRepr(tf).Some?
    ensures ValueErrorHead(value, tf, path).value == "Failed to load value of type " + TypeFormRepr(TypeOf(value)).value
      + " at path " + TypePathRepr(path) + " into type form " + TypeFormRepr(tf).value
  {
  }

  /** The tail of an unhandled-type message: the message when there is one,
      else the value. */
  lemma TailEnds(value: Value, path: Path, message: string)
    ensures message != "" ==> EndsWith(Tail(value, path, message), ": " + message)
    ensures message == "" ==> EndsWith(Tail(value, path, message), " for value " + ReprOf(value))
  {
    var h := " at path " + TypePathRepr(path);
    if message != "" {
      assert Tail(value, path, message) == (h + " for value " + ReprOf(value)) + (": " + message);
      Suffix(h + " for value " + ReprOf(value), ": " + message);
    } else {
      assert Tail(value, path, message) == h + (" for value " + ReprOf(value));
      Suffix(h, " for value " + ReprOf(value));
    }
  }

  lemma EndsWithExtend(a: string, s: string, x: string)
    requires EndsWith(s, x)
    ensures EndsWith(a + s, x)
  {
    assert (a + s)[|a + s| - |x|..] == s[|s| - |x|..];
  }

  /** A value error's message: its head, then the optional message and count. */
  lemma ValueErrorParts(value: Value, tf: TypeForm, path: Path, message: string, exceptions: seq<TressedError>)
    requires ErrorStr(TressedValueError(value, tf, path, message, exceptions)).Some?
    ensures ValueErrorHead(value, tf, path).Some?
    ensures ErrorStr(TressedValueError(value, tf, path, message, exceptions)).value
      == ValueErrorHead(value, tf, path).value + (if message != "" then ": " + message else "")
         + (if exceptions != [] then " (" + NatToString(|exceptions|) + " sub-exceptions)" else "")
  {
  }

  /** The head of a value error's message ends with the target type form. */
  lemma HeadEnds(value: Value, tf: TypeForm, path: Path)
    requires ValueErrorHead(value, tf, path).Some?
    ensures TypeFormRepr(tf).Some?
    ensures EndsWith(ValueErrorHead(value, tf, path).value, " into type form " + TypeFormRepr(tf).value)
  {
    var g := "Failed to load value of type " + TypeFormRepr(TypeOf(value)).value + " at path " + TypePathRepr(path);
    assert ValueErrorHead(value, tf, path).value == g + (" into type form " + TypeFormRepr(tf).value);
    Suffix(g, " into type form " + TypeFormRepr(tf).value);
  }

  /** The tail of a value error's message. */
  lemma ValueErrorEnds(value: Value, tf: TypeForm, path: Path, message: string, exceptions: seq<TressedError>)
    requires ErrorStr(TressedValueError(value, tf, path, message, exceptions)).Some?
    ensures var s := ErrorStr(TressedValueError(value, tf, path, message, exceptions)).value;
      && (exceptions != [] ==> EndsWith(s, " (" + NatToString(|exceptions|) + " sub-exceptions)"))
      && (exceptions == [] && message != "" ==> EndsWith(s, ": " + message))
      && (exceptions == [] && message == "" ==> EndsWith(s, " into type form " + TypeFormRepr(tf).value))
  {
    ValueErrorParts(value, tf, path, message, exceptions);
    var h := ValueErrorHead(value, tf, path).value;
    var m := if message != "" then ": " + message else "";
    var c := " (" + NatToString(|exceptions|) + " sub-exceptions)";
    if exceptions != [] {
      Suffix(h + m, c);
    } else if message != "" {
      assert h + m + "" == h + m;
      Suffix(h, m);
    } else {
      assert h + m + "" == h;
      HeadEnds(value, tf, path);
    }
  }

  /** Every message closes with the count of sub-exceptions when there are
      any, else with the message when there is one, else with the value (a
      value error without either ends with its type form). */
  lemma MessageTail(e: TressedError)
    requires ErrorStr(e).Some?
    ensures e.TressedValueError? && e.exceptions != [] ==>
      EndsWith(ErrorStr(e).value, " (" + NatToString(|e.exceptions|) + " sub-exceptions)")
    ensures e.message != "" && !(e.TressedValueError? && e.exceptions != []) ==>
      EndsWith(ErrorStr(e).value, ": " + e.message)
    ensures e.message == "" && !e.TressedValueError? ==>
      EndsWith(ErrorStr(e).value, " for value " + ReprOf(e.value))
    ensures e.message == "" && e.TressedValueError? && e.exceptions == [] ==>
      EndsWith(ErrorStr(e).value, " into type form " + TypeFormRepr(e.typeForm).value)
  {
    match e {
      case TressedTypeError(value, typ, path, message) =>
        TailEnds(value, path, message);
        EndsWithExtend("Unhandled type " + TypeFormRepr(typ).value, Tail(value, path, message),
          if message != "" then ": " + message else " for value " + ReprOf(value));
      case TressedTypeFormError(value, tf, path, message) =>
        TailEnds(value, path, message);
        EndsWithExtend("Unhandled type form " + TypeFormRepr(tf).value, Tail(value, path, message),
          if message != "" then ": " + message else " for value " + ReprOf(value));
      case TressedValueError(value, tf, path, message, exceptions) =>
        ValueErrorEnds(value, tf, path, message, exceptions);
    }
  }

  /** The failures of one load or dump step: no converter for the type form
      (`Unhandled`), a `TressedValueError` (`Invalid`), or any other exception
      (`Foreign`, by the name of its class). */
  datatype EngineError =
    | Unhandled(value: Value, typeForm: TypeForm, path: Path)
    | Invalid(value: Value, typeForm: TypeForm, path: Path)
    | Foreign(reason: string)

  /** The `except` clauses around a converter call: a value error passes
      unchanged, any other exception becomes a value error for this step. */
  function Wrap(e: EngineError, value: Value, tf: TypeForm, path: Path): (r: EngineError)
    ensures r.Invalid?
    ensures e.Invalid? ==> r == e
    ensures !e.Invalid? ==> r == Invalid(value, tf, path)
  {
    if e.Invalid? then e else Invalid(value, tf, path)
  }
}
