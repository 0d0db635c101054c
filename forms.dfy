/** Type forms: the descriptors the loader and the dumper dispatch on.

    A type form is modelled by the attributes the engines read from it with
    `getattr`: `__name__`, `__qualname__`, its `repr`, `__origin__`, `__args__`,
    `__type_params__`, `__metadata__`, and the host classification that the
    predicates test (dataclass, enum, NewType, ...). Python compares type forms by
    identity (`origin is tuple`); the model compares descriptors by value. */
module Forms {
  import opened Wrappers

  /** One entry of a dataclass's `__dataclass_fields__`: its name, the
      string-valued part of its `metadata` mapping, and whether the generated
      `__init__` requires it (no default and no default factory). */
  datatype Field = Field(name: string, metadata: map<string, string>, required: bool)

  /** One element of an `Annotated` form's `__metadata__`. */
  datatype Meta = DiscriminatorMeta | OtherMeta(text: string)

  /** `__args__`: absent, or a tuple of type forms. */
  datatype Args = NoArgs | ArgsOf(items: seq<TypeForm>)

  /** What kind of host object the descriptor stands for. */
  datatype Kind =
    | KSpecial                      // a typing construct, a generic alias, Ellipsis: not a class
    | KClass(inBuiltins: bool)      // a class; `inBuiltins` when `builtins` binds its qualname
    | KDataclass(fields: seq<Field>)
    | KNewType(supertype: TypeForm) // `typing.NewType`, with its `__supertype__`
    | KEnum
    | KNamedTuple
    | KIpAddress
    | KUuid
    | KDatetime
    | KFspath
    | KTypedDict
    | KTypeAlias                    // a `type X = ...` alias
    | KTypeVar

  /** The attributes of a type form; an empty `name`/`qualname` stands for a missing
      (or empty, hence falsy) attribute, `metadata` is `None` without `__metadata__`. */
  datatype TypeForm = TypeForm(
    name: string,
    qualname: string,
    reprText: string,
    origin: Option<TypeForm>,
    args: Args,
    typeParams: seq<TypeForm>,
    metadata: Option<seq<Meta>>,
    kind: Kind)

  /** `__args__` as a sequence; an absent attribute reads as empty. */
  function ArgItems(tf: TypeForm): seq<TypeForm> {
    match tf.args
    case NoArgs => []
    case ArgsOf(items) => items
  }

  /** A plain class object. */
  function ClassForm(qualname: string, kind: Kind): TypeForm {
    TypeForm(qualname, qualname, "<class '" + qualname + "'>", None, NoArgs, [], None, kind)
  }

  /** An unsubscripted `typing` construct. */
  function SpecialForm(name: string): TypeForm {
    TypeForm(name, name, "typing." + name, None, NoArgs, [], None, KSpecial)
  }

  /** A type variable (a type parameter of a generic class). */
  function TypeVarForm(name: string): TypeForm {
    TypeForm(name, name, "~" + name, None, NoArgs, [], None, KTypeVar)
  }

  /** `origin[args...]`: a generic alias forwards the name, qualname and type
      parameters of its origin. */
  function Generic(origin: TypeForm, args: seq<TypeForm>): TypeForm {
    TypeForm(origin.name, origin.qualname, origin.reprText, Some(origin), ArgsOf(args),
             origin.typeParams, None, KSpecial)
  }

  /** `Annotated[base, metadata...]`. */
  function Annotated(base: TypeForm, metadata: seq<Meta>): TypeForm {
    TypeForm("Annotated", "Annotated", "typing.Annotated", Some(base), ArgsOf([base]), [],
             Some(metadata), KSpecial)
  }

  const IntClass := ClassForm("int", KClass(true))
  const FloatClass := ClassForm("float", KClass(true))
  const StrClass := ClassForm("str", KClass(true))
  const BoolClass := ClassForm("bool", KClass(true))
  const ComplexClass := ClassForm("complex", KClass(true))
  const TupleClass := ClassForm("tuple", KClass(true))
  const ListClass := ClassForm("list", KClass(true))
  const SetClass := ClassForm("set", KClass(true))
  const FrozenSetClass := ClassForm("frozenset", KClass(true))
  const DictClass := ClassForm("dict", KClass(true))
  /** `type(None)`: its name is not bound in `builtins`. */
  const NoneTypeClass := ClassForm("NoneType", KClass(false))
  /** `types.UnionType`, the origin of `X | Y`. */
  const UnionTypeClass := ClassForm("UnionType", KClass(false))
  /** The `...` object: no `__name__`, no `__qualname__`. */
  const Ellipsis := TypeForm("", "", "Ellipsis", None, NoArgs, [], None, KSpecial)

  const TypingTuple := SpecialForm("Tuple")
  const TypingList := SpecialForm("List")
  const TypingSet := SpecialForm("Set")
  const TypingFrozenSet := SpecialForm("FrozenSet")
  const TypingDict := SpecialForm("Dict")
  const TypingUnion := SpecialForm("Union")
  const TypingOptional := SpecialForm("Optional")
  const TypingLiteral := SpecialForm("Literal")

  /** Evaluating a bare name in a namespace whose only globals are the builtins:
      the class it binds, or `None` for a `NameError`. */
  function BuiltinByName(name: string): (r: Option<TypeForm>)
    ensures r.Some? ==> r.value.qualname == name && r.value.kind == KClass(true)
  {
    if name == "int" then Some(IntClass)
    else if name == "float" then Some(FloatClass)
    else if name == "str" then Some(StrClass)
    else if name == "bool" then Some(BoolClass)
    else if name == "complex" then Some(ComplexClass)
    else if name == "tuple" then Some(TupleClass)
    else if name == "list" then Some(ListClass)
    else if name == "set" then Some(SetClass)
    else if name == "frozenset" then Some(FrozenSetClass)
    else if name == "dict" then Some(DictClass)
    else None
  }

  /** A size measure: strictly larger than the origin, every argument and the
      NewType supertype of a form. */
  function Size(tf: TypeForm): nat {
    1 + OriginSize(tf.origin) + ArgsSize(tf.args) + SupertypeSize(tf.kind)
  }

  function OriginSize(o: Option<TypeForm>): nat {
    match o
    case None => 0
    case Some(t) => Size(t)
  }

  function ArgsSize(a: Args): nat {
    match a
    case NoArgs => 0
    case ArgsOf(items) => SumSizes(items)
  }

  function SupertypeSize(k: Kind): nat {
    match k
    case KNewType(s) => Size(s)
    case _ => 0
  }

  function SumSizes(items: seq<TypeForm>): nat {
    if items == [] then 0 else Size(items[0]) + SumSizes(items[1..])
  }

  lemma {:induction false} SumSizesBound(items: seq<TypeForm>, i: nat)
    requires i < |items|
    ensures Size(items[i]) <= SumSizes(items)
    decreases i
  {
    if i > 0 {
      SumSizesBound(items[1..], i - 1);
    }
  }

  lemma ArgSmaller(tf: TypeForm, i: nat)
    requires i < |ArgItems(tf)|
    ensures Size(ArgItems(tf)[i]) < Size(tf)
  {
    SumSizesBound(ArgItems(tf), i);
  }

  /** A NewType's supertype is smaller than the NewType. */
  lemma SupertypeSmaller(tf: TypeForm)
    requires tf.kind.KNewType?
    ensures Size(tf.kind.supertype) < Size(tf)
  {
    assert SupertypeSize(tf.kind) == Size(tf.kind.supertype);
  }

  lemma BuiltinSmallest(name: string)
    requires BuiltinByName(name).Some?
    ensures Size(BuiltinByName(name).value) == 1
  {
  }
}
