/** Type predicates: the tests the engines' ordered mapper tables are keyed on.

    Each predicate reads only attributes of the type form. The host guards a
    predicate on whether the module defining the construct it tests for has been
    imported; a type form of such a kind can exist only once that module is
    imported, so the guards do not change a result and are not modelled (except
    for the discriminated-union test, where the guard decides whether the
    assertions run). */
module Predicates {
  import opened Wrappers
  import opened Forms

  /** `getattr(type_form, "__origin__", None)`. */
  function GetOrigin(tf: TypeForm): Option<TypeForm> { tf.origin }

  /** `getattr(type_form, "__args__", None)`. */
  function GetArgs(tf: TypeForm): Args { tf.args }

  predicate OriginIs(tf: TypeForm, a: TypeForm, b: TypeForm) {
    tf.origin == Some(a) || tf.origin == Some(b)
  }

  /** `tuple[T, ...]` or `typing.Tuple[T, ...]`. */
  predicate IsHomogeneousTupleType(tf: TypeForm) {
    OriginIs(tf, TupleClass, TypingTuple)
    && tf.args.ArgsOf? && |tf.args.items| == 2 && tf.args.items[1] == Ellipsis
  }

  predicate IsTupleType(tf: TypeForm) { OriginIs(tf, TupleClass, TypingTuple) }
  predicate IsListType(tf: TypeForm) { OriginIs(tf, ListClass, TypingList) }
  predicate IsSetType(tf: TypeForm) { OriginIs(tf, SetClass, TypingSet) }
  predicate IsFrozenSetType(tf: TypeForm) { OriginIs(tf, FrozenSetClass, TypingFrozenSet) }
  predicate IsDictType(tf: TypeForm) { OriginIs(tf, DictClass, TypingDict) }

  predicate IsDataclassType(tf: TypeForm) { tf.kind.KDataclass? }
  predicate IsNewType(tf: TypeForm) { tf.kind.KNewType? }
  predicate IsIpAddressType(tf: TypeForm) { tf.kind == KIpAddress }
  predicate IsTypedDict(tf: TypeForm) { tf.kind == KTypedDict }
  predicate IsNamedTupleType(tf: TypeForm) { tf.kind == KNamedTuple }
  predicate IsUuidType(tf: TypeForm) { tf.kind == KUuid }
  predicate IsEnumType(tf: TypeForm) { tf.kind == KEnum }
  predicate IsTypeAliasType(tf: TypeForm) { tf.kind == KTypeAlias }
  predicate IsFspathType(tf: TypeForm) { tf.kind == KFspath }
  predicate IsDatetimeType(tf: TypeForm) { tf.kind == KDatetime }
  predicate IsLiteralType(tf: TypeForm) { tf.origin == Some(TypingLiteral) }

  /** `T | None` or `typing.Optional[T]`. */
  predicate IsOptionalType(tf: TypeForm) {
    tf.origin.Some? && tf.args.ArgsOf?
    && ((|tf.args.items| == 2 && NoneTypeClass in tf.args.items && OriginIs(tf, UnionTypeClass, TypingUnion))
        || (|tf.args.items| == 1 && tf.origin == Some(TypingOptional)))
  }

  /** `X | Y` or `typing.Union[X, Y]`, with at least one argument. */
  predicate IsUnionType(tf: TypeForm) {
    |ArgItems(tf)| > 0 && OriginIs(tf, UnionTypeClass, TypingUnion)
  }

  function CountDiscriminators(metadata: seq<Meta>): (n: nat)
    ensures n <= |metadata|
    ensures n == 0 <==> DiscriminatorMeta !in metadata
  {
    if metadata == [] then 0
    else (if metadata[0] == DiscriminatorMeta then 1 else 0) + CountDiscriminators(metadata[1..])
  }

  /** `is_discriminated_union`: an `Annotated` union carrying exactly one
      discriminator. `moduleLoaded` is whether the discriminated-union module has
      been imported; `Err` stands for the failing `assert args` or the failing
      one-element unpacking of the arguments. */
  function IsDiscriminatedUnion(tf: TypeForm, moduleLoaded: bool): (r: Result<bool, string>)
    ensures r == Ok(true) <==>
      tf.metadata.Some? && moduleLoaded && |ArgItems(tf)| == 1 && IsUnionType(ArgItems(tf)[0])
      && CountDiscriminators(tf.metadata.value) == 1
    ensures r.Err? <==> tf.metadata.Some? && moduleLoaded && |ArgItems(tf)| != 1
  {
    if tf.metadata.None? || !moduleLoaded then Ok(false)
    else if |ArgItems(tf)| == 0 then Err("AssertionError")
    else if |ArgItems(tf)| != 1 then Err("ValueError")
    else if !IsUnionType(ArgItems(tf)[0]) then Ok(false)
    else Ok(CountDiscriminators(tf.metadata.value) == 1)
  }

  /** The predicates the mapper tables are keyed on. */
  datatype TypePredicate =
    | HomogeneousTuplePred | TuplePred | ListPred | SetPred | FrozenSetPred | DictPred
    | DataclassPred | NewTypePred | IpAddressPred | TypedDictPred | NamedTuplePred
    | UuidPred | EnumPred | LiteralPred | TypeAliasPred | OptionalPred | UnionPred
    | FspathPred | DatetimePred

  /** Calling the predicate on a type form. */
  predicate Holds(p: TypePredicate, tf: TypeForm) {
    match p
    case HomogeneousTuplePred => IsHomogeneousTupleType(tf)
    case TuplePred => IsTupleType(tf)
    case ListPred => IsListType(tf)
    case SetPred => IsSetType(tf)
    case FrozenSetPred => IsFrozenSetType(tf)
    case DictPred => IsDictType(tf)
    case DataclassPred => IsDataclassType(tf)
    case NewTypePred => IsNewType(tf)
    case IpAddressPred => IsIpAddressType(tf)
    case TypedDictPred => IsTypedDict(tf)
    case NamedTuplePred => IsNamedTupleType(tf)
    case UuidPred => IsUuidType(tf)
    case EnumPred => IsEnumType(tf)
    case LiteralPred => IsLiteralType(tf)
    case TypeAliasPred => IsTypeAliasType(tf)
    case OptionalPred => IsOptionalType(tf)
    case UnionPred => IsUnionType(tf)
    case FspathPred => IsFspathType(tf)
    case DatetimePred => IsDatetimeType(tf)
  }

  /** Every origin-based predicate is false on a form without `__origin__`. */
  lemma NoOriginNoMatch(tf: TypeForm)
    requires tf.origin.None?
    ensures !IsHomogeneousTupleType(tf) && !IsTupleType(tf) && !IsListType(tf) && !IsSetType(tf)
    ensures !IsFrozenSetType(tf) && !IsDictType(tf) && !IsLiteralType(tf)
    ensures !IsOptionalType(tf) && !IsUnionType(tf)
  {
  }

  /** A homogeneous tuple form is also a tuple form, so the homogeneous test must
      come first in an ordered table. */
  lemma HomogeneousTupleIsTuple(tf: TypeForm)
    ensures IsHomogeneousTupleType(tf) ==> IsTupleType(tf)
    ensures IsTupleType(tf) && !IsHomogeneousTupleType(tf) ==>
      tf.args.NoArgs? || |tf.args.items| != 2 || tf.args.items[1] != Ellipsis
  {
  }

  /** The origin-based collection predicates single out different origins. */
  lemma CollectionPredicatesExclusive(tf: TypeForm)
    ensures IsTupleType(tf) ==> !IsListType(tf) && !IsSetType(tf) && !IsFrozenSetType(tf) && !IsDictType(tf)
    ensures IsListType(tf) ==> !IsSetType(tf) && !IsFrozenSetType(tf) && !IsDictType(tf)
    ensures IsSetType(tf) ==> !IsFrozenSetType(tf) && !IsDictType(tf)
    ensures IsFrozenSetType(tf) ==> !IsDictType(tf)
  {
  }

  /** A two-argument optional form is a union form. */
  lemma OptionalIsUnion(tf: TypeForm)
    requires IsOptionalType(tf) && |ArgItems(tf)| == 2
    ensures IsUnionType(tf)
  {
  }
}
