/** `type_form_repr`: the human-readable rendering of a type form used in error
    messages. `None` stands for the `IndexError` raised when a parameterised form
    carries more arguments than its origin has type parameters. */
module TypeFormText {
  import opened Wrappers
  import opened Text
  import opened Forms
  import opened Predicates

  function TypeFormRepr(tf: TypeForm): (r: Option<string>) {
    if tf.name == "" then Some(tf.reprText)
    else if tf.typeParams != [] then
      // C[T1=V1, .., Tn=?]
      var params :- ReprAll(tf.typeParams);
      var args :- ReprArgs(tf.args);
      if |args| > |params| then None
      else Some(tf.name + "[" + Join(Bindings(params, args), ", ") + "]")
    else
      var args :- ReprArgs(tf.args);
      if |args| == 0 then Some(tf.name)
      else if |args| > 1 && IsUnionType(tf) then Some(Join(args, " | "))
      else Some(tf.name + "[" + Join(args, ", ") + "]")
  }

  function ReprArgs(a: Args): (r: Option<seq<string>>)
    ensures r.Some? ==> |r.value| == |match a case NoArgs => [] case ArgsOf(items) => items|
  {
    match a
    case NoArgs => Some([])
    case ArgsOf(items) => ReprAll(items)
  }

  function ReprAll(items: seq<TypeForm>): (r: Option<seq<string>>)
    ensures r.Some? ==> |r.value| == |items|
  {
    if items == [] then Some([])
    else
      var first :- TypeFormRepr(items[0]);
      var rest :- ReprAll(items[1..]);
      Some([first] + rest)
  }

  /** `P=V` for each parameter given an argument, `P=?` for the rest. */
  function Bindings(params: seq<string>, args: seq<string>): (r: seq<string>)
    requires |args| <= |params|
    ensures |r| == |params|
  {
    seq(|params|, i requires 0 <= i < |params| =>
      if i < |args| then params[i] + "=" + args[i] else params[i] + "=?")
  }

  /** Forms whose every parameterised part has no more arguments than type parameters. */
  predicate Renderable(tf: TypeForm) {
    (tf.name != "" && tf.typeParams != [] ==> |ArgItems(tf)| <= |tf.typeParams|)
    && AllRenderable(tf.typeParams) && ArgsRenderable(tf.args)
  }

  predicate ArgsRenderable(a: Args) {
    match a
    case NoArgs => true
    case ArgsOf(items) => AllRenderable(items)
  }

  predicate AllRenderable(items: seq<TypeForm>) {
    items == [] || (Renderable(items[0]) && AllRenderable(items[1..]))
  }

  /** Rendering never fails on a renderable form. */
  lemma {:induction false} RenderableRepr(tf: TypeForm)
    requires Renderable(tf)
    ensures TypeFormRepr(tf).Some?
  {
    RenderableReprAll(tf.typeParams);
    match tf.args {
      case NoArgs =>
      case ArgsOf(items) => RenderableReprAll(items);
    }
  }

  lemma {:induction false} RenderableReprAll(items: seq<TypeForm>)
    requires AllRenderable(items)
    ensures ReprAll(items).Some?
  {
    if items != [] {
      RenderableRepr(items[0]);
      RenderableReprAll(items[1..]);
    }
  }

  /** A named form with type parameters and more arguments than parameters cannot be
      rendered. */
  lemma TooManyArgumentsFail(tf: TypeForm)
    requires tf.name != "" && tf.typeParams != [] && |ArgItems(tf)| > |tf.typeParams|
    ensures TypeFormRepr(tf).None?
  {
  }

  /** A named union of several arguments renders as `A | B | ...`, every other
      named form with arguments as `name[A, B, ...]`, and one without as its name. */
  lemma ReprOfArgs(tf: TypeForm, args: seq<string>)
    requires tf.name != "" && tf.typeParams == [] && ReprArgs(tf.args) == Some(args)
    ensures |args| == 0 ==> TypeFormRepr(tf) == Some(tf.name)
    ensures |args| > 1 && IsUnionType(tf) ==> TypeFormRepr(tf) == Some(Join(args, " | "))
    ensures |args| > 0 && !(|args| > 1 && IsUnionType(tf)) ==>
      TypeFormRepr(tf) == Some(tf.name + "[" + Join(args, ", ") + "]")
  {
  }

  /** A generic class's unbound parameters render as `P=?`, each bound one as `P=V`. */
  lemma ReprOfParameterised(tf: TypeForm, params: seq<string>, args: seq<string>, i: nat)
    requires tf.name != "" && tf.typeParams != []
    requires ReprAll(tf.typeParams) == Some(params) && ReprArgs(tf.args) == Some(args)
    requires |args| <= |params| && i < |params|
    ensures TypeFormRepr(tf) == Some(tf.name + "[" + Join(Bindings(params, args), ", ") + "]")
    ensures Bindings(params, args)[i] == params[i] + (if i < |args| then "=" + args[i] else "=?")
  {
  }

  /** A form without a (truthy) `__name__` renders as its `repr`. */
  lemma ReprOfNameless(tf: TypeForm)
    requires tf.name == ""
    ensures TypeFormRepr(tf) == Some(tf.reprText)
  {
  }
}
