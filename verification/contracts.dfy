/** Contract inference: what `_build_decorator` decides from a signature at
    decoration time, before any wrapper exists. */
module Contracts {
  import opened Common
  import opened PyModel

  /** The result shape `_validate_result` will enforce (`expected`); scripts have none. */
  datatype Expected = ModelList | Model | FrameSchemaShape | FrameShape | Unchecked

  /** The single positional parameter and the model class it is annotated with. */
  datatype ArgSlot = ArgSlot(name: string, cls: ModelClass)

  datatype Contract = Contract(
    arg: Option<ArgSlot>,          // positional[0] and its annotation
    expected: Expected,
    retType: Option<ModelClass>)   // __qs_ret_pydantic_type__ (also the class a mutatable must return)

  /** `__qs_args_pydantic_type__` */
  function ArgsType(c: Contract): Option<ModelClass> {
    match c.arg
    case Some(slot) => Some(slot.cls)
    case None => None
  }

  /** The positional-parameter checks pass: at most one positional parameter,
      annotated with a model class. */
  predicate SignatureAccepted(params: seq<Param>) {
    |Positional(params)| <= 1 && (|Positional(params)| == 1 ==> Positional(params)[0].ann.ModelT?)
  }

  /** The return-annotation checks pass for the given mode. */
  predicate ReturnAccepted(mode: Mode, ret: Ann) {
    match mode
    case Queryable => ret != Empty && ret != BareList && (ret.ListOf? ==> ret.inner.ModelT?)
    case Mutatable => ret.ModelT?
    case Script => true
  }

  /** The part of `_build_decorator` that inspects the signature: either the
      contract it stores on the function or the exception it raises. */
  function Infer(mode: Mode, name: string, params: seq<Param>, ret: Ann): (r: Result<Contract, Error>)
    // rejections, in the order the decorator checks them
    ensures |Positional(params)| > 1 ==> r == Err(Error(ValueError, name))
    ensures |Positional(params)| == 1 && !Positional(params)[0].ann.ModelT? ==> r == Err(Error(TypeError, name))
    ensures SignatureAccepted(params) && ret == Empty && mode != Script ==> r == Err(Error(TypeError, name))
    ensures SignatureAccepted(params) && mode == Queryable && ret.ListOf? && !ret.inner.ModelT? ==>
              r == Err(Error(TypeError, name))
    ensures SignatureAccepted(params) && mode == Queryable && ret == BareList ==> r == Err(Error(IndexError, name))
    ensures SignatureAccepted(params) && mode == Mutatable && !ret.ModelT? ==> r == Err(Error(TypeError, name))
    // acceptance: every signature that passes the checks above is accepted
    ensures (SignatureAccepted(params) && mode == Queryable && ret != Empty && ret != BareList
             && (ret.ListOf? ==> ret.inner.ModelT?)) ==> r.Ok?
    ensures SignatureAccepted(params) && mode == Mutatable && ret.ModelT? ==> r.Ok?
    ensures SignatureAccepted(params) && mode == Script ==> r.Ok?
    // the single positional parameter is the argument slot
    ensures r.Ok? ==> |Positional(params)| <= 1
    ensures r.Ok? ==> (r.value.arg.Some? <==> |Positional(params)| == 1)
    ensures r.Ok? && r.value.arg.Some? ==>
              var p := Positional(params)[0];
              p in params && r.value.arg.value == ArgSlot(p.name, p.ann.cls)
    // the return classification
    ensures r.Ok? && mode == Queryable ==>
              && ret != BareList
              && (r.value.expected == ModelList <==> ret.ListOf?)
              && (r.value.expected == Model <==> ret.ModelT?)
              && (r.value.expected == FrameSchemaShape <==> ret == FrameSchemaT)
              && (r.value.expected == FrameShape <==> !ret.ListOf? && !ret.ModelT? && ret != FrameSchemaT)
              && (ret.ListOf? ==> ret.inner.ModelT? && r.value.retType == Some(ret.inner.cls))
              && (ret.ModelT? ==> r.value.retType == Some(ret.cls))
              && (!ret.ListOf? && !ret.ModelT? ==> r.value.retType.None?)
    ensures r.Ok? && mode == Mutatable ==>
              ret.ModelT? && r.value.expected == Model && r.value.retType == Some(ret.cls)
    ensures r.Ok? && mode == Script ==> r.value.expected == Unchecked && r.value.retType.None?
    ensures r.Ok? <==> SignatureAccepted(params) && ReturnAccepted(mode, ret)
    ensures r.Err? ==> r.error.kind in {ValueError, TypeError, IndexError}
  {
    var pos := Positional(params);
    if |pos| > 1 then Err(Error(ValueError, name))
    else if |pos| == 1 && !pos[0].ann.ModelT? then Err(Error(TypeError, name))
    else if ret == Empty && mode != Script then Err(Error(TypeError, name))
    else
      var arg := if |pos| == 1 then Some(ArgSlot(pos[0].name, pos[0].ann.cls)) else None;
      match mode
      case Queryable =>
        if ret.ListOf? then
          if ret.inner.ModelT? then Ok(Contract(arg, ModelList, Some(ret.inner.cls)))
          else Err(Error(TypeError, name))
        else if ret == BareList then Err(Error(IndexError, name))  // get_args(List)[0]
        else if ret.ModelT? then Ok(Contract(arg, Model, Some(ret.cls)))
        else if ret == FrameSchemaT then Ok(Contract(arg, FrameSchemaShape, None))
        else Ok(Contract(arg, FrameShape, None))
      case Mutatable =>
        if ret.ModelT? then Ok(Contract(arg, Model, Some(ret.cls)))
        else Err(Error(TypeError, name))
      case Script =>
        Ok(Contract(arg, Unchecked, None))
  }

  /** Inference looks only at the positional parameters' kinds and annotations:
      adding keyword-only parameters never changes the outcome. */
  lemma {:induction false} KeywordOnlyIrrelevant(mode: Mode, name: string, params: seq<Param>, extra: Param, ret: Ann)
    requires extra.kind == KeywordOnly
    ensures Infer(mode, name, params + [extra], ret) == Infer(mode, name, params, ret)
  {
    PositionalIgnoresKeywordOnly(params, extra);
  }

  lemma PositionalIgnoresKeywordOnly(params: seq<Param>, extra: Param)
    requires extra.kind == KeywordOnly
    ensures Positional(params + [extra]) == Positional(params)
  {
    KeepAppend(params, [extra], IsPositional);
    KeepSingle(extra, IsPositional);
  }
}
