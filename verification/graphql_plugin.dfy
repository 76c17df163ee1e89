/** The `supports_graphql` decorator: signature guards, then a "graphql" metadata record. */
module GraphQLPlugin {
  import opened Common
  import opened PyModel
  import opened Metadata

  const Namespace := "graphql"

  /** What `typing.get_origin` returns for an annotation. For `AsyncGenerator[T, None]`
      it is the runtime class `collections.abc.AsyncGenerator`, never the
      `typing.AsyncGenerator` alias itself. */
  datatype Origin = NoOrigin | ListOrigin | AbcAsyncGenerator | TypingAsyncGenerator

  function GetOrigin(ann: Ann): (o: Origin)
    ensures o != TypingAsyncGenerator
    ensures o == AbcAsyncGenerator <==> ann.AsyncGeneratorOf?
  {
    match ann
    case ListOf(_) => ListOrigin
    case BareList => ListOrigin
    case AsyncGeneratorOf(_) => AbcAsyncGenerator
    case _ => NoOrigin
  }

  /** The guards of `supports_graphql` as written: the origin is compared by identity
      with the `typing.AsyncGenerator` alias. */
  function GuardAsWritten(ret: Ann, isCoroutine: bool, isAsyncGen: bool, subscription: bool)
    : (r: Outcome<Error>)
    ensures subscription ==> r.Fail?
    ensures !subscription ==> r == Guard(ret, isCoroutine, isAsyncGen, false)
  {
    if ret == Empty then Fail(Error(ValueError, "return"))
    else if subscription then
      if !isAsyncGen then Fail(Error(ValueError, "async generator"))
      else if GetOrigin(ret) != TypingAsyncGenerator then Fail(Error(ValueError, "AsyncGenerator"))
      else Pass
    else if !isCoroutine then Fail(Error(ValueError, "coroutine"))
    else Pass
  }

  /** An async generator function annotated `AsyncGenerator[int, None]` is exactly what the
      decorator documents for subscriptions, and the guards as written reject it. */
  lemma AsyncGeneratorSubscriptionRejectedAsWritten()
    ensures GuardAsWritten(AsyncGeneratorOf(OtherClass("int")), false, true, true)
         == Fail(Error(ValueError, "AsyncGenerator"))
    ensures Guard(AsyncGeneratorOf(OtherClass("int")), false, true, true) == Pass
  {
  }

  /** The guards as intended: the origin is compared with the runtime
      `collections.abc.AsyncGenerator` class. */
  function Guard(ret: Ann, isCoroutine: bool, isAsyncGen: bool, subscription: bool): (r: Outcome<Error>)
    ensures r.Pass? <==> ret != Empty
                         && (subscription ==> isAsyncGen && ret.AsyncGeneratorOf?)
                         && (!subscription ==> isCoroutine)
    ensures r.Fail? ==> r.error.kind == ValueError
    ensures ret == Empty ==> r == Fail(Error(ValueError, "return"))
  {
    if ret == Empty then Fail(Error(ValueError, "return"))
    else if subscription then
      if !isAsyncGen then Fail(Error(ValueError, "async generator"))
      else if GetOrigin(ret) != AbcAsyncGenerator then Fail(Error(ValueError, "AsyncGenerator"))
      else Pass
    else if !isCoroutine then Fail(Error(ValueError, "coroutine"))
    else Pass
  }

  /** `supports_graphql(name=..., description=..., deprecated=..., subscription=...)(func)`
      (with the intended guards). It returns the very object it was given. */
  method SupportsGraphQL(f: FunctionObject, name: Option<string>, description: Option<string>,
                         deprecated: bool, subscription: bool)
    returns (r: Result<FunctionObject, Error>)
    modifies f
    ensures var guard := Guard(f.ret, f.isCoroutine, f.isAsyncGen, subscription);
      guard.Fail? ==>
        r == Err(guard.error) && f.metadata == old(f.metadata) && f.pydanticBases == old(f.pydanticBases)
    ensures var guard := Guard(f.ret, f.isCoroutine, f.isAsyncGen, subscription);
      var record := GraphQLMeta(name, description, deprecated, subscription);
      guard.Pass? ==>
        match Attach(old(f.metadata), Namespace, record)
        case Ok(m) => r == Ok(f) && f.metadata == Some(m)
                      && f.pydanticBases == Some(BasesOrEmpty(old(f.pydanticBases)) + [record])
        case Err(e) => r == Err(e) && f.metadata == old(f.metadata)
                       && f.pydanticBases == Some(BasesOrEmpty(old(f.pydanticBases)))
    ensures f.mode == old(f.mode) && f.argsType == old(f.argsType) && f.retType == old(f.retType)
  {
    var guard := Guard(f.ret, f.isCoroutine, f.isAsyncGen, subscription);
    if guard.Fail? {
      return Err(guard.error);
    }
    var attached := f.AttachMetadata(Some(Namespace), GraphQLMeta(name, description, deprecated, subscription));
    if attached.Fail? {
      return Err(attached.error);
    }
    r := Ok(f);
  }
}
