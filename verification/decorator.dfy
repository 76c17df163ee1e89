/** The role decorators (`queryable`, `mutatable`, `script`, all built by
    `_build_decorator`) and the wrapper they return. */
module Decorator {
  import opened Common
  import opened PyModel
  import opened Metadata
  import opened Contracts
  import opened Gates

  /** What a decorated function's wrapper closes over. */
  datatype Decorated = Decorated(
    mode: Mode,
    contract: Contract,
    dependencies: seq<string>,
    envVars: seq<(string, string)>,   // env var name and the name of its type, in dict order
    runtimeTypechecking: bool)        // the per-function flag, fixed at decoration time

  /** `_build_decorator(mode, ...)(func)`: infer the contract, set the `__qs_*__`
      attributes, attach the core metadata under the function's module name.
      An inference failure raises before anything is written; a metadata collision
      raises after the three attributes have been set. */
  method Decorate(f: FunctionObject, mode: Mode, dependencies: seq<string>,
                  envVars: seq<(string, string)>, runtimeTypechecking: bool)
    returns (r: Result<Decorated, Error>)
    modifies f
    ensures var inferred := Infer(mode, f.name, f.params, f.ret);
      match inferred
      case Err(e) =>
        r == Err(e) && f.metadata == old(f.metadata) && f.pydanticBases == old(f.pydanticBases)
        && f.mode == old(f.mode) && f.argsType == old(f.argsType) && f.retType == old(f.retType)
      case Ok(c) =>
        && f.mode == Some(mode) && f.argsType == ArgsType(c) && f.retType == c.retType
        && var record := CoreMeta(dependencies, envVars, runtimeTypechecking);
           match Attach(old(f.metadata), f.moduleName, record)
           case Ok(m) =>
             f.metadata == Some(m) && f.pydanticBases == Some(BasesOrEmpty(old(f.pydanticBases)) + [record])
             && r == Ok(Decorated(mode, c, dependencies, envVars, runtimeTypechecking))
           case Err(e) =>
             f.metadata == old(f.metadata) && f.pydanticBases == Some(BasesOrEmpty(old(f.pydanticBases)))
             && r == Err(e)
  {
    var inferred := Infer(mode, f.name, f.params, f.ret);
    if inferred.Err? {
      return Err(inferred.error);
    }
    var c := inferred.value;
    f.argsType := ArgsType(c);
    f.retType := c.retType;
    f.mode := Some(mode);
    var attached := f.AttachMetadata(None, CoreMeta(dependencies, envVars, runtimeTypechecking));
    if attached.Fail? {
      return Err(attached.error);
    }
    r := Ok(Decorated(mode, c, dependencies, envVars, runtimeTypechecking));
  }

  /** Applying two role decorators to one function fails on the second: both
      write under the function's module name. */
  lemma SecondRoleDecoratorFails(meta: Option<map<string, MetaRecord>>, moduleName: string,
                                 first: MetaRecord, second: MetaRecord)
    requires Attach(meta, NamespaceFor(None, moduleName), first).Ok?
    ensures Attach(Some(Attach(meta, NamespaceFor(None, moduleName), first).value),
                   NamespaceFor(None, moduleName), second).Err?
  {
    AttachTwiceFails(meta, moduleName, first, second);
  }

  // ---------------------------------------------------------------------------
  // The wrapper
  // ---------------------------------------------------------------------------

  const DisableVar := "QUICKSCRIPT_DISABLE_RUNTIME_TYPECHECKING"

  /** `GLOBAL_RUNTIME_TYPECHECKING` as computed from the environment: the checks are
      off exactly when the variable is set to "1", "true" or "yes" in any capitalisation. */
  function GlobalTypecheckFromEnv(env: map<string, string>): (r: bool)
    ensures !r <==> DisableVar in env && DisablingWord(env[DisableVar])
    ensures DisableVar !in env ==> r
    ensures DisableVar in env && env[DisableVar] in {"0", "false", "no", ""} ==> r
  {
    var v := if DisableVar in env then env[DisableVar] else "";
    LowerIsSameIgnoringCase(v, "1");
    LowerIsSameIgnoringCase(v, "true");
    LowerIsSameIgnoringCase(v, "yes");
    Lower(v) !in {"1", "true", "yes"}
  }

  predicate DisablingWord(v: string) {
    SameIgnoringCase(v, "1") || SameIgnoringCase(v, "true") || SameIgnoringCase(v, "yes")
  }

  /** The process as a call sees it. */
  datatype Host = Host(
    globalTypecheck: bool,                 // GLOBAL_RUNTIME_TYPECHECKING, read at every call
    env: map<string, string>,              // os.environ
    importable: set<string>,               // modules importlib.import_module can load
    castable: (string, string) -> bool)    // typ(value) succeeds, by type name and value

  /** The arguments a caller passes to the wrapper. */
  datatype CallArgs = CallArgs(positional: seq<Value>, keywords: map<string, Value>)

  /** One call of the wrapper: the bound arguments the underlying function was
      invoked with (None when it was never invoked) and what the wrapper returned or raised. */
  datatype Trace = Trace(called: Option<map<string, Value>>, result: Result<Value, Error>)

  predicate ChecksOn(d: Decorated, host: Host) {
    d.runtimeTypechecking && host.globalTypecheck
  }

  /** Steps before the call when checks are on: dependencies, then environment
      variables, then `sig.bind` with defaults, then the argument gate. */
  function PreCall(d: Decorated, host: Host, args: CallArgs,
                   bind: CallArgs -> Option<map<string, Value>>, validate: Validator)
    : (r: Result<map<string, Value>, Error>)
    ensures DependencyCheck(d.dependencies, host.importable).Fail? ==>
              r == Err(DependencyCheck(d.dependencies, host.importable).error)
    ensures DependencyCheck(d.dependencies, host.importable).Pass?
            && EnvCheck(d.envVars, host.env, host.castable).Fail? ==>
              r == Err(EnvCheck(d.envVars, host.env, host.castable).error)
    ensures DependencyCheck(d.dependencies, host.importable).Pass?
            && EnvCheck(d.envVars, host.env, host.castable).Pass? ==>
              match bind(args)
              case None => r == Err(Error(TypeError, "bind"))
              case Some(bound) => r == ArgGate(d.contract.arg, bound, validate)
    ensures r.Ok? ==> forall m :: m in d.dependencies ==> m in host.importable
    ensures r.Ok? ==> forall j :: 0 <= j < |d.envVars| ==> EnvVarOk(d.envVars[j], host.env, host.castable)
    ensures r.Ok? ==> bind(args).Some? && ArgGate(d.contract.arg, bind(args).value, validate) == Ok(r.value)
    ensures r.Ok? && d.contract.arg.Some? ==>
              var v := ArgOf(r.value, d.contract.arg.value.name);
              v == NoneV || IsInstance(v, d.contract.arg.value.cls)
  {
    match DependencyCheck(d.dependencies, host.importable)
    case Fail(e) => Err(e)
    case Pass =>
      match EnvCheck(d.envVars, host.env, host.castable)
      case Fail(e) => Err(e)
      case Pass =>
        match bind(args)
        case None => Err(Error(TypeError, "bind"))
        case Some(bound) => ArgGate(d.contract.arg, bound, validate)
  }

  /** `sync_wrapper` / `async_wrapper` exactly as written: with checks off, the
      call `func(*bound.args, **bound.kwargs)` reads a local that was never assigned. */
  function WrapperAsWritten(d: Decorated, host: Host, args: CallArgs,
                            bind: CallArgs -> Option<map<string, Value>>, validate: Validator,
                            body: map<string, Value> -> Result<Value, Error>): (t: Trace)
    ensures !ChecksOn(d, host) ==> t == Trace(None, Err(Error(UnboundLocalError, "bound")))
    ensures t.called.None? ==> t.result.Err?
  {
    if ChecksOn(d, host) then
      match PreCall(d, host, args, bind, validate)
      case Err(e) => Trace(None, Err(e))
      case Ok(bound) =>
        match body(bound)
        case Err(e) => Trace(Some(bound), Err(e))
        case Ok(result) => Trace(Some(bound), PostCallAsWritten(d.mode, d.contract, result))
    else
      Trace(None, Err(Error(UnboundLocalError, "bound")))
  }

  /** With checks off, the wrapper as written never calls the function, for every
      function, host, argument list and body. */
  lemma UncheckedCallFailsAsWritten(d: Decorated, host: Host, args: CallArgs,
                                    bind: CallArgs -> Option<map<string, Value>>, validate: Validator,
                                    body: map<string, Value> -> Result<Value, Error>)
    requires !d.runtimeTypechecking || !host.globalTypecheck
    ensures WrapperAsWritten(d, host, args, bind, validate, body).called.None?
    ensures WrapperAsWritten(d, host, args, bind, validate, body).result.Err?
  {
  }

  /** The wrapper as intended: checks, call, result gate when checks are on;
      a transparent pass-through when either flag is off. */
  function Wrapper(d: Decorated, host: Host, args: CallArgs,
                   bind: CallArgs -> Option<map<string, Value>>, validate: Validator,
                   body: map<string, Value> -> Result<Value, Error>): (t: Trace)
    // any failure before the call means the function is never invoked
    ensures ChecksOn(d, host) && PreCall(d, host, args, bind, validate).Err? ==>
              t == Trace(None, Err(PreCall(d, host, args, bind, validate).error))
    // when every check passes, the function is invoked with the gated arguments
    ensures ChecksOn(d, host) && PreCall(d, host, args, bind, validate).Ok? ==>
              t.called == Some(PreCall(d, host, args, bind, validate).value)
    // when invoked under checks, it received the gated arguments and its result was gated
    ensures ChecksOn(d, host) && t.called.Some? ==>
              PreCall(d, host, args, bind, validate) == Ok(t.called.value)
              && (body(t.called.value).Err? ==> t.result == body(t.called.value))
              && (body(t.called.value).Ok? ==> t.result == PostCall(d.mode, d.contract, body(t.called.value).value))
    // pass-through when checks are off
    ensures !ChecksOn(d, host) && bind(args).Some? ==> t == Trace(bind(args), body(bind(args).value))
    ensures t.called.None? ==> t.result.Err?
  {
    if ChecksOn(d, host) then
      match PreCall(d, host, args, bind, validate)
      case Err(e) => Trace(None, Err(e))
      case Ok(bound) =>
        match body(bound)
        case Err(e) => Trace(Some(bound), Err(e))
        case Ok(result) => Trace(Some(bound), PostCall(d.mode, d.contract, result))
    else
      match bind(args)
      case None => Trace(None, Err(Error(TypeError, "bind")))
      case Some(bound) => Trace(Some(bound), body(bound))
  }

  /** With checks off the intended wrapper returns exactly what the function returns. */
  lemma UncheckedCallIsPassThrough(d: Decorated, host: Host, args: CallArgs,
                                   bind: CallArgs -> Option<map<string, Value>>, validate: Validator,
                                   body: map<string, Value> -> Result<Value, Error>)
    requires !d.runtimeTypechecking || !host.globalTypecheck
    requires bind(args).Some?
    ensures Wrapper(d, host, args, bind, validate, body).result == body(bind(args).value)
  {
  }

  /** Under checks, a dict argument that gets past the gates reaches the function as an
      instance of the declared class, never as the raw mapping. */
  lemma {:induction false} DictArgumentReachesFunctionAsModel(
    d: Decorated, host: Host, args: CallArgs,
    bind: CallArgs -> Option<map<string, Value>>, validate: Validator,
    body: map<string, Value> -> Result<Value, Error>)
    requires ChecksOn(d, host) && d.contract.arg.Some?
    requires PreCall(d, host, args, bind, validate).Ok?
    requires ArgOf(bind(args).value, d.contract.arg.value.name).Dict?
    ensures var t := Wrapper(d, host, args, bind, validate, body);
            t.called.Some? && IsInstance(ArgOf(t.called.value, d.contract.arg.value.name), d.contract.arg.value.cls)
  {
    var slot := d.contract.arg.value;
    var bound := bind(args).value;
    var v := ArgOf(bound, slot.name);
    assert !IsInstance(v, slot.cls);
    var gated := PreCall(d, host, args, bind, validate).value;
    assert ArgGate(d.contract.arg, bound, validate) == Ok(gated);
    assert validate(slot.cls, v).Ok?;
    assert gated == bound[slot.name := ModelInst(slot.cls, validate(slot.cls, v).value)];
    ModelInstIsInstance(slot.cls, validate(slot.cls, v).value);
  }

  /** `sync_wrapper` as an imperative procedure (as intended: see `Wrapper`). */
  method Invoke(d: Decorated, host: Host, args: CallArgs,
                bind: CallArgs -> Option<map<string, Value>>, validate: Validator,
                body: map<string, Value> -> Result<Value, Error>) returns (t: Trace)
    ensures t == Wrapper(d, host, args, bind, validate, body)
  {
    if d.runtimeTypechecking && host.globalTypecheck {
      var deps := CheckDependencies(d.dependencies, host.importable);
      if deps.Fail? {
        return Trace(None, Err(deps.error));
      }
      var env := CheckEnvVars(d.envVars, host.env, host.castable);
      if env.Fail? {
        return Trace(None, Err(env.error));
      }
      var b := bind(args);
      if b.None? {
        return Trace(None, Err(Error(TypeError, "bind")));
      }
      var bound := new BoundArguments(b.value);
      var gate := bound.ValidateArgs(d.contract.arg, validate);
      if gate.Fail? {
        return Trace(None, Err(gate.error));
      }
      var result := body(bound.arguments);
      if result.Err? {
        return Trace(Some(bound.arguments), result);
      }
      t := Trace(Some(bound.arguments), PostCall(d.mode, d.contract, result.value));
    } else {
      var b := bind(args);
      if b.None? {
        return Trace(None, Err(Error(TypeError, "bind")));
      }
      t := Trace(b, body(b.value));
    }
  }
}
