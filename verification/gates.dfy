/** The call-time gates of the decorator: dependency and environment
    checks, the argument gate (`_validate_args`) and the result gate
    (`_validate_result`) with the tuple side channel. */
module Gates {
  import opened Common
  import opened PyModel
  import opened Contracts

  // ---------------------------------------------------------------------------
  // check_dependencies
  // ---------------------------------------------------------------------------

  /** The index of the first dependency that cannot be imported, if any. */
  function MissingDependency(deps: seq<string>, importable: set<string>): (r: Option<nat>)
    ensures r.Some? ==> r.value < |deps| && deps[r.value] !in importable
    ensures r.Some? ==> forall j :: 0 <= j < r.value ==> deps[j] in importable
    ensures r.None? <==> forall j :: 0 <= j < |deps| ==> deps[j] in importable
  {
    if deps == [] then None
    else if deps[0] !in importable then Some(0)
    else match MissingDependency(deps[1..], importable)
      case None => None
      case Some(i) => Some(i + 1)
  }

  /** What `check_dependencies` raises: ImportError naming the first missing module. */
  function DependencyCheck(deps: seq<string>, importable: set<string>): Outcome<Error> {
    match MissingDependency(deps, importable)
    case None => Pass
    case Some(i) => Fail(Error(ImportError, deps[i]))
  }

  /** `check_dependencies(dependencies)`: imports each module in order and raises on the first failure. */
  method CheckDependencies(deps: seq<string>, importable: set<string>) returns (r: Outcome<Error>)
    ensures r == DependencyCheck(deps, importable)
    ensures r.Pass? <==> forall d :: d in deps ==> d in importable
  {
    var i := 0;
    while i < |deps|
      invariant 0 <= i <= |deps|
      invariant forall j :: 0 <= j < i ==> deps[j] in importable
    {
      if deps[i] !in importable {
        return Fail(Error(ImportError, deps[i]));
      }
      i := i + 1;
    }
    return Pass;
  }

  // ---------------------------------------------------------------------------
  // check_env_vars
  // ---------------------------------------------------------------------------

  /** A variable is acceptable when it is set and `typ(value)` does not raise. */
  predicate EnvVarOk(v: (string, string), env: map<string, string>, castable: (string, string) -> bool) {
    v.0 in env && castable(v.1, env[v.0])
  }

  /** The index of the first declared variable that is unset or cannot be cast, if any. */
  function FirstEnvFailure(vars: seq<(string, string)>, env: map<string, string>,
                           castable: (string, string) -> bool): (r: Option<nat>)
    ensures r.Some? ==> r.value < |vars| && !EnvVarOk(vars[r.value], env, castable)
    ensures r.Some? ==> forall j :: 0 <= j < r.value ==> EnvVarOk(vars[j], env, castable)
    ensures r.None? <==> forall j :: 0 <= j < |vars| ==> EnvVarOk(vars[j], env, castable)
  {
    if vars == [] then None
    else if !EnvVarOk(vars[0], env, castable) then Some(0)
    else match FirstEnvFailure(vars[1..], env, castable)
      case None => None
      case Some(i) => Some(i + 1)
  }

  /** What `check_env_vars` raises: EnvironmentError for an unset variable,
      ValueError for one whose value its type cannot take. */
  function EnvCheck(vars: seq<(string, string)>, env: map<string, string>,
                    castable: (string, string) -> bool): Outcome<Error>
  {
    match FirstEnvFailure(vars, env, castable)
    case None => Pass
    case Some(i) =>
      if vars[i].0 !in env then Fail(Error(EnvironmentError, vars[i].0))
      else Fail(Error(ValueError, vars[i].0))
  }

  /** `check_env_vars(env_vars)`: the variables in declaration order, raising on the first failure. */
  method CheckEnvVars(vars: seq<(string, string)>, env: map<string, string>,
                      castable: (string, string) -> bool) returns (r: Outcome<Error>)
    ensures r == EnvCheck(vars, env, castable)
    ensures r.Pass? <==> forall j :: 0 <= j < |vars| ==> vars[j].0 in env && castable(vars[j].1, env[vars[j].0])
  {
    for i := 0 to |vars|
      invariant forall j :: 0 <= j < i ==> EnvVarOk(vars[j], env, castable)
    {
      var (name, typ) := vars[i];
      if name !in env {
        return Fail(Error(EnvironmentError, name));
      }
      if !castable(typ, env[name]) {
        return Fail(Error(ValueError, name));
      }
    }
    return Pass;
  }

  // ---------------------------------------------------------------------------
  // _validate_args
  // ---------------------------------------------------------------------------

  /** `bound.arguments.get(name)` */
  function ArgOf(arguments: map<string, Value>, name: string): Value {
    if name in arguments then arguments[name] else NoneV
  }

  /** The bound arguments after `_validate_args`, or what it raises. */
  function ArgGate(slot: Option<ArgSlot>, arguments: map<string, Value>, validate: Validator)
    : (r: Result<map<string, Value>, Error>)
    ensures slot.None? ==> r == Ok(arguments)
    // the call receives None or an instance of the declared class, never the raw mapping
    ensures r.Ok? && slot.Some? ==>
              var v := ArgOf(r.value, slot.value.name);
              v == NoneV || IsInstance(v, slot.value.cls)
    // nothing but the positional argument is touched
    ensures r.Ok? ==> r.value.Keys == arguments.Keys
    ensures r.Ok? ==> forall k :: k in arguments && (slot.None? || k != slot.value.name) ==> r.value[k] == arguments[k]
    // values already acceptable pass through unchanged
    ensures slot.Some? && (ArgOf(arguments, slot.value.name) == NoneV
                           || IsInstance(ArgOf(arguments, slot.value.name), slot.value.cls))
            ==> r == Ok(arguments)
    // a mapping is validated into the declared class; a failed validation is a ValueError
    ensures slot.Some? && ArgOf(arguments, slot.value.name).Dict?
            && !IsInstance(ArgOf(arguments, slot.value.name), slot.value.cls) ==>
              match validate(slot.value.cls, ArgOf(arguments, slot.value.name))
              case Ok(fields) => r == Ok(arguments[slot.value.name := ModelInst(slot.value.cls, fields)])
              case Err(_) => r == Err(Error(ValueError, slot.value.name))
    // anything else is a TypeError, without any coercion attempt
    ensures slot.Some? ==>
              var v := ArgOf(arguments, slot.value.name);
              (v != NoneV && !IsInstance(v, slot.value.cls) && !v.Dict?
               <==> r == Err(Error(TypeError, slot.value.name)))
  {
    match slot
    case None => Ok(arguments)
    case Some(ArgSlot(name, cls)) =>
      var v := ArgOf(arguments, name);
      if v == NoneV || IsInstance(v, cls) then Ok(arguments)
      else if v.Dict? then
        match validate(cls, v)
        case Ok(fields) => Ok(arguments[name := ModelInst(cls, fields)])
        case Err(_) => Err(Error(ValueError, name))
      else Err(Error(TypeError, name))
  }

  lemma ModelInstIsInstance(cls: ModelClass, fields: map<string, Value>)
    ensures IsInstance(ModelInst(cls, fields), cls)
  {
    assert IsSubclass(cls, cls);
  }

  /** `inspect.BoundArguments`: the `arguments` dict the argument gate rewrites in place. */
  class BoundArguments {
    var arguments: map<string, Value>

    constructor (arguments: map<string, Value>)
      ensures this.arguments == arguments
    {
      this.arguments := arguments;
    }

    /** `_validate_args(bound)` */
    method ValidateArgs(slot: Option<ArgSlot>, validate: Validator) returns (r: Outcome<Error>)
      modifies this
      ensures match ArgGate(slot, old(arguments), validate)
        case Ok(a) => r == Pass && arguments == a
        case Err(e) => r == Fail(e) && arguments == old(arguments)
    {
      if slot.Some? {
        var name := slot.value.name;
        var cls := slot.value.cls;
        var arg := ArgOf(arguments, name);
        if arg != NoneV && !IsInstance(arg, cls) {
          if arg.Dict? {
            var casted := validate(cls, arg);
            if casted.Err? {
              return Fail(Error(ValueError, name));
            }
            ModelInstIsInstance(cls, casted.value);
            arguments := arguments[name := ModelInst(cls, casted.value)];
          } else {
            return Fail(Error(TypeError, name));
          }
        }
      }
      r := Pass;
    }
  }

  // ---------------------------------------------------------------------------
  // _validate_result and the tuple side channel
  // ---------------------------------------------------------------------------

  predicate AllModels(items: seq<Value>) {
    forall i :: 0 <= i < |items| ==> items[i].ModelInst?
  }

  /** `_validate_result(result)`: the validated value, or what it raises. */
  function ResultGate(mode: Mode, c: Contract, result: Value): (r: Result<Value, Error>)
    // frame shapes: element 0 of a tuple (or the value itself) must be frame-like and is returned
    ensures mode == Queryable && c.expected in {FrameShape, FrameSchemaShape} ==>
              (r.Ok? ==> IsFrameLike(r.value)
                         && (if result.Tuple? then |result.items| > 0 && r.value == result.items[0]
                             else r.value == result))
              && (!result.Tuple? ==> (r.Ok? <==> IsFrameLike(result)))
              && (result.Tuple? && |result.items| > 0 ==> (r.Ok? <==> IsFrameLike(result.items[0])))
    // model shapes: the result itself is checked and returned unchanged
    ensures mode == Queryable && c.expected == Model ==> (r.Ok? <==> result.ModelInst?)
    ensures mode == Queryable && c.expected == ModelList ==>
              (r.Ok? <==> result.ListV? && AllModels(result.items))
    ensures mode == Mutatable ==> (r.Ok? <==> c.retType.Some? && IsInstance(result, c.retType.value))
    ensures mode == Script ==> r == Ok(result)
    ensures r.Ok? && !(mode == Queryable && c.expected in {FrameShape, FrameSchemaShape}) ==> r.value == result
    // every rejection is a TypeError, except indexing into an empty tuple
    ensures r.Err? ==> r.error.kind == TypeError || (r.error.kind == IndexError && result == Tuple([]))
  {
    match mode
    case Queryable =>
      if c.expected == FrameShape || c.expected == FrameSchemaShape then
        if result.Tuple? && |result.items| == 0 then Err(Error(IndexError, "tuple index out of range"))
        else
          var frameObj := if result.Tuple? then result.items[0] else result;
          if IsFrameLike(frameObj) then Ok(frameObj) else Err(Error(TypeError, "frame"))
      else if c.expected == Model && !result.ModelInst? then Err(Error(TypeError, "model"))
      else if c.expected == ModelList && !(result.ListV? && AllModels(result.items)) then
        Err(Error(TypeError, "model_list"))
      else Ok(result)
    case Mutatable =>
      if c.retType.Some? && IsInstance(result, c.retType.value) then Ok(result)
      else Err(Error(TypeError, "mutatable"))
    case Script => Ok(result)
  }

  /** The wrapper's last step as written: validate, then, whenever the raw result is
      a tuple, return `(validated, result[1])`, whatever the mode. */
  function PostCallAsWritten(mode: Mode, c: Contract, result: Value): (r: Result<Value, Error>)
    // a failed gate propagates unchanged
    ensures ResultGate(mode, c, result).Err? ==> r == ResultGate(mode, c, result)
    // a non-tuple result: the validated value
    ensures ResultGate(mode, c, result).Ok? && !result.Tuple? ==> r == ResultGate(mode, c, result)
    // a tuple result: the pair (validated, result[1]), or an IndexError when there is no result[1]
    ensures ResultGate(mode, c, result).Ok? && result.Tuple? && |result.items| > 1 ==>
              r == Ok(Tuple([ResultGate(mode, c, result).value, result.items[1]]))
    ensures ResultGate(mode, c, result).Ok? && result.Tuple? && |result.items| <= 1 ==>
              r == Err(Error(IndexError, "tuple index out of range"))
    // so a success on a tuple is always a pair that keeps element 1
    ensures r.Ok? && result.Tuple? ==> |result.items| > 1 && r.value.Tuple? && |r.value.items| == 2 && r.value.items[1] == result.items[1]
  {
    match ResultGate(mode, c, result)
    case Err(e) => Err(e)
    case Ok(validated) =>
      if result.Tuple? then
        if |result.items| > 1 then Ok(Tuple([validated, result.items[1]]))
        else Err(Error(IndexError, "tuple index out of range"))
      else Ok(validated)
  }

  /** A script that returns a pair comes back with the pair nested inside a new pair. */
  lemma ScriptTupleNestedAsWritten(c: Contract)
    ensures var pair := Tuple([IntV(1), IntV(2)]);
            PostCallAsWritten(Script, c, pair) == Ok(Tuple([pair, IntV(2)]))
            && PostCallAsWritten(Script, c, pair) != Ok(pair)
  {
    var pair := Tuple([IntV(1), IntV(2)]);
    assert Tuple([pair, IntV(2)]) != pair by {
      assert Tuple([pair, IntV(2)]).items[0] != pair.items[0];
    }
  }

  /** The wrapper's last step as intended: the side channel of a frame tuple is kept,
      a script's result is returned exactly as the function produced it. */
  function PostCall(mode: Mode, c: Contract, result: Value): (r: Result<Value, Error>)
    ensures mode == Script ==> r == Ok(result)
    ensures mode != Script ==> r == PostCallAsWritten(mode, c, result)
    // spelled out for the checked modes
    ensures mode != Script && ResultGate(mode, c, result).Err? ==> r == ResultGate(mode, c, result)
    ensures mode != Script && ResultGate(mode, c, result).Ok? && !result.Tuple? ==> r == ResultGate(mode, c, result)
    ensures mode != Script && ResultGate(mode, c, result).Ok? && result.Tuple? && |result.items| > 1 ==>
              r == Ok(Tuple([ResultGate(mode, c, result).value, result.items[1]]))
    ensures mode != Script && ResultGate(mode, c, result).Ok? && result.Tuple? && |result.items| <= 1 ==>
              r == Err(Error(IndexError, "tuple index out of range"))
  {
    if mode == Script then Ok(result) else PostCallAsWritten(mode, c, result)
  }

  /** A queryable returning `(frame, side_channel)` gets back the frame and the untouched side channel. */
  lemma FrameTupleKeepsSideChannel(c: Contract, frame: Value, side: Value)
    requires c.expected in {FrameShape, FrameSchemaShape}
    requires IsFrameLike(frame)
    ensures PostCall(Queryable, c, Tuple([frame, side])) == Ok(Tuple([frame, side]))
  {
  }

  /** An empty list satisfies a `list[Model]` contract; a plain dict never satisfies a mutatable's. */
  lemma EmptyListAndDictResults(c: Contract, d: map<string, Value>)
    ensures c.expected == ModelList ==> PostCall(Queryable, c, ListV([])) == Ok(ListV([]))
    ensures PostCall(Mutatable, c, Dict(d)).Err?
  {
  }
}
