/** The gRPC server's decision logic: the method filter of `QuickScriptGRPCHandler.service`
    and the outcome of `call_function`. */
module Grpc {
  import opened Common
  import opened PyModel
  import opened Collect

  const CallMethod := "/QuickScript/Call"

  datatype StatusCode = OK | INVALID_ARGUMENT | NOT_FOUND | INTERNAL

  type Bytes = seq<bv8>

  /** The unary handler wired to `call_function` with identity (de)serialisers. */
  datatype Handler = CallFunctionHandler

  /** `service(handler_call_details)`: a handler for the one exposed method, None otherwise. */
  function Service(rpcMethod: string): (r: Option<Handler>)
    ensures r.Some? <==> rpcMethod == CallMethod
  {
    if rpcMethod == CallMethod then Some(CallFunctionHandler) else None
  }

  /** The JSON and text codecs `call_function` relies on. */
  datatype Codec = Codec(
    loads: Bytes -> Result<Value, string>,    // json.loads(request.decode("utf-8"))
    dumps: Value -> Result<string, string>,   // json.dumps(result)
    modelDumpJson: Value -> Result<string, string>,  // result.model_dump_json() on a model instance
    encode: string -> Bytes)                  // str.encode("utf-8")

  /** `req.get(key)` on a decoded mapping. */
  function GetKey(entries: map<string, Value>, key: string): Value {
    if key in entries then entries[key] else NoneV
  }

  /** The first function whose `__name__` equals the requested name. */
  function FindByName(fs: seq<Function>, name: Value): (r: Option<nat>)
    ensures r.None? <==> forall i :: 0 <= i < |fs| ==> StrV(fs[i].name) != name
    ensures r.Some? ==> r.value < |fs| && StrV(fs[r.value].name) == name
                        && forall j :: 0 <= j < r.value ==> StrV(fs[j].name) != name
  {
    if fs == [] then None
    else if StrV(fs[0].name) == name then Some(0)
    else match FindByName(fs[1..], name)
      case None => None
      case Some(i) => Some(i + 1)
  }

  /** `func(args) if positional else func()` */
  function InvocationFor(f: Function, args: Value): Invocation {
    if |Positional(f.params)| > 0 then WithArg(args) else NoArgs
  }

  /** The serialised result: `model_dump_json()` for a model, `json.dumps` otherwise. */
  function Serialize(codec: Codec, result: Value): Result<string, string> {
    if result.ModelInst? then codec.modelDumpJson(result) else codec.dumps(result)
  }

  /** One call: the status code left on the context (OK when never set), the details
      text, the reply bytes, the function call made, if any, and the exception that
      escapes `call_function` uncaught, if any (one that is not an `Exception`). */
  datatype Reply = Reply(code: StatusCode, details: Option<string>, payload: Bytes,
                         called: Option<(Function, Invocation)>, escaped: Option<Error>)

  /** What `call_function(request, context)` does over the collection's lists. */
  function CallSpec(l: Lists, codec: Codec, call: Call, request: Bytes): (r: Reply)
    // undecodable or non-mapping requests: INVALID_ARGUMENT, no call
    ensures codec.loads(request).Err? || !codec.loads(request).value.Dict? ==>
              r.code == INVALID_ARGUMENT && r.payload == [] && r.called.None?
    // an unknown name: NOT_FOUND, no call
    ensures codec.loads(request).Ok? && codec.loads(request).value.Dict? &&
            FindByName(All(l), GetKey(codec.loads(request).value.entries, "function_name")).None? ==>
              r.code == NOT_FOUND && r.payload == [] && r.called.None?
    // otherwise the first function with that name is called, with `args` exactly when it
    // has a positional parameter
    ensures r.called.Some? ==>
              var req := codec.loads(request).value.entries;
              var i := FindByName(All(l), GetKey(req, "function_name"));
              i.Some? && r.called.value == (All(l)[i.value], InvocationFor(All(l)[i.value], GetKey(req, "args")))
    ensures codec.loads(request).Ok? && codec.loads(request).value.Dict? &&
            FindByName(All(l), GetKey(codec.loads(request).value.entries, "function_name")).Some? ==>
              r.called.Some?
    // a raised `Exception` or a failed serialisation: INTERNAL with empty bytes
    ensures r.called.Some? && call(r.called.value.0, r.called.value.1).Err?
            && IsException(call(r.called.value.0, r.called.value.1).error.kind) ==>
              r.code == INTERNAL && r.payload == [] && r.escaped.None?
    // SystemExit or KeyboardInterrupt is not caught: it escapes and no code is set
    ensures r.escaped.Some? <==>
              r.called.Some? && call(r.called.value.0, r.called.value.1).Err?
              && !IsException(call(r.called.value.0, r.called.value.1).error.kind)
    ensures r.escaped.Some? ==>
              r.escaped.value == call(r.called.value.0, r.called.value.1).error
              && r.code == OK && r.details.None? && r.payload == []
    ensures r.called.Some? && call(r.called.value.0, r.called.value.1).Ok? ==>
              var s := Serialize(codec, call(r.called.value.0, r.called.value.1).value);
              (s.Err? ==> r.code == INTERNAL && r.payload == [])
              && (s.Ok? ==> r.code == OK && r.payload == codec.encode(s.value) && r.details.None?)
    // a model result whose `model_dump_json()` raises is an INTERNAL failure too
    ensures r.called.Some? && call(r.called.value.0, r.called.value.1).Ok?
            && call(r.called.value.0, r.called.value.1).value.ModelInst?
            && codec.modelDumpJson(call(r.called.value.0, r.called.value.1).value).Err? ==>
              r.code == INTERNAL && r.payload == []
    // every failure answers with empty bytes and explains itself
    ensures r.code != OK ==> r.payload == [] && r.details.Some?
  {
    match codec.loads(request)
    case Err(e) => Reply(INVALID_ARGUMENT, Some("Failed to decode request: " + e), [], None, None)
    case Ok(decoded) =>
      if !decoded.Dict? then
        Reply(INVALID_ARGUMENT, Some("Failed to decode request: 'get'"), [], None, None)
      else
        var name := GetKey(decoded.entries, "function_name");
        var args := GetKey(decoded.entries, "args");
        match FindByName(All(l), name)
        case None => Reply(NOT_FOUND, Some("Function not found."), [], None, None)
        case Some(i) =>
          var f := All(l)[i];
          var inv := InvocationFor(f, args);
          match call(f, inv)
          case Err(e) =>
            if IsException(e.kind) then Reply(INTERNAL, Some(e.msg), [], Some((f, inv)), None)
            else Reply(OK, None, [], Some((f, inv)), Some(e))
          case Ok(result) =>
            match Serialize(codec, result)
            case Err(e) => Reply(INTERNAL, Some("Error serializing result: " + e), [], Some((f, inv)), None)
            case Ok(json) => Reply(OK, None, codec.encode(json), Some((f, inv)), None)
  }

  /** Names are resolved across the lists in queryables-mutatables-scripts order: a
      queryable shadows a script of the same name. */
  lemma QueryableShadowsScript(l: Lists, q: Function, s: Function)
    requires q in l.queryables && s in l.scripts && s !in l.queryables && s !in l.mutatables
    requires q.name == s.name
    ensures FindByName(All(l), StrV(s.name)).Some?
    ensures All(l)[FindByName(All(l), StrV(s.name)).value] != s
  {
    var i :| 0 <= i < |l.queryables| && l.queryables[i] == q;
    var all := All(l);
    assert all[i] == q;
    var k := FindByName(all, StrV(s.name)).value;
    assert k <= i;
    assert all[k] == l.queryables[k];
  }

  /** The `grpc.ServicerContext` of one call: the status code and details set on it. */
  class RpcContext {
    var code: StatusCode
    var details: Option<string>

    constructor ()
      ensures code == OK && details.None?
    {
      code, details := OK, None;
    }

    /** `context.set_code(code); context.set_details(details)` */
    method Abort(c: StatusCode, d: string)
      modifies this
      ensures code == c && details == Some(d)
    {
      code := c;
      details := Some(d);
    }
  }

  /** `QuickScriptGRPCHandler(collection).call_function(request, context)` */
  method CallFunction(collection: Collection, context: RpcContext, codec: Codec, call: Call, request: Bytes)
    returns (payload: Bytes, called: Option<(Function, Invocation)>, escaped: Option<Error>)
    modifies context
    ensures var r := CallSpec(collection.Contents(), codec, call, request);
      payload == r.payload && called == r.called && escaped == r.escaped
      && (r.code == OK ==> context.code == old(context.code) && context.details == old(context.details))
      && (r.code != OK ==> context.code == r.code && context.details == r.details)
  {
    ghost var l := collection.Contents();
    called, escaped := None, None;
    var decoded := codec.loads(request);
    if decoded.Err? {
      context.Abort(INVALID_ARGUMENT, "Failed to decode request: " + decoded.error);
      return [], None, None;
    }
    if !decoded.value.Dict? {
      context.Abort(INVALID_ARGUMENT, "Failed to decode request: 'get'");
      return [], None, None;
    }
    var name := GetKey(decoded.value.entries, "function_name");
    var args := GetKey(decoded.value.entries, "args");
    var funcs := collection.queryables + collection.mutatables + collection.scripts;
    assert funcs == All(l);
    var found := FindByName(funcs, name);
    if found.None? {
      context.Abort(NOT_FOUND, "Function not found.");
      return [], None, None;
    }
    var f := funcs[found.value];
    var inv := if |Positional(f.params)| > 0 then WithArg(args) else NoArgs;
    called := Some((f, inv));
    var result := call(f, inv);
    if result.Err? {
      if !IsException(result.error.kind) {
        return [], called, Some(result.error);
      }
      context.Abort(INTERNAL, result.error.msg);
      return [], called, None;
    }
    var json := if result.value.ModelInst? then codec.modelDumpJson(result.value) else codec.dumps(result.value);
    if json.Err? {
      context.Abort(INTERNAL, "Error serializing result: " + json.error);
      return [], called, None;
    }
    payload := codec.encode(json.value);
  }
}
