/** The REST server's decision logic: the route table `create_rest_app` builds and the
    outcome of one request to a function's endpoint. */
module Rest {
  import opened Common
  import opened PyModel
  import opened Context
  import opened Collect

  datatype HttpMethod = GET | POST

  datatype Route =
    | FunctionRoute(path: string, verb: HttpMethod, func: Function)
    | IndexRoute(path: string, verb: HttpMethod, names: seq<string>)   // "/" listing the endpoints

  /** `"POST" if func.__qs_mode__ == "mutatable" else "GET"`; a function without the
      attribute raises AttributeError. */
  function MethodFor(f: Function): (r: Result<HttpMethod, Error>)
    ensures r.Err? <==> f.mode.None?
    ensures r.Ok? ==> (r.value == POST <==> f.mode == Some(Mutatable))
  {
    match f.mode
    case None => Err(Error(AttributeError, "__qs_mode__"))
    case Some(m) => Ok(if m == Mutatable then POST else GET)
  }

  function Names(fs: seq<Function>): (r: seq<string>)
    ensures |r| == |fs| && forall i :: 0 <= i < |fs| ==> r[i] == fs[i].name
  {
    if fs == [] then [] else [fs[0].name] + Names(fs[1..])
  }

  /** The route of each function, in order, or the first AttributeError. */
  function FunctionRoutes(fs: seq<Function>): (r: Result<seq<Route>, Error>)
    ensures r.Err? <==> exists i :: 0 <= i < |fs| && fs[i].mode.None?
    ensures r.Ok? ==> |r.value| == |fs|
    ensures r.Ok? ==> forall i :: 0 <= i < |fs| ==>
              r.value[i] == FunctionRoute("/" + fs[i].name, MethodFor(fs[i]).value, fs[i])
  {
    if fs == [] then Ok([])
    else
      match MethodFor(fs[0])
      case Err(e) => Err(e)
      case Ok(m) =>
        match FunctionRoutes(fs[1..])
        case Err(e) =>
          assert exists i :: 0 <= i < |fs| && fs[i].mode.None? by {
            var j :| 0 <= j < |fs[1..]| && fs[1..][j].mode.None?;
            assert fs[j + 1].mode.None?;
          }
          Err(e)
        case Ok(rest) =>
          var r := [FunctionRoute("/" + fs[0].name, m, fs[0])] + rest;
          assert forall i :: 1 <= i < |fs| ==> r[i] == rest[i - 1] && fs[i] == fs[1..][i - 1];
          Ok(r)
  }

  /** The route table for the combined lists: one route per function across queryables,
      mutatables and scripts, then the index route listing their names in the same order. */
  function RoutesSpec(l: Lists): (r: Result<seq<Route>, Error>)
    ensures r.Ok? ==> |r.value| == |All(l)| + 1
    ensures r.Ok? ==> r.value[|All(l)|] == IndexRoute("/", GET, Names(All(l)))
    ensures r.Ok? ==> forall i :: 0 <= i < |All(l)| ==>
              r.value[i].FunctionRoute? && r.value[i].path == "/" + All(l)[i].name
              && r.value[i].func == All(l)[i]
              && (r.value[i].verb == POST <==> All(l)[i].mode == Some(Mutatable))
    ensures r.Err? <==> exists f :: f in All(l) && f.mode.None?
  {
    RouteTable(All(l))
  }

  /** The routes of `fs` in order followed by the index route, or the first AttributeError. */
  function RouteTable(fs: seq<Function>): Result<seq<Route>, Error> {
    match FunctionRoutes(fs)
    case Err(e) => Err(e)
    case Ok(routes) => Ok(routes + [IndexRoute("/", GET, Names(fs))])
  }

  /** `create_rest_app(collections)`: the route list it hands to Starlette. */
  method CreateRestApp(colls: seq<Collection>) returns (r: Result<seq<Route>, Error>)
    ensures r == RoutesSpec(ConcatAll(old(ListsOf(colls))))
  {
    var combined := Combine("rest_combined", colls);
    var available := combined.queryables + combined.mutatables + combined.scripts;
    assert available == All(ConcatAll(old(ListsOf(colls))));
    r := BuildRoutes(available);
  }

  /** The loop of `create_rest_app` over the available functions, then the index route. */
  method BuildRoutes(available: seq<Function>) returns (r: Result<seq<Route>, Error>)
    ensures r == RouteTable(available)
  {
    var routes: seq<Route> := [];
    for i := 0 to |available|
      invariant FunctionRoutes(available[..i]) == Ok(routes)
    {
      FunctionRoutesSnoc(available[..i], available[i]);
      assert available[..i + 1] == available[..i] + [available[i]];
      var f := available[i];
      if f.mode.None? {
        FunctionRoutesErrPersists(available, i + 1);
        return Err(Error(AttributeError, "__qs_mode__"));
      }
      var verb := if f.mode.value == Mutatable then POST else GET;
      routes := routes + [FunctionRoute("/" + f.name, verb, f)];
    }
    assert available[..|available|] == available;
    r := Ok(routes + [IndexRoute("/", GET, Names(available))]);
  }

  lemma FunctionRoutesSnoc(fs: seq<Function>, f: Function)
    requires FunctionRoutes(fs).Ok?
    ensures FunctionRoutes(fs + [f]) ==
              if f.mode.None? then Err(Error(AttributeError, "__qs_mode__"))
              else Ok(FunctionRoutes(fs).value + [FunctionRoute("/" + f.name, MethodFor(f).value, f)])
  {
    var whole := fs + [f];
    if f.mode.None? {
      assert whole[|fs|].mode.None?;
      FirstErrorIsMode(whole);
    } else {
      assert forall i :: 0 <= i < |fs| ==> whole[i] == fs[i];
      var rs := FunctionRoutes(whole).value;
      assert rs == FunctionRoutes(fs).value + [FunctionRoute("/" + f.name, MethodFor(f).value, f)];
    }
  }

  /** The only error the route builder raises is the missing-mode AttributeError. */
  lemma {:induction false} FirstErrorIsMode(fs: seq<Function>)
    requires FunctionRoutes(fs).Err?
    ensures FunctionRoutes(fs) == Err(Error(AttributeError, "__qs_mode__"))
  {
    if fs[0].mode.Some? {
      FirstErrorIsMode(fs[1..]);
    }
  }

  lemma FunctionRoutesErrPersists(fs: seq<Function>, k: nat)
    requires 0 < k <= |fs| && fs[k - 1].mode.None?
    ensures FunctionRoutes(fs) == Err(Error(AttributeError, "__qs_mode__"))
  {
    assert FunctionRoutes(fs).Err?;
    FirstErrorIsMode(fs);
  }

  // ---------------------------------------------------------------------------
  // One request to a function's endpoint
  // ---------------------------------------------------------------------------

  /** An incoming request: the object pushed as the "request" context item, and what
      `await request.json()` yields (the parsed body or the parser's error text). */
  datatype Request = Request(handle: Value, json: Result<Value, string>)

  /** A JSON response: status code and content. */
  datatype Response = Response(status: int, content: Value)

  /** The endpoint's effect: how the function was called, if it was, and the response
      or the exception that escaped to Starlette. */
  datatype Handled = Handled(called: Option<Invocation>, response: Result<Response, Error>)

  /** What a registered function does when called while the given context list is current. */
  type ContextCall = (seq<ContextItem>, Function, Invocation) -> Result<Value, Error>

  function RequestItem(request: Request): ContextItem {
    ContextItem("request", request.handle, None, [])
  }

  function ErrorBody(error: string, detail: string): Value {
    Dict(map["error" := StrV(error), "detail" := StrV(detail)])
  }

  /** `JSONResponse(result.model_dump())` for a model, `JSONResponse(result)` otherwise. */
  function Render(result: Result<Value, Error>): Result<Response, Error> {
    match result
    case Err(e) => Err(e)
    case Ok(v) => Ok(Response(200, if v.ModelInst? then Dict(v.fields) else v))
  }

  /** The body of `endpoint(request)` while the context list is `ctx` (which already
      holds the pushed "request" item). */
  function HandleIn(f: Function, request: Request, validate: Validator, call: ContextCall,
                    ctx: seq<ContextItem>): Handled
  {
    match f.argsType
    case None => Handled(Some(NoArgs), Render(call(ctx, f, NoArgs)))
    case Some(cls) =>
      match request.json
      case Err(detail) => Handled(None, Ok(Response(400, ErrorBody("Invalid JSON body", detail))))
      case Ok(body) =>
        match validate(cls, body)
        case Err(detail) => Handled(None, Ok(Response(422, ErrorBody("Validation error", detail))))
        case Ok(fields) =>
          var arg := WithArg(ModelInst(cls, fields));
          Handled(Some(arg), Render(call(ctx, f, arg)))
  }

  /** The endpoint for `f`, entered with context list `ctx`. */
  function EndpointSpec(f: Function, request: Request, validate: Validator, call: ContextCall,
                        ctx: seq<ContextItem>): (h: Handled)
    // with an argument model, a body that does not parse or does not validate is answered
    // without calling the function
    ensures f.argsType.Some? && request.json.Err? ==>
              h == Handled(None, Ok(Response(400, ErrorBody("Invalid JSON body", request.json.error))))
    ensures f.argsType.Some? && request.json.Ok? && validate(f.argsType.value, request.json.value).Err? ==>
              h == Handled(None, Ok(Response(422, ErrorBody("Validation error", validate(f.argsType.value, request.json.value).error))))
    // otherwise the function is called with the validated instance, or with nothing
    ensures f.argsType.None? ==> h.called == Some(NoArgs)
    ensures f.argsType.Some? && request.json.Ok? && validate(f.argsType.value, request.json.value).Ok? ==>
              h.called == Some(WithArg(ModelInst(f.argsType.value, validate(f.argsType.value, request.json.value).value)))
    // the call runs with the "request" item pushed; a model result is sent as its dump
    ensures h.called.Some? ==> h.response == Render(call(ctx + [RequestItem(request)], f, h.called.value))
    ensures h.called.Some? && h.response.Ok? ==> h.response.value.status == 200
    ensures h.called.None? ==> h.response.Ok? && h.response.value.status in {400, 422}
  {
    HandleIn(f, request, validate, call, ctx + [RequestItem(request)])
  }

  /** During the call, "request" resolves to the incoming request unless an outer item
      already answers to that name. */
  lemma RequestVisibleDuringCall(ctx: seq<ContextItem>, request: Request)
    requires forall j :: 0 <= j < |ctx| ==> !Matches(ctx[j], "request")
    requires request.handle != NoneV
    ensures GetContextItem(ctx + [RequestItem(request)], "request") == Ok(request.handle)
  {
    PushedItemIsFound(ctx, RequestItem(request), "request");
  }

  /** `endpoint(request)` as it runs: push the "request" item, handle, pop it again. */
  method Endpoint(stack: ContextVar, f: Function, request: Request, validate: Validator, call: ContextCall)
    returns (h: Handled)
    modifies stack
    ensures h == EndpointSpec(f, request, validate, call, old(stack.items))
    ensures stack.items == old(stack.items)
  {
    var outcome := stack.PushAndRun(RequestItem(request),
                                    (ctx: seq<ContextItem>) => Ok(HandleIn(f, request, validate, call, ctx)));
    h := outcome.value;
  }
}
