# quickscript in Dafny

quickscript is a small framework for single-file worker scripts. Three role
decorators (`queryable`, `mutatable`, `script`) inspect a function's signature
and record a contract on it: which single positional argument model it takes and
which result shape it must return. They also leave a per-namespace metadata
record on the function, and they wrap it in a call-time checker. The checker does
dependency and environment checks, then an argument gate, then the call, then a
result gate. A plugin decorator (`supports_graphql`) adds a "graphql" record
after its own signature guards. A `QuickScriptCollection` holds decorated
functions in three ordered lists, filled from a file or a directory. Three
transports expose a collection: a GraphQL schema, a REST route table and a gRPC
handler. A CLI runner turns a pydantic model into command-line options.

This project models that core:

- Python functions, annotations, model classes and runtime values are plain
  datatypes (`PyModel`).
- The function object that decorators write attributes onto is a class
  (`Metadata.FunctionObject`).
- The collection is a class with three `seq` fields that its methods reassign
  (`Collect.Collection`).
- The context variable, the gRPC servicer context, the strawberry type registry,
  the bound arguments and the pydantic field info are classes too. Their
  in-place updates are stated with `modifies` and `old`.
- Each loop that updates state or builds a result is a method with invariants,
  proved against a specification function; the source's promises are proved about
  those functions as lemmas. Read-only searches that return the first match
  (the loop in `get_context_item`, the `next(...)` in the gRPC handler) are
  recursive functions instead.

Pydantic validation, `sig.bind`, JSON decoding and encoding, argparse's
`add_argument` and parsing, strawberry's `from_pydantic` on results that are not
models, model construction and the bodies of user functions cannot be seen. They
are function-typed parameters. The process environment, the set of importable
modules and the type casts in `check_env_vars` are the `Host` datatype.

Modules, one per file: `Common`, `PyModel`, `Metadata`, `Contracts`, `Gates`,
`Decorator`, `Context`, `Collect`, `GraphQLPlugin`, `GraphQLServer`, `Rest`,
`Grpc`, `Cli`.

Where the code and its documentation disagree, the model follows the code:

- A function collected only because it has a `cli_args` parameter still makes
  `create_rest_app` read `__qs_mode__`. A missing attribute is the
  AttributeError the route builder raises.

## Model

| member | source | states |
|---|---|---|
| `PyModel.Positional` | quickscript/quickscript.py:327-335 | exactly the POSITIONAL_ONLY / POSITIONAL_OR_KEYWORD parameters, and every one of them |
| `Metadata.Attach` | quickscript/quickscript.py:216-231 | fails with ValueError iff the namespace is already present; otherwise adds exactly that key with the record, keeps every earlier entry and grows the dict by one |
| `Metadata.AttachTwiceFails` | quickscript/quickscript.py:225-228 | a second write to the same namespace always fails, whatever the records |
| `Metadata.AttachCommutes` | quickscript/quickscript.py:225-231 | writes to two different namespaces give the same dict in either order |
| `Metadata.FunctionObject.constructor` | quickscript/quickscript.py:219-223 | a fresh function carries none of the `__qs_*__` attributes |
| `Metadata.FunctionObject.AttachMetadata` | quickscript/quickscript.py:210-233 | None namespace means `__module__`; on success the dict is `Attach`'s and the record is appended to the bases list; on collision the dict is unchanged (the bases list exists afterwards); the role attributes are untouched |
| `Contracts.Infer` | quickscript/quickscript.py:326-384 | rejections in check order, each with its exception (more than one positional: ValueError; a non-model positional: TypeError; a missing return annotation outside scripts, a list of non-models, a non-model mutatable return: TypeError; a bare `typing.List` queryable return: IndexError from `get_args(...)[0]`); it succeeds iff the positional checks and the mode's return checks pass; the argument slot is the single positional; the queryable classification is exclusive (model_list, model, frame_schema, frame) with the matching `__qs_ret_pydantic_type__`; a mutatable only gets model |
| `Contracts.KeywordOnlyIrrelevant` | quickscript/quickscript.py:327-335 | adding a keyword-only parameter never changes what inference decides |
| `Gates.MissingDependency` | quickscript/quickscript.py:178-183 | the first dependency that cannot be imported; none iff all can |
| `Gates.CheckDependencies` | quickscript/quickscript.py:178-183 | the loop raises ImportError for the first missing module; it passes iff every dependency imports |
| `Gates.FirstEnvFailure` | quickscript/quickscript.py:165-175 | the first declared variable that is unset or cannot be cast; none iff all are fine |
| `Gates.CheckEnvVars` | quickscript/quickscript.py:165-175 | the loop raises EnvironmentError (unset) or ValueError (not castable) for the first failing variable; it passes iff every variable is set and castable |
| `Gates.ArgGate` | quickscript/quickscript.py:391-408 | no slot, None, or an instance passes unchanged; a dict is replaced by its validated model (ValueError when validation fails); anything else is TypeError, iff; only the positional argument changes; on success the argument is None or an instance |
| `Gates.BoundArguments.ValidateArgs` | quickscript/quickscript.py:391-408 | rewrites `bound.arguments` in place to what `ArgGate` gives, and leaves it as it was on failure |
| `Gates.ResultGate` | quickscript/quickscript.py:410-450 | frame shapes accept a frame-like value (element 0 of a tuple) and return it; model needs a model instance; model_list needs a list of instances; a mutatable needs an instance of its class; a script passes unchanged; failures are TypeError (IndexError only for an empty tuple) |
| `Gates.PostCallAsWritten` | quickscript/quickscript.py:485-491 | as written: a result-gate failure propagates; a non-tuple comes back as the validated value; any tuple comes back as `(validated, result[1])`, or IndexError when it has no element 1 |
| `Gates.ScriptTupleNestedAsWritten` | quickscript/quickscript.py:487-488 | as written, a script returning `(1, 2)` gets back `((1, 2), 2)` rather than its own result |
| `Gates.PostCall` | quickscript/quickscript.py:485-491 | as intended: a script's result is returned exactly; for the other modes, a gate failure propagates, a non-tuple gives the validated value, a tuple gives `(validated, result[1])` or IndexError without element 1 |
| `Gates.FrameTupleKeepsSideChannel` | quickscript/quickscript.py:412-431 | a queryable's `(frame, side)` comes back as `(frame, side)` |
| `Gates.EmptyListAndDictResults` | quickscript/quickscript.py:437-448 | the empty list satisfies model_list; a plain dict never satisfies a mutatable |
| `Decorator.Decorate` | quickscript/quickscript.py:321-452 | an inference failure changes nothing; otherwise mode, argument and return types are set, then the core record is attached under the module name; a collision raises after the attributes are set and leaves the metadata as it was and the bases list created if missing |
| `Decorator.SecondRoleDecoratorFails` | quickscript/quickscript.py:452 | a second role decorator on the same function always fails |
| `Decorator.GlobalTypecheckFromEnv` | quickscript/quickscript.py:65-67 | checks are off iff the variable is set and equals 1, true or yes ignoring case; so they stay on when it is absent or 0/false/no/empty |
| `Decorator.PreCall` | quickscript/quickscript.py:478-483 | dependencies first, then env vars, then binding (TypeError when it fails) and then exactly the argument gate's outcome; a success implies all imports, all variables and a gated argument that is None or an instance |
| `Decorator.WrapperAsWritten` | quickscript/quickscript.py:476-491 | as written: with either flag off the call never happens and UnboundLocalError is raised |
| `Decorator.UncheckedCallFailsAsWritten` | quickscript/quickscript.py:478-484 | for every function and argument list, with checks off the wrapper as written fails without calling |
| `Decorator.Wrapper` | quickscript/quickscript.py:476-491 | under checks the function is called iff the pre-call steps succeed, and then with exactly the gated arguments; a failure returns it without a call; the call's result goes through `PostCall`; with checks off it is a pass-through |
| `Decorator.UncheckedCallIsPassThrough` | quickscript/quickscript.py:478-491 | as intended, with checks off the wrapper returns exactly the function's outcome |
| `Decorator.DictArgumentReachesFunctionAsModel` | quickscript/quickscript.py:396-404 | a dict argument that passes the gates reaches the function as an instance of the declared class |
| `Decorator.Invoke` | quickscript/quickscript.py:476-491 | the imperative wrapper (check loops, in-place argument gate) computes `Wrapper` |
| `Context.Resolve` | quickscript/quickscript.py:247-255 | a non-None value, else `get_value()`, else ValueError |
| `Context.FirstMatch` | quickscript/quickscript.py:276-278 | the earliest item whose name or aliases match; none iff no item matches |
| `Context.GetContextItem` | quickscript/quickscript.py:274-279 | ValueError when nothing matches; otherwise the resolution of the first matching item |
| `Context.PushKeepsEarlierMatch` | quickscript/quickscript.py:263-279 | pushing never shadows an earlier item that answers to the name |
| `Context.PushedItemIsFound` | quickscript/quickscript.py:263-279 | a pushed item is found by name or alias when nothing before it answers |
| `Context.ContextVar.constructor` | quickscript/quickscript.py:237 | the context list starts empty |
| `Context.ContextVar.PushAndRun` | quickscript/quickscript.py:262-271 | the body sees the list extended by the item; afterwards the previous list is back, whether the body returned or raised |
| `Collect.AddSpec` | quickscript/collect.py:22-35 | fails with AttributeError iff there is metadata with no mode and no `cli_args`; otherwise each list is unchanged or gains exactly `f` at its end, by the classification rule |
| `Collect.AddGrowsByAtMostOne` | quickscript/collect.py:22-35 | `add` adds at most one entry, and only `f`; undecorated and script-mode functions without `cli_args` change nothing |
| `Collect.FilterMembership` | quickscript/collect.py:53-74 | a function is in the result iff it is in the collection, carries the namespace and, when the category narrows, is in that list |
| `Collect.UnknownCategoryIsNoCategory` | quickscript/collect.py:66-73 | a category that is not a role name filters like no category |
| `Collect.FoldAddErrPersists` | quickscript/collect.py:92-94 | an `add` that raises ends file collection with that error |
| `Collect.UncollectedMembersIgnored` | quickscript/collect.py:92-94 | members that are not decorated functions never reach `add` |
| `Collect.DirListsErrPersists` | quickscript/collect.py:108-110 | a file whose collection raises ends the directory walk with that error |
| `Collect.DirListsAppend` | quickscript/collect.py:106-111 | collecting `a + b` gives the concatenation of collecting `a` and collecting `b` |
| `Collect.FileLists` | quickscript/collect.py:85-95 | a module that raised an `Exception` gives empty lists; one that raised `SystemExit` or `KeyboardInterrupt` propagates it |
| `Collect.BrokenFileContributesNothing` | quickscript/collect.py:87-91 | a file whose module raises an `Exception` adds nothing, and later files are still collected |
| `Collect.ExitDuringImportStopsWalk` | quickscript/collect.py:87-89 | a module that raises `SystemExit` or `KeyboardInterrupt` while imported ends the directory walk with it |
| `Collect.Collection.constructor` | quickscript/collect.py:9-14 | a named collection with three empty lists |
| `Collect.Collection.Add` | quickscript/collect.py:22-35 | the lists become `AddSpec`'s, or are unchanged when it raises; the name is kept |
| `Collect.Collection.AddCollection` | quickscript/collect.py:37-41 | each list is extended by the other's, in order; the name is kept; a different other collection is unchanged |
| `Collect.Collection.Bundle` | quickscript/collect.py:43-51 | a new collection named "self + n1, n2, ..." whose lists are self's followed by each argument's, in order; self and the arguments are untouched |
| `Collect.Collection.FilterByNamespace` | quickscript/collect.py:53-74 | the loop and the narrowing compute `FilterSpec` |
| `Collect.KeepTagged` | quickscript/collect.py:60-64 | the namespace loop keeps exactly the functions whose metadata has the namespace, in order (`Keep` with `TaggedBy`) |
| `Collect.Combine` | quickscript/server/rest.py:59-61 | a new collection with the given name whose lists are the concatenation of every collection's, in order |
| `Collect.AddEach` | quickscript/server/rest.py:60-61 | adding each collection in turn leaves the target's lists extended by all of theirs, in order, and its name unchanged |
| `Collect.CollectFromFile` | quickscript/collect.py:77-98 | a new collection named after the stem holding `FileLists`: empty for a module that raised an `Exception`, otherwise the fold of `add` over collected members; an `add` error or an escaping `BaseException` propagates |
| `Collect.CollectFromDir` | quickscript/collect.py:101-111 | a new collection named after the directory holding the fold of the file collections in order |
| `GraphQLPlugin.GetOrigin` | quickscript/plugins/graphql.py:65 | `get_origin` of an AsyncGenerator annotation is the abc class, never the typing alias |
| `GraphQLPlugin.GuardAsWritten` | quickscript/plugins/graphql.py:55-73 | as written: every subscription is rejected; non-subscriptions are judged as intended |
| `GraphQLPlugin.AsyncGeneratorSubscriptionRejectedAsWritten` | quickscript/plugins/graphql.py:65-68 | an async generator annotated `AsyncGenerator[int, None]` is rejected as written and accepted as intended |
| `GraphQLPlugin.Guard` | quickscript/plugins/graphql.py:55-73 | passes iff there is a return hint and either (subscription, async generator, AsyncGenerator return) or (no subscription, coroutine); failures are ValueError |
| `GraphQLPlugin.SupportsGraphQL` | quickscript/plugins/graphql.py:53-76 | as intended (with the corrected `Guard`): a guard failure changes nothing; otherwise the record is attached under "graphql" and the same object is returned; a collision is the metadata error, keeps the metadata and leaves the bases list created if missing |
| `GraphQLServer.InputAndOutputKeysDiffer` | quickscript/server/graphql.py:39-41 | input and output types never share a registry key |
| `GraphQLServer.SameNameSameKey` | quickscript/server/graphql.py:41-44 | two models with the same name and direction share one entry |
| `GraphQLServer.TypeRegistry.constructor` | quickscript/server/graphql.py:19 | the registry starts empty |
| `GraphQLServer.TypeRegistry.TypeFor` | quickscript/server/graphql.py:35-61 | a hit returns the cached type and leaves the registry as it was; a miss adds exactly one entry under the key |
| `GraphQLServer.CreateResolver` | quickscript/server/graphql.py:64-78 | input and output types exist exactly where the function declares a model, under the matching keys, and are the registry's entries; the registry keeps every entry and gains exactly the missing keys of the function's models |
| `GraphQLServer.RunResolver` | quickscript/server/graphql.py:82-114 | the input is converted exactly when there is an argument type, the output exactly when there is a return type; a conversion or call failure propagates unchanged; a model result under a return type becomes that strawberry type field for field, and any other result is whatever the given strawberry conversion makes of it; with neither type it is the raw call |
| `GraphQLServer.FieldName` | quickscript/server/graphql.py:124-125 | the non-empty metadata name, else `__name__` |
| `GraphQLServer.Put` | quickscript/server/graphql.py:130 | dict assignment: the key maps to the value, an existing key keeps its position, keys stay distinct |
| `GraphQLServer.PutKeepsOtherKeys` | quickscript/server/graphql.py:130 | assigning one key leaves the lookup of every other key unchanged |
| `GraphQLServer.OrderedFieldsKeys` | quickscript/server/graphql.py:121-130 | one field per distinct name, and the field names are exactly the functions' names |
| `GraphQLServer.LaterFunctionWins` | quickscript/server/graphql.py:123-130 | a name maps to the last function carrying it |
| `GraphQLServer.CreateFields` | quickscript/server/graphql.py:135-146 | the field dict seen through its functions is `OrderedFields`; every resolver is well formed and uses the registry's entries; the registry keeps its entries and gains exactly the keys of the functions' models |
| `GraphQLServer.SplitOfSnoc` | quickscript/server/graphql.py:197-203 | each exposed function goes to the end of exactly one list |
| `GraphQLServer.PartitionIsExact` | quickscript/server/graphql.py:195-203 | subscriptions iff subscription=True; mutations iff in mutatables; queries otherwise; only tagged queryables and mutatables appear; sizes add up |
| `GraphQLServer.ScriptsNeverExposed` | quickscript/server/graphql.py:195-196 | a script that is not also a queryable or mutatable reaches no list |
| `GraphQLServer.SplitResolvers` | quickscript/server/graphql.py:192-203 | the loop computes `Partition` |
| `GraphQLServer.CreateGraphQLSchema` | quickscript/server/graphql.py:166-180 | EmptyQuery iff no queries; mutation and subscription are None iff their lists are empty; the fields are the ordered fields of each list; the registry keeps its entries and gains exactly the keys of the query and mutation functions' models, which their resolvers use |
| `GraphQLServer.CreateSchemaFromCollections` | quickscript/server/graphql.py:183-209 | the schema of the partition of all collections combined in order, with the same registry post-state |
| `Rest.MethodFor` | quickscript/server/rest.py:65 | POST iff the mode is mutatable; AttributeError iff there is no mode |
| `Rest.FunctionRoutes` | quickscript/server/rest.py:63-66 | one route per function at "/" + name, in order; an error iff some function has no mode |
| `Rest.RoutesSpec` | quickscript/server/rest.py:58-73 | function routes across queryables, mutatables and scripts, then the GET "/" index listing the names in the same order |
| `Rest.CreateRestApp` | quickscript/server/rest.py:53-74 | the route-building loop computes `RoutesSpec` of the combined collections |
| `Rest.BuildRoutes` | quickscript/server/rest.py:63-73 | the route loop gives `RouteTable`: one route per function in order, then the index route, or the AttributeError of the first function without a mode |
| `Rest.EndpointSpec` | quickscript/server/rest.py:19-48 | with an argument model, a bad body gives 400 and a failed validation 422, without a call; otherwise the call gets the validated instance or nothing; it runs with "request" pushed; a model result is sent as its dump with 200 |
| `Rest.RequestVisibleDuringCall` | quickscript/server/rest.py:22 | during the call "request" resolves to the request unless an outer item answers to it |
| `Rest.Endpoint` | quickscript/server/rest.py:19-48 | computes `EndpointSpec` and leaves the context list as it was |
| `Grpc.Service` | quickscript/server/grpc.py:14-22 | a handler iff the method is "/QuickScript/Call" |
| `Grpc.FindByName` | quickscript/server/grpc.py:41 | the first function with that name; none iff no function has it |
| `Grpc.CallSpec` | quickscript/server/grpc.py:24-85 | INVALID_ARGUMENT for an undecodable or non-mapping body and NOT_FOUND for an unknown name, without a call; the first match is called, with args iff it has a positional parameter; INTERNAL on a raised `Exception` or a serialisation failure (`json.dumps` or `model_dump_json`); a SystemExit or KeyboardInterrupt from the function escapes with no code set, and nothing else does; OK with the encoded JSON; every failure answers empty bytes |
| `Grpc.QueryableShadowsScript` | quickscript/server/grpc.py:36-41 | a queryable shadows a script of the same name |
| `Grpc.RpcContext.Abort` | quickscript/server/grpc.py:31-32 | sets the code and the details |
| `Grpc.CallFunction` | quickscript/server/grpc.py:24-85 | returns `CallSpec`'s payload, call and escaping exception; the context keeps its code on OK and gets the code and details otherwise |
| `Cli.ArgsParamIndex` | quickscript/cli.py:65-76 | the first positional parameter annotated with a model; none iff there is no such parameter |
| `Cli.LoggerKwargs` | quickscript/cli.py:78-82 | a `logger` keyword iff the signature has a `logger` parameter, named after the function |
| `Cli.ScanOutcome` | quickscript/cli.py:65-76 | the first model-annotated positional parameter whose parse does not raise TypeError decides: its instance, or its exception (never a TypeError); nothing iff every such parse raises TypeError |
| `Cli.FirstCandidateDecides` | quickscript/cli.py:65-76 | with no model parameter the scan finds nothing; the first one decides when its parse succeeds or raises anything but TypeError |
| `Cli.TypeErrorParseIsSwallowed` | quickscript/cli.py:71-76 | a TypeError from the only model parameter's parse does not escape: the function is called without an argument |
| `Cli.CliRunSpec` | quickscript/cli.py:58-94 | the call gets the scan's instance (if any) positionally and the logger keywords; an exception escaping the scan means no call; argv defaults to `sys.argv[1:]` |
| `Cli.CliRun` | quickscript/cli.py:58-97 | the scan loop with break and continue computes `CliRunSpec` |
| `Cli.FieldInfo.Derived` | quickscript/cli.py:106-111 | the settings derived from the field are exactly type, required, default and help |
| `Cli.OptionFor` | quickscript/cli.py:106-117 | with no argparse dict the derived settings stand; `cli_required` becomes required and is removed; every other key of the dict overrides; all other derived settings stay, `required` included when the dict sets neither `cli_required` nor `required` |
| `Cli.CliRequiredIsConsumed` | quickscript/cli.py:115-116 | the pop makes `cli_required` one-shot: a second build sees `is_required()` again |
| `Cli.FieldInfo.BuildOption` | quickscript/cli.py:106-118 | the option is "--" + name with `OptionFor`'s settings, and the field's dict loses `cli_required` in place |
| `Cli.AllDeclaredEach` | quickscript/cli.py:105-118 | declaring the options one after the other succeeds exactly when each is accepted by `add_argument` after all the ones before it |
| `Cli.DeclarePrefix` | quickscript/cli.py:105-118 | the field loop declares a prefix of the fields' options in field order, all of them when `add_argument` never raises |
| `Cli.DeclareOutcome` | quickscript/cli.py:105-118 | the loop ends without an exception iff every option is accepted after its predecessors; otherwise the last option built is the first one refused and its exception is the outcome |
| `Cli.DeclareStopsAtRefusal` | quickscript/cli.py:118 | an exception from `add_argument` ends the loop: the later fields change nothing in the outcome |
| `Cli.DeclareOptions` | quickscript/cli.py:105-118 | the field loop computes `Declare` over the fields' options, and exactly the fields whose options were built lose `cli_required`, in place; the later fields' dicts are untouched |
| `Cli.ParseCliArgs` | quickscript/cli.py:100-120 | the options and dicts as `DeclareOptions` leaves them; `add_argument`'s exception if one option is refused, otherwise the model built from the parsed values or the parse error |

## Left out

- Asynchronous execution (`async_wrapper`, `asyncio.run`, awaiting coroutines in the servers) is modelled as one call; the sync and async wrappers have the same control flow.
- Dynamic loading: `importlib` execution, `sys.modules` registration, `Path.rglob` order and `inspect.getmembers` sorting are inputs (the members and files arrive as given sequences); a file stem inside a directory walk is not tracked.
- The process environment, importability and `typ(value)` casts are parameters of `Host`; pydantic validation, `sig.bind`, JSON codecs, argparse parsing and model construction are function parameters.
- FrameSchema internals and the frame libraries: a value counts as frame-like by its constructor alone; `FrameSchema.__init__` fails before storing its data and is not modelled.
- strawberry, Starlette, uvicorn and the grpc aio server: only the schema contents, the route table, the endpoint outcome and the call outcome are modelled, not the frameworks' own objects.
- `GraphQLServer.RunResolver`: strawberry's `from_pydantic` on a result that is not a model instance (a list of models, a dict, a plain value) is the parameter `other`; the model does not say whether it succeeds or what it builds, so it no longer promises that every successful result under a return type is a strawberry object.
- `GraphQLServer.RunResolver`: a resolver with neither model type is the raw function, which strawberry calls with its own argument mapping; the model calls it with no arguments.
- The mutation field description (`__doc__`) and the resolver descriptions are not modelled.
- `Decorator.Decorate` returns the closure's data; the wrapper being a distinct object made by `functools.wraps` is not modelled, so a plugin applied on top of a role decorator is modelled on the same function object.
- `with_context_item` and the logger wrapper that `script` adds are not separate members; their effect is `Context.ContextVar.PushAndRun`.
- `json_schema_extra` given as a callable is not modelled; only the dict form is.
- `_print_result` (rich console output) and the elapsed-time measurement in `cli_run` are I/O.
- `Grpc.CallSpec`: detail texts are simplified; the NOT_FOUND text does not include the requested name and the non-mapping decode text does not include the type name.
- `Rest.EndpointSpec`: a JSON serialisation failure inside `JSONResponse` is not modelled; a response is built from any value.
- `Cli.ParseCliArgs`: requires distinct field objects; two fields sharing one `argparse` dict object (aliasing) is not modelled.
- quickscript/server/zmq.py (concurrent socket loops), quickscript/__main__.py (argparse wiring and printing), and the one-call plugins server_meta, grpc and zeromq (each is one `attach_metadata` call, covered by `Metadata.FunctionObject.AttachMetadata`).
- quickscript/plugins/rest.py is not part of this model: it passes keyword-only arguments of `attach_metadata` positionally, so applying it raises TypeError.

## Findings

| source | as written | input that shows it | evidently intended | confidence | as-written member | corrected member |
|---|---|---|---|---|---|---|
| quickscript/quickscript.py:478-484 | `bound` is assigned only inside the checks branch, but the call always reads it | any call with `runtime_typechecking=False`, or with the environment flag set to `1` | call the function with the caller's arguments unchanged | not executed; high | `Decorator.UncheckedCallFailsAsWritten` | `Decorator.UncheckedCallIsPassThrough` |
| quickscript/quickscript.py:487-488 | every tuple result is returned as `(validated, result[1])`, and a script's validated value is the whole tuple | a script returning `(1, 2)` gets back `((1, 2), 2)` | only a frame queryable's `(frame, side)` is re-paired; a script's result passes unchanged | not executed; medium | `Gates.ScriptTupleNestedAsWritten` | `Gates.PostCall` |
| quickscript/plugins/graphql.py:65 | `get_origin(ret_type) is not AsyncGenerator` compares with the `typing` alias, but `get_origin` returns `collections.abc.AsyncGenerator` | an async generator function annotated `AsyncGenerator[int, None]` with `subscription=True` | accept subscriptions whose return annotation is an AsyncGenerator | not executed; high | `GraphQLPlugin.AsyncGeneratorSubscriptionRejectedAsWritten` | `GraphQLPlugin.Guard` |
