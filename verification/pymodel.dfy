/** The Python entities the framework inspects, as plain values: model
    classes, type annotations, runtime values, signatures and the
    attributes the decorators leave on a function. */
module PyModel {
  import opened Common

  /** A pydantic `BaseModel` subclass: its `__name__` and its direct model bases. */
  datatype ModelClass = ModelClass(name: string, bases: seq<ModelClass>)

  /** `issubclass(c, d)` between model classes. */
  predicate IsSubclass(c: ModelClass, d: ModelClass)
    decreases c
  {
    c == d || exists i :: 0 <= i < |c.bases| && IsSubclass(c.bases[i], d)
  }

  /** A type annotation as `inspect` reports it. */
  datatype Ann =
    | Empty                       // inspect.Parameter.empty / Signature.empty
    | ModelT(cls: ModelClass)     // a BaseModel subclass
    | FrameSchemaT                // FrameSchema or a subclass of it
    | ListOf(inner: Ann)          // list[X] / typing.List[X]
    | BareList                    // typing.List with no parameter: origin list, no args
    | AsyncGeneratorOf(item: Ann) // typing.AsyncGenerator[X, ...]
    | OtherClass(name: string)    // any other class: int, dict, pd.DataFrame, ...
    | NonClass(text: string)      // anything that is not a class: Optional[X], a string

  /** The frame libraries a frame-like value can come from. */
  datatype FrameLib = Pandas | Polars | Pyarrow

  /** A runtime value. A model instance keeps its fields in dumped (plain) form,
      so `model_dump()` is the dict of its fields. */
  datatype Value =
    | NoneV
    | BoolV(b: bool)
    | IntV(i: int)
    | StrV(s: string)
    | Dict(entries: map<string, Value>)
    | ListV(items: seq<Value>)
    | Tuple(items: seq<Value>)
    | ModelInst(cls: ModelClass, fields: map<string, Value>)
    | Frame(lib: FrameLib)            // a pandas/polars DataFrame or a pyarrow Table
    | SchemaFrame(schema: ModelClass) // a FrameSchema instance
    | GqlObject(typeKey: string, fields: map<string, Value>) // a strawberry type instance
    | TypeRef(ann: Ann)               // a type object used as a value
    | Other(tag: string)              // any other object

  /** `isinstance(v, cls)` for a model class. */
  predicate IsInstance(v: Value, cls: ModelClass) {
    v.ModelInst? && IsSubclass(v.cls, cls)
  }

  /** Accepted as a frame by the result gate: a DataFrame, a Table or a FrameSchema. */
  predicate IsFrameLike(v: Value) {
    v.Frame? || v.SchemaFrame?
  }

  datatype ParamKind = PositionalOnly | PositionalOrKeyword | VarPositional | KeywordOnly | VarKeyword

  datatype Param = Param(name: string, kind: ParamKind, ann: Ann)

  predicate IsPositional(p: Param) {
    p.kind == PositionalOnly || p.kind == PositionalOrKeyword
  }

  /** The POSITIONAL_ONLY / POSITIONAL_OR_KEYWORD parameters, in declaration order. */
  function Positional(ps: seq<Param>): (r: seq<Param>)
    ensures forall p :: p in r ==> p in ps && IsPositional(p)
    ensures forall i :: 0 <= i < |ps| && IsPositional(ps[i]) ==> ps[i] in r
  {
    Keep(ps, IsPositional)
  }

  /** `name in sig.parameters` */
  predicate HasParam(ps: seq<Param>, name: string) {
    exists i :: 0 <= i < |ps| && ps[i].name == name
  }

  /** The role a decorator gives a function (`__qs_mode__`). */
  datatype Mode = Queryable | Mutatable | Script

  /** A metadata record as stored by `model_dump()` under one namespace. */
  datatype MetaRecord =
    | CoreMeta(dependencies: seq<string>, envVars: seq<(string, string)>, runtimeTypechecking: bool)
    | GraphQLMeta(name: Option<string>, description: Option<string>, deprecated: bool, subscription: bool)
    | PluginMeta(fields: map<string, Value>)

  /** A function object as the collection and the servers see it once decoration
      is over. `id` stands for object identity: two snapshots of different
      functions never share it. */
  datatype Function = Function(
    id: nat,
    name: string,                                // __name__
    moduleName: string,                          // __module__
    params: seq<Param>,                          // inspect.signature(...).parameters
    ret: Ann,                                    // return annotation
    isCoroutine: bool,                           // async def
    isAsyncGen: bool,                            // async def with yield
    metadata: Option<map<string, MetaRecord>>,   // __qs_metadata__, None when absent
    mode: Option<Mode>,                          // __qs_mode__, None when absent
    argsType: Option<ModelClass>,                // __qs_args_pydantic_type__
    retType: Option<ModelClass>)                 // __qs_ret_pydantic_type__

  /** `hasattr(f, "__qs_metadata__") and ns in f.__qs_metadata__` */
  predicate HasNamespace(f: Function, ns: string) {
    f.metadata.Some? && ns in f.metadata.value
  }

  /** How a server calls a registered function: with no arguments, or with one
      positional value. */
  datatype Invocation = NoArgs | WithArg(arg: Value)

  /** What calling a registered function does: its return value or the exception it raises. */
  type Call = (Function, Invocation) -> Result<Value, Error>

  /** pydantic validation of a value against a model class: the validated
      fields, or the text of the ValidationError. */
  type Validator = (ModelClass, Value) -> Result<map<string, Value>, string>
}
