/** The GraphQL server's decision logic: which functions become query, mutation and
    subscription fields, under which names, with which resolver shape, and the
    module-level registry of generated strawberry types. */
module GraphQLServer {
  import opened Common
  import opened PyModel
  import opened Collect

  // ---------------------------------------------------------------------------
  // The strawberry type registry
  // ---------------------------------------------------------------------------

  const InputPrefix := "__strawberry_inputtype_"
  const OutputPrefix := "__strawberry_type_"

  /** The registry key: a prefix chosen by `is_input`, the model's name, the base names. */
  function TypeKey(model: ModelClass, bases: seq<string>, isInput: bool): string {
    (if isInput then InputPrefix else OutputPrefix) + model.name + Join(bases, "")
  }

  /** An input type and an output type never share a registry entry. */
  lemma InputAndOutputKeysDiffer(m1: ModelClass, b1: seq<string>, m2: ModelClass, b2: seq<string>)
    ensures TypeKey(m1, b1, true) != TypeKey(m2, b2, false)
  {
    assert TypeKey(m1, b1, true)[13] == InputPrefix[13] == 'i';
    assert TypeKey(m2, b2, false)[13] == OutputPrefix[13] == 't';
  }

  /** The key depends on the model's `__name__` only: two distinct model classes with the
      same name and direction share one entry, so the second receives the first's type. */
  lemma SameNameSameKey(m1: ModelClass, m2: ModelClass, isInput: bool)
    requires m1.name == m2.name
    ensures TypeKey(m1, [], isInput) == TypeKey(m2, [], isInput)
  {
  }

  /** A generated strawberry type: its registry key, the model it was built from and
      its direction. */
  datatype StrawberryType = StrawberryType(key: string, model: ModelClass, isInput: bool)

  /** `_strawberry_type_registry` */
  class TypeRegistry {
    var types: map<string, StrawberryType>

    /** Every entry is stored under its own key. */
    predicate Valid()
      reads this
    {
      forall k :: k in types ==> types[k].key == k
    }

    constructor ()
      ensures types == map[] && Valid()
    {
      types := map[];
    }

    /** `create_strawberry_model_from_pydantic_type(model, strawberry_bases=bases, is_input=...)`:
        a hit returns the cached type and leaves the registry as it was; a miss builds
        the type and adds exactly that entry. */
    method TypeFor(model: ModelClass, bases: seq<string>, isInput: bool) returns (t: StrawberryType)
      requires Valid()
      modifies this
      ensures Valid()
      ensures t.key == TypeKey(model, bases, isInput)
      ensures TypeKey(model, bases, isInput) in old(types) ==> t == old(types)[t.key] && types == old(types)
      ensures TypeKey(model, bases, isInput) !in old(types) ==>
                t == StrawberryType(t.key, model, isInput) && types == old(types)[t.key := t]
    {
      var key := TypeKey(model, bases, isInput);
      if key in types {
        return types[key];
      }
      t := StrawberryType(key, model, isInput);
      types := types[key := t];
    }
  }

  // ---------------------------------------------------------------------------
  // Resolvers
  // ---------------------------------------------------------------------------

  /** A resolver built by `create_strawberry_resolver_from_callable`: the function and
      the strawberry types of its argument and result, when it has them. */
  datatype Resolver = Resolver(func: Function, argType: Option<StrawberryType>, retType: Option<StrawberryType>)

  /** A resolver converts exactly where its function declares a model, through the type
      registered for that model and direction. */
  predicate WellFormed(r: Resolver) {
    && (r.argType.Some? <==> r.func.argsType.Some?)
    && (r.retType.Some? <==> r.func.retType.Some?)
    && (r.argType.Some? ==> r.argType.value.key == TypeKey(r.func.argsType.value, [], true))
    && (r.retType.Some? ==> r.retType.value.key == TypeKey(r.func.retType.value, [], false))
  }

  /** The registry keys a function's resolver looks up: its argument model as an input
      type, its result model as an output type. */
  function KeysFor(f: Function): set<string> {
    (if f.argsType.Some? then {TypeKey(f.argsType.value, [], true)} else {})
    + (if f.retType.Some? then {TypeKey(f.retType.value, [], false)} else {})
  }

  /** The keys of a whole list of functions. */
  function KeysForAll(fs: seq<Function>): set<string> {
    if fs == [] then {} else KeysForAll(fs[..|fs| - 1]) + KeysFor(fs[|fs| - 1])
  }

  /** The registry only grows: every entry it had is still there, unchanged. */
  predicate Extends(after: map<string, StrawberryType>, before: map<string, StrawberryType>) {
    forall k :: k in before ==> k in after && after[k] == before[k]
  }

  /** The resolver's types are the registry's entries for their keys. */
  predicate Registered(r: Resolver, types: map<string, StrawberryType>) {
    && (r.argType.Some? ==> r.argType.value.key in types && types[r.argType.value.key] == r.argType.value)
    && (r.retType.Some? ==> r.retType.value.key in types && types[r.retType.value.key] == r.retType.value)
  }

  /** `create_strawberry_resolver_from_callable(func)`: the resolver uses the registered
      types of its models, registering the missing ones and nothing else. */
  method CreateResolver(reg: TypeRegistry, f: Function) returns (r: Resolver)
    requires reg.Valid()
    modifies reg
    ensures reg.Valid()
    ensures r.func == f && WellFormed(r)
    ensures Extends(reg.types, old(reg.types))
    ensures reg.types.Keys == old(reg.types).Keys + KeysFor(f)
    ensures Registered(r, reg.types)
  {
    var argType: Option<StrawberryType> := None;
    var retType: Option<StrawberryType> := None;
    if f.argsType.Some? {
      var t := reg.TypeFor(f.argsType.value, [], true);
      argType := Some(t);
    }
    if f.retType.Some? {
      var t := reg.TypeFor(f.retType.value, [], false);
      retType := Some(t);
    }
    r := Resolver(f, argType, retType);
  }

  /** `args.to_pydantic()` on a strawberry input object. */
  function ToPydantic(t: StrawberryType, v: Value): Result<Value, Error> {
    if v.GqlObject? then Ok(ModelInst(t.model, v.fields)) else Err(Error(AttributeError, "to_pydantic"))
  }

  /** strawberry's `from_pydantic` on a value that is not a model instance (a list of
      models, a dict, a plain value): what it builds or raises is strawberry's own. */
  type ConvertOther = (StrawberryType, Value) -> Result<Value, Error>

  /** `ret_type.from_pydantic(result)`: a model instance becomes the strawberry type field
      for field; anything else is left to strawberry. */
  function FromPydantic(t: StrawberryType, v: Value, other: ConvertOther): Result<Value, Error> {
    if v.ModelInst? then Ok(GqlObject(t.key, v.fields)) else other(t, v)
  }

  /** The call a resolver makes: with the converted input when it has an argument type,
      with no arguments otherwise. */
  function Invoked(r: Resolver, call: Call, args: Value): Result<Value, Error> {
    match r.argType
    case Some(at) =>
      (match ToPydantic(at, args)
       case Err(e) => Err(e)
       case Ok(m) => call(r.func, WithArg(m)))
    case None => call(r.func, NoArgs)
  }

  /** Running a resolver on the GraphQL arguments. */
  function RunResolver(r: Resolver, call: Call, other: ConvertOther, args: Value): (res: Result<Value, Error>)
    // the function receives the model built from the strawberry input object
    ensures r.argType.Some? && args.GqlObject? ==>
              Invoked(r, call, args) == call(r.func, WithArg(ModelInst(r.argType.value.model, args.fields)))
    ensures r.argType.Some? && !args.GqlObject? ==> res.Err?
    // without a return type the function's own result is the field's value
    ensures r.retType.None? ==> res == Invoked(r, call, args)
    // with one, a model result is converted to the strawberry type, field for field
    ensures r.retType.Some? && Invoked(r, call, args).Ok? && Invoked(r, call, args).value.ModelInst? ==>
              res == Ok(GqlObject(r.retType.value.key, Invoked(r, call, args).value.fields))
    ensures r.argType.None? && r.retType.None? ==> res == call(r.func, NoArgs)
    // a failure of the input conversion or of the function itself propagates unchanged
    ensures Invoked(r, call, args).Err? ==> res == Invoked(r, call, args)
    // any other result under a return type is whatever strawberry's conversion makes of it
    ensures r.retType.Some? && Invoked(r, call, args).Ok? && !Invoked(r, call, args).value.ModelInst? ==>
              res == other(r.retType.value, Invoked(r, call, args).value)
  {
    match Invoked(r, call, args)
    case Err(e) => Err(e)
    case Ok(result) =>
      match r.retType
      case None => Ok(result)
      case Some(rt) => FromPydantic(rt, result, other)
  }

  // ---------------------------------------------------------------------------
  // Field names and ordered field dicts
  // ---------------------------------------------------------------------------

  /** The "name" of the function's graphql record, if any. */
  function GraphQLName(f: Function): Option<string> {
    if f.metadata.Some? && "graphql" in f.metadata.value && f.metadata.value["graphql"].GraphQLMeta? then
      f.metadata.value["graphql"].name
    else None
  }

  /** `meta.get("name") or resolver.__name__` */
  function FieldName(f: Function): (r: string)
    ensures r == f.name || (GraphQLName(f) == Some(r) && r != "")
    ensures GraphQLName(f).Some? && GraphQLName(f).value != "" ==> r == GraphQLName(f).value
    ensures GraphQLName(f).None? || GraphQLName(f) == Some("") ==> r == f.name
  {
    match GraphQLName(f)
    case Some(n) => if n != "" then n else f.name
    case None => f.name
  }

  function KeySet<V>(d: seq<(string, V)>): set<string> {
    set i | 0 <= i < |d| :: d[i].0
  }

  predicate DistinctKeys<V>(d: seq<(string, V)>) {
    forall i, j :: 0 <= i < j < |d| ==> d[i].0 != d[j].0
  }

  /** `d[k]` on a dict held as its items in insertion order. */
  function Lookup<V>(d: seq<(string, V)>, k: string): Option<V> {
    if d == [] then None else if d[0].0 == k then Some(d[0].1) else Lookup(d[1..], k)
  }

  /** `d[k] = v`: an existing key keeps its position and takes the new value, a new key
      goes at the end. */
  function Put<V>(d: seq<(string, V)>, k: string, v: V): (r: seq<(string, V)>)
    ensures Lookup(r, k) == Some(v)
    ensures KeySet(r) == KeySet(d) + {k}
    ensures DistinctKeys(d) ==> DistinctKeys(r)
    ensures |r| == if k in KeySet(d) then |d| else |d| + 1
  {
    if d == [] then [(k, v)]
    else if d[0].0 == k then
      KeySetCons(d[0], d[1..]);
      KeySetCons((k, v), d[1..]);
      assert d == [d[0]] + d[1..];
      DistinctKeysCons(d[0], d[1..]);
      DistinctKeysCons((k, v), d[1..]);
      [(k, v)] + d[1..]
    else
      var rest := Put(d[1..], k, v);
      KeySetCons(d[0], d[1..]);
      KeySetCons(d[0], rest);
      assert d == [d[0]] + d[1..];
      DistinctKeysCons(d[0], d[1..]);
      DistinctKeysCons(d[0], rest);
      [d[0]] + rest
  }

  lemma DistinctKeysCons<V>(x: (string, V), d: seq<(string, V)>)
    ensures DistinctKeys([x] + d) <==> x.0 !in KeySet(d) && DistinctKeys(d)
  {
    var r := [x] + d;
    if DistinctKeys(r) {
      forall i, j | 0 <= i < j < |d| ensures d[i].0 != d[j].0 {
        assert r[i + 1] == d[i] && r[j + 1] == d[j];
      }
      forall i | 0 <= i < |d| ensures d[i].0 != x.0 {
        assert r[0] == x && r[i + 1] == d[i];
        assert r[0].0 != r[i + 1].0;
      }
    }
    if x.0 !in KeySet(d) && DistinctKeys(d) {
      forall i, j | 0 <= i < j < |r| ensures r[i].0 != r[j].0 {
        if i == 0 {
          assert r[j] == d[j - 1];
        } else {
          assert r[i] == d[i - 1] && r[j] == d[j - 1];
        }
      }
    }
  }

  /** `d[k] = v` leaves every other key's value as it was. */
  lemma {:induction false} PutKeepsOtherKeys<V>(d: seq<(string, V)>, k: string, v: V, other: string)
    requires other != k
    ensures Lookup(Put(d, k, v), other) == Lookup(d, other)
  {
    if d != [] && d[0].0 != k {
      PutKeepsOtherKeys(d[1..], k, v, other);
    }
  }

  lemma KeySetCons<V>(x: (string, V), d: seq<(string, V)>)
    ensures KeySet([x] + d) == {x.0} + KeySet(d)
  {
    var r := [x] + d;
    forall y | y in KeySet(r) ensures y in {x.0} + KeySet(d) {
      var i :| 0 <= i < |r| && r[i].0 == y;
      if i > 0 { assert d[i - 1].0 == y; }
    }
    forall y | y in KeySet(d) ensures y in KeySet(r) {
      var i :| 0 <= i < |d| && d[i].0 == y;
      assert r[i + 1].0 == y;
    }
    assert r[0].0 == x.0;
  }

  /** The `fields` dict the field builders assemble from a list of functions. */
  function OrderedFields(fs: seq<Function>): seq<(string, Function)> {
    if fs == [] then [] else Put(OrderedFields(fs[..|fs| - 1]), FieldName(fs[|fs| - 1]), fs[|fs| - 1])
  }

  /** The field names of a list of functions. */
  function FieldNames(fs: seq<Function>): set<string> {
    set i | 0 <= i < |fs| :: FieldName(fs[i])
  }

  lemma FieldNamesSnoc(fs: seq<Function>)
    requires fs != []
    ensures FieldNames(fs) == FieldNames(fs[..|fs| - 1]) + {FieldName(fs[|fs| - 1])}
  {
    var init := fs[..|fs| - 1];
    forall k | k in FieldNames(fs) ensures k in FieldNames(init) + {FieldName(fs[|fs| - 1])} {
      var i :| 0 <= i < |fs| && FieldName(fs[i]) == k;
      if i < |init| { assert FieldName(init[i]) == k; }
    }
    forall k | k in FieldNames(init) ensures k in FieldNames(fs) {
      var i :| 0 <= i < |init| && FieldName(init[i]) == k;
      assert FieldName(fs[i]) == k;
    }
  }

  /** One field per distinct name, and exactly the functions' names. */
  lemma {:induction false} OrderedFieldsKeys(fs: seq<Function>)
    ensures DistinctKeys(OrderedFields(fs))
    ensures KeySet(OrderedFields(fs)) == FieldNames(fs)
  {
    if fs != [] {
      OrderedFieldsKeys(fs[..|fs| - 1]);
      FieldNamesSnoc(fs);
    }
  }

  /** The field under a name is the last function that carries that name. */
  lemma {:induction false} LaterFunctionWins(fs: seq<Function>, i: nat)
    requires i < |fs|
    requires forall j :: i < j < |fs| ==> FieldName(fs[j]) != FieldName(fs[i])
    ensures Lookup(OrderedFields(fs), FieldName(fs[i])) == Some(fs[i])
  {
    if i < |fs| - 1 {
      LaterFunctionWins(fs[..|fs| - 1], i);
      PutKeepsOtherKeys(OrderedFields(fs[..|fs| - 1]), FieldName(fs[|fs| - 1]), fs[|fs| - 1], FieldName(fs[i]));
    }
  }

  /** Field dicts whose values are resolvers, seen through the functions they wrap. */
  function Funcs(d: seq<(string, Resolver)>): (r: seq<(string, Function)>)
    ensures |r| == |d|
  {
    if d == [] then [] else [(d[0].0, d[0].1.func)] + Funcs(d[1..])
  }

  lemma {:induction false} FuncsPut(d: seq<(string, Resolver)>, k: string, r: Resolver)
    ensures Funcs(Put(d, k, r)) == Put(Funcs(d), k, r.func)
  {
    if d != [] && d[0].0 != k {
      FuncsPut(d[1..], k, r);
      assert Put(d, k, r)[1..] == Put(d[1..], k, r);
    }
  }

  predicate AllWellFormed(d: seq<(string, Resolver)>) {
    forall i :: 0 <= i < |d| ==> WellFormed(d[i].1)
  }

  lemma {:induction false} PutKeepsWellFormed(d: seq<(string, Resolver)>, k: string, r: Resolver)
    requires AllWellFormed(d) && WellFormed(r)
    ensures AllWellFormed(Put(d, k, r))
  {
    if d != [] && d[0].0 != k {
      PutKeepsWellFormed(d[1..], k, r);
    }
  }

  predicate AllRegistered(d: seq<(string, Resolver)>, types: map<string, StrawberryType>) {
    forall i :: 0 <= i < |d| ==> Registered(d[i].1, types)
  }

  lemma {:induction false} PutKeepsRegistered(d: seq<(string, Resolver)>, k: string, r: Resolver,
                                              types: map<string, StrawberryType>)
    requires AllRegistered(d, types) && Registered(r, types)
    ensures AllRegistered(Put(d, k, r), types)
  {
    if d != [] && d[0].0 != k {
      PutKeepsRegistered(d[1..], k, r, types);
    }
  }

  lemma RegisteredGrows(d: seq<(string, Resolver)>, before: map<string, StrawberryType>,
                        after: map<string, StrawberryType>)
    requires AllRegistered(d, before) && Extends(after, before)
    ensures AllRegistered(d, after)
  {
    forall i | 0 <= i < |d| ensures Registered(d[i].1, after) {
      assert Registered(d[i].1, before);
    }
  }

  /** `create_query_from_queryables` / `create_mutation_from_mutatables`: one resolver
      field per function, named by `FieldName`, later names replacing earlier ones; the
      registry gains exactly the missing types of those functions' models. */
  method CreateFields(reg: TypeRegistry, fs: seq<Function>) returns (fields: seq<(string, Resolver)>)
    requires reg.Valid()
    modifies reg
    ensures reg.Valid()
    ensures Funcs(fields) == OrderedFields(fs) && AllWellFormed(fields)
    ensures Extends(reg.types, old(reg.types))
    ensures reg.types.Keys == old(reg.types).Keys + KeysForAll(fs)
    ensures AllRegistered(fields, reg.types)
  {
    fields := [];
    for i := 0 to |fs|
      invariant reg.Valid()
      invariant Funcs(fields) == OrderedFields(fs[..i]) && AllWellFormed(fields)
      invariant Extends(reg.types, old(reg.types))
      invariant reg.types.Keys == old(reg.types).Keys + KeysForAll(fs[..i])
      invariant AllRegistered(fields, reg.types)
    {
      assert fs[..i + 1][..i] == fs[..i];
      ghost var before := reg.types;
      var resolver := CreateResolver(reg, fs[i]);
      KeysForAllPrefix(old(reg.types).Keys, before.Keys, reg.types.Keys, fs, i);
      RegisteredGrows(fields, before, reg.types);
      FuncsPut(fields, FieldName(fs[i]), resolver);
      PutKeepsWellFormed(fields, FieldName(fs[i]), resolver);
      PutKeepsRegistered(fields, FieldName(fs[i]), resolver, reg.types);
      fields := Put(fields, FieldName(fs[i]), resolver);
    }
    assert fs[..|fs|] == fs;
  }

  /** One step of the key bookkeeping in `CreateFields`. */
  lemma KeysForAllPrefix(start: set<string>, before: set<string>, after: set<string>, fs: seq<Function>, i: nat)
    requires i < |fs|
    requires before == start + KeysForAll(fs[..i])
    requires after == before + KeysFor(fs[i])
    ensures after == start + KeysForAll(fs[..i + 1])
  {
    assert fs[..i + 1][..i] == fs[..i];
  }

  // ---------------------------------------------------------------------------
  // The partition and the schema
  // ---------------------------------------------------------------------------

  predicate IsSubscription(f: Function) {
    f.metadata.Some? && "graphql" in f.metadata.value
    && f.metadata.value["graphql"].GraphQLMeta? && f.metadata.value["graphql"].subscription
  }

  function SubscriptionP(): Function -> bool {
    f => IsSubscription(f)
  }

  function MutationP(mutatables: seq<Function>): Function -> bool {
    f => !IsSubscription(f) && f in mutatables
  }

  function QueryP(mutatables: seq<Function>): Function -> bool {
    f => !IsSubscription(f) && f !in mutatables
  }

  /** The three resolver lists. */
  datatype Split = Split(queries: seq<Function>, mutations: seq<Function>, subscriptions: seq<Function>)

  /** The queryables and mutatables that carry "graphql" metadata, in that order. */
  function Exposed(l: Lists): seq<Function> {
    Keep(l.queryables + l.mutatables, TaggedBy("graphql"))
  }

  /** The three-way split of a list of exposed functions. */
  function SplitOf(exposed: seq<Function>, mutatables: seq<Function>): Split {
    Split(Keep(exposed, QueryP(mutatables)), Keep(exposed, MutationP(mutatables)), Keep(exposed, SubscriptionP()))
  }

  /** What `create_schema_from_collections` sends to each list. */
  function Partition(l: Lists): Split {
    SplitOf(Exposed(l), l.mutatables)
  }

  /** One more exposed function goes to the end of exactly one list. */
  lemma SplitOfSnoc(exposed: seq<Function>, f: Function, mutatables: seq<Function>)
    ensures var p := SplitOf(exposed, mutatables);
      SplitOf(exposed + [f], mutatables) ==
        if IsSubscription(f) then p.(subscriptions := p.subscriptions + [f])
        else if f in mutatables then p.(mutations := p.mutations + [f])
        else p.(queries := p.queries + [f])
  {
    KeepSnoc(exposed, f, QueryP(mutatables));
    KeepSnoc(exposed, f, MutationP(mutatables));
    KeepSnoc(exposed, f, SubscriptionP());
  }

  lemma {:induction false} KeepThreeWay(s: seq<Function>, muts: seq<Function>)
    ensures |Keep(s, QueryP(muts))| + |Keep(s, MutationP(muts))| + |Keep(s, SubscriptionP())| == |s|
  {
    if s != [] {
      KeepThreeWay(s[1..], muts);
    }
  }

  /** Every exposed function lands in exactly one list, nothing else lands anywhere,
      and the three lists together are exactly as long as the exposed ones. */
  lemma PartitionIsExact(l: Lists, f: Function)
    ensures var p := Partition(l);
      && (f in p.subscriptions <==> f in Exposed(l) && IsSubscription(f))
      && (f in p.mutations <==> f in Exposed(l) && !IsSubscription(f) && f in l.mutatables)
      && (f in p.queries <==> f in Exposed(l) && !IsSubscription(f) && f !in l.mutatables)
      && (f in p.queries + p.mutations + p.subscriptions ==>
            f in l.queryables + l.mutatables && HasNamespace(f, "graphql"))
      && |p.queries| + |p.mutations| + |p.subscriptions| == |Exposed(l)|
  {
    var exposed := Exposed(l);
    var p := Partition(l);
    KeepThreeWay(exposed, l.mutatables);
    if f in exposed {
      var i :| 0 <= i < |exposed| && exposed[i] == f;
      assert SubscriptionP()(exposed[i]) ==> f in p.subscriptions;
      assert MutationP(l.mutatables)(exposed[i]) ==> f in p.mutations;
      assert QueryP(l.mutatables)(exposed[i]) ==> f in p.queries;
    }
    if f in p.queries + p.mutations + p.subscriptions {
      assert f in p.queries || f in p.mutations || f in p.subscriptions;
      assert f in exposed;
    }
  }

  /** Scripts never reach the schema (unless the same function is also registered as a
      queryable or mutatable). */
  lemma ScriptsNeverExposed(l: Lists, f: Function)
    requires f in l.scripts && f !in l.queryables && f !in l.mutatables
    ensures var p := Partition(l); f !in p.queries && f !in p.mutations && f !in p.subscriptions
  {
    PartitionIsExact(l, f);
  }

  /** One iteration of the partition loop: an untagged candidate changes nothing, a
      tagged one goes to the end of its list. */
  lemma SplitStep(cands: seq<Function>, i: nat, muts: seq<Function>)
    requires i < |cands|
    ensures var f := cands[i];
      var before := SplitOf(Keep(cands[..i], TaggedBy("graphql")), muts);
      var after := SplitOf(Keep(cands[..i + 1], TaggedBy("graphql")), muts);
      && (!HasNamespace(f, "graphql") ==> after == before)
      && (HasNamespace(f, "graphql") && IsSubscription(f) ==>
            after == before.(subscriptions := before.subscriptions + [f]))
      && (HasNamespace(f, "graphql") && !IsSubscription(f) && f in muts ==>
            after == before.(mutations := before.mutations + [f]))
      && (HasNamespace(f, "graphql") && !IsSubscription(f) && f !in muts ==>
            after == before.(queries := before.queries + [f]))
  {
    var f := cands[i];
    var tagged := Keep(cands[..i], TaggedBy("graphql"));
    assert cands[..i + 1] == cands[..i] + [f];
    KeepSnoc(cands[..i], f, TaggedBy("graphql"));
    assert TaggedBy("graphql")(f) == HasNamespace(f, "graphql");
    if HasNamespace(f, "graphql") {
      assert Keep(cands[..i + 1], TaggedBy("graphql")) == tagged + [f];
      SplitOfSnoc(tagged, f, muts);
    } else {
      assert Keep(cands[..i + 1], TaggedBy("graphql")) == tagged;
    }
  }

  /** The loop of `create_schema_from_collections` that fills the three lists. */
  method SplitResolvers(l: Lists) returns (p: Split)
    ensures p == Partition(l)
  {
    var candidates := l.queryables + l.mutatables;
    var queries: seq<Function>, mutations: seq<Function>, subscriptions: seq<Function> := [], [], [];
    for i := 0 to |candidates|
      invariant Split(queries, mutations, subscriptions)
                == SplitOf(Keep(candidates[..i], TaggedBy("graphql")), l.mutatables)
    {
      var f := candidates[i];
      SplitStep(candidates, i, l.mutatables);
      if f.metadata.Some? && "graphql" in f.metadata.value {
        var meta := f.metadata.value["graphql"];
        if meta.GraphQLMeta? && meta.subscription {
          subscriptions := subscriptions + [f];
        } else if f in l.mutatables {
          mutations := mutations + [f];
        } else {
          queries := queries + [f];
        }
      }
    }
    assert candidates[..|candidates|] == candidates;
    p := Split(queries, mutations, subscriptions);
  }

  /** The query type: the `EmptyQuery` placeholder with its `noop` field, or the fields. */
  datatype QueryType = EmptyQuery | QueryFields(fields: seq<(string, Resolver)>)

  datatype Schema = Schema(
    query: QueryType,
    mutation: Option<seq<(string, Resolver)>>,
    subscription: Option<seq<(string, Function)>>)   // subscription fields use the raw function

  /** The schema `create_graphql_schema(queries, mutations, subscriptions)` builds. */
  predicate SchemaFor(s: Schema, p: Split) {
    && (s.query == EmptyQuery <==> p.queries == [])
    && (s.query.QueryFields? ==> Funcs(s.query.fields) == OrderedFields(p.queries) && AllWellFormed(s.query.fields))
    && (s.mutation.None? <==> p.mutations == [])
    && (s.mutation.Some? ==> Funcs(s.mutation.value) == OrderedFields(p.mutations) && AllWellFormed(s.mutation.value))
    && (s.subscription.None? <==> p.subscriptions == [])
    && (s.subscription.Some? ==> s.subscription.value == OrderedFields(p.subscriptions))
  }

  /** Every query and mutation resolver of the schema uses the registry's types. */
  predicate SchemaRegistered(s: Schema, types: map<string, StrawberryType>) {
    && (s.query.QueryFields? ==> AllRegistered(s.query.fields, types))
    && (s.mutation.Some? ==> AllRegistered(s.mutation.value, types))
  }

  /** `create_graphql_schema`: query and mutation resolvers register their models'
      types; subscription fields register nothing. */
  method CreateGraphQLSchema(reg: TypeRegistry, p: Split) returns (s: Schema)
    requires reg.Valid()
    modifies reg
    ensures reg.Valid()
    ensures SchemaFor(s, p)
    ensures Extends(reg.types, old(reg.types))
    ensures reg.types.Keys == old(reg.types).Keys + KeysForAll(p.queries) + KeysForAll(p.mutations)
    ensures SchemaRegistered(s, reg.types)
  {
    var query := EmptyQuery;
    if p.queries != [] {
      var fields := CreateFields(reg, p.queries);
      query := QueryFields(fields);
    }
    var mutation := None;
    if p.mutations != [] {
      ghost var before := reg.types;
      var fields := CreateFields(reg, p.mutations);
      if query.QueryFields? {
        RegisteredGrows(query.fields, before, reg.types);
      }
      mutation := Some(fields);
    }
    var subscription := None;
    if p.subscriptions != [] {
      subscription := Some(OrderedFields(p.subscriptions));
    }
    s := Schema(query, mutation, subscription);
  }

  /** `create_schema_from_collections(collections)` */
  method CreateSchemaFromCollections(reg: TypeRegistry, colls: seq<Collection>) returns (s: Schema)
    requires reg.Valid()
    modifies reg
    ensures reg.Valid()
    ensures SchemaFor(s, Partition(ConcatAll(old(ListsOf(colls)))))
    ensures Extends(reg.types, old(reg.types))
    ensures var p := Partition(ConcatAll(old(ListsOf(colls))));
            reg.types.Keys == old(reg.types).Keys + KeysForAll(p.queries) + KeysForAll(p.mutations)
    ensures SchemaRegistered(s, reg.types)
  {
    ghost var split := Partition(ConcatAll(ListsOf(colls)));
    var combined := Combine("graphql_combined", colls);
    var p := SplitResolvers(combined.Contents());
    assert p == split;
    s := CreateGraphQLSchema(reg, p);
  }
}
