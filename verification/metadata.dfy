/** The per-function metadata store: `attach_metadata` writes one record per
    namespace into the function's `__qs_metadata__` dict and appends the
    record to `__qs_pydantic_bases__`; a namespace is written at most once. */
module Metadata {
  import opened Common
  import opened PyModel

  /** `namespace or func.__module__` as `attach_metadata` resolves it (only None is replaced). */
  function NamespaceFor(namespace: Option<string>, moduleName: string): string {
    match namespace
    case Some(ns) => ns
    case None => moduleName
  }

  /** The metadata dict after the attribute has been created if it was missing. */
  function MetaOrEmpty(meta: Option<map<string, MetaRecord>>): map<string, MetaRecord> {
    match meta
    case Some(m) => m
    case None => map[]
  }

  /** What `attach_metadata` leaves in `__qs_metadata__`, or the ValueError it raises. */
  function Attach(meta: Option<map<string, MetaRecord>>, ns: string, data: MetaRecord)
    : (r: Result<map<string, MetaRecord>, Error>)
    ensures r.Err? <==> meta.Some? && ns in meta.value
    ensures r.Err? ==> r.error == Error(ValueError, ns)
    ensures r.Ok? ==> r.value.Keys == MetaOrEmpty(meta).Keys + {ns} && r.value[ns] == data
    ensures r.Ok? ==> |r.value| == |MetaOrEmpty(meta)| + 1
    ensures r.Ok? ==> forall k :: k in MetaOrEmpty(meta) ==> r.value[k] == MetaOrEmpty(meta)[k]
  {
    var m := MetaOrEmpty(meta);
    if ns in m then Err(Error(ValueError, ns)) else Ok(m[ns := data])
  }

  /** Writing the same namespace twice always fails, whatever the records. */
  lemma AttachTwiceFails(meta: Option<map<string, MetaRecord>>, ns: string, d1: MetaRecord, d2: MetaRecord)
    requires Attach(meta, ns, d1).Ok?
    ensures Attach(Some(Attach(meta, ns, d1).value), ns, d2) == Err(Error(ValueError, ns))
  {
  }

  /** Records under different namespaces commute: the store does not depend on the order
      in which independent decorators run. */
  lemma AttachCommutes(meta: Option<map<string, MetaRecord>>, ns1: string, d1: MetaRecord, ns2: string, d2: MetaRecord)
    requires ns1 != ns2
    requires Attach(meta, ns1, d1).Ok? && Attach(meta, ns2, d2).Ok?
    ensures Attach(Some(Attach(meta, ns1, d1).value), ns2, d2)
         == Attach(Some(Attach(meta, ns2, d2).value), ns1, d1)
  {
    var m := MetaOrEmpty(meta);
    var m1, m2 := m[ns1 := d1], m[ns2 := d2];
    assert Attach(meta, ns1, d1) == Ok(m1);
    assert Attach(meta, ns2, d2) == Ok(m2);
    assert MetaOrEmpty(Some(m1)) == m1 && MetaOrEmpty(Some(m2)) == m2;
    assert Attach(Some(m1), ns2, d2) == Ok(m1[ns2 := d2]);
    assert Attach(Some(m2), ns1, d1) == Ok(m2[ns1 := d1]);
    UpdatesCommute(m, ns1, d1, ns2, d2);
  }

  lemma UpdatesCommute(m: map<string, MetaRecord>, k1: string, v1: MetaRecord, k2: string, v2: MetaRecord)
    requires k1 != k2
    ensures m[k1 := v1][k2 := v2] == m[k2 := v2][k1 := v1]
  {
  }

  /** A Python function object during decoration: identity and signature are fixed,
      the `__qs_*__` attributes are written in place by the decorators. */
  class FunctionObject {
    const id: nat
    const name: string
    const moduleName: string
    const params: seq<Param>
    const ret: Ann
    const isCoroutine: bool
    const isAsyncGen: bool
    var metadata: Option<map<string, MetaRecord>>   // __qs_metadata__
    var pydanticBases: Option<seq<MetaRecord>>      // __qs_pydantic_bases__
    var mode: Option<Mode>                           // __qs_mode__
    var argsType: Option<ModelClass>                 // __qs_args_pydantic_type__
    var retType: Option<ModelClass>                  // __qs_ret_pydantic_type__

    /** A freshly defined function carries none of the framework's attributes. */
    constructor (id: nat, name: string, moduleName: string, params: seq<Param>, ret: Ann,
                 isCoroutine: bool, isAsyncGen: bool)
      ensures this.id == id && this.name == name && this.moduleName == moduleName
      ensures this.params == params && this.ret == ret
      ensures this.isCoroutine == isCoroutine && this.isAsyncGen == isAsyncGen
      ensures metadata.None? && pydanticBases.None? && mode.None?
      ensures argsType.None? && retType.None?
    {
      this.id, this.name, this.moduleName, this.params := id, name, moduleName, params;
      this.ret, this.isCoroutine, this.isAsyncGen := ret, isCoroutine, isAsyncGen;
      metadata, pydanticBases, mode := None, None, None;
      argsType, retType := None, None;
    }

    /** The function as later readers (collections, servers) see it. */
    function Snapshot(): (f: Function)
      reads this
      ensures f.id == id && f.name == name && f.metadata == metadata && f.mode == mode
    {
      Function(id, name, moduleName, params, ret, isCoroutine, isAsyncGen, metadata, mode, argsType, retType)
    }

    /** `attach_metadata(func, namespace=..., data=...)`. Both attributes exist afterwards;
        on a namespace that is already present it raises ValueError and changes nothing else. */
    method AttachMetadata(namespace: Option<string>, data: MetaRecord) returns (r: Outcome<Error>)
      modifies this
      ensures var ns := NamespaceFor(namespace, moduleName);
        match Attach(old(metadata), ns, data)
        case Ok(m) =>
          r == Pass && metadata == Some(m)
          && pydanticBases == Some(BasesOrEmpty(old(pydanticBases)) + [data])
        case Err(e) =>
          r == Fail(e) && metadata == old(metadata) && pydanticBases == Some(BasesOrEmpty(old(pydanticBases)))
      ensures mode == old(mode) && argsType == old(argsType) && retType == old(retType)
    {
      var ns := NamespaceFor(namespace, moduleName);
      if metadata.None? {
        metadata := Some(map[]);
      }
      if pydanticBases.None? {
        pydanticBases := Some([]);
      }
      if ns in metadata.value {
        return Fail(Error(ValueError, ns));
      }
      metadata := Some(metadata.value[ns := data]);
      pydanticBases := Some(pydanticBases.value + [data]);
      r := Pass;
    }
  }

  function BasesOrEmpty(bases: Option<seq<MetaRecord>>): seq<MetaRecord> {
    match bases
    case Some(b) => b
    case None => []
  }
}
