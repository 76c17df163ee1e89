/** The collection registry: `QuickScriptCollection` and the file and directory
    collectors built on it. */
module Collect {
  import opened Common
  import opened PyModel

  /** The three ordered lists of a collection, as a value. */
  datatype Lists = Lists(queryables: seq<Function>, mutatables: seq<Function>, scripts: seq<Function>)

  const NoLists := Lists([], [], [])

  /** `queryables + mutatables + scripts` */
  function All(l: Lists): seq<Function> {
    l.queryables + l.mutatables + l.scripts
  }

  /** List-wise concatenation: what `add_collection` does to the lists. */
  function Concat(a: Lists, b: Lists): Lists {
    Lists(a.queryables + b.queryables, a.mutatables + b.mutatables, a.scripts + b.scripts)
  }

  lemma ConcatAssoc(a: Lists, b: Lists, c: Lists)
    ensures Concat(Concat(a, b), c) == Concat(a, Concat(b, c))
  {
    assert (a.queryables + b.queryables) + c.queryables == a.queryables + (b.queryables + c.queryables);
    assert (a.mutatables + b.mutatables) + c.mutatables == a.mutatables + (b.mutatables + c.mutatables);
    assert (a.scripts + b.scripts) + c.scripts == a.scripts + (b.scripts + c.scripts);
  }

  lemma ConcatNoLists(a: Lists)
    ensures Concat(a, NoLists) == a
  {
    assert a.queryables + [] == a.queryables;
    assert a.mutatables + [] == a.mutatables;
    assert a.scripts + [] == a.scripts;
  }

  lemma NoListsConcat(a: Lists)
    ensures Concat(NoLists, a) == a
  {
    assert [] + a.queryables == a.queryables;
    assert [] + a.mutatables == a.mutatables;
    assert [] + a.scripts == a.scripts;
  }

  /** Left fold of `Concat` over a list of collections' lists, in order. */
  function ConcatAll(ls: seq<Lists>): Lists {
    if ls == [] then NoLists else Concat(ConcatAll(ls[..|ls| - 1]), ls[|ls| - 1])
  }

  predicate HasCliArgs(f: Function) {
    HasParam(f.params, "cli_args")
  }

  /** `add(func)` on lists `l`: the new lists, or the AttributeError raised when a
      function has metadata but no `__qs_mode__` and no `cli_args` parameter. */
  function AddSpec(l: Lists, f: Function): (r: Result<Lists, Error>)
    // the only failure: metadata without a mode, and not a CLI script
    ensures r.Err? <==> f.metadata.Some? && !HasCliArgs(f) && f.mode.None?
    ensures r.Err? ==> r.error.kind == AttributeError
    // each list either stays as it was or gains exactly `f` at its end
    ensures r.Ok? ==> r.value.queryables == l.queryables + (if f.metadata.Some? && !HasCliArgs(f) && f.mode == Some(Queryable) then [f] else [])
    ensures r.Ok? ==> r.value.mutatables == l.mutatables + (if f.metadata.Some? && !HasCliArgs(f) && f.mode == Some(Mutatable) then [f] else [])
    ensures r.Ok? ==> r.value.scripts == l.scripts + (if HasCliArgs(f) then [f] else [])
  {
    if f.metadata.None? && !HasCliArgs(f) then Ok(l)
    else if HasCliArgs(f) then Ok(l.(scripts := l.scripts + [f]))
    else match f.mode
      case None => Err(Error(AttributeError, "__qs_mode__"))
      case Some(Queryable) => Ok(l.(queryables := l.queryables + [f]))
      case Some(Mutatable) => Ok(l.(mutatables := l.mutatables + [f]))
      case Some(Script) => Ok(l)
  }

  /** `add` grows the collection by at most one entry, and only by `f`; a
      script-mode function without `cli_args` and an undecorated function leave it as it was. */
  lemma {:induction false} AddGrowsByAtMostOne(l: Lists, f: Function)
    requires AddSpec(l, f).Ok?
    ensures var n := AddSpec(l, f).value;
      && |All(n)| <= |All(l)| + 1
      && (forall g :: g in All(n) ==> g in All(l) || g == f)
      && (f.mode == Some(Script) && !HasCliArgs(f) ==> n == l)
      && (f.metadata.None? && !HasCliArgs(f) ==> n == l)
  {
    var n := AddSpec(l, f).value;
    forall g | g in All(n)
      ensures g in All(l) || g == f
    {
      assert g in n.queryables || g in n.mutatables || g in n.scripts;
    }
  }

  function TaggedBy(ns: string): Function -> bool {
    f => HasNamespace(f, ns)
  }

  function InList(list: seq<Function>): Function -> bool {
    f => f in list
  }

  /** The list a category narrows to: only a non-empty category that lower-cases to
      one of the three role names narrows anything. */
  function Narrowing(l: Lists, category: Option<string>): Option<seq<Function>> {
    match category
    case None => None
    case Some(c) =>
      if c == "" then None
      else if Lower(c) == "queryable" then Some(l.queryables)
      else if Lower(c) == "mutatable" then Some(l.mutatables)
      else if Lower(c) == "script" then Some(l.scripts)
      else None
  }

  /** What `filter_by_namespace` returns: the functions tagged with the namespace, in
      queryables-mutatables-scripts order, then narrowed to one list by the category. */
  function FilterSpec(l: Lists, ns: string, category: Option<string>): seq<Function> {
    var tagged := Keep(All(l), TaggedBy(ns));
    match Narrowing(l, category)
    case None => tagged
    case Some(list) => Keep(tagged, InList(list))
  }

  /** Exactly the functions of the collection that carry the namespace and, when the
      category narrows, belong to that list. */
  lemma FilterMembership(l: Lists, ns: string, category: Option<string>, f: Function)
    ensures f in FilterSpec(l, ns, category) <==>
              f in All(l) && HasNamespace(f, ns)
              && (Narrowing(l, category).Some? ==> f in Narrowing(l, category).value)
  {
    var all := All(l);
    var tagged := Keep(all, TaggedBy(ns));
    if f in all && HasNamespace(f, ns) {
      var i :| 0 <= i < |all| && all[i] == f;
      assert TaggedBy(ns)(all[i]);
      assert f in tagged;
      if Narrowing(l, category).Some? && f in Narrowing(l, category).value {
        var j :| 0 <= j < |tagged| && tagged[j] == f;
        assert InList(Narrowing(l, category).value)(tagged[j]);
      }
    }
  }

  /** A category other than the three role names filters exactly like no category. */
  lemma UnknownCategoryIsNoCategory(l: Lists, ns: string, c: string)
    requires Lower(c) !in {"queryable", "mutatable", "script"}
    ensures FilterSpec(l, ns, Some(c)) == FilterSpec(l, ns, None)
  {
  }

  /** A member of a loaded module, as `inspect.getmembers` lists it. */
  datatype Member = FunctionMember(f: Function) | OtherMember(name: string)

  /** `inspect.isfunction(obj) and hasattr(obj, "__qs_metadata__")` */
  predicate Collected(m: Member) {
    m.FunctionMember? && m.f.metadata.Some?
  }

  /** `add` applied to each collected member in order, stopping at the first error. */
  function FoldAdd(l: Lists, members: seq<Member>): Result<Lists, Error> {
    if members == [] then Ok(l)
    else match FoldAdd(l, members[..|members| - 1])
      case Err(e) => Err(e)
      case Ok(prev) =>
        var m := members[|members| - 1];
        if Collected(m) then AddSpec(prev, m.f) else Ok(prev)
  }

  /** An error raised by one `add` ends the fold: later members do not matter. */
  lemma {:induction false} FoldAddErrPersists(l: Lists, members: seq<Member>, k: nat, e: Error)
    requires k <= |members| && FoldAdd(l, members[..k]) == Err(e)
    ensures FoldAdd(l, members) == Err(e)
    decreases |members| - k
  {
    if k < |members| {
      assert members[..k + 1][..k] == members[..k];
      FoldAddErrPersists(l, members, k + 1, e);
    } else {
      assert members[..k] == members;
    }
  }

  /** What executing a file's module (`spec.loader.exec_module`) gives: its members in
      `getmembers` order, or the exception it raised. */
  datatype Loaded = Executed(members: seq<Member>) | Raised(error: Error)

  /** The lists `collect_from_file` produces: a module that raised an `Exception` is
      skipped, one that raised `SystemExit` or `KeyboardInterrupt` escapes `except Exception`. */
  function FileLists(loaded: Loaded): (r: Result<Lists, Error>)
    ensures loaded.Raised? ==> (r.Ok? <==> IsException(loaded.error.kind))
    ensures loaded.Raised? && IsException(loaded.error.kind) ==> r == Ok(NoLists)
    ensures loaded.Raised? && !IsException(loaded.error.kind) ==> r == Err(loaded.error)
  {
    match loaded
    case Raised(e) => if IsException(e.kind) then Ok(NoLists) else Err(e)
    case Executed(members) => FoldAdd(NoLists, members)
  }

  /** Members that are not decorated functions never reach `add`. */
  lemma {:induction false} UncollectedMembersIgnored(l: Lists, members: seq<Member>, m: Member)
    requires !Collected(m)
    ensures FoldAdd(l, members + [m]) == FoldAdd(l, members)
  {
    assert (members + [m])[..|members|] == members;
  }

  /** The lists `collect_from_dir` produces from the files in enumeration order. */
  function DirLists(files: seq<Loaded>): Result<Lists, Error> {
    if files == [] then Ok(NoLists)
    else match DirLists(files[..|files| - 1])
      case Err(e) => Err(e)
      case Ok(prev) =>
        match FileLists(files[|files| - 1])
        case Err(e) => Err(e)
        case Ok(last) => Ok(Concat(prev, last))
  }

  /** A file whose collection raised stops the directory walk with that error. */
  lemma {:induction false} DirListsErrPersists(files: seq<Loaded>, k: nat, e: Error)
    requires k <= |files| && DirLists(files[..k]) == Err(e)
    ensures DirLists(files) == Err(e)
    decreases |files| - k
  {
    if k < |files| {
      assert files[..k + 1][..k] == files[..k];
      DirListsErrPersists(files, k + 1, e);
    } else {
      assert files[..k] == files;
    }
  }

  /** Collecting a directory is compositional: the files of `a + b` give the
      concatenation of what `a` and `b` give on their own. */
  lemma {:induction false} DirListsAppend(a: seq<Loaded>, b: seq<Loaded>)
    requires DirLists(a).Ok? && DirLists(b).Ok?
    ensures DirLists(a + b) == Ok(Concat(DirLists(a).value, DirLists(b).value))
    decreases |b|
  {
    if b == [] {
      assert a + b == a;
      ConcatNoLists(DirLists(a).value);
    } else {
      var b' := b[..|b| - 1];
      assert (a + b)[..|a + b| - 1] == a + b';
      assert (a + b)[|a + b| - 1] == b[|b| - 1];
      DirListsAppend(a, b');
      ConcatAssoc(DirLists(a).value, DirLists(b').value, FileLists(b[|b| - 1]).value);
    }
  }

  /** A file whose module raises an `Exception` contributes nothing, and the files
      after it are still collected. */
  lemma {:induction false} BrokenFileContributesNothing(a: seq<Loaded>, e: Error, b: seq<Loaded>)
    requires IsException(e.kind)
    requires DirLists(a).Ok? && DirLists(b).Ok?
    ensures DirLists(a + [Raised(e)] + b) == DirLists(a + b)
  {
    var broken: seq<Loaded> := [Raised(e)];
    assert broken[..0] == [];
    assert DirLists(broken) == Ok(Concat(NoLists, NoLists));
    ConcatNoLists(NoLists);
    DirListsAppend(a, broken);
    ConcatNoLists(DirLists(a).value);
    assert DirLists(a + broken) == DirLists(a);
    DirListsAppend(a + broken, b);
    DirListsAppend(a, b);
  }

  /** A module that calls `sys.exit()` (or is interrupted) while being imported ends the
      whole directory walk with that exception, whatever files come after it. */
  lemma {:induction false} ExitDuringImportStopsWalk(a: seq<Loaded>, e: Error, b: seq<Loaded>)
    requires !IsException(e.kind)
    requires DirLists(a).Ok?
    ensures DirLists(a + [Raised(e)] + b) == Err(e)
  {
    var files := a + [Raised(e)] + b;
    assert files[..|a| + 1][..|a|] == a;
    assert files[..|a| + 1][|a|] == Raised(e);
    DirListsErrPersists(files, |a| + 1, e);
  }

  /** A `QuickScriptCollection`. */
  class Collection {
    var name: string
    var queryables: seq<Function>
    var mutatables: seq<Function>
    var scripts: seq<Function>

    function Contents(): Lists
      reads this
    {
      Lists(queryables, mutatables, scripts)
    }

    constructor (name: string)
      ensures this.name == name && Contents() == NoLists
    {
      this.name := name;
      queryables, mutatables, scripts := [], [], [];
    }

    /** `add(func)` */
    method Add(f: Function) returns (r: Outcome<Error>)
      modifies this
      ensures name == old(name)
      ensures match AddSpec(old(Contents()), f)
        case Ok(l) => r == Pass && Contents() == l
        case Err(e) => r == Fail(e) && Contents() == old(Contents())
    {
      var cli := HasParam(f.params, "cli_args");
      if f.metadata.None? && !cli {
        return Pass;
      }
      if cli {
        scripts := scripts + [f];
      } else if f.mode.None? {
        return Fail(Error(AttributeError, "__qs_mode__"));
      } else if f.mode.value == Queryable {
        queryables := queryables + [f];
      } else if f.mode.value == Mutatable {
        mutatables := mutatables + [f];
      }
      r := Pass;
    }

    /** `add_collection(other)`: extends each list by the other's, in order; `other`
        may be this collection itself, whose lists are then doubled. */
    method AddCollection(other: Collection)
      modifies this
      ensures name == old(name)
      ensures Contents() == Concat(old(Contents()), old(other.Contents()))
      ensures other != this ==> other.Contents() == old(other.Contents())
    {
      var q, m, s := other.queryables, other.mutatables, other.scripts;
      queryables := queryables + q;
      mutatables := mutatables + m;
      scripts := scripts + s;
    }

    /** `bundle(*collections)`: a new collection; this one and the arguments are unchanged. */
    method Bundle(others: seq<Collection>) returns (b: Collection)
      ensures fresh(b)
      ensures b.name == name + " + " + Join(old(NamesOf(others)), ", ")
      ensures b.Contents() == Concat(old(Contents()), ConcatAll(old(ListsOf(others))))
    {
      ghost var mine := Contents();
      ghost var rest := ConcatAll(ListsOf(others));
      b := new Collection(name + " + " + Join(NamesOf(others), ", "));
      b.AddCollection(this);
      assert b.Contents() == mine;
      AddEach(b, others);
      assert b.Contents() == Concat(mine, rest);
    }

    /** `filter_by_namespace(namespace, category)` */
    method FilterByNamespace(ns: string, category: Option<string>) returns (result: seq<Function>)
      ensures result == FilterSpec(Contents(), ns, category)
    {
      result := KeepTagged(queryables + mutatables + scripts, ns);
      if category.Some? && category.value != "" {
        var c := Lower(category.value);
        if c == "queryable" {
          result := Keep(result, InList(queryables));
        } else if c == "mutatable" {
          result := Keep(result, InList(mutatables));
        } else if c == "script" {
          result := Keep(result, InList(scripts));
        }
      }
    }
  }

  /** The loop of `filter_by_namespace`: the functions whose metadata has the namespace. */
  method KeepTagged(all: seq<Function>, ns: string) returns (result: seq<Function>)
    ensures result == Keep(all, TaggedBy(ns))
  {
    result := [];
    for i := 0 to |all|
      invariant result == Keep(all[..i], TaggedBy(ns))
    {
      assert all[..i + 1] == all[..i] + [all[i]];
      KeepAppend(all[..i], [all[i]], TaggedBy(ns));
      KeepSingle(all[i], TaggedBy(ns));
      if all[i].metadata.Some? && ns in all[i].metadata.value {
        result := result + [all[i]];
      }
    }
    assert all[..|all|] == all;
  }

  function NamesOf(cs: seq<Collection>): seq<string>
    reads cs
  {
    if cs == [] then [] else NamesOf(cs[..|cs| - 1]) + [cs[|cs| - 1].name]
  }

  function ListsOf(cs: seq<Collection>): seq<Lists>
    reads cs
  {
    if cs == [] then [] else ListsOf(cs[..|cs| - 1]) + [cs[|cs| - 1].Contents()]
  }

  lemma {:induction false} ListsOfIndex(cs: seq<Collection>)
    ensures |ListsOf(cs)| == |cs|
    ensures forall j :: 0 <= j < |cs| ==> ListsOf(cs)[j] == cs[j].Contents()
  {
    if cs != [] {
      ListsOfIndex(cs[..|cs| - 1]);
    }
  }

  lemma ListsOfAt(cs: seq<Collection>, j: nat)
    requires j < |cs|
    ensures |ListsOf(cs)| == |cs| && ListsOf(cs)[j] == cs[j].Contents()
  {
    ListsOfIndex(cs);
  }

  lemma ConcatAllSnoc(ls: seq<Lists>, l: Lists)
    ensures ConcatAll(ls + [l]) == Concat(ConcatAll(ls), l)
  {
    assert (ls + [l])[..|ls|] == ls;
  }

  /** The loop `for c in collections: into.add_collection(c)`. */
  method AddEach(into: Collection, colls: seq<Collection>)
    requires into !in colls
    modifies into
    ensures into.name == old(into.name)
    ensures into.Contents() == Concat(old(into.Contents()), ConcatAll(old(ListsOf(colls))))
  {
    ghost var start := into.Contents();
    ghost var all := ListsOf(colls);
    ListsOfIndex(colls);
    for i := 0 to |colls|
      invariant into.name == old(into.name)
      invariant ListsOf(colls) == all
      invariant into.Contents() == Concat(start, ConcatAll(all[..i]))
    {
      ListsOfAt(colls, i);
      AddEachStep(start, all, i);
      into.AddCollection(colls[i]);
    }
    assert all[..|colls|] == all;
  }

  lemma AddEachStep(start: Lists, all: seq<Lists>, i: nat)
    requires i < |all|
    ensures Concat(Concat(start, ConcatAll(all[..i])), all[i]) == Concat(start, ConcatAll(all[..i + 1]))
  {
    assert all[..i + 1] == all[..i] + [all[i]];
    ConcatAllSnoc(all[..i], all[i]);
    ConcatAssoc(start, ConcatAll(all[..i]), all[i]);
  }

  /** A new collection named `name` into which each of `colls` was added in order
      (the servers' first step). */
  method Combine(name: string, colls: seq<Collection>) returns (combined: Collection)
    ensures fresh(combined) && combined.name == name
    ensures combined.Contents() == ConcatAll(old(ListsOf(colls)))
  {
    ghost var all := ListsOf(colls);
    combined := new Collection(name);
    AddEach(combined, colls);
    NoListsConcat(ConcatAll(all));
  }

  /** `collect_from_file(file)`: a new collection named after the file stem holding the
      collected members of the executed module; an `add` failure, or an import failure
      that is not an `Exception`, propagates. */
  method CollectFromFile(stem: string, loaded: Loaded) returns (r: Result<Collection, Error>)
    ensures r.Ok? ==> fresh(r.value) && r.value.name == stem && FileLists(loaded) == Ok(r.value.Contents())
    ensures r.Err? ==> FileLists(loaded) == Err(r.error)
  {
    var collection := new Collection(stem);
    if loaded.Raised? {
      if IsException(loaded.error.kind) {
        return Ok(collection);   // skip files that fail to import
      }
      return Err(loaded.error);
    }
    var members := loaded.members;
    for i := 0 to |members|
      invariant fresh(collection) && collection.name == stem
      invariant FoldAdd(NoLists, members[..i]) == Ok(collection.Contents())
    {
      assert members[..i + 1][..i] == members[..i];
      var m := members[i];
      if m.FunctionMember? && m.f.metadata.Some? {
        var added := collection.Add(m.f);
        if added.Fail? {
          FoldAddErrPersists(NoLists, members, i + 1, added.error);
          return Err(added.error);
        }
      }
    }
    assert members[..|members|] == members;
    r := Ok(collection);
  }

  /** `collect_from_dir(directory)`: a new collection named after the directory holding
      every file's collection, in enumeration order. */
  method CollectFromDir(directory: string, files: seq<Loaded>) returns (r: Result<Collection, Error>)
    ensures r.Ok? ==> fresh(r.value) && r.value.name == directory && DirLists(files) == Ok(r.value.Contents())
    ensures r.Err? ==> DirLists(files) == Err(r.error)
  {
    var collection := new Collection(directory);
    for i := 0 to |files|
      invariant fresh(collection) && collection.name == directory
      invariant DirLists(files[..i]) == Ok(collection.Contents())
    {
      assert files[..i + 1][..i] == files[..i];
      var fileCollection := CollectFromFile("", files[i]);
      if fileCollection.Err? {
        DirListsErrPersists(files, i + 1, fileCollection.error);
        return Err(fileCollection.error);
      }
      collection.AddCollection(fileCollection.value);
    }
    assert files[..|files|] == files;
    r := Ok(collection);
  }
}
