/** The command-line runner: which parameter receives the parsed model, the injected
    logger, and the argparse option each model field becomes. */
module Cli {
  import opened Common
  import opened PyModel

  // ---------------------------------------------------------------------------
  // cli_run
  // ---------------------------------------------------------------------------

  /** The first candidate parameter of `cli_run`: the first POSITIONAL_ONLY /
      POSITIONAL_OR_KEYWORD parameter annotated with a BaseModel subclass. It is the one
      filled unless parsing it raises TypeError (see `Scan`). Other annotations are skipped,
      whether `issubclass` answers False (a non-model class) or raises TypeError (a
      generic alias or a string). */
  function ArgsParamIndex(params: seq<Param>): (r: Option<nat>)
    ensures r.None? <==> forall i :: 0 <= i < |params| ==> !(IsPositional(params[i]) && params[i].ann.ModelT?)
    ensures r.Some? ==> r.value < |params| && IsPositional(params[r.value]) && params[r.value].ann.ModelT?
                        && forall j :: 0 <= j < r.value ==> !(IsPositional(params[j]) && params[j].ann.ModelT?)
  {
    if params == [] then None
    else if IsPositional(params[0]) && params[0].ann.ModelT? then Some(0)
    else match ArgsParamIndex(params[1..])
      case None => None
      case Some(i) => Some(i + 1)
  }

  /** The `argv` that `cli_run` uses: the given list, or `sys.argv[1:]`. */
  function EffectiveArgv(argv: Option<seq<string>>, sysArgv: seq<string>): seq<string> {
    match argv
    case Some(a) => a
    case None => if sysArgv == [] then [] else sysArgv[1..]
  }

  /** The keyword arguments `cli_run` passes: a logger named after the function
      exactly when the signature has a parameter named `logger`. */
  function LoggerKwargs(f: Function): (kwargs: map<string, Value>)
    ensures "logger" in kwargs <==> HasParam(f.params, "logger")
    ensures kwargs.Keys <= {"logger"}
    ensures "logger" in kwargs ==> kwargs["logger"] == Other("Logger " + f.name)
  {
    if HasParam(f.params, "logger") then map["logger" := Other("Logger " + f.name)] else map[]
  }

  /** The call `cli_run` makes: the parsed instance, passed positionally when there is
      one, and the keyword arguments. */
  datatype CliCall = CliCall(parsed: Option<Value>, kwargs: map<string, Value>)

  /** `parse_cli_args(model, argv)` as `cli_run` sees it: the instance or the exception. */
  type Parser = (ModelClass, seq<string>) -> Result<Value, Error>

  /** A parameter `cli_run` tries to parse into: positional, annotated with a model class. */
  predicate Candidate(p: Param) {
    IsPositional(p) && p.ann.ModelT?
  }

  /** A parameter the scan goes past: not a candidate, or one whose `issubclass` /
      `parse_cli_args` raised TypeError, which the `except TypeError: continue` swallows. */
  predicate PassedOver(p: Param, parse: Parser, argv: seq<string>) {
    Candidate(p) ==> parse(p.ann.cls, argv).Err? && parse(p.ann.cls, argv).error.kind == TypeError
  }

  /** The parameter scan of `cli_run` from parameter `from` on: the parsed instance
      (None when the scan runs off the end) or the exception that escapes it. The first
      candidate whose parse does not raise TypeError decides the outcome. */
  function Scan(params: seq<Param>, from: nat, parse: Parser, argv: seq<string>)
    : Result<Option<Value>, Error>
    requires from <= |params|
    decreases |params| - from
  {
    if from == |params| then Ok(None)
    else if Candidate(params[from]) then
      match parse(params[from].ann.cls, argv)
      case Ok(v) => Ok(Some(v))
      case Err(e) => if e.kind == TypeError then Scan(params, from + 1, parse, argv) else Err(e)
    else Scan(params, from + 1, parse, argv)
  }

  /** What the scan settles on: nothing iff every parameter is passed over; otherwise
      the outcome of the first candidate that is not, which is never a TypeError. */
  lemma {:induction false} ScanOutcome(params: seq<Param>, from: nat, parse: Parser, argv: seq<string>)
    requires from <= |params|
    decreases |params| - from
    ensures var r := Scan(params, from, parse, argv);
      && (r == Ok(None) <==> forall j :: from <= j < |params| ==> PassedOver(params[j], parse, argv))
      && (r.Ok? && r.value.Some? ==>
            exists j :: from <= j < |params| && Candidate(params[j])
                        && parse(params[j].ann.cls, argv) == Ok(r.value.value)
                        && forall k :: from <= k < j ==> PassedOver(params[k], parse, argv))
      && (r.Err? ==>
            r.error.kind != TypeError
            && exists j :: from <= j < |params| && Candidate(params[j])
                           && parse(params[j].ann.cls, argv) == Err(r.error)
                           && forall k :: from <= k < j ==> PassedOver(params[k], parse, argv))
  {
    if from < |params| {
      ScanOutcome(params, from + 1, parse, argv);
    }
  }

  /** When the first model-annotated positional parameter parses, or fails with anything
      but TypeError, that parameter decides the scan; with no such parameter the scan
      finds nothing. */
  lemma FirstCandidateDecides(params: seq<Param>, parse: Parser, argv: seq<string>)
    ensures ArgsParamIndex(params).None? ==> Scan(params, 0, parse, argv) == Ok(None)
    ensures ArgsParamIndex(params).Some? ==>
              var p := params[ArgsParamIndex(params).value];
              match parse(p.ann.cls, argv)
              case Ok(v) => Scan(params, 0, parse, argv) == Ok(Some(v))
              case Err(e) => e.kind != TypeError ==> Scan(params, 0, parse, argv) == Err(e)
  {
    var r := Scan(params, 0, parse, argv);
    ScanOutcome(params, 0, parse, argv);
    if ArgsParamIndex(params).Some? {
      var i := ArgsParamIndex(params).value;
      var q := parse(params[i].ann.cls, argv);
      if q.Ok? || q.error.kind != TypeError {
        assert !PassedOver(params[i], parse, argv);
        if r.Ok? && r.value.Some? {
          var j :| 0 <= j < |params| && Candidate(params[j])
                   && parse(params[j].ann.cls, argv) == Ok(r.value.value)
                   && forall k :: 0 <= k < j ==> PassedOver(params[k], parse, argv);
          assert j == i;
        } else if r.Err? {
          var j :| 0 <= j < |params| && Candidate(params[j])
                   && parse(params[j].ann.cls, argv) == Err(r.error)
                   && forall k :: 0 <= k < j ==> PassedOver(params[k], parse, argv);
          assert j == i;
        }
      }
    }
  }

  /** A TypeError out of `parse_cli_args` never escapes `cli_run`: with a single model
      parameter the function is then called without an argument. */
  lemma TypeErrorParseIsSwallowed(f: Function, argv: Option<seq<string>>, sysArgv: seq<string>,
                                  parse: Parser, call: CliCall -> Result<Value, Error>)
    requires |f.params| == 1 && Candidate(f.params[0])
    requires var q := parse(f.params[0].ann.cls, EffectiveArgv(argv, sysArgv));
             q.Err? && q.error.kind == TypeError
    ensures CliRunSpec(f, argv, sysArgv, parse, call).0 == Some(CliCall(None, LoggerKwargs(f)))
  {
    assert Scan(f.params, 1, parse, EffectiveArgv(argv, sysArgv)) == Ok(None);
  }

  /** What `cli_run(func, argv)` does: the call it makes (None when an exception escaped
      the parameter scan) and the function's outcome. */
  function CliRunSpec(f: Function, argv: Option<seq<string>>, sysArgv: seq<string>, parse: Parser,
                      call: CliCall -> Result<Value, Error>): (r: (Option<CliCall>, Result<Value, Error>))
    ensures var scan := Scan(f.params, 0, parse, EffectiveArgv(argv, sysArgv));
            && (scan.Err? ==> r == (None, Err(scan.error)))
            && (scan.Ok? ==> r.0 == Some(CliCall(scan.value, LoggerKwargs(f))))
    ensures ArgsParamIndex(f.params).None? ==> r.0 == Some(CliCall(None, LoggerKwargs(f)))
    ensures ArgsParamIndex(f.params).Some? ==>
              var cls := f.params[ArgsParamIndex(f.params).value].ann.cls;
              match parse(cls, EffectiveArgv(argv, sysArgv))
              case Ok(v) => r.0 == Some(CliCall(Some(v), LoggerKwargs(f)))
              case Err(e) => e.kind != TypeError ==> r == (None, Err(e))
    ensures r.0.Some? ==> r.1 == call(r.0.value)
  {
    FirstCandidateDecides(f.params, parse, EffectiveArgv(argv, sysArgv));
    var kwargs := LoggerKwargs(f);
    match Scan(f.params, 0, parse, EffectiveArgv(argv, sysArgv))
    case Err(e) => (None, Err(e))
    case Ok(inst) => (Some(CliCall(inst, kwargs)), call(CliCall(inst, kwargs)))
  }

  /** `cli_run(func, argv)`: the parameter scan with `break` and `continue`, logger
      injection, then the call (printing the result is not modelled). */
  method CliRun(f: Function, argv: Option<seq<string>>, sysArgv: seq<string>, parse: Parser,
                call: CliCall -> Result<Value, Error>) returns (made: Option<CliCall>, result: Result<Value, Error>)
    ensures (made, result) == CliRunSpec(f, argv, sysArgv, parse, call)
  {
    var args := if argv.Some? then argv.value else if sysArgv == [] then [] else sysArgv[1..];
    var argsInstance: Option<Value> := None;
    var i := 0;
    while i < |f.params|
      invariant 0 <= i <= |f.params|
      invariant argsInstance.None?
      invariant Scan(f.params, i, parse, args) == Scan(f.params, 0, parse, args)
    {
      var p := f.params[i];
      if IsPositional(p) && p.ann != Empty {
        if p.ann.ModelT? {
          var parsed := parse(p.ann.cls, args);
          if parsed.Err? {
            if parsed.error.kind == TypeError {
              i := i + 1;
              continue;
            }
            return None, Err(parsed.error);
          }
          argsInstance := Some(parsed.value);
          break;
        }
        // issubclass(...) is False, or raised TypeError: keep looking
      }
      i := i + 1;
    }
    var kwargs: map<string, Value> := map[];
    if HasParam(f.params, "logger") && "logger" !in kwargs {
      kwargs := kwargs["logger" := Other("Logger " + f.name)];
    }
    made := Some(CliCall(argsInstance, kwargs));
    result := call(CliCall(argsInstance, kwargs));
  }

  // ---------------------------------------------------------------------------
  // parse_cli_args
  // ---------------------------------------------------------------------------

  /** A pydantic `FieldInfo` as `parse_cli_args` sees it. Its `json_schema_extra["argparse"]`
      dict is shared with the model class and is changed in place by the `pop`. */
  class FieldInfo {
    const name: string
    const typeHint: Value          // get_type_hints(model)[name]
    const isRequired: bool         // field.is_required()
    const default: Value           // field.default
    const description: Value       // field.description (NoneV when absent)
    var argparseExtra: Option<map<string, Value>>   // json_schema_extra["argparse"], when present

    constructor (name: string, typeHint: Value, isRequired: bool, default: Value, description: Value,
                 argparseExtra: Option<map<string, Value>>)
      ensures this.name == name && this.typeHint == typeHint && this.isRequired == isRequired
      ensures this.default == default && this.description == description
      ensures this.argparseExtra == argparseExtra
    {
      this.name, this.typeHint, this.isRequired := name, typeHint, isRequired;
      this.default, this.description, this.argparseExtra := default, description, argparseExtra;
    }

    /** One iteration of the `parse_cli_args` loop: the option for this field, with the
        `cli_required` entry popped from its argparse dict. */
    method BuildOption() returns (spec: OptionSpec)
      modifies this
      ensures spec == OptionSpec("--" + name, OptionFor(Derived(), old(argparseExtra)).0)
      ensures argparseExtra == OptionFor(Derived(), old(argparseExtra)).1
    {
      var kwargs := map["type" := typeHint, "required" := BoolV(isRequired),
                        "default" := default, "help" := description];
      if argparseExtra.Some? {
        var extra := argparseExtra.value;
        if "cli_required" in extra {
          kwargs := kwargs["required" := extra["cli_required"]];
          extra := extra - {"cli_required"};
        } else {
          assert extra - {"cli_required"} == extra;
        }
        argparseExtra := Some(extra);
        kwargs := kwargs + extra;
      }
      spec := OptionSpec("--" + name, kwargs);
    }

    /** The option settings derived from the field itself. */
    function Derived(): (kwargs: map<string, Value>)
      ensures kwargs.Keys == {"type", "required", "default", "help"}
    {
      map["type" := typeHint, "required" := BoolV(isRequired), "default" := default, "help" := description]
    }
  }

  /** One `parser.add_argument(flag, **kwargs)` call. */
  datatype OptionSpec = OptionSpec(flag: string, kwargs: map<string, Value>)

  /** The settings of one option and what is left of the argparse dict afterwards. */
  function OptionFor(derived: map<string, Value>, extra: Option<map<string, Value>>)
    : (r: (map<string, Value>, Option<map<string, Value>>))
    // without an argparse dict the derived settings are used as they are
    ensures extra.None? ==> r == (derived, None)
    // `cli_required` replaces `required` and is removed from the dict
    ensures extra.Some? ==> r.1 == Some(extra.value - {"cli_required"})
    ensures extra.Some? && "cli_required" in extra.value && "required" !in extra.value ==>
              "required" in r.0 && r.0["required"] == extra.value["cli_required"]
    // every other key of the dict overrides the derived setting; the rest stay derived
    ensures extra.Some? ==> forall k :: k in extra.value && k != "cli_required" ==> k in r.0 && r.0[k] == extra.value[k]
    ensures extra.Some? ==> forall k :: k in derived && k !in extra.value && (k != "required" || "cli_required" !in extra.value) ==> k in r.0 && r.0[k] == derived[k]
    ensures r.0.Keys == derived.Keys + (if extra.Some? then extra.value.Keys - {"cli_required"} else {})
              + (if extra.Some? && "cli_required" in extra.value then {"required"} else {})
  {
    match extra
    case None => (derived, None)
    case Some(e) =>
      var withRequired := if "cli_required" in e then derived["required" := e["cli_required"]] else derived;
      var rest := e - {"cli_required"};
      (withRequired + rest, Some(rest))
  }

  /** The `pop` makes `cli_required` a one-shot setting: building the same field's option a
      second time sees the field's own `is_required()` again (unless the dict also sets
      `required` directly). */
  lemma {:induction false} CliRequiredIsConsumed(derived: map<string, Value>, extra: map<string, Value>)
    requires "cli_required" in extra && "required" !in extra && "required" in derived
    requires extra["cli_required"] != derived["required"]
    ensures OptionFor(derived, Some(extra)).0["required"] == extra["cli_required"]
    ensures var second := OptionFor(derived, OptionFor(derived, Some(extra)).1);
            second.0["required"] == derived["required"] != extra["cli_required"]
  {
    var rest := extra - {"cli_required"};
    assert "required" !in rest;
    assert "cli_required" !in rest;
    var second := OptionFor(derived, Some(rest));
    assert second.0 == derived + rest;
  }

  /** `parser.parse_args(argv)` over the declared options: option values by field name,
      or the SystemExit argparse raises. */
  type ArgParser = (seq<OptionSpec>, seq<string>) -> Result<map<string, Value>, Error>

  /** `parser.add_argument(flag, **kwargs)` after the options declared so far: Pass, or
      what argparse raises (a TypeError for a setting the option's action does not take,
      such as `type` with "store_true"; an ArgumentError for a flag already declared,
      such as `--help`). */
  type AddArgument = (seq<OptionSpec>, OptionSpec) -> Outcome<Error>

  /** Every option was accepted by `add_argument` after the ones before it, declared
      one after the other. */
  predicate AllDeclared(options: seq<OptionSpec>, addArgument: AddArgument)
    decreases |options|
  {
    options == []
    || (AllDeclared(options[..|options| - 1], addArgument)
        && addArgument(options[..|options| - 1], options[|options| - 1]).Pass?)
  }

  /** Declaring one by one succeeds exactly when each option is accepted after its
      predecessors. */
  lemma {:induction false} AllDeclaredEach(options: seq<OptionSpec>, addArgument: AddArgument)
    ensures AllDeclared(options, addArgument) <==>
              forall i :: 0 <= i < |options| ==> addArgument(options[..i], options[i]).Pass?
  {
    if options != [] {
      var init := options[..|options| - 1];
      AllDeclaredEach(init, addArgument);
      assert forall i :: 0 <= i < |init| ==> init[..i] == options[..i] && init[i] == options[i];
    }
  }

  /** The field loop of `parse_cli_args` over the options the fields give, in order: each is
      added after the ones before it, and the first one argparse refuses ends the loop.
      The result is the options built, the refused one last, and the refusal. */
  function Declare(specs: seq<OptionSpec>, addArgument: AddArgument): (r: (seq<OptionSpec>, Option<Error>))
    ensures |r.0| <= |specs|
    decreases |specs|
  {
    if specs == [] then ([], None)
    else
      var (options, refused) := Declare(specs[..|specs| - 1], addArgument);
      if refused.Some? then (options, refused)
      else
        match addArgument(options, specs[|specs| - 1])
        case Fail(e) => (options + [specs[|specs| - 1]], Some(e))
        case Pass => (options + [specs[|specs| - 1]], None)
  }

  /** The field loop builds a prefix of the options, all of them when none is refused. */
  lemma {:induction false} DeclarePrefix(specs: seq<OptionSpec>, addArgument: AddArgument)
    ensures Declare(specs, addArgument).0 == specs[..|Declare(specs, addArgument).0|]
    ensures Declare(specs, addArgument).1.None? ==> Declare(specs, addArgument).0 == specs
  {
    if specs != [] {
      var init := specs[..|specs| - 1];
      DeclarePrefix(init, addArgument);
      var d := Declare(init, addArgument);
      if d.1.Some? {
        assert init[..|d.0|] == specs[..|d.0|];
      } else {
        assert d.0 + [specs[|specs| - 1]] == specs;
      }
    }
  }

  /** Without a refusal every option was accepted after its predecessors; otherwise all but
      the last option built were, and the last one's refusal is the outcome. */
  lemma {:induction false} DeclareOutcome(specs: seq<OptionSpec>, addArgument: AddArgument)
    ensures Declare(specs, addArgument).1.None? <==> AllDeclared(specs, addArgument)
    ensures var (options, refused) := Declare(specs, addArgument);
      refused.Some? ==>
        && |options| > 0 && AllDeclared(options[..|options| - 1], addArgument)
        && addArgument(options[..|options| - 1], options[|options| - 1]) == Fail(refused.value)
  {
    if specs != [] {
      var init := specs[..|specs| - 1];
      DeclareOutcome(init, addArgument);
      DeclarePrefix(init, addArgument);
      var d := Declare(init, addArgument);
      var last := specs[|specs| - 1];
      if d.1.Some? {
        assert !AllDeclared(init, addArgument);
        assert Declare(specs, addArgument) == d;
      } else {
        assert d.0 == init && AllDeclared(init, addArgument);
        var options := init + [last];
        assert options[..|options| - 1] == init && options[|options| - 1] == last;
        assert Declare(specs, addArgument).0 == options;
        assert AllDeclared(specs, addArgument) <==> addArgument(init, last).Pass?;
      }
    }
  }

  /** One more round of the field loop after every earlier option was accepted. */
  lemma DeclareStep(specs: seq<OptionSpec>, i: nat, addArgument: AddArgument)
    requires i < |specs| && Declare(specs[..i], addArgument) == (specs[..i], None)
    ensures specs[..i] + [specs[i]] == specs[..i + 1]
    ensures Declare(specs[..i + 1], addArgument) ==
      (specs[..i + 1], if addArgument(specs[..i], specs[i]).Fail? then Some(addArgument(specs[..i], specs[i]).error) else None)
  {
    assert specs[..i + 1][..i] == specs[..i];
    assert specs[..i] + [specs[i]] == specs[..i + 1];
  }

  /** Once an option is refused, the later fields change nothing in the outcome. */
  lemma {:induction false} DeclareStopsAtRefusal(specs: seq<OptionSpec>, j: nat, addArgument: AddArgument)
    requires j <= |specs| && Declare(specs[..j], addArgument).1.Some?
    ensures Declare(specs, addArgument) == Declare(specs[..j], addArgument)
    decreases |specs| - j
  {
    if j < |specs| {
      assert specs[..j + 1][..j] == specs[..j];
      DeclareStopsAtRefusal(specs, j + 1, addArgument);
    } else {
      assert specs[..j] == specs;
    }
  }

  /** `parse_cli_args(model, argv)`: one `--<field>` option per field in field order, each
      field's argparse dict losing its `cli_required` entry before its option is added; the
      first option argparse refuses ends the loop with that exception, leaving the later
      fields' dicts untouched; otherwise the model built from the parsed values. */
  method ParseCliArgs(cls: ModelClass, fields: seq<FieldInfo>, argv: seq<string>, addArgument: AddArgument,
                      parseArgs: ArgParser, construct: (ModelClass, map<string, Value>) -> Result<Value, Error>)
    returns (options: seq<OptionSpec>, r: Result<Value, Error>)
    requires forall i, j :: 0 <= i < j < |fields| ==> fields[i] != fields[j]
    modifies set f | f in fields
    ensures var (declared, refused) := Declare(SpecsFor(fields, old(Extras(fields))), addArgument);
      && options == declared
      && Extras(fields) == PoppedFor(fields, old(Extras(fields)))[..|options|] + old(Extras(fields))[|options|..]
      && (refused.Some? ==> r == Err(refused.value))
      && (refused.None? ==> r == match parseArgs(options, argv)
                                 case Err(e) => Err(e)
                                 case Ok(values) => construct(cls, values))
  {
    var refused: Option<Error>;
    options, refused := DeclareOptions(fields, addArgument);
    if refused.Some? {
      return options, Err(refused.value);
    }
    var parsed := parseArgs(options, argv);
    if parsed.Err? {
      return options, Err(parsed.error);
    }
    r := construct(cls, parsed.value);
  }

  /** The field loop of `parse_cli_args`: builds each field's option, popping its
      `cli_required`, and adds it, stopping at the first option argparse refuses. */
  method DeclareOptions(fields: seq<FieldInfo>, addArgument: AddArgument)
    returns (options: seq<OptionSpec>, refused: Option<Error>)
    requires forall i, j :: 0 <= i < j < |fields| ==> fields[i] != fields[j]
    modifies set f | f in fields
    ensures (options, refused) == Declare(SpecsFor(fields, old(Extras(fields))), addArgument)
    ensures |options| <= |fields|
    ensures Extras(fields) == PoppedFor(fields, old(Extras(fields)))[..|options|] + old(Extras(fields))[|options|..]
  {
    ghost var before := Extras(fields);
    ghost var specs := SpecsFor(fields, before);
    ghost var popped := PoppedFor(fields, before);
    options, refused := [], None;
    assert popped[..0] + before[0..] == before;
    for i := 0 to |fields|
      invariant options == specs[..i]
      invariant Extras(fields) == popped[..i] + before[i..]
      invariant Declare(specs[..i], addArgument) == (options, None)
    {
      var spec := BuildField(fields, i, before, popped, specs);
      var added := addArgument(options, spec);
      DeclareStep(specs, i, addArgument);
      options := options + [spec];
      if added.Fail? {
        DeclareStopsAtRefusal(specs, i + 1, addArgument);
        return options, Some(added.error);
      }
    }
    assert specs[..|fields|] == specs;
  }

  /** The option each field gives from the argparse dict it has in `extras`. */
  function SpecsFor(fields: seq<FieldInfo>, extras: seq<Option<map<string, Value>>>): (r: seq<OptionSpec>)
    requires |extras| == |fields|
    ensures |r| == |fields|
    ensures forall k :: 0 <= k < |fields| ==> r[k] == OptionSpec("--" + fields[k].name, OptionFor(fields[k].Derived(), extras[k]).0)
  {
    seq(|fields|, k requires 0 <= k < |fields| => OptionSpec("--" + fields[k].name, OptionFor(fields[k].Derived(), extras[k]).0))
  }

  /** What each field's argparse dict becomes once its option is built. */
  function PoppedFor(fields: seq<FieldInfo>, extras: seq<Option<map<string, Value>>>): (r: seq<Option<map<string, Value>>>)
    requires |extras| == |fields|
    ensures |r| == |fields|
    ensures forall k :: 0 <= k < |fields| ==> r[k] == OptionFor(fields[k].Derived(), extras[k]).1
  {
    seq(|fields|, k requires 0 <= k < |fields| => OptionFor(fields[k].Derived(), extras[k]).1)
  }

  /** One iteration of the field loop: the `i`th field's option, its dict popped and the
      other fields' dicts untouched. */
  method BuildField(fields: seq<FieldInfo>, i: nat, ghost before: seq<Option<map<string, Value>>>,
                    ghost popped: seq<Option<map<string, Value>>>, ghost specs: seq<OptionSpec>)
    returns (spec: OptionSpec)
    requires i < |fields| && forall k :: 0 <= k < |fields| && k != i ==> fields[k] != fields[i]
    requires |before| == |fields| && popped == PoppedFor(fields, before) && specs == SpecsFor(fields, before)
    requires Extras(fields) == popped[..i] + before[i..]
    modifies fields[i]
    ensures spec == specs[i]
    ensures Extras(fields) == popped[..i + 1] + before[i + 1..]
  {
    ghost var now := Extras(fields);
    assert now[i] == before[i];
    spec := fields[i].BuildOption();
    forall k | 0 <= k < |fields| && k != i ensures fields[k].argparseExtra == now[k] {
      assert fields[k] != fields[i];
    }
    StepExtras(now, Extras(fields), popped, before, i);
  }

  /** One step of the field loop: only the `i`th dict changed, to its popped form. */
  lemma StepExtras(now: seq<Option<map<string, Value>>>, next: seq<Option<map<string, Value>>>,
                   popped: seq<Option<map<string, Value>>>, before: seq<Option<map<string, Value>>>, i: nat)
    requires |now| == |next| == |popped| == |before| && i < |now|
    requires now == popped[..i] + before[i..]
    requires next[i] == popped[i]
    requires forall k :: 0 <= k < |now| && k != i ==> next[k] == now[k]
    ensures next == popped[..i + 1] + before[i + 1..]
  {
    forall k | 0 <= k < |next| ensures next[k] == (popped[..i + 1] + before[i + 1..])[k] {
      if k < i {
        assert now[k] == popped[k];
      } else if k > i {
        assert now[k] == before[k];
      }
    }
  }

  /** The fields' argparse dicts, in field order. */
  function Extras(fields: seq<FieldInfo>): (r: seq<Option<map<string, Value>>>)
    reads fields
    ensures |r| == |fields| && forall k :: 0 <= k < |fields| ==> r[k] == fields[k].argparseExtra
  {
    seq(|fields|, k requires 0 <= k < |fields| reads fields => fields[k].argparseExtra)
  }
}
