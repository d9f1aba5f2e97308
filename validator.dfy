/**
 * The tool validator: syntax and security checks on generated tool code,
 * extraction of a function's name, parameters, return type and docstring,
 * extraction of code from a markdown reply, and the line limit.
 */
module Validators {
  import opened Wrappers
  import opened Strings
  import opened OrderedMaps
  import opened PythonAst
  import opened FactoryConfig

  // ---------------------------------------------------------------------------
  // Syntax

  /** `validate_syntax`: the code holds a non-whitespace character and parses. */
  function ValidateSyntax(parse: Parser, code: string): (ok: bool)
    ensures ok <==> !AllSpace(code) && parse(code).Ok?
  {
    if code == [] || Strip(code) == [] then false else parse(code).Ok?
  }

  // ---------------------------------------------------------------------------
  // Security

  const DangerousBuiltins: seq<string> := ["eval", "exec", "compile", "__import__"]

  /** `name.split(".")[0]`, the top-level package of a dotted module name. */
  function FirstComponent(name: string): string {
    SplitOn(name, ".")[0]
  }

  /** An undotted module name is its own top-level package. */
  lemma FirstComponentUndotted(name: string)
    requires forall k :: 0 <= k < |name| ==> name[k] != '.'
    ensures FirstComponent(name) == name
  {
    SplitOnCharNone(name, '.');
  }

  /** A dotted module name's top-level package is the part before its first dot. */
  lemma FirstComponentDotted(package: string, rest: string)
    requires forall k :: 0 <= k < |package| ==> package[k] != '.'
    ensures FirstComponent(package + "." + rest) == package
  {
    SplitOnCharCons(package, '.', rest);
  }

  /** The first alias of an `import` statement whose top-level package is blocked. */
  function ImportViolation(blocked: seq<string>, names: seq<string>): (r: Option<string>)
    ensures r.None? <==> forall k :: 0 <= k < |names| ==> FirstComponent(names[k]) !in blocked
    ensures r.Some? ==> exists k :: (0 <= k < |names| && FirstComponent(names[k]) in blocked
      && r == Some("Blocked import: " + FirstComponent(names[k])))
  {
    if names == [] then None
    else if FirstComponent(names[0]) in blocked then Some("Blocked import: " + FirstComponent(names[0]))
    else ImportViolation(blocked, names[1..])
  }

  /** Whether a call's second positional argument is a literal mode that writes or appends. */
  predicate WritesFile(args: seq<Argument>) {
    |args| >= 2 && args[1].Constant? && (Contains(args[1].text, "w") || Contains(args[1].text, "a"))
  }

  /** The message one walked node earns, if it is a blocked import, a dangerous builtin or a file write. */
  function Violation(blocked: seq<string>, node: Node): (r: Option<string>)
    ensures r.Some? ==> node.Import? || node.ImportFrom? || (node.Call? && node.func.Named?)
    ensures node.Call? && node.func.Named? && node.func.id in DangerousBuiltins ==>
      r == Some("Dangerous builtin: " + node.func.id)
    ensures node.Call? && node.func.Named? && node.func.id !in DangerousBuiltins ==>
      (r.Some? <==> node.func.id == "open" && WritesFile(node.args))
  {
    match node
    case Import(names) => ImportViolation(blocked, names)
    case ImportFrom(m) =>
      if m.Some? && m.value != [] && FirstComponent(m.value) in blocked then
        Some("Blocked import: " + FirstComponent(m.value))
      else None
    case Call(Named(id), args) =>
      if id in DangerousBuiltins then Some("Dangerous builtin: " + id)
      else if id == "open" && WritesFile(args) then Some("File write operations not allowed")
      else None
    case _ => None
  }

  /** The message of the first offending node in walk order. */
  function FirstViolation(blocked: seq<string>, nodes: seq<Node>): (r: Option<string>)
    ensures r.None? <==> forall i :: 0 <= i < |nodes| ==> Violation(blocked, nodes[i]).None?
    ensures r.Some? ==> exists i :: (0 <= i < |nodes| && r == Violation(blocked, nodes[i])
      && forall j :: 0 <= j < i ==> Violation(blocked, nodes[j]).None?)
  {
    if nodes == [] then None
    else if Violation(blocked, nodes[0]).Some? then Violation(blocked, nodes[0])
    else
      var r := FirstViolation(blocked, nodes[1..]);
      assert forall i :: 1 <= i < |nodes| ==> nodes[i] == nodes[1..][i - 1];
      r
  }

  /**
   * `validate_security`: a syntax error raises, otherwise the first offending
   * node's message, or `None` when the code is clean.
   */
  function Security(config: ToolFactoryConfig, parse: Parser, code: string): (r: Result<Option<string>>)
    ensures parse(code).Err? <==> r.Err?
    ensures parse(code).Err? ==> r.error == "Syntax error: " + parse(code).error
  {
    match parse(code)
    case Err(e) => Err("Syntax error: " + e)
    case Ok(tree) => Ok(FirstViolation(config.blockedImports, tree.walk))
  }

  /** The checks of one walked node, with the loop over an `import` statement's aliases. */
  method CheckNode(blocked: seq<string>, node: Node) returns (v: Option<string>)
    ensures v == Violation(blocked, node)
  {
    if node.Import? {
      var names := node.names;
      var k := 0;
      while k < |names|
        invariant 0 <= k <= |names|
        invariant ImportViolation(blocked, names[k..]) == ImportViolation(blocked, names)
      {
        assert names[k..][1..] == names[k + 1..];
        var m := FirstComponent(names[k]);
        if m in blocked {
          return Some("Blocked import: " + m);
        }
        k := k + 1;
      }
      assert names[k..] == [];
      return None;
    }
    v := Violation(blocked, node);
  }

  /** `validate_security`, walking the tree and stopping at the first violation. */
  method ValidateSecurity(config: ToolFactoryConfig, parse: Parser, code: string) returns (r: Result<Option<string>>)
    ensures r == Security(config, parse, code)
  {
    var parsed := parse(code);
    if parsed.Err? {
      return Err("Syntax error: " + parsed.error);
    }
    var walk := parsed.value.walk;
    var i := 0;
    while i < |walk|
      invariant 0 <= i <= |walk|
      invariant FirstViolation(config.blockedImports, walk[i..]) == FirstViolation(config.blockedImports, walk)
    {
      assert walk[i..][1..] == walk[i + 1..];
      var v := CheckNode(config.blockedImports, walk[i]);
      if v.Some? {
        return Ok(v);
      }
      i := i + 1;
    }
    assert walk[i..] == [];
    return Ok(None);
  }

  /** Importing a submodule of a blocked package is reported under the package's name. */
  lemma BlockedSubmodule(blocked: seq<string>, package: string, rest: string)
    requires package in blocked && forall k :: 0 <= k < |package| ==> package[k] != '.'
    ensures Violation(blocked, Import([package + "." + rest])) == Some("Blocked import: " + package)
    ensures Violation(blocked, ImportFrom(Some(package + "." + rest))) == Some("Blocked import: " + package)
  {
    FirstComponentDotted(package, rest);
    var names := [package + "." + rest];
    assert FirstComponent(names[0]) in blocked;
  }

  /** Opening a file for reading passes; opening it for writing does not. */
  lemma OpenModes()
    ensures Violation(BlockedImports, Call(Named("open"), [Constant("data.txt"), Constant("r")])).None?
    ensures Violation(BlockedImports, Call(Named("open"), [Constant("out.txt"), Constant("w")]))
      == Some("File write operations not allowed")
  {
    FindChar("r", 'w');
    FindChar("r", 'a');
    FindChar("w", 'w');
  }

  // ---------------------------------------------------------------------------
  // Function metadata

  /** A function's name, parameters (name to `type`, `required`, `default`), return type and docstring. */
  datatype FunctionMetadata = FunctionMetadata(
    name: string,
    parameters: Dict<string, Dict<string, string>>,
    returnType: string,
    docstring: Option<string>)

  const NoFunctionText := "No function definition found in code"
  const IndexErrorText := "IndexError: list index out of range"

  /** The position of the first function definition in walk order. */
  function FirstFunction(nodes: seq<Node>): (r: Option<nat>)
    ensures r.Some? ==> (r.value < |nodes| && nodes[r.value].FunctionDef?
      && forall j :: 0 <= j < r.value ==> !nodes[j].FunctionDef?)
    ensures r.None? ==> forall j :: 0 <= j < |nodes| ==> !nodes[j].FunctionDef?
  {
    if nodes == [] then None
    else if nodes[0].FunctionDef? then Some(0)
    else match FirstFunction(nodes[1..])
      case None => None
      case Some(k) => Some(k + 1)
  }

  /** A parameter's entry before defaults are considered. */
  function BaseEntry(p: Parameter): Dict<string, string> {
    [("type", p.annotation.GetOr("Any")), ("required", "True")]
  }

  /** The parameters loop: each parameter assigned its base entry, in order. */
  function BaseParams(acc: Dict<string, Dict<string, string>>, ps: seq<Parameter>): Dict<string, Dict<string, string>>
    decreases |ps|
  {
    if ps == [] then acc else BaseParams(Put(acc, ps[0].name, BaseEntry(ps[0])), ps[1..])
  }

  /** A parameter with a default: no longer required, and the default's text where it unparses. */
  function WithDefault(entry: Dict<string, string>, default: Option<string>): Dict<string, string> {
    var e := Put(entry, "required", "False");
    if default.Some? then Put(e, "default", default.value) else e
  }

  /**
   * The defaults loop from the `i`-th default on: default `i` belongs to
   * position `|names| - |defaults| + i`, read with Python's negative indexing.
   * The loop's guard `param_idx < len(param_names)` holds in every round.
   */
  function ApplyDefaults(params: Dict<string, Dict<string, string>>, names: seq<string>,
                         defaults: seq<Option<string>>, i: nat): Result<Dict<string, Dict<string, string>>>
    requires i <= |defaults|
    decreases |defaults| - i
  {
    if i == |defaults| then Ok(params)
    else
      var idx := |names| - |defaults| + i;
      assert idx < |names|;
      match PyAt(names, idx)
      case None => Err(IndexErrorText)
      case Some(key) =>
        ApplyDefaults(Put(params, key, WithDefault(Get(params, key).GetOr([]), defaults[i])), names, defaults, i + 1)
  }

  /** `parse_function_metadata` for the first function definition in walk order. */
  function Metadata(parse: Parser, code: string): (r: Result<FunctionMetadata>)
    ensures parse(code).Err? ==> r == Err("Syntax error: " + parse(code).error)
    ensures parse(code).Ok? && FirstFunction(parse(code).value.walk).None? ==> r == Err(NoFunctionText)
    ensures r.Ok? ==> exists k :: (0 <= k < |parse(code).value.walk| && parse(code).value.walk[k].FunctionDef?
      && r.value.name == parse(code).value.walk[k].name)
  {
    match parse(code)
    case Err(e) => Err("Syntax error: " + e)
    case Ok(tree) =>
      match FirstFunction(tree.walk)
      case None => Err(NoFunctionText)
      case Some(k) =>
        var f := tree.walk[k];
        var base := BaseParams([], f.params);
        match ApplyDefaults(base, Keys(base), f.defaults, 0)
        case Err(e) => Err(e)
        case Ok(params) => Ok(FunctionMetadata(f.name, params, f.returnAnnotation.GetOr("Any"), f.docstring))
  }

  /** `parse_function_metadata`, with its search loop, its parameters loop and its defaults loop. */
  method ParseFunctionMetadata(parse: Parser, code: string) returns (r: Result<FunctionMetadata>)
    ensures r == Metadata(parse, code)
  {
    var parsed := parse(code);
    if parsed.Err? {
      return Err("Syntax error: " + parsed.error);
    }
    var walk := parsed.value.walk;
    var k := FindFunction(walk);
    if k.None? {
      return Err(NoFunctionText);
    }
    var f := walk[k.value];
    var params := CollectParameters(f.params);
    var withDefaults := AddDefaults(params, f.defaults);
    if withDefaults.Err? {
      return Err(withDefaults.error);
    }
    return Ok(FunctionMetadata(f.name, withDefaults.value, f.returnAnnotation.GetOr("Any"), f.docstring));
  }

  /** The walk's search for the first function definition. */
  method FindFunction(walk: seq<Node>) returns (k: Option<nat>)
    ensures k == FirstFunction(walk)
  {
    var i := 0;
    while i < |walk| && !walk[i].FunctionDef?
      invariant 0 <= i <= |walk|
      invariant forall j :: 0 <= j < i ==> !walk[j].FunctionDef?
    {
      i := i + 1;
    }
    if i == |walk| {
      return None;
    }
    assert FirstFunction(walk) == Some(i);
    return Some(i);
  }

  /** The loop that records every parameter's type and `required: True`. */
  method CollectParameters(ps: seq<Parameter>) returns (params: Dict<string, Dict<string, string>>)
    ensures params == BaseParams([], ps)
  {
    params := [];
    var i := 0;
    assert ps[0..] == ps;
    while i < |ps|
      invariant 0 <= i <= |ps|
      invariant BaseParams(params, ps[i..]) == BaseParams([], ps)
    {
      assert ps[i..][1..] == ps[i + 1..];
      params := Put(params, ps[i].name, BaseEntry(ps[i]));
      i := i + 1;
    }
    assert ps[i..] == [];
  }

  /** The loop that marks the last `len(defaults)` parameters optional, by Python's negative indexing. */
  method AddDefaults(base: Dict<string, Dict<string, string>>, defaults: seq<Option<string>>)
    returns (r: Result<Dict<string, Dict<string, string>>>)
    ensures r == ApplyDefaults(base, Keys(base), defaults, 0)
  {
    var names := Keys(base);
    var params := base;
    var numDefaults := |defaults|;
    var j := 0;
    while j < numDefaults
      invariant 0 <= j <= numDefaults
      invariant ApplyDefaults(params, names, defaults, j) == ApplyDefaults(base, names, defaults, 0)
    {
      var idx := |names| - numDefaults + j;
      var key := PyAt(names, idx);
      if key.None? {
        return Err(IndexErrorText);
      }
      var entry := Get(params, key.value).GetOr([]);
      params := Put(params, key.value, WithDefault(entry, defaults[j]));
      j := j + 1;
    }
    return Ok(params);
  }


  predicate DistinctNames(ps: seq<Parameter>) {
    forall i, j :: 0 <= i < j < |ps| ==> ps[i].name != ps[j].name
  }

  /**
   * The entry a parameter at position `j` of `n` gets when the last `k` have
   * defaults: required and without a default before position `n - k`, not
   * required and with its own default (where it unparses) from there on.
   */
  function ExpectedEntry(p: Parameter, j: nat, n: nat, defaults: seq<Option<string>>): Dict<string, string>
    requires j < n && |defaults| <= n
  {
    var t := p.annotation.GetOr("Any");
    if j < n - |defaults| then [("type", t), ("required", "True")]
    else
      var d := defaults[j - (n - |defaults|)];
      [("type", t), ("required", "False")] + (if d.Some? then [("default", d.value)] else [])
  }

  function ExpectedParams(ps: seq<Parameter>, defaults: seq<Option<string>>): Dict<string, Dict<string, string>>
    requires |defaults| <= |ps|
  {
    seq(|ps|, j requires 0 <= j < |ps| => (ps[j].name, ExpectedEntry(ps[j], j, |ps|, defaults)))
  }

  /** Giving a base entry a default produces the entry the metadata promises. */
  lemma WithDefaultShape(p: Parameter, d: Option<string>)
    ensures WithDefault(BaseEntry(p), d)
      == [("type", p.annotation.GetOr("Any")), ("required", "False")] + (if d.Some? then [("default", d.value)] else [])
  {
    var b := BaseEntry(p);
    assert IndexOfKey(b[1..], "required") == Some(0);
    assert IndexOfKey(b, "required") == Some(1);
    var e := Put(b, "required", "False");
    assert e == [("type", p.annotation.GetOr("Any")), ("required", "False")];
    assert IndexOfKey(e[1..][1..], "default").None?;
    assert IndexOfKey(e, "default").None?;
  }

  function BaseSeq(ps: seq<Parameter>): Dict<string, Dict<string, string>> {
    seq(|ps|, j requires 0 <= j < |ps| => (ps[j].name, BaseEntry(ps[j])))
  }

  /** With distinct names, the parameters loop appends one base entry per parameter. */
  lemma {:induction false} BaseParamsAppend(acc: Dict<string, Dict<string, string>>, ps: seq<Parameter>)
    requires DistinctNames(ps)
    requires forall i, j :: 0 <= i < |acc| && 0 <= j < |ps| ==> acc[i].0 != ps[j].name
    ensures BaseParams(acc, ps) == acc + BaseSeq(ps)
    decreases |ps|
  {
    if ps == [] {
      assert BaseSeq(ps) == [];
    } else {
      var x := (ps[0].name, BaseEntry(ps[0]));
      assert !HasKey(acc, ps[0].name);
      var acc' := acc + [x];
      assert Put(acc, ps[0].name, BaseEntry(ps[0])) == acc';
      var tail := ps[1..];
      assert forall i, j :: 0 <= i < j < |tail| ==> tail[i] == ps[i + 1] && tail[j] == ps[j + 1];
      assert forall j :: 0 <= j < |tail| ==> tail[j] == ps[j + 1];
      BaseParamsAppend(acc', tail);
      var lhs := acc' + BaseSeq(tail);
      var rhs := acc + BaseSeq(ps);
      forall m | 0 <= m < |rhs| ensures lhs[m] == rhs[m] {
        if m > |acc| {
          assert lhs[m] == BaseSeq(tail)[m - |acc| - 1];
        }
      }
      assert lhs == rhs;
    }
  }

  /** The defaults loop's state after its first `i` rounds. */
  function DefaultsState(ps: seq<Parameter>, defaults: seq<Option<string>>, i: nat): Dict<string, Dict<string, string>>
    requires |defaults| <= |ps| && i <= |defaults|
  {
    var n, k := |ps|, |defaults|;
    seq(n, j requires 0 <= j < n =>
      (ps[j].name, if n - k <= j < n - k + i then WithDefault(BaseEntry(ps[j]), defaults[j - (n - k)]) else BaseEntry(ps[j])))
  }

  function ParamNames(ps: seq<Parameter>): (names: seq<string>)
    ensures |names| == |ps| && forall j :: 0 <= j < |ps| ==> names[j] == ps[j].name
  {
    seq(|ps|, j requires 0 <= j < |ps| => ps[j].name)
  }

  /** One round of the defaults loop turns the next position's base entry into its defaulted entry. */
  lemma DefaultsStep(ps: seq<Parameter>, defaults: seq<Option<string>>, i: nat)
    requires DistinctNames(ps) && |defaults| <= |ps| && i < |defaults|
    ensures ApplyDefaults(DefaultsState(ps, defaults, i), ParamNames(ps), defaults, i)
      == ApplyDefaults(DefaultsState(ps, defaults, i + 1), ParamNames(ps), defaults, i + 1)
  {
    var n, k := |ps|, |defaults|;
    var idx := n - k + i;
    var s := DefaultsState(ps, defaults, i);
    var names := ParamNames(ps);
    assert PyAt(names, idx) == Some(ps[idx].name);
    assert DistinctKeys(s);
    assert s[idx] == (ps[idx].name, BaseEntry(ps[idx]));
    GetAt(s, idx);
    var e := WithDefault(BaseEntry(ps[idx]), defaults[i]);
    PutAt(s, idx, e);
    DefaultsUpdate(ps, defaults, i);
  }

  /** The state after round `i` is the state before it with position `|ps| - |defaults| + i` defaulted. */
  lemma DefaultsUpdate(ps: seq<Parameter>, defaults: seq<Option<string>>, i: nat)
    requires |defaults| <= |ps| && i < |defaults|
    ensures var idx := |ps| - |defaults| + i;
      DefaultsState(ps, defaults, i)[idx := (ps[idx].name, WithDefault(BaseEntry(ps[idx]), defaults[i]))]
        == DefaultsState(ps, defaults, i + 1)
  {
    var n, k := |ps|, |defaults|;
    var idx := n - k + i;
    var s := DefaultsState(ps, defaults, i);
    var s' := s[idx := (ps[idx].name, WithDefault(BaseEntry(ps[idx]), defaults[i]))];
    var t := DefaultsState(ps, defaults, i + 1);
    forall j | 0 <= j < n ensures s'[j] == t[j] {
      if j == idx {
        assert t[j] == (ps[j].name, WithDefault(BaseEntry(ps[j]), defaults[i]));
      } else {
        assert s'[j] == s[j];
      }
    }
    assert s' == t;
  }


  /** The defaults loop, run from round `i` to the end, never fails when parameters outnumber defaults. */
  lemma {:induction false} DefaultsFrom(ps: seq<Parameter>, defaults: seq<Option<string>>, i: nat)
    requires DistinctNames(ps) && |defaults| <= |ps| && i <= |defaults|
    ensures ApplyDefaults(DefaultsState(ps, defaults, i), ParamNames(ps), defaults, i)
      == Ok(DefaultsState(ps, defaults, |defaults|))
    decreases |defaults| - i
  {
    var names := ParamNames(ps);
    if i < |defaults| {
      DefaultsStep(ps, defaults, i);
      DefaultsFrom(ps, defaults, i + 1);
      calc {
        ApplyDefaults(DefaultsState(ps, defaults, i), names, defaults, i);
        ApplyDefaults(DefaultsState(ps, defaults, i + 1), names, defaults, i + 1);
        Ok(DefaultsState(ps, defaults, |defaults|));
      }
    } else {
      assert i == |defaults|;
    }
  }

  /** After every round, each defaulted position holds the entry the metadata promises. */
  lemma DefaultsFinal(ps: seq<Parameter>, defaults: seq<Option<string>>)
    requires |defaults| <= |ps|
    ensures DefaultsState(ps, defaults, |defaults|) == ExpectedParams(ps, defaults)
  {
    var a, b := DefaultsState(ps, defaults, |defaults|), ExpectedParams(ps, defaults);
    forall j | 0 <= j < |ps| ensures a[j] == b[j] {
      if j >= |ps| - |defaults| {
        WithDefaultShape(ps[j], defaults[j - (|ps| - |defaults|)]);
      }
    }
  }

  /**
   * For a first function whose parameters have distinct names and at least as
   * many parameters as defaults, the metadata lists every parameter in order:
   * the last `|defaults|` ones optional with their defaults, the rest required.
   */
  lemma MetadataParameters(parse: Parser, code: string, k: nat)
    requires parse(code).Ok? && FirstFunction(parse(code).value.walk) == Some(k)
    requires DistinctNames(parse(code).value.walk[k].params)
    requires |parse(code).value.walk[k].defaults| <= |parse(code).value.walk[k].params|
    ensures var f := parse(code).value.walk[k];
      Metadata(parse, code) == Ok(FunctionMetadata(f.name, ExpectedParams(f.params, f.defaults),
                                                   f.returnAnnotation.GetOr("Any"), f.docstring))
  {
    var f := parse(code).value.walk[k];
    BaseParamsAppend([], f.params);
    var base := BaseParams([], f.params);
    assert base == BaseSeq(f.params);
    assert base == DefaultsState(f.params, f.defaults, 0);
    assert Keys(base) == ParamNames(f.params);
    DefaultsFrom(f.params, f.defaults, 0);
    DefaultsFinal(f.params, f.defaults);
  }

  /**
   * A function with defaults but no plain positional parameters (only
   * positional-only ones, say) makes the defaults loop index an empty list:
   * an `IndexError`, not a metadata result.
   */
  lemma DefaultsWithoutParameters(parse: Parser, code: string, k: nat)
    requires parse(code).Ok? && FirstFunction(parse(code).value.walk) == Some(k)
    requires parse(code).value.walk[k].params == [] && parse(code).value.walk[k].defaults != []
    ensures Metadata(parse, code) == Err(IndexErrorText)
  {
    var f := parse(code).value.walk[k];
    assert BaseParams([], f.params) == [];
    assert Keys<string, Dict<string, string>>([]) == [];
  }

  // ---------------------------------------------------------------------------
  // Markdown code blocks

  const Fence := "```"
  const PythonOpener := "```python\n"
  const GenericOpener := "```\n"

  /**
   * `re.search(opener + "(.*?)```", text, re.DOTALL)`: the text between the
   * first occurrence of the opener and the first fence after it.
   */
  function FencedBlock(text: string, opener: string): (r: Option<string>)
    requires |opener| > 0
  {
    match IndexOf(text, opener, 0)
    case None => None
    case Some(i) =>
      match IndexOf(text, Fence, i + |opener|)
      case None => None
      case Some(j) => Some(text[i + |opener|..j])
  }

  /** `extract_code_from_markdown`: a ```` ```python ```` block, else a plain block, else the whole text; stripped. */
  function ExtractCode(text: string): (r: string)
    ensures FencedBlock(text, PythonOpener).Some? ==> r == Strip(FencedBlock(text, PythonOpener).value)
  {
    match FencedBlock(text, PythonOpener)
    case Some(block) => Strip(block)
    case None =>
      match FencedBlock(text, GenericOpener)
      case Some(block) => Strip(block)
      case None => Strip(text)
  }

  /** A block is only found where the text holds a fence. */
  lemma FencedNeedsFence(text: string, opener: string)
    requires |opener| >= 3 && opener[..3] == Fence
    ensures FencedBlock(text, opener).Some? ==> Contains(text, Fence)
  {
    match IndexOf(text, opener, 0)
    case None =>
    case Some(i) =>
      assert text[i..i + 3] == text[i..i + |opener|][..3];
      assert OccursAt(text, Fence, i);
      ContainsIff(text, Fence);
  }

  /** Text without any fence is returned stripped. */
  lemma ExtractPlain(text: string)
    requires !Contains(text, Fence)
    ensures ExtractCode(text) == Strip(text)
  {
    FencedNeedsFence(text, PythonOpener);
    FencedNeedsFence(text, GenericOpener);
  }

  predicate NoBacktick(s: string) { forall k :: 0 <= k < |s| ==> s[k] != '`' }

  /** An opener that follows backtick-free text is first found right after it. */
  lemma OpenerAt(pre: string, opener: string, body: string, post: string)
    requires |opener| > 0 && opener[0] == '`' && NoBacktick(pre)
    ensures IndexOf(pre + opener + body + Fence + post, opener, 0) == Some(|pre|)
  {
    var text := pre + opener + body + Fence + post;
    Pieces(pre, opener, body, Fence, post);
    forall j | 0 <= j < |pre| ensures !OccursAt(text, opener, j) {
      assert text[j..j + |opener|][0] == text[..|pre|][j];
    }
    IndexOfExact(text, opener, 0, |pre|);
  }

  /** The first fence past backtick-free text is the one that ends it. */
  lemma CloserAt(pre: string, opener: string, body: string, post: string)
    requires NoBacktick(body)
    ensures IndexOf(pre + opener + body + Fence + post, Fence, |pre| + |opener|) == Some(|pre| + |opener| + |body|)
  {
    var text := pre + opener + body + Fence + post;
    Pieces(pre, opener, body, Fence, post);
    var start := |pre| + |opener|;
    forall j | start <= j < start + |body| ensures !OccursAt(text, Fence, j) {
      assert text[j..j + 3][0] == text[start..start + |body|][j - start] != Fence[0];
    }
    IndexOfExact(text, Fence, start, start + |body|);
  }

  /** A block preceded and filled by backtick-free text is found exactly. */
  lemma FencedAt(pre: string, opener: string, body: string, post: string)
    requires |opener| >= 3 && opener[..3] == Fence
    requires NoBacktick(pre) && NoBacktick(body)
    ensures FencedBlock(pre + opener + body + Fence + post, opener) == Some(body)
  {
    assert opener[0] == opener[..3][0];
    OpenerAt(pre, opener, body, post);
    CloserAt(pre, opener, body, post);
    Pieces(pre, opener, body, Fence, post);
  }

  /** A ```` ```python ```` block yields its stripped body. */
  lemma ExtractPython(pre: string, body: string, post: string)
    requires NoBacktick(pre) && NoBacktick(body)
    ensures ExtractCode(pre + PythonOpener + body + Fence + post) == Strip(body)
  {
    FencedAt(pre, PythonOpener, body, post);
  }

  /** A plain block yields its stripped body when no ```` ```python ```` block precedes it. */
  lemma ExtractGeneric(pre: string, body: string, post: string)
    requires NoBacktick(pre) && NoBacktick(body)
    requires !Contains(pre + GenericOpener + body + Fence + post, PythonOpener)
    ensures ExtractCode(pre + GenericOpener + body + Fence + post) == Strip(body)
  {
    FencedAt(pre, GenericOpener, body, post);
  }

  // ---------------------------------------------------------------------------
  // Line limit

  /** `check_line_count`: the pieces between newlines number at most the limit. */
  function CheckLineCount(config: ToolFactoryConfig, code: string): (ok: bool)
    ensures ok <==> Count(code, '\n') + 1 <= config.maxToolSizeLines
  {
    SplitOnCharCount(code, '\n');
    |SplitOn(code, "\n")| <= config.maxToolSizeLines
  }

  predicate NoNewline(s: string) { forall k :: 0 <= k < |s| ==> s[k] != '\n' }

  /** Lines joined with newlines split back into the same lines. */
  lemma {:induction false} LinesRoundTrip(lines: seq<string>)
    requires |lines| >= 1 && forall i :: 0 <= i < |lines| ==> NoNewline(lines[i])
    ensures SplitOn(Join(lines, "\n"), "\n") == lines
    decreases |lines|
  {
    if |lines| == 1 {
      SplitOnCharNone(lines[0], '\n');
    } else {
      var tail := lines[1..];
      assert forall i :: 0 <= i < |tail| ==> tail[i] == lines[i + 1];
      LinesRoundTrip(tail);
      JoinCons(lines[0], tail, "\n");
      assert [lines[0]] + tail == lines;
      SplitOnCharCons(lines[0], '\n', Join(tail, "\n"));
    }
  }

  /** Code made of `n` newline-free lines passes exactly when `n` is within the limit. */
  lemma LineLimit(config: ToolFactoryConfig, lines: seq<string>)
    requires |lines| >= 1 && forall i :: 0 <= i < |lines| ==> NoNewline(lines[i])
    ensures CheckLineCount(config, Join(lines, "\n")) <==> |lines| <= config.maxToolSizeLines
  {
    LinesRoundTrip(lines);
  }
}
