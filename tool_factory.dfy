/**
 * The tool factory: a language model writes a function from a description,
 * the validator screens it, the sandbox tests it against the examples, the
 * model is asked to improve it while it falls short, and the tools that pass
 * are kept in a registry that can be listed, exported and imported.
 */
module ToolFactories {
  import opened Wrappers
  import opened OrderedMaps
  import opened Strings
  import opened Json
  import opened Averages
  import opened PythonAst
  import opened FactoryConfig
  import opened Validators
  import opened Sandboxes
  import opened ToolSpecs

  // ---------------------------------------------------------------------------
  // The language model

  /**
   * What the model is asked: to write a tool, to improve one after failed
   * tests (on the given attempt, counted from 0), or to fix a syntax error.
   */
  datatype Prompt =
    | GenerationPrompt(description: string, functionName: string, examplesText: string)
    | ImprovementPrompt(code: string, functionName: string, failuresText: string, description: string, attempt: nat)
    | SyntaxFixPrompt(code: string, error: string)

  /**
   * What the factory depends on outside its own logic: the sandbox's
   * environment, the model's reply to a prompt (or the exception the call
   * raises), and how a rate prints as a percentage (`f"{rate:.2%}"`).
   */
  datatype FactoryEnv = FactoryEnv(sandbox: SandboxEnv, reply: Prompt -> Result<string>, percent: real -> string)

  // ---------------------------------------------------------------------------
  // Prompt material

  /** `f"  Example {i}: {inp!r} -> {exp!r}"` for the `i`-th example, counted from 1. */
  function ExampleLine(printer: Printer, i: nat, example: Object): string {
    "  Example " + NatToString(i) + ": " + printer.repr(GetOr(example, "input", JObj([])))
      + " -> " + printer.repr(GetOr(example, "expected", JNull))
  }

  function ExampleLines(printer: Printer, examples: seq<Object>): (lines: seq<string>)
    ensures |lines| == |examples|
    ensures forall i :: 0 <= i < |examples| ==> lines[i] == ExampleLine(printer, i + 1, examples[i])
  {
    seq(|examples|, i requires 0 <= i < |examples| => ExampleLine(printer, i + 1, examples[i]))
  }

  /** `_format_examples`: one numbered line per example, joined by newlines. */
  method FormatExamples(printer: Printer, examples: seq<Object>) returns (text: string)
    ensures text == Join(ExampleLines(printer, examples), "\n")
  {
    var lines: seq<string> := [];
    var i := 0;
    while i < |examples|
      invariant 0 <= i <= |examples|
      invariant lines == ExampleLines(printer, examples[..i])
    {
      lines := lines + [ExampleLine(printer, i + 1, examples[i])];
      i := i + 1;
    }
    assert examples[..i] == examples;
    text := Join(lines, "\n");
  }

  /** The examples' text has one line per example, the `i`-th numbered `i`. */
  lemma ExamplesTextLines(printer: Printer, examples: seq<Object>)
    requires forall i :: 0 <= i < |examples| ==> NoNewline(ExampleLine(printer, i + 1, examples[i]))
    ensures examples != [] ==> SplitOn(Join(ExampleLines(printer, examples), "\n"), "\n") == ExampleLines(printer, examples)
  {
    if examples != [] {
      LinesRoundTrip(ExampleLines(printer, examples));
    }
  }

  /** One failure for the improvement prompt, read with `.get` and the source's defaults. */
  function FailureLine(printer: Printer, f: Object): string {
    "Test " + Str(printer, GetOr(f, "test_case", JStr("?"))) + ": Input=" + Str(printer, GetOr(f, "input", JNull))
      + ", Expected=" + Str(printer, GetOr(f, "expected", JNull)) + ", Got=" + Str(printer, GetOr(f, "result", JStr("N/A")))
      + ", Error=" + Str(printer, GetOr(f, "error", JStr("None")))
  }

  /** The first five failures, one line each. */
  function FailuresText(printer: Printer, failures: seq<Object>): string {
    var shown := PyPrefix(failures, 5);
    Join(seq(|shown|, i requires 0 <= i < |shown| => FailureLine(printer, shown[i])), "\n")
  }

  // ---------------------------------------------------------------------------
  // Writing the code

  /** `_fix_syntax_errors`: code that parses is kept; otherwise the model's fix if it is valid, else the input. */
  function FixSyntax(env: FactoryEnv, code: string): (r: string)
    ensures env.sandbox.parse(code).Ok? ==> r == code
    ensures r == code || ValidateSyntax(env.sandbox.parse, r)
  {
    match env.sandbox.parse(code)
    case Ok(_) => code
    case Err(e) =>
      match env.reply(SyntaxFixPrompt(code, e))
      case Err(_) => code
      case Ok(text) =>
        var fixed := ExtractCode(text);
        if ValidateSyntax(env.sandbox.parse, fixed) then fixed else code
  }

  /** Python truthiness of the validator's verdict: a non-empty message. */
  predicate Flagged(verdict: Option<string>) {
    verdict.Some? && verdict.value != []
  }

  /**
   * `_generate_code`: the model's reply, unfenced, repaired when it does not
   * parse, then refused on a security violation or over the line limit. A
   * failed model call or code that still does not parse raises.
   */
  function GeneratedCode(config: ToolFactoryConfig, env: FactoryEnv, request: ToolGenerateRequest): (r: Result<string>)
    ensures r.Ok? ==> env.sandbox.parse(r.value).Ok? && !Flagged(Security(config, env.sandbox.parse, r.value).value)
                      && CheckLineCount(config, r.value)
  {
    match env.reply(GenerationPrompt(request.description, request.name, Join(ExampleLines(env.sandbox.printer, request.examples), "\n")))
    case Err(e) => Err(e)
    case Ok(text) =>
      var extracted := ExtractCode(text);
      var code := if ValidateSyntax(env.sandbox.parse, extracted) then extracted else FixSyntax(env, extracted);
      Refusals(config, env.sandbox.parse, code)
  }

  /** The refusals at the end of `_generate_code`: a syntax error, a security violation, the line limit. */
  function Refusals(config: ToolFactoryConfig, parse: Parser, code: string): (r: Result<string>)
    ensures r.Ok? <==> parse(code).Ok? && !Flagged(Security(config, parse, code).value) && CheckLineCount(config, code)
    ensures r.Ok? ==> r.value == code
  {
    match Security(config, parse, code)
    case Err(e) => Err(e)
    case Ok(verdict) =>
      if Flagged(verdict) then Err("Security error: " + verdict.value)
      else if !CheckLineCount(config, code) then Err("Exceeds " + IntToString(config.maxToolSizeLines) + " lines")
      else Ok(code)
  }

  /** A violation is reported as a security error, and only code within the limit gets past the count. */
  lemma GeneratedCodeRefusals(config: ToolFactoryConfig, env: FactoryEnv, request: ToolGenerateRequest, text: string)
    requires env.reply(GenerationPrompt(request.description, request.name,
      Join(ExampleLines(env.sandbox.printer, request.examples), "\n"))) == Ok(text)
    requires ValidateSyntax(env.sandbox.parse, ExtractCode(text))
    ensures var code := ExtractCode(text);
      var v := Security(config, env.sandbox.parse, code).value;
      && (Flagged(v) ==> GeneratedCode(config, env, request) == Err("Security error: " + v.value))
      && (!Flagged(v) && !CheckLineCount(config, code) ==>
            GeneratedCode(config, env, request) == Err("Exceeds " + IntToString(config.maxToolSizeLines) + " lines"))
      && (!Flagged(v) && CheckLineCount(config, code) ==> GeneratedCode(config, env, request) == Ok(code))
  {
  }

  /** `code.replace(f"def {name}", f"def {request.name}")`. */
  function Renamed(code: string, from: string, to: string): string {
    ReplaceAll(code, "def " + from, "def " + to)
  }

  /** The validator's parameter entries as JSON objects of strings. */
  function ParamsObject(params: Dict<string, Dict<string, string>>): (r: Dict<string, Object>)
    ensures |r| == |params|
    ensures forall i :: 0 <= i < |params| ==> r[i].0 == params[i].0 && |r[i].1| == |params[i].1|
  {
    seq(|params|, i requires 0 <= i < |params| =>
      (params[i].0, seq(|params[i].1|, j requires 0 <= j < |params[i].1| => (params[i].1[j].0, JStr(params[i].1[j].1)))))
  }

  /** The name the tool gets: the requested one when given and different, else the one in the code. */
  function ToolName(request: ToolGenerateRequest, codeName: string): string {
    if request.name != [] && request.name != codeName then request.name else codeName
  }

  /** The code under that name. */
  function ToolCode(request: ToolGenerateRequest, codeName: string, code: string): string {
    if request.name != [] && request.name != codeName then Renamed(code, codeName, request.name) else code
  }

  /** The first part of `generate_tool`: the code, its metadata, the requested name, the spec. */
  function Draft(config: ToolFactoryConfig, env: FactoryEnv, request: ToolGenerateRequest, now: string): Result<ToolSpec> {
    match GeneratedCode(config, env, request)
    case Err(e) => Err(e)
    case Ok(code) =>
      match Metadata(env.sandbox.parse, code)
      case Err(e) => Err(e)
      case Ok(meta) =>
        var description := if meta.docstring.Some? && meta.docstring.value != [] then meta.docstring.value else request.description;
        Ok(NewToolSpec(ToolName(request, meta.name), description, ParamsObject(meta.parameters), meta.returnType,
                       ToolCode(request, meta.name, code), request.examples, now))
  }

  /**
   * The drafted tool carries the requested name, falling back to the name in
   * the code only when none is requested; when the two differ, the code's
   * leading `def <old name>` is renamed. It starts at version 1 with no uses.
   */
  lemma DraftFacts(config: ToolFactoryConfig, env: FactoryEnv, request: ToolGenerateRequest, now: string)
    ensures var d := Draft(config, env, request, now);
      d.Ok? ==> && d.value.version == 1 && d.value.usageCount == 0 && d.value.successRate == 0.0
                && d.value.examples == request.examples && d.value.createdAt == now
                && (request.name != [] ==> d.value.name == request.name)
  {
  }

  lemma RenamedFront(code: string, from: string, to: string)
    requires StartsWith(code, "def " + from)
    ensures StartsWith(Renamed(code, from, to), "def " + to)
  {
    ReplaceAllFront(code, "def " + from, "def " + to);
  }

  // ---------------------------------------------------------------------------
  // Testing

  /** `_test_tool`'s summary of the sandbox's report. */
  datatype TestSummary = TestSummary(successRate: real, passed: int, failed: int, total: int, failures: seq<Object>)

  function RealField(o: Object, k: string): real {
    match GetOr(o, k, JNull)
    case JReal(r) => r
    case JInt(i) => i as real
    case _ => 0.0
  }

  function IntField(o: Object, k: string): int {
    match GetOr(o, k, JNull)
    case JInt(i) => i
    case _ => 0
  }

  /** `[r for r in results if not r.get("passed", False)]`. */
  function Failures(results: seq<Json>): (r: seq<Object>)
    ensures |r| <= |results|
  {
    if results == [] then []
    else
      var rest := Failures(results[1..]);
      match results[0]
      case JObj(o) => if Truthy(GetOr(o, "passed", JBool(false))) then rest else [o] + rest
      case _ => rest
  }

  function Summarize(report: Object): TestSummary {
    var results := match GetOr(report, "results", JNull) case JArr(items) => items case _ => [];
    TestSummary(RealField(report, "success_rate"), IntField(report, "passed"), IntField(report, "failed"),
                IntField(report, "total"), Failures(results))
  }

  /** The summary of a sandbox report is its tally: the rate, the counts and the failing entries. */
  lemma SummarizeReport(t: Tally, total: nat)
    ensures Summarize(Report(t, total))
      == TestSummary((t.passed as real) / (if total > 1 then total else 1) as real, t.passed, t.failed, total, Failures(t.results))
  {
    var r := Report(t, total);
    GetFirst(r, 0);
    GetFirst(r, 1);
    GetFirst(r, 2);
    GetFirst(r, 3);
    GetFirst(r, 4);
  }

  /** `{"input": ex.get("input", {}), "expected": ex.get("expected")}` for each example. */
  function TestCases(examples: seq<Object>): (cases: seq<Object>)
    ensures |cases| == |examples|
  {
    seq(|examples|, i requires 0 <= i < |examples| =>
      [("input", GetOr(examples[i], "input", JObj([]))), ("expected", GetOr(examples[i], "expected", JNull))])
  }

  /** `_test_tool`: the summary, or the exception the sandbox's test loop raised, and the runs it recorded. */
  function TestTool(config: ToolFactoryConfig, env: FactoryEnv, spec: ToolSpec, examples: seq<Object>)
    : (Result<TestSummary>, seq<SandboxResult>)
  {
    var run := TestRun(config, env.sandbox, spec.code, TestCases(examples), spec.name);
    (if run.0.Ok? then Ok(Summarize(run.0.value)) else Err(run.0.error), run.1)
  }

  // ---------------------------------------------------------------------------
  // Improving

  /**
   * `_improve_tool`: the model's rewrite, kept only when it parses and raises
   * no security objection; a failed call gives nothing.
   */
  function Improvement(config: ToolFactoryConfig, env: FactoryEnv, spec: ToolSpec, failures: seq<Object>,
                       request: ToolGenerateRequest, attempt: nat): (r: Option<string>)
    ensures r.Some? ==> ValidateSyntax(env.sandbox.parse, r.value) && !Flagged(Security(config, env.sandbox.parse, r.value).value)
  {
    var prompt := ImprovementPrompt(spec.code, spec.name, FailuresText(env.sandbox.printer, failures), request.description, attempt);
    match env.reply(prompt)
    case Err(_) => None
    case Ok(text) =>
      var code := ExtractCode(text);
      if !ValidateSyntax(env.sandbox.parse, code) then None
      else if Flagged(Security(config, env.sandbox.parse, code).value) then None
      else Some(code)
  }

  // ---------------------------------------------------------------------------
  // Generation

  /** One entry of `generation_history`; the timestamp is the ISO text of the time of logging. */
  datatype GenerationRecord = GenerationRecord(
    toolName: string, success: bool, successRate: real, passed: int, failed: int, timestamp: string, version: int)

  function Record(spec: ToolSpec, summary: TestSummary, success: bool, now: string): GenerationRecord {
    GenerationRecord(spec.name, success, summary.successRate, summary.passed, summary.failed, now, spec.version)
  }

  /**
   * What one call of `generate_tool` does: its result, the tool it registers
   * (if any), what it logs and the sandbox runs it records.
   */
  datatype Generation = Generation(result: Result<ToolSpec>, registered: Option<ToolSpec>, log: seq<GenerationRecord>,
                                   runs: seq<SandboxResult>)

  /** `_register_tool`: the tested rate is stored on the spec, which is logged as a success. */
  function Registration(spec: ToolSpec, summary: TestSummary, runs: seq<SandboxResult>, now: string): Generation {
    var registered := spec.(successRate := summary.successRate);
    Generation(Ok(registered), Some(registered), [Record(registered, summary, true, now)], runs)
  }

  /** Runs recorded before a stretch of the generation come first. */
  function Preceded(runs: seq<SandboxResult>, g: Generation): Generation {
    g.(runs := runs + g.runs)
  }

  /** The number of improvement rounds `range(max_attempts - 1)` allows. */
  function Rounds(maxAttempts: int): nat {
    if maxAttempts - 1 > 0 then maxAttempts - 1 else 0
  }

  /**
   * What the test-and-improve part of `generate_tool` works with: how a spec
   * is tested (the summary or the sandbox's exception, and the runs it
   * records), how a rewrite is asked for in a round, the threshold, the
   * attempts, the failure message and the time of logging.
   */
  datatype Loop = Loop(
    test: ToolSpec -> (Result<TestSummary>, seq<SandboxResult>),
    improve: (ToolSpec, seq<Object>, nat) -> Option<string>,
    threshold: real,
    maxAttempts: int,
    failure: real -> string,
    now: string)

  /** The loop of one `generate_tool` call. */
  function LoopOf(config: ToolFactoryConfig, env: FactoryEnv, request: ToolGenerateRequest, maxAttempts: int,
                  now: string): (l: Loop)
    ensures l.threshold == config.successRateThreshold && l.maxAttempts == maxAttempts && l.now == now
  {
    Loop(spec => TestTool(config, env, spec, request.examples),
         (spec: ToolSpec, failures: seq<Object>, k: nat) => Improvement(config, env, spec, failures, request, k),
         config.successRateThreshold, maxAttempts,
         rate => "Failed after " + IntToString(maxAttempts) + " attempts. Rate: " + env.percent(rate), now)
  }

  /** The loop's steps are `_test_tool` and `_improve_tool`. */
  lemma LoopSteps(config: ToolFactoryConfig, env: FactoryEnv, request: ToolGenerateRequest, maxAttempts: int,
                  now: string, spec: ToolSpec, failures: seq<Object>, k: nat)
    ensures var l := LoopOf(config, env, request, maxAttempts, now);
      && l.test(spec) == TestTool(config, env, spec, request.examples)
      && l.improve(spec, failures, k) == Improvement(config, env, spec, failures, request, k)
  {
  }

  /**
   * The improvement loop from round `k` on, with the current spec and its
   * last summary: a rewrite is tested under the next version and registered
   * once its rate reaches the threshold; after the last round the failure is
   * logged and raised.
   */
  function Improving(l: Loop, spec: ToolSpec, summary: TestSummary, k: nat): Generation
    requires k <= Rounds(l.maxAttempts)
    decreases Rounds(l.maxAttempts) - k, 0
  {
    if k == Rounds(l.maxAttempts) then
      Generation(Err(l.failure(summary.successRate)), None, [Record(spec, summary, false, l.now)], [])
    else
      var improved := l.improve(spec, summary.failures, k);
      if improved.None? || improved.value == [] then Improving(l, spec, summary, k + 1)
      else Tried(l, spec.(code := improved.value, version := spec.version + 1), k + 1)
  }

  /** A spec tested: registered when it passes, handed to the improvement loop from round `k` when not. */
  function Tried(l: Loop, spec: ToolSpec, k: nat): Generation
    requires k <= Rounds(l.maxAttempts)
    decreases Rounds(l.maxAttempts) - k, 1
  {
    var tested := l.test(spec);
    match tested.0
    case Err(e) => Generation(Err(e), None, [], tested.1)
    case Ok(summary) =>
      if summary.successRate >= l.threshold then Registration(spec, summary, tested.1, l.now)
      else Preceded(tested.1, Improving(l, spec, summary, k))
  }

  /** `generate_tool`. */
  function Generate(config: ToolFactoryConfig, env: FactoryEnv, request: ToolGenerateRequest, maxAttempts: int,
                    now: string): Generation
  {
    match Draft(config, env, request, now)
    case Err(e) => Generation(Err(e), None, [], [])
    case Ok(spec) => Tried(LoopOf(config, env, request, maxAttempts, now), spec, 0)
  }

  /** What a generation logs and registers agrees with its result. */
  predicate Consistent(threshold: real, g: Generation) {
    && (g.result.Ok? <==> g.registered.Some?)
    && (g.result.Ok? ==> (g.registered.value == g.result.value
                           && g.result.value.successRate >= threshold
                           && |g.log| == 1 && g.log[0].success && g.log[0].toolName == g.result.value.name))
    && (g.result.Err? ==> |g.log| <= 1 && forall i :: 0 <= i < |g.log| ==> !g.log[i].success)
  }

  /**
   * From round `k` with a spec at version `v`, the loop registers a tool only
   * with a version above `v` and at most `v` plus the rounds left, and every
   * outcome is consistent.
   */
  lemma {:induction false} ImprovingFacts(l: Loop, spec: ToolSpec, summary: TestSummary, k: nat)
    requires k <= Rounds(l.maxAttempts)
    ensures var g := Improving(l, spec, summary, k);
      && Consistent(l.threshold, g)
      && (g.registered.Some? ==> spec.version < g.registered.value.version <= spec.version + Rounds(l.maxAttempts) - k)
      && (g.result.Err? && g.log != [] ==> g.result.error == l.failure(g.log[0].successRate))
    decreases Rounds(l.maxAttempts) - k, 0
  {
    if k < Rounds(l.maxAttempts) {
      var improved := l.improve(spec, summary.failures, k);
      if improved.None? || improved.value == [] {
        ImprovingFacts(l, spec, summary, k + 1);
      } else {
        TriedFacts(l, spec.(code := improved.value, version := spec.version + 1), k + 1);
      }
    }
  }

  lemma {:induction false} TriedFacts(l: Loop, spec: ToolSpec, k: nat)
    requires k <= Rounds(l.maxAttempts)
    ensures var g := Tried(l, spec, k);
      && Consistent(l.threshold, g)
      && (g.registered.Some? ==> spec.version <= g.registered.value.version <= spec.version + Rounds(l.maxAttempts) - k)
      && (g.result.Err? && g.log != [] ==> g.result.error == l.failure(g.log[0].successRate))
    decreases Rounds(l.maxAttempts) - k, 1
  {
    var tested := l.test(spec);
    if tested.0.Ok? && tested.0.value.successRate < l.threshold {
      ImprovingFacts(l, spec, tested.0.value, k);
    }
  }

  /**
   * `generate_tool` registers a tool exactly when it returns it; the tool
   * passed the threshold, was logged once as a success, and its version is 1
   * plus at most `max_attempts - 1` accepted improvements. A failure logs at
   * most one unsuccessful entry and registers nothing; when it logs one, it
   * raises "Failed after N attempts" with that entry's rate (an exception from
   * drafting or testing logs nothing).
   */
  lemma GenerateFacts(config: ToolFactoryConfig, env: FactoryEnv, request: ToolGenerateRequest, maxAttempts: int, now: string)
    ensures var g := Generate(config, env, request, maxAttempts, now);
      && Consistent(config.successRateThreshold, g)
      && (g.registered.Some? ==> 1 <= g.registered.value.version <= 1 + Rounds(maxAttempts))
      && (g.result.Err? && g.log != [] ==>
            g.result.error == "Failed after " + IntToString(maxAttempts) + " attempts. Rate: " + env.percent(g.log[0].successRate))
  {
    DraftFacts(config, env, request, now);
    var d := Draft(config, env, request, now);
    if d.Ok? {
      TriedFacts(LoopOf(config, env, request, maxAttempts, now), d.value, 0);
    }
  }

  /** No spec the loop can test reaches the threshold, and testing never raises. */
  ghost predicate NeverPasses(l: Loop) {
    forall s :: l.test(s).0.Ok? && l.test(s).0.value.successRate < l.threshold
  }

  /**
   * When no test passes, the loop runs out of rounds: one unsuccessful entry
   * is logged, nothing is registered and the failure carries the last rate.
   */
  lemma {:induction false} ImprovingExhausted(l: Loop, spec: ToolSpec, summary: TestSummary, k: nat)
    requires k <= Rounds(l.maxAttempts) && NeverPasses(l)
    ensures var g := Improving(l, spec, summary, k);
      && g.registered.None? && |g.log| == 1 && !g.log[0].success
      && g.result == Err(l.failure(g.log[0].successRate))
    decreases Rounds(l.maxAttempts) - k, 0
  {
    if k < Rounds(l.maxAttempts) {
      var improved := l.improve(spec, summary.failures, k);
      if improved.None? || improved.value == [] {
        ImprovingExhausted(l, spec, summary, k + 1);
      } else {
        TriedExhausted(l, spec.(code := improved.value, version := spec.version + 1), k + 1);
      }
    }
  }

  lemma {:induction false} TriedExhausted(l: Loop, spec: ToolSpec, k: nat)
    requires k <= Rounds(l.maxAttempts) && NeverPasses(l)
    ensures var g := Tried(l, spec, k);
      && g.registered.None? && |g.log| == 1 && !g.log[0].success
      && g.result == Err(l.failure(g.log[0].successRate))
    decreases Rounds(l.maxAttempts) - k, 1
  {
    ImprovingExhausted(l, spec, l.test(spec).0.value, k);
  }

  /**
   * `generate_tool` with a first draft but no passing test: after
   * `max_attempts` the call logs one failed generation and raises
   * "Failed after N attempts. Rate: ..." with the last tested rate.
   */
  lemma GenerateExhausted(config: ToolFactoryConfig, env: FactoryEnv, request: ToolGenerateRequest, maxAttempts: int,
                          now: string)
    requires Draft(config, env, request, now).Ok?
    requires forall s :: TestTool(config, env, s, request.examples).0.Ok?
                         && TestTool(config, env, s, request.examples).0.value.successRate < config.successRateThreshold
    ensures var g := Generate(config, env, request, maxAttempts, now);
      && g.registered.None? && |g.log| == 1 && !g.log[0].success
      && g.result == Err("Failed after " + IntToString(maxAttempts) + " attempts. Rate: " + env.percent(g.log[0].successRate))
  {
    var l := LoopOf(config, env, request, maxAttempts, now);
    forall s
      ensures l.test(s).0.Ok? && l.test(s).0.value.successRate < l.threshold
    {
      LoopSteps(config, env, request, maxAttempts, now, s, [], 0);
    }
    TriedExhausted(l, Draft(config, env, request, now).value, 0);
  }

  /** With a single attempt there is no improvement round: a first test below the threshold fails the call. */
  lemma SingleAttempt(l: Loop, spec: ToolSpec, summary: TestSummary)
    requires l.maxAttempts == 1
    ensures Improving(l, spec, summary, 0)
      == Generation(Err(l.failure(summary.successRate)), None, [Record(spec, summary, false, l.now)], [])
  {
  }

  /** A rewrite that passes in a later round is registered at the version it was tested under. */
  lemma PassingRewrite(l: Loop, spec: ToolSpec, summary: TestSummary, k: nat)
    requires k < Rounds(l.maxAttempts)
    requires var improved := l.improve(spec, summary.failures, k);
      && improved.Some? && improved.value != []
      && var next := spec.(code := improved.value, version := spec.version + 1);
         l.test(next).0.Ok? && l.test(next).0.value.successRate >= l.threshold
    ensures var g := Improving(l, spec, summary, k);
      && g.result.Ok? && g.result.value.version == spec.version + 1
      && g.result.value.code == l.improve(spec, summary.failures, k).value
  {
  }

  // ---------------------------------------------------------------------------
  // Listing, export and import

  /** The summary `list_tools` gives of one tool. */
  function Listing(s: ToolSpec): Object {
    [("name", JStr(s.name)), ("description", JStr(s.description)), ("success_rate", JReal(s.successRate)),
     ("usage_count", JInt(s.usageCount)), ("version", JInt(s.version)),
     ("parameters", JArr(seq(|s.parameters|, i requires 0 <= i < |s.parameters| => JStr(s.parameters[i].0))))]
  }

  /** The exported form of one tool: the nine fields `import_tools` reads back. */
  function Exported(s: ToolSpec): Object {
    [("name", JStr(s.name)), ("description", JStr(s.description)), ("parameters", ParamsJson(s.parameters)),
     ("return_type", JStr(s.returnType)), ("code", JStr(s.code)), ("examples", ObjectsJson(s.examples)),
     ("success_rate", JReal(s.successRate)), ("usage_count", JInt(s.usageCount)), ("version", JInt(s.version))]
  }

  function ExportAll(tools: Dict<string, ToolSpec>): (r: Object)
    ensures Keys(r) == Keys(tools)
    ensures |r| == |tools| && forall i :: 0 <= i < |tools| ==> r[i] == (tools[i].0, JObj(Exported(tools[i].1)))
  {
    seq(|tools|, i requires 0 <= i < |tools| => (tools[i].0, JObj(Exported(tools[i].1))))
  }

  /** `td[key]`: a missing key raises `KeyError`. */
  function Required(td: Object, key: string): Result<Json> {
    match Get(td, key)
    case Some(v) => Ok(v)
    case None => Err("KeyError: '" + key + "'")
  }

  function ParamsOf(j: Json): Result<Dict<string, Object>> {
    if j.JObj? && forall i :: 0 <= i < |j.fields| ==> j.fields[i].1.JObj? then
      Ok(seq(|j.fields|, i requires 0 <= i < |j.fields| => (j.fields[i].0, j.fields[i].1.fields)))
    else Err("TypeError: a parameter map is expected")
  }

  function ExamplesOf(j: Json): Result<seq<Object>> {
    if j.JArr? && forall i :: 0 <= i < |j.items| ==> j.items[i].JObj? then
      Ok(seq(|j.items|, i requires 0 <= i < |j.items| => j.items[i].fields))
    else Err("TypeError: a list of examples is expected")
  }

  /**
   * One exported tool read back, with the defaults `import_tools` gives to
   * the optional fields; the required keys are looked up in the order the
   * constructor call names them.
   */
  function Decode(td: Json, now: string): (r: Result<ToolSpec>)
    ensures r.Ok? ==> r.value.createdAt == now && r.value.lastUsed.None?
    ensures td.JObj? && !HasKey(td.fields, "name") ==> r == Err("KeyError: 'name'")
    ensures td.JArr? ==> r == Err("TypeError: list indices must be integers or slices, not str")
    ensures td.JStr? ==> r == Err("TypeError: string indices must be integers, not 'str'")
    ensures !(td.JObj? || td.JArr? || td.JStr?) ==> r == Err("TypeError: '" + TypeName(td) + "' object is not subscriptable")
  {
    // `td["name"]` on a record that is not a dict.
    if td.JArr? then Err("TypeError: list indices must be integers or slices, not str")
    else if td.JStr? then Err("TypeError: string indices must be integers, not 'str'")
    else if !td.JObj? then Err("TypeError: '" + TypeName(td) + "' object is not subscriptable")
    else
      var o := td.fields;
      var name := Required(o, "name");
      var description := Required(o, "description");
      var parameters := Required(o, "parameters");
      var returnType := Required(o, "return_type");
      var code := Required(o, "code");
      if name.Err? then Err(name.error)
      else if description.Err? then Err(description.error)
      else if parameters.Err? then Err(parameters.error)
      else if returnType.Err? then Err(returnType.error)
      else if code.Err? then Err(code.error)
      else
        Typed(name.value, description.value, parameters.value, returnType.value, code.value,
              GetOr(o, "examples", JArr([])), GetOr(o, "success_rate", JReal(0.0)), GetOr(o, "usage_count", JInt(0)),
              GetOr(o, "version", JInt(1)), now)
  }

  /** The looked-up values as a spec's fields, when they have the types the fields hold. */
  function Typed(name: Json, description: Json, parameters: Json, returnType: Json, code: Json, examples: Json,
                 rate: Json, uses: Json, version: Json, now: string): (r: Result<ToolSpec>)
    ensures r.Ok? ==> r.value.createdAt == now && r.value.lastUsed.None?
  {
    if !name.JStr? || !description.JStr? || !returnType.JStr? || !code.JStr? then Err("TypeError: a string is expected")
    else if ParamsOf(parameters).Err? then Err(ParamsOf(parameters).error)
    else if ExamplesOf(examples).Err? then Err(ExamplesOf(examples).error)
    else if !(rate.JReal? || rate.JInt?) || !uses.JInt? || !version.JInt? then Err("TypeError: a number is expected")
    else
      Ok(ToolSpec(name.s, description.s, ParamsOf(parameters).value, returnType.s, code.s, ExamplesOf(examples).value,
                  if rate.JReal? then rate.r else rate.i as real, uses.i, version.i, now, None))
  }

  /** The registry after importing the entries of `data` in order; the first bad entry stops the loop. */
  function ImportAll(tools: Dict<string, ToolSpec>, data: Object, now: string): (Dict<string, ToolSpec>, Option<string>) {
    if data == [] then (tools, None)
    else
      var before := ImportAll(tools, data[..|data| - 1], now);
      if before.1.Some? then before
      else
        match Decode(data[|data| - 1].1, now)
        case Err(e) => (before.0, Some(e))
        case Ok(spec) => (Put(before.0, data[|data| - 1].0, spec), None)
  }

  /** A tool as it comes back from an export: everything kept but the creation time and last use. */
  function Reimported(s: ToolSpec, now: string): ToolSpec {
    s.(createdAt := now, lastUsed := None)
  }

  lemma ExportedNames(s: ToolSpec)
    ensures Get(Exported(s), "name") == Some(JStr(s.name))
    ensures Get(Exported(s), "description") == Some(JStr(s.description))
    ensures Get(Exported(s), "parameters") == Some(ParamsJson(s.parameters))
  {
    GetFirst(Exported(s), 0);
    GetFirst(Exported(s), 1);
    GetFirst(Exported(s), 2);
  }

  lemma ExportedCode(s: ToolSpec)
    ensures Get(Exported(s), "return_type") == Some(JStr(s.returnType))
    ensures Get(Exported(s), "code") == Some(JStr(s.code))
    ensures Get(Exported(s), "examples") == Some(ObjectsJson(s.examples))
  {
    GetFirst(Exported(s), 3);
    GetFirst(Exported(s), 4);
    GetFirst(Exported(s), 5);
  }

  lemma ExportedCounts(s: ToolSpec)
    ensures Get(Exported(s), "success_rate") == Some(JReal(s.successRate))
    ensures Get(Exported(s), "usage_count") == Some(JInt(s.usageCount))
    ensures Get(Exported(s), "version") == Some(JInt(s.version))
  {
    GetFirst(Exported(s), 6);
    GetFirst(Exported(s), 7);
    GetFirst(Exported(s), 8);
  }

  /** An exported tool reads back as itself, created now and never used. */
  lemma DecodeExported(s: ToolSpec, now: string)
    ensures Decode(JObj(Exported(s)), now) == Ok(Reimported(s, now))
  {
    ExportedNames(s);
    ExportedCode(s);
    ExportedCounts(s);
    TypedExported(s, now);
  }

  lemma TypedExported(s: ToolSpec, now: string)
    ensures Typed(JStr(s.name), JStr(s.description), ParamsJson(s.parameters), JStr(s.returnType), JStr(s.code),
                  ObjectsJson(s.examples), JReal(s.successRate), JInt(s.usageCount), JInt(s.version), now)
         == Ok(Reimported(s, now))
  {
    ParamsRoundTrip(s.parameters);
    ExamplesRoundTrip(s.examples);
  }

  lemma ParamsRoundTrip(parameters: Dict<string, Object>)
    ensures ParamsOf(ParamsJson(parameters)) == Ok(parameters)
  {
    var j := ParamsJson(parameters);
    assert ParamsOf(j).value == parameters;
  }

  lemma ExamplesRoundTrip(examples: seq<Object>)
    ensures ExamplesOf(ObjectsJson(examples)) == Ok(examples)
  {
    var j := ObjectsJson(examples);
    assert ExamplesOf(j).value == examples;
  }

  /**
   * Exporting a registry and importing it into an empty one gives back every
   * tool under its name, in order, with its name, description, parameters,
   * return type, code, examples, rate, use count and version.
   */
  lemma {:induction false} ExportImport(tools: Dict<string, ToolSpec>, now: string)
    requires DistinctKeys(tools)
    ensures ImportAll([], ExportAll(tools), now) == (Reimports(tools, now), None)
    decreases |tools|
  {
    if tools != [] {
      var n := |tools| - 1;
      var init := tools[..n];
      assert DistinctKeys(init);
      ExportImport(init, now);
      var data := ExportAll(tools);
      assert data[..n] == ExportAll(init);
      assert data[n] == (tools[n].0, JObj(Exported(tools[n].1)));
      DecodeExported(tools[n].1, now);
      var prev := Reimports(init, now);
      assert ImportAll([], data, now) == (Put(prev, tools[n].0, Reimported(tools[n].1, now)), None);
      DistinctLast(tools);
      ReimportsKeys(init, now, tools[n].0);
      ReimportsSnoc(tools, now);
    }
  }

  lemma DistinctLast<K, V>(d: Dict<K, V>)
    requires d != [] && DistinctKeys(d)
    ensures !HasKey(d[..|d| - 1], d[|d| - 1].0)
  {
    var n := |d| - 1;
    forall j | 0 <= j < n ensures d[..n][j].0 != d[n].0 {
      assert d[..n][j] == d[j];
    }
  }

  lemma ReimportsKeys(tools: Dict<string, ToolSpec>, now: string, k: string)
    ensures HasKey(Reimports(tools, now), k) <==> HasKey(tools, k)
  {
    var r := Reimports(tools, now);
    if HasKey(tools, k) {
      var i :| 0 <= i < |tools| && tools[i].0 == k;
      assert r[i].0 == k;
    }
  }

  lemma ReimportsSnoc(tools: Dict<string, ToolSpec>, now: string)
    requires tools != []
    ensures var n := |tools| - 1;
      Reimports(tools, now) == Reimports(tools[..n], now) + [(tools[n].0, Reimported(tools[n].1, now))]
  {
  }

  /** Every tool of a registry as it comes back from an export, under its name. */
  function Reimports(tools: Dict<string, ToolSpec>, now: string): (r: Dict<string, ToolSpec>)
    ensures |r| == |tools| && forall i :: 0 <= i < |tools| ==> r[i] == (tools[i].0, Reimported(tools[i].1, now))
  {
    seq(|tools|, i requires 0 <= i < |tools| => (tools[i].0, Reimported(tools[i].1, now)))
  }

  /** The sums `get_stats` reports. */
  function UsageTotal(tools: seq<ToolSpec>): int {
    if tools == [] then 0 else UsageTotal(tools[..|tools| - 1]) + tools[|tools| - 1].usageCount
  }

  function Rates(tools: seq<ToolSpec>): (r: seq<real>)
    ensures |r| == |tools| && forall i :: 0 <= i < |tools| ==> r[i] == tools[i].successRate
  {
    seq(|tools|, i requires 0 <= i < |tools| => tools[i].successRate)
  }

  function SuccessCount(history: seq<GenerationRecord>): (n: nat)
    ensures n <= |history|
  {
    if history == [] then 0 else SuccessCount(history[..|history| - 1]) + (if history[|history| - 1].success then 1 else 0)
  }

  function StatsOf(tools: seq<ToolSpec>, history: seq<GenerationRecord>): Object {
    [("generated_tools", JInt(|tools|)), ("total_generations", JInt(|history|)),
     ("successful_generations", JInt(SuccessCount(history))), ("total_tool_uses", JInt(UsageTotal(tools))),
     ("average_success_rate", JReal(Sum(Rates(tools)) / (if |tools| > 1 then |tools| else 1) as real))]
  }

  lemma StatsFields(tools: seq<ToolSpec>, history: seq<GenerationRecord>)
    ensures var s := StatsOf(tools, history);
      && Get(s, "generated_tools") == Some(JInt(|tools|))
      && Get(s, "total_generations") == Some(JInt(|history|))
      && Get(s, "successful_generations") == Some(JInt(SuccessCount(history)))
      && Get(s, "total_tool_uses") == Some(JInt(UsageTotal(tools)))
      && Get(s, "average_success_rate") == Some(JReal(Mean(Rates(tools))))
  {
    var s := StatsOf(tools, history);
    GetFirst(s, 0);
    GetFirst(s, 1);
    GetFirst(s, 2);
    GetFirst(s, 3);
    GetFirst(s, 4);
    AverageIsMean(Rates(tools));
  }

  /** `sum(xs) / max(len(xs), 1)` is the mean, 0.0 for no samples. */
  lemma AverageIsMean(xs: seq<real>)
    ensures Sum(xs) / (if |xs| > 1 then |xs| else 1) as real == Mean(xs)
  {
  }

  /** Only generations that returned a tool add to the successful count; every call that logs adds to the total. */
  lemma SuccessCountAppend(history: seq<GenerationRecord>, log: seq<GenerationRecord>)
    requires |log| <= 1
    ensures SuccessCount(history + log) == SuccessCount(history) + (if log != [] && log[0].success then 1 else 0)
  {
    if log != [] {
      assert (history + log)[..|history|] == history;
    } else {
      assert history + log == history;
    }
  }

  // ---------------------------------------------------------------------------
  // The factory

  class ToolFactory {
    const config: ToolFactoryConfig
    const sandbox: SandboxExecutor
    var generatedTools: Dict<string, ToolSpec>
    var generationHistory: seq<GenerationRecord>

    ghost predicate Valid()
      reads this
    {
      DistinctKeys(generatedTools) && sandbox.config == config
    }

    constructor (config: ToolFactoryConfig)
      ensures Valid() && fresh(sandbox)
      ensures this.config == config && generatedTools == [] && generationHistory == [] && sandbox.executionHistory == []
    {
      this.config := config;
      sandbox := new SandboxExecutor(config);
      generatedTools := [];
      generationHistory := [];
    }

    /**
     * `generate_tool`: the result, the registry, the history and the
     * sandbox's runs are exactly as `Generate` describes.
     */
    method GenerateTool(env: FactoryEnv, request: ToolGenerateRequest, maxAttempts: int, now: string)
      returns (r: Result<ToolSpec>)
      requires Valid()
      modifies this, sandbox
      ensures Valid()
      ensures var g := Generate(config, env, request, maxAttempts, now);
        && r == g.result
        && generatedTools == (if g.registered.Some? then Put(old(generatedTools), g.registered.value.name, g.registered.value)
                              else old(generatedTools))
        && generationHistory == old(generationHistory) + g.log
        && sandbox.executionHistory == old(sandbox.executionHistory) + g.runs
    {
      var code := GenerateCode(env, request);
      if code.Err? {
        return Err(code.error);
      }
      var meta := ParseFunctionMetadata(env.sandbox.parse, code.value);
      if meta.Err? {
        return Err(meta.error);
      }
      var name := meta.value.name;
      var source := code.value;
      if request.name != [] && request.name != name {
        source := ReplaceAll(source, "def " + name, "def " + request.name);
        name := request.name;
      }
      var description := request.description;
      if meta.value.docstring.Some? && meta.value.docstring.value != [] {
        description := meta.value.docstring.value;
      }
      var spec := NewToolSpec(name, description, ParamsObject(meta.value.parameters), meta.value.returnType, source,
                              request.examples, now);
      r := TryTool(env, request, maxAttempts, now, spec, LoopOf(config, env, request, maxAttempts, now));
    }

    /** `_generate_code`, with the syntax repair of `_fix_syntax_errors`. */
    method GenerateCode(env: FactoryEnv, request: ToolGenerateRequest) returns (r: Result<string>)
      ensures r == GeneratedCode(config, env, request)
    {
      var examplesText := FormatExamples(env.sandbox.printer, request.examples);
      var response := env.reply(GenerationPrompt(request.description, request.name, examplesText));
      if response.Err? {
        return Err(response.error);
      }
      var code := ExtractCode(response.value);
      if !ValidateSyntax(env.sandbox.parse, code) {
        code := FixSyntax(env, code);
      }
      var securityError := ValidateSecurity(config, env.sandbox.parse, code);
      if securityError.Err? {
        return Err(securityError.error);
      }
      if Flagged(securityError.value) {
        return Err("Security error: " + securityError.value.value);
      }
      if !CheckLineCount(config, code) {
        return Err("Exceeds " + IntToString(config.maxToolSizeLines) + " lines");
      }
      return Ok(code);
    }

    /** Testing a spec and, when it falls short, the improvement loop. */
    method TryTool(env: FactoryEnv, request: ToolGenerateRequest, maxAttempts: int, now: string, spec: ToolSpec,
                   ghost l: Loop)
      returns (r: Result<ToolSpec>)
      requires Valid() && l == LoopOf(config, env, request, maxAttempts, now)
      modifies this, sandbox
      ensures Valid()
      ensures var g := Tried(l, spec, 0);
        && r == g.result
        && generatedTools == (if g.registered.Some? then Put(old(generatedTools), g.registered.value.name, g.registered.value)
                              else old(generatedTools))
        && generationHistory == old(generationHistory) + g.log
        && sandbox.executionHistory == old(sandbox.executionHistory) + g.runs
    {
      var summary := TestToolRun(env, spec, request.examples);
      LoopSteps(config, env, request, maxAttempts, now, spec, [], 0);
      if summary.Err? {
        return Err(summary.error);
      }
      if summary.value.successRate >= config.successRateThreshold {
        r := RegisterTool(spec, summary.value, now);
        return;
      }
      ghost var tested := l.test(spec).1;
      ghost var before := old(sandbox.executionHistory);
      r := ImproveLoop(env, request, maxAttempts, now, spec, summary.value, l);
      AppendAssociates(before, tested, Improving(l, spec, summary.value, 0).runs);
    }

    /** The `for` loop of `generate_tool`, then the failure it logs and raises. */
    method ImproveLoop(env: FactoryEnv, request: ToolGenerateRequest, maxAttempts: int, now: string, spec0: ToolSpec,
                       summary0: TestSummary, ghost l: Loop)
      returns (r: Result<ToolSpec>)
      requires Valid() && l == LoopOf(config, env, request, maxAttempts, now)
      modifies this, sandbox
      ensures Valid()
      ensures var g := Improving(l, spec0, summary0, 0);
        && r == g.result
        && generatedTools == (if g.registered.Some? then Put(old(generatedTools), g.registered.value.name, g.registered.value)
                              else old(generatedTools))
        && generationHistory == old(generationHistory) + g.log
        && sandbox.executionHistory == old(sandbox.executionHistory) + g.runs
    {
      var step, spec, summary;
      ghost var runs, k;
      step, spec, summary, runs, k := ImproveRounds(env, request, maxAttempts, now, spec0, summary0, l);
      if step.Some? {
        r := Conclude(step.value, spec, summary, now);
        return;
      }
      LogGeneration(spec, summary, false, now);
      r := Err("Failed after " + IntToString(maxAttempts) + " attempts. Rate: " + env.percent(summary.successRate));
      PrecededNothing(runs, Improving(l, spec, summary, k));
    }

    /**
     * The rounds of the `for` loop, up to the one that stops it: `step` is
     * that round's end (as in `ImproveStep`), or None when every round ran,
     * with the last spec and summary; `runs` are the sandbox runs recorded.
     */
    method ImproveRounds(env: FactoryEnv, request: ToolGenerateRequest, maxAttempts: int, now: string, spec0: ToolSpec,
                         summary0: TestSummary, ghost l: Loop)
      returns (step: Option<Result<ToolSpec>>, spec: ToolSpec, summary: TestSummary, ghost runs: seq<SandboxResult>,
               ghost k: nat)
      requires sandbox.config == config && l == LoopOf(config, env, request, maxAttempts, now)
      modifies sandbox
      ensures sandbox.executionHistory == old(sandbox.executionHistory) + runs
      ensures var g := Improving(l, spec0, summary0, 0);
        && (step.None? ==> k == Rounds(maxAttempts) && Preceded(runs, Improving(l, spec, summary, k)) == g)
        && (step.Some? && step.value.Err? ==> g == Generation(Err(step.value.error), None, [], runs))
        && (step.Some? && step.value.Ok? ==> step.value.value == spec && g == Registration(spec, summary, runs, now))
    {
      ghost var g := Improving(l, spec0, summary0, 0);
      runs := [];
      PrecededEmpty(g);
      spec, summary := spec0, summary0;
      var round: nat := 0;
      while round < maxAttempts - 1
        invariant round <= Rounds(maxAttempts)
        invariant sandbox.config == config
        invariant sandbox.executionHistory == old(sandbox.executionHistory) + runs
        invariant Preceded(runs, Improving(l, spec, summary, round)) == g
        decreases maxAttempts - 1 - round
      {
        var next;
        ghost var recorded;
        ghost var mid := Improving(l, spec, summary, round);
        step, next, recorded := ImproveStep(env, request, maxAttempts, now, spec, summary, round, l);
        AppendAssociates(old(sandbox.executionHistory), runs, recorded);
        if step.Some? {
          PrecededStop(runs, mid, g);
          runs := runs + recorded;
          spec, summary, k := next.0, next.1, round;
          return;
        }
        PrecededTwice(runs, recorded, Improving(l, next.0, next.1, round + 1));
        runs := runs + recorded;
        spec, summary := next.0, next.1;
        round := round + 1;
      }
      step, k := None, round;
    }

    /** The end of a round that stopped the loop: the sandbox's exception is raised, a passing rewrite registered. */
    method Conclude(step: Result<ToolSpec>, spec: ToolSpec, summary: TestSummary, now: string) returns (r: Result<ToolSpec>)
      requires Valid()
      requires step.Ok? ==> step.value == spec
      modifies this
      ensures Valid()
      ensures step.Err? ==> r == step && generatedTools == old(generatedTools) && generationHistory == old(generationHistory)
      ensures step.Ok? ==> var g := Registration(spec, summary, [], now);
        && r == g.result
        && generatedTools == Put(old(generatedTools), g.registered.value.name, g.registered.value)
        && generationHistory == old(generationHistory) + g.log
    {
      if step.Err? {
        return step;
      }
      r := RegisterTool(spec, summary, now);
    }

    /**
     * One round of the loop: ask for a rewrite; with one, test it under the
     * next version. `step` is the round's end (the sandbox's exception, or
     * the rewrite that passed, to be registered), or None to go on with
     * `next`.
     */
    method ImproveStep(env: FactoryEnv, request: ToolGenerateRequest, maxAttempts: int, now: string, spec: ToolSpec,
                       summary: TestSummary, k: nat, ghost l: Loop)
      returns (step: Option<Result<ToolSpec>>, next: (ToolSpec, TestSummary), ghost recorded: seq<SandboxResult>)
      requires k < Rounds(maxAttempts) && sandbox.config == config && l == LoopOf(config, env, request, maxAttempts, now)
      modifies sandbox
      ensures sandbox.executionHistory == old(sandbox.executionHistory) + recorded
      ensures var g := Improving(l, spec, summary, k);
        && (step.Some? && step.value.Err? ==> g == Generation(Err(step.value.error), None, [], recorded))
        && (step.Some? && step.value.Ok? ==> step.value.value == next.0 && g == Registration(next.0, next.1, recorded, now)
                                              && next.1.successRate >= config.successRateThreshold)
        && (step.None? ==> g == Preceded(recorded, Improving(l, next.0, next.1, k + 1)))
    {
      var improved := ImproveTool(env, spec, summary.failures, request, k);
      assert improved == l.improve(spec, summary.failures, k);
      if improved.None? || improved.value == [] {
        recorded := [];
        PrecededEmpty(Improving(l, spec, summary, k + 1));
        return None, (spec, summary), recorded;
      }
      var candidate := spec.(code := improved.value, version := spec.version + 1);
      assert Improving(l, spec, summary, k) == Tried(l, candidate, k + 1);
      var tested := TestToolRun(env, candidate, request.examples);
      recorded := l.test(candidate).1;
      assert tested == l.test(candidate).0;
      if tested.Err? {
        return Some(Err(tested.error)), (candidate, summary), recorded;
      }
      if tested.value.successRate >= config.successRateThreshold {
        return Some(Ok(candidate)), (candidate, tested.value), recorded;
      }
      return None, (candidate, tested.value), recorded;
    }

    /** `_improve_tool`. */
    method ImproveTool(env: FactoryEnv, spec: ToolSpec, failures: seq<Object>, request: ToolGenerateRequest, attempt: nat)
      returns (improved: Option<string>)
      ensures improved == Improvement(config, env, spec, failures, request, attempt)
    {
      var prompt := ImprovementPrompt(spec.code, spec.name, FailuresText(env.sandbox.printer, failures), request.description, attempt);
      var response := env.reply(prompt);
      if response.Err? {
        return None;
      }
      var code := ExtractCode(response.value);
      if !ValidateSyntax(env.sandbox.parse, code) {
        return None;
      }
      var securityError := ValidateSecurity(config, env.sandbox.parse, code);
      if securityError.Err? || Flagged(securityError.value) {
        return None;
      }
      return Some(code);
    }

    /** `_test_tool`: the sandbox's test loop over the examples, summarised. */
    method TestToolRun(env: FactoryEnv, spec: ToolSpec, examples: seq<Object>) returns (summary: Result<TestSummary>)
      requires sandbox.config == config
      modifies sandbox
      ensures summary == TestTool(config, env, spec, examples).0
      ensures sandbox.executionHistory == old(sandbox.executionHistory) + TestTool(config, env, spec, examples).1
    {
      var report := sandbox.TestCode(env.sandbox, spec.code, TestCases(examples), spec.name);
      if report.Err? {
        return Err(report.error);
      }
      return Ok(Summarize(report.value));
    }

    /** `_register_tool`. */
    method RegisterTool(spec: ToolSpec, summary: TestSummary, now: string) returns (registered: Result<ToolSpec>)
      requires Valid()
      modifies this
      ensures Valid()
      ensures var g := Registration(spec, summary, [], now);
        && registered == g.result
        && generatedTools == Put(old(generatedTools), g.registered.value.name, g.registered.value)
        && generationHistory == old(generationHistory) + g.log
    {
      var s := spec.(successRate := summary.successRate);
      PutGet(generatedTools, s.name, s, s.name);
      generatedTools := Put(generatedTools, s.name, s);
      LogGeneration(s, summary, true, now);
      return Ok(s);
    }

    /** `_log_generation`. */
    method LogGeneration(spec: ToolSpec, summary: TestSummary, success: bool, now: string)
      modifies this
      ensures generationHistory == old(generationHistory) + [Record(spec, summary, success, now)]
      ensures generatedTools == old(generatedTools)
    {
      generationHistory := generationHistory + [Record(spec, summary, success, now)];
    }

    /** `get_tool_spec`. */
    function GetToolSpec(name: string): (r: Option<ToolSpec>)
      reads this
      ensures r.Some? <==> HasKey(generatedTools, name)
      ensures r.Some? ==> (name, r.value) in generatedTools
    {
      Get(generatedTools, name)
    }

    /** `list_tools`: one summary per registered tool, in registration order. */
    function ListTools(): (r: seq<Object>)
      reads this
      ensures |r| == |generatedTools|
      ensures forall i :: 0 <= i < |r| ==> (Get(r[i], "name") == Some(JStr(generatedTools[i].1.name))
                                           && Get(r[i], "version") == Some(JInt(generatedTools[i].1.version)))
    {
      var tools := generatedTools;
      var r := seq(|tools|, i requires 0 <= i < |tools| => Listing(tools[i].1));
      forall i | 0 <= i < |r| ensures Get(r[i], "name") == Some(JStr(generatedTools[i].1.name))
        && Get(r[i], "version") == Some(JInt(generatedTools[i].1.version))
      {
        ListingFields(generatedTools[i].1);
      }
      r
    }

    /** `remove_tool`: True and the entry deleted exactly when the name is registered. */
    method RemoveTool(name: string) returns (removed: bool)
      requires Valid()
      modifies this
      ensures Valid()
      ensures removed <==> HasKey(old(generatedTools), name)
      ensures generatedTools == Remove(old(generatedTools), name)
      ensures generationHistory == old(generationHistory)
    {
      removed := HasKey(generatedTools, name);
      if removed {
        RemoveDistinct(generatedTools, name);
        generatedTools := Remove(generatedTools, name);
      }
    }

    /** `export_tools`. */
    function ExportTools(): (r: Object)
      reads this
      ensures Keys(r) == Keys(generatedTools)
    {
      ExportAll(generatedTools)
    }

    /** `import_tools`: each entry decoded and stored under its key in turn; a bad entry raises, keeping the earlier ones. */
    method ImportTools(data: Object, now: string) returns (error: Option<string>)
      requires Valid()
      modifies this
      ensures Valid()
      ensures (generatedTools, error) == ImportAll(old(generatedTools), data, now)
      ensures generationHistory == old(generationHistory)
    {
      var i := 0;
      while i < |data|
        invariant 0 <= i <= |data|
        invariant Valid() && generationHistory == old(generationHistory)
        invariant ImportAll(old(generatedTools), data[..i], now) == (generatedTools, None)
      {
        ImportSnoc(old(generatedTools), data, i, now);
        var spec := Decode(data[i].1, now);
        if spec.Err? {
          ImportStops(old(generatedTools), data, i + 1, now);
          return Some(spec.error);
        }
        PutGet(generatedTools, data[i].0, spec.value, data[i].0);
        generatedTools := Put(generatedTools, data[i].0, spec.value);
        i := i + 1;
      }
      assert data[..i] == data;
      return None;
    }

    /** `get_stats`. */
    function GetStats(): (stats: Object)
      reads this
      ensures Get(stats, "generated_tools") == Some(JInt(|generatedTools|))
      ensures Get(stats, "total_generations") == Some(JInt(|generationHistory|))
      ensures Get(stats, "successful_generations") == Some(JInt(SuccessCount(generationHistory)))
      ensures Get(stats, "total_tool_uses") == Some(JInt(UsageTotal(Values(generatedTools))))
      ensures Get(stats, "average_success_rate") == Some(JReal(Mean(Rates(Values(generatedTools)))))
    {
      StatsFields(Values(generatedTools), generationHistory);
      StatsOf(Values(generatedTools), generationHistory)
    }
  }

  lemma ListingFields(s: ToolSpec)
    ensures Get(Listing(s), "name") == Some(JStr(s.name)) && Get(Listing(s), "version") == Some(JInt(s.version))
  {
    GetFirst(Listing(s), 0);
    GetFirst(Listing(s), 4);
  }

  lemma ImportSnoc(tools: Dict<string, ToolSpec>, data: Object, i: nat, now: string)
    requires i < |data|
    ensures var before := ImportAll(tools, data[..i], now);
      ImportAll(tools, data[..i + 1], now)
        == if before.1.Some? then before
           else match Decode(data[i].1, now)
             case Err(e) => (before.0, Some(e))
             case Ok(spec) => (Put(before.0, data[i].0, spec), None)
  {
    assert data[..i + 1][..i] == data[..i];
  }

  /** Once an entry has failed, the later ones are not looked at. */
  lemma {:induction false} ImportStops(tools: Dict<string, ToolSpec>, data: Object, i: nat, now: string)
    requires i <= |data| && ImportAll(tools, data[..i], now).1.Some?
    ensures ImportAll(tools, data, now) == ImportAll(tools, data[..i], now)
    decreases |data| - i
  {
    if i < |data| {
      ImportSnoc(tools, data, i, now);
      ImportStops(tools, data, i + 1, now);
    } else {
      assert data[..i] == data;
    }
  }

  lemma PrecededEmpty(g: Generation)
    ensures Preceded([], g) == g
  {
    assert [] + g.runs == g.runs;
  }

  lemma PrecededTwice(a: seq<SandboxResult>, b: seq<SandboxResult>, g: Generation)
    ensures Preceded(a, Preceded(b, g)) == Preceded(a + b, g)
  {
    assert a + (b + g.runs) == (a + b) + g.runs;
  }

  lemma PrecededStop(runs: seq<SandboxResult>, mid: Generation, g: Generation)
    requires Preceded(runs, mid) == g
    ensures g == mid.(runs := runs + mid.runs)
  {
  }

  lemma PrecededNothing(runs: seq<SandboxResult>, g: Generation)
    requires g.runs == []
    ensures Preceded(runs, g).runs == runs
  {
    assert runs + [] == runs;
  }
}
