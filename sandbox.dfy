/**
 * The sandbox executor of the tool factory: security screening, wrapping code
 * so its last expression is printed behind a return marker, running it in a
 * subprocess with a timeout, truncating the captured output, reading the
 * return value back, running test cases, and keeping an execution history.
 */
module Sandboxes {
  import opened Wrappers
  import opened Strings
  import opened OrderedMaps
  import opened Json
  import opened Averages
  import opened PythonAst
  import opened FactoryConfig
  import opened Validators

  datatype SandboxResult = SandboxResult(
    success: bool,
    stdout: string,
    stderr: string,
    returnValue: Json,
    executionTime: real,
    errorType: Option<string>,
    errorMessage: Option<string>)

  /** How the subprocess ended: with an exit code and its decoded output, or by outliving the timeout. */
  datatype Process = Exited(returnCode: int, stdout: string, stderr: string, elapsed: real) | Expired

  /**
   * What a run depends on outside the sandbox's own logic: the parser, the
   * subprocess (the code and the timeout to its outcome, the wall-clock time
   * included), `json.loads`, how a float prints, and `repr` of argument values.
   */
  datatype SandboxEnv = SandboxEnv(
    parse: Parser,
    run: (string, real) -> Process,
    loads: string -> Result<Json>,
    showSeconds: real -> string,
    printer: Printer)

  const Marker := "__SANDBOX_RETURN__"
  const MarkerColon := Marker + ":"
  const TruncationNote := "\n...[truncated]"
  /** The line that prints a value behind the marker: `print(f"__SANDBOX_RETURN__:{...}")`. */
  const PrintReturn := "print(f\"" + MarkerColon + "{_json.dumps(__result__)}\")\n"

  /** `timeout or self.config.sandbox_timeout`: a missing or zero timeout falls back to the configured one. */
  function EffectiveTimeout(config: ToolFactoryConfig, timeout: Option<real>): (t: real)
    ensures timeout.Some? && timeout.value != 0.0 ==> t == timeout.value
    ensures timeout.None? || timeout.value == 0.0 ==> t == config.sandboxTimeout
  {
    if timeout.Some? && timeout.value != 0.0 then timeout.value else config.sandboxTimeout
  }

  // ---------------------------------------------------------------------------
  // Security screening

  /** `_validate_security`: the validator's walk, with a syntax error reported as a message. */
  function SecurityCheck(config: ToolFactoryConfig, parse: Parser, code: string): Option<string> {
    match parse(code)
    case Err(e) => Some("Syntax error: " + e)
    case Ok(tree) => FirstViolation(config.blockedImports, tree.walk)
  }

  /** The sandbox screens exactly as the validator does, except that a syntax error is a finding rather than a raise. */
  lemma ScreeningAgreesWithValidator(config: ToolFactoryConfig, parse: Parser, code: string)
    ensures Security(config, parse, code).Err? ==> SecurityCheck(config, parse, code) == Some(Security(config, parse, code).error)
    ensures Security(config, parse, code).Ok? ==> SecurityCheck(config, parse, code) == Security(config, parse, code).value
  {
  }

  method ValidateCode(config: ToolFactoryConfig, parse: Parser, code: string) returns (error: Option<string>)
    ensures error == SecurityCheck(config, parse, code)
  {
    var r := ValidateSecurity(config, parse, code);
    if r.Err? {
      return Some(r.error);
    }
    return r.value;
  }

  /** Whether a run gets past the screening; only such runs are recorded in the history. */
  predicate Screened(config: ToolFactoryConfig, parse: Parser, code: string) {
    var e := SecurityCheck(config, parse, code);
    !(e.Some? && e.value != [])
  }

  // ---------------------------------------------------------------------------
  // Wrapping for the return value

  /** The position of the last newline, as `str.rsplit("\n", 1)` cuts. */
  function LastNewline(s: string): (r: Option<nat>)
    ensures r.Some? ==> r.value < |s| && s[r.value] == '\n' && forall k :: r.value < k < |s| ==> s[k] != '\n'
    ensures r.None? ==> forall k :: 0 <= k < |s| ==> s[k] != '\n'
  {
    if s == [] then None
    else if s[|s| - 1] == '\n' then Some(|s| - 1)
    else LastNewline(s[..|s| - 1])
  }

  /** `"\n".join(code.rsplit("\n", 1)[:-1])`: everything before the last newline, or nothing. */
  function WithoutLastLine(code: string): (r: string)
    ensures LastNewline(code).None? ==> r == []
    ensures LastNewline(code).Some? ==> r == code[..LastNewline(code).value]
  {
    match LastNewline(code)
    case None => []
    case Some(i) => code[..i]
  }

  function Wrapped(rest: string, lastExpression: string): string {
    rest + "\n\n__result__ = " + lastExpression + "\nimport json as _json\n" + PrintReturn
  }

  /**
   * `_wrap_for_return`: code already holding the marker, code that does not
   * parse and code not ending in an expression are left alone; otherwise
   * the last line is replaced by printing the last expression's value.
   */
  function WrapForReturn(parse: Parser, code: string): (r: string)
  {
    if Contains(code, Marker) then code
    else
      match parse(code)
      case Err(_) => code
      case Ok(tree) =>
        match tree.lastExpression
        case None => code
        case Some(e) => Wrapped(WithoutLastLine(code), e)
  }

  /** Text around the marker holds the marker. */
  lemma MarkedAfter(before: string, after: string)
    ensures Contains(before + MarkerColon + after, Marker)
    ensures Contains(before + MarkerColon + after, MarkerColon)
  {
    var s := before + MarkerColon + after;
    assert s[|before|..|before| + |MarkerColon|] == MarkerColon;
    assert s[|before|..|before| + |Marker|] == Marker;
    assert OccursAt(s, Marker, |before|) && OccursAt(s, MarkerColon, |before|);
    ContainsIff(s, Marker);
    ContainsIff(s, MarkerColon);
  }

  /** The printed return statement carries the marker. */
  lemma PrintReturnMarked(prefix: string)
    ensures Contains(prefix + PrintReturn, Marker)
    ensures Contains(prefix + PrintReturn, MarkerColon)
  {
    MarkedAfter("print(f\"", "{_json.dumps(__result__)}\")\n");
    ContainsConcat(prefix, PrintReturn, Marker);
    ContainsConcat(prefix, PrintReturn, MarkerColon);
  }

  /** Wrapping leaves the marker in the code, so wrapping twice is wrapping once. */
  lemma WrapIdempotent(parse: Parser, code: string)
    ensures Contains(WrapForReturn(parse, code), Marker) || WrapForReturn(parse, code) == code
    ensures WrapForReturn(parse, WrapForReturn(parse, code)) == WrapForReturn(parse, code)
  {
    if !Contains(code, Marker) && parse(code).Ok? && parse(code).value.lastExpression.Some? {
      var e := parse(code).value.lastExpression.value;
      PrintReturnMarked(WithoutLastLine(code) + "\n\n__result__ = " + e + "\nimport json as _json\n");
    }
  }

  /**
   * Code that ends in a newline keeps its whole last line: only the empty
   * piece after the final newline is dropped, so the last expression stays
   * in place ahead of the printed copy.
   */
  lemma WrapAfterTrailingNewline(parse: Parser, body: string, e: string)
    requires !Contains(body + "\n", Marker)
    requires parse(body + "\n").Ok? && parse(body + "\n").value.lastExpression == Some(e)
    ensures WrapForReturn(parse, body + "\n") == Wrapped(body, e)
  {
    var code := body + "\n";
    assert LastNewline(code) == Some(|body|);
    assert code[..|body|] == body;
  }

  // ---------------------------------------------------------------------------
  // Output

  /** Output past the limit is cut there and marked as truncated. */
  function Truncated(s: string, maxSize: nat): (r: string)
    ensures |s| <= maxSize ==> r == s
    ensures |s| > maxSize ==> r == s[..maxSize] + TruncationNote
    ensures |r| <= maxSize + |TruncationNote|
  {
    if |s| > maxSize then s[..maxSize] + TruncationNote else s
  }

  /** `line.split("__SANDBOX_RETURN__:")[1].strip()` loaded as JSON; a decoding error gives `None`. */
  function LineValue(loads: string -> Result<Json>, line: string): Json
    requires Contains(line, MarkerColon)
  {
    var pieces := SplitOn(line, MarkerColon);
    assert |pieces| >= 2;
    match loads(Strip(pieces[1]))
    case Ok(v) => v
    case Err(_) => JNull
  }

  /** The value behind the first marker line; the search stops there whether or not it decodes. */
  function FirstMarkerValue(loads: string -> Result<Json>, lines: seq<string>): (v: Json)
    ensures (forall k :: 0 <= k < |lines| ==> !Contains(lines[k], MarkerColon)) ==> v == JNull
    ensures forall k :: (0 <= k < |lines| && Contains(lines[k], MarkerColon)
      && (forall j :: 0 <= j < k ==> !Contains(lines[j], MarkerColon))) ==> v == LineValue(loads, lines[k])
  {
    if lines == [] then JNull
    else if Contains(lines[0], MarkerColon) then LineValue(loads, lines[0])
    else
      var v := FirstMarkerValue(loads, lines[1..]);
      assert forall k :: 1 <= k < |lines| ==> lines[k] == lines[1..][k - 1];
      v
  }

  /** `_extract_return_value`. */
  function ReturnValue(loads: string -> Result<Json>, stdout: string): Json {
    FirstMarkerValue(loads, SplitOn(stdout, "\n"))
  }

  /** `_extract_return_value`, scanning the lines of the output. */
  method ExtractReturnValue(loads: string -> Result<Json>, stdout: string) returns (v: Json)
    ensures v == ReturnValue(loads, stdout)
  {
    var lines := SplitOn(stdout, "\n");
    var i := 0;
    while i < |lines|
      invariant 0 <= i <= |lines|
      invariant FirstMarkerValue(loads, lines[i..]) == FirstMarkerValue(loads, lines)
    {
      assert lines[i..][1..] == lines[i + 1..];
      if Contains(lines[i], MarkerColon) {
        var pieces := SplitOn(lines[i], MarkerColon);
        var parsed := loads(Strip(pieces[1]));
        if parsed.Ok? {
          return parsed.value;
        }
        return JNull;
      }
      i := i + 1;
    }
    assert lines[i..] == [];
    return JNull;
  }

  /** The lines that do not hold the marker, in order. */
  function Unmarked(lines: seq<string>): (r: seq<string>)
    ensures forall k :: 0 <= k < |r| ==> !Contains(r[k], MarkerColon)
  {
    if lines == [] then []
    else if Contains(lines[0], MarkerColon) then Unmarked(lines[1..])
    else [lines[0]] + Unmarked(lines[1..])
  }

  /** The output with every marker line removed, then stripped. */
  function WithoutMarkers(stdout: string): string {
    Strip(Join(Unmarked(SplitOn(stdout, "\n")), "\n"))
  }

  /** Joining with newlines creates no occurrence of a newline-free pattern that no line holds. */
  lemma {:induction false} JoinNoOccurrence(lines: seq<string>, p: string)
    requires p != [] && forall k :: 0 <= k < |p| ==> p[k] != '\n'
    requires forall k :: 0 <= k < |lines| ==> !Contains(lines[k], p)
    ensures !Contains(Join(lines, "\n"), p)
    decreases |lines|
  {
    if |lines| == 1 {
    } else if |lines| > 1 {
      var x, tail := lines[0], lines[1..];
      assert forall k :: 0 <= k < |tail| ==> tail[k] == lines[k + 1];
      JoinNoOccurrence(tail, p);
      var rest := Join(tail, "\n");
      var text := x + "\n" + rest;
      assert Join(lines, "\n") == text;
      ContainsIff(x, p);
      ContainsIff(rest, p);
      var off := |x| + 1;
      assert text[off..] == rest;
      forall q: nat ensures !OccursAt(text, p, q) {
        if q + |p| <= |text| {
          if q + |p| <= |x| {
            assert text[q..q + |p|] == x[q..q + |p|];
            assert !OccursAt(x, p, q);
          } else if q > |x| {
            assert text[q..q + |p|] == text[off..][q - off..q - off + |p|];
            assert !OccursAt(rest, p, q - off);
          } else {
            assert text[q..q + |p|][|x| - q] == '\n' != p[|x| - q];
          }
        }
      }
      ContainsIff(text, p);
    }
  }

  /** Stripping keeps a slice, so it cannot create an occurrence. */
  lemma StripNoOccurrence(s: string, p: string)
    requires !Contains(s, p)
    ensures !Contains(Strip(s), p)
  {
    SliceNoOccurrence(s, p, StripBounds(s).0, StripBounds(s).1);
  }


  /** The cleaned output holds no marker. */
  lemma NoMarkerLeft(stdout: string)
    ensures !Contains(WithoutMarkers(stdout), MarkerColon)
  {
    var kept := Unmarked(SplitOn(stdout, "\n"));
    if kept == [] {
      assert Join(kept, "\n") == [];
      ContainsIff([], MarkerColon);
    } else {
      JoinNoOccurrence(kept, MarkerColon);
    }
    StripNoOccurrence(Join(kept, "\n"), MarkerColon);
  }

  // ---------------------------------------------------------------------------
  // One execution

  /** `execute`: the result of one run of `code`; `Screened` says whether it joins the history. */
  function Execution(config: ToolFactoryConfig, env: SandboxEnv, code: string, timeout: Option<real>,
                     captureReturn: bool): SandboxResult
  {
    var t := EffectiveTimeout(config, timeout);
    var error := SecurityCheck(config, env.parse, code);
    if !Screened(config, env.parse, code) then
      SandboxResult(false, "", error.value, JNull, 0.0, Some("SecurityError"), Some(error.value))
    else
      var source := if captureReturn then WrapForReturn(env.parse, code) else code;
      match env.run(source, t)
      case Expired =>
        SandboxResult(false, "", "Execution timed out after " + env.showSeconds(t) + " seconds", JNull, t,
                      Some("TimeoutError"), Some("Code execution exceeded " + env.showSeconds(t) + "s limit"))
      case Exited(rc, out, err, elapsed) =>
        var stdout := Truncated(out, config.maxOutputSize);
        var stderr := Truncated(err, config.maxOutputSize);
        var captured := captureReturn && Contains(stdout, MarkerColon);
        SandboxResult(rc == 0, if captured then WithoutMarkers(stdout) else stdout, stderr,
                      if captured then ReturnValue(env.loads, stdout) else JNull, elapsed,
                      if rc != 0 then Some("RuntimeError") else None, if rc != 0 then Some(stderr) else None)
  }

  /**
   * What every run reports: a rejected run fails with a security error and
   * never reaches the subprocess; a timed-out run fails after the timeout; a
   * finished run succeeds exactly when it exits with 0. Captured output is
   * bounded and, when the return value is captured, free of the marker.
   */
  lemma ExecutionFacts(config: ToolFactoryConfig, env: SandboxEnv, code: string, timeout: Option<real>, captureReturn: bool)
    ensures var r := Execution(config, env, code, timeout, captureReturn);
      && (!Screened(config, env.parse, code) ==>
            !r.success && r.errorType == Some("SecurityError") && r.stderr == SecurityCheck(config, env.parse, code).value)
      && (Screened(config, env.parse, code) ==>
            var source := if captureReturn then WrapForReturn(env.parse, code) else code;
            var t := EffectiveTimeout(config, timeout);
            && (env.run(source, t).Expired? ==> !r.success && r.errorType == Some("TimeoutError") && r.executionTime == t)
            && (env.run(source, t).Exited? ==>
                  && (r.success <==> env.run(source, t).returnCode == 0)
                  && (r.errorType == Some("RuntimeError") <==> !r.success)
                  && (!r.success ==> r.errorMessage == Some(r.stderr))
                  && |r.stderr| <= config.maxOutputSize + |TruncationNote|))
      && (captureReturn ==> !Contains(r.stdout, MarkerColon))
  {
    var r := Execution(config, env, code, timeout, captureReturn);
    if !Screened(config, env.parse, code) {
      ContainsIff("", MarkerColon);
    } else {
      var source := if captureReturn then WrapForReturn(env.parse, code) else code;
      var t := EffectiveTimeout(config, timeout);
      match env.run(source, t)
      case Expired =>
        ContainsIff("", MarkerColon);
      case Exited(rc, out, err, elapsed) =>
        var stdout := Truncated(out, config.maxOutputSize);
        if captureReturn && Contains(stdout, MarkerColon) {
          NoMarkerLeft(stdout);
        }
    }
  }

  // ---------------------------------------------------------------------------
  // Calling a function

  /** `repr(arg)` for each positional argument, joined by commas. */
  function ArgsRepr(printer: Printer, args: seq<Json>): string {
    Join(seq(|args|, i requires 0 <= i < |args| => printer.repr(args[i])), ", ")
  }

  /** `key=repr(value)` for each keyword argument, joined by commas. */
  function KwargsRepr(printer: Printer, kwargs: Object): string {
    Join(seq(|kwargs|, i requires 0 <= i < |kwargs| => kwargs[i].0 + "=" + printer.repr(kwargs[i].1)), ", ")
  }

  /** `", ".join(filter(None, [args_repr, kwargs_repr]))`. */
  function CallArgs(argsRepr: string, kwargsRepr: string): (r: string)
    ensures argsRepr == [] ==> r == kwargsRepr
    ensures kwargsRepr == [] ==> r == argsRepr
    ensures argsRepr != [] && kwargsRepr != [] ==> r == argsRepr + ", " + kwargsRepr
  {
    var present := (if argsRepr != [] then [argsRepr] else []) + (if kwargsRepr != [] then [kwargsRepr] else []);
    if argsRepr != [] && kwargsRepr != [] then
      assert present == [argsRepr] + [kwargsRepr];
      JoinCons(argsRepr, [kwargsRepr], ", ");
      Join(present, ", ")
    else
      Join(present, ", ")
  }

  /** The program `execute_function` runs: the definition, then the call with its value printed behind the marker. */
  function CallSource(printer: Printer, funcCode: string, funcName: string, args: seq<Json>, kwargs: Object): string {
    funcCode + "\n\n# Execute function\nimport json as _json\n__result__ = " + funcName + "("
      + CallArgs(ArgsRepr(printer, args), KwargsRepr(printer, kwargs)) + ")\n" + PrintReturn
  }

  /** A function call program already prints its value, so it runs without further wrapping. */
  lemma CallSourceUnwrapped(parse: Parser, printer: Printer, funcCode: string, funcName: string, args: seq<Json>, kwargs: Object)
    ensures WrapForReturn(parse, CallSource(printer, funcCode, funcName, args, kwargs))
      == CallSource(printer, funcCode, funcName, args, kwargs)
  {
    PrintReturnMarked(funcCode + "\n\n# Execute function\nimport json as _json\n__result__ = " + funcName + "("
      + CallArgs(ArgsRepr(printer, args), KwargsRepr(printer, kwargs)) + ")\n");
  }

  // ---------------------------------------------------------------------------
  // Test cases

  /** The program that runs test case `i` (zero-based) and prints whether it passed. */
  function TestSource(printer: Printer, code: string, i: nat, test: Object, functionName: string): string {
    TestCall(printer, code, i, test, functionName) + PrintVerdict
  }

  /** The test program up to the line that prints the verdict. */
  function TestCall(printer: Printer, code: string, i: nat, test: Object, functionName: string): string {
    code + "\n\n# Test case " + NatToString(i + 1) + "\nimport json as _json\n__input__ = "
      + printer.repr(GetOr(test, "input", JObj([]))) + "\n__expected__ = " + printer.repr(GetOr(test, "expected", JNull))
      + "\n\n# Call function\nif isinstance(__input__, dict):\n    __result__ = " + functionName
      + "(**__input__)\nelse:\n    __result__ = " + functionName + "(__input__)\n\n# Check result\n"
      + "__passed__ = __result__ == __expected__\n"
  }

  const PrintVerdict :=
    "print(f\"" + MarkerColon + "{_json.dumps({'passed': __passed__, 'result': __result__, 'expected': __expected__})}\")\n"

  /** Passed and failed counts with the per-case entries so far. */
  datatype Tally = Tally(passed: nat, failed: nat, results: seq<Json>)

  /**
   * The entry for one case's run: a successful run with a truthy return
   * value reports its `passed`, `result` and `expected`, and a return value
   * that is not a dictionary raises; any other run counts as failed.
   */
  function CaseEntry(run: SandboxResult, i: nat): (r: Result<(bool, Object)>)
    ensures r.Err? ==> run.success && Truthy(run.returnValue) && !run.returnValue.JObj?
    ensures r.Ok? && !(run.success && Truthy(run.returnValue)) ==> !r.value.0
  {
    var number := ("test_case", JInt(i + 1));
    if run.success && Truthy(run.returnValue) then
      match run.returnValue
      case JObj(o) =>
        var passed := GetOr(o, "passed", JBool(false));
        Ok((Truthy(passed), [number, ("passed", passed), ("result", GetOr(o, "result", JNull)),
                              ("expected", GetOr(o, "expected", JNull))]))
      case _ => Err("AttributeError: '" + TypeName(run.returnValue) + "' object has no attribute 'get'")
    else
      var error := if run.stderr != [] then JStr(run.stderr)
                   else if run.errorMessage.Some? then JStr(run.errorMessage.value) else JNull;
      Ok((false, [number, ("passed", JBool(false)), ("error", error)]))
  }

  function Tallied(t: Tally, passed: bool, entry: Object): Tally {
    Tally(t.passed + (if passed then 1 else 0), t.failed + (if passed then 0 else 1), t.results + [JObj(entry)])
  }

  /** The run of test case `i`, and whether `execute` records it. */
  function CaseRun(config: ToolFactoryConfig, env: SandboxEnv, code: string, tests: seq<Object>, functionName: string,
                   i: nat): (SandboxResult, bool)
    requires i < |tests|
  {
    var source := TestSource(env.printer, code, i, tests[i], functionName);
    (Execution(config, env, source, None, true), Screened(config, env.parse, source))
  }

  /** The runs of every test case. */
  function CaseRuns(config: ToolFactoryConfig, env: SandboxEnv, code: string, tests: seq<Object>,
                    functionName: string): (runs: seq<(SandboxResult, bool)>)
    ensures |runs| == |tests|
  {
    seq(|tests|, i requires 0 <= i < |tests| => CaseRun(config, env, code, tests, functionName, i))
  }

  /**
   * The test loop from case `i` on over the cases' runs, with the tally so
   * far: the final tally or the exception, and the runs it records.
   */
  function CasesFrom(runs: seq<(SandboxResult, bool)>, i: nat, tally: Tally): (Result<Tally>, seq<SandboxResult>)
    requires i <= |runs|
    decreases |runs| - i
  {
    if i == |runs| then (Ok(tally), [])
    else
      var recorded := if runs[i].1 then [runs[i].0] else [];
      match CaseEntry(runs[i].0, i)
      case Err(e) => (Err(e), recorded)
      case Ok(c) =>
        var next := CasesFrom(runs, i + 1, Tallied(tally, c.0, c.1));
        (next.0, recorded + next.1)
  }

  /** Runs recorded before a stretch of the test loop come first in the history. */
  function After(earlier: seq<SandboxResult>, outcome: (Result<Tally>, seq<SandboxResult>)): (Result<Tally>, seq<SandboxResult>) {
    (outcome.0, earlier + outcome.1)
  }

  lemma AfterNothing(outcome: (Result<Tally>, seq<SandboxResult>))
    ensures After([], outcome) == outcome
  {
    assert [] + outcome.1 == outcome.1;
  }

  lemma AfterDone(earlier: seq<SandboxResult>, tally: Tally)
    ensures After(earlier, (Ok(tally), [])) == (Ok(tally), earlier)
  {
    assert earlier + [] == earlier;
  }

  lemma AfterAfter(a: seq<SandboxResult>, b: seq<SandboxResult>, outcome: (Result<Tally>, seq<SandboxResult>))
    ensures After(a, After(b, outcome)) == After(a + b, outcome)
  {
    assert a + (b + outcome.1) == (a + b) + outcome.1;
  }

  /** The summary `test_code` returns. */
  function Report(t: Tally, total: nat): Object {
    [("passed", JInt(t.passed)), ("failed", JInt(t.failed)), ("total", JInt(total)),
     ("success_rate", JReal((t.passed as real) / (if total > 1 then total else 1) as real)),
     ("results", JArr(t.results))]
  }

  /** The test loop over given runs: the report or the exception, and the runs recorded. */
  function TestOutcome(runs: seq<(SandboxResult, bool)>): (Result<Object>, seq<SandboxResult>) {
    var r := CasesFrom(runs, 0, Tally(0, 0, []));
    (if r.0.Ok? then Ok(Report(r.0.value, |runs|)) else Err(r.0.error), r.1)
  }

  /** `test_code`: the test loop over the runs of the cases. */
  function TestRun(config: ToolFactoryConfig, env: SandboxEnv, code: string, tests: seq<Object>,
                   functionName: string): (Result<Object>, seq<SandboxResult>)
  {
    TestOutcome(CaseRuns(config, env, code, tests, functionName))
  }

  /** Every case is counted once, as passed or as failed, with one entry each. */
  lemma {:induction false} TallyTotals(runs: seq<(SandboxResult, bool)>, i: nat, tally: Tally)
    requires i <= |runs| && tally.passed + tally.failed == i == |tally.results|
    ensures var r := CasesFrom(runs, i, tally).0;
      r.Ok? ==> r.value.passed + r.value.failed == |runs| == |r.value.results|
    decreases |runs| - i
  {
    if i < |runs| {
      match CaseEntry(runs[i].0, i)
      case Err(e) =>
      case Ok(c) => TallyTotals(runs, i + 1, Tallied(tally, c.0, c.1));
    }
  }

  /** Only runs of the cases themselves are recorded, in order, at most one per case. */
  lemma {:induction false} RecordedRuns(runs: seq<(SandboxResult, bool)>, i: nat, tally: Tally)
    requires i <= |runs|
    ensures |CasesFrom(runs, i, tally).1| <= |runs| - i
    ensures forall r :: r in CasesFrom(runs, i, tally).1 ==> exists k :: i <= k < |runs| && runs[k] == (r, true)
    decreases |runs| - i
  {
    if i < |runs| {
      match CaseEntry(runs[i].0, i)
      case Err(e) =>
      case Ok(c) => RecordedRuns(runs, i + 1, Tallied(tally, c.0, c.1));
    }
  }

  /**
   * A test report counts every case once, and its success rate is the share of passed cases (0.0 when
   * there are none).
   */
  lemma TestReportFacts(runs: seq<(SandboxResult, bool)>)
    ensures var r := CasesFrom(runs, 0, Tally(0, 0, [])).0;
      r.Ok? ==> && TestOutcome(runs).0 == Ok(Report(r.value, |runs|))
                && r.value.passed + r.value.failed == |runs| == |r.value.results|
                && 0.0 <= (r.value.passed as real) / (if |runs| > 1 then |runs| else 1) as real <= 1.0
    ensures CasesFrom(runs, 0, Tally(0, 0, [])).0.Err? ==> TestOutcome(runs).0 == Err(CasesFrom(runs, 0, Tally(0, 0, [])).0.error)
  {
    TallyTotals(runs, 0, Tally(0, 0, []));
    var r := CasesFrom(runs, 0, Tally(0, 0, [])).0;
    if r.Ok? {
      var d := (if |runs| > 1 then |runs| else 1) as real;
      DivBetween(r.value.passed as real, d, 0.0, 1.0);
    }
  }

  /** Each test case's program prints behind the marker and so runs unwrapped. */
  lemma TestSourceUnwrapped(parse: Parser, printer: Printer, code: string, i: nat, test: Object, functionName: string)
    ensures WrapForReturn(parse, TestSource(printer, code, i, test, functionName)) == TestSource(printer, code, i, test, functionName)
  {
    MarkedAfter("print(f\"", "{_json.dumps({'passed': __passed__, 'result': __result__, 'expected': __expected__})}\")\n");
    ContainsConcat(TestCall(printer, code, i, test, functionName), PrintVerdict, Marker);
  }

  // ---------------------------------------------------------------------------
  // History statistics

  function Successes(history: seq<SandboxResult>): (n: nat)
    ensures n <= |history|
  {
    if history == [] then 0 else (if history[0].success then 1 else 0) + Successes(history[1..])
  }

  function Times(history: seq<SandboxResult>): (ts: seq<real>)
    ensures |ts| == |history| && forall k :: 0 <= k < |history| ==> ts[k] == history[k].executionTime
  {
    seq(|history|, k requires 0 <= k < |history| => history[k].executionTime)
  }

  /** `get_stats` over a history. */
  function Stats(history: seq<SandboxResult>): Object {
    if history == [] then
      [("total", JInt(0)), ("success_rate", JReal(0.0)), ("avg_execution_time", JReal(0.0))]
    else
      var total := |history|;
      var successes := Successes(history);
      [("total", JInt(total)), ("successes", JInt(successes)), ("failures", JInt(total - successes)),
       ("success_rate", JReal((successes as real) / (total as real))),
       ("avg_execution_time", JReal(Sum(Times(history)) / (total as real)))]
  }

  /**
   * For a non-empty history, successes and failures add up to the total, the
   * success rate is their share in [0, 1], and the average is the mean of the
   * recorded execution times.
   */
  lemma StatsFacts(history: seq<SandboxResult>)
    requires history != []
    ensures var s := Stats(history);
      && Get(s, "total") == Some(JInt(|history|))
      && s[1].1.JInt? && s[2].1.JInt? && s[1].1.i + s[2].1.i == |history| && 0 <= s[1].1.i
      && s[3].1.JReal? && 0.0 <= s[3].1.r <= 1.0 && s[3].1.r * (|history| as real) == s[1].1.i as real
      && s[4].1 == JReal(Mean(Times(history)))
  {
    var n := |history| as real;
    var k := Successes(history) as real;
    DivBetween(k, n, 0.0, 1.0);
    assert (k / n) * n == k;
  }

  // ---------------------------------------------------------------------------
  // The executor

  class SandboxExecutor {
    const config: ToolFactoryConfig
    var executionHistory: seq<SandboxResult>

    constructor (config: ToolFactoryConfig)
      ensures this.config == config && executionHistory == []
    {
      this.config := config;
      executionHistory := [];
    }

    /** `execute`: one screened, wrapped, timed run; recorded unless the screening rejects it. */
    method Execute(env: SandboxEnv, code: string, timeout: Option<real> := None, captureReturn: bool := true)
      returns (result: SandboxResult)
      modifies this
      ensures result == Execution(config, env, code, timeout, captureReturn)
      ensures executionHistory == old(executionHistory) + (if Screened(config, env.parse, code) then [result] else [])
    {
      var t := EffectiveTimeout(config, timeout);
      var validationError := ValidateCode(config, env.parse, code);
      if validationError.Some? && validationError.value != [] {
        return SandboxResult(false, "", validationError.value, JNull, 0.0, Some("SecurityError"), Some(validationError.value));
      }
      var source := code;
      if captureReturn {
        source := WrapForReturn(env.parse, code);
      }
      var process := env.run(source, t);
      if process.Expired? {
        result := SandboxResult(false, "", "Execution timed out after " + env.showSeconds(t) + " seconds", JNull, t,
                                Some("TimeoutError"), Some("Code execution exceeded " + env.showSeconds(t) + "s limit"));
      } else {
        var stdout, stderr := process.stdout, process.stderr;
        var maxSize := config.maxOutputSize;
        if |stdout| > maxSize {
          stdout := stdout[..maxSize] + TruncationNote;
        }
        if |stderr| > maxSize {
          stderr := stderr[..maxSize] + TruncationNote;
        }
        var returnValue := JNull;
        if captureReturn && Contains(stdout, MarkerColon) {
          returnValue := ExtractReturnValue(env.loads, stdout);
          stdout := WithoutMarkers(stdout);
        }
        var failed := process.returnCode != 0;
        result := SandboxResult(!failed, stdout, stderr, returnValue, process.elapsed,
                                if failed then Some("RuntimeError") else None, if failed then Some(stderr) else None);
      }
      executionHistory := executionHistory + [result];
    }

    /** `execute_function`: runs the definition followed by the call, capturing its value. */
    method ExecuteFunction(env: SandboxEnv, funcCode: string, funcName: string, args: seq<Json>, kwargs: Object,
                           timeout: Option<real> := None) returns (result: SandboxResult)
      modifies this
      ensures var source := CallSource(env.printer, funcCode, funcName, args, kwargs);
        && result == Execution(config, env, source, timeout, true)
        && executionHistory == old(executionHistory) + (if Screened(config, env.parse, source) then [result] else [])
    {
      var source := CallSource(env.printer, funcCode, funcName, args, kwargs);
      result := Execute(env, source, timeout, true);
    }

    /** Test case `i`'s run, recorded as `execute` records it, and its entry: one step of `CasesFrom`. */
    method RunCase(env: SandboxEnv, code: string, tests: seq<Object>, functionName: string, i: nat, tally: Tally,
                   ghost all: seq<(SandboxResult, bool)>)
      returns (entry: Result<(bool, Object)>, ghost recorded: seq<SandboxResult>)
      requires i < |tests| && all == CaseRuns(config, env, code, tests, functionName)
      modifies this
      ensures executionHistory == old(executionHistory) + recorded
      ensures entry.Err? ==> CasesFrom(all, i, tally) == (Err(entry.error), recorded)
      ensures entry.Ok? ==> CasesFrom(all, i, tally) == After(recorded, CasesFrom(all, i + 1, Tallied(tally, entry.value.0, entry.value.1)))
    {
      var source := TestSource(env.printer, code, i, tests[i], functionName);
      var result := Execute(env, source, None, true);
      assert all[i] == (result, Screened(config, env.parse, source));
      recorded := if all[i].1 then [result] else [];
      entry := CaseEntry(result, i);
    }

    /** The loop of `test_code`: one run per case, tallied, with the runs recorded as they happen. */
    method RunCases(env: SandboxEnv, code: string, tests: seq<Object>, functionName: string,
                    ghost all: seq<(SandboxResult, bool)>)
      returns (outcome: Result<Tally>, ghost runs: seq<SandboxResult>)
      requires all == CaseRuns(config, env, code, tests, functionName)
      modifies this
      ensures (outcome, runs) == CasesFrom(all, 0, Tally(0, 0, []))
      ensures executionHistory == old(executionHistory) + runs
    {
      ghost var goal := CasesFrom(all, 0, Tally(0, 0, []));
      runs := [];
      AfterNothing(goal);
      var tally := Tally(0, 0, []);
      var i := 0;
      while i < |tests|
        invariant 0 <= i <= |tests|
        invariant After(runs, CasesFrom(all, i, tally)) == goal
        invariant executionHistory == old(executionHistory) + runs
      {
        var entry, recorded := RunCase(env, code, tests, functionName, i, tally, all);
        AppendAssociates(old(executionHistory), runs, recorded);
        if entry.Err? {
          runs := runs + recorded;
          return Err(entry.error), runs;
        }
        var next := Tallied(tally, entry.value.0, entry.value.1);
        AfterAfter(runs, recorded, CasesFrom(all, i + 1, next));
        runs := runs + recorded;
        tally := next;
        i := i + 1;
      }
      AfterDone(runs, tally);
      return Ok(tally), runs;
    }

    /** `test_code`: the tally of every case's run, or the exception a malformed verdict raises. */
    method TestCode(env: SandboxEnv, code: string, tests: seq<Object>, functionName: string := "test_function")
      returns (report: Result<Object>)
      modifies this
      ensures report == TestRun(config, env, code, tests, functionName).0
      ensures executionHistory == old(executionHistory) + TestRun(config, env, code, tests, functionName).1
    {
      ghost var all := CaseRuns(config, env, code, tests, functionName);
      var outcome, runs := RunCases(env, code, tests, functionName, all);
      if outcome.Err? {
        return Err(outcome.error);
      }
      return Ok(Report(outcome.value, |tests|));
    }

    /** `get_stats`. */
    function GetStats(): (stats: Object)
      reads this
      ensures executionHistory == [] ==> Get(stats, "total") == Some(JInt(0))
      ensures executionHistory != [] ==> Get(stats, "total") == Some(JInt(|executionHistory|))
    {
      Stats(executionHistory)
    }

    /** `clear_history`. */
    method ClearHistory()
      modifies this
      ensures executionHistory == []
    {
      executionHistory := [];
    }
  }
}
