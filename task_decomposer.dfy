/**
 * Hierarchical task decomposition: a task that reads as several steps (or is
 * critical) is split into subtasks, by the language model when one is
 * configured and by fixed rules otherwise, and the subtasks are decomposed in
 * turn until they are atomic or the depth limit is reached.
 *
 * The language model's reply to a task and `json.loads` are inputs: the reply
 * is given as its text (an `Err` is an exception raised by the call), and
 * `loads` answers `None` where Python raises.
 */
module TaskDecomposition {
  import opened Wrappers
  import opened Strings
  import opened OrderedMaps
  import opened Json
  import opened Plugins

  datatype Strategy = Strategy(maxDepth: int, maxChildren: int, useLlm: bool, parallelExecution: bool)

  const DefaultStrategy := Strategy(3, 5, true, true)

  /** The decomposer's configuration and the services it calls. */
  datatype Decomposer = Decomposer(
    strategy: Strategy,
    gemini: Option<Task -> Result<string>>,
    loads: string -> Option<Json>)

  // ---------------------------------------------------------------------------
  // Identifiers, priorities and the decomposition test

  /** `_generate_task_id`: the parent id, a dot, and the one-based index. */
  function TaskId(parentId: string, index: int): string {
    parentId + "." + IntToString(index + 1)
  }

  /** Child ids extend the parent id, and distinct positions give distinct ids. */
  lemma TaskIdFacts(parentId: string, i: nat, j: nat)
    ensures StartsWith(TaskId(parentId, i), parentId + ".")
    ensures i != j ==> TaskId(parentId, i) != TaskId(parentId, j)
  {
    var a := parentId + ".";
    var x, y := NatToString(i + 1), NatToString(j + 1);
    assert TaskId(parentId, i) == a + x && TaskId(parentId, j) == a + y;
    assert (a + x)[..|a|] == a;
    if a + x == a + y {
      assert x == (a + x)[|a|..] == (a + y)[|a|..] == y;
      ParseNatToString(i + 1);
      ParseNatToString(j + 1);
    }
  }

  /** `_parse_priority`: low, medium, high or critical in any case; anything else is MEDIUM. */
  function ParsePriority(s: string): TaskPriority {
    var l := Lower(s);
    if l == "low" then Low
    else if l == "high" then High
    else if l == "critical" then Critical
    else Medium
  }

  function PriorityName(p: TaskPriority): string {
    match p
    case Low => "low"
    case Medium => "medium"
    case High => "high"
    case Critical => "critical"
  }

  /**
   * Parsing a priority's name gives the priority back, whatever the case of
   * the text, and an unknown name is MEDIUM.
   */
  lemma ParsePriorityFacts(p: TaskPriority, s: string)
    ensures ParsePriority(PriorityName(p)) == p
    ensures ParsePriority(s) == ParsePriority(Lower(s))
    ensures (forall q :: Lower(s) != PriorityName(q)) ==> ParsePriority(s) == Medium
  {
    NameParses(p);
    LowerIdempotent(s);
    if forall q :: Lower(s) != PriorityName(q) {
      assert Lower(s) != PriorityName(Low) && Lower(s) != PriorityName(High) && Lower(s) != PriorityName(Critical);
    }
  }

  lemma NameParses(p: TaskPriority)
    ensures ParsePriority(PriorityName(p)) == p
  {
    var name := PriorityName(p);
    LowerOfLower(name);
    assert Lower(name) == name;
  }

  lemma LowerOfLower(s: string)
    requires forall i :: 0 <= i < |s| ==> !('A' <= s[i] <= 'Z')
    ensures Lower(s) == s
  {
  }

  const Indicators: seq<string> := ["and", "then", "after", "before", "while"]

  /** `_needs_decomposition`: a multi-step word inside the lower-cased description, or CRITICAL priority. */
  predicate NeedsDecomposition(t: Task) {
    (exists k :: 0 <= k < |Indicators| && Contains(Lower(t.description), Indicators[k])) || t.priority == Critical
  }

  /** The test ignores case, and a CRITICAL task always needs splitting. */
  lemma NeedsDecompositionFacts(t: Task)
    ensures NeedsDecomposition(t) <==> NeedsDecomposition(t.(description := Lower(t.description)))
    ensures t.priority == Critical ==> NeedsDecomposition(t)
  {
    LowerIdempotent(t.description);
  }

  /** An indicator counts inside a longer word: "and" in "Handle" makes "Handle alerts" a split candidate. */
  lemma NeedsDecompositionExample(t: Task)
    requires t.description == "Handle alerts"
    ensures NeedsDecomposition(t)
  {
    var l := Lower(t.description);
    assert l[1] == 'a' && l[2] == 'n' && l[3] == 'd';
    assert l[1..4] == Indicators[0];
    assert OccursAt(l, Indicators[0], 1);
    ContainsIff(l, Indicators[0]);
  }

  /** A one-word, non-critical description needs no splitting. */
  lemma NoIndicatorExample(t: Task)
    requires t.description == "Deploy" && t.priority != Critical
    ensures !NeedsDecomposition(t)
  {
    var l := Lower(t.description);
    assert l == "deploy" by {
      LowerOfLower("deploy");
    }
    forall k | 0 <= k < |Indicators| ensures !Contains(l, Indicators[k]) {
      AbsentFirstChar(l, Indicators[k]);
    }
  }

  /** A pattern whose first character the string lacks does not occur in it. */
  lemma AbsentFirstChar(s: string, p: string)
    requires p != [] && forall i :: 0 <= i < |s| ==> s[i] != p[0]
    ensures !Contains(s, p)
  {
    ContainsIff(s, p);
    forall i: nat ensures !OccursAt(s, p, i) {
      if i + |p| <= |s| {
        assert s[i..i + |p|][0] == s[i];
      }
    }
  }

  // ---------------------------------------------------------------------------
  // Rule-based decomposition

  function Subtask(parent: Task, id: string, taskType: string, description: string, dependencies: seq<string>, isAtomic: bool := false): Task {
    Task(id, taskType, description, parent.context, parent.priority, isAtomic, dependencies)
  }

  /** `_decompose_infrastructure_task`: monitor, analyse, plan, execute, in a chain. */
  function Infrastructure(t: Task): seq<Task> {
    var b := t.taskId;
    [ Subtask(t, b + ".1", "monitoring", "Monitor current system state", []),
      Subtask(t, b + ".2", "analysis", "Analyze metrics and identify issues", [b + ".1"]),
      Subtask(t, b + ".3", "planning", "Generate action plan", [b + ".2"]),
      Subtask(t, b + ".4", "execution", "Execute infrastructure changes", [b + ".3"], true) ]
  }

  /** `_decompose_intelligence_task`: collect, then analyse. */
  function Intelligence(t: Task): seq<Task> {
    var b := t.taskId;
    [ Subtask(t, b + ".1", "collection", "Collect intelligence data", []),
      Subtask(t, b + ".2", "analysis", "Analyze collected data", [b + ".1"], true) ]
  }

  /** `_rule_based_decompose`. */
  function RuleBased(t: Task): seq<Task> {
    if t.taskType == "infrastructure" then Infrastructure(t)
    else if t.taskType == "intelligence" then Intelligence(t)
    else
      [ Subtask(t, TaskId(t.taskId, 0), t.taskType, "Analyze: " + t.description, []),
        Subtask(t, TaskId(t.taskId, 1), t.taskType, "Execute: " + t.description, [TaskId(t.taskId, 0)]) ]
  }

  /**
   * The rules give four, two or two subtasks numbered from 1, each depending
   * on the one before, all with the parent's context and priority; only the
   * last of an infrastructure or intelligence split is atomic.
   */
  lemma RuleBasedShape(t: Task)
    ensures var r := RuleBased(t);
      && |r| == (if t.taskType == "infrastructure" then 4 else 2)
      && Chained(t, r, t.taskType in ["infrastructure", "intelligence"])
      && (t.taskType == "infrastructure" ==> Types(r) == ["monitoring", "analysis", "planning", "execution"])
      && (t.taskType == "intelligence" ==> Types(r) == ["collection", "analysis"])
      && (t.taskType !in ["infrastructure", "intelligence"] ==>
            r[0].description == "Analyze: " + t.description && r[1].description == "Execute: " + t.description)
  {
    var r := RuleBased(t);
    if t.taskType == "infrastructure" {
      InfrastructureChained(t);
    } else if t.taskType == "intelligence" {
      IntelligenceChained(t);
    } else {
      assert Chained(t, r, false);
    }
  }

  /**
   * Subtask `i` is numbered `i + 1` under the parent, depends on subtask
   * `i - 1` alone, inherits the parent's context and priority, and is atomic
   * exactly when it is the last one and `lastAtomic` holds.
   */
  ghost predicate Chained(t: Task, r: seq<Task>, lastAtomic: bool) {
    forall i :: 0 <= i < |r| ==>
      && r[i].taskId == TaskId(t.taskId, i)
      && r[i].dependencies == (if i == 0 then [] else [TaskId(t.taskId, i - 1)])
      && r[i].context == t.context && r[i].priority == t.priority
      && (r[i].isAtomic <==> i == |r| - 1 && lastAtomic)
  }

  lemma InfrastructureChained(t: Task)
    ensures Chained(t, Infrastructure(t), true)
  {
    FirstTaskIds(t.taskId);
    assert TaskId(t.taskId, 3) == t.taskId + ".4" by {
      assert IntToString(4) == "4";
    }
  }

  lemma IntelligenceChained(t: Task)
    ensures Chained(t, Intelligence(t), true)
  {
    FirstTaskIds(t.taskId);
  }

  lemma FirstTaskIds(b: string)
    ensures TaskId(b, 0) == b + ".1" && TaskId(b, 1) == b + ".2" && TaskId(b, 2) == b + ".3"
  {
    assert IntToString(1) == "1" && IntToString(2) == "2" && IntToString(3) == "3";
  }

  function Types(ts: seq<Task>): seq<string> {
    seq(|ts|, i requires 0 <= i < |ts| => ts[i].taskType)
  }

  // ---------------------------------------------------------------------------
  // Decomposition by the language model

  /** The text inside a "```json" fence when there is one, stripped; the whole text otherwise. */
  function CleanReply(text: string): string {
    if Contains(text, "```json") then Strip(SplitOn(SplitOn(text, "```json")[1], "```")[0]) else text
  }

  /** `_parse_llm_response`: whatever `json.loads` makes of the cleaned text, `[]` when it raises. */
  function ParseLlmResponse(loads: string -> Option<Json>, text: string): Json {
    match loads(CleanReply(text))
    case None => JArr([])
    case Some(j) => j
  }

  /** `dep_idx + 1` is defined for integers and booleans. */
  function NumericIndex(j: Json): Option<int> {
    match j
    case JInt(n) => Some(n)
    case JBool(b) => Some(if b then 1 else 0)
    case _ => None
  }

  /** The dependency ids of a subtask, from the indices the model gave. */
  function IdsOf(parentId: string, xs: seq<Json>): (r: Option<seq<string>>)
    ensures r.Some? <==> forall k :: 0 <= k < |xs| ==> NumericIndex(xs[k]).Some?
    ensures r.Some? ==> |r.value| == |xs| && forall k :: 0 <= k < |xs| ==> r.value[k] == TaskId(parentId, NumericIndex(xs[k]).value)
  {
    if xs == [] then Some([])
    else
      var n := NumericIndex(xs[0]);
      var rest := IdsOf(parentId, xs[1..]);
      assert forall k :: 0 <= k < |xs| - 1 ==> xs[1..][k] == xs[k + 1];
      if n.None? || rest.None? then None else Some([TaskId(parentId, n.value)] + rest.value)
  }

  function DependencyIds(parentId: string, deps: Json): Option<seq<string>> {
    match Iterated(deps)
    case Err(_) => None
    case Ok(xs) => IdsOf(parentId, xs)
  }

  /**
   * One subtask of the model's answer, at position `i`: a dict with a string
   * description, an optional string type (the parent's by default), an
   * optional priority string ("medium" by default) and optional dependency
   * indices. `None` where building it raises.
   */
  function SubtaskFrom(parent: Task, i: nat, data: Json): (r: Option<Task>)
    ensures r.Some? ==>
      && data.JObj?
      && r.value.taskId == TaskId(parent.taskId, i)
      && r.value.context == parent.context && !r.value.isAtomic
      && JStr(r.value.description) == GetOr(data.fields, "description", JNull)
      && JStr(r.value.taskType) == GetOr(data.fields, "type", JStr(parent.taskType))
      && Some(r.value.dependencies) == DependencyIds(parent.taskId, GetOr(data.fields, "dependencies", JArr([])))
    ensures !data.JObj? || !HasKey(data.fields, "description") ==> r.None?
  {
    if !data.JObj? then None
    else
      var f := data.fields;
      var ty := GetOr(f, "type", JStr(parent.taskType));
      var desc := GetOr(f, "description", JNull);
      var pr := GetOr(f, "priority", JStr("medium"));
      var deps := DependencyIds(parent.taskId, GetOr(f, "dependencies", JArr([])));
      if !ty.JStr? || !HasKey(f, "description") || !desc.JStr? || !pr.JStr? || deps.None? then None
      else Some(Task(TaskId(parent.taskId, i), ty.s, desc.s, parent.context, ParsePriority(pr.s), false, deps.value))
  }

  /** `f` applied at every position, or `None` as soon as one application fails. */
  function TryMap<A, B>(f: (nat, A) -> Option<B>, xs: seq<A>): Option<seq<B>> {
    if xs == [] then Some([])
    else
      match TryMap(f, xs[..|xs| - 1])
      case None => None
      case Some(ys) =>
        match f(|xs| - 1, xs[|xs| - 1])
        case None => None
        case Some(y) => Some(ys + [y])
  }

  lemma {:induction false} TryMapFacts<A, B>(f: (nat, A) -> Option<B>, xs: seq<A>)
    ensures var r := TryMap(f, xs);
      && (r.Some? <==> forall i :: 0 <= i < |xs| ==> f(i, xs[i]).Some?)
      && (r.Some? ==> |r.value| == |xs| && forall i :: 0 <= i < |xs| ==> f(i, xs[i]) == Some(r.value[i]))
  {
    if xs != [] {
      var init := xs[..|xs| - 1];
      TryMapFacts(f, init);
      assert forall i :: 0 <= i < |init| ==> xs[i] == init[i];
    }
  }

  /** All subtasks of the answer, or `None` when one of them raises. */
  function ConvertAll(parent: Task, items: seq<Json>): Option<seq<Task>> {
    TryMap((i: nat, data: Json) => SubtaskFrom(parent, i, data), items)
  }

  /** The answer converts exactly when every item does, and the i-th subtask comes from the i-th item. */
  lemma ConvertAllFacts(parent: Task, items: seq<Json>)
    ensures var r := ConvertAll(parent, items);
      && (r.Some? <==> forall i :: 0 <= i < |items| ==> SubtaskFrom(parent, i, items[i]).Some?)
      && (r.Some? ==> |r.value| == |items| && forall i :: 0 <= i < |items| ==> SubtaskFrom(parent, i, items[i]) == Some(r.value[i]))
  {
    TryMapFacts((i: nat, data: Json) => SubtaskFrom(parent, i, data), items);
  }

  /** `_llm_decompose`: the model's subtasks, or the rules when calling it or building a subtask raises. */
  function LlmSubtasks(d: Decomposer, t: Task): seq<Task>
    requires d.gemini.Some?
  {
    match d.gemini.value(t)
    case Err(_) => RuleBased(t)
    case Ok(reply) =>
      match Iterated(ParseLlmResponse(d.loads, reply))
      case Err(_) => RuleBased(t)
      case Ok(items) =>
        match ConvertAll(t, items)
        case None => RuleBased(t)
        case Some(ts) => ts
  }

  /** The subtasks `decompose` splits a task into. */
  function Split(d: Decomposer, t: Task): seq<Task> {
    if d.strategy.useLlm && d.gemini.Some? then LlmSubtasks(d, t) else RuleBased(t)
  }

  /** A failing call or an answer that cannot be iterated gives the rules' split; an unparsable answer gives none. */
  lemma LlmFallback(d: Decomposer, t: Task)
    requires d.gemini.Some?
    ensures d.gemini.value(t).Err? ==> LlmSubtasks(d, t) == RuleBased(t)
    ensures d.gemini.value(t).Ok? && Iterated(ParseLlmResponse(d.loads, d.gemini.value(t).value)).Err? ==>
      LlmSubtasks(d, t) == RuleBased(t)
    ensures d.gemini.value(t).Ok? && d.loads(CleanReply(d.gemini.value(t).value)).None? ==> LlmSubtasks(d, t) == []
  {
  }

  /**
   * When the answer iterates to `items`, the subtasks are built from the items
   * position by position, unless one of them raises, which gives the rules' split.
   */
  lemma LlmAnswerUsed(d: Decomposer, t: Task, items: seq<Json>)
    requires d.gemini.Some? && d.gemini.value(t).Ok?
    requires Iterated(ParseLlmResponse(d.loads, d.gemini.value(t).value)) == Ok(items)
    ensures (forall i :: 0 <= i < |items| ==> SubtaskFrom(t, i, items[i]).Some?) ==>
      |LlmSubtasks(d, t)| == |items| && forall i :: 0 <= i < |items| ==> SubtaskFrom(t, i, items[i]) == Some(LlmSubtasks(d, t)[i])
    ensures (exists i :: 0 <= i < |items| && SubtaskFrom(t, i, items[i]).None?) ==> LlmSubtasks(d, t) == RuleBased(t)
  {
    ConvertAllFacts(t, items);
  }

  /** Every subtask id extends the parent's id and a dot. */
  lemma SplitIds(d: Decomposer, t: Task, i: nat)
    requires i < |Split(d, t)|
    ensures StartsWith(Split(d, t)[i].taskId, t.taskId + ".")
  {
    RuleBasedShape(t);
    TaskIdFacts(t.taskId, i, i);
    if d.strategy.useLlm && d.gemini.Some? {
      var reply := d.gemini.value(t);
      if reply.Ok? {
        var data := Iterated(ParseLlmResponse(d.loads, reply.value));
        if data.Ok? {
          ConvertAllFacts(t, data.value);
        }
      }
    }
  }

  // ---------------------------------------------------------------------------
  // Recursive decomposition

  /** How many more levels may be split below `depth`. */
  function Bound(d: Decomposer, depth: int): nat {
    if depth >= d.strategy.maxDepth then 0 else d.strategy.maxDepth - depth
  }

  /** `decompose(task, depth)`: the atomic tasks of the decomposition tree, left to right. */
  function Decomposed(d: Decomposer, t: Task, depth: int): seq<Task>
    decreases Bound(d, depth), 0, 0
  {
    if t.isAtomic || depth >= d.strategy.maxDepth then [t]
    else if !NeedsDecomposition(t) then [t.(isAtomic := true)]
    else DecomposedAll(d, Split(d, t), depth + 1)
  }

  /** The decompositions of `subtasks`, concatenated in order. */
  function DecomposedAll(d: Decomposer, subtasks: seq<Task>, depth: int): seq<Task>
    decreases Bound(d, depth), 1, |subtasks|
  {
    if subtasks == [] then [] else Decomposed(d, subtasks[0], depth) + DecomposedAll(d, subtasks[1..], depth)
  }

  /** A child id has exactly one dot more than its parent's id. */
  lemma TaskIdDots(parentId: string, i: nat)
    ensures Count(TaskId(parentId, i), '.') == Count(parentId, '.') + 1
  {
    var digits := NatToString(i + 1);
    assert TaskId(parentId, i) == parentId + ("." + digits);
    CountConcat(parentId, "." + digits, '.');
    assert ("." + digits)[1..] == digits;
    CountNone(digits, '.');
  }

  /** Subtask `i` of a split is numbered `i + 1` under the task, whichever way it was split. */
  lemma SplitIdIs(d: Decomposer, t: Task, i: nat)
    requires i < |Split(d, t)|
    ensures Split(d, t)[i].taskId == TaskId(t.taskId, i)
  {
    RuleBasedShape(t);
    if d.strategy.useLlm && d.gemini.Some? {
      var reply := d.gemini.value(t);
      if reply.Ok? {
        var data := Iterated(ParseLlmResponse(d.loads, reply.value));
        if data.Ok? {
          ConvertAllFacts(t, data.value);
        }
      }
    }
  }

  /**
   * Every task `decompose` returns is atomic, or was cut off at the depth
   * limit: its id sits exactly `max_depth - depth` levels below the task's id.
   */
  lemma {:induction false} DecomposedLevels(d: Decomposer, t: Task, depth: int)
    ensures forall r :: r in Decomposed(d, t, depth) ==>
      r.isAtomic || Count(r.taskId, '.') == Count(t.taskId, '.') + Bound(d, depth)
    decreases Bound(d, depth), 0, 0
  {
    if !t.isAtomic && depth < d.strategy.maxDepth && NeedsDecomposition(t) {
      var subs := Split(d, t);
      forall i | 0 <= i < |subs| ensures Count(subs[i].taskId, '.') == Count(t.taskId, '.') + 1 {
        SplitIdIs(d, t, i);
        TaskIdDots(t.taskId, i);
      }
      DecomposedAllLevels(d, subs, depth + 1, Count(t.taskId, '.') + 1);
    }
  }

  lemma {:induction false} DecomposedAllLevels(d: Decomposer, subtasks: seq<Task>, depth: int, dots: nat)
    requires forall i :: 0 <= i < |subtasks| ==> Count(subtasks[i].taskId, '.') == dots
    ensures forall r :: r in DecomposedAll(d, subtasks, depth) ==> r.isAtomic || Count(r.taskId, '.') == dots + Bound(d, depth)
    decreases Bound(d, depth), 1, |subtasks|
  {
    if subtasks != [] {
      DecomposedLevels(d, subtasks[0], depth);
      DecomposedAllLevels(d, subtasks[1..], depth, dots);
    }
  }

  /** Without the model, every task decomposes into at least one task. */
  lemma {:induction false} RulesNeverEmpty(d: Decomposer, t: Task, depth: int)
    requires !d.strategy.useLlm || d.gemini.None?
    ensures Decomposed(d, t, depth) != []
    decreases Bound(d, depth)
  {
    if !t.isAtomic && depth < d.strategy.maxDepth && NeedsDecomposition(t) {
      var subs := RuleBased(t);
      RuleBasedShape(t);
      RulesNeverEmpty(d, subs[0], depth + 1);
    }
  }

  /** With the model, an unparsable answer yields no subtasks, so the task disappears. */
  lemma UnparsableAnswerYieldsNothing(d: Decomposer, t: Task, depth: int)
    requires d.strategy.useLlm && d.gemini.Some? && d.gemini.value(t).Ok?
    requires d.loads(CleanReply(d.gemini.value(t).value)).None?
    requires !t.isAtomic && depth < d.strategy.maxDepth && NeedsDecomposition(t)
    ensures Decomposed(d, t, depth) == []
  {
    LlmFallback(d, t);
  }

  /** Every task of a decomposition carries an id that extends the original task's id. */
  lemma {:induction false} DecomposedIds(d: Decomposer, t: Task, depth: int)
    ensures forall r :: r in Decomposed(d, t, depth) ==> StartsWith(r.taskId, t.taskId)
    decreases Bound(d, depth), 0, 0
  {
    if !t.isAtomic && depth < d.strategy.maxDepth && NeedsDecomposition(t) {
      var subs := Split(d, t);
      forall i | 0 <= i < |subs| ensures StartsWith(subs[i].taskId, t.taskId) {
        SplitIds(d, t, i);
        assert StartsWith(t.taskId + ".", t.taskId);
        StartsWithTrans(subs[i].taskId, t.taskId + ".", t.taskId);
      }
      DecomposedAllIds(d, subs, depth + 1, t.taskId);
    }
  }

  lemma {:induction false} DecomposedAllIds(d: Decomposer, subtasks: seq<Task>, depth: int, prefix: string)
    requires forall i :: 0 <= i < |subtasks| ==> StartsWith(subtasks[i].taskId, prefix)
    ensures forall r :: r in DecomposedAll(d, subtasks, depth) ==> StartsWith(r.taskId, prefix)
    decreases Bound(d, depth), 1, |subtasks|
  {
    if subtasks != [] {
      DecomposedIds(d, subtasks[0], depth);
      forall r | r in Decomposed(d, subtasks[0], depth) ensures StartsWith(r.taskId, prefix) {
        StartsWithTrans(r.taskId, subtasks[0].taskId, prefix);
      }
      DecomposedAllIds(d, subtasks[1..], depth, prefix);
    }
  }

  // ---------------------------------------------------------------------------
  // The decomposer's operations

  /** `_llm_decompose`: ask the model, build its subtasks, fall back to the rules on any error. */
  method LlmDecompose(d: Decomposer, t: Task) returns (subtasks: seq<Task>)
    requires d.gemini.Some?
    ensures subtasks == LlmSubtasks(d, t)
  {
    var reply := d.gemini.value(t);
    if reply.Err? {
      return RuleBased(t);
    }
    var data := Iterated(ParseLlmResponse(d.loads, reply.value));
    if data.Err? {
      return RuleBased(t);
    }
    var built := BuildSubtasks(t, data.value);
    if built.None? {
      return RuleBased(t);
    }
    return built.value;
  }

  /** The loop of `_llm_decompose` that turns each item of the answer into a subtask. */
  method BuildSubtasks(t: Task, items: seq<Json>) returns (r: Option<seq<Task>>)
    ensures r == ConvertAll(t, items)
  {
    var subtasks := [];
    var i := 0;
    while i < |items|
      invariant 0 <= i <= |items|
      invariant ConvertAll(t, items[..i]) == Some(subtasks)
    {
      assert items[..i + 1][..i] == items[..i];
      var subtask := SubtaskFrom(t, i, items[i]);
      if subtask.None? {
        ConvertAllFacts(t, items);
        return None;
      }
      subtasks := subtasks + [subtask.value];
      i := i + 1;
    }
    assert items[..|items|] == items;
    return Some(subtasks);
  }

  /** `decompose`: recursive, extending the list of atomic tasks subtask by subtask. */
  method Decompose(d: Decomposer, t: Task, depth: int := 0) returns (tasks: seq<Task>)
    ensures tasks == Decomposed(d, t, depth)
    decreases Bound(d, depth), 0
  {
    if t.isAtomic || depth >= d.strategy.maxDepth {
      return [t];
    }
    if !NeedsDecomposition(t) {
      return [t.(isAtomic := true)];
    }
    var subtasks: seq<Task>;
    if d.strategy.useLlm && d.gemini.Some? {
      subtasks := LlmDecompose(d, t);
    } else {
      subtasks := RuleBased(t);
    }
    tasks := DecomposeEach(d, subtasks, depth + 1);
  }

  /** The loop of `decompose` over the subtasks, each decomposed one level deeper. */
  method DecomposeEach(d: Decomposer, subtasks: seq<Task>, depth: int) returns (tasks: seq<Task>)
    ensures tasks == DecomposedAll(d, subtasks, depth)
    decreases Bound(d, depth), 1
  {
    tasks := [];
    var i := 0;
    while i < |subtasks|
      invariant 0 <= i <= |subtasks|
      invariant tasks + DecomposedAll(d, subtasks[i..], depth) == DecomposedAll(d, subtasks, depth)
    {
      DecomposedAllAt(d, subtasks, i, depth);
      var atomic := Decompose(d, subtasks[i], depth);
      AppendAssociates(tasks, atomic, DecomposedAll(d, subtasks[i + 1..], depth));
      tasks := tasks + atomic;
      i := i + 1;
    }
  }

  lemma DecomposedAllAt(d: Decomposer, subtasks: seq<Task>, i: nat, depth: int)
    requires i < |subtasks|
    ensures DecomposedAll(d, subtasks[i..], depth) == Decomposed(d, subtasks[i], depth) + DecomposedAll(d, subtasks[i + 1..], depth)
  {
    assert subtasks[i..][1..] == subtasks[i + 1..];
  }
}
