/**
 * The mission orchestrator: an atomic mission (or one at the depth limit)
 * goes to the best agent; any other mission is decomposed, its subtasks are
 * run in dependency rounds, and their results are synthesised into one.
 *
 * The agents' `execute`, the wall clock and the choice made by `select_agent`'s
 * `can_handle`/`health_check` calls are inputs (an `Env`). The registry's
 * state is threaded through the specification as its snapshot.
 */
module Orchestration {
  import opened Wrappers
  import opened Strings
  import opened OrderedMaps
  import opened Json
  import opened Averages
  import opened Plugins
  import opened AgentRegistries
  import opened TaskDecomposition

  /** How an agent's `execute` ended: a result after some milliseconds, the timeout, or an exception. */
  datatype Outcome = Finished(result: TaskResult, elapsedMs: int) | TimedOut | Raised(message: string)

  /** The world the orchestrator runs in. `elapsedMs(mission, depth)` is the wall time one mission took. */
  datatype Env = Env(
    canHandle: (Agent, Task) -> Result<bool>,
    health: Agent -> Result<Object>,
    execute: (Agent, Task) -> Outcome,
    elapsedMs: (Task, int) -> int)

  datatype Config = Config(decomposer: Decomposer, maxDepth: int, timeoutSeconds: int)

  /** What a run of the scheduler leaves: the results by task id, the registry, the tasks run, and the rounds. */
  datatype Run = Run(results: Dict<string, TaskResult>, view: Dict<string, Entry>, executed: seq<Task>, rounds: nat)

  /** A FAILED result with no output. */
  function Failure(taskId: string, reasoning: string, errors: seq<string>): (r: TaskResult)
    ensures r.taskId == taskId && r.status == Failed && r.output == [] && r.reasoning == reasoning && r.errors == errors
  {
    NewTaskResult(taskId, Failed, [], reasoning, errors := Some(errors))
  }

  // ---------------------------------------------------------------------------
  // Atomic tasks

  /** `_execute_atomic_task` on a snapshot of the registry: the result and the registry afterwards. */
  function Atomic(cfg: Config, env: Env, view: Dict<string, Entry>, task: Task): (TaskResult, Dict<string, Entry>) {
    match Selected(view, task, env.canHandle, env.health)
    case None => (Failure(task.taskId, "No suitable agent found for this task", ["Agent selection failed"]), view)
    case Some(agent) => RunBy(cfg, env, view, task, agent)
  }

  /** The selected agent runs the task; its outcome and duration go into its statistics. */
  function RunBy(cfg: Config, env: Env, view: Dict<string, Entry>, task: Task, agent: Agent): (TaskResult, Dict<string, Entry>) {
    match env.execute(agent, task)
    case Finished(result, ms) => (result, RecordStats(view, agent.name, result.status == Completed, ms))
    case TimedOut =>
      (Failure(task.taskId, "Agent " + agent.name + " timed out", ["Execution timeout"]),
       RecordStats(view, agent.name, false, cfg.timeoutSeconds * 1000))
    case Raised(msg) =>
      (Failure(task.taskId, "Agent execution failed: " + msg, [msg]), RecordStats(view, agent.name, false, 0))
  }

  // ---------------------------------------------------------------------------
  // Missions and the dependency scheduler

  /** How many more levels of missions may be decomposed below `depth`. */
  function Levels(cfg: Config, depth: int): nat {
    if depth >= cfg.maxDepth then 0 else cfg.maxDepth - depth
  }

  /** `execute_mission`: the result, timed, and the registry afterwards. */
  function Mission(cfg: Config, env: Env, view: Dict<string, Entry>, mission: Task, depth: int): (TaskResult, Dict<string, Entry>)
    decreases Levels(cfg, depth), 0, 0
  {
    var (result, after) :=
      if mission.isAtomic || depth >= cfg.maxDepth then Atomic(cfg, env, view, mission)
      else
        var run := Schedule(cfg, env, view, Decomposed(cfg.decomposer, mission, 0), depth + 1);
        (Synthesize(mission, run.results), run.view);
    (result.(executionTimeMs := env.elapsedMs(mission, depth)), after)
  }

  /** Every pending task is stored under its own id. */
  predicate KeyedById(pending: Dict<string, Task>) {
    forall p :: p in pending ==> p.0 == p.1.taskId
  }

  /** `{task.task_id: task for task in tasks}`: a later task with the same id replaces an earlier one in place. */
  function PendingOf(tasks: seq<Task>): (pending: Dict<string, Task>)
    ensures KeyedById(pending) && DistinctKeys(pending) && |pending| <= |tasks|
    ensures forall p :: p in pending ==> p.1 in tasks
    ensures forall t :: t in tasks ==> HasKey(pending, t.taskId)
  {
    if tasks == [] then []
    else
      var init := tasks[..|tasks| - 1];
      var last := tasks[|tasks| - 1];
      var before := PendingOf(init);
      PendingPut(before, tasks);
      Put(before, last.taskId, last)
  }

  lemma PendingPut(before: Dict<string, Task>, tasks: seq<Task>)
    requires tasks != []
    requires var init := tasks[..|tasks| - 1];
      && KeyedById(before) && DistinctKeys(before) && |before| <= |init|
      && (forall p :: p in before ==> p.1 in init)
      && (forall t :: t in init ==> HasKey(before, t.taskId))
    ensures var last := tasks[|tasks| - 1];
      var r := Put(before, last.taskId, last);
      && KeyedById(r) && DistinctKeys(r) && |r| <= |tasks|
      && (forall p :: p in r ==> p.1 in tasks)
      && (forall t :: t in tasks ==> HasKey(r, t.taskId))
  {
    var init, last := tasks[..|tasks| - 1], tasks[|tasks| - 1];
    assert tasks == init + [last];
    PutMembers(before, last.taskId, last);
    PutGet(before, last.taskId, last, last.taskId);
    forall t | t in init ensures HasKey(Put(before, last.taskId, last), t.taskId) {
      PutGet(before, last.taskId, last, t.taskId);
    }
  }

  /** `all(dep_id in results for dep_id in task.dependencies)`. */
  predicate DepsMet(task: Task, results: Dict<string, TaskResult>) {
    forall dep :: dep in task.dependencies ==> HasKey(results, dep)
  }

  /** The pending tasks whose dependencies all have results, in pending order. */
  function ReadyOf(pending: Dict<string, Task>, results: Dict<string, TaskResult>): (ready: seq<Task>)
    ensures |ready| <= |pending|
  {
    if pending == [] then []
    else
      var last := pending[|pending| - 1].1;
      ReadyOf(pending[..|pending| - 1], results) + (if DepsMet(last, results) then [last] else [])
  }

  /** `asyncio.gather` over the ready tasks, run one after the other: their results and the registry afterwards. */
  function Gather(cfg: Config, env: Env, view: Dict<string, Entry>, ready: seq<Task>, depth: int): (g: (seq<TaskResult>, Dict<string, Entry>))
    ensures |g.0| == |ready|
    decreases Levels(cfg, depth), 1, |ready|
  {
    if ready == [] then ([], view)
    else
      var (first, after) := Mission(cfg, env, view, ready[0], depth);
      var (rest, last) := Gather(cfg, env, after, ready[1..], depth);
      ([first] + rest, last)
  }

  /** The loop storing each result under its task's id and deleting that task from `pending`. */
  function Store(results: Dict<string, TaskResult>, pending: Dict<string, Task>, ready: seq<Task>, outcomes: seq<TaskResult>)
    : (s: (Dict<string, TaskResult>, Dict<string, Task>))
    requires |outcomes| == |ready|
    ensures |s.1| <= |pending|
    ensures ready != [] && HasKey(pending, ready[0].taskId) ==> |s.1| < |pending|
    ensures forall p :: p in s.1 ==> p in pending
    decreases |ready|
  {
    if ready == [] then (results, pending)
    else Store(Put(results, ready[0].taskId, outcomes[0]), Remove(pending, ready[0].taskId), ready[1..], outcomes[1..])
  }

  /** The rounds of `_execute_with_dependencies`, from the given pending tasks and results on. */
  function Rounds(cfg: Config, env: Env, view: Dict<string, Entry>, pending: Dict<string, Task>,
                  results: Dict<string, TaskResult>, executed: seq<Task>, rounds: nat, depth: int): Run
    requires KeyedById(pending)
    decreases Levels(cfg, depth), 2, |pending|
  {
    var ready := ReadyOf(pending, results);
    if pending == [] || ready == [] then Run(results, view, executed, rounds)
    else
      ReadyFacts(pending, results);
      var (outcomes, after) := Gather(cfg, env, view, ready, depth);
      var (results', pending') := Store(results, pending, ready, outcomes);
      Rounds(cfg, env, after, pending', results', executed + ready, rounds + 1, depth)
  }

  /** `_execute_with_dependencies(tasks, depth)`. */
  function Schedule(cfg: Config, env: Env, view: Dict<string, Entry>, tasks: seq<Task>, depth: int): Run
    decreases Levels(cfg, depth), 3, 0
  {
    Rounds(cfg, env, view, PendingOf(tasks), [], [], 0, depth)
  }

  /** The ready tasks are exactly the pending tasks whose dependencies have results. */
  lemma {:induction false} ReadyFacts(pending: Dict<string, Task>, results: Dict<string, TaskResult>)
    ensures forall t :: t in ReadyOf(pending, results) <==>
      exists i :: 0 <= i < |pending| && pending[i].1 == t && DepsMet(t, results)
    ensures ReadyOf(pending, results) != [] ==> exists i :: 0 <= i < |pending| && pending[i].1 == ReadyOf(pending, results)[0]
  {
    if pending != [] {
      var init := pending[..|pending| - 1];
      ReadyFacts(init, results);
      forall t ensures t in ReadyOf(pending, results) <==>
        exists i :: 0 <= i < |pending| && pending[i].1 == t && DepsMet(t, results)
      {
        if exists i :: 0 <= i < |pending| && pending[i].1 == t && DepsMet(t, results) {
          var i :| 0 <= i < |pending| && pending[i].1 == t && DepsMet(t, results);
          if i < |pending| - 1 {
            assert init[i] == pending[i];
          }
        }
        if t in ReadyOf(init, results) {
          var i :| 0 <= i < |init| && init[i].1 == t && DepsMet(t, results);
          assert pending[i] == init[i];
        }
      }
      var ready := ReadyOf(pending, results);
      if ready != [] {
        assert ready[0] in ready;
      }
    }
  }

  // ---------------------------------------------------------------------------
  // Synthesis

  function Outputs(results: Dict<string, TaskResult>): (r: Object)
    ensures Keys(r) == Keys(results)
    ensures forall i :: 0 <= i < |results| ==> r[i].1 == JObj(results[i].1.output)
  {
    seq(|results|, i requires 0 <= i < |results| => (results[i].0, JObj(results[i].1.output)))
  }

  /** The non-empty reasonings, in order. */
  function Reasonings(results: Dict<string, TaskResult>): seq<string> {
    if results == [] then []
    else
      var last := results[|results| - 1].1.reasoning;
      Reasonings(results[..|results| - 1]) + (if last != "" then [last] else [])
  }

  /** Every result's errors, concatenated in order. */
  function Errors(results: Dict<string, TaskResult>): seq<string> {
    if results == [] then [] else results[0].1.errors + Errors(results[1..])
  }

  function Confidences(results: Dict<string, TaskResult>): (cs: seq<real>)
    ensures |cs| == |results| && forall i :: 0 <= i < |results| ==> cs[i] == results[i].1.confidence
  {
    seq(|results|, i requires 0 <= i < |results| => results[i].1.confidence)
  }

  predicate AllCompleted(results: Dict<string, TaskResult>) {
    forall i :: 0 <= i < |results| ==> results[i].1.status == Completed
  }

  const Arrow := " \U{2192} "

  /** `_synthesize_results`. */
  function Synthesize(original: Task, results: Dict<string, TaskResult>): TaskResult {
    NewTaskResult(
      original.taskId,
      if AllCompleted(results) then Completed else Failed,
      [("subtasks", JObj(Outputs(results)))],
      Join(Reasonings(results), Arrow),
      confidence := Mean(Confidences(results)),
      errors := Some(Errors(results)))
  }

  // ---------------------------------------------------------------------------
  // What the scheduler guarantees

  /** The results are keyed by the ids of the tasks run, in the order they ran. */
  predicate Aligned(results: Dict<string, TaskResult>, executed: seq<Task>) {
    |results| == |executed| && forall i :: 0 <= i < |results| ==> results[i].0 == executed[i].taskId
  }

  /** Every task ran after a task carrying each of its dependency ids. */
  predicate DepsRanFirst(executed: seq<Task>) {
    forall i, dep :: 0 <= i < |executed| && dep in executed[i].dependencies ==>
      exists j :: 0 <= j < i && executed[j].taskId == dep
  }

  /** The state between two rounds, relative to the original pending dictionary `orig`. */
  predicate Between(orig: Dict<string, Task>, pending: Dict<string, Task>, results: Dict<string, TaskResult>, executed: seq<Task>) {
    && KeyedById(pending) && DistinctKeys(pending)
    && Aligned(results, executed) && DistinctKeys(results)
    && (forall p :: p in pending ==> !HasKey(results, p.0))
    && (forall p :: p in pending ==> p in orig)
    && (forall t :: t in executed ==> (t.taskId, t) in orig)
    && DepsRanFirst(executed)
  }

  /** The ids of `results` extended by one pair per ready task. */
  function Pairs(ready: seq<Task>, outcomes: seq<TaskResult>): (r: Dict<string, TaskResult>)
    requires |outcomes| == |ready|
    ensures |r| == |ready| && forall i :: 0 <= i < |ready| ==> r[i] == (ready[i].taskId, outcomes[i])
  {
    seq(|ready|, i requires 0 <= i < |ready| => (ready[i].taskId, outcomes[i]))
  }

  /** Ready tasks have distinct ids, since the pending dictionary does. */
  lemma {:induction false} ReadyDistinct(pending: Dict<string, Task>, results: Dict<string, TaskResult>)
    requires KeyedById(pending) && DistinctKeys(pending)
    ensures DistinctIds(ReadyOf(pending, results))
  {
    if pending != [] {
      var init := pending[..|pending| - 1];
      var last := pending[|pending| - 1];
      assert forall p :: p in init ==> p in pending;
      ReadyDistinct(init, results);
      ReadyFacts(init, results);
      var front := ReadyOf(init, results);
      forall i | 0 <= i < |front| ensures front[i].taskId != last.1.taskId {
        assert front[i] in front;
        var k :| 0 <= k < |init| && init[k].1 == front[i] && DepsMet(front[i], results);
        assert init[k] == pending[k] && init[k] in pending;
      }
    }
  }

  /** No two ready tasks share an id. */
  predicate DistinctIds(ready: seq<Task>) {
    forall i, j :: 0 <= i < j < |ready| ==> ready[i].taskId != ready[j].taskId
  }

  /** No ready task has id `k`. */
  predicate IdFree(ready: seq<Task>, k: string) {
    forall i :: 0 <= i < |ready| ==> ready[i].taskId != k
  }

  /** Every ready task is pending under its own id. */
  predicate AllPending(ready: seq<Task>, pending: Dict<string, Task>) {
    forall i :: 0 <= i < |ready| ==> (ready[i].taskId, ready[i]) in pending
  }

  /** What a round of storing needs: ready tasks pending under distinct ids that have no result yet. */
  predicate Storable(results: Dict<string, TaskResult>, pending: Dict<string, Task>, ready: seq<Task>) {
    && DistinctKeys(results) && DistinctKeys(pending) && KeyedById(pending)
    && DistinctIds(ready) && AllPending(ready, pending)
    && (forall p :: p in pending ==> !HasKey(results, p.0))
  }

  lemma PairsCons(ready: seq<Task>, outcomes: seq<TaskResult>)
    requires |outcomes| == |ready| && ready != []
    ensures Pairs(ready, outcomes) == [(ready[0].taskId, outcomes[0])] + Pairs(ready[1..], outcomes[1..])
  {
    var tail := Pairs(ready[1..], outcomes[1..]);
    forall i | 0 <= i < |ready| ensures Pairs(ready, outcomes)[i] == ([(ready[0].taskId, outcomes[0])] + tail)[i] {
      if i > 0 {
        assert ready[1..][i - 1] == ready[i];
      }
    }
  }

  /** Storing the first ready task leaves the rest storable. */
  lemma StoreFirst(results: Dict<string, TaskResult>, pending: Dict<string, Task>, ready: seq<Task>, outcome: TaskResult)
    requires ready != [] && Storable(results, pending, ready)
    ensures var id := ready[0].taskId;
      && Put(results, id, outcome) == results + [(id, outcome)]
      && |Remove(pending, id)| == |pending| - 1
      && Storable(Put(results, id, outcome), Remove(pending, id), ready[1..])
  {
    var id := ready[0].taskId;
    var results' := Put(results, id, outcome);
    var pending' := Remove(pending, id);
    assert ready[0] == ready[0];
    assert (id, ready[0]) in pending;
    assert !HasKey(results, id);
    PutGet(results, id, outcome, id);
    RemoveDistinct(pending, id);
    var rest := ready[1..];
    assert DistinctIds(rest) by {
      forall a, b | 0 <= a < b < |rest| ensures rest[a].taskId != rest[b].taskId {
        assert rest[a] == ready[a + 1] && rest[b] == ready[b + 1];
      }
    }
    assert AllPending(rest, pending') by {
      forall a | 0 <= a < |rest| ensures (rest[a].taskId, rest[a]) in pending' {
        assert rest[a] == ready[a + 1];
        assert ready[a + 1].taskId != id;
      }
    }
    forall p | p in pending' ensures !HasKey(results', p.0) {
      assert p in pending;
      forall k | 0 <= k < |results'| ensures results'[k].0 != p.0 {
        if k < |results| {
          assert results'[k] == results[k];
        }
      }
    }
  }

  /** A pending entry survives the first deletion and the later ones exactly when no ready task has its id. */
  lemma StoreMembers(pending: Dict<string, Task>, ready: seq<Task>, survivors: Dict<string, Task>, p: (string, Task))
    requires ready != []
    requires p in survivors <==> p in Remove(pending, ready[0].taskId) && IdFree(ready[1..], p.0)
    ensures p in survivors <==> p in pending && IdFree(ready, p.0)
  {
    if IdFree(ready, p.0) {
      assert ready[0].taskId != p.0;
      forall i | 0 <= i < |ready| - 1 ensures ready[1..][i].taskId != p.0 {
        assert ready[1..][i] == ready[i + 1];
      }
    }
    if IdFree(ready[1..], p.0) && p.0 != ready[0].taskId {
      forall i | 0 <= i < |ready| ensures ready[i].taskId != p.0 {
        if i > 0 {
          assert ready[1..][i - 1] == ready[i];
        }
      }
    }
  }

  /** Storing a round appends one result per ready task and deletes exactly the ready tasks from `pending`. */
  lemma {:induction false} StoreFacts(results: Dict<string, TaskResult>, pending: Dict<string, Task>, ready: seq<Task>, outcomes: seq<TaskResult>)
    requires |outcomes| == |ready| && Storable(results, pending, ready)
    ensures var s := Store(results, pending, ready, outcomes);
      && s.0 == results + Pairs(ready, outcomes)
      && DistinctKeys(s.0) && DistinctKeys(s.1)
      && |s.1| == |pending| - |ready|
      && (forall p :: p in s.1 <==> p in pending && IdFree(ready, p.0))
    decreases |ready|
  {
    if ready == [] {
      assert results + Pairs(ready, outcomes) == results;
    } else {
      var id := ready[0].taskId;
      StoreFirst(results, pending, ready, outcomes[0]);
      StoreFacts(Put(results, id, outcomes[0]), Remove(pending, id), ready[1..], outcomes[1..]);
      PairsCons(ready, outcomes);
      AppendAssociates(results, [(id, outcomes[0])], Pairs(ready[1..], outcomes[1..]));
      var s := Store(results, pending, ready, outcomes);
      forall p ensures p in s.1 <==> p in pending && IdFree(ready, p.0) {
        StoreMembers(pending, ready, s.1, p);
      }
    }
  }

  /** The ready tasks of a well-formed state can be stored, and each has its dependencies met. */
  lemma ReadyStorable(pending: Dict<string, Task>, results: Dict<string, TaskResult>)
    requires KeyedById(pending) && DistinctKeys(pending) && DistinctKeys(results)
    requires forall p :: p in pending ==> !HasKey(results, p.0)
    ensures Storable(results, pending, ReadyOf(pending, results))
    ensures forall t :: t in ReadyOf(pending, results) ==> DepsMet(t, results) && (t.taskId, t) in pending
  {
    var ready := ReadyOf(pending, results);
    ReadyFacts(pending, results);
    ReadyDistinct(pending, results);
    forall t | t in ready ensures DepsMet(t, results) && (t.taskId, t) in pending {
      var k :| 0 <= k < |pending| && pending[k].1 == t && DepsMet(t, results);
      assert pending[k] in pending;
    }
    assert AllPending(ready, pending) by {
      forall i | 0 <= i < |ready| ensures (ready[i].taskId, ready[i]) in pending {
        assert ready[i] in ready;
      }
    }
  }

  /** Running tasks whose dependencies all have results keeps every dependency ahead of its dependant. */
  lemma DepsAppend(results: Dict<string, TaskResult>, executed: seq<Task>, ready: seq<Task>)
    requires Aligned(results, executed) && DepsRanFirst(executed)
    requires forall t :: t in ready ==> DepsMet(t, results)
    ensures DepsRanFirst(executed + ready)
  {
    var ex := executed + ready;
    forall i, dep | 0 <= i < |ex| && dep in ex[i].dependencies
      ensures exists j :: 0 <= j < i && ex[j].taskId == dep
    {
      if i >= |executed| {
        var t := ready[i - |executed|];
        assert t in ready && ex[i] == t;
        var k :| 0 <= k < |results| && results[k].0 == dep;
        assert ex[k] == executed[k];
      } else {
        var j :| 0 <= j < i && executed[j].taskId == dep;
        assert ex[j] == executed[j];
      }
    }
  }

  /** After a round, the results line up with the tasks run, and no survivor has a result. */
  lemma StoredAligned(results: Dict<string, TaskResult>, executed: seq<Task>, ready: seq<Task>, outcomes: seq<TaskResult>,
                      survivors: Dict<string, Task>)
    requires |outcomes| == |ready| && Aligned(results, executed)
    requires forall p :: p in survivors ==> !HasKey(results, p.0) && IdFree(ready, p.0)
    ensures Aligned(results + Pairs(ready, outcomes), executed + ready)
    ensures forall p :: p in survivors ==> !HasKey(results + Pairs(ready, outcomes), p.0)
  {
    var r := results + Pairs(ready, outcomes);
    var ex := executed + ready;
    forall i | 0 <= i < |r| ensures r[i].0 == ex[i].taskId {
      if i >= |results| {
        assert r[i] == Pairs(ready, outcomes)[i - |results|];
      }
    }
    forall p | p in survivors ensures !HasKey(r, p.0) {
      forall k | 0 <= k < |r| ensures r[k].0 != p.0 {
        if k < |results| {
          assert results[k] == r[k];
        } else {
          assert r[k] == Pairs(ready, outcomes)[k - |results|];
        }
      }
    }
  }

  /** One round keeps the state between rounds well formed and adds the ready tasks to those run. */
  lemma RoundStep(orig: Dict<string, Task>, pending: Dict<string, Task>, results: Dict<string, TaskResult>, executed: seq<Task>,
                  outcomes: seq<TaskResult>)
    requires Between(orig, pending, results, executed)
    requires |outcomes| == |ReadyOf(pending, results)|
    ensures var ready := ReadyOf(pending, results);
      var s := Store(results, pending, ready, outcomes);
      Between(orig, s.1, s.0, executed + ready)
  {
    var ready := ReadyOf(pending, results);
    ReadyStorable(pending, results);
    StoreFacts(results, pending, ready, outcomes);
    var s := Store(results, pending, ready, outcomes);
    StoredAligned(results, executed, ready, outcomes, s.1);
    DepsAppend(results, executed, ready);
  }

  /** The scheduler's guarantees from some round on, and its round count. */
  lemma {:induction false} RoundsFacts(cfg: Config, env: Env, view: Dict<string, Entry>, orig: Dict<string, Task>,
                                       pending: Dict<string, Task>, results: Dict<string, TaskResult>,
                                       executed: seq<Task>, rounds: nat, depth: int)
    requires Between(orig, pending, results, executed)
    ensures var run := Rounds(cfg, env, view, pending, results, executed, rounds, depth);
      && Aligned(run.results, run.executed) && DistinctKeys(run.results)
      && (forall t :: t in run.executed ==> (t.taskId, t) in orig)
      && DepsRanFirst(run.executed)
      && run.rounds <= rounds + |pending|
    decreases |pending|
  {
    var ready := ReadyOf(pending, results);
    if pending != [] && ready != [] {
      var g := Gather(cfg, env, view, ready, depth);
      var s := Store(results, pending, ready, g.0);
      NextRound(cfg, env, view, pending, results, executed, rounds, depth);
      RoundStep(orig, pending, results, executed, g.0);
      RoundsFacts(cfg, env, g.1, orig, s.1, s.0, executed + ready, rounds + 1, depth);
    }
  }

  /** Every original task either has a result under its id or is still pending. */
  predicate Covered(orig: Dict<string, Task>, pending: Dict<string, Task>, results: Dict<string, TaskResult>) {
    forall p :: p in orig ==> HasKey(results, p.0) || p in pending
  }

  /** Storing a round keeps every original task covered: a task leaves `pending` only when its id gets a result. */
  lemma CoveredStep(orig: Dict<string, Task>, pending: Dict<string, Task>, results: Dict<string, TaskResult>, executed: seq<Task>,
                    outcomes: seq<TaskResult>)
    requires Between(orig, pending, results, executed) && Covered(orig, pending, results)
    requires |outcomes| == |ReadyOf(pending, results)|
    ensures var ready := ReadyOf(pending, results);
      var s := Store(results, pending, ready, outcomes);
      Covered(orig, s.1, s.0)
  {
    var ready := ReadyOf(pending, results);
    ReadyStorable(pending, results);
    StoreFacts(results, pending, ready, outcomes);
    var s := Store(results, pending, ready, outcomes);
    var added := Pairs(ready, outcomes);
    forall p | p in orig ensures HasKey(s.0, p.0) || p in s.1 {
      if HasKey(results, p.0) {
        var i :| 0 <= i < |results| && results[i].0 == p.0;
        assert s.0[i] == results[i];
      } else if !IdFree(ready, p.0) {
        var i :| 0 <= i < |ready| && ready[i].taskId == p.0;
        assert s.0[|results| + i] == added[i];
      }
    }
  }

  /**
   * The loop stops only when no pending task is ready, so every original task
   * ends with a result under its id or with a dependency that has none.
   */
  lemma {:induction false} RoundsComplete(cfg: Config, env: Env, view: Dict<string, Entry>, orig: Dict<string, Task>,
                                          pending: Dict<string, Task>, results: Dict<string, TaskResult>,
                                          executed: seq<Task>, rounds: nat, depth: int)
    requires Between(orig, pending, results, executed) && Covered(orig, pending, results)
    ensures var run := Rounds(cfg, env, view, pending, results, executed, rounds, depth);
      forall p :: p in orig ==> HasKey(run.results, p.0) || !DepsMet(p.1, run.results)
    decreases |pending|
  {
    var ready := ReadyOf(pending, results);
    if pending != [] && ready != [] {
      var g := Gather(cfg, env, view, ready, depth);
      var s := Store(results, pending, ready, g.0);
      NextRound(cfg, env, view, pending, results, executed, rounds, depth);
      RoundStep(orig, pending, results, executed, g.0);
      CoveredStep(orig, pending, results, executed, g.0);
      RoundsComplete(cfg, env, g.1, orig, s.1, s.0, executed + ready, rounds + 1, depth);
    } else {
      ReadyFacts(pending, results);
      forall p | p in orig && !HasKey(results, p.0) ensures !DepsMet(p.1, results) {
        var i :| 0 <= i < |pending| && pending[i] == p;
        assert p.1 !in ready;
      }
    }
  }

  /** A round with ready tasks runs them, stores their results, and leaves fewer tasks pending. */
  lemma NextRound(cfg: Config, env: Env, view: Dict<string, Entry>, pending: Dict<string, Task>,
                  results: Dict<string, TaskResult>, executed: seq<Task>, rounds: nat, depth: int)
    requires KeyedById(pending) && pending != [] && ReadyOf(pending, results) != []
    ensures var ready := ReadyOf(pending, results);
      var g := Gather(cfg, env, view, ready, depth);
      var s := Store(results, pending, ready, g.0);
      && |s.1| < |pending| && KeyedById(s.1)
      && Rounds(cfg, env, view, pending, results, executed, rounds, depth) ==
           Rounds(cfg, env, g.1, s.1, s.0, executed + ready, rounds + 1, depth)
  {
    var ready := ReadyOf(pending, results);
    ReadyFacts(pending, results);
    var k :| 0 <= k < |pending| && pending[k].1 == ready[0];
    assert pending[k] in pending;
  }

  /**
   * `_execute_with_dependencies`: every result is stored under the id of the
   * task that produced it, no id is run twice, every task run is one of the
   * given tasks, each ran after a task with each of its dependency ids, and
   * there are at most as many rounds as tasks.
   */
  lemma ScheduleFacts(cfg: Config, env: Env, view: Dict<string, Entry>, tasks: seq<Task>, depth: int)
    ensures var run := Schedule(cfg, env, view, tasks, depth);
      && Aligned(run.results, run.executed) && DistinctKeys(run.results)
      && (forall t :: t in run.executed ==> t in tasks)
      && DepsRanFirst(run.executed)
      && run.rounds <= |tasks|
      && (forall p :: p in PendingOf(tasks) ==> HasKey(run.results, p.0) || !DepsMet(p.1, run.results))
  {
    var orig := PendingOf(tasks);
    RoundsFacts(cfg, env, view, orig, orig, [], [], 0, depth);
    RoundsComplete(cfg, env, view, orig, orig, [], [], 0, depth);
  }

  /**
   * With distinct task ids, every task gets a result unless one of its
   * dependency ids never gets one (it is missing, or waits in a cycle).
   */
  lemma ScheduleCompletes(cfg: Config, env: Env, view: Dict<string, Entry>, tasks: seq<Task>, depth: int)
    requires forall i, j :: 0 <= i < j < |tasks| ==> tasks[i].taskId != tasks[j].taskId
    ensures var run := Schedule(cfg, env, view, tasks, depth);
      forall t :: t in tasks ==> HasKey(run.results, t.taskId) || exists d :: d in t.dependencies && !HasKey(run.results, d)
  {
    var run := Schedule(cfg, env, view, tasks, depth);
    var pending := PendingOf(tasks);
    ScheduleFacts(cfg, env, view, tasks, depth);
    forall t | t in tasks ensures HasKey(run.results, t.taskId) || exists d :: d in t.dependencies && !HasKey(run.results, d) {
      var k :| 0 <= k < |pending| && pending[k].0 == t.taskId;
      var p := pending[k];
      assert p in pending;
      var i :| 0 <= i < |tasks| && tasks[i] == p.1;
      var j :| 0 <= j < |tasks| && tasks[j] == t;
      assert i == j;
    }
  }

  /** A task that depends on another runs once the other has: both get results. */
  lemma ChainedTasksBothRun(cfg: Config, env: Env, view: Dict<string, Entry>, a: Task, b: Task, depth: int)
    requires a.taskId != b.taskId && a.dependencies == [] && b.dependencies == [a.taskId]
    ensures var run := Schedule(cfg, env, view, [a, b], depth);
      HasKey(run.results, a.taskId) && HasKey(run.results, b.taskId)
  {
    ScheduleCompletes(cfg, env, view, [a, b], depth);
    assert a in [a, b] && b in [a, b];
  }

  /** When every task waits for something, as mutually dependent tasks do, nothing runs and nothing changes. */
  lemma NothingReadyNothingRuns(cfg: Config, env: Env, view: Dict<string, Entry>, tasks: seq<Task>, depth: int)
    requires forall t :: t in tasks ==> t.dependencies != []
    ensures Schedule(cfg, env, view, tasks, depth) == Run([], view, [], 0)
  {
    var pending := PendingOf(tasks);
    ReadyFacts(pending, []);
    forall i | 0 <= i < |pending| ensures !DepsMet(pending[i].1, []) {
      assert pending[i] in pending;
      var t := pending[i].1;
      assert t.dependencies[0] in t.dependencies;
    }
  }

  /** With no dependencies anywhere, every pending task is ready. */
  lemma {:induction false} AllReady(pending: Dict<string, Task>, results: Dict<string, TaskResult>)
    requires forall p :: p in pending ==> p.1.dependencies == []
    ensures |ReadyOf(pending, results)| == |pending|
    ensures forall i :: 0 <= i < |pending| ==> ReadyOf(pending, results)[i] == pending[i].1
  {
    if pending != [] {
      var n := |pending| - 1;
      var init := pending[..n];
      assert forall p :: p in init ==> p in pending;
      AllReady(init, results);
      assert pending[n] in pending;
      assert DepsMet(pending[n].1, results);
      var front := ReadyOf(init, results);
      assert ReadyOf(pending, results) == front + [pending[n].1];
      forall i | 0 <= i < n ensures ReadyOf(pending, results)[i] == pending[i].1 {
        assert init[i] == pending[i];
      }
    }
  }

  /** A round after which nothing is pending is the last one. */
  lemma LastRound(cfg: Config, env: Env, view: Dict<string, Entry>, pending: Dict<string, Task>,
                  results: Dict<string, TaskResult>, executed: seq<Task>, rounds: nat, depth: int)
    requires KeyedById(pending) && pending != [] && ReadyOf(pending, results) != []
    requires var ready := ReadyOf(pending, results);
      Store(results, pending, ready, Gather(cfg, env, view, ready, depth).0).1 == []
    ensures var ready := ReadyOf(pending, results);
      var g := Gather(cfg, env, view, ready, depth);
      Rounds(cfg, env, view, pending, results, executed, rounds, depth) ==
        Run(Store(results, pending, ready, g.0).0, g.1, executed + ready, rounds + 1)
  {
  }

  /** When every pending task is ready, every pending id gets a result. */
  lemma AllStored(pending: Dict<string, Task>, ready: seq<Task>, outcomes: seq<TaskResult>, k: string)
    requires KeyedById(pending) && |ready| == |pending| && |outcomes| == |ready|
    requires forall i :: 0 <= i < |pending| ==> ready[i] == pending[i].1
    requires HasKey(pending, k)
    ensures HasKey(Pairs(ready, outcomes), k)
  {
    var i :| 0 <= i < |pending| && pending[i].0 == k;
    assert pending[i] in pending;
    assert Pairs(ready, outcomes)[i].0 == k;
  }

  /** When every pending task is ready, the round can be stored. */
  lemma AllReadyStorable(pending: Dict<string, Task>, ready: seq<Task>)
    requires KeyedById(pending) && DistinctKeys(pending)
    requires |ready| == |pending| && forall i :: 0 <= i < |pending| ==> ready[i] == pending[i].1
    ensures Storable([], pending, ready)
  {
    forall i, j | 0 <= i < j < |ready| ensures ready[i].taskId != ready[j].taskId {
      assert pending[i] in pending && pending[j] in pending;
    }
    forall i | 0 <= i < |ready| ensures (ready[i].taskId, ready[i]) in pending {
      assert pending[i] in pending;
    }
  }

  /** Tasks without dependencies all run, in one round. */
  lemma IndependentTasksRunTogether(cfg: Config, env: Env, view: Dict<string, Entry>, tasks: seq<Task>, depth: int)
    requires tasks != [] && forall t :: t in tasks ==> t.dependencies == []
    ensures var run := Schedule(cfg, env, view, tasks, depth);
      run.rounds == 1 && forall t :: t in tasks ==> HasKey(run.results, t.taskId)
  {
    var pending := PendingOf(tasks);
    AllReady(pending, []);
    var ready := ReadyOf(pending, []);
    assert HasKey(pending, tasks[0].taskId);
    AllReadyStorable(pending, ready);
    var g := Gather(cfg, env, view, ready, depth);
    StoreFacts([], pending, ready, g.0);
    var s := Store([], pending, ready, g.0);
    LastRound(cfg, env, view, pending, [], [], 0, depth);
    assert s.0 == Pairs(ready, g.0);
    forall t | t in tasks ensures HasKey(s.0, t.taskId) {
      AllStored(pending, ready, g.0, t.taskId);
    }
  }

  // ---------------------------------------------------------------------------
  // What missions and atomic tasks guarantee

  /** Every registered agent is stored under its own name, as a valid registry's snapshot is. */
  predicate NamedByKey(view: Dict<string, Entry>) {
    DistinctKeys(view) && forall i :: 0 <= i < |view| ==> view[i].1.agent.name == view[i].0
  }

  /** Every snapshot of a well-formed registry files each agent under its own name. */
  lemma RegistryNamedByKey(registry: AgentRegistry)
    requires registry.Valid()
    ensures NamedByKey(registry.View())
  {
    var v := registry.View();
    forall i, j | 0 <= i < j < |v| ensures v[i].0 != v[j].0 {
      assert v[i].0 == registry.agents[i].0 && v[j].0 == registry.agents[j].0;
    }
  }

  /** An atomic mission, or one at the depth limit, goes to one agent: the decomposer plays no part. */
  lemma AtomicSkipsDecomposer(cfg: Config, env: Env, view: Dict<string, Entry>, mission: Task, depth: int, other: Decomposer)
    requires mission.isAtomic || depth >= cfg.maxDepth
    ensures Mission(cfg, env, view, mission, depth) == Mission(cfg.(decomposer := other), env, view, mission, depth)
    ensures var a := Atomic(cfg, env, view, mission);
      Mission(cfg, env, view, mission, depth) == (a.0.(executionTimeMs := env.elapsedMs(mission, depth)), a.1)
  {
  }

  /**
   * With no eligible agent the task fails with "No suitable agent found for
   * this task", nothing is executed and no statistics change.
   */
  lemma NoAgentFails(cfg: Config, env: Env, view: Dict<string, Entry>, task: Task, execute: (Agent, Task) -> Outcome)
    requires forall i :: 0 <= i < |view| ==> !Eligible(view[i].1, task, env.canHandle, env.health)
    ensures var (r, after) := Atomic(cfg, env, view, task);
      && r.status == Failed && r.taskId == task.taskId && r.output == []
      && r.reasoning == "No suitable agent found for this task" && r.errors == ["Agent selection failed"]
      && after == view
    ensures Atomic(cfg, env.(execute := execute), view, task) == Atomic(cfg, env, view, task)
  {
    SelectionFacts(view, task, env.canHandle, env.health);
  }

  /** Whether an outcome counts as a success for the agent's statistics, and the time it records. */
  function Recording(cfg: Config, o: Outcome): (bool, int) {
    match o
    case Finished(result, ms) => (result.status == Completed, ms)
    case TimedOut => (false, cfg.timeoutSeconds * 1000)
    case Raised(_) => (false, 0)
  }

  /**
   * Once an agent is selected, exactly its entry records one more execution:
   * a success exactly when the agent's own result is COMPLETED, a failure of
   * `timeout_seconds * 1000` ms on a timeout and of 0 ms on an exception.
   * A finished agent's result is returned as it is; the other two fail with
   * the agent's name or the exception's text.
   */
  lemma AtomicRecordsOnce(cfg: Config, env: Env, view: Dict<string, Entry>, task: Task, other: string)
    requires NamedByKey(view) && Selected(view, task, env.canHandle, env.health).Some?
    ensures var agent := Selected(view, task, env.canHandle, env.health).value;
      var (r, after) := Atomic(cfg, env, view, task);
      var o := env.execute(agent, task);
      var (success, ms) := Recording(cfg, o);
      && HasKey(view, agent.name)
      && Keys(after) == Keys(view)
      && Get(after, agent.name) == Some(Recorded(Get(view, agent.name).value, success, ms))
      && (other != agent.name ==> Get(after, other) == Get(view, other))
      && (o.Finished? ==> r == o.result)
      && (o.TimedOut? ==> r == Failure(task.taskId, "Agent " + agent.name + " timed out", ["Execution timeout"]))
      && (o.Raised? ==> r == Failure(task.taskId, "Agent execution failed: " + o.message, [o.message]))
  {
    var agent := Selected(view, task, env.canHandle, env.health).value;
    SelectionFacts(view, task, env.canHandle, env.health);
    var i :| 0 <= i < |view| && view[i].1.agent == agent && Eligible(view[i].1, task, env.canHandle, env.health);
    assert view[i].0 == agent.name;
    var (success, ms) := Recording(cfg, env.execute(agent, task));
    RecordStatsFacts(view, agent.name, success, ms, other);
  }

  /** A recorded execution adds exactly one to the agent's count, on the success side exactly for a success. */
  lemma RecordingCounts(e: Entry, success: bool, ms: int)
    ensures var r := Recorded(e, success, ms);
      && r.executed + r.failed == e.executed + e.failed + 1
      && (r.executed == e.executed + 1 <==> success)
      && r.agent == e.agent && r.enabled == e.enabled && r.priority == e.priority && r.tags == e.tags
  {
  }

  /**
   * `execute_mission` on a complex mission: the result carries the mission's
   * id and its wall time; it is COMPLETED exactly when every scheduled
   * subtask result is, FAILED otherwise; its errors are the subtasks' errors;
   * only tasks of the decomposition ran; and the registry is the one those
   * runs leave.
   */
  lemma MissionOutcome(cfg: Config, env: Env, view: Dict<string, Entry>, mission: Task, depth: int)
    requires !mission.isAtomic && depth < cfg.maxDepth
    ensures var subtasks := Decomposed(cfg.decomposer, mission, 0);
      var run := Schedule(cfg, env, view, subtasks, depth + 1);
      var (r, after) := Mission(cfg, env, view, mission, depth);
      && r.taskId == mission.taskId && r.executionTimeMs == env.elapsedMs(mission, depth)
      && (r.status == Completed <==> forall i :: 0 <= i < |run.results| ==> run.results[i].1.status == Completed)
      && (r.status == Completed || r.status == Failed)
      && (forall e :: e in r.errors <==> exists i :: 0 <= i < |run.results| && e in run.results[i].1.errors)
      && (forall t :: t in run.executed ==> t in subtasks)
      && after == run.view
  {
    var subtasks := Decomposed(cfg.decomposer, mission, 0);
    var run := Schedule(cfg, env, view, subtasks, depth + 1);
    SynthesizeFacts(mission, run.results);
    SynthesizedErrors(mission, run.results);
    ScheduleFacts(cfg, env, view, subtasks, depth + 1);
  }

  // ---------------------------------------------------------------------------
  // What synthesis guarantees

  lemma {:induction false} ErrorsFacts(results: Dict<string, TaskResult>)
    ensures forall e :: e in Errors(results) <==> exists i :: 0 <= i < |results| && e in results[i].1.errors
  {
    if results != [] {
      ErrorsFacts(results[1..]);
      forall e ensures e in Errors(results) <==> exists i :: 0 <= i < |results| && e in results[i].1.errors {
        if e in Errors(results[1..]) {
          var i :| 0 <= i < |results| - 1 && e in results[1..][i].1.errors;
          assert results[1..][i] == results[i + 1];
        }
        if exists i :: 0 <= i < |results| && e in results[i].1.errors {
          var i :| 0 <= i < |results| && e in results[i].1.errors;
          if i > 0 {
            assert results[1..][i - 1] == results[i];
          }
        }
      }
    }
  }

  /** The errors of a split dictionary are the errors of its two parts, in order. */
  lemma {:induction false} ErrorsSplit(results: Dict<string, TaskResult>, k: nat)
    requires k <= |results|
    ensures Errors(results) == Errors(results[..k]) + Errors(results[k..])
  {
    if k > 0 {
      assert results[..k][1..] == results[1..][..k - 1];
      assert results[k..] == results[1..][k - 1..];
      ErrorsSplit(results[1..], k - 1);
    } else {
      assert results[k..] == results;
    }
  }

  lemma {:induction false} ReasoningsFacts(results: Dict<string, TaskResult>)
    ensures forall s :: s in Reasonings(results) ==> s != ""
    ensures forall s :: s in Reasonings(results) <==> s != "" && exists i :: 0 <= i < |results| && results[i].1.reasoning == s
  {
    if results != [] {
      var init := results[..|results| - 1];
      ReasoningsFacts(init);
      forall s ensures s in Reasonings(results) <==> s != "" && exists i :: 0 <= i < |results| && results[i].1.reasoning == s {
        if s in Reasonings(init) {
          var i :| 0 <= i < |init| && init[i].1.reasoning == s;
          assert results[i] == init[i];
        }
        if s != "" && exists i :: 0 <= i < |results| && results[i].1.reasoning == s {
          var i :| 0 <= i < |results| && results[i].1.reasoning == s;
          if i < |results| - 1 {
            assert init[i] == results[i];
          }
        }
      }
    }
  }

  /** Joining non-empty pieces gives the empty string only for no pieces. */
  lemma {:induction false} JoinNonEmpty(parts: seq<string>, sep: string)
    requires forall s :: s in parts ==> s != ""
    ensures Join(parts, sep) == "" <==> parts == []
    ensures |parts| == 1 ==> Join(parts, sep) == parts[0]
  {
    if |parts| > 1 {
      assert parts[0] in parts;
    } else if |parts| == 1 {
      assert parts[0] in parts;
    }
  }

  /**
   * `_synthesize_results`: the mission's id; COMPLETED exactly when every
   * subtask completed (so with no subtasks too), FAILED otherwise;
   * `output["subtasks"]` has the results' keys, in order, each with that
   * result's output.
   */
  lemma SynthesizeFacts(original: Task, results: Dict<string, TaskResult>)
    ensures var r := Synthesize(original, results);
      && r.taskId == original.taskId
      && (r.status == Completed <==> forall i :: 0 <= i < |results| ==> results[i].1.status == Completed)
      && (r.status == Completed || r.status == Failed)
      && |r.output| == 1 && r.output[0].0 == "subtasks" && r.output[0].1.JObj?
      && Keys(r.output[0].1.fields) == Keys(results)
      && (forall i :: 0 <= i < |results| ==> r.output[0].1.fields[i].1 == JObj(results[i].1.output))
  {
  }

  /** The synthesised errors are exactly the subtasks' errors. */
  lemma SynthesizedErrors(original: Task, results: Dict<string, TaskResult>)
    ensures forall e :: e in Synthesize(original, results).errors <==> exists i :: 0 <= i < |results| && e in results[i].1.errors
  {
    ErrorsFacts(results);
  }

  /** The synthesised reasoning is empty exactly when every subtask's is, and a lone reasoning is kept as it is. */
  lemma SynthesizedReasoning(original: Task, results: Dict<string, TaskResult>)
    ensures var r := Synthesize(original, results).reasoning;
      r == "" <==> forall i :: 0 <= i < |results| ==> results[i].1.reasoning == ""
    ensures |results| == 1 ==> Synthesize(original, results).reasoning == results[0].1.reasoning
  {
    var parts := Reasonings(results);
    ReasoningsFacts(results);
    JoinNonEmpty(parts, Arrow);
    forall i | 0 <= i < |results| ensures results[i].1.reasoning != "" ==> results[i].1.reasoning in parts {
    }
    if parts != [] {
      assert parts[0] in parts;
    }
    if |results| == 1 {
      assert results[..0] == [];
      assert parts == Reasonings([]) + (if results[0].1.reasoning != "" then [results[0].1.reasoning] else []);
    }
  }

  /** The synthesised confidence is the subtasks' mean, 0.0 for none, and in [0, 1] when theirs are. */
  lemma SynthesizedConfidence(original: Task, results: Dict<string, TaskResult>)
    ensures var c := Synthesize(original, results).confidence;
      && (results == [] ==> c == 0.0)
      && c == Mean(Confidences(results))
      && (results != [] && (forall i :: 0 <= i < |results| ==> 0.0 <= results[i].1.confidence <= 1.0) ==> 0.0 <= c <= 1.0)
  {
    var cs := Confidences(results);
    assert Synthesize(original, results).confidence == Mean(cs);
    if results != [] {
      if forall i :: 0 <= i < |results| ==> 0.0 <= results[i].1.confidence <= 1.0 {
        MeanBounds(cs, 0.0, 1.0);
      }
    }
  }

  /** One step of `Gather` from position `i`: run `ready[i]`, then the rest on the updated registry. */
  lemma GatherStep(cfg: Config, env: Env, view: Dict<string, Entry>, ready: seq<Task>, i: nat, depth: int)
    requires i < |ready|
    ensures var (first, after) := Mission(cfg, env, view, ready[i], depth);
      var g := Gather(cfg, env, after, ready[i + 1..], depth);
      Gather(cfg, env, view, ready[i..], depth) == ([first] + g.0, g.1)
  {
    assert ready[i..][0] == ready[i] && ready[i..][1..] == ready[i + 1..];
  }

  // ---------------------------------------------------------------------------
  // The orchestrator

  /** `pending_tasks` items whose dependencies all have results, collected in order. */
  method CollectReady(pending: Dict<string, Task>, results: Dict<string, TaskResult>) returns (ready: seq<Task>)
    ensures ready == ReadyOf(pending, results)
  {
    ready := [];
    var i := 0;
    while i < |pending|
      invariant 0 <= i <= |pending|
      invariant ready == ReadyOf(pending[..i], results)
    {
      assert pending[..i + 1][..i] == pending[..i];
      var task := pending[i].1;
      if forall dep :: dep in task.dependencies ==> HasKey(results, dep) {
        ready := ready + [task];
      }
      i := i + 1;
    }
    assert pending[..|pending|] == pending;
  }

  /** The `zip(ready_tasks, task_results)` loop: store each result and delete its task from `pending`. */
  method StoreRound(results: Dict<string, TaskResult>, pending: Dict<string, Task>, ready: seq<Task>, outcomes: seq<TaskResult>)
    returns (results': Dict<string, TaskResult>, pending': Dict<string, Task>)
    requires |outcomes| == |ready|
    ensures (results', pending') == Store(results, pending, ready, outcomes)
  {
    results', pending' := results, pending;
    var i := 0;
    while i < |ready|
      invariant 0 <= i <= |ready|
      invariant Store(results', pending', ready[i..], outcomes[i..]) == Store(results, pending, ready, outcomes)
    {
      assert ready[i..][1..] == ready[i + 1..] && outcomes[i..][1..] == outcomes[i + 1..];
      results' := Put(results', ready[i].taskId, outcomes[i]);
      pending' := Remove(pending', ready[i].taskId);
      i := i + 1;
    }
  }

  class Orchestrator {
    const registry: AgentRegistry
    const decomposer: Decomposer
    const maxDepth: int
    const timeoutSeconds: int

    constructor (registry: AgentRegistry, decomposer: Decomposer, maxDepth: int := 3, timeoutSeconds: int := 300)
      ensures this.registry == registry && this.decomposer == decomposer
      ensures this.maxDepth == maxDepth && this.timeoutSeconds == timeoutSeconds
    {
      this.registry := registry;
      this.decomposer := decomposer;
      this.maxDepth := maxDepth;
      this.timeoutSeconds := timeoutSeconds;
    }

    function Cfg(): Config {
      Config(decomposer, maxDepth, timeoutSeconds)
    }

    /** `execute_mission`: to one agent when atomic or at the depth limit, else decomposed; then timed. */
    method ExecuteMission(env: Env, mission: Task, depth: int := 0) returns (result: TaskResult)
      requires registry.Valid()
      modifies registry.Repr
      ensures registry.Valid() && registry.Repr == old(registry.Repr)
      ensures (result, registry.View()) == Mission(Cfg(), env, old(registry.View()), mission, depth)
      decreases Levels(Cfg(), depth), 1, 0
    {
      if mission.isAtomic || depth >= maxDepth {
        result := ExecuteAtomicTask(env, mission);
      } else {
        result := ExecuteComplexTask(env, mission, depth);
      }
      result := result.(executionTimeMs := env.elapsedMs(mission, depth));
    }

    /** `_execute_atomic_task`: select an agent, run it, and record the statistics of the run. */
    method ExecuteAtomicTask(env: Env, task: Task) returns (result: TaskResult)
      requires registry.Valid()
      modifies registry.Repr
      ensures registry.Valid() && registry.Repr == old(registry.Repr)
      ensures (result, registry.View()) == Atomic(Cfg(), env, old(registry.View()), task)
    {
      var agent := registry.SelectAgent(task, env.canHandle, env.health);
      if agent.None? {
        return Failure(task.taskId, "No suitable agent found for this task", ["Agent selection failed"]);
      }
      result := RunAgent(env, task, agent.value);
    }

    /** The `try` block of `_execute_atomic_task` once an agent is chosen. */
    method RunAgent(env: Env, task: Task, chosen: Agent) returns (result: TaskResult)
      requires registry.Valid()
      modifies registry.Repr
      ensures registry.Valid() && registry.Repr == old(registry.Repr)
      ensures (result, registry.View()) == RunBy(Cfg(), env, old(registry.View()), task, chosen)
    {
      match env.execute(chosen, task)
      case Finished(r, ms) =>
        registry.UpdateStats(chosen.name, r.status == Completed, ms);
        result := r;
      case TimedOut =>
        registry.UpdateStats(chosen.name, false, timeoutSeconds * 1000);
        result := Failure(task.taskId, "Agent " + chosen.name + " timed out", ["Execution timeout"]);
      case Raised(msg) =>
        registry.UpdateStats(chosen.name, false, 0);
        result := Failure(task.taskId, "Agent execution failed: " + msg, [msg]);
    }

    /** `_execute_complex_task`: decompose, run the subtasks one level deeper, synthesise. */
    method ExecuteComplexTask(env: Env, task: Task, depth: int) returns (result: TaskResult)
      requires registry.Valid()
      modifies registry.Repr
      ensures registry.Valid() && registry.Repr == old(registry.Repr)
      ensures var run := Schedule(Cfg(), env, old(registry.View()), Decomposed(decomposer, task, 0), depth + 1);
        result == Synthesize(task, run.results) && registry.View() == run.view
      decreases Levels(Cfg(), depth + 1), 3, 0
    {
      var subtasks := Decompose(decomposer, task, 0);
      var results := ExecuteWithDependencies(env, subtasks, depth + 1);
      result := Synthesize(task, results);
    }

    /** `_execute_with_dependencies`: rounds of ready tasks until none is pending or none is ready. */
    method ExecuteWithDependencies(env: Env, tasks: seq<Task>, depth: int) returns (results: Dict<string, TaskResult>)
      requires registry.Valid()
      modifies registry.Repr
      ensures registry.Valid() && registry.Repr == old(registry.Repr)
      ensures var run := Schedule(Cfg(), env, old(registry.View()), tasks, depth);
        results == run.results && registry.View() == run.view
      decreases Levels(Cfg(), depth), 2, 0
    {
      results := [];
      var pending := PendingOf(tasks);
      ghost var executed: seq<Task> := [];
      ghost var rounds: nat := 0;
      ghost var goal := Schedule(Cfg(), env, registry.View(), tasks, depth);
      while pending != []
        invariant registry.Valid() && registry.Repr == old(registry.Repr)
        invariant KeyedById(pending)
        invariant Rounds(Cfg(), env, registry.View(), pending, results, executed, rounds, depth) == goal
        decreases |pending|
      {
        var ready := CollectReady(pending, results);
        if ready == [] {
          break;
        }
        results, pending := RunRound(env, pending, results, ready, executed, rounds, depth);
        executed := executed + ready;
        rounds := rounds + 1;
      }
    }

    /** One round of the loop: run the ready tasks and move their results out of the pending tasks. */
    method RunRound(env: Env, pending: Dict<string, Task>, results: Dict<string, TaskResult>, ready: seq<Task>,
                    ghost executed: seq<Task>, ghost rounds: nat, depth: int)
      returns (results': Dict<string, TaskResult>, pending': Dict<string, Task>)
      requires registry.Valid() && KeyedById(pending)
      requires pending != [] && ready != [] && ready == ReadyOf(pending, results)
      modifies registry.Repr
      ensures registry.Valid() && registry.Repr == old(registry.Repr)
      ensures KeyedById(pending') && |pending'| < |pending|
      ensures Rounds(Cfg(), env, old(registry.View()), pending, results, executed, rounds, depth) ==
        Rounds(Cfg(), env, registry.View(), pending', results', executed + ready, rounds + 1, depth)
      decreases Levels(Cfg(), depth), 1, 2
    {
      NextRound(Cfg(), env, registry.View(), pending, results, executed, rounds, depth);
      var outcomes := ExecuteReady(env, ready, depth);
      results', pending' := StoreRound(results, pending, ready, outcomes);
    }

    /** The `asyncio.gather` of one round, run one mission after the other. */
    method ExecuteReady(env: Env, ready: seq<Task>, depth: int) returns (outcomes: seq<TaskResult>)
      requires registry.Valid()
      modifies registry.Repr
      ensures registry.Valid() && registry.Repr == old(registry.Repr)
      ensures (outcomes, registry.View()) == Gather(Cfg(), env, old(registry.View()), ready, depth)
      decreases Levels(Cfg(), depth), 1, 1
    {
      outcomes := [];
      ghost var goal := Gather(Cfg(), env, registry.View(), ready, depth);
      assert ready[0..] == ready;
      var i := 0;
      while i < |ready|
        invariant 0 <= i <= |ready|
        invariant registry.Valid() && registry.Repr == old(registry.Repr)
        invariant outcomes + Gather(Cfg(), env, registry.View(), ready[i..], depth).0 == goal.0
        invariant Gather(Cfg(), env, registry.View(), ready[i..], depth).1 == goal.1
      {
        ghost var before := registry.View();
        GatherStep(Cfg(), env, before, ready, i, depth);
        var r := ExecuteMission(env, ready[i], depth);
        AppendAssociates(outcomes, [r], Gather(Cfg(), env, registry.View(), ready[i + 1..], depth).0);
        outcomes := outcomes + [r];
        i := i + 1;
      }
      assert ready[i..] == [];
      assert Gather(Cfg(), env, registry.View(), [], depth) == ([], registry.View());
      assert outcomes + [] == outcomes;
    }
  }
}
