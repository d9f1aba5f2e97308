/**
 * The agent plugin interface of the mission orchestrator: tasks, task
 * results, priorities, and the per-agent registration metadata with its
 * running execution statistics.
 */
module Plugins {
  import opened Wrappers
  import opened Json
  import opened Averages

  datatype TaskPriority = Low | Medium | High | Critical {
    function Value(): (v: int)
      ensures 1 <= v <= 4
    {
      match this
      case Low => 1
      case Medium => 2
      case High => 3
      case Critical => 4
    }
  }

  /** The priorities are ordered LOW < MEDIUM < HIGH < CRITICAL, and their values tell them apart. */
  lemma PriorityOrder(p: TaskPriority, q: TaskPriority)
    ensures Low.Value() < Medium.Value() < High.Value() < Critical.Value()
    ensures p.Value() == q.Value() ==> p == q
  {
  }

  datatype TaskStatus = Pending | InProgress | Completed | Failed | Cancelled {
    function Value(): string {
      match this
      case Pending => "pending"
      case InProgress => "in_progress"
      case Completed => "completed"
      case Failed => "failed"
      case Cancelled => "cancelled"
    }
  }

  /** A unit of work an agent can execute; `taskType` is the source's `type`. */
  datatype Task = Task(
    taskId: string,
    taskType: string,
    description: string,
    context: Object,
    priority: TaskPriority,
    isAtomic: bool,
    dependencies: seq<string>)

  /** The dataclass constructor with its defaults; a `None` dependency list becomes `[]`. */
  function NewTask(taskId: string, taskType: string, description: string, context: Object,
                   priority: TaskPriority := Medium, isAtomic: bool := false,
                   dependencies: Option<seq<string>> := Some([])): (t: Task)
    ensures t.dependencies == (if dependencies.Some? then dependencies.value else [])
    ensures t.taskId == taskId && t.taskType == taskType && t.description == description && t.context == context
    ensures t.priority == priority && t.isAtomic == isAtomic
  {
    Task(taskId, taskType, description, context, priority, isAtomic, dependencies.GetOr([]))
  }

  datatype TaskResult = TaskResult(
    taskId: string,
    status: TaskStatus,
    output: Object,
    reasoning: string,
    thoughtTrace: string,
    confidence: real,
    executionTimeMs: int,
    errors: seq<string>)

  /** The dataclass constructor with its defaults; a `None` error list becomes `[]`. */
  function NewTaskResult(taskId: string, status: TaskStatus, output: Object, reasoning: string := "",
                         thoughtTrace: string := "", confidence: real := 1.0, executionTimeMs: int := 0,
                         errors: Option<seq<string>> := Some([])): (r: TaskResult)
    ensures r.errors == (if errors.Some? then errors.value else [])
    ensures r.taskId == taskId && r.status == status && r.output == output && r.reasoning == reasoning
    ensures r.thoughtTrace == thoughtTrace && r.confidence == confidence && r.executionTimeMs == executionTimeMs
  {
    TaskResult(taskId, status, output, reasoning, thoughtTrace, confidence, executionTimeMs, errors.GetOr([]))
  }

  /**
   * What identifies an agent plugin. Its behaviour (`can_handle`,
   * `health_check`, `execute`) is supplied to the operations that call it.
   */
  datatype Agent = Agent(name: string, version: string, capabilities: seq<string>, description: string)

  /** Registration metadata of one agent, with its execution statistics. */
  class AgentPluginMetadata {
    var agent: Agent
    var enabled: bool
    var priority: int
    var tags: seq<string>
    var registrationTimestamp: Option<real>
    var totalTasksExecuted: nat
    var totalTasksFailed: nat
    var averageExecutionTimeMs: real
    /** Every execution time recorded so far, in order. */
    ghost var times: seq<real>

    /** The running average is the mean of every execution time recorded. */
    ghost predicate Valid()
      reads this
    {
      && |times| == totalTasksExecuted + totalTasksFailed
      && averageExecutionTimeMs == Mean(times)
    }

    constructor (agent: Agent, enabled: bool := true, priority: int := 100, tags: Option<seq<string>> := None)
      ensures Valid()
      ensures this.agent == agent && this.enabled == enabled && this.priority == priority
      ensures this.tags == (if tags.Some? then tags.value else [])
      ensures registrationTimestamp.None?
      ensures totalTasksExecuted == 0 && totalTasksFailed == 0 && averageExecutionTimeMs == 0.0 && times == []
    {
      this.agent := agent;
      this.enabled := enabled;
      this.priority := priority;
      this.tags := tags.GetOr([]);
      registrationTimestamp := None;
      totalTasksExecuted := 0;
      totalTasksFailed := 0;
      averageExecutionTimeMs := 0.0;
      times := [];
    }

    /** `update_stats`: one more success or one more failure, and the time folded into the average. */
    method UpdateStats(success: bool, executionTimeMs: int)
      requires Valid()
      modifies this
      ensures Valid()
      ensures totalTasksExecuted == old(totalTasksExecuted) + (if success then 1 else 0)
      ensures totalTasksFailed == old(totalTasksFailed) + (if success then 0 else 1)
      ensures times == old(times) + [executionTimeMs as real]
      ensures averageExecutionTimeMs ==
        RunningMean(old(averageExecutionTimeMs), old(totalTasksExecuted) + old(totalTasksFailed), executionTimeMs as real)
      ensures unchanged(this`agent, this`enabled, this`priority, this`tags, this`registrationTimestamp)
    {
      if success {
        totalTasksExecuted := totalTasksExecuted + 1;
      } else {
        totalTasksFailed := totalTasksFailed + 1;
      }
      var total := totalTasksExecuted + totalTasksFailed;
      MeanSnoc(times, executionTimeMs as real);
      averageExecutionTimeMs := (averageExecutionTimeMs * ((total - 1) as real) + executionTimeMs as real) / (total as real);
      assert averageExecutionTimeMs == RunningMean(old(averageExecutionTimeMs), total - 1, executionTimeMs as real);
      times := times + [executionTimeMs as real];
    }

    /** `success_rate`: 1.0 before any record, else the share of successes, in [0, 1]. */
    function SuccessRate(): (r: real)
      reads this
      ensures totalTasksExecuted + totalTasksFailed == 0 ==> r == 1.0
      ensures 0.0 <= r <= 1.0
      ensures totalTasksExecuted + totalTasksFailed > 0 ==>
        r * ((totalTasksExecuted + totalTasksFailed) as real) == totalTasksExecuted as real
    {
      SuccessShare(totalTasksExecuted, totalTasksFailed)
    }
  }

  /** The success rate of `executed` successes and `failed` failures: 1.0 with no records. */
  function SuccessShare(executed: nat, failed: nat): (r: real)
    ensures executed + failed == 0 ==> r == 1.0
    ensures 0.0 <= r <= 1.0
    ensures executed + failed > 0 ==> r * ((executed + failed) as real) == executed as real
  {
    var total := executed + failed;
    if total == 0 then 1.0 else SharePart(executed, total)
  }

  /** `part / whole` for `part <= whole`, as a float. */
  function SharePart(part: nat, whole: nat): (q: real)
    requires 0 < whole && part <= whole
    ensures 0.0 <= q <= 1.0 && q * (whole as real) == part as real
  {
    var q := (part as real) / (whole as real);
    assert q * (whole as real) == part as real;
    q
  }

  /** Recording 100 ms and then 200 ms averages to 150 ms. */
  lemma AverageExample()
    ensures Mean([100.0, 200.0]) == 150.0
  {
    assert [100.0, 200.0][1..] == [200.0];
    assert [200.0][1..] == [];
  }
}
