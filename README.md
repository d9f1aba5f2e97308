# Verified model of the orchestration, tool-factory and consciousness cores

This project is a Dafny model of fourteen pieces of a multi-service Python backend, with proofs of what each piece promises. The pieces are:

- **Ignition (ESGT) coordinator** (`EsgtCoordinator`, coordinator.dfy). It applies four admission gates in a fixed order: frequency limiter, concurrency cap, circuit breaker, then low salience in degraded mode. It runs the trigger checks and the six-phase ignition (PREPARE, SYNCHRONIZE, BROADCAST, SUSTAIN, DISSOLVE, COMPLETE). It keeps event counters, the event history, the last ignition time and the degraded-mode state.
- **TIG fabric** (`TigFabric`, fabric.dfy). It names nodes `tig-node-NNN`, wires every topology edge in both directions, and tracks the ready and initialising flags with the status derived from them. Ignition-mode entry and exit rewrite every connection weight. It computes the metrics wrapped around the graph library: the min-degree connectivity shortcut, the efficiency index, bottlenecks and sampled path redundancy. It also covers broadcast and node activation.
- **Meta orchestrator**, made of:
  - the mission orchestrator with its dependency-round scheduler and result synthesis (`Orchestration`, orchestrator.dfy);
  - hierarchical task decomposition (`TaskDecomposition`, task_decomposer.dfy);
  - the agent registry with scored selection (`AgentRegistries`, agent_registry.dfy);
  - the plugin data model with running statistics (`Plugins`, plugin_base.dfy);
  - the world-model heuristic table (`WorldModelHeuristics`, heuristics.dfy);
  - the request building, reply parsing and fallback table of the LLM client (`GeminiClients`, gemini_client.dfy).
- **Tool factory**, made of:
  - the generate/test/improve loop and the name-keyed tool registry with export and import (`ToolFactories`, tool_factory.dfy);
  - the code validator, which reads Python's parse tree as a list of nodes (`Validators`, validator.dfy, over `PythonAst`);
  - the sandbox executor's screening, wrapping, truncation, return-value extraction, test tally and history (`Sandboxes`, sandbox.dfy);
  - the tool specification data model (`ToolSpecs`, tool_spec.dfy);
  - the factory settings (`FactoryConfig`).
- **Episodic memory store** (`EpisodicMemory`, memory_store.dfy). It stores memories, retrieves them filtered by keyword, type and importance newest first, looks them up and deletes them.
- **HCL analyzer** (`HclAnalyzer`, analyzer.dfy). It applies threshold anomaly rules, computes a health score clamped to [0, 1], and produces trends and recommendations.

Helper modules:

- `Wrappers`: Option and Result.
- `Strings`: ASCII case folding, search, split, join, strip, and decimal and padded rendering.
- `OrderedMaps`: an insertion-ordered dictionary, matching Python `dict` order.
- `Json`: decoded JSON values.
- `Averages`: sums and means.

Classes model the objects whose fields the source updates in place: `Fabric`, `Coordinator`, `AgentPluginMetadata`, `AgentRegistry`, `Orchestrator`, `GeminiClient`, `SandboxExecutor`, `ToolFactory`, `MemoryStore` and `SystemAnalyzer`. Each method that changes state is proved against a specification function of the old state. The properties of that function are proved as lemmas.

Calls into code outside these files become inputs, given as parameters or function-valued fields:

- the language models;
- `json.loads` and Python's `ast` parser;
- pydantic validation of the services' request models;
- the subprocess;
- `repr` of values;
- networkx and numpy;
- the oscillator network;
- the frequency limiter and circuit breaker;
- the trigger-condition predicates;
- the clock and random numbers.

Python floats are modelled as exact reals. Integers are unbounded. String case folding is ASCII; whitespace, for `strip` and `split`, is Python's full Unicode whitespace set.

## Model

| member | source | states |
|---|---|---|
| Plugins.PriorityOrder | backend/services/meta_orchestrator/plugins/base.py:22-27 | The four priorities are strictly ordered LOW < MEDIUM < HIGH < CRITICAL (values 1 to 4), and no two share a value. |
| Plugins.NewTask | backend/services/meta_orchestrator/plugins/base.py:39-63 | A new task keeps every given field; MEDIUM, not atomic and no dependencies are the defaults, and a `None` dependency list becomes empty. |
| Plugins.NewTaskResult | backend/services/meta_orchestrator/plugins/base.py:66-92 | A new result keeps every given field; the defaults are empty reasoning and trace, confidence 1.0 and 0 ms, and a `None` error list becomes empty. |
| Plugins.AgentPluginMetadata.constructor | backend/services/meta_orchestrator/plugins/base.py:228-251 | New metadata keeps the agent, enabled flag and priority, turns missing tags into `[]`, has no registration time, zero counters and average 0.0. |
| Plugins.AgentPluginMetadata.UpdateStats | backend/services/meta_orchestrator/plugins/base.py:253-274 | Exactly one of the success or failure counters rises by one, according to `success`; the running average stays the mean of every recorded time; nothing else changes. |
| Plugins.AgentPluginMetadata.SuccessRate | backend/services/meta_orchestrator/plugins/base.py:276-287 | 1.0 with no records; otherwise the share of successes among all records, which lies in [0, 1]. |
| Plugins.SuccessShare | backend/services/meta_orchestrator/plugins/base.py:284-287 | The success rate of a pair of counters: 1.0 when both are zero, else `executed / (executed + failed)`, always in [0, 1]. |
| Plugins.AverageExample | backend/services/meta_orchestrator/tests/test_agent_registry.py:380-395 | Recording 100 ms and then 200 ms gives an average of 150 ms. |
| AgentRegistries.Best | backend/services/meta_orchestrator/core/agent_registry.py:180-184 | The index picked by the stable descending sort: its score is the highest, and every earlier candidate scores strictly lower, so ties go to the earliest. |
| AgentRegistries.CandidatesFacts | backend/services/meta_orchestrator/core/agent_registry.py:135-171 | An agent is a candidate exactly when it is registered, enabled, its `can_handle` answers true without raising, and its health check reports healthy without raising. |
| AgentRegistries.SelectionFacts | backend/services/meta_orchestrator/core/agent_registry.py:116-190 | There is no selection exactly when no agent is eligible; otherwise the selected agent is registered, eligible, and no eligible agent has a higher `priority / (average or 1.0)` score. |
| AgentRegistries.ListingFacts | backend/services/meta_orchestrator/core/agent_registry.py:221-247 | An info record is listed exactly when it belongs to a registered agent that is enabled (when only enabled ones are asked for) and shares a tag with a non-empty tag filter. |
| AgentRegistries.FailedCheckUnhealthy | backend/services/meta_orchestrator/core/agent_registry.py:314-329 | A health check that raises gives a report with `healthy` false and the error text. |
| AgentRegistries.RecordedFacts | backend/services/meta_orchestrator/plugins/base.py:253-274 | Recording an execution on an entry keeps its average the mean of all times, adds exactly one record, counts it as a success or a failure according to `success`, and changes no other field. |
| AgentRegistries.RecordStatsFacts | backend/services/meta_orchestrator/core/agent_registry.py:249-268 | Recording for a name keeps the set of names, changes no other agent's entry, and changes nothing for an unknown name. |
| AgentRegistries.NewMetadata | backend/services/meta_orchestrator/core/agent_registry.py:75-81 | The metadata `register` stores: the agent with the given enabled flag, priority and tags (missing tags become `[]`), zero counters, average 0.0 and the registration time set. |
| AgentRegistries.AgentRegistry.constructor | backend/services/meta_orchestrator/core/agent_registry.py:41-46 | A new registry is empty. |
| AgentRegistries.AgentRegistry.Register | backend/services/meta_orchestrator/core/agent_registry.py:48-89 | A name already present raises ValueError with the source's message and leaves the registry alone; otherwise exactly one entry is appended with the given enabled flag, priority and tags (defaults True, 100, []), zero counters and the registration time. |
| AgentRegistries.AgentRegistry.Unregister | backend/services/meta_orchestrator/core/agent_registry.py:91-114 | An unknown name raises KeyError and changes nothing; otherwise exactly that entry is removed; a failing shutdown hook is not observed. |
| AgentRegistries.AgentRegistry.GetAgent | backend/services/meta_orchestrator/core/agent_registry.py:192-204 | Some agent exactly when the name is registered, and then the one registered under it. |
| AgentRegistries.AgentRegistry.SelectAgent | backend/services/meta_orchestrator/core/agent_registry.py:116-190 | Returns the selection `SelectionFacts` describes: the earliest highest-scoring eligible agent, or None. |
| AgentRegistries.AgentRegistry.CollectCandidates | backend/services/meta_orchestrator/core/agent_registry.py:133-171 | The loop keeps exactly the eligible agents, in registration order. |
| AgentRegistries.BestIndex | backend/services/meta_orchestrator/core/agent_registry.py:180-184 | The scan returns the index a stable descending sort puts first. |
| AgentRegistries.AgentRegistry.ListAgents | backend/services/meta_orchestrator/core/agent_registry.py:206-247 | Returns the info of every agent that passes both filters, in registration order. |
| AgentRegistries.AgentRegistry.UpdateStats | backend/services/meta_orchestrator/core/agent_registry.py:249-268 | The named agent's entry records the execution; an unknown name and every other agent are unchanged. |
| AgentRegistries.AgentRegistry.SetEnabled | backend/services/meta_orchestrator/core/agent_registry.py:270-282 | Only the named agent's `enabled` flag changes; an unknown name changes nothing. |
| AgentRegistries.AgentRegistry.EnableAgent | backend/services/meta_orchestrator/core/agent_registry.py:270-275 | Sets the named agent's flag to true and changes nothing else; a no-op for an unknown name. |
| AgentRegistries.AgentRegistry.DisableAgent | backend/services/meta_orchestrator/core/agent_registry.py:277-282 | Sets the named agent's flag to false and changes nothing else; a no-op for an unknown name. |
| AgentRegistries.AgentRegistry.HealthCheckAll | backend/services/meta_orchestrator/core/agent_registry.py:284-329 | Exactly one report per registered agent, under its name and in order: the agent's report with `enabled` added, or an unhealthy error report when the check raises. |
| TaskDecomposition.TaskIdFacts | backend/services/meta_orchestrator/core/task_decomposer.py:290-292 | A child id is the parent id, a dot and the one-based index; it extends `parent + "."`, and distinct indices give distinct ids. |
| TaskDecomposition.ParsePriorityFacts | backend/services/meta_orchestrator/core/task_decomposer.py:294-302 | Parsing ignores case, gives each priority back from its name, and maps every other text to MEDIUM. |
| TaskDecomposition.NeedsDecompositionFacts | backend/services/meta_orchestrator/core/task_decomposer.py:113-130 | The multi-step test ignores case, and a CRITICAL task always needs splitting. |
| TaskDecomposition.NeedsDecompositionExample | backend/services/meta_orchestrator/core/task_decomposer.py:119-125 | An indicator counts as a substring: "and" inside "Handle" makes "Handle alerts" need splitting. |
| TaskDecomposition.NoIndicatorExample | backend/services/meta_orchestrator/core/task_decomposer.py:119-130 | A non-critical description with no indicator ("Deploy") needs no splitting. |
| TaskDecomposition.RuleBasedShape | backend/services/meta_orchestrator/core/task_decomposer.py:193-288 | Infrastructure gives four subtasks typed monitoring, analysis, planning, execution; intelligence gives collection then analysis; any other type gives "Analyze: …" then "Execute: …". Ids are `base.1…`, each depends on its predecessor, all copy the parent's context and priority, and only the last of the two typed splits is atomic. |
| TaskDecomposition.IdsOf | backend/services/meta_orchestrator/core/task_decomposer.py:180-183 | The dependency ids exist exactly when every index is numeric, and then the k-th id is `_generate_task_id(parent, index_k)`. |
| TaskDecomposition.SubtaskFrom | backend/services/meta_orchestrator/core/task_decomposer.py:173-185 | A built subtask comes from a dict item, has id `parent.(i+1)`, the parent's context, not atomic, the item's description, its type or the parent's, and its mapped dependency ids; an item without a description raises. |
| TaskDecomposition.TryMapFacts | backend/services/meta_orchestrator/core/task_decomposer.py:172-187 | The conversion succeeds exactly when every item converts, and then keeps length and order. |
| TaskDecomposition.ConvertAllFacts | backend/services/meta_orchestrator/core/task_decomposer.py:172-187 | The model's answer converts exactly when every item builds a subtask, and the i-th subtask comes from the i-th item. |
| Json.Iterated | backend/services/meta_orchestrator/core/task_decomposer.py:173 | Iterating a value gives a list's items, a dict's keys or a string's characters, in order, and is empty exactly when the value is falsy; any other value raises "object is not iterable". |
| TaskDecomposition.LlmFallback | backend/services/meta_orchestrator/core/task_decomposer.py:164-191 | A failing model call, or an answer that cannot be iterated, falls back to the rules; an unparsable answer parses as `[]` and so gives no subtasks. |
| TaskDecomposition.LlmAnswerUsed | backend/services/meta_orchestrator/core/task_decomposer.py:172-191 | When every item builds, the subtasks are the items in order; when one raises, the rules' split is used. |
| TaskDecomposition.SplitIds | backend/services/meta_orchestrator/core/task_decomposer.py:99-103 | Every subtask id, from the model or the rules, extends the parent's id and a dot. |
| TaskDecomposition.TaskIdDots | backend/services/meta_orchestrator/core/task_decomposer.py:290-292 | A child id `parent.(i+1)` has exactly one dot more than its parent id. |
| TaskDecomposition.SplitIdIs | backend/services/meta_orchestrator/core/task_decomposer.py:98-102 | Subtask `i` of a split, from the model or from the rules, has id `parent.(i+1)`. |
| TaskDecomposition.DecomposedLevels | backend/services/meta_orchestrator/core/task_decomposer.py:70-110 | Every task `decompose` returns is atomic, or was cut off at `max_depth`: its id is exactly `max_depth - depth` levels below the task id. |
| TaskDecomposition.RulesNeverEmpty | backend/services/meta_orchestrator/core/task_decomposer.py:99-111 | Without the model, every decomposition yields at least one task. |
| TaskDecomposition.UnparsableAnswerYieldsNothing | backend/services/meta_orchestrator/core/task_decomposer.py:304-324 | With the model, a splittable task whose answer does not parse disappears: `decompose` returns `[]`. |
| TaskDecomposition.DecomposedIds | backend/services/meta_orchestrator/core/task_decomposer.py:70-111 | Every task of a decomposition has an id that extends the original task's id. |
| TaskDecomposition.DecomposedAllIds | backend/services/meta_orchestrator/core/task_decomposer.py:105-111 | Concatenating the subtasks' decompositions keeps every id under the common prefix. |
| TaskDecomposition.LlmDecompose | backend/services/meta_orchestrator/core/task_decomposer.py:132-191 | Returns the model's subtasks, or the rules' split on any error. |
| TaskDecomposition.BuildSubtasks | backend/services/meta_orchestrator/core/task_decomposer.py:172-185 | The loop builds the subtask list item by item and stops at the first item that raises. |
| TaskDecomposition.Decompose | backend/services/meta_orchestrator/core/task_decomposer.py:70-111 | The recursive method returns exactly the in-order concatenation the `Decomposed` tree describes. |
| TaskDecomposition.NameParses | backend/services/meta_orchestrator/core/task_decomposer.py:294-302 | Parsing the lower-case name of a priority gives that priority back. |
| TaskDecomposition.InfrastructureChained | backend/services/meta_orchestrator/core/task_decomposer.py:228-265 | The four infrastructure subtasks are numbered `base.1` to `base.4`, each depends on the one before it (the first on nothing), all copy the parent's context and priority, and only the last is atomic. |
| TaskDecomposition.IntelligenceChained | backend/services/meta_orchestrator/core/task_decomposer.py:267-288 | The two intelligence subtasks are `base.1` and `base.2`, the second depends on the first, both copy the parent's context and priority, and only the second is atomic. |
| TaskDecomposition.FirstTaskIds | backend/services/meta_orchestrator/core/task_decomposer.py:240-262 | The ids written out as `base_id.1`, `base_id.2` and `base_id.3` are the ids `_generate_task_id` gives for indices 0, 1 and 2. |
| TaskDecomposition.DecomposeEach | backend/services/meta_orchestrator/core/task_decomposer.py:105-111 | The loop over the subtasks returns the concatenation, in order, of each subtask's decomposition one level deeper. |
| Orchestration.PendingOf | backend/services/meta_orchestrator/core/orchestrator.py:254 | The pending dict holds every given task under its own id, only given tasks, each id once, and no more entries than tasks. |
| Orchestration.ReadyFacts | backend/services/meta_orchestrator/core/orchestrator.py:258-264 | A task is ready exactly when it is pending and every one of its dependency ids already has a result. |
| Orchestration.ReadyDistinct | backend/services/meta_orchestrator/core/orchestrator.py:254-264 | The ready tasks of one round have pairwise distinct ids. |
| Orchestration.StoreFacts | backend/services/meta_orchestrator/core/orchestrator.py:280-282 | Storing a round appends one result per ready task under its id, keeps both dicts free of repeated keys, and deletes exactly the ready tasks from the pending ones. |
| Orchestration.RoundsFacts | backend/services/meta_orchestrator/core/orchestrator.py:256-284 | From any reachable state, the loop ends with every result stored under the id of the task that produced it, only original tasks run, each after its dependencies, and at most one round per pending task. |
| Orchestration.ScheduleFacts | backend/services/meta_orchestrator/core/orchestrator.py:238-284 | `_execute_with_dependencies` stores every result under its task id, runs no id twice and only given tasks, and runs each task after a task for each of its dependency ids. It takes at most as many rounds as tasks. It stops only when every pending task has a result or an unmet dependency. |
| Orchestration.CoveredStep | backend/services/meta_orchestrator/core/orchestrator.py:279-282 | Storing a round keeps every original task either pending or with a result under its id. |
| Orchestration.RoundsComplete | backend/services/meta_orchestrator/core/orchestrator.py:256-284 | From any reachable state, the loop ends with every original task run or waiting on a dependency with no result. |
| Orchestration.ScheduleCompletes | backend/services/meta_orchestrator/core/orchestrator.py:238-284 | With distinct ids, every task gets a result unless one of its dependency ids never gets one. |
| Orchestration.ChainedTasksBothRun | backend/services/meta_orchestrator/core/orchestrator.py:256-284 | When B depends only on A and A has no dependencies, both get results. |
| Orchestration.NothingReadyNothingRuns | backend/services/meta_orchestrator/core/orchestrator.py:266-269 | When every task has a dependency, no task is ready in the first round: the loop stops at once with no results and the registry untouched. |
| Orchestration.IndependentTasksRunTogether | backend/services/meta_orchestrator/core/orchestrator.py:256-282 | Tasks without dependencies all run in a single round and each gets a result. |
| Orchestration.AtomicSkipsDecomposer | backend/services/meta_orchestrator/core/orchestrator.py:98-109 | An atomic mission, or one at `max_depth`, goes straight to one agent without consulting the decomposer, and its result carries the mission's measured time. |
| Orchestration.NoAgentFails | backend/services/meta_orchestrator/core/orchestrator.py:148-158 | With no eligible agent the task fails with "No suitable agent found for this task" and "Agent selection failed", no agent runs and the registry is unchanged. |
| Orchestration.AtomicRecordsOnce | backend/services/meta_orchestrator/core/orchestrator.py:160-205 | The selected agent's entry records exactly one execution (a success exactly when its result is COMPLETED; `timeout_seconds * 1000` ms on a timeout; 0 ms on an exception) and no other entry changes; the agent's result is returned, or a failure naming the timeout or the exception. |
| Orchestration.RecordingCounts | backend/services/meta_orchestrator/core/orchestrator.py:173-185 | Recording adds exactly one execution, counted as a success exactly when `success` holds, and keeps the agent, flag, priority and tags. |
| Orchestration.MissionOutcome | backend/services/meta_orchestrator/core/orchestrator.py:98-116 | A complex mission below the depth limit keeps its id and the measured time. It is COMPLETED exactly when every scheduled subtask result is, and FAILED otherwise. Its errors are exactly those of the subtask results. Only decomposed subtasks run, and the registry view is the one the schedule leaves. |
| Orchestration.Outputs | backend/services/meta_orchestrator/core/orchestrator.py:308-313 | The aggregated output has one entry per subtask result, under the same id and in the same order, holding that result's output. |
| Orchestration.ErrorsFacts | backend/services/meta_orchestrator/core/orchestrator.py:322-325 | An error is collected exactly when some subtask result lists it. |
| Orchestration.ReasoningsFacts | backend/services/meta_orchestrator/core/orchestrator.py:315-320 | The joined reasonings are exactly the non-empty reasonings of the subtask results. |
| Orchestration.SynthesizeFacts | backend/services/meta_orchestrator/core/orchestrator.py:286-338 | The synthesis keeps the original task's id, is COMPLETED exactly when every subtask result is COMPLETED and FAILED otherwise, and its output is `{"subtasks": ...}` with each subtask's output under its id. |
| Orchestration.SynthesizedErrors | backend/services/meta_orchestrator/core/orchestrator.py:322-325 | The synthesized errors are exactly the errors of the subtask results. |
| Orchestration.SynthesizedReasoning | backend/services/meta_orchestrator/core/orchestrator.py:315-320 | The combined reasoning is empty exactly when every subtask reasoning is, and equals the only reasoning when there is one result. |
| Orchestration.SynthesizedConfidence | backend/services/meta_orchestrator/core/orchestrator.py:327-329 | The confidence is 0.0 with no results and otherwise the mean of the subtask confidences, which stays in [0, 1] when they all do. |
| Orchestration.CollectReady | backend/services/meta_orchestrator/core/orchestrator.py:257-264 | The scan over the pending dict collects exactly the ready tasks, in dict order. |
| Orchestration.StoreRound | backend/services/meta_orchestrator/core/orchestrator.py:279-282 | The loop over the ready tasks stores each result and deletes each task as `Store` describes. |
| Orchestration.Orchestrator.constructor | backend/services/meta_orchestrator/core/orchestrator.py:47-67 | A new orchestrator keeps the registry, decomposer, `max_depth` (default 3) and `timeout_seconds` (default 300). |
| Orchestration.Orchestrator.ExecuteMission | backend/services/meta_orchestrator/core/orchestrator.py:69-136 | Returns the result and leaves the registry that `Mission` describes: atomic or at the depth limit to one agent, otherwise decomposed and synthesized; then timed. |
| Orchestration.Orchestrator.ExecuteAtomicTask | backend/services/meta_orchestrator/core/orchestrator.py:138-205 | Returns the result and leaves the registry that `Atomic` describes. |
| Orchestration.Orchestrator.RunAgent | backend/services/meta_orchestrator/core/orchestrator.py:162-205 | The selected agent's run and its recorded statistics, as `RunBy` describes. |
| Orchestration.Orchestrator.ExecuteComplexTask | backend/services/meta_orchestrator/core/orchestrator.py:207-236 | Decomposes the task from depth 0, schedules the subtasks one level deeper, and returns their synthesis with the registry the runs leave. |
| Orchestration.Orchestrator.ExecuteWithDependencies | backend/services/meta_orchestrator/core/orchestrator.py:238-284 | Returns the results and leaves the registry that `Schedule` describes. |
| Orchestration.Orchestrator.RunRound | backend/services/meta_orchestrator/core/orchestrator.py:271-282 | One round runs the ready tasks and stores their results; fewer tasks stay pending and the rest of the loop is unchanged. |
| Orchestration.Orchestrator.ExecuteReady | backend/services/meta_orchestrator/core/orchestrator.py:271-277 | The ready tasks' missions, one after the other, give the results and registry that `Gather` describes. |
| WorldModelHeuristics.Lookup | backend/services/meta_orchestrator/core/world_model/heuristics.py:104-105 | A list or dict action type raises `unhashable type`, and exactly those raise. Any other type that is not one of the six table keys, including a missing one, gets the default heuristic. Every heuristic has probability, risk and confidence in [0, 1] and at most one state change. |
| WorldModelHeuristics.Known | backend/services/meta_orchestrator/core/world_model/heuristics.py:21-76 | Each of the six table entries has probability, risk and confidence in [0, 1] and at most one fixed state change. |
| WorldModelHeuristics.Replicas | backend/services/meta_orchestrator/core/world_model/heuristics.py:112-115 | Without `params` the default replica count is used; the lookup fails exactly when `params` is present but is not a dict. |
| WorldModelHeuristics.AtLeastOne | backend/services/meta_orchestrator/core/world_model/heuristics.py:115 | `max(1, v)` is defined exactly for numbers and booleans and is then a number of at least 1. |
| WorldModelHeuristics.ScaledReplicas | backend/services/meta_orchestrator/core/world_model/heuristics.py:110-116 | A replica count is set exactly for the two scale actions. |
| WorldModelHeuristics.OnlyScaleCanFail | backend/services/meta_orchestrator/core/world_model/heuristics.py:104-128 | A list or dict action type raises `unhashable type`. Otherwise only a scale action can raise, and only when it has `params`; every other action gets a prediction. |
| WorldModelHeuristics.PredictionEchoesTable | backend/services/meta_orchestrator/core/world_model/heuristics.py:118-128 | A prediction echoes the action, has depth 1, and copies probability, outcome, reasoning, confidence, risk and side effects from the heuristic for the action's type. |
| WorldModelHeuristics.UnknownActionUsesDefault | backend/services/meta_orchestrator/core/world_model/heuristics.py:78-87 | An unknown action type predicts probability 0.4, outcome UNKNOWN, risk 0.7, confidence 0.3, no side effects and the current state unchanged; a list or dict type raises `unhashable type` instead. |
| WorldModelHeuristics.PredictedStateKeys | backend/services/meta_orchestrator/core/world_model/heuristics.py:107-116 | The predicted state has no repeated keys; apart from `replicas` on a scale action, each key holds the heuristic's fixed change when it has one and otherwise the current value. |
| WorldModelHeuristics.ScaleUpReplicas | backend/services/meta_orchestrator/core/world_model/heuristics.py:111-113 | `scale_up` sets `replicas` to `params.replicas`, 2 when absent, and fails exactly when that lookup does. |
| WorldModelHeuristics.ScaleDownAtLeastOne | backend/services/meta_orchestrator/core/world_model/heuristics.py:114-116 | `scale_down` sets `replicas` to at least 1, and to exactly 1 without `params`. |
| GeminiClients.Level | backend/services/meta_orchestrator/core/gemini_client.py:313-315 | The thinking level sent is the override when one is given and non-empty, else the configured level. |
| GeminiClients.Parts | backend/services/meta_orchestrator/core/gemini_client.py:298-304 | The request has the prompt as its first part, plus a second part with the stored thought signature exactly when signatures are enabled and one is stored. |
| GeminiClients.PayloadIndependence | backend/services/meta_orchestrator/core/gemini_client.py:297-316 | A non-empty override makes the configured level irrelevant; with signatures disabled the stored signature is never sent; without a stored signature there is one part. |
| GeminiClients.PartOf | backend/services/meta_orchestrator/core/gemini_client.py:341-347 | A dict part yields its `text` and `thoughtSignature` values when present, of any type. A string or list part raises exactly when `"text"` or `"thoughtSignature"` is in it, and otherwise carries neither. Any other part raises, since `in` cannot search it. |
| GeminiClients.First | backend/services/meta_orchestrator/core/gemini_client.py:333 | `candidates[0]` gives a list's first item or a string's first character; a dict raises KeyError `0`, and other values raise. |
| GeminiClients.ReplyParts | backend/services/meta_orchestrator/core/gemini_client.py:329-336 | The parts taken from a reply are never empty. A reply that is not a dict raises for `.get`; no candidates raises "No candidates in response". The parts are what iterating the `parts` value yields: items, keys or characters. |
| GeminiClients.LastPresent | backend/services/meta_orchestrator/core/gemini_client.py:341-347 | The value kept by the loop is one of the values seen, and there is none only when no part had one. |
| GeminiClients.ScanMalformed | backend/services/meta_orchestrator/core/gemini_client.py:341-347 | The first part that raises ends the loop with its error, and the signatures of the parts before it are already stored. |
| GeminiClients.ScanLast | backend/services/meta_orchestrator/core/gemini_client.py:338-349 | Over well-formed parts the loop returns the last text (empty when none) and the last signature, and stores the last signature when there is one. |
| GeminiClients.CalledFacts | backend/services/meta_orchestrator/core/gemini_client.py:276-349 | `_call_gemini` fails with the post's or the lookup's error and leaves the stored signature alone. Over readable parts it returns the last text (empty by default) and the last signature, and stores that signature. A raising part ends the call with its error, after the signatures before it are stored. |
| GeminiClients.CharacterPartsCarryNothing | backend/services/meta_orchestrator/core/gemini_client.py:341-347 | A one-character string part, as iterating a string `parts` value gives, carries no text and no signature. |
| GeminiClients.NoCandidates | backend/services/meta_orchestrator/core/gemini_client.py:329-331 | A reply with no `candidates`, or an empty list of them, raises "No candidates in response" and stores nothing. |
| GeminiClients.Unfenced | backend/services/meta_orchestrator/core/gemini_client.py:355-359 | A reply that does not start with a fence is only stripped. |
| GeminiClients.UnfencedBody | backend/services/meta_orchestrator/core/gemini_client.py:356-359 | A reply fenced as ```` ```json ```` … ```` ``` ```` parses as the text between the fences. |
| GeminiClients.UnfencedOpen | backend/services/meta_orchestrator/core/gemini_client.py:356-359 | A reply that opens a ```` ```json ```` fence but never closes it loses only its first line: a body ending in a non-space whose last line is not a fence comes back whole. |
| GeminiClients.ParseFailure | backend/services/meta_orchestrator/core/gemini_client.py:364-369 | An unparsable reply gives the default prediction with outcome "unknown" and reasoning "Parse error: " and the reply's first 200 characters. |
| GeminiClients.ParsePredictionCases | backend/services/meta_orchestrator/core/gemini_client.py:351-369 | Invalid JSON, or a dict that fails validation, gives the parse-error prediction; a valid dict gives the validated prediction; JSON that is not a dict raises. |
| GeminiClients.Placeholders | backend/services/meta_orchestrator/core/gemini_client.py:389-393 | The placeholder list has the expected length and every entry has reasoning "Parse error" and outcome "unknown". |
| GeminiClients.ValidateAll | backend/services/meta_orchestrator/core/gemini_client.py:384-385 | The list converts exactly when every item is a dict that validates, and then item by item, in order. |
| GeminiClients.ParseSequenceCounts | backend/services/meta_orchestrator/core/gemini_client.py:371-393 | Invalid JSON gives `expected_count` placeholders; a list of valid dicts gives one prediction per item, in order; a single valid dict gives a one-element list; any result has the expected length unless the JSON decoded. |
| GeminiClients.ParseSequenceReply | backend/services/meta_orchestrator/core/gemini_client.py:371-378 | A non-string reply text raises the `strip` AttributeError; a string is parsed by `_parse_sequence`. |
| GeminiClients.FallbackRow | backend/services/meta_orchestrator/core/gemini_client.py:405-436 | Only the five named actions have a fixed row, and each row's probability and risk lie in [0, 1]. |
| GeminiClients.Fallback | backend/services/meta_orchestrator/core/gemini_client.py:395-448 | A list or dict action type raises `unhashable type`, and only those raise. Otherwise the prediction is the state with `action_applied` set to the action type, confidence 0.5, no side effects and no signature, with probability and risk in [0, 1]. |
| GeminiClients.FallbackTable | backend/services/meta_orchestrator/core/gemini_client.py:402-448 | An unhashable action type raises and every other type gets a prediction. Each of the five named actions gets its fixed probability, outcome, risk and reasoning; any other hashable type gets 0.4, "unknown", 0.6 and a reasoning naming the type and the error. |
| GeminiClients.FallbackState | backend/services/meta_orchestrator/core/gemini_client.py:446 | The predicted state keeps every key of the state and sets only `action_applied`. |
| GeminiClients.Fallbacks | backend/services/meta_orchestrator/core/gemini_client.py:270-272 | One fallback per action, in order, when none raises; otherwise the error of the first action whose fallback raises. |
| GeminiClients.SimulatedFacts | backend/services/meta_orchestrator/core/gemini_client.py:198-240 | `simulate_action` returns the parsed prediction carrying this call's signature. When the call or the parse raises, it returns the fallback with the error text, and a non-string reply text gives the `strip` error. It raises only through a fallback for an unhashable action type. The stored signature is the call's. |
| GeminiClients.ParseReply | backend/services/meta_orchestrator/core/gemini_client.py:351-355 | A non-string reply text raises the `strip` AttributeError; a string is parsed by `_parse_prediction`. |
| GeminiClients.SequenceFacts | backend/services/meta_orchestrator/core/gemini_client.py:242-274 | When the call or the parse fails, `simulate_sequence` returns one fallback per action, in order, unless some action type is unhashable, which raises. A parsed reply is returned as parsed. The multi-step call uses level "high" whatever the configuration says. |
| GeminiClients.GeminiClient.constructor | backend/services/meta_orchestrator/core/gemini_client.py:169-182 | A new client keeps its configuration and has no stored thought signature. |
| GeminiClients.GeminiClient.CallGemini | backend/services/meta_orchestrator/core/gemini_client.py:276-349 | Returns the reply text and signature, or the error, and leaves the stored signature as `Called` describes. |
| GeminiClients.GeminiClient.SimulateAction | backend/services/meta_orchestrator/core/gemini_client.py:198-240 | Returns the prediction, or the error a fallback raises, and leaves the stored signature as `Simulated` describes. |
| GeminiClients.GeminiClient.SimulateSequence | backend/services/meta_orchestrator/core/gemini_client.py:242-274 | Returns the predictions, or the error a fallback raises, and leaves the stored signature as `SimulatedSequence` describes. |
| GeminiClients.GeminiClient.ResetThoughtContext | backend/services/meta_orchestrator/core/gemini_client.py:450-453 | Forgets the stored signature, so the next request has only the prompt part. |
| ToolSpecs.NewRequest | backend/services/tool_factory_service/models/tool_spec.py:17-32 | A request is accepted exactly when the name matches `^[a-z_][a-z0-9_]*$` and the description has at least 10 characters, and then keeps every field. |
| ToolSpecs.ToolNameExamples | backend/services/tool_factory_service/tests/test_routes.py:130-146 | Snake-case names and a leading underscore pass the name pattern; upper case, punctuation, a leading digit and the empty name fail, and a 4-character description is refused. |
| ToolSpecs.NewToolSpec | backend/services/tool_factory_service/models/tool_spec.py:35-63 | A new tool spec keeps the given fields and starts with success rate 0.0, usage count 0, version 1 and no last use. |
| ToolSpecs.ParamText | backend/services/tool_factory_service/models/tool_spec.py:72-79 | A parameter is written `name: type`, the type defaulting to `Any`, followed by ` = repr(default)` when the default is not None. |
| ToolSpecs.ParamTexts | backend/services/tool_factory_service/models/tool_spec.py:71-79 | One parameter text per parameter, in the dict's order. |
| ToolSpecs.GetSignature | backend/services/tool_factory_service/models/tool_spec.py:65-82 | The loop builds the signature `Signature` describes. |
| ToolSpecs.SignatureShape | backend/services/tool_factory_service/models/tool_spec.py:65-82 | The signature starts with `def name(`; with no parameters it is `def name() -> R:`; a single parameter without a spec gives `def name(p: Any) -> R:`. |
| ToolSpecs.BareSignature | backend/services/tool_factory_service/models/tool_spec.py:71-82 | A single parameter without a spec gives `def name(p: Any) -> R:`. |
| ToolSpecs.BareParam | backend/services/tool_factory_service/models/tool_spec.py:73-79 | A parameter without a spec is written `name: Any`. |
| ToolSpecs.ToDictFields | backend/services/tool_factory_service/models/tool_spec.py:84-102 | The dict form has exactly the eleven fields of a tool spec, in declaration order. |
| ToolSpecs.ToDictLastUsed | backend/services/tool_factory_service/models/tool_spec.py:101 | `last_used` is the timestamp when there is one and None otherwise. |
| Validators.ValidateSyntax | backend/services/tool_factory_service/core/validator.py:30-45 | Code is valid exactly when it is not blank and parses. |
| Validators.FirstComponentUndotted | backend/services/tool_factory_service/core/validator.py:68 | A module name without a dot is its own first component. |
| Validators.FirstComponentDotted | backend/services/tool_factory_service/core/validator.py:68 | The first component of `package.rest` is `package`. |
| Validators.ImportViolation | backend/services/tool_factory_service/core/validator.py:66-70 | An import statement is refused exactly when one of its names has a blocked first component, and the message names that component. |
| Validators.Violation | backend/services/tool_factory_service/core/validator.py:64-96 | Only imports and calls of a plain name can be refused; a call of eval, exec, compile or `__import__` is always refused with its name; any other plain call is refused exactly when it is `open` with a constant mode containing `w` or `a`. |
| Validators.FirstViolation | backend/services/tool_factory_service/core/validator.py:65-98 | No violation exactly when no node in walk order has one; otherwise the first node that has one decides the message. |
| Validators.Security | backend/services/tool_factory_service/core/validator.py:47-98 | Unparsable code raises "Syntax error: …", and only unparsable code raises. |
| Validators.CheckNode | backend/services/tool_factory_service/core/validator.py:66-96 | The checks on one node return the violation `Violation` describes. |
| Validators.ValidateSecurity | backend/services/tool_factory_service/core/validator.py:47-98 | The walk returns what `Security` describes. |
| Validators.BlockedSubmodule | backend/services/tool_factory_service/core/validator.py:64-76 | Importing a submodule of a blocked package, by `import` or `from … import`, is refused with the package's name. |
| Validators.OpenModes | backend/services/tool_factory_service/tests/test_validator.py:105-123 | Opening a file for reading passes; opening it with mode "w" is refused as a file write. |
| Validators.FirstFunction | backend/services/tool_factory_service/core/validator.py:120-122 | The chosen node is the first function definition in walk order, and there is none exactly when the walk has no function definition. |
| Validators.Metadata | backend/services/tool_factory_service/core/validator.py:100-171 | Unparsable code raises "Syntax error: …", code with no function raises "No function definition found in code", and a found name is that of a function definition in the walk. |
| Validators.ParseFunctionMetadata | backend/services/tool_factory_service/core/validator.py:100-171 | The walk returns what `Metadata` describes. |
| Validators.FindFunction | backend/services/tool_factory_service/core/validator.py:121-122 | The loop returns the first function definition in walk order. |
| Validators.CollectParameters | backend/services/tool_factory_service/core/validator.py:126-140 | The loop builds the parameter dict `BaseParams` describes. |
| Validators.AddDefaults | backend/services/tool_factory_service/core/validator.py:142-156 | The loop over the defaults gives what `ApplyDefaults` describes. |
| Validators.WithDefaultShape | backend/services/tool_factory_service/core/validator.py:137-156 | A parameter with a default has its type (`Any` when unannotated), `required` set to "False" and, when the default can be written, `default`. |
| Validators.BaseParamsAppend | backend/services/tool_factory_service/core/validator.py:126-140 | With distinct parameter names, the dict holds one entry per parameter, in order. |
| Validators.DefaultsFrom | backend/services/tool_factory_service/core/validator.py:147-156 | With distinct names and no more defaults than parameters, the loop over the defaults ends with the last parameters, one per default, marked optional. |
| Validators.MetadataParameters | backend/services/tool_factory_service/core/validator.py:120-169 | With distinct names and no more defaults than parameters, the metadata is the first function's name, its parameters with the defaults applied to the last ones, its return annotation (`Any` when absent) and its docstring. |
| Validators.DefaultsWithoutParameters | backend/services/tool_factory_service/core/validator.py:143-150 | A function with defaults but no positional parameters makes the lookup of `param_names` fail. |
| Validators.ExtractCode | backend/services/tool_factory_service/core/validator.py:186-189 | When a ```` ```python ```` block is present its stripped body is returned. |
| Validators.FencedNeedsFence | backend/services/tool_factory_service/core/validator.py:187-193 | A fenced block can only be found in text that contains a fence. |
| Validators.ExtractPlain | backend/services/tool_factory_service/core/validator.py:196-197 | Text without a fence is returned stripped. |
| Validators.FencedAt | backend/services/tool_factory_service/core/validator.py:187-194 | The first fenced block after an opener is the text up to the next fence. |
| Validators.ExtractPython | backend/services/tool_factory_service/core/validator.py:186-189 | A ```` ```python ```` block gives its stripped body. |
| Validators.ExtractGeneric | backend/services/tool_factory_service/core/validator.py:191-194 | Without a Python block, a plain ```` ``` ```` block gives its stripped body. |
| Validators.CheckLineCount | backend/services/tool_factory_service/core/validator.py:199-209 | Code fits exactly when its number of newlines plus one is at most `max_tool_size_lines`. |
| Validators.LinesRoundTrip | backend/services/tool_factory_service/core/validator.py:208 | Lines without newlines, joined with newlines, split back into the same lines. |
| Validators.LineLimit | backend/services/tool_factory_service/core/validator.py:199-209 | Code made of N lines fits exactly when N is at most the limit. |
| Sandboxes.EffectiveTimeout | backend/services/tool_factory_service/core/sandbox.py:95 | `timeout or sandbox_timeout`: a missing or zero timeout falls back to the configured one. |
| Sandboxes.ScreeningAgreesWithValidator | backend/services/tool_factory_service/core/sandbox.py:346-392 | The sandbox's own screening returns the validator's syntax-error text as a message instead of raising, and otherwise the same verdict. |
| Sandboxes.ValidateCode | backend/services/tool_factory_service/core/sandbox.py:346-392 | The walk over the parsed code returns what `SecurityCheck` describes. |
| Sandboxes.LastNewline | backend/services/tool_factory_service/core/sandbox.py:418 | The position found is the last newline, and there is none only when the code has no newline. |
| Sandboxes.WithoutLastLine | backend/services/tool_factory_service/core/sandbox.py:418 | Dropping the last line keeps the text before the last newline, and gives the empty string for one-line code. |
| Sandboxes.MarkedAfter | backend/services/tool_factory_service/core/sandbox.py:420-425 | Wrapped code contains the return marker. |
| Sandboxes.WrapIdempotent | backend/services/tool_factory_service/core/sandbox.py:394-428 | Wrapping either adds the marker or changes nothing, and wrapping twice is wrapping once. |
| Sandboxes.WrapAfterTrailingNewline | backend/services/tool_factory_service/core/sandbox.py:416-426 | For code ending in a newline whose last statement is an expression, the wrapped code is the code without its last line, then the assignment of that expression and the print of its JSON. |
| Sandboxes.Truncated | backend/services/tool_factory_service/core/sandbox.py:143-147 | Output within `max_output_size` is kept; longer output is cut to that size and "\n...[truncated]" is appended. |
| Sandboxes.FirstMarkerValue | backend/services/tool_factory_service/core/sandbox.py:439-448 | The value comes from the first line holding the marker, and is None when no line holds it. |
| Sandboxes.ExtractReturnValue | backend/services/tool_factory_service/core/sandbox.py:430-448 | The loop over the lines returns what `ReturnValue` describes. |
| Sandboxes.Unmarked | backend/services/tool_factory_service/core/sandbox.py:154-158 | No kept line holds the marker. |
| Sandboxes.NoMarkerLeft | backend/services/tool_factory_service/core/sandbox.py:151-158 | After the marker lines are removed, stdout no longer contains the marker. |
| Sandboxes.ExecutionFacts | backend/services/tool_factory_service/core/sandbox.py:79-194 | Code that fails screening gives a SecurityError result with the message as stderr; a run past the timeout gives a TimeoutError lasting the timeout; a finished run succeeds exactly when its exit code is 0, a failure is a RuntimeError whose message is stderr, stderr is truncated, and stdout never keeps a marker line when the return value is captured. |
| Sandboxes.CallArgs | backend/services/tool_factory_service/core/sandbox.py:219-221 | The call's arguments are the positional text, the keyword text, or both joined with ", ", dropping an empty one. |
| Sandboxes.CallSourceUnwrapped | backend/services/tool_factory_service/core/sandbox.py:223-236 | The code `execute_function` builds already prints the marker, so `execute` runs it unchanged. |
| Sandboxes.CaseEntry | backend/services/tool_factory_service/core/sandbox.py:283-306 | A test case raises only when the run succeeded with a truthy return value that is not a dict; a failed run or a falsy value counts as failed. |
| Sandboxes.CaseRuns | backend/services/tool_factory_service/core/sandbox.py:258-281 | One run per test case. |
| Sandboxes.TallyTotals | backend/services/tool_factory_service/core/sandbox.py:254-306 | Each case adds exactly one to `passed` or `failed` and one entry to the results, so their totals are the number of cases. |
| Sandboxes.RecordedRuns | backend/services/tool_factory_service/core/sandbox.py:281 | The history grows by at most one run per test case, and each recorded run is the run of a screened case. |
| Sandboxes.TestReportFacts | backend/services/tool_factory_service/core/sandbox.py:238-315 | When no case raises, `test_code` reports the tally with `passed + failed == total == len(results)` and a success rate in [0, 1]; when a case raises, the error propagates. |
| Sandboxes.TestSourceUnwrapped | backend/services/tool_factory_service/core/sandbox.py:262-281 | The test code already prints the marker, so `execute` runs it unchanged. |
| Sandboxes.Successes | backend/services/tool_factory_service/core/sandbox.py:331 | There are no more successes than runs. |
| Sandboxes.StatsFacts | backend/services/tool_factory_service/core/sandbox.py:330-340 | With a history, `total` is its length, successes and failures add up to it, the success rate is the share of successes and lies in [0, 1], and the average time is the mean of the runs' times. |
| Sandboxes.SandboxExecutor.constructor | backend/services/tool_factory_service/core/sandbox.py:70-77 | A new sandbox keeps its configuration and has an empty history. |
| Sandboxes.SandboxExecutor.Execute | backend/services/tool_factory_service/core/sandbox.py:79-194 | Returns the result `Execution` describes and appends it to the history exactly when the code passed screening. |
| Sandboxes.SandboxExecutor.ExecuteFunction | backend/services/tool_factory_service/core/sandbox.py:196-236 | Runs the built call code as `execute` does, with the return value captured. |
| Sandboxes.SandboxExecutor.RunCase | backend/services/tool_factory_service/core/sandbox.py:258-306 | One test case: its run is recorded as `execute` records it, and the case either raises or is tallied as the rest of the loop expects. |
| Sandboxes.SandboxExecutor.RunCases | backend/services/tool_factory_service/core/sandbox.py:254-306 | The loop over the test cases gives the tally and the recorded runs that `CasesFrom` describes. |
| Sandboxes.SandboxExecutor.TestCode | backend/services/tool_factory_service/core/sandbox.py:238-315 | Returns the report `TestRun` describes and appends exactly its runs to the history. |
| Sandboxes.SandboxExecutor.GetStats | backend/services/tool_factory_service/core/sandbox.py:317-340 | `total` is 0 for an empty history and its length otherwise. |
| Sandboxes.SandboxExecutor.ClearHistory | backend/services/tool_factory_service/core/sandbox.py:342-344 | The history becomes empty. |
| ToolFactories.ExampleLines | backend/services/tool_factory_service/core/factory.py:415-419 | One line per example, numbered from 1, in order. |
| ToolFactories.FormatExamples | backend/services/tool_factory_service/core/factory.py:406-420 | The loop joins the example lines with newlines. |
| ToolFactories.ExamplesTextLines | backend/services/tool_factory_service/core/factory.py:415-420 | When no example line holds a newline, the examples text splits back into exactly those lines. |
| ToolFactories.FixSyntax | backend/services/tool_factory_service/core/factory.py:261-290 | Code that parses is returned unchanged; otherwise the model's fix is used only when it is valid, else the original code comes back. |
| ToolFactories.GeneratedCode | backend/services/tool_factory_service/core/factory.py:143-182 | Generated code that is accepted parses, passes the security walk and fits the line limit. |
| ToolFactories.Refusals | backend/services/tool_factory_service/core/factory.py:173-182 | Code is accepted exactly when it parses, has no security finding and fits the line limit, and accepted code is returned unchanged. |
| ToolFactories.GeneratedCodeRefusals | backend/services/tool_factory_service/core/factory.py:169-182 | For valid extracted code: a security finding raises "Security error: …", too many lines raises "Exceeds N lines", and otherwise the code is returned. |
| ToolFactories.ParamsObject | backend/services/tool_factory_service/core/factory.py:108-115 | The spec's parameters are the parsed parameters, one per name, in order. |
| ToolFactories.DraftFacts | backend/services/tool_factory_service/core/factory.py:96-115 | The first spec is version 1, unused, with success rate 0.0, the request's examples, the creation time, and the requested name when one is given. |
| ToolFactories.RenamedFront | backend/services/tool_factory_service/core/factory.py:103-105 | After renaming, code that started with `def old` starts with `def new`. |
| ToolFactories.Failures | backend/services/tool_factory_service/core/factory.py:210 | There are no more failures than results. |
| ToolFactories.SummarizeReport | backend/services/tool_factory_service/core/factory.py:184-211 | The test summary copies passed, failed and total from the sandbox report, with success rate `passed / max(total, 1)` and the failing results. |
| ToolFactories.TestCases | backend/services/tool_factory_service/core/factory.py:198-201 | One test case per example. |
| ToolFactories.Improvement | backend/services/tool_factory_service/core/factory.py:213-259 | An improved code is offered only when it has valid syntax and no security finding. |
| ToolFactories.LoopSteps | backend/services/tool_factory_service/core/factory.py:117-134 | The loop's test and improve steps are `_test_tool` and `_improve_tool` on the request. |
| ToolFactories.ImprovingFacts | backend/services/tool_factory_service/core/factory.py:124-141 | From improvement round k, a tool is returned exactly when one is registered. It then has a rate at or above the threshold, one successful log entry, and a version above the current one by at most the rounds left. A logged failure raises "Failed after N attempts" with the logged rate. |
| ToolFactories.TriedFacts | backend/services/tool_factory_service/core/factory.py:117-141 | After a test, the same holds, with the version allowed to stay the current one. |
| ToolFactories.ImprovingExhausted | backend/services/tool_factory_service/core/factory.py:124-141 | When no test passes and none raises, the rounds run out: exactly one unsuccessful entry is logged, nothing is registered, and the failure carries its rate. |
| ToolFactories.TriedExhausted | backend/services/tool_factory_service/core/factory.py:117-141 | The same from a spec about to be tested. |
| ToolFactories.GenerateFacts | backend/services/tool_factory_service/core/factory.py:79-141 | `generate_tool` returns a tool exactly when it registers it. The tool has a rate at or above the threshold, one successful log entry, and a version between 1 and `max_attempts`. A failure registers nothing and logs at most one unsuccessful entry. When it logs one, the error is "Failed after N attempts. Rate: …" with that entry's rate. |
| ToolFactories.GenerateExhausted | backend/services/tool_factory_service/core/factory.py:124-141 | With a draft but no passing test, `generate_tool` logs exactly one failed generation, registers nothing and raises "Failed after N attempts. Rate: …". |
| ToolFactories.SingleAttempt | backend/services/tool_factory_service/core/factory.py:124-141 | With `max_attempts == 1` there is no improvement round: a failing first test logs one failure and raises. |
| ToolFactories.PassingRewrite | backend/services/tool_factory_service/core/factory.py:125-134 | When an improvement is offered and passes, it is registered with the version raised by one and the improved code. |
| ToolFactories.ExportAll | backend/services/tool_factory_service/core/factory.py:350-369 | The export has one entry per tool, under the same name and in the same order, holding the exported fields. |
| ToolFactories.Decode | backend/services/tool_factory_service/core/factory.py:377-389 | An imported spec gets the import time and no last use; a record without `name` raises KeyError; a record that is not a dict raises the TypeError that `td["name"]` raises for its kind (list indices, string indices, or not subscriptable). |
| ToolFactories.Typed | backend/services/tool_factory_service/core/factory.py:378-388 | A spec built from typed fields gets the import time and no last use. |
| ToolFactories.ExportedNames | backend/services/tool_factory_service/core/factory.py:357-360 | The export holds the tool's name, description and parameters. |
| ToolFactories.ExportedCode | backend/services/tool_factory_service/core/factory.py:361-363 | The export holds the return type, code and examples. |
| ToolFactories.ExportedCounts | backend/services/tool_factory_service/core/factory.py:364-366 | The export holds the success rate, usage count and version. |
| ToolFactories.DecodeExported | backend/services/tool_factory_service/core/factory.py:350-389 | Importing an exported tool gives it back with only its creation time and last use reset. |
| ToolFactories.ParamsRoundTrip | backend/services/tool_factory_service/core/factory.py:360-381 | Exported parameters import back unchanged. |
| ToolFactories.ExamplesRoundTrip | backend/services/tool_factory_service/core/factory.py:363-384 | Exported examples import back unchanged. |
| ToolFactories.ExportImport | backend/services/tool_factory_service/core/factory.py:350-389 | Importing an export into an empty registry gives every tool back, under its name and in order, with only the creation time and last use reset, and no error. |
| ToolFactories.ReimportsKeys | backend/services/tool_factory_service/core/factory.py:377-389 | Re-importing keeps exactly the names. |
| ToolFactories.SuccessCount | backend/services/tool_factory_service/core/factory.py:401 | There are no more successful generations than logged ones. |
| ToolFactories.StatsFields | backend/services/tool_factory_service/core/factory.py:391-404 | The stats count the tools, the logged generations, the successful ones and the total uses, and average the success rates over `max(len(tools), 1)`. |
| ToolFactories.AverageIsMean | backend/services/tool_factory_service/core/factory.py:403 | `sum / max(n, 1)` is the mean, 0.0 for no tools. |
| ToolFactories.SuccessCountAppend | backend/services/tool_factory_service/core/factory.py:435-445 | Logging one entry raises the success count exactly when it is a success. |
| ToolFactories.ToolFactory.constructor | backend/services/tool_factory_service/core/factory.py:55-77 | A new factory keeps its configuration, has no tools and no log, and a fresh sandbox with an empty history. |
| ToolFactories.ToolFactory.GenerateTool | backend/services/tool_factory_service/core/factory.py:79-141 | Returns what `Generate` describes, registers its tool if any, appends its log entries and its sandbox runs, and changes nothing else. |
| ToolFactories.ToolFactory.GenerateCode | backend/services/tool_factory_service/core/factory.py:143-182 | Returns what `GeneratedCode` describes. |
| ToolFactories.ToolFactory.TryTool | backend/services/tool_factory_service/core/factory.py:117-141 | From the first test on, the factory changes as `Tried` describes. |
| ToolFactories.ToolFactory.ImproveLoop | backend/services/tool_factory_service/core/factory.py:124-141 | The improvement loop changes the factory as `Improving` describes. |
| ToolFactories.ToolFactory.ImproveRounds | backend/services/tool_factory_service/core/factory.py:125-134 | The loop's rounds record their sandbox runs and either stop with a registration or an error, or use up every round. |
| ToolFactories.ToolFactory.Conclude | backend/services/tool_factory_service/core/factory.py:133-141 | A passing spec is registered; a failed loop has already been logged and raised. |
| ToolFactories.ToolFactory.ImproveStep | backend/services/tool_factory_service/core/factory.py:126-134 | One round: an offered improvement bumps the version and is tested; a passing one is registered. |
| ToolFactories.ToolFactory.ImproveTool | backend/services/tool_factory_service/core/factory.py:213-259 | Returns what `Improvement` describes. |
| ToolFactories.ToolFactory.TestToolRun | backend/services/tool_factory_service/core/factory.py:184-211 | Returns the summary `TestTool` describes and records its sandbox runs. |
| ToolFactories.ToolFactory.RegisterTool | backend/services/tool_factory_service/core/factory.py:292-305 | Stores the tested rate on the spec, puts it under its name and logs one success. |
| ToolFactories.ToolFactory.LogGeneration | backend/services/tool_factory_service/core/factory.py:422-445 | Appends exactly one log entry with the spec's name, version, the success flag and the test counts. |
| ToolFactories.ToolFactory.GetToolSpec | backend/services/tool_factory_service/core/factory.py:307-316 | A spec exactly when the name is registered, and then the one stored under it. |
| ToolFactories.ToolFactory.ListTools | backend/services/tool_factory_service/core/factory.py:318-334 | One summary per tool, in order, with its name and version. |
| ToolFactories.ToolFactory.RemoveTool | backend/services/tool_factory_service/core/factory.py:336-348 | Returns True exactly when the name was registered, and deletes exactly that entry. |
| ToolFactories.ToolFactory.ExportTools | backend/services/tool_factory_service/core/factory.py:350-369 | The export has exactly the registered names. |
| ToolFactories.ToolFactory.ImportTools | backend/services/tool_factory_service/core/factory.py:371-389 | Imports the records one by one in order, stopping at the first that raises, as `ImportAll` describes; the log is untouched. |
| ToolFactories.ToolFactory.GetStats | backend/services/tool_factory_service/core/factory.py:391-404 | The stats count the tools, logged generations, successful ones and uses, and give the mean success rate. |
| ToolFactories.ImportStops | backend/services/tool_factory_service/core/factory.py:371-389 | Once a record raises, the remaining records change nothing. |
| EpisodicMemory.FilteredFacts | backend/services/episodic_memory/core/memory_store.py:81-93 | A stored memory is kept exactly when it passes the type filter, the importance floor and the keyword match; nothing else is added. |
| EpisodicMemory.NoTermsNoMatches | backend/services/episodic_memory/core/memory_store.py:79-93 | A blank query has no terms, so `any` over them is false and no memory matches. |
| EpisodicMemory.InsertCounts | backend/services/episodic_memory/core/memory_store.py:96 | Inserting into the sorted list adds exactly that memory. |
| EpisodicMemory.InsertOrdered | backend/services/episodic_memory/core/memory_store.py:96 | Inserting keeps the list newest first. |
| EpisodicMemory.InsertStable | backend/services/episodic_memory/core/memory_store.py:96 | Inserting places the new memory after every memory with the same timestamp. |
| EpisodicMemory.SortNewestFacts | backend/services/episodic_memory/core/memory_store.py:95-96 | The sort keeps exactly the same memories, puts them newest first, and keeps memories with equal timestamps in their original order, as Python's stable sort with `reverse=True` does. |
| EpisodicMemory.SortCounts | backend/services/episodic_memory/core/memory_store.py:96 | The sort is a permutation of its input. |
| EpisodicMemory.SortOrdered | backend/services/episodic_memory/core/memory_store.py:96 | The sort's output is newest first. |
| EpisodicMemory.SortStable | backend/services/episodic_memory/core/memory_store.py:96 | Memories with the same timestamp keep their relative order. |
| EpisodicMemory.RetrievalFacts | backend/services/episodic_memory/core/memory_store.py:66-104 | `retrieve` returns only stored, matching memories, newest first, at most `limit` of them, reports the number of matches as `total_found`, and returns every match when the limit allows. |
| EpisodicMemory.RetrievalKeepsNewest | backend/services/episodic_memory/core/memory_store.py:95-99 | With a non-negative limit, exactly `min(limit, total_found)` memories come back: the first ones of the newest-first order. No match left out is newer than one returned. |
| EpisodicMemory.NegativeLimit | backend/services/episodic_memory/core/memory_store.py:99 | A negative limit slices from the end as Python does: `total_found + limit` memories, or none. |
| EpisodicMemory.MemoryStore.constructor | backend/services/episodic_memory/core/memory_store.py:30-34 | A new store is empty. |
| EpisodicMemory.MemoryStore.Store | backend/services/episodic_memory/core/memory_store.py:36-64 | The new memory has the given id, type, content, context (empty when missing) and time, and is stored under its id. |
| EpisodicMemory.MemoryStore.Retrieve | backend/services/episodic_memory/core/memory_store.py:66-104 | Returns what `Retrieval` describes over the stored memories in insertion order. |
| EpisodicMemory.MemoryStore.GetMemory | backend/services/episodic_memory/core/memory_store.py:106-116 | A memory exactly when the id is stored, and then the one with that id. |
| EpisodicMemory.MemoryStore.Delete | backend/services/episodic_memory/core/memory_store.py:118-132 | Returns True exactly when the id was stored, and removes exactly that entry. |
| EpisodicMemory.CollectMatches | backend/services/episodic_memory/core/memory_store.py:81-93 | The loop keeps the matching memories in storage order. |
| EpisodicMemory.StorePreserves | backend/services/episodic_memory/core/memory_store.py:62 | Storing keeps every memory under its own id, each id once. |
| EpisodicMemory.DeletePreserves | backend/services/episodic_memory/core/memory_store.py:128-129 | Deleting keeps every memory under its own id, each id once. |
| EpisodicMemory.StoreThenGet | backend/services/episodic_memory/core/memory_store.py:62-116 | After storing, the id gives the new memory and every other id is unchanged. |
| EpisodicMemory.DeleteThenGet | backend/services/episodic_memory/core/memory_store.py:106-132 | After deleting, the id gives nothing and every other id is unchanged. |
| HclAnalyzer.Clamp | backend/services/hcl_analyzer_service/core/analyzer.py:137-138 | `max(0.0, min(1.0, x))` lies in [0, 1], keeps values already in it, and maps values below to 0.0 and above to 1.0. |
| HclAnalyzer.CpuThresholds | backend/services/hcl_analyzer_service/core/analyzer.py:75-95 | At most one CPU anomaly: severity 0.9 above 90%, 0.6 above 75% up to 90%, none at or below 75%. |
| HclAnalyzer.AnomalyParts | backend/services/hcl_analyzer_service/core/analyzer.py:71-121 | The anomalies are the CPU one, then the memory one, then the error-rate one, each when present. |
| HclAnalyzer.AnomalyBounds | backend/services/hcl_analyzer_service/core/analyzer.py:71-121 | At most three anomalies, all spikes with severity in (0, 1]. |
| HclAnalyzer.AnomalyOrder | backend/services/hcl_analyzer_service/core/analyzer.py:71-121 | The anomalies come in the fixed order CPU, memory, error rate, with no metric twice. |
| HclAnalyzer.AnomalyPresence | backend/services/hcl_analyzer_service/core/analyzer.py:76-119 | A metric is reported exactly when it crosses its threshold: CPU above 75%, memory above 90%, error rate above 0.05. |
| HclAnalyzer.SumSeverityBounds | backend/services/hcl_analyzer_service/core/analyzer.py:130-131 | The summed severities lie between 0 and the number of anomalies. |
| HclAnalyzer.HealthScoreFacts | backend/services/hcl_analyzer_service/core/analyzer.py:123-138 | The health score of the detected anomalies lies in [0, 1]; the unclamped score is never above 1.0 and is kept when not negative. |
| HclAnalyzer.ScoreMonotone | backend/services/hcl_analyzer_service/core/analyzer.py:130-131 | Each further anomaly lowers the unclamped score by a tenth of its severity and never raises the score. |
| HclAnalyzer.HealthySnapshot | backend/services/hcl_analyzer_service/core/analyzer.py:36-69 | Metrics under every threshold give no anomalies, score 1.0, only the healthy message, and intervention only when the threshold is above 1.0. |
| HclAnalyzer.AdviceAllFacts | backend/services/hcl_analyzer_service/core/analyzer.py:153-159 | With known metric names, one recommendation per anomaly, in order. |
| HclAnalyzer.RecommendationFacts | backend/services/hcl_analyzer_service/core/analyzer.py:149-164 | No anomalies give only "System is healthy. No actions required."; otherwise one recommendation per detected anomaly, in order. |
| HclAnalyzer.TrendFacts | backend/services/hcl_analyzer_service/core/analyzer.py:140-147 | CPU and memory trends are "stable"; the latency trend is "stable" below 200 ms and "degrading" otherwise. |
| HclAnalyzer.SystemAnalyzer.constructor | backend/services/hcl_analyzer_service/core/analyzer.py:27-34 | A new analyzer keeps its anomaly threshold. |
| HclAnalyzer.SystemAnalyzer.AnalyzeMetrics | backend/services/hcl_analyzer_service/core/analyzer.py:36-69 | Returns what `Analysis` describes: a score in [0, 1], intervention exactly when the score is below the threshold, and at least one recommendation. |
| HclAnalyzer.SystemAnalyzer.GetStatus | backend/services/hcl_analyzer_service/core/analyzer.py:166-168 | The status is "active" with the threshold written as text. |
| HclAnalyzer.DetectAnomalies | backend/services/hcl_analyzer_service/core/analyzer.py:71-121 | The checks append the anomalies `Anomalies` describes. |
| HclAnalyzer.CalculateHealthScore | backend/services/hcl_analyzer_service/core/analyzer.py:123-138 | The loop computes the clamped score `HealthScore` describes, which lies in [0, 1]. |
| HclAnalyzer.GenerateRecommendations | backend/services/hcl_analyzer_service/core/analyzer.py:149-164 | The loop builds the recommendations `Recommendations` describes, never an empty list. |
| TigFabric.NodeName | backend/services/maximus_core_service/consciousness/tig/fabric/core.py:260 | Every node id starts with "tig-node-". |
| TigFabric.NodeNameOf | backend/services/maximus_core_service/consciousness/tig/fabric/core.py:459-462 | An integer reference becomes the padded node id, which for a non-negative label is `NodeName`. |
| TigFabric.NodeNameInjective | backend/services/maximus_core_service/consciousness/tig/fabric/core.py:260 | Distinct labels give distinct node ids. |
| TigFabric.NodeNumberOfName | backend/services/maximus_core_service/consciousness/tig/fabric/core.py:391-392 | Splitting a node id on "-" and parsing the last piece gives back its label. |
| TigFabric.InstantiateFacts | backend/services/maximus_core_service/consciousness/tig/fabric/core.py:257-261 | After instantiation every graph label has a fresh node in state INITIALIZING under its id, and ids already present remain. |
| TigFabric.WireFacts | backend/services/maximus_core_service/consciousness/tig/fabric/core.py:274-284 | Setting one directed connection changes only that (node, remote) entry and keeps the node ids. |
| TigFabric.LinkFacts | backend/services/maximus_core_service/consciousness/tig/fabric/core.py:263-284 | Wiring an edge sets both directions, with the edge's latency and bandwidth, and changes no other connection. |
| TigFabric.EstablishFacts | backend/services/maximus_core_service/consciousness/tig/fabric/core.py:263-284 | After wiring every edge (none listed twice) the node ids are unchanged and every edge is linked in both directions. |
| TigFabric.EstablishShaped | backend/services/maximus_core_service/consciousness/tig/fabric/core.py:263-284 | Wiring keeps each node's connections keyed by remote id without duplicates, and keeps the node ids. |
| TigFabric.LinkKeeps | backend/services/maximus_core_service/consciousness/tig/fabric/core.py:263-284 | Wiring a later edge keeps every different edge already linked. |
| TigFabric.WeightBounds | backend/services/maximus_core_service/consciousness/tig/fabric/core.py:518-529 | `min(w * 1.5, 2.0)` and `max(w / 1.5, 1.0)` keep a weight in [1, 2]. |
| TigFabric.BoostRelax | backend/services/maximus_core_service/consciousness/tig/fabric/core.py:508-529 | Entering then leaving ignition mode restores a weight exactly when it was at most 4/3. |
| TigFabric.EnterAll | backend/services/maximus_core_service/consciousness/tig/fabric/core.py:508-520 | Entering ignition mode keeps the node ids and their number. |
| TigFabric.ExitAll | backend/services/maximus_core_service/consciousness/tig/fabric/core.py:522-529 | Leaving ignition mode keeps the node ids and their number. |
| TigFabric.ModesKeepWeights | backend/services/maximus_core_service/consciousness/tig/fabric/core.py:508-529 | Both mode changes keep all connection weights in [1, 2]. |
| TigFabric.EnterExitNode | backend/services/maximus_core_service/consciousness/tig/fabric/core.py:508-529 | For weights at most 4/3, entering then leaving ignition mode gives back the node, now ACTIVE. |
| TigFabric.EnterExitRestores | backend/services/maximus_core_service/consciousness/tig/fabric/core.py:508-529 | For weights at most 4/3, entering then leaving ignition mode restores every node except that its state is ACTIVE. |
| TigFabric.MinDegree | backend/services/maximus_core_service/consciousness/tig/fabric/core.py:310-311 | The minimum degree is at most every node's degree and is some node's degree. |
| TigFabric.AlgebraicConnectivity | backend/services/maximus_core_service/consciousness/tig/fabric/core.py:309-315 | The connectivity shortcut is 0.0 for an empty graph. |
| TigFabric.Ratio | backend/services/maximus_core_service/consciousness/tig/fabric/core.py:313 | `min_degree / n` is non-negative, zero exactly for a zero numerator, and times n gives back the numerator. |
| TigFabric.ConnectivityZeroIff | backend/services/maximus_core_service/consciousness/tig/fabric/core.py:305-315 | The connectivity shortcut is non-negative and is zero exactly when some node has no link. |
| TigFabric.Eci | backend/services/maximus_core_service/consciousness/tig/fabric/core.py:331-362 | The index is 0.0 below two nodes, never above 1.0, and otherwise equals the global efficiency when that is at most 1. |
| TigFabric.MapNames | backend/services/maximus_core_service/consciousness/tig/fabric/core.py:375 | Bottleneck locations are the node ids of the articulation points, in order. |
| TigFabric.MaxLatency | backend/services/maximus_core_service/consciousness/tig/fabric/core.py:326 | The maximum latency bounds every connection's latency and is one of them. |
| TigFabric.MeanAtMostMax | backend/services/maximus_core_service/consciousness/tig/fabric/core.py:324-326 | The mean latency is at most the maximum latency. |
| TigFabric.BottleneckFlag | backend/services/maximus_core_service/consciousness/tig/fabric/core.py:286-378 | The computed metrics flag bottlenecks exactly when there are articulation points, name them in order, keep the index at most 1 and the mean latency at most the maximum. |
| TigFabric.Fabric.constructor | backend/services/maximus_core_service/consciousness/tig/fabric/core.py:59-75 | A new fabric has no nodes, an empty graph, fresh metrics and neither flag set. |
| TigFabric.Fabric.GetInitStatus | backend/services/maximus_core_service/consciousness/tig/fabric/core.py:232-255 | The status is "ready" exactly when initialized, "initializing" exactly when only initializing, "not_started" otherwise, with the node counts. |
| TigFabric.Fabric.GetNode | backend/services/maximus_core_service/consciousness/tig/fabric/core.py:433-435 | A node is found exactly when its id is present, and it carries that id. |
| TigFabric.Fabric.InstantiateNodes | backend/services/maximus_core_service/consciousness/tig/fabric/core.py:257-261 | The loop puts a fresh node for each graph label, as `Instantiate` describes. |
| TigFabric.Fabric.EstablishConnections | backend/services/maximus_core_service/consciousness/tig/fabric/core.py:263-284 | The loop wires every edge as `Establish` describes, keeping the node ids and linking every edge both ways. |
| TigFabric.Fabric.MinPathRedundancy | backend/services/maximus_core_service/consciousness/tig/fabric/core.py:380-400 | With more than one node, the result is the smallest path count over the sampled pairs, and some sampled pair has it. |
| TigFabric.Fabric.ComputeMetrics | backend/services/maximus_core_service/consciousness/tig/fabric/core.py:286-400 | Without metrics it fails as attribute access on None does. On an empty graph it fails with "division by zero" (the clustering average), after writing the node count 0, the edge count and the density 0. Otherwise the metrics become `MetricsOf` the graph and connections, with the minimum sampled redundancy above one node; with no sampled pair (at most one node) the redundancy is 0, and for a graph of at most one node the previous value is kept. |
| TigFabric.Fabric.ActivateAll | backend/services/maximus_core_service/consciousness/tig/fabric/core.py:119-121 | Every node becomes ACTIVE and nothing else about it changes. |
| TigFabric.Fabric.BuildTopology | backend/services/maximus_core_service/consciousness/tig/fabric/core.py:90-98 | After generation, instantiation and wiring, every label has a node and every edge is linked. |
| TigFabric.Fabric.Initialize | backend/services/maximus_core_service/consciousness/tig/fabric/core.py:77-127 | A second call fails with "Fabric already initialized" and changes nothing. Otherwise it succeeds exactly when the metrics exist and the generated graph is not empty, and then the fabric is initialized with every node ACTIVE and every edge linked. |
| TigFabric.Fabric.InitializeAsync | backend/services/maximus_core_service/consciousness/tig/fabric/core.py:129-159 | Fails when already initialized, returns quietly when already initializing, and otherwise marks the fabric initializing and starts the background run. |
| TigFabric.Fabric.BackgroundInit | backend/services/maximus_core_service/consciousness/tig/fabric/core.py:161-214 | The initializing flag is always cleared. It succeeds exactly when generation succeeds, the metrics exist and the graph is not empty; success means initialized with every node ACTIVE and every edge linked; a generation failure changes nothing else. |
| TigFabric.Fabric.BroadcastGlobal | backend/services/maximus_core_service/consciousness/tig/fabric/core.py:402-427 | Fails exactly when not initialized; otherwise the reach is the sum of the integer results over the nodes. |
| TigFabric.SumReachedBounds | backend/services/maximus_core_service/consciousness/tig/fabric/core.py:424-425 | The total reach is 0 when no node returns an integer and non-negative when all of them are non-negative. |
| TigFabric.Fabric.ActivateNode | backend/services/maximus_core_service/consciousness/tig/fabric/core.py:453-478 | An unknown node changes nothing; a known one records the stimulus; it spreads exactly when the activation exceeds 0.5, with priority `int(activation * 10)`. |
| TigFabric.Fabric.Stop | backend/services/maximus_core_service/consciousness/tig/fabric/core.py:480-506 | Clears the nodes and the graph and drops the metrics. |
| TigFabric.Fabric.EnterEsgtMode | backend/services/maximus_core_service/consciousness/tig/fabric/core.py:508-520 | The nodes become `EnterAll` of the old nodes: ESGT_MODE, with every weight multiplied by 1.5 and capped at 2.0. |
| TigFabric.Fabric.ExitEsgtMode | backend/services/maximus_core_service/consciousness/tig/fabric/core.py:522-529 | The nodes become `ExitAll` of the old nodes: ACTIVE, with every weight divided by 1.5 and floored at 1.0. |
| TigFabric.MinRedundancy | backend/services/maximus_core_service/consciousness/tig/fabric/core.py:380-400 | The double loop returns the smallest path count over the first ten ids paired with the next ten, and some sampled pair has it. |
| TigFabric.ActivationKeepsLinks | backend/services/maximus_core_service/consciousness/tig/fabric/core.py:119-121 | Activating the nodes keeps every label's node and every edge's links. |
| EsgtCoordinator.BlockedEvent | backend/services/maximus_core_service/consciousness/esgt/coordinator.py:134-145 | A blocked event has the single phase FAILED, is unsuccessful, carries its reason, and its id starts with "esgt-blocked-". |
| EsgtCoordinator.RecruitedFacts | backend/services/maximus_core_service/consciousness/esgt/coordinator.py:362-379 | Exactly the nodes in state "active" or "esgt_mode" are recruited, and their number is the available-node count. |
| EsgtCoordinator.CountRecent | backend/services/maximus_core_service/consciousness/esgt/coordinator.py:347 | The recent count never exceeds the number of events considered. |
| EsgtCoordinator.Triggers | backend/services/maximus_core_service/consciousness/esgt/coordinator.py:328-360 | Low salience fails with its reason first; the check can only fail outright when salience passes and the fabric or its metrics are missing. |
| EsgtCoordinator.Max | backend/services/maximus_core_service/consciousness/esgt/coordinator.py:286-287 | The maximum of the coherence history bounds every sample and is one of them. |
| EsgtCoordinator.GateOrder | backend/services/maximus_core_service/consciousness/esgt/coordinator.py:156-176 | The gates apply in order: frequency limit, concurrency, circuit breaker, then low salience in degraded mode; a blocked attempt returns a FAILED event with the gate's reason and counts, records and changes nothing. |
| EsgtCoordinator.BlockedRun | backend/services/maximus_core_service/consciousness/esgt/coordinator.py:156-176 | A closed gate returns exactly the blocked event for that reason. |
| EsgtCoordinator.PassedRun | backend/services/maximus_core_service/consciousness/esgt/coordinator.py:178-187 | Passing every gate counts the attempt and runs the admitted path. |
| EsgtCoordinator.TriggeredRun | backend/services/maximus_core_service/consciousness/esgt/coordinator.py:189-210 | Once the triggers pass, the run continues with node recruitment on the fabric. |
| EsgtCoordinator.TriggerFailureRecorded | backend/services/maximus_core_service/consciousness/esgt/coordinator.py:189-195 | A trigger failure is counted and recorded as a FAILED event with the trigger's reason, and is not a success. |
| EsgtCoordinator.EarlyEndsNotRecorded | backend/services/maximus_core_service/consciousness/esgt/coordinator.py:208-236 | Too few recruited nodes, or a synchronisation below conscious level, end the event unsuccessfully without recording it in the history. |
| EsgtCoordinator.SustainCompletes | backend/services/maximus_core_service/consciousness/esgt/coordinator.py:270-289 | From sustain on, a successful event ends with DISSOLVE and COMPLETE and takes the highest coherence sample as its achieved coherence. |
| EsgtCoordinator.SyncCompletes | backend/services/maximus_core_service/consciousness/esgt/coordinator.py:212-289 | A successful synchronisation needs an initialized fabric and conscious-level coherence, and the achieved coherence is the highest sample, or the sync coherence when there are none. |
| EsgtCoordinator.PrepareCompletes | backend/services/maximus_core_service/consciousness/esgt/coordinator.py:197-289 | Success needs enough recruited nodes, conscious-level coherence and no fault, and passes through all six phases. |
| EsgtCoordinator.SuccessPath | backend/services/maximus_core_service/consciousness/esgt/coordinator.py:147-302 | A completed ignition (finalised successful) is admitted and recorded, enters and exits ignition mode, passes all six phases, has at least the minimum nodes, and reports the highest coherence sample. |
| EsgtCoordinator.AttemptCounting | backend/services/maximus_core_service/consciousness/esgt/coordinator.py:186-195 | Only admitted attempts are counted and only they are recorded. A completed attempt counts as a success exactly when `was_successful` accepts its finished event, and only a recorded attempt touched the fabric. |
| EsgtCoordinator.ConcurrencyGateUnreachable | backend/services/maximus_core_service/consciousness/esgt/coordinator.py:161-164 | With no active event and a limit of at least one, the concurrency gate never blocks. |
| EsgtCoordinator.Neighbours | backend/services/maximus_core_service/consciousness/esgt/coordinator.py:389-393 | A node's topology neighbours are exactly its active connections to participating nodes. |
| EsgtCoordinator.Topology | backend/services/maximus_core_service/consciousness/esgt/coordinator.py:381-396 | Every participating node present in the fabric gets an entry, and no other node does. Each entry is exactly the participating remote ends of the node's active connections, in connection order. |
| EsgtCoordinator.SuccessCoherencesFrom | backend/services/maximus_core_service/consciousness/esgt/coordinator.py:447 | A coherence is averaged exactly when some successful recent event achieved it. |
| EsgtCoordinator.RecentCoherenceBounds | backend/services/maximus_core_service/consciousness/esgt/coordinator.py:441-448 | No recent events give no coherences, and coherences in [0, 1] give a mean in [0, 1]. |
| EsgtCoordinator.Coordinator.constructor | backend/services/maximus_core_service/consciousness/esgt/coordinator.py:57-107 | A new coordinator has an empty history, time 0.0, zero counters, the full concurrency limit and is not running or degraded. |
| EsgtCoordinator.Coordinator.Start | backend/services/maximus_core_service/consciousness/esgt/coordinator.py:109-120 | A second start changes nothing; otherwise the coordinator runs, failing when it has no fabric. |
| EsgtCoordinator.Coordinator.Stop | backend/services/maximus_core_service/consciousness/esgt/coordinator.py:122-132 | Stopping clears the running flag, the fabric reference, the history and the active events. |
| EsgtCoordinator.Coordinator.EnterDegradedMode | backend/services/maximus_core_service/consciousness/esgt/coordinator.py:450-454 | Degraded mode is set and the concurrency limit becomes 1. |
| EsgtCoordinator.Coordinator.ExitDegradedMode | backend/services/maximus_core_service/consciousness/esgt/coordinator.py:456-460 | Degraded mode is cleared and the concurrency limit is restored. |
| EsgtCoordinator.Coordinator.GetSuccessRate | backend/services/maximus_core_service/consciousness/esgt/coordinator.py:435-439 | The rate is 0.0 with no events, lies in [0, 1], and times the total gives the successful count. |
| EsgtCoordinator.Coordinator.GetRecentCoherence | backend/services/maximus_core_service/consciousness/esgt/coordinator.py:441-448 | The value is 0.0 when no recent event succeeded, and lies in [0, 1] when every coherence does. |
| EsgtCoordinator.Coordinator.RecruitNodes | backend/services/maximus_core_service/consciousness/esgt/coordinator.py:362-379 | The loop returns the nodes `Recruited` describes. |
| EsgtCoordinator.Coordinator.BuildTopology | backend/services/maximus_core_service/consciousness/esgt/coordinator.py:381-396 | Every participating node present in the fabric gets an entry. Each entry is exactly the participating remote ends of its active connections. |
| EsgtCoordinator.Coordinator.InitiateEsgt | backend/services/maximus_core_service/consciousness/esgt/coordinator.py:147-309 | The result and the new counters, history, last time and fabric nodes are those `Run` describes. |
| EsgtCoordinator.Coordinator.PreparePhase | backend/services/maximus_core_service/consciousness/esgt/coordinator.py:197-210 | The prepare stage updates the coordinator and fabric as `PrepareStage` describes. |
| EsgtCoordinator.Coordinator.SynchronizePhase | backend/services/maximus_core_service/consciousness/esgt/coordinator.py:212-239 | The synchronise stage updates them as `SyncStage` describes. |
| EsgtCoordinator.Coordinator.BroadcastPhase | backend/services/maximus_core_service/consciousness/esgt/coordinator.py:241-268 | The broadcast stage enters ignition mode and broadcasts, as `BroadcastStage` describes. |
| EsgtCoordinator.Coordinator.SustainPhase | backend/services/maximus_core_service/consciousness/esgt/coordinator.py:270-274 | The sustain stage updates them as `SustainStage` describes. |
| EsgtCoordinator.Coordinator.DissolvePhase | backend/services/maximus_core_service/consciousness/esgt/coordinator.py:276-302 | The dissolve stage exits ignition mode and records the completed event. It raises the success count only when `was_successful` accepts the event, as `DissolveStage` describes. |

## Left out

Behaviour outside the model:

- Concurrency is modelled sequentially. `asyncio.gather` runs the ready tasks one after the other in dict order. `wait_for` timeouts, `create_task`, the thread pool, sleeps, locks and task cancellation are not modelled. The fabric's `stop` leaves the initialising flag as it is, as a cancelled background run does.
- Wall clock, `uuid4` and random link characteristics are inputs, as are durations measured by the clock. Log and `print` output is not modelled.
- Floating point is modelled as exact real arithmetic. Rounding in means, percentages and weight scaling is not modelled, and neither are `:.2f`-style renderings except where a string is compared.
- Python's `str.lower` is ASCII-only here: Unicode case folding is not modelled. `str.strip` and `str.split` use Python's Unicode whitespace set (`Strings.IsSpace`).

Foreign code, taken as inputs with abstract results:

- Language-model calls.
- `json.loads`, `json.dumps` and `repr`.
- Python's `ast` parser (as a walk-order node list).
- pydantic validation of the services' request models. `ToolSpec` is a plain dataclass without validation.
- The HTTP transport and the subprocess.
- networkx and numpy analyses.
- The topology generator.
- The Kuramoto oscillator network (`synchronize`, `update_network`, `get_coherence`, `reset_all`).
- The frequency limiter and the circuit breaker.
- The health manager and `send_to_node`.
- `TriggerConditions.check_*`.
- The salience score.
- The prefrontal-cortex social signal hook.
- `ESGTEvent`'s own methods, beyond the phase list, the success flag and the reason they record. The verdict of `was_successful` is the input `Ignition.wasSuccessful`.

Operations not modelled:

- The coordinator's oscillator set-up in `start`: the oscillators are not modelled, so `start` only sets the running flag, or fails without a fabric.
- `_sustain_coherence` and `_dissolve_event`: their tick loops are replaced by the samples the oscillator network yields (`Ignition.samples`).
- `compute_salience_from_attention`, `build_content_from_attention` and `get_health_metrics` of the coordinator: they delegate to code outside these files. `ignition_timestamps` and `coherence_history` are never appended to in the coordinator.
- The fabric's `get_health_metrics`, `send_to_node` and `get_metrics`, plus `__repr__` throughout: these are delegation or presentation.
- The LLM client's HTTP client lifecycle, `health_check` and prompt templates. The prompts are inputs (`Services`).
- `validate_iit_compliance` and the messages it prints in the fabric's initialisation. Its verdict does not change the fabric's state.

Contracts and simplifications:

- EsgtCoordinator.Coordinator.GetRecentCoherence: states the bounds of the mean (0.0 with no successes, in [0, 1] for coherences in [0, 1]). Which events are averaged is stated separately by `SuccessCoherencesFrom`.
- Orchestration.Orchestrator.ExecuteMission: the mission-level `except asyncio.TimeoutError` and `except Exception` handlers of `execute_mission` (orchestrator.py lines 118-136) are not modelled, because nothing beneath them raises in this model. Agent failures and timeouts are caught per task by `_execute_atomic_task`, and decomposition errors fall back to the rules.
- TaskDecomposition.SubtaskFrom: an item whose `type` or `description` is present but not a string is treated as raising inside the `try`, so the rules' split is used. Python stores the value in the dataclass `Task`. The later `description.lower()` in `_needs_decomposition` then raises outside the `try`; at the depth limit the task is returned as it is. (A non-string `priority` does raise inside the `try`, at `.lower()` in `_parse_priority`, as modelled.)
- TaskDecomposition.IdsOf: only integer (and boolean) dependency indices are numbered. Python also formats a float index, so `0.0` gives the id `p.1.0`; the model treats it as raising and uses the rules' split.
- ToolFactories.Typed: an imported field of the wrong JSON type (a string `version`, a list `name`, a non-dict `parameters`, …) stops the import with a TypeError. `ToolSpec` is a plain dataclass, so Python stores such a value as it is.
- ToolFactories.Decode: inherits the TypeError of `ToolFactories.Typed` for a record with a wrongly typed field, where Python stores the value. Its errors for a missing key and for a record that is not a dict are those of Python.
- ToolFactories.ToolFactory.ImportTools: stops at the first record that lacks a required key or has a wrongly typed field. Python stops only at a missing key or a non-dict record.
- TaskDecomposition.Decompose: the model returns an updated copy of an atomic task (`isAtomic` set). Python sets `task.is_atomic = True` on the caller's own task object and returns that object, so the in-place update and the aliasing are not modelled. Nothing in the orchestrator reads the original task afterwards.
- TigFabric.Fabric.MinPathRedundancy: the pair sample is read through the node ids' numeric suffixes, as the source does. The graph library's `NetworkXNoPath` branch is folded into the path-count input. An id without a numeric suffix counts zero paths instead of raising, but every id the fabric creates has one (`NodeNumberOfName`).
- EsgtCoordinator.Coordinator.BroadcastPhase: the event's content is not modelled. Python stores the caller's `content` dict in the event, and a truthy prefrontal-cortex response is written into that same dict as `content["pfc_action"]`, so the caller sees the change.
- EsgtCoordinator.Coordinator.SustainPhase: a fault inside the sustain loop is modelled as raising before any sample. In Python the samples appended to `event.coherence_history` before the fault stay on the failed event.
- ToolFactories.ToolFactory.LogGeneration: one `now` input stands for two clocks. Python stamps `created_at` with `datetime.utcnow` and the log entry with the later, local `datetime.now()`. Every record of one import also gets the same `now`, where Python reads the clock once per record.
- Sandboxes.SandboxExecutor.Execute: a failure to start the subprocess is not modelled. `execute` has only `try`/`finally` around `asyncio.create_subprocess_exec`, so that error propagates to the caller; `SandboxEnv.run` always yields a finished run or a timeout.
- Event history, execution history and generation history are unbounded lists, as in the source. Bounded deques appear only in the coordinator's unmodelled health metrics.
