/**
 * The registry of agent plugins: registration by name, scored selection of
 * the agent for a task, filtered listing, statistics and health checks.
 *
 * An agent's `can_handle` and `health_check` answers are inputs; an
 * exception they raise is an `Err`.
 */
module AgentRegistries {
  import opened Wrappers
  import opened OrderedMaps
  import opened Json
  import opened Plugins
  import opened Averages

  /** What the registry knows about one agent at a given moment. */
  datatype Entry = Entry(
    agent: Agent,
    enabled: bool,
    priority: int,
    tags: seq<string>,
    registered: Option<real>,
    executed: nat,
    failed: nat,
    averageMs: real)

  function EntryOf(m: AgentPluginMetadata): Entry
    reads m
  {
    Entry(m.agent, m.enabled, m.priority, m.tags, m.registrationTimestamp,
      m.totalTasksExecuted, m.totalTasksFailed, m.averageExecutionTimeMs)
  }

  function Metas(d: Dict<string, AgentPluginMetadata>): set<AgentPluginMetadata> {
    set i | 0 <= i < |d| :: d[i].1
  }

  /** The registry's contents as values, in registration order. */
  function Snapshot(d: Dict<string, AgentPluginMetadata>): (s: Dict<string, Entry>)
    reads Metas(d)
    ensures |s| == |d| && forall i :: 0 <= i < |d| ==> s[i] == (d[i].0, EntryOf(d[i].1))
  {
    seq(|d|, i requires 0 <= i < |d| reads Metas(d) => (d[i].0, EntryOf(d[i].1)))
  }

  // ---------------------------------------------------------------------------
  // Selection

  /** `health.get("healthy", False)` is truthy. */
  predicate Healthy(h: Result<Object>) {
    h.Ok? && Truthy(GetOr(h.value, "healthy", JBool(false)))
  }

  /** Enabled, able to handle the task, and healthy; a raised check disqualifies. */
  predicate Eligible(e: Entry, task: Task, canHandle: (Agent, Task) -> Result<bool>, health: Agent -> Result<Object>) {
    e.enabled && canHandle(e.agent, task) == Ok(true) && Healthy(health(e.agent))
  }

  /** `priority / (average_execution_time_ms or 1.0)`. */
  function Score(e: Entry): real {
    (e.priority as real) / (if e.averageMs == 0.0 then 1.0 else e.averageMs)
  }

  /** The eligible entries, in registration order. */
  function Candidates(v: Dict<string, Entry>, task: Task, canHandle: (Agent, Task) -> Result<bool>, health: Agent -> Result<Object>): (cs: seq<Entry>)
    ensures |cs| <= |v|
  {
    if v == [] then []
    else
      var last := v[|v| - 1].1;
      Candidates(v[..|v| - 1], task, canHandle, health) + (if Eligible(last, task, canHandle, health) then [last] else [])
  }

  /** The first element of a stable descending sort by score: the earliest of the highest scores. */
  function Best(cs: seq<Entry>): (b: nat)
    requires cs != []
    ensures b < |cs|
    ensures forall j :: 0 <= j < |cs| ==> Score(cs[j]) <= Score(cs[b])
    ensures forall j :: 0 <= j < b ==> Score(cs[j]) < Score(cs[b])
  {
    if |cs| == 1 then 0
    else
      var p := Best(cs[..|cs| - 1]);
      assert forall j :: 0 <= j < |cs| - 1 ==> cs[..|cs| - 1][j] == cs[j];
      if Score(cs[|cs| - 1]) > Score(cs[p]) then |cs| - 1 else p
  }

  lemma {:induction false} CandidatesFacts(v: Dict<string, Entry>, task: Task, canHandle: (Agent, Task) -> Result<bool>, health: Agent -> Result<Object>)
    ensures forall e :: e in Candidates(v, task, canHandle, health) <==>
      exists i :: 0 <= i < |v| && v[i].1 == e && Eligible(e, task, canHandle, health)
  {
    if v != [] {
      var init := v[..|v| - 1];
      CandidatesFacts(init, task, canHandle, health);
      forall e ensures e in Candidates(v, task, canHandle, health) <==>
        exists i :: 0 <= i < |v| && v[i].1 == e && Eligible(e, task, canHandle, health)
      {
        if exists i :: 0 <= i < |v| && v[i].1 == e && Eligible(e, task, canHandle, health) {
          var i :| 0 <= i < |v| && v[i].1 == e && Eligible(e, task, canHandle, health);
          if i < |v| - 1 {
            assert init[i] == v[i];
          }
        }
        if e in Candidates(init, task, canHandle, health) {
          var i :| 0 <= i < |init| && init[i].1 == e && Eligible(e, task, canHandle, health);
          assert v[i] == init[i];
        }
      }
    }
  }

  /** `select_agent` on a snapshot. */
  lemma CandidatesSnoc(v: Dict<string, Entry>, i: nat, task: Task, canHandle: (Agent, Task) -> Result<bool>, health: Agent -> Result<Object>)
    requires i < |v|
    ensures Candidates(v[..i + 1], task, canHandle, health) ==
      Candidates(v[..i], task, canHandle, health) + (if Eligible(v[i].1, task, canHandle, health) then [v[i].1] else [])
  {
    assert v[..i + 1][..i] == v[..i];
  }

  /** The sort of `select_agent` followed by taking the first: a scan for the earliest highest score. */
  method BestIndex(cs: seq<Entry>) returns (best: nat)
    requires cs != []
    ensures best == Best(cs)
  {
    best := 0;
    var k := 1;
    while k < |cs|
      invariant 1 <= k <= |cs|
      invariant best == Best(cs[..k])
    {
      BestSnoc(cs, k);
      if Score(cs[k]) > Score(cs[best]) {
        best := k;
      }
      k := k + 1;
    }
    assert cs[..|cs|] == cs;
  }

  lemma BestSnoc(cs: seq<Entry>, k: nat)
    requires 0 < k < |cs|
    ensures Best(cs[..k + 1]) == if Score(cs[k]) > Score(cs[Best(cs[..k])]) then k else Best(cs[..k])
  {
    assert cs[..k + 1][..k] == cs[..k];
  }

  function Selected(v: Dict<string, Entry>, task: Task, canHandle: (Agent, Task) -> Result<bool>, health: Agent -> Result<Object>): Option<Agent> {
    var cs := Candidates(v, task, canHandle, health);
    if cs == [] then None else Some(cs[Best(cs)].agent)
  }

  /**
   * The selected agent is registered, enabled, accepts the task and is
   * healthy, and no eligible agent scores higher; there is a selection exactly
   * when some agent is eligible.
   */
  lemma SelectionFacts(v: Dict<string, Entry>, task: Task, canHandle: (Agent, Task) -> Result<bool>, health: Agent -> Result<Object>)
    ensures var r := Selected(v, task, canHandle, health);
      && (r.None? <==> forall i :: 0 <= i < |v| ==> !Eligible(v[i].1, task, canHandle, health))
      && (r.Some? ==>
            exists i :: 0 <= i < |v| && v[i].1.agent == r.value && Eligible(v[i].1, task, canHandle, health)
              && (forall j :: 0 <= j < |v| && Eligible(v[j].1, task, canHandle, health) ==> Score(v[j].1) <= Score(v[i].1)))
  {
    var cs := Candidates(v, task, canHandle, health);
    CandidatesFacts(v, task, canHandle, health);
    if cs == [] {
      forall i | 0 <= i < |v| ensures !Eligible(v[i].1, task, canHandle, health) {
        var e := v[i].1;
        assert Eligible(e, task, canHandle, health) ==> e in cs;
      }
    } else {
      var b := Best(cs);
      assert cs[b] in cs;
      var i :| 0 <= i < |v| && v[i].1 == cs[b] && Eligible(cs[b], task, canHandle, health);
      forall j | 0 <= j < |v| && Eligible(v[j].1, task, canHandle, health) ensures Score(v[j].1) <= Score(v[i].1) {
        assert v[j].1 in cs;
        var k :| 0 <= k < |cs| && cs[k] == v[j].1;
      }
    }
  }

  // ---------------------------------------------------------------------------
  // Listing and health

  /** The dictionary `list_agents` returns for one agent. */
  datatype AgentInfo = AgentInfo(
    name: string,
    version: string,
    enabled: bool,
    priority: int,
    capabilities: seq<string>,
    description: string,
    tags: seq<string>,
    totalExecuted: nat,
    totalFailed: nat,
    successRate: real,
    avgExecTimeMs: real)

  function Info(name: string, e: Entry): AgentInfo {
    AgentInfo(name, e.agent.version, e.enabled, e.priority, e.agent.capabilities, e.agent.description, e.tags,
      e.executed, e.failed, SuccessShare(e.executed, e.failed), e.averageMs)
  }

  /** Not skipped: enabled when only enabled agents are asked for, sharing a tag when a non-empty tag set is given. */
  predicate Listed(e: Entry, enabledOnly: bool, tags: Option<set<string>>) {
    && !(enabledOnly && !e.enabled)
    && !(tags.Some? && tags.value != {} && forall t :: t in e.tags ==> t !in tags.value)
  }

  function Listing(v: Dict<string, Entry>, enabledOnly: bool, tags: Option<set<string>>): (r: seq<AgentInfo>)
    ensures |r| <= |v|
  {
    if v == [] then []
    else
      var last := v[|v| - 1];
      Listing(v[..|v| - 1], enabledOnly, tags) + (if Listed(last.1, enabledOnly, tags) then [Info(last.0, last.1)] else [])
  }

  /** The listing holds exactly the agents that pass both filters. */
  lemma {:induction false} ListingFacts(v: Dict<string, Entry>, enabledOnly: bool, tags: Option<set<string>>)
    ensures forall a :: a in Listing(v, enabledOnly, tags) <==>
      exists i :: 0 <= i < |v| && a == Info(v[i].0, v[i].1) && Listed(v[i].1, enabledOnly, tags)
  {
    if v != [] {
      var init := v[..|v| - 1];
      ListingFacts(init, enabledOnly, tags);
      forall a ensures a in Listing(v, enabledOnly, tags) <==>
        exists i :: 0 <= i < |v| && a == Info(v[i].0, v[i].1) && Listed(v[i].1, enabledOnly, tags)
      {
        if exists i :: 0 <= i < |v| && a == Info(v[i].0, v[i].1) && Listed(v[i].1, enabledOnly, tags) {
          var i :| 0 <= i < |v| && a == Info(v[i].0, v[i].1) && Listed(v[i].1, enabledOnly, tags);
          if i < |v| - 1 {
            assert init[i] == v[i];
          }
        }
        if a in Listing(init, enabledOnly, tags) {
          var i :| 0 <= i < |init| && a == Info(init[i].0, init[i].1) && Listed(init[i].1, enabledOnly, tags);
          assert v[i] == init[i];
        }
      }
    }
  }

  /** `_check_agent_health`: the agent's report with "enabled" added, or an error report when it raises. */
  function HealthReport(e: Entry, health: Agent -> Result<Object>): Object {
    match health(e.agent)
    case Err(msg) => [("healthy", JBool(false)), ("status", JStr("error")), ("error", JStr(msg))]
    case Ok(h) => Put(h, "enabled", JBool(e.enabled))
  }

  /** A health check that raises reports the agent unhealthy. */
  lemma FailedCheckUnhealthy(e: Entry, health: Agent -> Result<Object>)
    requires health(e.agent).Err?
    ensures GetOr(HealthReport(e, health), "healthy", JNull) == JBool(false)
    ensures GetOr(HealthReport(e, health), "error", JNull) == JStr(health(e.agent).error)
  {
    var r := HealthReport(e, health);
    GetAt(r, 0);
    GetAt(r, 2);
  }

  // ---------------------------------------------------------------------------
  // Statistics

  /** One more execution on an entry: a success or a failure, folded into the running average. */
  function Recorded(e: Entry, success: bool, executionTimeMs: int): Entry {
    e.(executed := e.executed + (if success then 1 else 0),
       failed := e.failed + (if success then 0 else 1),
       averageMs := RunningMean(e.averageMs, e.executed + e.failed, executionTimeMs as real))
  }

  /** `update_stats` on a snapshot: the named entry records the execution; an unknown name changes nothing. */
  function RecordStats(v: Dict<string, Entry>, name: string, success: bool, executionTimeMs: int): Dict<string, Entry> {
    match Get(v, name)
    case None => v
    case Some(e) => Put(v, name, Recorded(e, success, executionTimeMs))
  }

  /**
   * Recording keeps the average the mean of all recorded times, counts exactly
   * one more success or failure, and leaves the rest of the entry alone.
   */
  lemma RecordedFacts(e: Entry, success: bool, ms: int, times: seq<real>)
    requires |times| == e.executed + e.failed && e.averageMs == Mean(times)
    ensures var r := Recorded(e, success, ms);
      && r.averageMs == Mean(times + [ms as real])
      && r.executed + r.failed == e.executed + e.failed + 1
      && (success <==> r.executed == e.executed + 1)
      && (!success <==> r.failed == e.failed + 1)
      && r.(executed := e.executed, failed := e.failed, averageMs := e.averageMs) == e
  {
    MeanSnoc(times, ms as real);
  }

  /** Recording for one agent changes no other agent's entry, and an unknown name changes nothing. */
  lemma RecordStatsFacts(v: Dict<string, Entry>, name: string, success: bool, ms: int, other: string)
    requires DistinctKeys(v)
    ensures Keys(RecordStats(v, name, success, ms)) == Keys(v) && DistinctKeys(RecordStats(v, name, success, ms))
    ensures other != name ==> Get(RecordStats(v, name, success, ms), other) == Get(v, other)
    ensures Get(RecordStats(v, name, success, ms), name) ==
      match Get(v, name) case None => None case Some(e) => Some(Recorded(e, success, ms))
  {
    match Get(v, name)
    case None =>
    case Some(e) =>
      PutGet(v, name, Recorded(e, success, ms), other);
      PutGet(v, name, Recorded(e, success, ms), name);
  }

  // ---------------------------------------------------------------------------
  // The registry

  /** The metadata `register` creates: the agent's settings, no executions, stamped with the registration time. */
  method NewMetadata(agent: Agent, now: real, enabled: bool, priority: int, tags: Option<seq<string>>)
    returns (metadata: AgentPluginMetadata)
    ensures fresh(metadata) && metadata.Valid() && metadata.agent == agent
    ensures EntryOf(metadata) == Entry(agent, enabled, priority, tags.GetOr([]), Some(now), 0, 0, 0.0)
  {
    metadata := new AgentPluginMetadata(agent, enabled, priority, tags);
    metadata.registrationTimestamp := Some(now);
  }

  class AgentRegistry {
    var agents: Dict<string, AgentPluginMetadata>
    ghost var Repr: set<object>

    ghost predicate Valid()
      reads this, Repr
    {
      && this in Repr
      && Metas(agents) <= Repr
      && Registered(agents)
    }

    function View(): Dict<string, Entry>
      reads this, Repr
      requires Valid()
    {
      Snapshot(agents)
    }

    constructor ()
      ensures Valid() && fresh(Repr) && agents == []
    {
      agents := [];
      Repr := {this};
    }

    /** `register`: a name may be registered once; the new entry has zero counters and the registration time. */
    method Register(agent: Agent, now: real, enabled: bool := true, priority: int := 100, tags: Option<seq<string>> := None)
      returns (err: Option<string>)
      requires Valid()
      modifies this
      ensures Valid() && fresh(Repr - old(Repr))
      ensures HasKey(old(View()), agent.name) ==>
        && err == Some("Agent '" + agent.name + "' is already registered. Unregister it first or use update().")
        && agents == old(agents)
      ensures !HasKey(old(View()), agent.name) ==>
        && err.None?
        && View() == old(View()) + [(agent.name, Entry(agent, enabled, priority, tags.GetOr([]), Some(now), 0, 0, 0.0))]
    {
      if IndexOfKey(agents, agent.name).Some? {
        return Some("Agent '" + agent.name + "' is already registered. Unregister it first or use update().");
      }
      var metadata := NewMetadata(agent, now, enabled, priority, tags);
      Append(agent.name, metadata);
      return None;
    }

    /** Adds a new name at the end of the dictionary. */
    method Append(name: string, metadata: AgentPluginMetadata)
      requires Valid() && !HasKey(agents, name) && metadata !in Repr && metadata.Valid() && metadata.agent.name == name
      modifies this
      ensures Valid() && Repr == old(Repr) + {metadata}
      ensures View() == old(View()) + [(name, EntryOf(metadata))]
    {
      RegisteredSnoc(agents, name, metadata);
      agents := agents + [(name, metadata)];
      Repr := Repr + {metadata};
    }

    /** `unregister`: an unknown name raises; otherwise the entry goes, whatever its shutdown hook does. */
    method Unregister(name: string) returns (err: Option<string>)
      requires Valid()
      modifies this
      ensures Valid() && Repr == old(Repr)
      ensures !HasKey(old(View()), name) ==> err == Some("\"Agent '" + name + "' not found in registry\"") && agents == old(agents)
      ensures HasKey(old(View()), name) ==> err.None? && View() == Remove(old(View()), name)
    {
      var found := IndexOfKey(agents, name);
      if found.None? {
        return Some("\"Agent '" + name + "' not found in registry\"");
      }
      var i := found.value;
      ghost var v := View();
      RemoveAt(agents, name, i);
      assert v[i].0 == name;
      RemoveAt(v, name, i);
      RegisteredSlice(agents, i);
      agents := agents[..i] + agents[i + 1..];
      return None;
    }

    /** `get_agent`. */
    function GetAgent(name: string): (r: Option<Agent>)
      reads this, Repr
      requires Valid()
      ensures r.Some? <==> HasKey(View(), name)
      ensures r.Some? ==> r.value.name == name && Get(View(), name).value.agent == r.value
    {
      match IndexOfKey(agents, name)
      case None => None
      case Some(i) =>
        GetAt(View(), i);
        Some(agents[i].1.agent)
    }

    /** `select_agent`: the earliest highest-scoring eligible agent, if any. */
    method SelectAgent(task: Task, canHandle: (Agent, Task) -> Result<bool>, health: Agent -> Result<Object>)
      returns (r: Option<Agent>)
      requires Valid()
      ensures r == Selected(View(), task, canHandle, health)
    {
      var candidates := CollectCandidates(task, canHandle, health);
      if candidates == [] {
        return None;
      }
      var best := BestIndex(candidates);
      return Some(candidates[best].agent);
    }

    /** The loop of `select_agent` that keeps the enabled agents which accept the task and are healthy. */
    method CollectCandidates(task: Task, canHandle: (Agent, Task) -> Result<bool>, health: Agent -> Result<Object>)
      returns (candidates: seq<Entry>)
      requires Valid()
      ensures candidates == Candidates(View(), task, canHandle, health)
    {
      var v := View();
      candidates := [];
      var i := 0;
      while i < |agents|
        invariant 0 <= i <= |agents|
        invariant candidates == Candidates(v[..i], task, canHandle, health)
      {
        CandidatesSnoc(v, i, task, canHandle, health);
        var metadata := agents[i].1;
        if metadata.enabled && canHandle(metadata.agent, task) == Ok(true) && Healthy(health(metadata.agent)) {
          candidates := candidates + [EntryOf(metadata)];
        }
        i := i + 1;
      }
      assert v[..|agents|] == v;
    }

    /** `list_agents`: the info of every agent passing the filters, in registration order. */
    method ListAgents(enabledOnly: bool := false, tags: Option<set<string>> := None) returns (result: seq<AgentInfo>)
      requires Valid()
      ensures result == Listing(View(), enabledOnly, tags)
    {
      var v := View();
      result := [];
      var i := 0;
      while i < |agents|
        invariant 0 <= i <= |agents|
        invariant result == Listing(v[..i], enabledOnly, tags)
      {
        assert v[..i + 1][..i] == v[..i];
        var e := EntryOf(agents[i].1);
        if Listed(e, enabledOnly, tags) {
          result := result + [Info(agents[i].0, e)];
        }
        i := i + 1;
      }
      assert v[..|agents|] == v;
    }

    /** `update_stats`: the named agent's metadata records the execution; an unknown name changes nothing. */
    method UpdateStats(name: string, success: bool, executionTimeMs: int)
      requires Valid()
      modifies Repr
      ensures Valid() && Repr == old(Repr) && agents == old(agents)
      ensures View() == RecordStats(old(View()), name, success, executionTimeMs)
    {
      ghost var before := View();
      var found := IndexOfKey(agents, name);
      if found.Some? {
        var k := found.value;
        RecordAt(k, success, executionTimeMs);
        GetAt(before, k);
      }
    }

    /** The metadata at position `k` records one execution; no other entry changes. */
    method RecordAt(k: nat, success: bool, executionTimeMs: int)
      requires Valid() && k < |agents|
      modifies agents[k].1
      ensures Valid()
      ensures View() == old(View())[k := (agents[k].0, Recorded(old(View())[k].1, success, executionTimeMs))]
    {
      var metadata := agents[k].1;
      ghost var e := EntryOf(metadata);
      metadata.UpdateStats(success, executionTimeMs);
      OneChanged(agents, k);
      assert EntryOf(metadata) == Recorded(e, success, executionTimeMs);
    }

    /** `enable_agent` / `disable_agent`: only the named agent's flag changes. */
    method SetEnabled(name: string, flag: bool)
      requires Valid()
      modifies Repr
      ensures Valid() && Repr == old(Repr) && agents == old(agents)
      ensures View() == match Get(old(View()), name)
        case None => old(View())
        case Some(e) => Put(old(View()), name, e.(enabled := flag))
    {
      ghost var before := View();
      var found := IndexOfKey(agents, name);
      if found.Some? {
        var k := found.value;
        var metadata := agents[k].1;
        metadata.enabled := flag;
        OneChanged(agents, k);
        GetAt(before, k);
      }
    }

    method EnableAgent(name: string)
      requires Valid()
      modifies Repr
      ensures Valid() && Repr == old(Repr) && agents == old(agents)
      ensures View() == match Get(old(View()), name)
        case None => old(View())
        case Some(e) => Put(old(View()), name, e.(enabled := true))
    {
      SetEnabled(name, true);
    }

    method DisableAgent(name: string)
      requires Valid()
      modifies Repr
      ensures Valid() && Repr == old(Repr) && agents == old(agents)
      ensures View() == match Get(old(View()), name)
        case None => old(View())
        case Some(e) => Put(old(View()), name, e.(enabled := false))
    {
      SetEnabled(name, false);
    }

    /** `health_check_all`: one report per registered agent, in registration order. */
    method HealthCheckAll(health: Agent -> Result<Object>) returns (results: Dict<string, Object>)
      requires Valid()
      ensures Keys(results) == Keys(View()) && DistinctKeys(results)
      ensures forall i :: 0 <= i < |results| ==> results[i].1 == HealthReport(View()[i].1, health)
    {
      var v := View();
      results := [];
      var i := 0;
      while i < |v|
        invariant 0 <= i <= |v| && |results| == i
        invariant forall j :: 0 <= j < i ==> results[j] == (v[j].0, HealthReport(v[j].1, health))
      {
        results := results + [(v[i].0, HealthReport(v[i].1, health))];
        i := i + 1;
      }
    }
  }

  /** No name twice, no metadata object twice, and each metadata valid and under its agent's name. */
  ghost predicate Registered(d: Dict<string, AgentPluginMetadata>)
    reads Metas(d)
  {
    && DistinctKeys(d)
    && (forall i :: 0 <= i < |d| ==> d[i].1.Valid() && d[i].1.agent.name == d[i].0)
    && (forall i, j :: 0 <= i < j < |d| ==> d[i].1 != d[j].1)
  }

  lemma RegisteredSnoc(d: Dict<string, AgentPluginMetadata>, k: string, m: AgentPluginMetadata)
    requires Registered(d) && !HasKey(d, k) && m !in Metas(d) && m.Valid() && m.agent.name == k
    ensures Registered(d + [(k, m)]) && Metas(d + [(k, m)]) == Metas(d) + {m}
    ensures Snapshot(d + [(k, m)]) == Snapshot(d) + [(k, EntryOf(m))]
  {
    MetasSnoc(d, k, m);
    var e := d + [(k, m)];
    forall i | 0 <= i < |d| ensures e[i] == d[i] && e[i].1 != m && e[i].0 != k {
    }
  }

  lemma RegisteredSlice(d: Dict<string, AgentPluginMetadata>, i: nat)
    requires Registered(d) && i < |d|
    ensures Registered(d[..i] + d[i + 1..]) && Metas(d[..i] + d[i + 1..]) <= Metas(d)
    ensures Snapshot(d[..i] + d[i + 1..]) == Snapshot(d)[..i] + Snapshot(d)[i + 1..]
  {
    var e := d[..i] + d[i + 1..];
    forall j | 0 <= j < |e| ensures e[j] == d[if j < i then j else j + 1] {
    }
    SnapshotSlice(d, i);
  }

  lemma MetasSnoc(d: Dict<string, AgentPluginMetadata>, k: string, m: AgentPluginMetadata)
    ensures Metas(d + [(k, m)]) == Metas(d) + {m}
  {
    var e := d + [(k, m)];
    forall x | x in Metas(e) ensures x in Metas(d) + {m} {
      var i :| 0 <= i < |e| && e[i].1 == x;
      if i < |d| {
        assert d[i] == e[i];
      }
    }
    forall x | x in Metas(d) ensures x in Metas(e) {
      var i :| 0 <= i < |d| && d[i].1 == x;
      assert e[i] == d[i];
    }
    assert e[|d|].1 == m;
  }

  /** Changing the `k`-th metadata object in place, and no other, changes the `k`-th entry of the snapshot only. */
  twostate lemma OneChanged(new d: Dict<string, AgentPluginMetadata>, k: nat)
    requires old(allocated(d)) && old(Registered(d)) && k < |d|
    requires forall m :: m in Metas(d) && m != d[k].1 ==> unchanged(m)
    requires d[k].1.Valid() && d[k].1.agent == old(d[k].1.agent)
    ensures Registered(d)
    ensures Snapshot(d) == old(Snapshot(d))[k := (d[k].0, EntryOf(d[k].1))]
  {
    forall j | 0 <= j < |d| && j != k ensures d[j].1 in Metas(d) - {d[k].1} {
      assert d[j].1 != d[k].1;
    }
  }

  /** Deleting position `i` of the dictionary deletes position `i` of its snapshot. */
  lemma SnapshotSlice(d: Dict<string, AgentPluginMetadata>, i: nat)
    requires i < |d|
    ensures Snapshot(d[..i] + d[i + 1..]) == Snapshot(d)[..i] + Snapshot(d)[i + 1..]
  {
    var e := d[..i] + d[i + 1..];
    var s := Snapshot(d);
    forall j | 0 <= j < |e| ensures Snapshot(e)[j] == (s[..i] + s[i + 1..])[j] {
      if j < i {
        assert e[j] == d[j];
      } else {
        assert e[j] == d[j + 1];
      }
    }
  }
}
