/**
 * The ignition (ESGT) coordinator: the admission gates, the trigger checks,
 * the phase sequence of one ignition attempt and the counters, history and
 * degraded-mode state it keeps.
 *
 * The oscillator network, the frequency limiter, the circuit breaker, the
 * trigger-condition predicates, the salience score, the prefrontal
 * integration and the clock are inputs (an `Ignition` value per attempt).
 */
module EsgtCoordinator {
  import opened Wrappers
  import opened Strings
  import opened OrderedMaps
  import opened TigFabric
  import opened Averages

  const MaxFrequencyHz := 10.0
  const MaxConcurrentEvents := 3
  const MinCoherenceThreshold := 0.50
  const DegradedModeThreshold := 0.65
  /** The salience an attempt needs in degraded mode. */
  const DegradedSalience := 0.85
  /** The arousal level `_check_triggers` assumes. */
  const SimulatedArousal := 0.70

  datatype Phase = Prepare | Synchronize | Broadcast | Sustain | Dissolve | Complete | Failed

  /** Why an attempt did not complete; the message text renders these fields. */
  datatype Reason =
    | FrequencyLimit
    | MaxConcurrent
    | BreakerOpen
    | DegradedLowSalience
    | SalienceTooLow(total: real)
    | InsufficientResources(nodes: nat, latencyMs: real)
    | RefractoryViolation(sinceLast: Option<real>)
    | ArousalTooLow(arousal: real)
    | InsufficientNodes
    | SyncFailed(coherence: real)
    | Raised(message: string)
  {
    /** The fixed reason strings. */
    function Text(): Option<string> {
      match this
      case FrequencyLimit => Some("frequency_limit_exceeded")
      case MaxConcurrent => Some("max_concurrent_events")
      case BreakerOpen => Some("circuit_breaker_open")
      case DegradedLowSalience => Some("degraded_mode_low_salience")
      case InsufficientNodes => Some("Insufficient nodes recruited")
      case Raised(m) => Some(m)
      case _ => None
    }
  }

  /** An ignition event: the phases it entered, in order, and how it was finalised. */
  datatype Event = Event(
    id: string,
    start: real,
    source: string,
    targetCoherence: real,
    phases: seq<Phase>,
    success: bool,
    reason: Option<Reason>,
    participating: seq<string>,
    achievedCoherence: real,
    coherenceHistory: seq<real>)

  /** The oscillator network's coherence after synchronising. */
  datatype Coherence = Coherence(order: real, conscious: bool)

  /** An exception raised by foreign code (oscillators, prefrontal integration) during a phase. */
  datatype Fault = Fault(phase: Phase, message: string)

  /** Everything one attempt learns from outside the coordinator. */
  datatype Ignition = Ignition(
    limiterAllows: bool,
    breakerOpen: bool,
    salienceTotal: real,
    salienceOk: bool,
    resourcesOk: (real, nat) -> bool,
    temporalOk: (Option<real>, nat) -> bool,
    arousalOk: bool,
    minAvailableNodes: int,
    coherence: Option<Coherence>,
    samples: seq<real>,
    fault: Option<Fault>,
    now: real,
    end: real,
    wasSuccessful: Event -> bool)

  /** What the fabric looks like to the coordinator. */
  datatype FabricView = FabricView(nodes: Dict<string, Node>, metrics: Option<Metrics>, initialized: bool)

  /** The coordinator state an attempt depends on. */
  datatype View = View(history: seq<Event>, last: real, active: nat, maxConcurrent: nat, degraded: bool, fabric: Option<FabricView>)

  /** What an attempt did to the fabric. */
  datatype Mode = Untouched | Entered | EnteredAndExited

  /**
   * The outcome of one attempt: the event (or the exception that escaped),
   * whether it passed the gates, whether it was added to the history, whether
   * it was finalised as a success, whether `was_successful` then counted it,
   * and what it did to the fabric.
   */
  datatype Attempt = Attempt(result: Result<Event>, admitted: bool, recorded: bool, succeeded: bool,
                             countedSuccess: bool, mode: Mode)

  /** What an attempt adds to the history: its event, when it is recorded. */
  function Recorded(a: Attempt): seq<Event> {
    if a.recorded && a.result.Ok? then [a.result.value] else []
  }

  // ---------------------------------------------------------------------------
  // Pieces of an attempt

  /** `f"{prefix}{int(now * 1000):016d}"`. */
  function EventId(prefix: string, now: real): string {
    prefix + PadInt(Trunc(now * 1000.0), 16)
  }

  function NewEvent(prefix: string, now: real, source: string, target: real): Event {
    Event(EventId(prefix, now), now, source, target, [], false, None, [], 0.0, [])
  }

  /** `_create_blocked_event`: FAILED at once, unsuccessful, with the gate's reason. */
  function BlockedEvent(source: string, target: real, reason: Reason, now: real): (e: Event)
    ensures e.phases == [Failed] && !e.success && e.reason == Some(reason)
    ensures StartsWith(e.id, "esgt-blocked-")
  {
    var e := NewEvent("esgt-blocked-", now, source, target).(phases := [Failed], reason := Some(reason));
    assert e.id[..13] == "esgt-blocked-";
    e
  }

  /** The four admission gates in their fixed order; None when all pass. */
  function Gate(ig: Ignition, v: View): Option<Reason> {
    if !ig.limiterAllows then Some(FrequencyLimit)
    else if v.active >= v.maxConcurrent then Some(MaxConcurrent)
    else if ig.breakerOpen then Some(BreakerOpen)
    else if v.degraded && ig.salienceTotal < DegradedSalience then Some(DegradedLowSalience)
    else None
  }

  predicate Participates(n: Node) {
    n.state.Value() == "active" || n.state.Value() == "esgt_mode"
  }

  /** The number of nodes in the "active" or "esgt_mode" state. */
  function AvailableNodes(d: Dict<string, Node>): nat {
    if d == [] then 0 else (if Participates(d[0].1) then 1 else 0) + AvailableNodes(d[1..])
  }

  /** The ids of the nodes in the "active" or "esgt_mode" state, in id order. */
  function Recruited(d: Dict<string, Node>): seq<string> {
    if d == [] then [] else (if Participates(d[0].1) then [d[0].0] else []) + Recruited(d[1..])
  }

  /** Recruitment picks exactly the participating nodes, and as many as the resource check counted. */
  lemma {:induction false} RecruitedFacts(d: Dict<string, Node>)
    ensures |Recruited(d)| == AvailableNodes(d)
    ensures forall id :: id in Recruited(d) <==> exists i :: 0 <= i < |d| && d[i].0 == id && Participates(d[i].1)
  {
    if d != [] {
      RecruitedFacts(d[1..]);
      forall id ensures id in Recruited(d) <==> exists i :: 0 <= i < |d| && d[i].0 == id && Participates(d[i].1) {
        if id in Recruited(d[1..]) {
          var i :| 0 <= i < |d[1..]| && d[1..][i].0 == id && Participates(d[1..][i].1);
          assert d[i + 1] == d[1..][i];
        }
        if exists i :: 0 <= i < |d| && d[i].0 == id && Participates(d[i].1) {
          var i :| 0 <= i < |d| && d[i].0 == id && Participates(d[i].1);
          if i > 0 {
            assert d[1..][i - 1] == d[i];
          }
        }
      }
    }
  }

  /** Events of the last ten that started less than a second before `now`. */
  function RecentCount(history: seq<Event>, now: real): nat {
    CountRecent(PyFrom(history, -10), now)
  }

  function CountRecent(es: seq<Event>, now: real): (n: nat)
    ensures n <= |es|
  {
    if es == [] then 0 else (if now - es[0].start < 1.0 then 1 else 0) + CountRecent(es[1..], now)
  }

  /**
   * `_check_triggers`: salience, then resources, then temporal gating, then
   * arousal; the first failing check gives the reason. Reading the fabric's
   * metrics raises once the fabric or its metrics are gone.
   */
  function Triggers(ig: Ignition, v: View): (r: Result<Option<Reason>>)
    ensures !ig.salienceOk ==> r == Ok(Some(SalienceTooLow(ig.salienceTotal)))
    ensures r.Err? ==> ig.salienceOk && (v.fabric.None? || v.fabric.value.metrics.None?)
  {
    if !ig.salienceOk then Ok(Some(SalienceTooLow(ig.salienceTotal)))
    else if v.fabric.None? then Err("'NoneType' object has no attribute 'get_metrics'")
    else if v.fabric.value.metrics.None? then Err("'NoneType' object has no attribute 'avg_latency_us'")
    else
      var latency := v.fabric.value.metrics.value.avgLatency / 1000.0;
      var available := AvailableNodes(v.fabric.value.nodes);
      if !ig.resourcesOk(latency, available) then Ok(Some(InsufficientResources(available, latency)))
      else
        var since := if v.last > 0.0 then Some(ig.now - v.last) else None;
        if !ig.temporalOk(since, RecentCount(v.history, ig.now)) then Ok(Some(RefractoryViolation(since)))
        else if !ig.arousalOk then Ok(Some(ArousalTooLow(SimulatedArousal)))
        else Ok(None)
  }

  /** The largest sample. */
  function Max(xs: seq<real>): (m: real)
    requires xs != []
    ensures forall k :: 0 <= k < |xs| ==> xs[k] <= m
    ensures exists k :: 0 <= k < |xs| && xs[k] == m
  {
    if |xs| == 1 then xs[0]
    else
      var rest := Max(xs[1..]);
      assert forall k :: 1 <= k < |xs| ==> xs[k] == xs[1..][k - 1];
      if xs[0] >= rest then xs[0] else rest
  }

  /** The `except` branch: FAILED appended to the phases, finalised unsuccessful with the message. */
  function FailWith(e: Event, message: string): Event {
    e.(phases := e.phases + [Failed], success := false, reason := Some(Raised(message)))
  }

  function FaultIn(ig: Ignition, p: Phase): bool {
    ig.fault.Some? && ig.fault.value.phase == p
  }

  /** An exception caught by the `except` branch: the event is recorded as FAILED. */
  function Caught(e: Event, message: string, mode: Mode): Attempt {
    Attempt(Ok(FailWith(e, message)), true, true, false, false, mode)
  }

  /** An early `return event` inside the `try` block: finalised, but neither recorded nor FAILED. */
  function Abandoned(e: Event, reason: Reason): Attempt {
    Attempt(Ok(e.(success := false, reason := Some(reason))), true, false, false, false, Untouched)
  }

  /** PREPARE: recruit the participating nodes; too few of them ends the attempt. */
  function PrepareStage(ig: Ignition, nodes: Dict<string, Node>, initialized: bool, ev: Event): Attempt {
    var part := Recruited(nodes);
    var e := ev.(phases := ev.phases + [Prepare], participating := part);
    if |part| < ig.minAvailableNodes then Abandoned(e, InsufficientNodes)
    else SyncStage(ig, initialized, e.(phases := e.phases + [Synchronize]))
  }

  /** SYNCHRONIZE: the oscillators must reach a conscious-level coherence. */
  function SyncStage(ig: Ignition, initialized: bool, e: Event): Attempt {
    if FaultIn(ig, Synchronize) then Caught(e, ig.fault.value.message, Untouched)
    else if ig.coherence.None? || !ig.coherence.value.conscious then
      Abandoned(e, SyncFailed(if ig.coherence.Some? then ig.coherence.value.order else 0.0))
    else BroadcastStage(ig, initialized, e.(achievedCoherence := ig.coherence.value.order, phases := e.phases + [Broadcast]))
  }

  /** BROADCAST: the fabric enters ignition mode, then the content goes out to every node. */
  function BroadcastStage(ig: Ignition, initialized: bool, e: Event): Attempt {
    if FaultIn(ig, Broadcast) then Caught(e, ig.fault.value.message, Entered)
    else if !initialized then Caught(e, "Fabric not initialized", Entered)
    else SustainStage(ig, e.(phases := e.phases + [Sustain]))
  }

  /** SUSTAIN: the coherence samples are recorded. */
  function SustainStage(ig: Ignition, e: Event): Attempt {
    if FaultIn(ig, Sustain) then Caught(e, ig.fault.value.message, Entered)
    else DissolveStage(ig, e.(phases := e.phases + [Dissolve], coherenceHistory := e.coherenceHistory + ig.samples))
  }

  /**
   * DISSOLVE, then COMPLETE: the fabric leaves ignition mode and the peak
   * coherence is reported; the finished event counts as a success only if
   * `was_successful` says so.
   */
  function DissolveStage(ig: Ignition, e: Event): Attempt {
    if FaultIn(ig, Dissolve) then Caught(e, ig.fault.value.message, Entered)
    else
      var peak := if e.coherenceHistory != [] then Max(e.coherenceHistory) else e.achievedCoherence;
      var done := e.(achievedCoherence := peak, phases := e.phases + [Complete], success := true);
      Attempt(Ok(done), true, true, true, ig.wasSuccessful(done), EnteredAndExited)
  }

  /** One call of `initiate_esgt`, as a value. */
  function Run(ig: Ignition, v: View, source: string, target: real): Attempt {
    match Gate(ig, v)
    case Some(reason) => Attempt(Ok(BlockedEvent(source, target, reason, ig.now)), false, false, false, false, Untouched)
    case None => AdmittedRun(ig, v, source, target)
  }

  /** A gate that refuses leaves the state alone and yields its blocked event. */
  lemma BlockedRun(ig: Ignition, v: View, source: string, target: real, reason: Reason)
    requires Gate(ig, v) == Some(reason)
    ensures Run(ig, v, source, target) == Attempt(Ok(BlockedEvent(source, target, reason, ig.now)), false, false, false, false, Untouched)
  {
  }

  lemma PassedRun(ig: Ignition, v: View, source: string, target: real)
    requires Gate(ig, v) == None
    ensures Run(ig, v, source, target) == AdmittedRun(ig, v, source, target)
    ensures Run(ig, v, source, target).admitted
  {
    if Triggers(ig, v) == Ok(None) {
      PrepareCounted(ig, v.fabric.value.nodes, v.fabric.value.initialized, NewEvent("esgt-", ig.now, source, target));
    }
  }

  /** An attempt past the gates: counted, then checked against the trigger conditions. */
  function AdmittedRun(ig: Ignition, v: View, source: string, target: real): Attempt {
    var ev := NewEvent("esgt-", ig.now, source, target);
    match Triggers(ig, v)
    case Err(m) => Attempt(Err(m), true, false, false, false, Untouched)
    case Ok(Some(reason)) =>
      Attempt(Ok(ev.(phases := [Failed], reason := Some(reason))), true, true, false, false, Untouched)
    case Ok(None) => PrepareStage(ig, v.fabric.value.nodes, v.fabric.value.initialized, ev)
  }

  /** An attempt that passes its triggers goes on to PREPARE with the fabric's nodes. */
  lemma TriggeredRun(ig: Ignition, v: View, source: string, target: real)
    requires Triggers(ig, v) == Ok(None)
    ensures v.fabric.Some?
    ensures AdmittedRun(ig, v, source, target)
      == PrepareStage(ig, v.fabric.value.nodes, v.fabric.value.initialized, NewEvent("esgt-", ig.now, source, target))
  {
  }

  /** The fabric's nodes after an attempt that did `mode` to them. */
  function NodesAfter(d: Dict<string, Node>, mode: Mode): Dict<string, Node> {
    match mode
    case Untouched => d
    case Entered => EnterAll(d)
    case EnteredAndExited => ExitAll(EnterAll(d))
  }

  // ---------------------------------------------------------------------------
  // Properties of an attempt

  /** Each gate rejects with its own reason, in the fixed order, before anything is counted or recorded. */
  lemma GateOrder(ig: Ignition, v: View, source: string, target: real)
    ensures !ig.limiterAllows ==> Gate(ig, v) == Some(FrequencyLimit)
    ensures ig.limiterAllows && v.active >= v.maxConcurrent ==> Gate(ig, v) == Some(MaxConcurrent)
    ensures ig.limiterAllows && v.active < v.maxConcurrent && ig.breakerOpen ==> Gate(ig, v) == Some(BreakerOpen)
    ensures ig.limiterAllows && v.active < v.maxConcurrent && !ig.breakerOpen ==>
      (Gate(ig, v) == Some(DegradedLowSalience) <==> v.degraded && ig.salienceTotal < DegradedSalience)
    ensures Gate(ig, v).Some? ==>
      var a := Run(ig, v, source, target);
      && a.result.Ok? && a.result.value.phases == [Failed] && !a.result.value.success
      && a.result.value.reason == Gate(ig, v)
      && !a.admitted && !a.recorded && !a.succeeded && !a.countedSuccess && a.mode == Untouched
  {
  }

  /** An attempt that passes the gates is counted; one that fails its triggers is FAILED and recorded. */
  lemma TriggerFailureRecorded(ig: Ignition, v: View, source: string, target: real)
    requires Gate(ig, v).None?
    ensures Run(ig, v, source, target).admitted
    ensures Triggers(ig, v).Ok? && Triggers(ig, v).value.Some? ==>
      var a := Run(ig, v, source, target);
      && a.recorded && !a.succeeded && a.mode == Untouched
      && a.result.Ok? && a.result.value.phases == [Failed] && a.result.value.reason == Triggers(ig, v).value
  {
  }

  /** Too few recruited nodes, or failed synchronisation, end the attempt unrecorded and without FAILED. */
  lemma EarlyEndsNotRecorded(ig: Ignition, v: View, source: string, target: real)
    requires Gate(ig, v).None? && Triggers(ig, v) == Ok(None)
    ensures var a := Run(ig, v, source, target);
      var part := Recruited(v.fabric.value.nodes);
      && (|part| < ig.minAvailableNodes ==>
          a.result.Ok? && a.result.value.phases == [Prepare] && !a.result.value.success
          && a.result.value.reason == Some(InsufficientNodes) && !a.recorded && !a.succeeded)
      && (|part| >= ig.minAvailableNodes && !FaultIn(ig, Synchronize) && (ig.coherence.None? || !ig.coherence.value.conscious) ==>
          a.result.Ok? && a.result.value.phases == [Prepare, Synchronize] && !a.result.value.success
          && a.result.value.reason.Some? && a.result.value.reason.value.SyncFailed? && !a.recorded && !a.succeeded)
  {
  }

  /** No exception in any of the phases that can raise one. */
  predicate Uneventful(ig: Ignition) {
    !FaultIn(ig, Synchronize) && !FaultIn(ig, Broadcast) && !FaultIn(ig, Sustain) && !FaultIn(ig, Dissolve)
  }

  /** What a stage promises about a completed attempt: its phases continue those of `e` with `rest`. */
  predicate CompletesWith(a: Attempt, e: Event, rest: seq<Phase>) {
    a.succeeded ==>
      && a.admitted && a.recorded && a.mode == EnteredAndExited
      && a.result.Ok? && a.result.value.success
      && a.result.value.phases == e.phases + rest
      && a.result.value.participating == e.participating
  }

  lemma SustainCompletes(ig: Ignition, e: Event)
    ensures CompletesWith(SustainStage(ig, e), e, [Dissolve, Complete])
    ensures SustainStage(ig, e).succeeded ==> !FaultIn(ig, Sustain) && !FaultIn(ig, Dissolve)
    ensures SustainStage(ig, e).succeeded ==>
      var got := SustainStage(ig, e).result.value;
      && (e.coherenceHistory + ig.samples != [] ==> got.achievedCoherence == Max(e.coherenceHistory + ig.samples))
      && (e.coherenceHistory + ig.samples == [] ==> got.achievedCoherence == e.achievedCoherence)
  {
  }

  lemma SyncCompletes(ig: Ignition, initialized: bool, e: Event)
    ensures CompletesWith(SyncStage(ig, initialized, e), e, [Broadcast, Sustain, Dissolve, Complete])
    ensures SyncStage(ig, initialized, e).succeeded ==>
      var got := SyncStage(ig, initialized, e).result.value;
      && initialized && ig.coherence.Some? && ig.coherence.value.conscious && Uneventful(ig)
      && (e.coherenceHistory + ig.samples != [] ==> got.achievedCoherence == Max(e.coherenceHistory + ig.samples))
      && (e.coherenceHistory + ig.samples == [] ==> got.achievedCoherence == ig.coherence.value.order)
  {
    if !FaultIn(ig, Synchronize) && ig.coherence.Some? && ig.coherence.value.conscious {
      var e3 := e.(achievedCoherence := ig.coherence.value.order, phases := e.phases + [Broadcast]);
      if !FaultIn(ig, Broadcast) && initialized {
        SustainCompletes(ig, e3.(phases := e3.phases + [Sustain]));
      }
    }
  }

  lemma PrepareCompletes(ig: Ignition, nodes: Dict<string, Node>, initialized: bool, ev: Event)
    ensures CompletesWith(PrepareStage(ig, nodes, initialized, ev), ev.(participating := Recruited(nodes)),
      [Prepare, Synchronize, Broadcast, Sustain, Dissolve, Complete])
    ensures PrepareStage(ig, nodes, initialized, ev).succeeded ==>
      var got := PrepareStage(ig, nodes, initialized, ev).result.value;
      && |Recruited(nodes)| >= ig.minAvailableNodes
      && initialized && ig.coherence.Some? && ig.coherence.value.conscious && Uneventful(ig)
      && (ev.coherenceHistory + ig.samples != [] ==> got.achievedCoherence == Max(ev.coherenceHistory + ig.samples))
      && (ev.coherenceHistory + ig.samples == [] ==> got.achievedCoherence == ig.coherence.value.order)
  {
    var part := Recruited(nodes);
    var e := ev.(phases := ev.phases + [Prepare], participating := part);
    if |part| >= ig.minAvailableNodes {
      SyncCompletes(ig, initialized, e.(phases := e.phases + [Synchronize]));
    }
  }

  /**
   * A completed attempt went through the six phases in order, entered and
   * left ignition mode, had enough participants, and reports the peak
   * coherence of its samples (the synchronised coherence when there are none).
   */
  lemma SuccessPath(ig: Ignition, v: View, source: string, target: real)
    ensures var a := Run(ig, v, source, target);
      a.succeeded ==>
        && a.admitted && a.recorded && a.mode == EnteredAndExited
        && a.result.Ok? && a.result.value.success
        && a.result.value.phases == [Prepare, Synchronize, Broadcast, Sustain, Dissolve, Complete]
        && Uneventful(ig) && ig.coherence.Some? && ig.coherence.value.conscious
        && (ig.samples != [] ==> a.result.value.achievedCoherence == Max(ig.samples))
        && (ig.samples == [] ==> a.result.value.achievedCoherence == ig.coherence.value.order)
        && |a.result.value.participating| >= ig.minAvailableNodes
  {
    if Gate(ig, v).None? && Triggers(ig, v) == Ok(None) {
      var ev := NewEvent("esgt-", ig.now, source, target);
      var nodes := v.fabric.value.nodes;
      assert Run(ig, v, source, target) == PrepareStage(ig, nodes, v.fabric.value.initialized, ev);
      PrepareCompletes(ig, nodes, v.fabric.value.initialized, ev);
      assert ev.coherenceHistory + ig.samples == ig.samples;
      assert ev.phases == [];
    }
  }

  /**
   * Only an admitted attempt is recorded or succeeds, and only a recorded one
   * has touched the fabric; a success is counted exactly when the finished
   * event passes `was_successful`.
   */
  predicate Counted(a: Attempt, wasSuccessful: Event -> bool) {
    && (a.countedSuccess <==> a.succeeded && a.result.Ok? && wasSuccessful(a.result.value))
    && (a.succeeded ==> a.recorded && a.admitted)
    && (a.recorded ==> a.admitted && a.result.Ok?)
    && (a.result.Ok? ==> (a.result.value.success <==> a.succeeded))
    && (a.mode != Untouched ==> a.recorded)
  }

  lemma AttemptCounting(ig: Ignition, v: View, source: string, target: real)
    ensures Counted(Run(ig, v, source, target), ig.wasSuccessful)
  {
    if Gate(ig, v).None? && Triggers(ig, v) == Ok(None) {
      var ev := NewEvent("esgt-", ig.now, source, target);
      PrepareCounted(ig, v.fabric.value.nodes, v.fabric.value.initialized, ev);
    }
  }

  lemma PrepareCounted(ig: Ignition, nodes: Dict<string, Node>, initialized: bool, ev: Event)
    ensures Counted(PrepareStage(ig, nodes, initialized, ev), ig.wasSuccessful) && PrepareStage(ig, nodes, initialized, ev).admitted
  {
    var e := ev.(phases := ev.phases + [Prepare], participating := Recruited(nodes));
    SyncCounted(ig, initialized, e.(phases := e.phases + [Synchronize]));
  }

  lemma SyncCounted(ig: Ignition, initialized: bool, e: Event)
    ensures Counted(SyncStage(ig, initialized, e), ig.wasSuccessful) && SyncStage(ig, initialized, e).admitted
  {
    if ig.coherence.Some? {
      var e3 := e.(achievedCoherence := ig.coherence.value.order, phases := e.phases + [Broadcast]);
      SustainCounted(ig, e3.(phases := e3.phases + [Sustain]));
    }
  }

  lemma SustainCounted(ig: Ignition, e: Event)
    ensures Counted(SustainStage(ig, e), ig.wasSuccessful) && SustainStage(ig, e).admitted
  {
  }

  /**
   * The concurrent-event gate can never reject: the set of active events is
   * never added to, so it stays empty, and the cap is always at least one.
   */
  lemma ConcurrencyGateUnreachable(ig: Ignition, v: View)
    requires v.active == 0 && v.maxConcurrent >= 1
    ensures Gate(ig, v) != Some(MaxConcurrent)
  {
  }

  // ---------------------------------------------------------------------------
  // Topology handed to the oscillators

  /** Some connection in `cs` is active and ends at `remote`. */
  predicate LinkedTo(cs: Dict<string, Connection>, remote: string) {
    cs != [] && ((cs[0].1.active && cs[0].1.remote == remote) || LinkedTo(cs[1..], remote))
  }

  /**
   * The neighbours `_build_topology` lists for a node: the remote ends of its
   * active connections that are inside `ids`, in connection order.
   */
  function Neighbours(cs: Dict<string, Connection>, ids: seq<string>): (r: seq<string>)
    ensures forall j :: 0 <= j < |r| ==> r[j] in ids && LinkedTo(cs, r[j])
    ensures forall k :: 0 <= k < |cs| && cs[k].1.active && cs[k].1.remote in ids ==> cs[k].1.remote in r
  {
    if cs == [] then []
    else
      var rest := Neighbours(cs[1..], ids);
      assert forall k :: 1 <= k < |cs| ==> cs[k] == cs[1..][k - 1];
      (if cs[0].1.active && cs[0].1.remote in ids then [cs[0].1.remote] else []) + rest
  }

  /** `_build_topology` over the ids still to visit, `todo`, of the participating ids `ids`. */
  function Topology(d: Dict<string, Node>, ids: seq<string>, todo: seq<string>): (t: Dict<string, seq<string>>)
    ensures forall k :: 0 <= k < |t| ==> t[k].0 in todo && HasKey(d, t[k].0)
    ensures forall k, j :: 0 <= k < |t| && 0 <= j < |t[k].1| ==>
      t[k].1[j] in ids && LinkedTo(Get(d, t[k].0).value.connections, t[k].1[j])
    ensures forall k :: 0 <= k < |todo| && HasKey(d, todo[k]) ==> HasKey(t, todo[k])
    ensures forall k :: 0 <= k < |t| ==> t[k].1 == Neighbours(Get(d, t[k].0).value.connections, ids)
    decreases |todo|
  {
    if todo == [] then []
    else
      var rest := Topology(d, ids, todo[1..]);
      assert forall k :: 1 <= k < |todo| ==> todo[k] == todo[1..][k - 1];
      match Get(d, todo[0])
      case None => rest
      case Some(node) =>
        var r := Put(rest, todo[0], Neighbours(node.connections, ids));
        PutFacts(rest, todo[0], Neighbours(node.connections, ids));
        r
  }

  lemma PutFacts<K, V>(d: Dict<K, V>, k: K, v: V)
    ensures HasKey(Put(d, k, v), k)
    ensures forall x :: HasKey(d, x) ==> HasKey(Put(d, k, v), x)
    ensures forall i :: 0 <= i < |Put(d, k, v)| ==> Put(d, k, v)[i] == (k, v) || Put(d, k, v)[i] in d
  {
    var r := Put(d, k, v);
    match IndexOfKey(d, k)
    case None =>
      assert r[|d|] == (k, v);
      forall x | HasKey(d, x) ensures HasKey(r, x) {
        var i :| 0 <= i < |d| && d[i].0 == x;
        assert r[i] == d[i];
      }
    case Some(i) =>
      assert r[i] == (k, v);
      forall x | HasKey(d, x) ensures HasKey(r, x) {
        var j :| 0 <= j < |d| && d[j].0 == x;
        assert r[j].0 == x;
      }
  }

  // ---------------------------------------------------------------------------
  // Recent coherence

  /** The achieved coherences of the successful events, in order. */
  function SuccessCoherences(es: seq<Event>): (cs: seq<real>)
    ensures |cs| <= |es|
  {
    if es == [] then [] else (if es[0].success then [es[0].achievedCoherence] else []) + SuccessCoherences(es[1..])
  }

  lemma {:induction false} SuccessCoherencesFrom(es: seq<Event>, c: real)
    ensures c in SuccessCoherences(es) <==> exists i :: 0 <= i < |es| && es[i].success && es[i].achievedCoherence == c
  {
    if es != [] {
      SuccessCoherencesFrom(es[1..], c);
      if exists i :: 0 <= i < |es| && es[i].success && es[i].achievedCoherence == c {
        var i :| 0 <= i < |es| && es[i].success && es[i].achievedCoherence == c;
        if i > 0 {
          assert es[1..][i - 1] == es[i];
        }
      }
      if c in SuccessCoherences(es[1..]) {
        var i :| 0 <= i < |es[1..]| && es[1..][i].success && es[1..][i].achievedCoherence == c;
        assert es[i + 1] == es[1..][i];
      }
    }
  }

  lemma RecentCoherenceBounds(recent: seq<Event>, cs: seq<real>)
    requires cs == SuccessCoherences(recent)
    ensures recent == [] ==> cs == []
    ensures (forall i :: 0 <= i < |recent| ==> 0.0 <= recent[i].achievedCoherence <= 1.0) ==> cs != [] ==> 0.0 <= Mean(cs) <= 1.0
  {
    if (forall i :: 0 <= i < |recent| ==> 0.0 <= recent[i].achievedCoherence <= 1.0) && cs != [] {
      forall k | 0 <= k < |cs| ensures 0.0 <= cs[k] <= 1.0 {
        SuccessCoherencesFrom(recent, cs[k]);
      }
      MeanBounds(cs, 0.0, 1.0);
    }
  }

  // ---------------------------------------------------------------------------
  // The coordinator

  class Coordinator {
    var tig: Fabric?
    var eventHistory: seq<Event>
    var lastEsgtTime: real
    var running: bool
    var totalEvents: nat
    var successfulEvents: nat
    /** The ids of the events in progress; measured and cleared, never added to. */
    var activeEvents: set<string>
    var maxConcurrent: nat
    var degradedMode: bool

    ghost predicate Valid()
      reads this
    {
      && successfulEvents <= totalEvents
      && activeEvents == {}
      && (degradedMode ==> maxConcurrent == 1)
      && (!degradedMode ==> maxConcurrent == MaxConcurrentEvents)
    }

    constructor (fabric: Fabric?)
      ensures Valid()
      ensures tig == fabric && eventHistory == [] && lastEsgtTime == 0.0 && !running
      ensures totalEvents == 0 && successfulEvents == 0 && maxConcurrent == MaxConcurrentEvents && !degradedMode
    {
      tig := fabric;
      eventHistory := [];
      lastEsgtTime := 0.0;
      running := false;
      totalEvents := 0;
      successfulEvents := 0;
      activeEvents := {};
      maxConcurrent := MaxConcurrentEvents;
      degradedMode := false;
    }

    function ViewOf(): View
      reads this, tig
    {
      View(eventHistory, lastEsgtTime, |activeEvents|, maxConcurrent, degradedMode,
        if tig == null then None else Some(FabricView(tig.nodes, tig.metrics, tig.initialized)))
    }

    /** `start`: nothing when running; otherwise sets the flag, then needs the fabric's node ids. */
    method Start() returns (err: Option<string>)
      modifies this
      ensures old(running) ==> err.None? && unchanged(this)
      ensures !old(running) ==> running && (err.Some? <==> tig == null)
      ensures unchanged(this`tig, this`eventHistory, this`lastEsgtTime, this`totalEvents, this`successfulEvents)
      ensures unchanged(this`activeEvents, this`maxConcurrent, this`degradedMode)
    {
      if running {
        return None;
      }
      running := true;
      if tig == null {
        return Some("'NoneType' object has no attribute 'nodes'");
      }
      return None;
    }

    /** `stop`: clears the flag, drops the fabric, empties the history and the active set. */
    method Stop()
      requires Valid()
      modifies this
      ensures Valid()
      ensures !running && tig == null && eventHistory == [] && activeEvents == {}
      ensures unchanged(this`lastEsgtTime, this`totalEvents, this`successfulEvents, this`maxConcurrent, this`degradedMode)
    {
      running := false;
      tig := null;
      eventHistory := [];
      activeEvents := {};
    }

    /** `_enter_degraded_mode`. */
    method EnterDegradedMode()
      requires Valid()
      modifies this
      ensures Valid() && degradedMode && maxConcurrent == 1
      ensures unchanged(this`tig, this`eventHistory, this`lastEsgtTime, this`running, this`totalEvents, this`successfulEvents, this`activeEvents)
    {
      degradedMode := true;
      maxConcurrent := 1;
    }

    /** `_exit_degraded_mode`. */
    method ExitDegradedMode()
      requires Valid()
      modifies this
      ensures Valid() && !degradedMode && maxConcurrent == MaxConcurrentEvents
      ensures unchanged(this`tig, this`eventHistory, this`lastEsgtTime, this`running, this`totalEvents, this`successfulEvents, this`activeEvents)
    {
      degradedMode := false;
      maxConcurrent := MaxConcurrentEvents;
    }

    /** `get_success_rate`: 0.0 before any attempt, else the share of successes, in [0, 1]. */
    function GetSuccessRate(): (r: real)
      reads this
      requires Valid()
      ensures totalEvents == 0 ==> r == 0.0
      ensures 0.0 <= r <= 1.0
      ensures totalEvents > 0 ==> r * (totalEvents as real) == successfulEvents as real
    {
      if totalEvents == 0 then 0.0 else Ratio(successfulEvents, totalEvents)
    }

    /**
     * `get_recent_coherence(window)`: the mean achieved coherence of the
     * successful events among `event_history[-window:]`; 0.0 when there are none.
     */
    function GetRecentCoherence(window: int): (r: real)
      reads this
      ensures SuccessCoherences(PyFrom(eventHistory, -window)) == [] ==> r == 0.0
      ensures (forall i :: 0 <= i < |eventHistory| ==> 0.0 <= eventHistory[i].achievedCoherence <= 1.0) ==> 0.0 <= r <= 1.0
    {
      var recent := PyFrom(eventHistory, -window);
      var cs := SuccessCoherences(recent);
      RecentCoherenceBounds(recent, cs);
      if recent == [] then 0.0 else Mean(cs)
    }

    /** `_recruit_nodes`: the ids of the fabric's nodes in the "active" or "esgt_mode" state. */
    method RecruitNodes() returns (recruited: seq<string>)
      requires tig != null
      ensures recruited == Recruited(tig.nodes)
    {
      recruited := [];
      var nodes := tig.nodes;
      var i := 0;
      while i < |nodes|
        invariant 0 <= i <= |nodes|
        invariant recruited + Recruited(nodes[i..]) == Recruited(nodes)
      {
        assert nodes[i..][1..] == nodes[i + 1..];
        if Participates(nodes[i].1) {
          recruited := recruited + [nodes[i].0];
        }
        i := i + 1;
      }
    }

    /**
     * `_build_topology`: every participating node the fabric knows gets an
     * entry, listing the participating remote ends of its active connections.
     */
    function BuildTopology(ids: seq<string>): (t: Dict<string, seq<string>>)
      reads this, tig
      requires tig != null
      ensures forall k :: 0 <= k < |t| ==> t[k].0 in ids && HasKey(tig.nodes, t[k].0)
      ensures forall k :: 0 <= k < |ids| && HasKey(tig.nodes, ids[k]) ==> HasKey(t, ids[k])
      ensures forall k, j :: 0 <= k < |t| && 0 <= j < |t[k].1| ==>
        t[k].1[j] in ids && LinkedTo(Get(tig.nodes, t[k].0).value.connections, t[k].1[j])
      ensures forall k :: 0 <= k < |t| ==> t[k].1 == Neighbours(Get(tig.nodes, t[k].0).value.connections, ids)
    {
      Topology(tig.nodes, ids, ids)
    }

    /**
     * One call of `initiate_esgt`. The result, the counters, the history, the
     * time of the last ignition and the fabric's nodes are exactly as `Run`
     * describes.
     */
    method InitiateEsgt(ig: Ignition, source: string, target: real, reach: string -> Option<int>) returns (r: Result<Event>)
      requires Valid()
      modifies this, tig
      ensures tig == old(tig)
      ensures Valid()
      ensures var a := Run(ig, old(ViewOf()), source, target);
        && r == a.result
        && totalEvents == old(totalEvents) + (if a.admitted then 1 else 0)
        && successfulEvents == old(successfulEvents) + (if a.countedSuccess then 1 else 0)
        && eventHistory == old(eventHistory) + Recorded(a)
        && lastEsgtTime == (if a.succeeded then ig.end else old(lastEsgtTime))
        && (tig != null ==> tig.nodes == NodesAfter(old(tig.nodes), a.mode))
      ensures unchanged(this`running, this`activeEvents, this`maxConcurrent, this`degradedMode)
      ensures tig != null ==> unchanged(tig`graph, tig`metrics, tig`initialized, tig`initializing)
    {
      var v := ViewOf();
      var gate := Gate(ig, v);
      if gate.Some? {
        BlockedRun(ig, v, source, target, gate.value);
        return Ok(BlockedEvent(source, target, gate.value, ig.now));
      }
      PassedRun(ig, v, source, target);
      r := Admit(ig, source, target, reach);
    }

    /** The part of `initiate_esgt` after the gates: the attempt is counted and its triggers checked. */
    method Admit(ig: Ignition, source: string, target: real, reach: string -> Option<int>) returns (r: Result<Event>)
      requires Valid()
      modifies this, tig
      ensures tig == old(tig)
      ensures Valid()
      ensures var a := AdmittedRun(ig, old(ViewOf()), source, target);
        && r == a.result
        && totalEvents == old(totalEvents) + 1
        && successfulEvents == old(successfulEvents) + (if a.countedSuccess then 1 else 0)
        && eventHistory == old(eventHistory) + Recorded(a)
        && lastEsgtTime == (if a.succeeded then ig.end else old(lastEsgtTime))
        && (tig != null ==> tig.nodes == NodesAfter(old(tig.nodes), a.mode))
      ensures unchanged(this`running, this`activeEvents, this`maxConcurrent, this`degradedMode)
      ensures tig != null ==> unchanged(tig`graph, tig`metrics, tig`initialized, tig`initializing)
    {
      var v := ViewOf();
      var event := NewEvent("esgt-", ig.now, source, target);
      var check := Triggers(ig, v);
      totalEvents := totalEvents + 1;
      if check.Err? {
        return Err(check.error);
      }
      if check.value.Some? {
        event := event.(phases := [Failed], reason := check.value);
        eventHistory := eventHistory + [event];
        return Ok(event);
      }
      TriggeredRun(ig, v, source, target);
      r := PreparePhase(ig, event, reach);
    }

    /** PREPARE, inside the `try` block of `initiate_esgt`. */
    method PreparePhase(ig: Ignition, event: Event, reach: string -> Option<int>) returns (r: Result<Event>)
      requires Valid() && tig != null && successfulEvents < totalEvents
      modifies this, tig
      ensures tig == old(tig)
      ensures Valid()
      ensures var a := PrepareStage(ig, old(tig.nodes), old(tig.initialized), event);
        && r == a.result
        && successfulEvents == old(successfulEvents) + (if a.countedSuccess then 1 else 0)
        && eventHistory == old(eventHistory) + Recorded(a)
        && lastEsgtTime == (if a.succeeded then ig.end else old(lastEsgtTime))
        && tig.nodes == NodesAfter(old(tig.nodes), a.mode)
      ensures unchanged(this`running, this`totalEvents, this`activeEvents, this`maxConcurrent, this`degradedMode)
      ensures unchanged(tig`graph, tig`metrics, tig`initialized, tig`initializing)
    {
      var e := event.(phases := event.phases + [Prepare]);
      var participating := RecruitNodes();
      e := e.(participating := participating);
      if |participating| < ig.minAvailableNodes {
        return Ok(e.(success := false, reason := Some(InsufficientNodes)));
      }
      e := e.(phases := e.phases + [Synchronize]);
      r := SynchronizePhase(ig, e, reach);
    }

    /** SYNCHRONIZE: the oscillators' coherence decides whether the attempt goes on. */
    method SynchronizePhase(ig: Ignition, e: Event, reach: string -> Option<int>) returns (r: Result<Event>)
      requires Valid() && tig != null && successfulEvents < totalEvents
      modifies this, tig
      ensures tig == old(tig)
      ensures Valid()
      ensures var a := SyncStage(ig, old(tig.initialized), e);
        && r == a.result
        && successfulEvents == old(successfulEvents) + (if a.countedSuccess then 1 else 0)
        && eventHistory == old(eventHistory) + Recorded(a)
        && lastEsgtTime == (if a.succeeded then ig.end else old(lastEsgtTime))
        && tig.nodes == NodesAfter(old(tig.nodes), a.mode)
      ensures unchanged(this`running, this`totalEvents, this`activeEvents, this`maxConcurrent, this`degradedMode)
      ensures unchanged(tig`graph, tig`metrics, tig`initialized, tig`initializing)
    {
      if FaultIn(ig, Synchronize) {
        var failed := FailWith(e, ig.fault.value.message);
        eventHistory := eventHistory + [failed];
        return Ok(failed);
      }
      if ig.coherence.None? || !ig.coherence.value.conscious {
        var c := if ig.coherence.Some? then ig.coherence.value.order else 0.0;
        return Ok(e.(success := false, reason := Some(SyncFailed(c))));
      }
      var e3 := e.(achievedCoherence := ig.coherence.value.order);
      e3 := e3.(phases := e3.phases + [Broadcast]);
      r := BroadcastPhase(ig, e3, reach);
    }

    /** BROADCAST: enter ignition mode on the fabric, then send the content to every node. */
    method BroadcastPhase(ig: Ignition, e: Event, reach: string -> Option<int>) returns (r: Result<Event>)
      requires Valid() && tig != null && successfulEvents < totalEvents
      modifies this, tig
      ensures tig == old(tig)
      ensures Valid()
      ensures var a := BroadcastStage(ig, old(tig.initialized), e);
        && r == a.result
        && successfulEvents == old(successfulEvents) + (if a.countedSuccess then 1 else 0)
        && eventHistory == old(eventHistory) + Recorded(a)
        && lastEsgtTime == (if a.succeeded then ig.end else old(lastEsgtTime))
        && tig.nodes == NodesAfter(old(tig.nodes), a.mode)
      ensures unchanged(this`running, this`totalEvents, this`activeEvents, this`maxConcurrent, this`degradedMode)
      ensures unchanged(tig`graph, tig`metrics, tig`initialized, tig`initializing)
    {
      tig.EnterEsgtMode();
      if FaultIn(ig, Broadcast) {
        var failed := FailWith(e, ig.fault.value.message);
        eventHistory := eventHistory + [failed];
        return Ok(failed);
      }
      var sent := tig.BroadcastGlobal(reach);
      if sent.Err? {
        var failed := FailWith(e, sent.error);
        eventHistory := eventHistory + [failed];
        return Ok(failed);
      }
      r := SustainPhase(ig, e.(phases := e.phases + [Sustain]));
    }

    /** SUSTAIN, DISSOLVE and COMPLETE, with the fabric in ignition mode. */
    method SustainPhase(ig: Ignition, e: Event) returns (r: Result<Event>)
      requires Valid() && tig != null && successfulEvents < totalEvents
      modifies this, tig
      ensures tig == old(tig)
      ensures Valid()
      ensures var a := SustainStage(ig, e);
        && r == a.result
        && successfulEvents == old(successfulEvents) + (if a.countedSuccess then 1 else 0)
        && eventHistory == old(eventHistory) + Recorded(a)
        && lastEsgtTime == (if a.succeeded then ig.end else old(lastEsgtTime))
        && tig.nodes == (if a.mode == EnteredAndExited then ExitAll(old(tig.nodes)) else old(tig.nodes))
      ensures unchanged(this`running, this`totalEvents, this`activeEvents, this`maxConcurrent, this`degradedMode)
      ensures unchanged(tig`graph, tig`metrics, tig`initialized, tig`initializing)
    {
      if FaultIn(ig, Sustain) {
        var failed := FailWith(e, ig.fault.value.message);
        eventHistory := eventHistory + [failed];
        return Ok(failed);
      }
      var e5 := e.(coherenceHistory := e.coherenceHistory + ig.samples);
      r := DissolvePhase(ig, e5.(phases := e5.phases + [Dissolve]));
    }

    /** DISSOLVE and COMPLETE: the fabric leaves ignition mode and the peak coherence is reported. */
    method DissolvePhase(ig: Ignition, e: Event) returns (r: Result<Event>)
      requires Valid() && tig != null && successfulEvents < totalEvents
      modifies this, tig
      ensures tig == old(tig)
      ensures Valid()
      ensures var a := DissolveStage(ig, e);
        && r == a.result
        && successfulEvents == old(successfulEvents) + (if a.countedSuccess then 1 else 0)
        && eventHistory == old(eventHistory) + Recorded(a)
        && lastEsgtTime == (if a.succeeded then ig.end else old(lastEsgtTime))
        && tig.nodes == (if a.mode == EnteredAndExited then ExitAll(old(tig.nodes)) else old(tig.nodes))
      ensures unchanged(this`running, this`totalEvents, this`activeEvents, this`maxConcurrent, this`degradedMode)
      ensures unchanged(tig`graph, tig`metrics, tig`initialized, tig`initializing)
    {
      if FaultIn(ig, Dissolve) {
        var failed := FailWith(e, ig.fault.value.message);
        eventHistory := eventHistory + [failed];
        return Ok(failed);
      }
      tig.ExitEsgtMode();
      var done := e;
      if done.coherenceHistory != [] {
        done := done.(achievedCoherence := Max(done.coherenceHistory));
      }
      done := done.(phases := done.phases + [Complete], success := true);
      eventHistory := eventHistory + [done];
      lastEsgtTime := ig.end;
      if ig.wasSuccessful(done) {
        successfulEvents := successfulEvents + 1;
      }
      return Ok(done);
    }
  }
}
