/**
 * The world model's deterministic fallback: a fixed table of expected
 * outcomes per action type, applied to the current system state.
 */
module WorldModelHeuristics {
  import opened Wrappers
  import opened OrderedMaps
  import opened Json

  datatype SimulationOutcome = Success | Failure | Partial | Unknown {
    function Value(): string {
      match this
      case Success => "success"
      case Failure => "failure"
      case Partial => "partial"
      case Unknown => "unknown"
    }
  }

  /** One row of the heuristics table. */
  datatype Heuristic = Heuristic(
    successProb: real,
    outcome: SimulationOutcome,
    stateChanges: Object,
    reasoning: string,
    confidence: real,
    risk: real,
    sideEffects: seq<string>)

  /** The prediction `predict_outcome_heuristic` returns. */
  datatype Prediction = Prediction(
    action: Object,
    predictedState: Object,
    successProbability: real,
    outcome: SimulationOutcome,
    reasoning: string,
    confidence: real,
    riskScore: real,
    sideEffects: seq<string>,
    simulationDepth: nat)

  const DefaultHeuristic := Heuristic(0.4, Unknown, [], "Unknown action type, cannot predict reliably", 0.3, 0.7, [])

  const KnownActions: seq<string> := ["restart", "scale_up", "scale_down", "rollback", "deploy", "migrate"]

  /**
   * `ACTION_HEURISTICS.get(action_type, DEFAULT_HEURISTIC)`: the default row
   * for any type that is not a table key, and a `TypeError` for a list or
   * dict type, which cannot be looked up.
   */
  function Lookup(actionType: Json): (r: Result<Heuristic>)
    ensures r.Err? <==> !Hashable(actionType)
    ensures r.Err? ==> r.error == Unhashable(actionType)
    ensures r.Ok? && !(actionType.JStr? && actionType.s in KnownActions) ==> r.value == DefaultHeuristic
    ensures r.Ok? ==> 0.0 <= r.value.successProb <= 1.0 && 0.0 <= r.value.risk <= 1.0 && 0.0 <= r.value.confidence <= 1.0
    ensures r.Ok? ==> |r.value.stateChanges| <= 1
  {
    if !Hashable(actionType) then Err(Unhashable(actionType))
    else if actionType.JStr? && actionType.s in KnownActions then Ok(Known(actionType.s))
    else Ok(DefaultHeuristic)
  }

  /** The table's entry for one of the six known actions. */
  function Known(action: string): (h: Heuristic)
    requires action in KnownActions
    ensures 0.0 <= h.successProb <= 1.0 && 0.0 <= h.risk <= 1.0 && 0.0 <= h.confidence <= 1.0
    ensures |h.stateChanges| <= 1
  {
    if action == "restart" then Restart
    else if action == "scale_up" then ScaleUp
    else if action == "scale_down" then ScaleDown
    else if action == "rollback" then Rollback
    else if action == "deploy" then Deploy
    else Migrate
  }

  const Restart := Heuristic(0.7, Success, [("status", JStr("restarted"))],
    "Restart typically resolves transient issues", 0.6, 0.3, ["brief downtime", "connection reset"])
  const ScaleUp := Heuristic(0.8, Success, [],
    "Scaling up increases capacity, likely resolves load issues", 0.7, 0.2, ["increased cost", "warm-up time"])
  const ScaleDown := Heuristic(0.75, Success, [],
    "Scaling down reduces resources, may impact performance", 0.6, 0.4, ["reduced capacity", "potential load issues"])
  const Rollback := Heuristic(0.9, Success, [("version", JStr("previous"))],
    "Rollback to known-good state is low risk", 0.8, 0.1, ["feature regression"])
  const Deploy := Heuristic(0.6, Partial, [("version", JStr("new"))],
    "Deployments carry moderate risk", 0.5, 0.5, ["potential bugs", "performance changes"])
  const Migrate := Heuristic(0.5, Partial, [("migrated", JBool(true))],
    "Migrations are complex and risky", 0.4, 0.7, ["data transfer time", "potential data loss"])

  /** `action.get("params", {}).get("replicas", default)`; a non-dict `params` has no `get`. */
  function Replicas(action: Object, default: int): (r: Result<Json>)
    ensures !HasKey(action, "params") ==> r == Ok(JInt(default))
    ensures r.Err? <==> HasKey(action, "params") && !GetOr(action, "params", JNull).JObj?
  {
    match GetOr(action, "params", JObj([]))
    case JObj(params) => Ok(GetOr(params, "replicas", JInt(default)))
    case other => Err("'" + TypeName(other) + "' object has no attribute 'get'")
  }

  /** `max(1, replicas)`: Python keeps the first of equal values, and refuses to order a non-number. */
  function AtLeastOne(v: Json): (r: Result<Json>)
    ensures r.Ok? <==> v.JInt? || v.JReal? || v.JBool?
    ensures r.Ok? && r.value.JInt? ==> r.value.i >= 1
    ensures r.Ok? && r.value.JReal? ==> r.value.r > 1.0
    ensures r.Ok? ==> r.value.JInt? || r.value.JReal?
  {
    match v
    case JInt(i) => Ok(JInt(if i > 1 then i else 1))
    case JReal(x) => Ok(if x > 1.0 then JReal(x) else JInt(1))
    case JBool(_) => Ok(JInt(1))
    case _ => Err("'>' not supported between instances of '" + TypeName(v) + "' and 'int'")
  }

  /** `predict_outcome_heuristic(current_state, action)`. */
  function PredictOutcomeHeuristic(currentState: Object, action: Object): Result<Prediction> {
    var h :- Lookup(ActionType(action));
    var merged := Merge(currentState, h.stateChanges);
    var replicas :- ScaledReplicas(action);
    var predicted := if replicas.Some? then Put(merged, "replicas", replicas.value) else merged;
    Ok(Prediction(action, predicted, h.successProb, h.outcome, h.reasoning, h.confidence, h.risk, h.sideEffects, 1))
  }

  function ActionType(action: Object): Json {
    GetOr(action, "type", JStr("unknown"))
  }

  predicate IsScale(action: Object) {
    ActionType(action) == JStr("scale_up") || ActionType(action) == JStr("scale_down")
  }

  /** The replica count a scale action sets: `params.replicas` (default 2) up, at least 1 (default 1) down. */
  function ScaledReplicas(action: Object): (r: Result<Option<Json>>)
    ensures r.Ok? ==> (r.value.Some? <==> IsScale(action))
  {
    if ActionType(action) == JStr("scale_up") then Replicas(action, 2).MapOk(n => Some(n))
    else if ActionType(action) == JStr("scale_down") then
      match Replicas(action, 1)
      case Err(e) => Err(e)
      case Ok(n) => AtLeastOne(n).MapOk(m => Some(m))
    else Ok(None)
  }

  /**
   * Only an unhashable action type, or reading the replicas of a scale
   * action that has `params`, can raise; every other action predicts.
   */
  lemma OnlyScaleCanFail(currentState: Object, action: Object)
    ensures !Hashable(ActionType(action)) ==>
      PredictOutcomeHeuristic(currentState, action) == Err(Unhashable(ActionType(action)))
    ensures Hashable(ActionType(action)) && !IsScale(action) ==> PredictOutcomeHeuristic(currentState, action).Ok?
    ensures Hashable(ActionType(action)) && !HasKey(action, "params") ==> PredictOutcomeHeuristic(currentState, action).Ok?
  {
  }

  /**
   * The prediction echoes the action at depth 1 and copies probability,
   * outcome, reasoning, confidence, risk and side effects from the action's
   * table row (the default row for an unknown type).
   */
  lemma PredictionEchoesTable(currentState: Object, action: Object)
    ensures var r := PredictOutcomeHeuristic(currentState, action);
      r.Ok? ==>
        var h := Lookup(ActionType(action)).value;
        && r.value.action == action && r.value.simulationDepth == 1
        && r.value.successProbability == h.successProb && r.value.outcome == h.outcome
        && r.value.reasoning == h.reasoning && r.value.confidence == h.confidence
        && r.value.riskScore == h.risk && r.value.sideEffects == h.sideEffects
  {
  }

  /**
   * An unknown action type predicts 0.4 / UNKNOWN / risk 0.7 / confidence
   * 0.3 and leaves the state as it was, unless it is a list or dict, which
   * cannot be looked up and raises.
   */
  lemma UnknownActionUsesDefault(currentState: Object, action: Object)
    requires !(ActionType(action).JStr? && ActionType(action).s in KnownActions)
    ensures var r := PredictOutcomeHeuristic(currentState, action);
      !Hashable(ActionType(action)) ==> r == Err(Unhashable(ActionType(action)))
    ensures var r := PredictOutcomeHeuristic(currentState, action);
      Hashable(ActionType(action)) ==>
      && r.Ok? && r.value.successProbability == 0.4 && r.value.outcome == Unknown
      && r.value.riskScore == 0.7 && r.value.confidence == 0.3 && r.value.sideEffects == []
      && r.value.predictedState == currentState
  {
  }

  /**
   * Every key of the predicted state holds the replica count for a scale
   * action's "replicas", else the table's state change, else the current value.
   */
  lemma PredictedStateKeys(currentState: Object, action: Object, k: string)
    requires DistinctKeys(currentState)
    ensures var r := PredictOutcomeHeuristic(currentState, action);
      r.Ok? ==>
        var changes := Lookup(ActionType(action)).value.stateChanges;
        && DistinctKeys(r.value.predictedState)
        && (k == "replicas" && IsScale(action) ==> HasKey(r.value.predictedState, k))
        && (!(k == "replicas" && IsScale(action)) ==>
              Get(r.value.predictedState, k) == if HasKey(changes, k) then Get(changes, k) else Get(currentState, k))
  {
    if !Hashable(ActionType(action)) {
      return;
    }
    var h := Lookup(ActionType(action)).value;
    var merged := Merge(currentState, h.stateChanges);
    MergeDistinct(currentState, h.stateChanges);
    AtMostOneDistinct(h.stateChanges);
    MergeGet(currentState, h.stateChanges, k);
    var rep := ScaledReplicas(action);
    if rep.Ok? && rep.value.Some? {
      PutGet(merged, "replicas", rep.value.value, k);
      PutGet(merged, "replicas", rep.value.value, "replicas");
    }
  }

  /** A scale-up sets the replica count to `params.replicas`, 2 when absent. */
  lemma ScaleUpReplicas(currentState: Object, action: Object)
    requires DistinctKeys(currentState) && ActionType(action) == JStr("scale_up")
    ensures var r := PredictOutcomeHeuristic(currentState, action);
      r.Ok? <==> Replicas(action, 2).Ok?
    ensures var r := PredictOutcomeHeuristic(currentState, action);
      r.Ok? ==> Get(r.value.predictedState, "replicas") == Some(Replicas(action, 2).value)
    ensures !HasKey(action, "params") ==> Get(PredictOutcomeHeuristic(currentState, action).value.predictedState, "replicas") == Some(JInt(2))
  {
    var h := Lookup(ActionType(action)).value;
    MergeDistinct(currentState, h.stateChanges);
    if Replicas(action, 2).Ok? {
      PutGet(Merge(currentState, h.stateChanges), "replicas", Replicas(action, 2).value, "replicas");
    }
  }

  /** A scale-down never predicts fewer than one replica. */
  lemma ScaleDownAtLeastOne(currentState: Object, action: Object)
    requires DistinctKeys(currentState) && ActionType(action) == JStr("scale_down")
    ensures var r := PredictOutcomeHeuristic(currentState, action);
      r.Ok? ==>
        var v := Get(r.value.predictedState, "replicas");
        v.Some? && ((v.value.JInt? && v.value.i >= 1) || (v.value.JReal? && v.value.r >= 1.0))
    ensures !HasKey(action, "params") ==> Get(PredictOutcomeHeuristic(currentState, action).value.predictedState, "replicas") == Some(JInt(1))
  {
    var h := Lookup(ActionType(action)).value;
    MergeDistinct(currentState, h.stateChanges);
    var rep := Replicas(action, 1);
    if rep.Ok? && AtLeastOne(rep.value).Ok? {
      PutGet(Merge(currentState, h.stateChanges), "replicas", AtLeastOne(rep.value).value, "replicas");
    }
  }
}
