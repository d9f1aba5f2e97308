/**
 * The HCL analyzer: static thresholds on one snapshot of system metrics turn
 * into anomalies, a health score in [0, 1], trends and recommendations.
 */
module HclAnalyzer {
  import opened Wrappers
  import opened OrderedMaps

  /** Only spikes are ever reported. */
  datatype AnomalyType = Spike

  datatype Anomaly = Anomaly(kind: AnomalyType, metricName: string, currentValue: real, severity: real, description: string)

  /** The snapshot fields the analyzer reads. */
  datatype SystemMetrics = SystemMetrics(cpuUsage: real, memoryUsage: real, errorRate: real, avgLatencyMs: real)

  datatype AnalysisResult = AnalysisResult(
    overallHealthScore: real,
    anomalies: seq<Anomaly>,
    trends: Dict<string, string>,
    recommendations: seq<string>,
    requiresIntervention: bool)

  const HealthyMessage := "System is healthy. No actions required."

  // ---------------------------------------------------------------------------
  // Specification

  /** The anomalies `_detect_anomalies` reports, in the order CPU, memory, error rate. */
  function Anomalies(m: SystemMetrics): seq<Anomaly> {
    CpuAnomaly(m) + MemoryAnomaly(m) + ErrorAnomaly(m)
  }

  function CpuAnomaly(m: SystemMetrics): seq<Anomaly> {
    if m.cpuUsage > 90.0 then [Anomaly(Spike, "cpu_usage", m.cpuUsage, 0.9, "Critical CPU usage detected (>90%)")]
    else if m.cpuUsage > 75.0 then [Anomaly(Spike, "cpu_usage", m.cpuUsage, 0.6, "High CPU usage detected (>75%)")]
    else []
  }

  function MemoryAnomaly(m: SystemMetrics): seq<Anomaly> {
    if m.memoryUsage > 90.0 then [Anomaly(Spike, "memory_usage", m.memoryUsage, 0.9, "Critical memory usage detected (>90%)")]
    else []
  }

  function ErrorAnomaly(m: SystemMetrics): seq<Anomaly> {
    if m.errorRate > 0.05 then [Anomaly(Spike, "error_rate", m.errorRate, 1.0, "High system error rate detected (>5%)")]
    else []
  }

  function SumSeverity(anomalies: seq<Anomaly>): real {
    if anomalies == [] then 0.0 else SumSeverity(anomalies[..|anomalies| - 1]) + anomalies[|anomalies| - 1].severity
  }

  /** The score before clamping: one tenth of each severity and a tenth for latency above 500 ms come off 1. */
  function RawScore(m: SystemMetrics, anomalies: seq<Anomaly>): real {
    1.0 - 0.1 * SumSeverity(anomalies) - (if m.avgLatencyMs > 500.0 then 0.1 else 0.0)
  }

  /** `max(0.0, min(1.0, x))`. */
  function Clamp(x: real): (r: real)
    ensures 0.0 <= r <= 1.0
    ensures 0.0 <= x <= 1.0 ==> r == x
    ensures x < 0.0 ==> r == 0.0
    ensures x > 1.0 ==> r == 1.0
  {
    var low := if x < 1.0 then x else 1.0;
    if 0.0 > low then 0.0 else low
  }

  /** `_calculate_health_score`. */
  function HealthScore(m: SystemMetrics, anomalies: seq<Anomaly>): real {
    Clamp(RawScore(m, anomalies))
  }

  /** The recommendation for one anomaly, by metric name; an unknown name has none. */
  function Advice(name: string): Option<string> {
    if name == "cpu_usage" then Some("Scale up CPU resources or optimize workload.")
    else if name == "memory_usage" then Some("Check for memory leaks or increase memory limits.")
    else if name == "error_rate" then Some("Investigate logs for recent error spikes.")
    else None
  }

  function AdviceAll(anomalies: seq<Anomaly>): seq<string> {
    if anomalies == [] then []
    else
      var last := Advice(anomalies[|anomalies| - 1].metricName);
      AdviceAll(anomalies[..|anomalies| - 1]) + (if last.Some? then [last.value] else [])
  }

  /** `_generate_recommendations`: one line per anomaly, or the healthy message when there is none. */
  function Recommendations(anomalies: seq<Anomaly>): seq<string> {
    var advice := AdviceAll(anomalies);
    if advice == [] then [HealthyMessage] else advice
  }

  /** `_identify_trends`: only latency can degrade. */
  function Trends(m: SystemMetrics): Dict<string, string> {
    [("cpu_trend", "stable"), ("memory_trend", "stable"), ("latency_trend", if m.avgLatencyMs < 200.0 then "stable" else "degrading")]
  }

  /** `analyze_metrics`. */
  function Analysis(threshold: real, m: SystemMetrics): AnalysisResult {
    var anomalies := Anomalies(m);
    var score := HealthScore(m, anomalies);
    AnalysisResult(score, anomalies, Trends(m), Recommendations(anomalies), score < threshold)
  }

  // ---------------------------------------------------------------------------
  // Properties

  /** At most one CPU anomaly, with severity 0.9 above 90 and 0.6 above 75. */
  lemma CpuThresholds(m: SystemMetrics)
    ensures |CpuAnomaly(m)| <= 1
    ensures m.cpuUsage > 90.0 ==> |CpuAnomaly(m)| == 1 && CpuAnomaly(m)[0].severity == 0.9
    ensures 75.0 < m.cpuUsage <= 90.0 ==> |CpuAnomaly(m)| == 1 && CpuAnomaly(m)[0].severity == 0.6
    ensures m.cpuUsage <= 75.0 ==> CpuAnomaly(m) == []
    ensures forall a :: a in CpuAnomaly(m) ==> a.metricName == "cpu_usage"
  {
  }

  /** Where each reported anomaly comes from: the CPU check, then memory, then the error rate. */
  lemma AnomalyParts(m: SystemMetrics)
    ensures var (r, c, mm) := (Anomalies(m), CpuAnomaly(m), MemoryAnomaly(m));
      forall i :: 0 <= i < |r| ==>
        && (i < |c| ==> r[i] == c[i])
        && (|c| <= i < |c| + |mm| ==> r[i] == mm[i - |c|])
        && (|c| + |mm| <= i ==> r[i] == ErrorAnomaly(m)[i - |c| - |mm|])
  {
  }

  /** At most three anomalies, all spikes with a severity in (0, 1]. */
  lemma AnomalyBounds(m: SystemMetrics)
    ensures var r := Anomalies(m);
      && |r| <= 3
      && (forall i :: 0 <= i < |r| ==> 0.0 < r[i].severity <= 1.0 && r[i].kind == Spike)
  {
    AnomalyParts(m);
  }

  /** Each metric is reported at most once, in the order CPU, memory, error rate. */
  lemma AnomalyOrder(m: SystemMetrics)
    ensures var r := Anomalies(m);
      forall i, j :: 0 <= i < j < |r| ==> Rank(r[i].metricName) < Rank(r[j].metricName)
  {
    NamesDiffer();
    AnomalyParts(m);
  }

  /** A metric is reported exactly when it crossed its threshold. */
  lemma AnomalyPresence(m: SystemMetrics)
    ensures Reported(Anomalies(m), "cpu_usage") <==> m.cpuUsage > 75.0
    ensures Reported(Anomalies(m), "memory_usage") <==> m.memoryUsage > 90.0
    ensures Reported(Anomalies(m), "error_rate") <==> m.errorRate > 0.05
  {
    NamesDiffer();
    AnomalyParts(m);
    var r, c, mm := Anomalies(m), CpuAnomaly(m), MemoryAnomaly(m);
    if m.memoryUsage > 90.0 {
      assert r[|c|] == mm[0];
    }
    if m.errorRate > 0.05 {
      assert r[|c| + |mm|] == ErrorAnomaly(m)[0];
    }
    if m.cpuUsage > 75.0 {
      assert r[0] == c[0];
    }
  }

  predicate Reported(r: seq<Anomaly>, name: string) {
    exists i :: 0 <= i < |r| && r[i].metricName == name
  }

  /** The position of a metric in the detection order. */
  function Rank(name: string): nat {
    if name == "cpu_usage" then 0 else if name == "memory_usage" then 1 else 2
  }

  /** Every severity lies in [0, 1], so the sum is between 0 and the count. */
  lemma {:induction false} SumSeverityBounds(anomalies: seq<Anomaly>)
    requires forall i :: 0 <= i < |anomalies| ==> 0.0 <= anomalies[i].severity <= 1.0
    ensures 0.0 <= SumSeverity(anomalies) <= |anomalies| as real
    decreases |anomalies|
  {
    if anomalies != [] {
      var init := anomalies[..|anomalies| - 1];
      assert forall i :: 0 <= i < |init| ==> init[i] == anomalies[i];
      SumSeverityBounds(init);
    }
  }

  /**
   * The health score is in [0, 1]; with at most three anomalies of severity
   * at most 1 it is never clamped from above, and it equals the raw score
   * whenever that is in range.
   */
  lemma HealthScoreFacts(m: SystemMetrics)
    ensures var s := HealthScore(m, Anomalies(m));
      && 0.0 <= s <= 1.0
      && RawScore(m, Anomalies(m)) <= 1.0
      && (0.0 <= RawScore(m, Anomalies(m)) ==> s == RawScore(m, Anomalies(m)))
  {
    AnomalyBounds(m);
    SumSeverityBounds(Anomalies(m));
  }

  /** One more anomaly of non-negative severity never raises the score. */
  lemma ScoreMonotone(m: SystemMetrics, anomalies: seq<Anomaly>, a: Anomaly)
    requires a.severity >= 0.0
    ensures HealthScore(m, anomalies + [a]) <= HealthScore(m, anomalies)
    ensures RawScore(m, anomalies + [a]) == RawScore(m, anomalies) - 0.1 * a.severity
  {
    assert (anomalies + [a])[..|anomalies|] == anomalies;
  }

  /** A snapshot under every threshold has no anomaly, full health and the healthy message. */
  lemma HealthySnapshot(threshold: real, m: SystemMetrics)
    requires m.cpuUsage <= 75.0 && m.memoryUsage <= 90.0 && m.errorRate <= 0.05 && m.avgLatencyMs <= 500.0
    ensures var r := Analysis(threshold, m);
      && r.anomalies == [] && r.overallHealthScore == 1.0
      && r.recommendations == [HealthyMessage]
      && (r.requiresIntervention <==> threshold > 1.0)
  {
    assert Anomalies(m) == [];
  }

  /** Anomalies with known metric names get one recommendation each, in order. */
  lemma {:induction false} AdviceAllFacts(anomalies: seq<Anomaly>)
    requires forall i :: 0 <= i < |anomalies| ==> Advice(anomalies[i].metricName).Some?
    ensures |AdviceAll(anomalies)| == |anomalies|
    ensures forall i :: 0 <= i < |anomalies| ==> AdviceAll(anomalies)[i] == Advice(anomalies[i].metricName).value
    decreases |anomalies|
  {
    if anomalies != [] {
      var init := anomalies[..|anomalies| - 1];
      assert forall i :: 0 <= i < |init| ==> init[i] == anomalies[i];
      AdviceAllFacts(init);
    }
  }

  /** The three metric names differ from each other. */
  lemma NamesDiffer()
    ensures "cpu_usage" != "memory_usage" && "cpu_usage" != "error_rate" && "memory_usage" != "error_rate"
  {
    assert "cpu_usage"[0] != "memory_usage"[0];
    assert "cpu_usage"[0] != "error_rate"[0];
    assert "memory_usage"[0] != "error_rate"[0];
  }

  /** The detected anomalies get one recommendation each; none gives the single healthy message. */
  lemma RecommendationFacts(m: SystemMetrics)
    ensures var (r, a) := (Recommendations(Anomalies(m)), Anomalies(m));
      && (a == [] ==> r == [HealthyMessage])
      && (a != [] ==> |r| == |a| && forall i :: 0 <= i < |a| ==> r[i] == Advice(a[i].metricName).value)
  {
    var a := Anomalies(m);
    assert forall i :: 0 <= i < |a| ==> Advice(a[i].metricName).Some? by {
      forall i | 0 <= i < |a| ensures Advice(a[i].metricName).Some? {
        assert a[i] in CpuAnomaly(m) + MemoryAnomaly(m) + ErrorAnomaly(m);
      }
    }
    AdviceAllFacts(a);
  }

  /** CPU and memory are always stable; latency is stable exactly below 200 ms. */
  lemma TrendFacts(m: SystemMetrics)
    ensures Get(Trends(m), "cpu_trend") == Some("stable") && Get(Trends(m), "memory_trend") == Some("stable")
    ensures Get(Trends(m), "latency_trend") == Some(if m.avgLatencyMs < 200.0 then "stable" else "degrading")
  {
    var t := Trends(m);
    assert DistinctKeys(t);
    GetAt(t, 0);
    GetAt(t, 1);
    GetAt(t, 2);
  }

  // ---------------------------------------------------------------------------
  // The analyzer

  class SystemAnalyzer {
    const anomalyThreshold: real

    constructor (anomalyThreshold: real)
      ensures this.anomalyThreshold == anomalyThreshold
    {
      this.anomalyThreshold := anomalyThreshold;
    }

    /** `analyze_metrics`: anomalies, then the score, trends and recommendations from them. */
    method AnalyzeMetrics(m: SystemMetrics) returns (result: AnalysisResult)
      ensures result == Analysis(anomalyThreshold, m)
      ensures 0.0 <= result.overallHealthScore <= 1.0
      ensures result.requiresIntervention <==> result.overallHealthScore < anomalyThreshold
      ensures result.recommendations != []
    {
      var anomalies := DetectAnomalies(m);
      var score := CalculateHealthScore(m, anomalies);
      var recommendations := GenerateRecommendations(anomalies);
      result := AnalysisResult(score, anomalies, Trends(m), recommendations, score < anomalyThreshold);
    }

    /** `get_status`; `str` of the threshold is supplied by the caller. */
    function GetStatus(render: real -> string): (r: Dict<string, string>)
      ensures Get(r, "status") == Some("active") && Get(r, "threshold") == Some(render(anomalyThreshold))
    {
      var r := [("status", "active"), ("threshold", render(anomalyThreshold))];
      assert DistinctKeys(r);
      GetAt(r, 0);
      GetAt(r, 1);
      r
    }
  }

  /** `_detect_anomalies`: the three checks append to a list in turn. */
  method DetectAnomalies(m: SystemMetrics) returns (anomalies: seq<Anomaly>)
    ensures anomalies == Anomalies(m)
  {
    anomalies := [];
    if m.cpuUsage > 90.0 {
      anomalies := anomalies + [Anomaly(Spike, "cpu_usage", m.cpuUsage, 0.9, "Critical CPU usage detected (>90%)")];
    } else if m.cpuUsage > 75.0 {
      anomalies := anomalies + [Anomaly(Spike, "cpu_usage", m.cpuUsage, 0.6, "High CPU usage detected (>75%)")];
    }
    if m.memoryUsage > 90.0 {
      anomalies := anomalies + [Anomaly(Spike, "memory_usage", m.memoryUsage, 0.9, "Critical memory usage detected (>90%)")];
    }
    if m.errorRate > 0.05 {
      anomalies := anomalies + [Anomaly(Spike, "error_rate", m.errorRate, 1.0, "High system error rate detected (>5%)")];
    }
  }

  /** `_calculate_health_score`: a tenth of each severity off 1, a tenth for latency, clamped. */
  method CalculateHealthScore(m: SystemMetrics, anomalies: seq<Anomaly>) returns (score: real)
    ensures score == HealthScore(m, anomalies)
    ensures 0.0 <= score <= 1.0
  {
    var base := 1.0;
    var i := 0;
    while i < |anomalies|
      invariant 0 <= i <= |anomalies|
      invariant base == 1.0 - 0.1 * SumSeverity(anomalies[..i])
    {
      assert anomalies[..i + 1][..i] == anomalies[..i];
      base := base - anomalies[i].severity * 0.1;
      i := i + 1;
    }
    assert anomalies[..i] == anomalies;
    if m.avgLatencyMs > 500.0 {
      base := base - 0.1;
    }
    score := Clamp(base);
  }

  /** `_generate_recommendations`: one line per anomaly with a known metric, else the healthy message. */
  method GenerateRecommendations(anomalies: seq<Anomaly>) returns (recommendations: seq<string>)
    ensures recommendations == Recommendations(anomalies)
    ensures recommendations != []
  {
    recommendations := [];
    var i := 0;
    while i < |anomalies|
      invariant 0 <= i <= |anomalies|
      invariant recommendations == AdviceAll(anomalies[..i])
    {
      assert anomalies[..i + 1][..i] == anomalies[..i];
      var a := anomalies[i];
      if a.metricName == "cpu_usage" {
        recommendations := recommendations + ["Scale up CPU resources or optimize workload."];
      } else if a.metricName == "memory_usage" {
        recommendations := recommendations + ["Check for memory leaks or increase memory limits."];
      } else if a.metricName == "error_rate" {
        recommendations := recommendations + ["Investigate logs for recent error spikes."];
      }
      i := i + 1;
    }
    assert anomalies[..i] == anomalies;
    if recommendations == [] {
      recommendations := recommendations + [HealthyMessage];
    }
  }
}
