/** Suitability scores of metric buckets (agent/llm_benchmarks.py, agent/hub_benchmark.py,
    agent/ollama_benchmark.py), over reals and before the final rounding. */
module Scoring {
  import opened Ledger
  import OllamaLedger

  function Ratio(a: real, total: nat): real { if total == 0 then 0.0 else a / total as real }

  function Clamp01(x: real): real { if x < 0.0 then 0.0 else if x > 1.0 then 1.0 else x }

  /** `max(0, min(1, 1 - average / scale))`. */
  function Thrift(sum: real, total: nat, scale: real): real
    requires scale > 0.0
  {
    Clamp01(1.0 - Ratio(sum, total) / scale)
  }

  /** `score_bucket`. */
  function ScoreBucket(t: Totals): real {
    (0.45 * Ratio(t.success as real, t.total) + 0.35 * Ratio(t.qualityPass as real, t.total)
     + 0.20 * ((Thrift(t.latencyMs as real, t.total, 30000.0) + Thrift(t.tokens as real, t.total, 8000.0)) / 2.0)) * 100.0
  }

  datatype Scales = Scales(latency: real, cost: real)

  const HUB_SCALES := Scales(60000.0, 0.01)
  const OLLAMA_SCALES := Scales(120000.0, 0.001)

  datatype Weights = Weights(success: real, quality: real, latency: real, cost: real)

  /** The configured weights, with the default of each one that is missing. */
  function WeightsOf(config: map<string, real>): Weights {
    Weights(if "success_rate" in config then config["success_rate"] else 0.40,
            if "quality_rate" in config then config["quality_rate"] else 0.35,
            if "latency_score" in config then config["latency_score"] else 0.15,
            if "cost_score" in config then config["cost_score"] else 0.10)
  }

  function Part(weight: real, rate: real): real { weight * rate }

  /** The weighted sum of two rates and two thrift scores. */
  function Weigh(w: Weights, success: real, quality: real, latency: real, cost: real): real {
    (Part(w.success, success) + Part(w.quality, quality) + Part(w.latency, latency) + Part(w.cost, cost)) * 100.0
  }

  function CostOf(t: Totals): real { if t.cost < 0.0 then 0.0 else t.cost }

  /** `score_hub_bucket` and `score_ollama_bucket`. */
  function ScoreWeighted(t: Totals, w: Weights, s: Scales): real
    requires s.latency > 0.0 && s.cost > 0.0
  {
    Weigh(w, Ratio(t.success as real, t.total), Ratio(t.qualityPass as real, t.total),
          Thrift(t.latencyMs as real, t.total, s.latency), Thrift(CostOf(t), t.total, s.cost))
  }

  predicate NonNegative(w: Weights) {
    w.success >= 0.0 && w.quality >= 0.0 && w.latency >= 0.0 && w.cost >= 0.0
  }

  predicate AtMostOne(w: Weights) { w.success + w.quality + w.latency + w.cost <= 1.0 }

  lemma DivideMonotone(a: real, b: real, t: real)
    requires a <= b && t > 0.0
    ensures a / t <= b / t
  {
  }

  lemma RatioBounds(a: real, total: nat)
    requires 0.0 <= a <= total as real
    ensures 0.0 <= Ratio(a, total) <= 1.0
  {
  }

  lemma RatioMonotone(a: real, b: real, total: nat)
    requires a <= b
    ensures Ratio(a, total) <= Ratio(b, total)
  {
  }

  lemma ThriftAntitone(a: real, b: real, total: nat, scale: real)
    requires a <= b && scale > 0.0
    ensures Thrift(b, total, scale) <= Thrift(a, total, scale)
  {
    RatioMonotone(a, b, total);
    DivideMonotone(Ratio(a, total), Ratio(b, total), scale);
  }

  /** Every balanced bucket scores within 0 and 100. */
  lemma ScoreInRange(t: Totals)
    requires Balanced(t)
    ensures 0.0 <= ScoreBucket(t) <= 100.0
  {
    RatioBounds(t.success as real, t.total);
    RatioBounds(t.qualityPass as real, t.total);
  }

  /** A bucket of `n` equal requests. */
  function Uniform(n: nat, success: bool, pass: bool, latencyMs: nat, tokens: nat, cost: real): (t: Totals)
    ensures Balanced(t)
  {
    Totals(n, if success then n else 0, if success then 0 else n, if pass then n else 0, if pass then 0 else n,
           n * latencyMs, n * tokens, n as real * cost)
  }

  lemma RatioOfMultiple(n: nat, x: real)
    requires n >= 1
    ensures Ratio(n as real * x, n) == x
  {
  }

  lemma UniformRatios(n: nat, success: bool, pass: bool, latencyMs: nat, tokens: nat, cost: real)
    requires n >= 1
    ensures var t := Uniform(n, success, pass, latencyMs, tokens, cost);
      && Ratio(t.success as real, n) == (if success then 1.0 else 0.0)
      && Ratio(t.qualityPass as real, n) == (if pass then 1.0 else 0.0)
      && Ratio(t.latencyMs as real, n) == latencyMs as real && Ratio(t.tokens as real, n) == tokens as real
      && Ratio(t.cost, n) == cost
  {
    RatioOfMultiple(n, 1.0);
    RatioOfMultiple(n, latencyMs as real);
    RatioOfMultiple(n, tokens as real);
    RatioOfMultiple(n, cost);
    assert (n * latencyMs) as real == n as real * latencyMs as real;
    assert (n * tokens) as real == n as real * tokens as real;
  }

  /** The parts of the LLM score: 45 points for success, 35 for quality, 10 for latency, all of them at
      0 ms, half at 15 s and none from 30 s on, and 10 for tokens, likewise at 0, 4000 and 8000. */
  lemma LlmScoreParts(n: nat, success: bool, pass: bool, latencyMs: nat, tokens: nat)
    requires n >= 1 && (latencyMs == 0 || latencyMs == 15000 || latencyMs >= 30000)
    requires tokens == 0 || tokens == 4000 || tokens >= 8000
    ensures ScoreBucket(Uniform(n, success, pass, latencyMs, tokens, 0.0)) ==
            (if success then 45.0 else 0.0) + (if pass then 35.0 else 0.0)
            + (if latencyMs == 0 then 10.0 else if latencyMs == 15000 then 5.0 else 0.0)
            + (if tokens == 0 then 10.0 else if tokens == 4000 then 5.0 else 0.0)
  {
    UniformRatios(n, success, pass, latencyMs, tokens, 0.0);
    ThriftValues(latencyMs as real, 30000.0);
    ThriftValues(tokens as real, 8000.0);
  }

  lemma ThriftValues(average: real, scale: real)
    requires scale > 0.0
    ensures average == 0.0 ==> Clamp01(1.0 - average / scale) == 1.0
    ensures average == scale / 2.0 ==> Clamp01(1.0 - average / scale) == 0.5
    ensures average >= scale ==> Clamp01(1.0 - average / scale) == 0.0
  {
    if average >= scale {
      DivideMonotone(scale, average, scale);
    }
    if average == scale / 2.0 {
      SameFactor(average / scale, 0.5, scale);
    }
  }

  lemma SameFactor(x: real, y: real, z: real)
    requires z != 0.0 && x * z == y * z
    ensures x == y
  {
  }

  /** An empty bucket scores only for what it has not used. */
  lemma EmptyScores(w: Weights, s: Scales)
    requires s.latency > 0.0 && s.cost > 0.0
    ensures ScoreBucket(ZERO) == 20.0 && ScoreWeighted(ZERO, w, s) == (w.latency + w.cost) * 100.0
  {
  }

  lemma PartBounds(w: real, x: real)
    requires w >= 0.0 && 0.0 <= x <= 1.0
    ensures 0.0 <= Part(w, x) <= w
  {
  }

  predicate IsRate(x: real) { 0.0 <= x <= 1.0 }

  lemma WeighInRange(w: Weights, success: real, quality: real, latency: real, cost: real)
    requires NonNegative(w) && AtMostOne(w)
    requires IsRate(success) && IsRate(quality) && IsRate(latency) && IsRate(cost)
    ensures 0.0 <= Weigh(w, success, quality, latency, cost) <= 100.0
  {
    PartBounds(w.success, success);
    PartBounds(w.quality, quality);
    PartBounds(w.latency, latency);
    PartBounds(w.cost, cost);
  }

  lemma WeightedInRange(t: Totals, w: Weights, s: Scales)
    requires Balanced(t) && s.latency > 0.0 && s.cost > 0.0 && NonNegative(w) && AtMostOne(w)
    ensures 0.0 <= ScoreWeighted(t, w, s) <= 100.0
  {
    RatioBounds(t.success as real, t.total);
    RatioBounds(t.qualityPass as real, t.total);
    WeighInRange(w, Ratio(t.success as real, t.total), Ratio(t.qualityPass as real, t.total),
                 Thrift(t.latencyMs as real, t.total, s.latency), Thrift(CostOf(t), t.total, s.cost));
  }

  /** The bucket of one request that is at one end of each of the four scales. */
  function Probe(success: bool, pass: bool, fast: bool, cheap: bool, s: Scales): (t: Totals)
    requires s.latency > 0.0 && s.cost > 0.0
    ensures Balanced(t)
  {
    Totals(1, if success then 1 else 0, if success then 0 else 1, if pass then 1 else 0, if pass then 0 else 1,
           if fast then 0 else s.latency.Floor + 1, 0, if cheap then 0.0 else s.cost)
  }

  lemma ThriftEnds(sum: real, scale: real)
    requires scale > 0.0
    ensures sum == 0.0 ==> Thrift(sum, 1, scale) == 1.0
    ensures sum >= scale ==> Thrift(sum, 1, scale) == 0.0
  {
    if sum >= scale {
      DivideMonotone(scale, sum, scale);
    }
  }

  /** The sum of the weights of the scales at their good end. */
  function Chosen(success: bool, pass: bool, fast: bool, cheap: bool, w: Weights): real {
    (if success then w.success else 0.0) + (if pass then w.quality else 0.0)
    + (if fast then w.latency else 0.0) + (if cheap then w.cost else 0.0)
  }

  lemma ProbeScore(success: bool, pass: bool, fast: bool, cheap: bool, w: Weights, s: Scales)
    requires s.latency > 0.0 && s.cost > 0.0
    ensures ScoreWeighted(Probe(success, pass, fast, cheap, s), w, s) == Chosen(success, pass, fast, cheap, w) * 100.0
  {
    var t := Probe(success, pass, fast, cheap, s);
    ThriftEnds(t.latencyMs as real, s.latency);
    ThriftEnds(t.cost, s.cost);
  }

  /** Every balanced bucket scores within 0 and 100. */
  ghost predicate AlwaysInRange(w: Weights, s: Scales)
    requires s.latency > 0.0 && s.cost > 0.0
  {
    forall t :: Balanced(t) ==> 0.0 <= ScoreWeighted(t, w, s) <= 100.0
  }

  /** With configured weights that holds iff no weight is negative and they sum to at most one. */
  lemma InRangeIff(w: Weights, s: Scales)
    requires s.latency > 0.0 && s.cost > 0.0
    ensures AlwaysInRange(w, s) <==> NonNegative(w) && AtMostOne(w)
  {
    if NonNegative(w) && AtMostOne(w) {
      forall t | Balanced(t)
        ensures 0.0 <= ScoreWeighted(t, w, s) <= 100.0
      {
        WeightedInRange(t, w, s);
      }
    }
    if AlwaysInRange(w, s) {
      ProbesInRange(w, s);
    }
  }

  lemma ProbeInRange(success: bool, pass: bool, fast: bool, cheap: bool, w: Weights, s: Scales)
    requires s.latency > 0.0 && s.cost > 0.0 && AlwaysInRange(w, s)
    ensures 0.0 <= Chosen(success, pass, fast, cheap, w) <= 1.0
  {
    ProbeScore(success, pass, fast, cheap, w, s);
    assert Balanced(Probe(success, pass, fast, cheap, s));
  }

  lemma ProbesInRange(w: Weights, s: Scales)
    requires s.latency > 0.0 && s.cost > 0.0 && AlwaysInRange(w, s)
    ensures NonNegative(w) && AtMostOne(w)
  {
    ProbeInRange(true, false, false, false, w, s);
    ProbeInRange(false, true, false, false, w, s);
    ProbeInRange(false, false, true, false, w, s);
    ProbeInRange(false, false, false, true, w, s);
    ProbeInRange(true, true, true, true, w, s);
  }

  /** The parts of the hub and Ollama scores with configured weights, at the ends and in the middle of
      each scale: 60 s and 0.01 cost units for the hub, 120 s and 0.001 for Ollama. */
  lemma WeightedScoreParts(n: nat, success: bool, pass: bool, latencyMs: nat, cost: real, a: real, b: real, c: real, d: real)
    requires n >= 1 && (latencyMs == 0 || latencyMs == 30000 || latencyMs >= 60000)
    requires cost == 0.0 || cost == 0.005 || cost >= 0.01
    ensures var config := map["success_rate" := a, "quality_rate" := b, "latency_score" := c, "cost_score" := d];
      ScoreWeighted(Uniform(n, success, pass, latencyMs, 0, cost), WeightsOf(config), HUB_SCALES) ==
      ((if success then a else 0.0) + (if pass then b else 0.0)
       + Part(c, if latencyMs == 0 then 1.0 else if latencyMs == 30000 then 0.5 else 0.0)
       + Part(d, if cost == 0.0 then 1.0 else if cost == 0.005 then 0.5 else 0.0)) * 100.0
  {
    HalfCost(n, cost);
    UniformRatios(n, success, pass, latencyMs, 0, cost);
    ThriftValues(latencyMs as real, 60000.0);
    ThriftValues(cost, 0.01);
    UnitParts(a);
    UnitParts(b);
  }

  lemma OllamaScoreParts(n: nat, success: bool, pass: bool, latencyMs: nat, cost: real)
    requires n >= 1 && (latencyMs == 0 || latencyMs == 60000 || latencyMs >= 120000)
    requires cost == 0.0 || cost == 0.0005 || cost >= 0.001
    ensures ScoreWeighted(Uniform(n, success, pass, latencyMs, 0, cost), WeightsOf(map[]), OLLAMA_SCALES) ==
            (if success then 40.0 else 0.0) + (if pass then 35.0 else 0.0)
            + (if latencyMs == 0 then 15.0 else if latencyMs == 60000 then 7.5 else 0.0)
            + (if cost == 0.0 then 10.0 else if cost == 0.0005 then 5.0 else 0.0)
  {
    HalfCost(n, cost);
    UniformRatios(n, success, pass, latencyMs, 0, cost);
    ThriftValues(latencyMs as real, 120000.0);
    ThriftValues(cost, 0.001);
  }

  lemma HalfCost(n: nat, cost: real)
    requires cost >= 0.0
    ensures n as real * cost >= 0.0
  {
  }

  lemma UnitParts(w: real)
    ensures Part(w, 1.0) == w && Part(w, 0.0) == 0.0
  {
  }

  /** A configured success weight of 2 scores a successful request above 100. */
  lemma HeavyWeightOverflows()
    ensures ScoreWeighted(Probe(true, true, true, true, HUB_SCALES), WeightsOf(map["success_rate" := 2.0]), HUB_SCALES) == 260.0
  {
    ProbeScore(true, true, true, true, WeightsOf(map["success_rate" := 2.0]), HUB_SCALES);
  }

  /** `u` did at least as well as `t` on as many requests: no fewer successes or passes, no more
      latency, tokens or cost. */
  predicate NoWorse(t: Totals, u: Totals) {
    && t.total == u.total && t.success <= u.success && t.qualityPass <= u.qualityPass
    && u.latencyMs <= t.latencyMs && u.tokens <= t.tokens && u.cost <= t.cost
  }

  lemma PartMonotone(w: real, x: real, y: real)
    requires w >= 0.0 && x <= y
    ensures Part(w, x) <= Part(w, y)
  {
  }

  /** Scores grow with successes and passes and fall with latency, tokens and cost. */
  lemma ScoreMonotone(t: Totals, u: Totals)
    requires NoWorse(t, u)
    ensures ScoreBucket(t) <= ScoreBucket(u)
  {
    RatioMonotone(t.success as real, u.success as real, t.total);
    RatioMonotone(t.qualityPass as real, u.qualityPass as real, t.total);
    ThriftAntitone(u.latencyMs as real, t.latencyMs as real, t.total, 30000.0);
    ThriftAntitone(u.tokens as real, t.tokens as real, t.total, 8000.0);
  }

  lemma WeighMonotone(w: Weights, success: real, success': real, quality: real, quality': real,
                      latency: real, latency': real, cost: real, cost': real)
    requires NonNegative(w) && success <= success' && quality <= quality' && latency <= latency' && cost <= cost'
    ensures Weigh(w, success, quality, latency, cost) <= Weigh(w, success', quality', latency', cost')
  {
    PartMonotone(w.success, success, success');
    PartMonotone(w.quality, quality, quality');
    PartMonotone(w.latency, latency, latency');
    PartMonotone(w.cost, cost, cost');
  }

  lemma WeightedMonotone(t: Totals, u: Totals, w: Weights, s: Scales)
    requires NoWorse(t, u) && s.latency > 0.0 && s.cost > 0.0 && NonNegative(w)
    ensures ScoreWeighted(t, w, s) <= ScoreWeighted(u, w, s)
  {
    RatioMonotone(t.success as real, u.success as real, t.total);
    RatioMonotone(t.qualityPass as real, u.qualityPass as real, t.total);
    ThriftAntitone(u.latencyMs as real, t.latencyMs as real, t.total, s.latency);
    ThriftAntitone(CostOf(u), CostOf(t), t.total, s.cost);
    WeighMonotone(
      w, Ratio(t.success as real, t.total), Ratio(u.success as real, t.total),
      Ratio(t.qualityPass as real, t.total), Ratio(u.qualityPass as real, t.total),
      Thrift(t.latencyMs as real, t.total, s.latency), Thrift(u.latencyMs as real, t.total, s.latency),
      Thrift(CostOf(t), t.total, s.cost), Thrift(CostOf(u), t.total, s.cost));
  }

  /** A better bucket never scores lower. */
  ghost predicate AlwaysMonotone(w: Weights, s: Scales)
    requires s.latency > 0.0 && s.cost > 0.0
  {
    forall t, u :: Balanced(t) && Balanced(u) && NoWorse(t, u) ==> ScoreWeighted(t, w, s) <= ScoreWeighted(u, w, s)
  }

  /** That holds iff no weight is negative. */
  lemma MonotoneIff(w: Weights, s: Scales)
    requires s.latency > 0.0 && s.cost > 0.0
    ensures AlwaysMonotone(w, s) <==> NonNegative(w)
  {
    if NonNegative(w) {
      forall t, u | Balanced(t) && Balanced(u) && NoWorse(t, u)
        ensures ScoreWeighted(t, w, s) <= ScoreWeighted(u, w, s)
      {
        WeightedMonotone(t, u, w, s);
      }
    }
    if AlwaysMonotone(w, s) {
      MonotoneProbes(w, s);
    }
  }

  lemma MonotoneProbes(w: Weights, s: Scales)
    requires s.latency > 0.0 && s.cost > 0.0 && AlwaysMonotone(w, s)
    ensures NonNegative(w)
  {
    ProbeImproves(true, false, false, false, w, s);
    ProbeImproves(false, true, false, false, w, s);
    ProbeImproves(false, false, true, false, w, s);
    ProbeImproves(false, false, false, true, w, s);
  }

  lemma ProbeImproves(success: bool, pass: bool, fast: bool, cheap: bool, w: Weights, s: Scales)
    requires s.latency > 0.0 && s.cost > 0.0 && AlwaysMonotone(w, s)
    ensures Chosen(success, pass, fast, cheap, w) >= 0.0
  {
    ProbeScore(false, false, false, false, w, s);
    ProbeScore(success, pass, fast, cheap, w, s);
    assert NoWorse(Probe(false, false, false, false, s), Probe(success, pass, fast, cheap, s));
  }

  /** Hence every bucket of every reachable model or profile scores within 0 and 100. */
  lemma ReachableScores(level: Level, cs: seq<Call>, policy: Retention.Policy, m: map<string, Entry>, key: string, b: Bucket)
    requires m == RunLevel(level, cs, policy) && key in m
    requires b == m[key].overall || b in m[key].taskKinds.Values
    ensures 0.0 <= ScoreBucket(b.totals) <= 100.0
  {
    RunConserves(level, cs, policy);
    assert Conserved(m[key]);
    ScoreInRange(b.totals);
  }

  lemma CellBalanced(e: OllamaLedger.ModelEntry, b: Bucket)
    requires OllamaLedger.ConservedModel(e)
    requires exists p :: p in e.parameters && b in e.parameters[p].Values
    ensures Balanced(b.totals)
  {
    var p :| p in e.parameters && b in e.parameters[p].Values;
    var role :| role in e.parameters[p] && e.parameters[p][role] == b;
    var cells := OllamaLedger.Cells(e.parameters);
    assert (p, role) in cells && cells[(p, role)] == b;
  }

  /** So does every overall, role and parameter bucket of every reachable Ollama model, with weights
      that are not negative and sum to at most one. */
  lemma ReachableOllamaScores(qs: seq<OllamaLedger.Request>, policy: Retention.Policy, key: string, b: Bucket, w: Weights)
    requires NonNegative(w) && AtMostOne(w) && key in OllamaLedger.RunRequests(qs, policy)
    requires var e := OllamaLedger.RunRequests(qs, policy)[key];
      b == e.overall || b in e.roles.Values || exists p :: p in e.parameters && b in e.parameters[p].Values
    ensures 0.0 <= ScoreWeighted(b.totals, w, OLLAMA_SCALES) <= 100.0
  {
    var e := OllamaLedger.RunRequests(qs, policy)[key];
    OllamaLedger.RequestsConserve(qs, policy);
    assert OllamaLedger.ConservedModel(e);
    if exists p :: p in e.parameters && b in e.parameters[p].Values {
      CellBalanced(e, b);
    }
    WeightedInRange(b.totals, w, OLLAMA_SCALES);
  }
}
