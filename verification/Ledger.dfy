/** Benchmark counters kept at several levels at once (agent/llm_benchmarks.py, agent/ollama_benchmark.py). */
module Ledger {
  import opened MapSum
  import opened Retention

  datatype Totals = Totals(
    total: nat, success: nat, failed: nat, qualityPass: nat, qualityFail: nat,
    latencyMs: nat, tokens: nat, cost: real)

  const ZERO := Totals(0, 0, 0, 0, 0, 0, 0, 0.0)

  function Plus(a: Totals, b: Totals): Totals {
    Totals(a.total + b.total, a.success + b.success, a.failed + b.failed,
           a.qualityPass + b.qualityPass, a.qualityFail + b.qualityFail,
           a.latencyMs + b.latencyMs, a.tokens + b.tokens, a.cost + b.cost)
  }

  /** What a caller reports about one finished request. */
  datatype Report = Report(success: bool, qualityPassed: bool, latencyMs: int, tokens: int, cost: real)

  function NonNeg(n: int): nat { if n < 0 then 0 else n }

  /** The contribution of one report to every counter. */
  function One(r: Report): Totals {
    Totals(1, if r.success then 1 else 0, if r.success then 0 else 1,
           if r.qualityPassed then 1 else 0, if r.qualityPassed then 0 else 1,
           NonNeg(r.latencyMs), NonNeg(r.tokens), r.cost)
  }

  function SampleOf(r: Report, now: int): Sample {
    Sample(now, r.success, r.qualityPassed, NonNeg(r.latencyMs), NonNeg(r.tokens), if r.cost < 0.0 then 0.0 else r.cost)
  }

  /** A metric bucket: cumulative counters and a retained window of samples. */
  datatype Bucket = Bucket(totals: Totals, samples: seq<Sample>)

  const EMPTY := Bucket(ZERO, [])

  function BucketAt<K>(m: map<K, Bucket>, k: K): Bucket {
    if k in m then m[k] else EMPTY
  }

  /** `_apply`. */
  method Apply(b: Bucket, r: Report, now: int, policy: Policy) returns (b': Bucket)
    ensures b' == Applied(b, r, now, policy)
  {
    var t := b.totals;
    t := t.(total := t.total + 1);
    t := t.(success := t.success + if r.success then 1 else 0);
    t := t.(failed := t.failed + if r.success then 0 else 1);
    t := t.(qualityPass := t.qualityPass + if r.qualityPassed then 1 else 0);
    t := t.(qualityFail := t.qualityFail + if r.qualityPassed then 0 else 1);
    t := t.(latencyMs := t.latencyMs + NonNeg(r.latencyMs));
    t := t.(tokens := t.tokens + NonNeg(r.tokens));
    t := t.(cost := t.cost + r.cost);
    var samples := AppendSample(b.samples, SampleOf(r, now), policy);
    b' := Bucket(t, samples);
  }

  function Applied(b: Bucket, r: Report, now: int, policy: Policy): Bucket {
    Bucket(Plus(b.totals, One(r)), Append(b.samples, SampleOf(r, now), policy))
  }

  // ---- bucket balance ----------------------------------------------------------------------

  /** Every request is counted once as success or failure and once as pass or fail. */
  predicate Balanced(t: Totals) {
    t.total == t.success + t.failed == t.qualityPass + t.qualityFail
  }

  /** The counters one by one. */
  datatype Counter = Total | Success | Failed | QualityPass | QualityFail | LatencyMs | Tokens | Cost

  function Value(t: Totals, c: Counter): real {
    match c
    case Total => t.total as real
    case Success => t.success as real
    case Failed => t.failed as real
    case QualityPass => t.qualityPass as real
    case QualityFail => t.qualityFail as real
    case LatencyMs => t.latencyMs as real
    case Tokens => t.tokens as real
    case Cost => t.cost
  }

  lemma ValueOfPlus(a: Totals, b: Totals, c: Counter)
    ensures Value(Plus(a, b), c) == Value(a, c) + Value(b, c)
  {
  }

  /** One counter of every bucket of a dictionary. */
  function Values<K>(m: map<K, Bucket>, c: Counter): map<K, real> {
    map k | k in m :: Value(m[k].totals, c)
  }

  /** In every counter, the buckets of the dictionary add up to the given bucket. */
  ghost predicate AddsUp<K(!new)>(parts: map<K, Bucket>, whole: Bucket) {
    forall c :: SumsTo(Values(parts, c), Value(whole.totals, c))
  }

  ghost predicate AllBalanced<K>(parts: map<K, Bucket>) {
    forall k :: k in parts ==> Balanced(parts[k].totals)
  }

  lemma EmptyAddsUp<K(!new)>(parts: map<K, Bucket>)
    requires parts == map[]
    ensures AddsUp(parts, EMPTY)
  {
    forall c
      ensures SumsTo(Values(parts, c), Value(EMPTY.totals, c))
    {
      SumEmpty(Values(parts, c));
    }
  }

  lemma ValuesUpdate<K>(parts: map<K, Bucket>, k: K, b: Bucket, c: Counter)
    ensures Values(parts[k := b], c) == Values(parts, c)[k := Value(b.totals, c)]
  {
  }

  lemma ZeroValue(c: Counter)
    ensures Value(ZERO, c) == 0.0
  {
  }

  lemma ValueAdds<K(!new)>(parts: map<K, Bucket>, whole: Bucket, k: K, b: Bucket, b': Bucket, whole': Bucket, r: Report, c: Counter)
    requires SumsTo(Values(parts, c), Value(whole.totals, c))
    requires b == BucketAt(parts, k)
    requires b'.totals == Plus(b.totals, One(r)) && whole'.totals == Plus(whole.totals, One(r))
    ensures SumsTo(Values(parts[k := b'], c), Value(whole'.totals, c))
  {
    ValueOfPlus(b.totals, One(r), c);
    ValueOfPlus(whole.totals, One(r), c);
    ValuesUpdate(parts, k, b', c);
    ZeroValue(c);
    SumAdd(Values(parts, c), k, Value(One(r), c), Value(whole.totals, c));
  }

  /** Applying a report to one part and to the whole keeps the sum and the balance. */
  lemma PartAndWhole<K(!new)>(parts: map<K, Bucket>, whole: Bucket, k: K, r: Report, now: int, policy: Policy)
    requires AddsUp(parts, whole) && AllBalanced(parts)
    ensures var parts' := parts[k := Applied(BucketAt(parts, k), r, now, policy)];
            AddsUp(parts', Applied(whole, r, now, policy)) && AllBalanced(parts')
  {
    var b := BucketAt(parts, k);
    var b', whole' := Applied(b, r, now, policy), Applied(whole, r, now, policy);
    forall c
      ensures SumsTo(Values(parts[k := b'], c), Value(whole'.totals, c))
    {
      ValueAdds(parts, whole, k, b, b', whole', r, c);
    }
  }

  // ---- llm_benchmarks: overall and task kinds, per model and per profile --------------------

  datatype Entry = Entry(overall: Bucket, taskKinds: map<string, Bucket>)

  const NEW_ENTRY := Entry(EMPTY, map[])

  const TASK_KINDS := {"coding", "analysis", "doc", "ops", "research"}

  function KindOf(kind: string): string { if kind in TASK_KINDS then kind else "analysis" }

  function Recorded(e: Entry, kind: string, r: Report, now: int, policy: Policy): Entry {
    Entry(Applied(e.overall, r, now, policy),
          e.taskKinds[kind := Applied(BucketAt(e.taskKinds, kind), r, now, policy)])
  }

  ghost predicate Conserved(e: Entry) {
    Balanced(e.overall.totals) && AllBalanced(e.taskKinds) && AddsUp(e.taskKinds, e.overall)
  }

  /** Recording keeps the overall bucket equal to the sum over task kinds, in every counter. */
  lemma RecordingConserves(e: Entry, kind: string, r: Report, now: int, policy: Policy)
    requires Conserved(e)
    ensures Conserved(Recorded(e, kind, r, now, policy))
  {
    PartAndWhole(e.taskKinds, e.overall, kind, r, now, policy);
  }

  /** One call of `record_benchmark_sample`, names already normalised. */
  datatype Call = Call(provider: string, model: string, kind: string, profile: string, report: Report, now: int)

  predicate IsRecorded(c: Call) { c.provider != "" && c.model != "" }

  function ModelKey(c: Call): string { c.provider + ":" + c.model }

  /** The benchmark database. */
  class BenchmarkDb {
    var models: map<string, Entry>
    var profiles: map<string, Entry>

    constructor ()
      ensures models == map[] && profiles == map[] && Valid()
    {
      models, profiles := map[], map[];
    }

    ghost predicate Valid()
      reads this
    {
      AllConserved(models) && AllConserved(profiles)
    }

    method RecordSample(c: Call, policy: Policy) returns (recorded: bool)
      requires Valid()
      modifies this
      ensures Valid()
      ensures recorded == IsRecorded(c)
      ensures models == WithCall(Models, old(models), c, policy)
      ensures profiles == WithCall(Profiles, old(profiles), c, policy)
    {
      if c.provider == "" || c.model == "" {
        return false;
      }
      WithSampleConserves(models, ModelKey(c), c, policy);
      models := Record(models, ModelKey(c), c, policy);
      if c.profile != "" {
        WithSampleConserves(profiles, c.profile, c, policy);
        profiles := Record(profiles, c.profile, c, policy);
      }
      return true;
    }
  }

  function EntryAt(m: map<string, Entry>, k: string): Entry { if k in m then m[k] else NEW_ENTRY }

  function WithSample(m: map<string, Entry>, key: string, c: Call, policy: Policy): map<string, Entry> {
    m[key := Recorded(EntryAt(m, key), KindOf(c.kind), c.report, c.now, policy)]
  }

  /** The dictionary that a call is recorded in: by model, and by prompt profile if it names one. */
  datatype Level = Models | Profiles

  function KeyAt(level: Level, c: Call): string { if level.Models? then ModelKey(c) else c.profile }

  predicate RecordedAt(level: Level, c: Call) { IsRecorded(c) && (level.Profiles? ==> c.profile != "") }

  function WithCall(level: Level, m: map<string, Entry>, c: Call, policy: Policy): map<string, Entry> {
    if RecordedAt(level, c) then WithSample(m, KeyAt(level, c), c, policy) else m
  }

  ghost predicate AllConserved(m: map<string, Entry>) {
    forall k :: k in m ==> Conserved(m[k])
  }

  lemma AllConservedUpdate(m: map<string, Entry>, key: string, e: Entry)
    requires AllConserved(m) && Conserved(e)
    ensures AllConserved(m[key := e])
  {
  }

  lemma RecordedConserves(m: map<string, Entry>, key: string, kind: string, r: Report, now: int, policy: Policy)
    requires AllConserved(m)
    ensures AllConserved(m[key := Recorded(EntryAt(m, key), kind, r, now, policy)])
  {
    if key in m {
      RecordingConserves(m[key], kind, r, now, policy);
      AllConservedUpdate(m, key, Recorded(m[key], kind, r, now, policy));
    } else {
      EmptyAddsUp(NEW_ENTRY.taskKinds);
      RecordingConserves(NEW_ENTRY, kind, r, now, policy);
      AllConservedUpdate(m, key, Recorded(NEW_ENTRY, kind, r, now, policy));
    }
  }

  lemma WithSampleConserves(m: map<string, Entry>, key: string, c: Call, policy: Policy)
    requires AllConserved(m)
    ensures AllConserved(WithSample(m, key, c, policy))
  {
    RecordedConserves(m, key, KindOf(c.kind), c.report, c.now, policy);
  }

  /** `setdefault`, then apply to the task-kind bucket and to the overall bucket. */
  method Record(m: map<string, Entry>, key: string, c: Call, policy: Policy) returns (m': map<string, Entry>)
    ensures m' == WithSample(m, key, c, policy)
  {
    var e := EntryAt(m, key);
    var kind := KindOf(c.kind);
    var bucket := Apply(BucketAt(e.taskKinds, kind), c.report, c.now, policy);
    var overall := Apply(e.overall, c.report, c.now, policy);
    m' := m[key := Entry(overall, e.taskKinds[kind := bucket])];
  }

  // ---- whole histories ---------------------------------------------------------------------

  /** The dictionary after any history of calls. */
  function RunLevel(level: Level, cs: seq<Call>, policy: Policy): map<string, Entry> {
    if cs == [] then map[] else WithCall(level, RunLevel(level, cs[..|cs| - 1], policy), cs[|cs| - 1], policy)
  }

  /** The calls recorded under a key, and of those the ones of one task kind. */
  function CallsOf(level: Level, cs: seq<Call>, key: string): seq<Call> {
    if cs == [] then []
    else
      var c := cs[|cs| - 1];
      CallsOf(level, cs[..|cs| - 1], key) + if RecordedAt(level, c) && KeyAt(level, c) == key then [c] else []
  }

  function OfKind(cs: seq<Call>, kind: string): seq<Call> {
    if cs == [] then []
    else
      var c := cs[|cs| - 1];
      OfKind(cs[..|cs| - 1], kind) + if KindOf(c.kind) == kind then [c] else []
  }

  function Aggregate(cs: seq<Call>): Totals {
    if cs == [] then ZERO else Plus(Aggregate(cs[..|cs| - 1]), One(cs[|cs| - 1].report))
  }

  function SamplesOf(cs: seq<Call>): seq<Sample> {
    seq(|cs|, i requires 0 <= i < |cs| => SampleOf(cs[i].report, cs[i].now))
  }

  /** What a bucket holds after the given calls: their aggregate and their retained window. */
  function Reference(cs: seq<Call>, policy: Policy): Bucket {
    Bucket(Aggregate(cs), Stored(SamplesOf(cs), policy))
  }

  lemma ReferenceSnoc(cs: seq<Call>, c: Call, policy: Policy)
    ensures Reference(cs + [c], policy) == Applied(Reference(cs, policy), c.report, c.now, policy)
  {
    assert (cs + [c])[..|cs|] == cs;
    assert SamplesOf(cs + [c])[..|cs|] == SamplesOf(cs);
  }

  /** Every model and profile of every reachable database is conserved. */
  lemma {:induction false} RunConserves(level: Level, cs: seq<Call>, policy: Policy)
    ensures AllConserved(RunLevel(level, cs, policy))
  {
    if cs != [] {
      var n := |cs| - 1;
      RunConserves(level, cs[..n], policy);
      WithSampleConserves(RunLevel(level, cs[..n], policy), KeyAt(level, cs[n]), cs[n], policy);
    }
  }

  lemma CallsSnoc(level: Level, cs: seq<Call>, key: string, kind: string)
    requires cs != []
    ensures var n := |cs| - 1;
            var mine, c := CallsOf(level, cs[..n], key), cs[n];
            var hit := RecordedAt(level, c) && KeyAt(level, c) == key;
            && CallsOf(level, cs, key) == (if hit then mine + [c] else mine)
            && OfKind(CallsOf(level, cs, key), kind) ==
               (if hit && KindOf(c.kind) == kind then OfKind(mine, kind) + [c] else OfKind(mine, kind))
  {
  }

  lemma {:induction false} OverallIsHistory(level: Level, cs: seq<Call>, policy: Policy, key: string)
    ensures EntryAt(RunLevel(level, cs, policy), key).overall == Reference(CallsOf(level, cs, key), policy)
  {
    if cs == [] {
      assert SamplesOf([]) == [];
    } else {
      var n := |cs| - 1;
      OverallIsHistory(level, cs[..n], policy, key);
      CallsSnoc(level, cs, key, "");
      ReferenceSnoc(CallsOf(level, cs[..n], key), cs[n], policy);
    }
  }

  lemma {:induction false} KindIsHistory(level: Level, cs: seq<Call>, policy: Policy, key: string, kind: string)
    ensures BucketAt(EntryAt(RunLevel(level, cs, policy), key).taskKinds, kind) ==
            Reference(OfKind(CallsOf(level, cs, key), kind), policy)
  {
    if cs == [] {
      assert SamplesOf([]) == [];
    } else {
      var n := |cs| - 1;
      KindIsHistory(level, cs[..n], policy, key, kind);
      CallsSnoc(level, cs, key, kind);
      ReferenceSnoc(OfKind(CallsOf(level, cs[..n], key), kind), cs[n], policy);
    }
  }

  /** After every history each bucket is the aggregate and the retained window of exactly its own
      calls. */
  lemma BucketsAreHistory(level: Level, cs: seq<Call>, policy: Policy, key: string, kind: string)
    ensures var e := EntryAt(RunLevel(level, cs, policy), key);
            && e.overall == Reference(CallsOf(level, cs, key), policy)
            && BucketAt(e.taskKinds, kind) == Reference(OfKind(CallsOf(level, cs, key), kind), policy)
  {
    OverallIsHistory(level, cs, policy, key);
    KindIsHistory(level, cs, policy, key, kind);
  }

  // ---- what the counters count -------------------------------------------------------------

  function LatencySum(rs: seq<Report>): nat {
    if rs == [] then 0
    else LatencySum(rs[..|rs| - 1]) + if rs[|rs| - 1].latencyMs > 0 then rs[|rs| - 1].latencyMs else 0
  }

  function TokenSum(rs: seq<Report>): nat {
    if rs == [] then 0 else TokenSum(rs[..|rs| - 1]) + if rs[|rs| - 1].tokens > 0 then rs[|rs| - 1].tokens else 0
  }

  function CostSum(rs: seq<Report>): real {
    if rs == [] then 0.0 else CostSum(rs[..|rs| - 1]) + rs[|rs| - 1].cost
  }

  // The positions of the reports that succeeded, failed, passed the quality gate, and did not.

  function Succeeded(rs: seq<Report>): set<int> { set i | 0 <= i < |rs| && rs[i].success }

  function Failed(rs: seq<Report>): set<int> { set i | 0 <= i < |rs| && !rs[i].success }

  function Passed(rs: seq<Report>): set<int> { set i | 0 <= i < |rs| && rs[i].qualityPassed }

  function NotPassed(rs: seq<Report>): set<int> { set i | 0 <= i < |rs| && !rs[i].qualityPassed }

  /** The counters are those of exactly these reports: how many there are, how many succeeded, failed,
      passed and did not pass, and the sums of their positive latencies, positive tokens and costs. */
  ghost predicate Counts(t: Totals, rs: seq<Report>) {
    && t.total == |rs| && t.success == |Succeeded(rs)| && t.failed == |Failed(rs)|
    && t.qualityPass == |Passed(rs)| && t.qualityFail == |NotPassed(rs)|
    && t.latencyMs == LatencySum(rs) && t.tokens == TokenSum(rs) && t.cost == CostSum(rs)
  }

  lemma OneMore(before: set<int>, n: int, hit: bool)
    requires n !in before
    ensures |before + if hit then {n} else {}| == |before| + if hit then 1 else 0
  {
    assert before + {} == before;
  }

  lemma SucceededSnoc(rs: seq<Report>, r: Report)
    ensures |Succeeded(rs + [r])| == |Succeeded(rs)| + if r.success then 1 else 0
  {
    var all := rs + [r];
    assert all[|rs|] == r && forall i :: 0 <= i < |rs| ==> all[i] == rs[i];
    assert Succeeded(all) == Succeeded(rs) + if r.success then {|rs|} else {};
    OneMore(Succeeded(rs), |rs|, r.success);
  }

  lemma FailedSnoc(rs: seq<Report>, r: Report)
    ensures |Failed(rs + [r])| == |Failed(rs)| + if !r.success then 1 else 0
  {
    var all := rs + [r];
    assert all[|rs|] == r && forall i :: 0 <= i < |rs| ==> all[i] == rs[i];
    assert Failed(all) == Failed(rs) + if !r.success then {|rs|} else {};
    OneMore(Failed(rs), |rs|, !r.success);
  }

  lemma PassedSnoc(rs: seq<Report>, r: Report)
    ensures |Passed(rs + [r])| == |Passed(rs)| + if r.qualityPassed then 1 else 0
  {
    var all := rs + [r];
    assert all[|rs|] == r && forall i :: 0 <= i < |rs| ==> all[i] == rs[i];
    assert Passed(all) == Passed(rs) + if r.qualityPassed then {|rs|} else {};
    OneMore(Passed(rs), |rs|, r.qualityPassed);
  }

  lemma NotPassedSnoc(rs: seq<Report>, r: Report)
    ensures |NotPassed(rs + [r])| == |NotPassed(rs)| + if !r.qualityPassed then 1 else 0
  {
    var all := rs + [r];
    assert all[|rs|] == r && forall i :: 0 <= i < |rs| ==> all[i] == rs[i];
    assert NotPassed(all) == NotPassed(rs) + if !r.qualityPassed then {|rs|} else {};
    OneMore(NotPassed(rs), |rs|, !r.qualityPassed);
  }

  lemma CountsSnoc(t: Totals, rs: seq<Report>, r: Report)
    requires Counts(t, rs)
    ensures Counts(Plus(t, One(r)), rs + [r])
  {
    assert (rs + [r])[..|rs|] == rs;
    SucceededSnoc(rs, r);
    FailedSnoc(rs, r);
    PassedSnoc(rs, r);
    NotPassedSnoc(rs, r);
  }

  /** The reports of the calls recorded for a model or a profile, of all task kinds or of one. */
  datatype Scope = Scope(level: Level, key: string, kinds: Kinds)

  datatype Kinds = AnyKind | OneKind(kind: string)

  predicate InScope(scope: Scope, c: Call) {
    && c.provider != "" && c.model != ""
    && (if scope.level.Models? then c.provider + ":" + c.model == scope.key else c.profile == scope.key != "")
    && (match scope.kinds
        case AnyKind => true
        case OneKind(kind) =>
          || (c.kind == kind && kind in {"coding", "analysis", "doc", "ops", "research"})
          || (c.kind !in {"coding", "analysis", "doc", "ops", "research"} && kind == "analysis"))
  }

  function ReportsIn(scope: Scope, cs: seq<Call>): seq<Report> {
    if cs == [] then []
    else ReportsIn(scope, cs[..|cs| - 1]) + if InScope(scope, cs[|cs| - 1]) then [cs[|cs| - 1].report] else []
  }

  function ReportsOf(cs: seq<Call>): seq<Report> {
    seq(|cs|, i requires 0 <= i < |cs| => cs[i].report)
  }

  lemma {:induction false} AggregateCounts(cs: seq<Call>)
    ensures Counts(Aggregate(cs), ReportsOf(cs))
  {
    if cs != [] {
      var n := |cs| - 1;
      AggregateCounts(cs[..n]);
      assert ReportsOf(cs) == ReportsOf(cs[..n]) + [cs[n].report];
      CountsSnoc(Aggregate(cs[..n]), ReportsOf(cs[..n]), cs[n].report);
    }
  }

  lemma ReportsSnoc(cs: seq<Call>, c: Call)
    ensures ReportsOf(cs + [c]) == ReportsOf(cs) + [c.report]
  {
  }

  lemma ScopeStep(level: Level, key: string, kind: string, c: Call)
    ensures InScope(Scope(level, key, AnyKind), c) <==> RecordedAt(level, c) && KeyAt(level, c) == key
    ensures InScope(Scope(level, key, OneKind(kind)), c) <==>
            RecordedAt(level, c) && KeyAt(level, c) == key && KindOf(c.kind) == kind
  {
  }

  lemma {:induction false} ScopeIsCalls(level: Level, cs: seq<Call>, key: string, kind: string)
    ensures ReportsIn(Scope(level, key, AnyKind), cs) == ReportsOf(CallsOf(level, cs, key))
    ensures ReportsIn(Scope(level, key, OneKind(kind)), cs) == ReportsOf(OfKind(CallsOf(level, cs, key), kind))
  {
    if cs != [] {
      var n := |cs| - 1;
      ScopeIsCalls(level, cs[..n], key, kind);
      ScopeStep(level, key, kind, cs[n]);
      CallsSnoc(level, cs, key, kind);
      ReportsSnoc(CallsOf(level, cs[..n], key), cs[n]);
      ReportsSnoc(OfKind(CallsOf(level, cs[..n], key), kind), cs[n]);
    }
  }

  /** After every history the counters of each bucket are those of exactly the calls of its model or
      profile and task kind. */
  lemma BucketsCount(level: Level, cs: seq<Call>, policy: Policy, key: string, kind: string)
    ensures var e := EntryAt(RunLevel(level, cs, policy), key);
      && Counts(e.overall.totals, ReportsIn(Scope(level, key, AnyKind), cs))
      && Counts(BucketAt(e.taskKinds, kind).totals, ReportsIn(Scope(level, key, OneKind(kind)), cs))
  {
    var mine := CallsOf(level, cs, key);
    BucketsAreHistory(level, cs, policy, key, kind);
    ScopeIsCalls(level, cs, key, kind);
    AggregateCounts(mine);
    AggregateCounts(OfKind(mine, kind));
  }

  /** The sample says what the report said, at the time of the call; negative numbers become zero. */
  predicate Samples(s: Sample, r: Report, now: int) {
    && s.ts == now && s.success == r.success && s.qualityPassed == r.qualityPassed
    && s.latencyMs == (if r.latencyMs > 0 then r.latencyMs else 0)
    && s.tokens == (if r.tokens > 0 then r.tokens else 0)
    && s.cost == (if r.cost > 0.0 then r.cost else 0.0)
  }

  lemma ReferenceSamples(cs: seq<Call>, policy: Policy, s: Sample) returns (i: nat)
    requires s in Reference(cs, policy).samples
    ensures i < |cs| && Samples(s, cs[i].report, cs[i].now)
  {
    StoredSubset(SamplesOf(cs), policy);
    i :| 0 <= i < |cs| && SamplesOf(cs)[i] == s;
  }

  lemma {:induction false} CallsInScope(level: Level, cs: seq<Call>, key: string, c: Call)
    requires c in CallsOf(level, cs, key)
    ensures c in cs && InScope(Scope(level, key, AnyKind), c)
  {
    var n := |cs| - 1;
    assert cs == cs[..n] + [cs[n]];
    if c in CallsOf(level, cs[..n], key) {
      CallsInScope(level, cs[..n], key, c);
    } else {
      ScopeStep(level, key, "", c);
    }
  }

  lemma {:induction false} OfKindInScope(level: Level, mine: seq<Call>, key: string, kind: string, c: Call)
    requires c in OfKind(mine, kind)
    ensures c in mine && (InScope(Scope(level, key, AnyKind), c) ==> InScope(Scope(level, key, OneKind(kind)), c))
  {
    var n := |mine| - 1;
    assert mine == mine[..n] + [mine[n]];
    if c in OfKind(mine[..n], kind) {
      OfKindInScope(level, mine[..n], key, kind, c);
    } else {
      ScopeStep(level, key, kind, c);
    }
  }

  /** Every stored sample says what one of the bucket's own calls reported. */
  lemma BucketsSample(level: Level, cs: seq<Call>, policy: Policy, key: string, kind: string, s: Sample)
    ensures var e := EntryAt(RunLevel(level, cs, policy), key);
      && (s in e.overall.samples ==>
            exists c :: c in cs && InScope(Scope(level, key, AnyKind), c) && Samples(s, c.report, c.now))
      && (s in BucketAt(e.taskKinds, kind).samples ==>
            exists c :: c in cs && InScope(Scope(level, key, OneKind(kind)), c) && Samples(s, c.report, c.now))
  {
    var mine := CallsOf(level, cs, key);
    BucketsAreHistory(level, cs, policy, key, kind);
    if s in Reference(mine, policy).samples {
      var i := ReferenceSamples(mine, policy, s);
      CallsInScope(level, cs, key, mine[i]);
    }
    if s in Reference(OfKind(mine, kind), policy).samples {
      var i := ReferenceSamples(OfKind(mine, kind), policy, s);
      var c := OfKind(mine, kind)[i];
      OfKindInScope(level, mine, key, kind, c);
      CallsInScope(level, cs, key, c);
    }
  }

  ghost predicate ClockedCalls(cs: seq<Call>) {
    forall i, j :: 0 <= i < j < |cs| ==> cs[i].now <= cs[j].now
  }

  lemma {:induction false} CallsOfClocked(level: Level, cs: seq<Call>, key: string)
    requires ClockedCalls(cs)
    ensures ClockedCalls(CallsOf(level, cs, key))
    ensures cs != [] ==> forall i :: 0 <= i < |CallsOf(level, cs, key)| ==> CallsOf(level, cs, key)[i].now <= cs[|cs| - 1].now
  {
    if cs != [] {
      CallsOfClocked(level, cs[..|cs| - 1], key);
    }
  }

  lemma {:induction false} OfKindClocked(cs: seq<Call>, kind: string)
    requires ClockedCalls(cs)
    ensures ClockedCalls(OfKind(cs, kind))
    ensures cs != [] ==> forall i :: 0 <= i < |OfKind(cs, kind)| ==> OfKind(cs, kind)[i].now <= cs[|cs| - 1].now
  {
    if cs != [] {
      var n := |cs| - 1;
      OfKindClocked(cs[..n], kind);
      assert OfKind(cs, kind) == OfKind(cs[..n], kind) + if KindOf(cs[n].kind) == kind then [cs[n]] else [];
      assert n > 0 ==> cs[n - 1].now <= cs[n].now;
    }
  }

  /** The bucket keeps the last `maxSamples` of the given calls within `maxDays` of the latest one. */
  ghost predicate KeepsWindow(b: Bucket, cs: seq<Call>, policy: Policy) {
    cs != [] ==>
      b.samples == LastN(Since(SamplesOf(cs), Cutoff(cs[|cs| - 1].now, policy)), policy.maxSamples)
  }

  lemma ReferenceKeepsWindow(cs: seq<Call>, policy: Policy)
    requires ClockedCalls(cs) && policy.maxDays >= 0
    ensures KeepsWindow(Reference(cs, policy), cs, policy)
  {
    if cs != [] {
      var all := SamplesOf(cs);
      assert forall i :: 0 <= i < |cs| ==> all[i].ts == cs[i].now;
      StoredIsWindow(all, policy);
    }
  }

  /** With a nondecreasing clock and fixed retention, every bucket of a reachable model or profile keeps
      the window of all the calls it ever recorded. */
  lemma EntryKeepsWindow(level: Level, cs: seq<Call>, policy: Policy, key: string, kind: string)
    requires ClockedCalls(cs) && policy.maxDays >= 0
    ensures var e, mine := EntryAt(RunLevel(level, cs, policy), key), CallsOf(level, cs, key);
      KeepsWindow(e.overall, mine, policy) && KeepsWindow(BucketAt(e.taskKinds, kind), OfKind(mine, kind), policy)
  {
    var mine := CallsOf(level, cs, key);
    BucketsAreHistory(level, cs, policy, key, kind);
    CallsOfClocked(level, cs, key);
    OfKindClocked(mine, kind);
    ReferenceKeepsWindow(mine, policy);
    ReferenceKeepsWindow(OfKind(mine, kind), policy);
  }
}
