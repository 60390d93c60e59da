/** The three-way Ollama ledger: overall, per role, and per parameter set and role (agent/ollama_benchmark.py). */
module OllamaLedger {
  import opened Retention
  import opened Ledger

  datatype ModelEntry = ModelEntry(
    overall: Bucket, roles: map<string, Bucket>, parameters: map<string, map<string, Bucket>>)

  const NEW_MODEL := ModelEntry(EMPTY, map[], map[])

  function RowAt(parameters: map<string, map<string, Bucket>>, p: string): map<string, Bucket> {
    if p in parameters then parameters[p] else map[]
  }

  function WithReport(e: ModelEntry, role: string, p: string, r: Report, now: int, policy: Policy): ModelEntry {
    var row := RowAt(e.parameters, p);
    ModelEntry(
      Applied(e.overall, r, now, policy),
      e.roles[role := Applied(BucketAt(e.roles, role), r, now, policy)],
      e.parameters[p := row[role := Applied(BucketAt(row, role), r, now, policy)]])
  }

  /** Every cell of the parameter table, and one role's column of it. */
  function Cells(parameters: map<string, map<string, Bucket>>): map<(string, string), Bucket> {
    map p, role | p in parameters && role in parameters[p] :: (p, role) := parameters[p][role]
  }

  function Column(parameters: map<string, map<string, Bucket>>, role: string): map<string, Bucket> {
    map p | p in parameters && role in parameters[p] :: parameters[p][role]
  }

  /** The overall bucket is the sum over roles and the sum over all cells, and every role's bucket is
      the sum of its column. */
  ghost predicate ConservedModel(e: ModelEntry) {
    && Balanced(e.overall.totals)
    && AllBalanced(e.roles) && AddsUp(e.roles, e.overall)
    && AllBalanced(Cells(e.parameters)) && AddsUp(Cells(e.parameters), e.overall)
    && forall role :: ColumnAddsUp(e, role)
  }

  ghost predicate ColumnAddsUp(e: ModelEntry, role: string) {
    AllBalanced(Column(e.parameters, role)) && AddsUp(Column(e.parameters, role), BucketAt(e.roles, role))
  }

  lemma CellUpdate(parameters: map<string, map<string, Bucket>>, p: string, role: string, b: Bucket)
    ensures Cells(parameters[p := RowAt(parameters, p)[role := b]]) == Cells(parameters)[(p, role) := b]
  {
    var after := parameters[p := RowAt(parameters, p)[role := b]];
    var left, right := Cells(after), Cells(parameters)[(p, role) := b];
    forall q, r
      ensures (q, r) in left <==> (q, r) in right
      ensures (q, r) in left ==> left[(q, r)] == right[(q, r)]
    {
      assert (q, r) in left <==> q in after && r in after[q];
      assert (q, r) in Cells(parameters) <==> q in parameters && r in parameters[q];
    }
    forall k
      ensures k in left <==> k in right
    {
      assert (k.0, k.1) == k;
    }
  }

  lemma ColumnUpdate(parameters: map<string, map<string, Bucket>>, p: string, role: string, b: Bucket, other: string)
    ensures Column(parameters[p := RowAt(parameters, p)[role := b]], other) ==
            if other == role then Column(parameters, other)[p := b] else Column(parameters, other)
  {
  }

  /** What the table held for a cell, seen from the cell list and from the column. */
  lemma CellBefore(parameters: map<string, map<string, Bucket>>, p: string, role: string)
    ensures BucketAt(RowAt(parameters, p), role) == BucketAt(Cells(parameters), (p, role))
    ensures BucketAt(RowAt(parameters, p), role) == BucketAt(Column(parameters, role), p)
  {
  }

  lemma ColumnKept(e: ModelEntry, role: string, p: string, r: Report, now: int, policy: Policy, other: string)
    requires ColumnAddsUp(e, other)
    ensures ColumnAddsUp(WithReport(e, role, p, r, now, policy), other)
  {
    CellBefore(e.parameters, p, role);
    ColumnUpdate(e.parameters, p, role, Applied(BucketAt(RowAt(e.parameters, p), role), r, now, policy), other);
    if other == role {
      PartAndWhole(Column(e.parameters, role), BucketAt(e.roles, role), p, r, now, policy);
    }
  }

  lemma CellsKept(e: ModelEntry, role: string, p: string, r: Report, now: int, policy: Policy)
    requires AllBalanced(Cells(e.parameters)) && AddsUp(Cells(e.parameters), e.overall)
    ensures var e' := WithReport(e, role, p, r, now, policy);
            AllBalanced(Cells(e'.parameters)) && AddsUp(Cells(e'.parameters), e'.overall)
  {
    CellBefore(e.parameters, p, role);
    CellUpdate(e.parameters, p, role, Applied(BucketAt(RowAt(e.parameters, p), role), r, now, policy));
    PartAndWhole(Cells(e.parameters), e.overall, (p, role), r, now, policy);
  }

  /** Recording keeps all three sums. */
  lemma ReportConserves(e: ModelEntry, role: string, p: string, r: Report, now: int, policy: Policy)
    requires ConservedModel(e)
    ensures ConservedModel(WithReport(e, role, p, r, now, policy))
  {
    PartAndWhole(e.roles, e.overall, role, r, now, policy);
    CellsKept(e, role, p, r, now, policy);
    forall other
      ensures ColumnAddsUp(WithReport(e, role, p, r, now, policy), other)
    {
      ColumnKept(e, role, p, r, now, policy, other);
    }
  }

  function ModelAt(models: map<string, ModelEntry>, k: string): ModelEntry {
    if k in models then models[k] else NEW_MODEL
  }

  ghost predicate AllModels(models: map<string, ModelEntry>) {
    forall k :: k in models ==> ConservedModel(models[k])
  }

  lemma AllModelsUpdate(models: map<string, ModelEntry>, k: string, e: ModelEntry)
    requires AllModels(models) && ConservedModel(e)
    ensures AllModels(models[k := e])
  {
  }

  lemma SampleConserves(models: map<string, ModelEntry>, k: string, role: string, p: string,
                        r: Report, now: int, policy: Policy)
    requires AllModels(models)
    ensures AllModels(models[k := WithReport(ModelAt(models, k), role, p, r, now, policy)])
  {
    if k in models {
      ReportConserves(models[k], role, p, r, now, policy);
      AllModelsUpdate(models, k, WithReport(models[k], role, p, r, now, policy));
    } else {
      EmptyAddsUp(NEW_MODEL.roles);
      EmptyAddsUp(Cells(NEW_MODEL.parameters));
      forall other
        ensures ColumnAddsUp(NEW_MODEL, other)
      {
        EmptyAddsUp(Column(NEW_MODEL.parameters, other));
      }
      ReportConserves(NEW_MODEL, role, p, r, now, policy);
      AllModelsUpdate(models, k, WithReport(NEW_MODEL, role, p, r, now, policy));
    }
  }

  /** One benchmark request. */
  datatype Request = Request(model: string, role: string, paramKey: string, report: Report, now: int)

  function WithRequest(models: map<string, ModelEntry>, q: Request, policy: Policy): map<string, ModelEntry> {
    if q.model == "" then models
    else models[q.model := WithReport(ModelAt(models, q.model), q.role, q.paramKey, q.report, q.now, policy)]
  }

  /** The models after any history of requests. */
  function RunRequests(qs: seq<Request>, policy: Policy): map<string, ModelEntry> {
    if qs == [] then map[] else WithRequest(RunRequests(qs[..|qs| - 1], policy), qs[|qs| - 1], policy)
  }

  /** Every model of every reachable database is conserved. */
  lemma {:induction false} RequestsConserve(qs: seq<Request>, policy: Policy)
    ensures AllModels(RunRequests(qs, policy))
  {
    if qs != [] {
      var n, q := |qs| - 1, qs[|qs| - 1];
      RequestsConserve(qs[..n], policy);
      SampleConserves(RunRequests(qs[..n], policy), q.model, q.role, q.paramKey, q.report, q.now, policy);
    }
  }

  // ---- whole histories ---------------------------------------------------------------------

  /** The three kinds of bucket a model has. */
  datatype Slot = Overall | Role(role: string) | Cell(paramKey: string, role: string)

  function BucketOf(e: ModelEntry, slot: Slot): Bucket {
    match slot
    case Overall => e.overall
    case Role(role) => BucketAt(e.roles, role)
    case Cell(p, role) => BucketAt(RowAt(e.parameters, p), role)
  }

  /** The requests that count in a slot of a model. */
  predicate CountsIn(q: Request, model: string, slot: Slot) {
    q.model == model != "" &&
    match slot
    case Overall => true
    case Role(role) => q.role == role
    case Cell(p, role) => q.paramKey == p && q.role == role
  }

  /** A request as one call of the shared ledger. */
  function AsCall(q: Request): Call { Call("ollama", q.model, q.role, q.paramKey, q.report, q.now) }

  function CallsIn(qs: seq<Request>, model: string, slot: Slot): seq<Call> {
    if qs == [] then []
    else
      var q := qs[|qs| - 1];
      CallsIn(qs[..|qs| - 1], model, slot) + if CountsIn(q, model, slot) then [AsCall(q)] else []
  }

  lemma SlotStep(models: map<string, ModelEntry>, q: Request, policy: Policy, model: string, slot: Slot)
    ensures BucketOf(ModelAt(WithRequest(models, q, policy), model), slot) ==
            var b := BucketOf(ModelAt(models, model), slot);
            if CountsIn(q, model, slot) then Applied(b, q.report, q.now, policy) else b
  {
  }

  /** After every history each bucket is the aggregate and the retained window of exactly the requests
      for its model, role and parameter key. */
  lemma {:induction false} SlotsAreHistory(qs: seq<Request>, policy: Policy, model: string, slot: Slot)
    ensures BucketOf(ModelAt(RunRequests(qs, policy), model), slot) == Reference(CallsIn(qs, model, slot), policy)
  {
    if qs == [] {
      assert SamplesOf([]) == [];
    } else {
      var n := |qs| - 1;
      SlotsAreHistory(qs[..n], policy, model, slot);
      SlotStep(RunRequests(qs[..n], policy), qs[n], policy, model, slot);
      var mine, q := CallsIn(qs[..n], model, slot), qs[n];
      assert CallsIn(qs, model, slot) == if CountsIn(q, model, slot) then mine + [AsCall(q)] else mine;
      ReferenceSnoc(mine, AsCall(q), policy);
    }
  }

  /** The reports of the requests for a model that fall into one of its slots. */
  function ReportsFor(qs: seq<Request>, model: string, slot: Slot): seq<Report> {
    if qs == [] then []
    else
      var q := qs[|qs| - 1];
      var mine := q.model == model != "" &&
        match slot
        case Overall => true
        case Role(role) => q.role == role
        case Cell(p, role) => q.paramKey == p && q.role == role;
      ReportsFor(qs[..|qs| - 1], model, slot) + if mine then [q.report] else []
  }

  lemma {:induction false} ReportsAreCalls(qs: seq<Request>, model: string, slot: Slot)
    ensures ReportsFor(qs, model, slot) == ReportsOf(CallsIn(qs, model, slot))
  {
    if qs != [] {
      var n := |qs| - 1;
      ReportsAreCalls(qs[..n], model, slot);
      ReportsSnoc(CallsIn(qs[..n], model, slot), AsCall(qs[n]));
    }
  }

  /** After every history the counters of each bucket are those of exactly the requests for its model,
      role and parameter key. */
  lemma SlotsCount(qs: seq<Request>, policy: Policy, model: string, slot: Slot)
    ensures Counts(BucketOf(ModelAt(RunRequests(qs, policy), model), slot).totals, ReportsFor(qs, model, slot))
  {
    SlotsAreHistory(qs, policy, model, slot);
    ReportsAreCalls(qs, model, slot);
    AggregateCounts(CallsIn(qs, model, slot));
  }

  lemma {:induction false} CallsFromRequests(qs: seq<Request>, model: string, slot: Slot, c: Call)
    requires c in CallsIn(qs, model, slot)
    ensures exists q :: q in qs && CountsIn(q, model, slot) && q.report == c.report && q.now == c.now
  {
    var n := |qs| - 1;
    if c in CallsIn(qs[..n], model, slot) {
      CallsFromRequests(qs[..n], model, slot, c);
    } else {
      assert qs[n] in qs && AsCall(qs[n]) == c;
    }
  }

  /** Every stored sample says what one of the bucket's own requests reported. */
  lemma SlotsSample(qs: seq<Request>, policy: Policy, model: string, slot: Slot, s: Sample)
    requires s in BucketOf(ModelAt(RunRequests(qs, policy), model), slot).samples
    ensures exists q :: q in qs && CountsIn(q, model, slot) && Samples(s, q.report, q.now)
  {
    SlotsAreHistory(qs, policy, model, slot);
    var mine := CallsIn(qs, model, slot);
    var i := ReferenceSamples(mine, policy, s);
    assert mine[i] in mine;
    CallsFromRequests(qs, model, slot, mine[i]);
  }

  ghost predicate ClockedRequests(qs: seq<Request>) {
    forall i, j :: 0 <= i < j < |qs| ==> qs[i].now <= qs[j].now
  }

  lemma {:induction false} CallsInClocked(qs: seq<Request>, model: string, slot: Slot)
    requires ClockedRequests(qs)
    ensures ClockedCalls(CallsIn(qs, model, slot))
    ensures qs != [] ==> forall i :: 0 <= i < |CallsIn(qs, model, slot)| ==> CallsIn(qs, model, slot)[i].now <= qs[|qs| - 1].now
  {
    if qs != [] {
      CallsInClocked(qs[..|qs| - 1], model, slot);
    }
  }

  /** With a nondecreasing clock and fixed retention, each keeps the window of all its requests. */
  lemma SlotKeepsWindow(qs: seq<Request>, policy: Policy, model: string, slot: Slot)
    requires ClockedRequests(qs) && policy.maxDays >= 0
    ensures KeepsWindow(BucketOf(ModelAt(RunRequests(qs, policy), model), slot), CallsIn(qs, model, slot), policy)
  {
    SlotsAreHistory(qs, policy, model, slot);
    CallsInClocked(qs, model, slot);
    ReferenceKeepsWindow(CallsIn(qs, model, slot), policy);
  }

  class OllamaDb {
    var models: map<string, ModelEntry>

    constructor ()
      ensures models == map[] && Valid()
    {
      models := map[];
    }

    ghost predicate Valid()
      reads this
    {
      AllModels(models)
    }

    method RecordSample(q: Request, policy: Policy) returns (recorded: bool)
      requires Valid()
      modifies this
      ensures Valid()
      ensures recorded == (q.model != "")
      ensures models == WithRequest(old(models), q, policy)
    {
      if q.model == "" {
        return false;
      }
      SampleConserves(models, q.model, q.role, q.paramKey, q.report, q.now, policy);
      var e := ModelAt(models, q.model);
      var row := RowAt(e.parameters, q.paramKey);
      var roleBucket := Apply(BucketAt(e.roles, q.role), q.report, q.now, policy);
      var paramBucket := Apply(BucketAt(row, q.role), q.report, q.now, policy);
      var overall := Apply(e.overall, q.report, q.now, policy);
      models := models[q.model := ModelEntry(overall, e.roles[q.role := roleBucket],
                                             e.parameters[q.paramKey := row[q.role := paramBucket]])];
      return true;
    }
  }
}
