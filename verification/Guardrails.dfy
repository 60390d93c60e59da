/** The tool-call guardrail: one running pass over the calls, one verdict (agent/tool_guardrails.py). */
module Guardrails {

  /** The length of a call's JSON encoding, if it has one. */
  datatype Encoding = Json(length: nat) | NotJson

  /** A tool call: its raw name (`name`, else `tool_name`, else "<missing>"), its JSON encoding and the
      length of its Python representation. */
  datatype Call = Call(raw: string, encoding: Encoding, printed: nat)

  datatype Config = Config(
    enabled: bool, maxCalls: int, maxExternal: int, maxCost: int, maxTokens: int, charsPerToken: int,
    classLimits: map<string, int>, classCosts: map<string, int>, toolClasses: map<string, string>,
    blockedClasses: set<string>, externalClasses: set<string>)

  /** The guardrail section of the configuration; an absent number is zero, an absent set empty. */
  datatype Guard = Guard(
    enabled: bool, maxCalls: int, maxExternal: int, maxCost: int, maxTokens: int, charsPerToken: int,
    classLimits: map<string, int>, classCosts: map<string, int>, toolClasses: map<string, string>,
    blockedClasses: set<string>, externalClasses: set<string>)

  function OrElse(n: int, default: int): int { if n != 0 then n else default }

  /** `_extract_guardrail_config`, over the built-in table of tool classes. */
  function Extracted(g: Guard, builtIn: map<string, string>): Config {
    Config(g.enabled, OrElse(g.maxCalls, 5), OrElse(g.maxExternal, 2), OrElse(g.maxCost, 20), g.maxTokens,
           OrElse(g.charsPerToken, 4), g.classLimits, g.classCosts, builtIn + g.toolClasses, g.blockedClasses,
           if g.externalClasses != {} then g.externalClasses else {"write", "admin"})
  }

  /** Token counts reported by the caller, and its own total if it gave one. */
  datatype Usage = Usage(prompt: int, history: int, completion: int, total: Explicit)

  datatype Explicit = Unstated | Stated(tokens: int)

  /** `raw.rsplit(".", 1)[-1]`. */
  function LastPart(raw: string): string {
    if raw == "" || raw[|raw| - 1] == '.' then ""
    else LastPart(raw[..|raw| - 1]) + [raw[|raw| - 1]]
  }

  function ClassOf(cfg: Config, c: Call): string {
    var name := LastPart(c.raw);
    if name in cfg.toolClasses then cfg.toolClasses[name] else "unknown"
  }

  function CostOf(cfg: Config, c: Call): int {
    var k := ClassOf(cfg, c);
    if k in cfg.classCosts then cfg.classCosts[k]
    else if "unknown" in cfg.classCosts then cfg.classCosts["unknown"]
    else 3
  }

  function LimitOf(cfg: Config, klass: string): int {
    if klass in cfg.classLimits then cfg.classLimits[klass] else 0
  }

  // ---- aggregates over the whole list ------------------------------------------------------

  function CountClass(cfg: Config, calls: seq<Call>, klass: string): nat {
    if calls == [] then 0
    else CountClass(cfg, calls[..|calls| - 1], klass) + if ClassOf(cfg, calls[|calls| - 1]) == klass then 1 else 0
  }

  function TotalCost(cfg: Config, calls: seq<Call>): int {
    if calls == [] then 0 else TotalCost(cfg, calls[..|calls| - 1]) + CostOf(cfg, calls[|calls| - 1])
  }

  function CountExternal(cfg: Config, calls: seq<Call>): nat {
    if calls == [] then 0
    else CountExternal(cfg, calls[..|calls| - 1]) + if ClassOf(cfg, calls[|calls| - 1]) in cfg.externalClasses then 1 else 0
  }

  function EncodedLength(c: Call): nat { if c.encoding.Json? then c.encoding.length else 0 }

  function EncodedSum(calls: seq<Call>): nat {
    if calls == [] then 0 else EncodedSum(calls[..|calls| - 1]) + EncodedLength(calls[|calls| - 1])
  }

  function PrintedSum(calls: seq<Call>): nat {
    if calls == [] then 0 else PrintedSum(calls[..|calls| - 1]) + calls[|calls| - 1].printed
  }

  /** How many calls JSON cannot encode. */
  function Unencodable(calls: seq<Call>): nat {
    if calls == [] then 0
    else Unencodable(calls[..|calls| - 1]) + if calls[|calls| - 1].encoding.NotJson? then 1 else 0
  }

  /** `json.dumps` of the list, or `str` of it if any call cannot be encoded: both have brackets, and a
      comma and a space between elements. */
  function PayloadLength(calls: seq<Call>): nat {
    2 + (if Unencodable(calls) == 0 then EncodedSum(calls) else PrintedSum(calls))
    + if calls == [] then 0 else 2 * (|calls| - 1)
  }

  /** `max(1, int(chars_per_token or 4))`. */
  function Divisor(charsPerToken: int): (d: nat)
    ensures d >= 1 && (charsPerToken == 0 ==> d == 4) && (charsPerToken > 0 ==> d == charsPerToken)
  {
    if charsPerToken == 0 then 4 else if charsPerToken < 1 then 1 else charsPerToken
  }

  /** The whole tokens of that many characters, at least one unless there are none. */
  function EstimateTokens(length: nat, charsPerToken: int): (n: nat)
    ensures n == 0 <==> length == 0
    ensures length < Divisor(charsPerToken) * (n + 1) && (n <= 1 || Divisor(charsPerToken) * n <= length)
  {
    var divisor := Divisor(charsPerToken);
    if length == 0 then 0 else if length / divisor < 1 then 1 else length / divisor
  }

  function EstimatedTotal(cfg: Config, calls: seq<Call>, u: Usage): int {
    if u.total.Stated? then u.total.tokens
    else u.prompt + u.history + u.completion + EstimateTokens(PayloadLength(calls), cfg.charsPerToken)
  }

  datatype Reason =
    | MaxCalls | ClassLimit(klass: string) | ClassBlocked(klass: string) | MaxExternal | MaxCost | MaxTokens

  /** The reasons for a denial as conditions on the final aggregates. */
  ghost predicate Violates(cfg: Config, calls: seq<Call>, u: Usage, reason: Reason) {
    match reason
    case MaxCalls => cfg.maxCalls > 0 && |calls| > cfg.maxCalls
    case ClassLimit(k) => LimitOf(cfg, k) > 0 && CountClass(cfg, calls, k) > LimitOf(cfg, k)
    case ClassBlocked(k) => k in cfg.blockedClasses && CountClass(cfg, calls, k) > 0
    case MaxExternal => cfg.maxExternal > 0 && CountExternal(cfg, calls) > cfg.maxExternal
    case MaxCost => cfg.maxCost > 0 && TotalCost(cfg, calls) > cfg.maxCost
    case MaxTokens => cfg.maxTokens > 0 && EstimatedTotal(cfg, calls, u) > cfg.maxTokens
  }

  ghost predicate Allowed(cfg: Config, calls: seq<Call>, u: Usage) {
    !cfg.enabled || calls == [] || forall reason :: !Violates(cfg, calls, u, reason)
  }

  /** Call `i` is of a blocked class, or brings its class over its limit. */
  ghost predicate Trips(cfg: Config, calls: seq<Call>, i: nat)
    requires i < |calls|
  {
    var k := ClassOf(cfg, calls[i]);
    k in cfg.blockedClasses || (LimitOf(cfg, k) > 0 && CountClass(cfg, calls[..i + 1], k) > LimitOf(cfg, k))
  }

  /** A limit on the whole request is exceeded, so that every call is blocked. */
  ghost predicate BlocksAll(cfg: Config, calls: seq<Call>, u: Usage) {
    Violates(cfg, calls, u, MaxExternal) || Violates(cfg, calls, u, MaxCost) || Violates(cfg, calls, u, MaxTokens)
  }

  ghost predicate Tripped(cfg: Config, calls: seq<Call>, name: string) {
    exists i :: 0 <= i < |calls| && Trips(cfg, calls, i) && LastPart(calls[i].raw) == name
  }

  // ---- the loop ----------------------------------------------------------------------------

  function CountAt(counts: map<string, nat>, k: string): nat { if k in counts then counts[k] else 0 }

  /** `list(dict.fromkeys(s))`: first occurrences, in order. */
  function Unique<T(==)>(s: seq<T>): seq<T> {
    if s == [] then []
    else
      var before, x := Unique(s[..|s| - 1]), s[|s| - 1];
      if x in before then before else before + [x]
  }

  lemma {:induction false} UniqueSound<T>(s: seq<T>)
    ensures forall x :: x in Unique(s) <==> x in s
    ensures forall i, j :: 0 <= i < j < |Unique(s)| ==> Unique(s)[i] != Unique(s)[j]
  {
    if s != [] {
      UniqueSound(s[..|s| - 1]);
      assert s == s[..|s| - 1] + [s[|s| - 1]];
    }
  }

  lemma AggregatesSnoc(cfg: Config, calls: seq<Call>, c: Call)
    ensures TotalCost(cfg, calls + [c]) == TotalCost(cfg, calls) + CostOf(cfg, c)
    ensures CountExternal(cfg, calls + [c]) == CountExternal(cfg, calls) + if ClassOf(cfg, c) in cfg.externalClasses then 1 else 0
    ensures forall k :: CountClass(cfg, calls + [c], k) == CountClass(cfg, calls, k) + if ClassOf(cfg, c) == k then 1 else 0
  {
    assert (calls + [c])[..|calls|] == calls;
  }

  lemma PayloadSnoc(calls: seq<Call>, c: Call)
    ensures EncodedSum(calls + [c]) == EncodedSum(calls) + EncodedLength(c)
    ensures PrintedSum(calls + [c]) == PrintedSum(calls) + c.printed
    ensures Unencodable(calls + [c]) == Unencodable(calls) + if c.encoding.NotJson? then 1 else 0
  {
    assert (calls + [c])[..|calls|] == calls;
  }

  /** The running counters agree with the aggregates of the calls seen so far. */
  ghost predicate Tally(cfg: Config, calls: seq<Call>, counts: map<string, nat>, cost: int, external: nat) {
    && (forall k :: CountAt(counts, k) == CountClass(cfg, calls, k))
    && cost == TotalCost(cfg, calls) && external == CountExternal(cfg, calls)
  }

  lemma TallySnoc(cfg: Config, calls: seq<Call>, counts: map<string, nat>, cost: int, external: nat, c: Call)
    requires Tally(cfg, calls, counts, cost, external)
    ensures var k := ClassOf(cfg, c);
            Tally(cfg, calls + [c], counts[k := CountAt(counts, k) + 1], cost + CostOf(cfg, c),
                  external + if k in cfg.externalClasses then 1 else 0)
  {
    AggregatesSnoc(cfg, calls, c);
  }

  /** The reasons the per-call pass gives are the class reasons of the calls seen so far. */
  ghost predicate ClassReasons(cfg: Config, calls: seq<Call>, reasons: seq<Reason>) {
    forall reason :: reason in reasons <==>
      match reason
      case ClassLimit(k) => LimitOf(cfg, k) > 0 && CountClass(cfg, calls, k) > LimitOf(cfg, k)
      case ClassBlocked(k) => k in cfg.blockedClasses && CountClass(cfg, calls, k) > 0
      case _ => false
  }

  ghost predicate TrippedNames(cfg: Config, calls: seq<Call>, blocked: seq<string>) {
    forall name :: name in blocked <==> Tripped(cfg, calls, name)
  }

  /** Later calls do not change whether a call trips. */
  lemma TripsBefore(cfg: Config, calls: seq<Call>, c: Call, i: nat)
    requires i < |calls|
    ensures (calls + [c])[i] == calls[i] && (Trips(cfg, calls + [c], i) <==> Trips(cfg, calls, i))
  {
    assert (calls + [c])[..i + 1] == calls[..i + 1];
  }

  lemma TrippedByOne(cfg: Config, calls: seq<Call>, c: Call, name: string)
    ensures Tripped(cfg, calls + [c], name) <==>
            Tripped(cfg, calls, name) || (Trips(cfg, calls + [c], |calls|) && name == LastPart(c.raw))
  {
    var all := calls + [c];
    assert all[|calls|] == c;
    if Tripped(cfg, calls, name) {
      var i :| 0 <= i < |calls| && Trips(cfg, calls, i) && LastPart(calls[i].raw) == name;
      TripsBefore(cfg, calls, c, i);
      assert Trips(cfg, all, i) && LastPart(all[i].raw) == name;
    }
    if Tripped(cfg, all, name) {
      var i :| 0 <= i < |all| && Trips(cfg, all, i) && LastPart(all[i].raw) == name;
      if i < |calls| {
        TripsBefore(cfg, calls, c, i);
        assert Trips(cfg, calls, i) && LastPart(calls[i].raw) == name;
      }
    }
  }

  lemma TrippedSnoc(cfg: Config, calls: seq<Call>, c: Call, blocked: seq<string>, blocked': seq<string>)
    requires TrippedNames(cfg, calls, blocked)
    requires forall name :: name in blocked' <==>
      name in blocked || (Trips(cfg, calls + [c], |calls|) && name == LastPart(c.raw))
    ensures TrippedNames(cfg, calls + [c], blocked')
  {
    forall name
      ensures name in blocked' <==> Tripped(cfg, calls + [c], name)
    {
      TrippedByOne(cfg, calls, c, name);
    }
  }

  /** The per-call pass: it reports every class over its limit and every blocked class, and blocks the
      calls that trip. */
  method Scan(cfg: Config, calls: seq<Call>)
    returns (reasons: seq<Reason>, blocked: seq<string>, cost: int, external: nat)
    ensures ClassReasons(cfg, calls, reasons) && TrippedNames(cfg, calls, blocked)
    ensures cost == TotalCost(cfg, calls) && external == CountExternal(cfg, calls)
  {
    reasons, blocked, cost, external := [], [], 0, 0;
    var counts: map<string, nat> := map[];
    for i := 0 to |calls|
      invariant Tally(cfg, calls[..i], counts, cost, external)
      invariant ClassReasons(cfg, calls[..i], reasons) && TrippedNames(cfg, calls[..i], blocked)
    {
      assert calls[..i + 1] == calls[..i] + [calls[i]];
      reasons, blocked, counts, cost, external :=
        ScanOne(cfg, calls[..i], calls[i], reasons, blocked, counts, cost, external);
    }
    assert calls[..|calls|] == calls;
  }

  /** The loop body for one call. */
  method ScanOne(cfg: Config, ghost seen: seq<Call>, c: Call,
                 reasons: seq<Reason>, blocked: seq<string>, counts: map<string, nat>, cost: int, external: nat)
    returns (reasons': seq<Reason>, blocked': seq<string>, counts': map<string, nat>, cost': int, external': nat)
    requires Tally(cfg, seen, counts, cost, external)
    requires ClassReasons(cfg, seen, reasons) && TrippedNames(cfg, seen, blocked)
    ensures Tally(cfg, seen + [c], counts', cost', external')
    ensures ClassReasons(cfg, seen + [c], reasons') && TrippedNames(cfg, seen + [c], blocked')
  {
    var name, klass := LastPart(c.raw), ClassOf(cfg, c);
    TallySnoc(cfg, seen, counts, cost, external, c);
    counts' := counts[klass := CountAt(counts, klass) + 1];
    cost' := cost + CostOf(cfg, c);
    external' := external + if klass in cfg.externalClasses then 1 else 0;
    reasons', blocked' := reasons, blocked;
    var limit := LimitOf(cfg, klass);
    if limit > 0 && counts'[klass] > limit {
      blocked' := blocked' + [name];
      reasons' := reasons' + [ClassLimit(klass)];
    }
    if klass in cfg.blockedClasses {
      blocked' := blocked' + [name];
      reasons' := reasons' + [ClassBlocked(klass)];
    }
    AggregatesSnoc(cfg, seen, c);
    assert (seen + [c])[|seen|] == c && (seen + [c])[..|seen| + 1] == seen + [c];
    TrippedSnoc(cfg, seen, c, blocked, blocked');
  }

  function RawNames(calls: seq<Call>): seq<string> {
    seq(|calls|, i requires 0 <= i < |calls| => calls[i].raw)
  }

  ghost predicate NoRepeats<T>(s: seq<T>) {
    forall i, j :: 0 <= i < j < |s| ==> s[i] != s[j]
  }

  /** Every violated limit is a reason, once. */
  ghost predicate ReasonsExact(cfg: Config, calls: seq<Call>, u: Usage, reasons: seq<Reason>) {
    NoRepeats(reasons) && forall reason :: reason in reasons <==> Violates(cfg, calls, u, reason)
  }

  /** The blocked tools are those of the calls that trip, by short name, and all of them by their full
      names if a limit on the whole request is exceeded. */
  ghost predicate BlockedExact(cfg: Config, calls: seq<Call>, u: Usage, blocked: seq<string>) {
    && NoRepeats(blocked)
    && forall name :: name in blocked <==>
         Tripped(cfg, calls, name) || (BlocksAll(cfg, calls, u) && name in RawNames(calls))
  }

  /** `evaluate_tool_call_guardrails`: the verdict, each violated limit once, and the blocked tools. */
  method Evaluate(cfg: Config, calls: seq<Call>, u: Usage)
    returns (allowed: bool, blocked: seq<string>, reasons: seq<Reason>)
    ensures allowed <==> Allowed(cfg, calls, u)
    ensures if cfg.enabled && calls != [] then
              ReasonsExact(cfg, calls, u, reasons) && BlockedExact(cfg, calls, u, blocked)
            else reasons == [] && blocked == []
  {
    if !cfg.enabled || calls == [] {
      return true, [], [];
    }
    blocked, reasons := Judge(cfg, calls, u);
    allowed := reasons == [];
    VerdictSound(cfg, calls, u, reasons);
  }

  method Judge(cfg: Config, calls: seq<Call>, u: Usage) returns (blocked: seq<string>, reasons: seq<Reason>)
    ensures ReasonsExact(cfg, calls, u, reasons) && BlockedExact(cfg, calls, u, blocked)
  {
    var scanned, names, cost, external := Scan(cfg, calls);
    var over := Over(cfg.maxExternal > 0 && external > cfg.maxExternal, cfg.maxCost > 0 && cost > cfg.maxCost,
                     cfg.maxTokens > 0 && EstimatedTotal(cfg, calls, u) > cfg.maxTokens);
    var tooMany := cfg.maxCalls > 0 && |calls| > cfg.maxCalls;
    assert IsOver(cfg, calls, u, over) && (tooMany <==> Violates(cfg, calls, u, MaxCalls));
    CollectedSound(cfg, calls, u, scanned, over);
    BlockedSound(cfg, calls, u, names, over);
    reasons := Unique(Collected(tooMany, scanned, over));
    blocked := Unique(names + BlockedBy(over, RawNames(calls)));
  }

  /** The three limits on the whole request that block every call. */
  datatype Over = Over(external: bool, cost: bool, tokens: bool)

  function Collected(tooMany: bool, scanned: seq<Reason>, over: Over): seq<Reason> {
    (if tooMany then [MaxCalls] else []) + scanned + (if over.external then [MaxExternal] else [])
    + (if over.cost then [MaxCost] else []) + (if over.tokens then [MaxTokens] else [])
  }

  function BlockedBy(over: Over, all: seq<string>): seq<string> {
    (if over.external then all else []) + (if over.cost then all else []) + (if over.tokens then all else [])
  }

  ghost predicate IsOver(cfg: Config, calls: seq<Call>, u: Usage, over: Over) {
    && (over.external <==> Violates(cfg, calls, u, MaxExternal))
    && (over.cost <==> Violates(cfg, calls, u, MaxCost))
    && (over.tokens <==> Violates(cfg, calls, u, MaxTokens))
  }

  lemma CollectedSound(cfg: Config, calls: seq<Call>, u: Usage, scanned: seq<Reason>, over: Over)
    requires ClassReasons(cfg, calls, scanned) && IsOver(cfg, calls, u, over)
    ensures ReasonsExact(cfg, calls, u, Unique(Collected(Violates(cfg, calls, u, MaxCalls), scanned, over)))
  {
    var tooMany := Violates(cfg, calls, u, MaxCalls);
    UniqueSound(Collected(tooMany, scanned, over));
    forall reason
      ensures reason in Collected(tooMany, scanned, over) <==> Violates(cfg, calls, u, reason)
    {
      CollectedMembers(tooMany, scanned, over, reason);
    }
  }

  lemma CollectedMembers(tooMany: bool, scanned: seq<Reason>, over: Over, reason: Reason)
    ensures reason in Collected(tooMany, scanned, over) <==>
            || reason in scanned || (tooMany && reason == MaxCalls) || (over.external && reason == MaxExternal)
            || (over.cost && reason == MaxCost) || (over.tokens && reason == MaxTokens)
  {
  }

  lemma BlockedSound(cfg: Config, calls: seq<Call>, u: Usage, names: seq<string>, over: Over)
    requires TrippedNames(cfg, calls, names) && IsOver(cfg, calls, u, over)
    ensures BlockedExact(cfg, calls, u, Unique(names + BlockedBy(over, RawNames(calls))))
  {
    var all := RawNames(calls);
    UniqueSound(names + BlockedBy(over, all));
    assert forall name :: name in BlockedBy(over, all) <==> (over.external || over.cost || over.tokens) && name in all;
  }

  lemma VerdictSound(cfg: Config, calls: seq<Call>, u: Usage, reasons: seq<Reason>)
    requires cfg.enabled && calls != []
    requires ReasonsExact(cfg, calls, u, reasons)
    ensures reasons == [] <==> Allowed(cfg, calls, u)
  {
    if reasons != [] {
      assert Violates(cfg, calls, u, reasons[0]);
    }
    if !Allowed(cfg, calls, u) {
      var reason :| Violates(cfg, calls, u, reason);
      assert reason in reasons;
    }
  }

  // ---- what a call costs -------------------------------------------------------------------

  lemma {:induction false} LastPartOfPlain(name: string)
    requires '.' !in name
    ensures LastPart(name) == name
  {
    if name != "" {
      LastPartOfPlain(name[..|name| - 1]);
      assert name == name[..|name| - 1] + [name[|name| - 1]];
    }
  }

  /** The tool is named by what follows the last dot. */
  lemma {:induction false} LastPartAfterDot(prefix: string, name: string)
    requires '.' !in name
    ensures LastPart(prefix + "." + name) == name
  {
    var raw := prefix + "." + name;
    if name == "" {
      assert raw[|raw| - 1] == '.';
    } else {
      var n := |name| - 1;
      LastPartAfterDot(prefix, name[..n]);
      assert raw[..|raw| - 1] == prefix + "." + name[..n] && raw[|raw| - 1] == name[n];
      assert name == name[..n] + [name[n]];
    }
  }

  /** A call costs what its tool's class costs, else what the class "unknown" costs, else 3; a tool
      without a class is of the class "unknown". */
  lemma CallCost(cfg: Config, c: Call, prefix: string, name: string)
    requires '.' !in name && (c.raw == name || c.raw == prefix + "." + name)
    ensures name in cfg.toolClasses ==> ClassOf(cfg, c) == cfg.toolClasses[name]
    ensures name !in cfg.toolClasses ==> ClassOf(cfg, c) == "unknown"
    ensures ClassOf(cfg, c) in cfg.classCosts ==> CostOf(cfg, c) == cfg.classCosts[ClassOf(cfg, c)]
    ensures ClassOf(cfg, c) !in cfg.classCosts && "unknown" in cfg.classCosts ==> CostOf(cfg, c) == cfg.classCosts["unknown"]
    ensures ClassOf(cfg, c) !in cfg.classCosts && "unknown" !in cfg.classCosts ==> CostOf(cfg, c) == 3
  {
    LastPartOfPlain(name);
    LastPartAfterDot(prefix, name);
  }

  /** Only a class with a positive limit has one; a limit on the request that is not positive is none. */
  lemma LimitsIff(cfg: Config, calls: seq<Call>, u: Usage, k: string)
    ensures Violates(cfg, calls, u, ClassLimit(k)) <==>
            k in cfg.classLimits && cfg.classLimits[k] > 0 &&
            cfg.classLimits[k] < |set i | 0 <= i < |calls| && ClassOf(cfg, calls[i]) == k|
    ensures Violates(cfg, calls, u, ClassBlocked(k)) <==>
            k in cfg.blockedClasses && exists i :: 0 <= i < |calls| && ClassOf(cfg, calls[i]) == k
    ensures Violates(cfg, calls, u, MaxCalls) <==> 0 < cfg.maxCalls < |calls|
    ensures Violates(cfg, calls, u, MaxCost) <==> 0 < cfg.maxCost < TotalCost(cfg, calls)
    ensures Violates(cfg, calls, u, MaxTokens) <==>
            0 < cfg.maxTokens < if u.total.Stated? then u.total.tokens
                                else u.prompt + u.history + u.completion + EstimateTokens(PayloadLength(calls), cfg.charsPerToken)
    ensures Violates(cfg, calls, u, MaxExternal) <==>
            0 < cfg.maxExternal < |set i | 0 <= i < |calls| && ClassOf(cfg, calls[i]) in cfg.externalClasses|
  {
    CountIsCardinality(cfg, calls, k);
    ExternalIsCardinality(cfg, calls);
    if i :| 0 <= i < |calls| && ClassOf(cfg, calls[i]) == k {
      assert i in OfClass(cfg, calls, k);
    }
    if OfClass(cfg, calls, k) != {} {
      var i :| i in OfClass(cfg, calls, k);
    }
  }

  /** A call trips iff its class is blocked, or with it the class has more calls than a positive limit. */
  lemma TripsIff(cfg: Config, calls: seq<Call>, i: nat)
    requires i < |calls|
    ensures var k := ClassOf(cfg, calls[i]);
      Trips(cfg, calls, i) <==>
      || k in cfg.blockedClasses
      || (k in cfg.classLimits && 0 < cfg.classLimits[k] < |set j | 0 <= j <= i && ClassOf(cfg, calls[j]) == k|)
  {
    var k := ClassOf(cfg, calls[i]);
    CountIsCardinality(cfg, calls[..i + 1], k);
    assert OfClass(cfg, calls[..i + 1], k) == set j | 0 <= j <= i && ClassOf(cfg, calls[j]) == k;
  }

  /** All calls are blocked iff there are too many external ones, or cost or tokens are too high. */
  lemma BlocksAllIff(cfg: Config, calls: seq<Call>, u: Usage)
    ensures BlocksAll(cfg, calls, u) <==>
            || 0 < cfg.maxExternal < |Externals(cfg, calls)|
            || 0 < cfg.maxCost < TotalCost(cfg, calls)
            || 0 < cfg.maxTokens < EstimatedTotal(cfg, calls, u)
  {
    ExternalIsCardinality(cfg, calls);
  }

  function OfClass(cfg: Config, calls: seq<Call>, k: string): set<int> {
    set i | 0 <= i < |calls| && ClassOf(cfg, calls[i]) == k
  }

  function Externals(cfg: Config, calls: seq<Call>): set<int> {
    set i | 0 <= i < |calls| && ClassOf(cfg, calls[i]) in cfg.externalClasses
  }

  lemma OfClassSnoc(cfg: Config, calls: seq<Call>, c: Call, k: string)
    ensures OfClass(cfg, calls + [c], k) == OfClass(cfg, calls, k) + if ClassOf(cfg, c) == k then {|calls|} else {}
    ensures Externals(cfg, calls + [c]) ==
            Externals(cfg, calls) + if ClassOf(cfg, c) in cfg.externalClasses then {|calls|} else {}
  {
    var all := calls + [c];
    assert all[|calls|] == c && forall i :: 0 <= i < |calls| ==> all[i] == calls[i];
  }

  lemma {:induction false} CountIsCardinality(cfg: Config, calls: seq<Call>, k: string)
    ensures CountClass(cfg, calls, k) == |OfClass(cfg, calls, k)|
  {
    if calls != [] {
      var n := |calls| - 1;
      CountIsCardinality(cfg, calls[..n], k);
      assert calls == calls[..n] + [calls[n]];
      OfClassSnoc(cfg, calls[..n], calls[n], k);
    }
  }

  lemma {:induction false} ExternalIsCardinality(cfg: Config, calls: seq<Call>)
    ensures CountExternal(cfg, calls) == |Externals(cfg, calls)|
  {
    if calls != [] {
      var n := |calls| - 1;
      ExternalIsCardinality(cfg, calls[..n]);
      assert calls == calls[..n] + [calls[n]];
      OfClassSnoc(cfg, calls[..n], calls[n], "");
    }
  }

  /** What an empty guardrail section stands for. */
  lemma Defaults(builtIn: map<string, string>, enabled: bool)
    ensures Extracted(Guard(enabled, 0, 0, 0, 0, 0, map[], map[], map[], {}, {}), builtIn) ==
            Config(enabled, 5, 2, 20, 0, 4, map[], map[], builtIn, {}, {"write", "admin"})
  {
    assert builtIn + map[] == builtIn;
  }

  // ---- order and extension -----------------------------------------------------------------

  /** Two lists agree in every aggregate. */
  ghost predicate SameAggregates(cfg: Config, a: seq<Call>, b: seq<Call>) {
    && |a| == |b| && TotalCost(cfg, a) == TotalCost(cfg, b) && CountExternal(cfg, a) == CountExternal(cfg, b)
    && EncodedSum(a) == EncodedSum(b) && PrintedSum(a) == PrintedSum(b) && Unencodable(a) == Unencodable(b)
    && forall k :: CountClass(cfg, a, k) == CountClass(cfg, b, k)
  }

  lemma {:induction false} CountAdd(cfg: Config, a: seq<Call>, b: seq<Call>, k: string)
    ensures CountClass(cfg, a + b, k) == CountClass(cfg, a, k) + CountClass(cfg, b, k)
  {
    if b == [] {
      assert a + b == a;
    } else {
      var n := |b| - 1;
      CountAdd(cfg, a, b[..n], k);
      assert (a + b)[..|a| + n] == a + b[..n] && (a + b)[|a| + n] == b[n] && |a + b| == |a| + n + 1;
    }
  }

  lemma {:induction false} CostAdd(cfg: Config, a: seq<Call>, b: seq<Call>)
    ensures TotalCost(cfg, a + b) == TotalCost(cfg, a) + TotalCost(cfg, b)
    ensures CountExternal(cfg, a + b) == CountExternal(cfg, a) + CountExternal(cfg, b)
  {
    if b == [] {
      assert a + b == a;
    } else {
      var n := |b| - 1;
      CostAdd(cfg, a, b[..n]);
      assert (a + b)[..|a| + n] == a + b[..n] && (a + b)[|a| + n] == b[n] && |a + b| == |a| + n + 1;
    }
  }

  /** Every aggregate is additive. */
  lemma AggregatesAdd(cfg: Config, a: seq<Call>, b: seq<Call>)
    ensures TotalCost(cfg, a + b) == TotalCost(cfg, a) + TotalCost(cfg, b)
    ensures CountExternal(cfg, a + b) == CountExternal(cfg, a) + CountExternal(cfg, b)
    ensures forall k :: CountClass(cfg, a + b, k) == CountClass(cfg, a, k) + CountClass(cfg, b, k)
  {
    CostAdd(cfg, a, b);
    forall k
      ensures CountClass(cfg, a + b, k) == CountClass(cfg, a, k) + CountClass(cfg, b, k)
    {
      CountAdd(cfg, a, b, k);
    }
  }

  lemma {:induction false} PayloadAdd(a: seq<Call>, b: seq<Call>)
    ensures EncodedSum(a + b) == EncodedSum(a) + EncodedSum(b)
    ensures PrintedSum(a + b) == PrintedSum(a) + PrintedSum(b)
    ensures Unencodable(a + b) == Unencodable(a) + Unencodable(b)
  {
    if b == [] {
      assert a + b == a;
    } else {
      var n := |b| - 1;
      PayloadAdd(a, b[..n]);
      assert (a + b)[..|a| + n] == a + b[..n] && (a + b)[|a| + n] == b[n] && |a + b| == |a| + n + 1;
    }
  }

  lemma InsertAnywhere(cfg: Config, init: seq<Call>, before: seq<Call>, c: Call, after: seq<Call>)
    requires SameAggregates(cfg, init, before + after)
    ensures SameAggregates(cfg, init + [c], before + ([c] + after))
  {
    AggregatesAdd(cfg, init, [c]);
    AggregatesAdd(cfg, before, [c] + after);
    AggregatesAdd(cfg, [c], after);
    AggregatesAdd(cfg, before, after);
    PayloadAdd(init, [c]);
    PayloadAdd(before, [c] + after);
    PayloadAdd([c], after);
    PayloadAdd(before, after);
  }

  lemma TakeOut(b: seq<Call>, i: nat)
    requires i < |b|
    ensures b == b[..i] + ([b[i]] + b[i + 1..])
    ensures multiset(b[..i] + b[i + 1..]) == multiset(b) - multiset{b[i]}
  {
  }

  lemma {:induction false} PermutedAggregates(cfg: Config, a: seq<Call>, b: seq<Call>)
    requires multiset(a) == multiset(b)
    ensures SameAggregates(cfg, a, b)
    decreases |a|
  {
    assert |a| == |multiset(a)| == |multiset(b)| == |b|;
    if a != [] {
      var n := |a| - 1;
      assert a == a[..n] + [a[n]];
      assert a[n] in multiset(b);
      var i :| 0 <= i < |b| && b[i] == a[n];
      TakeOut(b, i);
      PermutedAggregates(cfg, a[..n], b[..i] + b[i + 1..]);
      InsertAnywhere(cfg, a[..n], b[..i], a[n], b[i + 1..]);
    }
  }

  /** The verdict does not depend on the order of the calls. */
  lemma OrderIrrelevant(cfg: Config, a: seq<Call>, b: seq<Call>, u: Usage)
    requires multiset(a) == multiset(b)
    ensures Allowed(cfg, a, u) <==> Allowed(cfg, b, u)
  {
    PermutedAggregates(cfg, a, b);
    assert forall reason :: Violates(cfg, a, u, reason) <==> Violates(cfg, b, u, reason);
  }

  ghost predicate NonNegativeCosts(cfg: Config) {
    forall k :: k in cfg.classCosts ==> cfg.classCosts[k] >= 0
  }

  lemma PositiveFactor(a: int, d: nat)
    requires a * d > 0
    ensures a > 0
  {
  }

  lemma DivMonotone(x: nat, y: nat, d: nat)
    requires x <= y && d >= 1
    ensures x / d <= y / d
  {
    var q, r := x / d, y / d;
    assert q * d <= x && y < (r + 1) * d;
    assert (r + 1 - q) * d == (r + 1) * d - q * d;
    PositiveFactor(r + 1 - q, d);
  }

  lemma {:induction false} CostsAddUp(cfg: Config, calls: seq<Call>)
    requires NonNegativeCosts(cfg)
    ensures TotalCost(cfg, calls) >= 0
  {
    if calls != [] {
      CostsAddUp(cfg, calls[..|calls| - 1]);
    }
  }

  /** The payload grows with the list, unless the extension makes JSON give way to `str`. */
  lemma PayloadGrows(calls: seq<Call>, more: seq<Call>)
    requires Unencodable(calls) == 0 ==> Unencodable(more) == 0
    ensures PayloadLength(calls) <= PayloadLength(calls + more)
  {
    PayloadAdd(calls, more);
  }

  /** No limit but the one on tokens is violated. */
  ghost predicate OnlyTokens(cfg: Config, calls: seq<Call>, u: Usage) {
    forall reason :: Violates(cfg, calls, u, reason) ==> reason == MaxTokens
  }

  /** The calls are encoded as JSON, and the extension makes `str` replace it. */
  ghost predicate FallsBack(calls: seq<Call>, more: seq<Call>, u: Usage) {
    u.total.Unstated? && Unencodable(calls) == 0 && Unencodable(more) > 0
  }

  /** The estimate for both lists together, as `str` prints them. */
  function PrintedTotal(cfg: Config, calls: seq<Call>, more: seq<Call>, u: Usage): int
    requires calls != []
  {
    u.prompt + u.history + u.completion +
    EstimateTokens(2 + PrintedSum(calls) + PrintedSum(more) + 2 * (|calls| + |more| - 1), cfg.charsPerToken)
  }

  lemma FallbackTotal(cfg: Config, calls: seq<Call>, more: seq<Call>, u: Usage)
    requires calls != [] && FallsBack(calls, more, u)
    ensures EstimatedTotal(cfg, calls + more, u) == PrintedTotal(cfg, calls, more, u)
  {
    PayloadAdd(calls, more);
  }

  /** What it takes to undo a violated limit by adding calls: a rebate for the cost, and for the tokens
      a text form that replaces JSON and is short enough. The other limits cannot be undone. */
  ghost predicate Undone(cfg: Config, calls: seq<Call>, more: seq<Call>, u: Usage, reason: Reason)
    requires calls != []
  {
    match reason
    case MaxCost => TotalCost(cfg, calls) + TotalCost(cfg, more) <= cfg.maxCost
    case MaxTokens => FallsBack(calls, more, u) && PrintedTotal(cfg, calls, more, u) <= cfg.maxTokens
    case _ => false
  }

  lemma UndoneIff(cfg: Config, calls: seq<Call>, more: seq<Call>, u: Usage, reason: Reason)
    requires calls != [] && Violates(cfg, calls, u, reason)
    ensures !Violates(cfg, calls + more, u, reason) <==> Undone(cfg, calls, more, u, reason)
  {
    AggregatesAdd(cfg, calls, more);
    if reason.MaxTokens? {
      if FallsBack(calls, more, u) {
        FallbackTotal(cfg, calls, more, u);
      } else if u.total.Unstated? {
        PayloadGrows(calls, more);
        DivMonotone(PayloadLength(calls), PayloadLength(calls + more), Divisor(cfg.charsPerToken));
      }
    }
  }

  /** Exactly when the extension of a denied list is allowed, for every configuration: each violated
      limit is undone and no other becomes violated. */
  lemma AllowedAgainIff(cfg: Config, calls: seq<Call>, more: seq<Call>, u: Usage)
    requires !Allowed(cfg, calls, u)
    ensures Allowed(cfg, calls + more, u) <==>
            forall reason :: if Violates(cfg, calls, u, reason) then Undone(cfg, calls, more, u, reason)
                             else !Violates(cfg, calls + more, u, reason)
  {
    forall reason | Violates(cfg, calls, u, reason)
      ensures !Violates(cfg, calls + more, u, reason) <==> Undone(cfg, calls, more, u, reason)
    {
      UndoneIff(cfg, calls, more, u, reason);
    }
  }

  /** An extension that does not lower the cost leaves a denied list denied, unless estimated tokens
      were the only reason and it is the first to hold a call that JSON cannot encode. */
  lemma DeniedStaysDenied(cfg: Config, calls: seq<Call>, more: seq<Call>, u: Usage)
    requires TotalCost(cfg, more) >= 0 && !Allowed(cfg, calls, u)
    ensures !Allowed(cfg, calls + more, u) || (OnlyTokens(cfg, calls, u) && FallsBack(calls, more, u))
  {
    var reason :| Violates(cfg, calls, u, reason);
    if !OnlyTokens(cfg, calls, u) {
      reason :| Violates(cfg, calls, u, reason) && reason != MaxTokens;
    }
    UndoneIff(cfg, calls, more, u, reason);
  }

  /** Such an extension is then allowed exactly when the text form is short enough and no other limit
      becomes violated. */
  lemma FallbackAllowsIff(cfg: Config, calls: seq<Call>, more: seq<Call>, u: Usage)
    requires TotalCost(cfg, more) >= 0 && !Allowed(cfg, calls, u)
    ensures Allowed(cfg, calls + more, u) <==>
            && FallsBack(calls, more, u)
            && OnlyTokens(cfg, calls, u) && OnlyTokens(cfg, calls + more, u)
            && PrintedTotal(cfg, calls, more, u) <= cfg.maxTokens
  {
    DeniedStaysDenied(cfg, calls, more, u);
    if FallsBack(calls, more, u) && OnlyTokens(cfg, calls, u) {
      FallbackTotal(cfg, calls, more, u);
      TokensDecide(cfg, calls + more, u);
      TokensViolated(cfg, calls, u);
    }
  }

  lemma TokensViolated(cfg: Config, calls: seq<Call>, u: Usage)
    requires !Allowed(cfg, calls, u) && OnlyTokens(cfg, calls, u)
    ensures cfg.maxTokens > 0
  {
    var reason :| Violates(cfg, calls, u, reason);
    assert reason == MaxTokens;
  }

  lemma TokensDecide(cfg: Config, calls: seq<Call>, u: Usage)
    requires cfg.enabled && calls != []
    ensures Allowed(cfg, calls, u) <==> OnlyTokens(cfg, calls, u) && !Violates(cfg, calls, u, MaxTokens)
  {
  }

  /** No class cost is negative, so no extension lowers the cost. */
  lemma CostsNeverFall(cfg: Config, calls: seq<Call>, more: seq<Call>, u: Usage)
    requires NonNegativeCosts(cfg) && !Allowed(cfg, calls, u) && !FallsBack(calls, more, u)
    ensures !Allowed(cfg, calls + more, u)
  {
    CostsAddUp(cfg, more);
    DeniedStaysDenied(cfg, calls, more, u);
  }

  // ---- the case occurs ---------------------------------------------------------------------

  /** Only the token limit and the estimate's divisor are configured, and a class for the tool. */
  const TOKEN_GUARD := Guard(true, 0, 0, 0, 100, 1, map[], map[], map["t" := "read"], {}, {})

  /** A dictionary with the name "t" and forty quotation marks, which JSON escapes and `repr` does not. */
  const QUOTES := Call("t", Json(102), 62)

  /** A dictionary with the name "t" and an empty set. */
  const SET := Call("t", NotJson, 25)

  lemma ReadTool(builtIn: map<string, string>, c: Call)
    requires c.raw == "t"
    ensures var cfg := Extracted(TOKEN_GUARD, builtIn);
            ClassOf(cfg, c) == "read" && CostOf(cfg, c) == 3 && "read" !in cfg.externalClasses
  {
    assert LastPart("t") == "t";
    assert "read"[0] == 'r' && "write"[0] == 'w' && "admin"[0] == 'a';
  }

  lemma {:induction false} ReadTools(builtIn: map<string, string>, calls: seq<Call>)
    requires forall i :: 0 <= i < |calls| ==> calls[i].raw == "t"
    ensures var cfg := Extracted(TOKEN_GUARD, builtIn);
            TotalCost(cfg, calls) == 3 * |calls| && CountExternal(cfg, calls) == 0
  {
    if calls != [] {
      var n := |calls| - 1;
      ReadTools(builtIn, calls[..n]);
      ReadTool(builtIn, calls[n]);
    }
  }

  /** Up to five such calls violate no limit but the one on tokens. */
  lemma FewReadTools(builtIn: map<string, string>, calls: seq<Call>, u: Usage)
    requires |calls| <= 5 && forall i :: 0 <= i < |calls| ==> calls[i].raw == "t"
    ensures OnlyTokens(Extracted(TOKEN_GUARD, builtIn), calls, u)
  {
    ReadTools(builtIn, calls);
  }

  lemma FallbackLengths(cfg: Config, u: Usage)
    requires cfg.charsPerToken == 1 && u == Usage(0, 0, 0, Unstated)
    ensures EstimatedTotal(cfg, [QUOTES], u) == 104
    ensures FallsBack([QUOTES], [SET], u) && PrintedTotal(cfg, [QUOTES], [SET], u) == 91
  {
    assert [QUOTES] == [] + [QUOTES] && [SET] == [] + [SET];
    PayloadSnoc([], QUOTES);
    PayloadSnoc([], SET);
  }

  /** Whatever the built-in classes, the quotes alone are denied and the longer list is allowed. */
  lemma FallbackCanAllow(builtIn: map<string, string>, cfg: Config, u: Usage)
    requires cfg == Extracted(TOKEN_GUARD, builtIn) && u == Usage(0, 0, 0, Unstated)
    ensures !Allowed(cfg, [QUOTES], u) && Allowed(cfg, [QUOTES] + [SET], u)
  {
    FallbackLengths(cfg, u);
    assert Violates(cfg, [QUOTES], u, MaxTokens);
    FewReadTools(builtIn, [QUOTES], u);
    FewReadTools(builtIn, [QUOTES] + [SET], u);
    ReadTools(builtIn, [SET]);
    FallbackAllowsIff(cfg, [QUOTES], [SET], u);
  }
}
