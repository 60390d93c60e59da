/** The control skeleton of `_call_llm` (agent/llm_integration.py): two gates, a retry loop, one report. */
module LlmCall {
  import CB = CircuitBreaker
  import RL = RateLimiter
  import opened LlmResilience
  import opened Strings

  /** What the provider middleware did with an attempt. */
  datatype Prepared = PrepareBlocked | PreparePermanentError | PrepareError | Cached(text: string) | Ready

  /** What executing the attempt gave, if it came to that. */
  datatype Executed = ExecuteBlocked | PermanentError | OtherError | Answer(text: string)

  datatype Attempt = Attempt(prepared: Prepared, executed: Executed)

  datatype Verdict = Win(text: string) | Retry | Stop

  /** `not (text and text.strip())`. */
  predicate Blank(text: string) { Strip(text) == "" }

  predicate Executes(a: Attempt) {
    a.prepared.Ready? || (a.prepared.Cached? && a.prepared.text == "")
  }

  function Judge(a: Attempt): Verdict {
    if Executes(a) then
      match a.executed
      case ExecuteBlocked => Stop
      case PermanentError => Stop
      case OtherError => Retry
      case Answer(text) => if Blank(text) then Retry else Win(text)
    else
      match a.prepared
      case PrepareBlocked => Stop
      case PreparePermanentError => Stop
      case PrepareError => Retry
      case Cached(text) => Win(text)
      case Ready => Retry
  }

  // What an attempt's outcome means, in terms of the outcome alone.

  /** Preparation lets the attempt through to execution. */
  predicate Reaches(a: Attempt) { a.prepared == Ready || a.prepared == Cached("") }

  /** An error that is neither permanent nor a block, or an answer of white space only. */
  predicate IsRetried(a: Attempt) {
    || a.prepared == PrepareError
    || (Reaches(a) && (a.executed == OtherError || (a.executed.Answer? && AllSpace(a.executed.text))))
  }

  /** A cached text, or an answer that is not blank. */
  predicate Yields(a: Attempt, text: string) {
    || (a.prepared == Cached(text) && text != "")
    || (Reaches(a) && a.executed == Answer(text) && !AllSpace(text))
  }

  /** Blocked or permanently failed, in preparation or in execution. */
  predicate IsFinal(a: Attempt) {
    || a.prepared in {PrepareBlocked, PreparePermanentError}
    || (Reaches(a) && a.executed in {ExecuteBlocked, PermanentError})
  }

  lemma JudgeByOutcome(a: Attempt)
    ensures Executes(a) <==> Reaches(a)
    ensures Judge(a).Retry? <==> IsRetried(a)
    ensures Judge(a).Stop? <==> IsFinal(a)
    ensures forall text :: Judge(a) == Win(text) <==> Yields(a, text)
  {
    if a.executed.Answer? {
      StripEmptyIff(a.executed.text);
    }
  }

  /** What the environment supplies to one call: clock readings and attempt outcomes. */
  datatype Call = Call(
    provider: string, maxRetries: int, contextValid: bool, attempts: nat -> Attempt,
    checkedAt: real, limitedAt: real, reportedAt: real, recordedAt: real)

  /** Attempt `k` is made: every attempt before it was retried. */
  ghost predicate IsMade(c: Call, k: nat) {
    k <= c.maxRetries && forall j: nat :: j < k ==> IsRetried(c.attempts(j))
  }

  /** How many of the first `n` attempts are executed. */
  function ExecutedOf(c: Call, n: nat): nat {
    |set j: nat | j < n && Reaches(c.attempts(j))|
  }

  lemma ExecutedSnoc(c: Call, n: nat)
    ensures ExecutedOf(c, n + 1) == ExecutedOf(c, n) + if Reaches(c.attempts(n)) then 1 else 0
  {
    var before := set j: nat | j < n && Reaches(c.attempts(j));
    var all := set j: nat | j < n + 1 && Reaches(c.attempts(j));
    assert all == if Reaches(c.attempts(n)) then before + {n} else before;
  }

  /** Attempt `k` is made and wins: every attempt before it asked for a retry. */
  ghost predicate WinsAt(c: Call, k: nat) {
    && k <= c.maxRetries
    && Judge(c.attempts(k)).Win?
    && forall j: nat :: j < k ==> Judge(c.attempts(j)).Retry?
  }

  ghost predicate Wins(c: Call) { exists k: nat :: WinsAt(c, k) }

  datatype Fate = Refused | Unreported | Success | Failure

  /** Refused by the breaker; admitted but stopped before any attempt; or run to its one report. */
  ghost function FateOf(cfg: CB.Config, rpm: int, b: CB.Breaker, dq: seq<real>, c: Call): Fate {
    if !CB.Admits(cfg, b, c.checkedAt) then Refused
    else if !RL.Grants(rpm, dq, c.limitedAt) || !c.contextValid then Unreported
    else if Wins(c) then Success
    else Failure
  }

  /** The breaker events a call emits. */
  ghost function Emitted(fate: Fate, c: Call): seq<CB.Event> {
    [CB.Check(c.checkedAt)] +
    match fate
    case Success => [CB.Succeeded(c.reportedAt)]
    case Failure => [CB.Failed(c.reportedAt)]
    case _ => []
  }

  /** What the retry loop gives: the text of the first attempt made that yields one, after only retried
      ones; nothing after a final attempt or if all are retried; and how many attempts were executed. */
  ghost predicate Outcome(c: Call, won: bool, text: string, executions: nat) {
    && (forall k: nat, t :: IsMade(c, k) && Yields(c.attempts(k), t) ==>
          won && text == t && executions == ExecutedOf(c, k + 1))
    && (forall k: nat :: IsMade(c, k) && IsFinal(c.attempts(k)) ==>
          !won && text == "" && executions == ExecutedOf(c, k + 1))
    && ((forall k: nat :: k <= c.maxRetries ==> IsRetried(c.attempts(k))) ==>
          !won && text == "" && executions == ExecutedOf(c, if c.maxRetries < 0 then 0 else c.maxRetries + 1))
  }

  /** Only one attempt can be the last one made. */
  lemma LastMade(c: Call, k: nat, n: nat)
    requires IsMade(c, k) && IsMade(c, n) && !IsRetried(c.attempts(k)) && !IsRetried(c.attempts(n))
    ensures k == n
  {
  }

  lemma EndsAt(c: Call, n: nat, won: bool, text: string, executions: nat)
    requires IsMade(c, n) && executions == ExecutedOf(c, n + 1)
    requires if won then Yields(c.attempts(n), text) else IsFinal(c.attempts(n)) && text == ""
    ensures Outcome(c, won, text, executions)
  {
    forall k: nat | IsMade(c, k) && !IsRetried(c.attempts(k))
      ensures k == n
    {
      LastMade(c, k, n);
    }
  }

  /** The retry loop: it stops at the first win, at the first attempt that must not be retried, or
      after `maxRetries + 1` attempts. */
  method RunAttempts(c: Call) returns (won: bool, text: string, executions: nat)
    ensures Outcome(c, won, text, executions)
    ensures won <==> Wins(c)
    ensures won ==> exists k: nat :: WinsAt(c, k) && Judge(c.attempts(k)) == Win(text)
    ensures won <==> text != ""
    ensures executions <= (if c.maxRetries < 0 then 0 else c.maxRetries + 1)
  {
    text, executions := "", 0;
    var attempt: nat := 0;
    while attempt < c.maxRetries + 1
      invariant executions == ExecutedOf(c, attempt) <= attempt && (attempt == 0 || attempt <= c.maxRetries + 1)
      invariant forall j: nat :: j < attempt ==> IsRetried(c.attempts(j)) && Judge(c.attempts(j)).Retry?
      decreases c.maxRetries + 1 - attempt
    {
      var a := c.attempts(attempt);
      JudgeByOutcome(a);
      ExecutedSnoc(c, attempt);
      if Executes(a) {
        executions := executions + 1;
      }
      match Judge(a)
      case Win(t) =>
        assert WinsAt(c, attempt);
        EndsAt(c, attempt, true, t, executions);
        return true, t, executions;
      case Stop =>
        EndsAt(c, attempt, false, "", executions);
        return false, "", executions;
      case Retry =>
        attempt := attempt + 1;
    }
    won := false;
  }

  /** Nothing recorded about another provider has changed. */
  twostate predicate OthersKept(r: Resilience, p: string)
    reads r
  {
    forall q :: q != p ==>
      && r.BreakerOf(q) == old(r.BreakerOf(q))
      && WindowOf(r.rateWindow, q) == old(WindowOf(r.rateWindow, q))
      && WindowOf(r.successWindow, q) == old(WindowOf(r.successWindow, q))
      && WindowOf(r.failureWindow, q) == old(WindowOf(r.failureWindow, q))
  }

  /** The breaker, then the rate limit, then the context check. */
  method PassGates(r: Resilience, cfg: CB.Config, rpm: int, c: Call) returns (passed: bool, ghost fate: Fate)
    modifies r`failures, r`open, r`rateWindow
    ensures fate == if !CB.Admits(cfg, old(r.BreakerOf(c.provider)), c.checkedAt) then Refused else Unreported
    ensures passed <==> fate.Unreported? && c.contextValid &&
                        RL.Grants(rpm, old(WindowOf(r.rateWindow, c.provider)), c.limitedAt)
    ensures r.BreakerOf(c.provider) == CB.Step(cfg, old(r.BreakerOf(c.provider)), CB.Check(c.checkedAt))
    ensures fate.Refused? ==> r.rateWindow == old(r.rateWindow)
    ensures fate.Unreported? ==>
              WindowOf(r.rateWindow, c.provider) ==
              RL.StepDeque(rpm, old(WindowOf(r.rateWindow, c.provider)), RL.Request(c.limitedAt))
    ensures OthersKept(r, c.provider)
  {
    var admitted := r.CheckCircuitBreaker(cfg, c.provider, c.checkedAt);
    if !admitted {
      return false, Refused;
    }
    var granted := r.CheckRateLimit(rpm, c.provider, c.limitedAt);
    return granted && c.contextValid, Unreported;
  }

  /** The one report at the end; a failure reads the clock once for the breaker and once for the
      failure window. */
  method Report(r: Resilience, cfg: CB.Config, c: Call, won: bool)
    modifies r`failures, r`lastFailure, r`open, r`successWindow, r`failureWindow
    ensures r.BreakerOf(c.provider) ==
            CB.Step(cfg, old(r.BreakerOf(c.provider)), if won then CB.Succeeded(c.reportedAt) else CB.Failed(c.reportedAt))
    ensures WindowOf(r.successWindow, c.provider) ==
            old(WindowOf(r.successWindow, c.provider)) + if won then [c.reportedAt] else []
    ensures WindowOf(r.failureWindow, c.provider) ==
            old(WindowOf(r.failureWindow, c.provider)) + if won then [] else [c.recordedAt]
    ensures OthersKept(r, c.provider)
  {
    if won {
      r.ReportSuccess(cfg, c.provider, c.reportedAt);
    } else {
      r.ReportFailure(cfg, c.provider, c.reportedAt, c.recordedAt);
    }
  }

  /** One call. It executes at most `maxRetries + 1` attempts and, once past both gates and the
      context check, reports exactly one success or one failure; otherwise it reports nothing. */
  method CallLlm(r: Resilience, cfg: CB.Config, rpm: int, c: Call)
    returns (text: string, executions: nat, ghost fate: Fate)
    modifies r
    ensures fate == FateOf(cfg, rpm, old(r.BreakerOf(c.provider)), old(WindowOf(r.rateWindow, c.provider)), c)
    ensures r.BreakerOf(c.provider) == CB.Replay(cfg, old(r.BreakerOf(c.provider)), Emitted(fate, c))
    ensures OthersKept(r, c.provider)
    ensures executions <= (if c.maxRetries < 0 then 0 else c.maxRetries + 1)
    ensures fate.Refused? || fate.Unreported? ==> executions == 0
    ensures CB.Admits(cfg, old(r.BreakerOf(c.provider)), c.checkedAt) && c.contextValid &&
            RL.Grants(rpm, old(WindowOf(r.rateWindow, c.provider)), c.limitedAt) ==>
              (fate.Success? || fate.Failure?) && Outcome(c, fate.Success?, text, executions)
    ensures fate.Success? <==> text != ""
    ensures fate.Success? ==> exists k: nat :: WinsAt(c, k) && Judge(c.attempts(k)) == Win(text)
    ensures fate.Refused? ==> r.rateWindow == old(r.rateWindow)
    ensures !fate.Refused? ==>
              WindowOf(r.rateWindow, c.provider) ==
              RL.StepDeque(rpm, old(WindowOf(r.rateWindow, c.provider)), RL.Request(c.limitedAt))
    ensures WindowOf(r.successWindow, c.provider) ==
            old(WindowOf(r.successWindow, c.provider)) + if fate.Success? then [c.reportedAt] else []
    ensures WindowOf(r.failureWindow, c.provider) ==
            old(WindowOf(r.failureWindow, c.provider)) + if fate.Failure? then [c.recordedAt] else []
  {
    text, executions := "", 0;
    ReplayEmitted(cfg, r.BreakerOf(c.provider), c);
    var passed;
    passed, fate := PassGates(r, cfg, rpm, c);
    if !passed {
      return;
    }
    var won;
    won, text, executions := RunAttempts(c);
    Report(r, cfg, c, won);
    fate := if won then Success else Failure;
  }

  lemma ReplayEmitted(cfg: CB.Config, b: CB.Breaker, c: Call)
    ensures var checked := CB.Step(cfg, b, CB.Check(c.checkedAt));
            && CB.Replay(cfg, b, Emitted(Refused, c)) == checked
            && CB.Replay(cfg, b, Emitted(Unreported, c)) == checked
            && CB.Replay(cfg, b, Emitted(Success, c)) == CB.Step(cfg, checked, CB.Succeeded(c.reportedAt))
            && CB.Replay(cfg, b, Emitted(Failure, c)) == CB.Step(cfg, checked, CB.Failed(c.reportedAt))
  {
  }

  // ---- many calls, interleaved -------------------------------------------------------------

  /** One breaker event and the call that emitted it. */
  datatype Entry = Entry(call: nat, event: CB.Event)

  function Events(h: seq<Entry>): seq<CB.Event> {
    seq(|h|, i requires 0 <= i < |h| => h[i].event)
  }

  function ByCall(h: seq<Entry>, id: nat): seq<CB.Event> {
    if h == [] then []
    else ByCall(h[..|h| - 1], id) + if h[|h| - 1].call == id then [h[|h| - 1].event] else []
  }

  /** A history of one provider in which each call has so far emitted a prefix of what a call emits. */
  ghost predicate Interleaving(h: seq<Entry>) {
    forall id: nat :: exists fate: Fate, c: Call :: ByCall(h, id) <= Emitted(fate, c)
  }

  function Reports(es: seq<CB.Event>): nat {
    if es == [] then 0 else Reports(es[..|es| - 1]) + if es[|es| - 1].Check? then 0 else 1
  }

  lemma {:induction false} ReportsOfPrefix(es: seq<CB.Event>, n: nat)
    requires n <= |es|
    ensures Reports(es[..n]) <= Reports(es)
  {
    if n < |es| {
      ReportsOfPrefix(es[..|es| - 1], n);
      assert es[..|es| - 1][..n] == es[..n];
    } else {
      assert es[..n] == es;
    }
  }

  lemma EmittedOnce(fate: Fate, c: Call)
    ensures Reports(Emitted(fate, c)) <= 1
  {
    var es := Emitted(fate, c);
    assert es[..1] == [CB.Check(c.checkedAt)];
    assert es[..1][..0] == [];
    assert Reports(es[..1]) == 0;
    if |es| == 1 {
      assert es == es[..1];
    }
  }

  lemma {:induction false} EntryIsReported(h: seq<Entry>, i: nat)
    requires i < |h| && !h[i].event.Check?
    ensures Reports(ByCall(h, h[i].call)) >= 1
  {
    var n := |h| - 1;
    var id := h[i].call;
    if i < n {
      EntryIsReported(h[..n], i);
    }
    ReportsGrow(h, id);
  }

  lemma ReportsGrow(h: seq<Entry>, id: nat)
    requires h != []
    ensures var n := |h| - 1;
            Reports(ByCall(h, id)) == Reports(ByCall(h[..n], id)) +
            if h[n].call == id && !h[n].event.Check? then 1 else 0
  {
    var n := |h| - 1;
    var b := ByCall(h[..n], id);
    if h[n].call == id {
      assert (b + [h[n].event])[..|b|] == b;
    } else {
      assert b + [] == b;
    }
  }

  /** No two reports of an interleaving come from the same call. */
  lemma {:induction false} ReportsDistinct(h: seq<Entry>, i: nat, j: nat)
    requires i < j < |h| && !h[i].event.Check? && !h[j].event.Check?
    requires h[i].call == h[j].call
    ensures Reports(ByCall(h, h[i].call)) >= 2
  {
    var n := |h| - 1;
    ReportsGrow(h, h[i].call);
    if j < n {
      ReportsDistinct(h[..n], i, j);
    } else {
      EntryIsReported(h[..n], i);
    }
  }

  /** The calls among `h` that reported a failure. */
  function FailedCalls(h: seq<Entry>): set<nat> {
    if h == [] then {}
    else FailedCalls(h[..|h| - 1]) + if h[|h| - 1].event.Failed? then {h[|h| - 1].call} else {}
  }

  lemma {:induction false} FailedCallReported(h: seq<Entry>, id: nat)
    ensures id in FailedCalls(h) <==> exists i :: 0 <= i < |h| && h[i].event.Failed? && h[i].call == id
  {
    if h != [] {
      var n := |h| - 1;
      FailedCallReported(h[..n], id);
      if id in FailedCalls(h[..n]) {
        var i :| 0 <= i < n && h[..n][i].event.Failed? && h[..n][i].call == id;
        assert h[i].event.Failed? && h[i].call == id;
      }
    }
  }

  ghost predicate FailuresDistinct(h: seq<Entry>) {
    forall i, j :: 0 <= i < j < |h| && h[i].event.Failed? && h[j].event.Failed? ==> h[i].call != h[j].call
  }

  lemma {:induction false} EachFailureIsACall(h: seq<Entry>)
    requires FailuresDistinct(h)
    ensures |FailedCalls(h)| == CB.CountFailed(Events(h))
  {
    if h != [] {
      var n := |h| - 1;
      EachFailureIsACall(h[..n]);
      assert Events(h)[..n] == Events(h[..n]);
      FailedCallReported(h[..n], h[n].call);
    }
  }

  /** Under every interleaving of calls an open breaker is backed by at least `threshold` different
      calls that each failed as a whole since the last reset, however often each one retried. */
  lemma OpenNeedsFailedCalls(cfg: CB.Config, h: seq<Entry>, from: nat)
    requires Interleaving(h)
    requires CB.IsLastReset(cfg, Events(h), from)
    ensures |FailedCalls(h[from..])| == CB.Run(cfg, Events(h)).failures
    ensures CB.Run(cfg, Events(h)).open <==> |FailedCalls(h[from..])| >= cfg.threshold
  {
    forall i, j | 0 <= i < j < |h| && !h[i].event.Check? && !h[j].event.Check?
      ensures h[i].call != h[j].call
    {
      if h[i].call == h[j].call {
        var id := h[i].call;
        ReportsDistinct(h, i, j);
        var fate: Fate, c: Call :| ByCall(h, id) <= Emitted(fate, c);
        EmittedOnce(fate, c);
        ReportsOfPrefix(Emitted(fate, c), |ByCall(h, id)|);
      }
    }
    assert FailuresDistinct(h[from..]);
    EachFailureIsACall(h[from..]);
    assert Events(h[from..]) == Events(h)[from..];
    CB.FailuresSinceReset(cfg, Events(h), from);
    CB.OpenIffThreshold(cfg, Events(h));
  }
}
