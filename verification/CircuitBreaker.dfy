/** The circuit breaker of one provider, as a machine over the calls made to it (agent/llm_resilience.py). */
module CircuitBreaker {

  datatype RawConfig = Config(threshold: int, recovery: real)

  /** `_cb_config` clamps the threshold to at least 1 and the recovery time to at least 5 seconds. */
  type Config = c: RawConfig | c.threshold >= 1 && c.recovery >= 5.0 witness Config(5, 60.0)

  datatype Breaker = Breaker(failures: nat, lastFailure: real, open: bool)

  const FRESH := Breaker(0, 0.0, false)

  datatype Event = Check(at: real) | Failed(at: real) | Succeeded(at: real)

  predicate Admits(cfg: Config, b: Breaker, now: real) {
    b.open ==> now - b.lastFailure > cfg.recovery
  }

  function Step(cfg: Config, b: Breaker, e: Event): Breaker {
    match e
    case Check(now) =>
      if b.open && Admits(cfg, b, now) then b.(open := false, failures := 0) else b
    case Failed(now) =>
      Breaker(b.failures + 1, now, b.open || b.failures + 1 >= cfg.threshold)
    case Succeeded(_) =>
      b.(failures := 0, open := false)
  }

  function Run(cfg: Config, es: seq<Event>): Breaker {
    if es == [] then FRESH else Step(cfg, Run(cfg, es[..|es| - 1]), es[|es| - 1])
  }

  /** Continuing from breaker `b`. */
  function Replay(cfg: Config, b: Breaker, es: seq<Event>): Breaker {
    if es == [] then b else Step(cfg, Replay(cfg, b, es[..|es| - 1]), es[|es| - 1])
  }

  ghost predicate Clocked(es: seq<Event>) {
    forall i, j :: 0 <= i < j < |es| ==> es[i].at <= es[j].at
  }

  function CountFailed(es: seq<Event>): nat {
    if es == [] then 0
    else CountFailed(es[..|es| - 1]) + if es[|es| - 1].Failed? then 1 else 0
  }

  /** Failure reports made at or after time `t`. */
  function CountFailedSince(es: seq<Event>, t: real): nat {
    if es == [] then 0
    else
      var e := es[|es| - 1];
      CountFailedSince(es[..|es| - 1], t) + if e.Failed? && e.at >= t then 1 else 0
  }

  /** The part of the history after the last reported success. */
  function AfterSuccess(es: seq<Event>): seq<Event> {
    if es == [] || es[|es| - 1].Succeeded? then []
    else AfterSuccess(es[..|es| - 1]) + [es[|es| - 1]]
  }

  /** Event `k` is a check that finds the breaker open and lets the call through. */
  ghost predicate HalfOpens(cfg: Config, es: seq<Event>, k: nat)
    requires k < |es|
  {
    es[k].Check? && Run(cfg, es[..k]).open && Admits(cfg, Run(cfg, es[..k]), es[k].at)
  }

  ghost predicate Resets(cfg: Config, es: seq<Event>, k: nat)
    requires k < |es|
  {
    es[k].Succeeded? || HalfOpens(cfg, es, k)
  }

  /** `from` is the position just after the last reset of the history. */
  ghost predicate IsLastReset(cfg: Config, es: seq<Event>, from: nat) {
    && from <= |es|
    && (from == 0 || Resets(cfg, es, from - 1))
    && forall k :: from <= k < |es| ==> !Resets(cfg, es, k)
  }

  /** Every history has a last reset, or starts fresh. */
  lemma {:induction false} LastResetExists(cfg: Config, es: seq<Event>, n: nat) returns (from: nat)
    requires n <= |es|
    requires forall k :: n <= k < |es| ==> !Resets(cfg, es, k)
    ensures IsLastReset(cfg, es, from)
    decreases n
  {
    if n == 0 || Resets(cfg, es, n - 1) {
      from := n;
    } else {
      from := LastResetExists(cfg, es, n - 1);
    }
  }

  /** The breaker is open exactly when it has counted `threshold` failures. */
  lemma {:induction false} OpenIffThreshold(cfg: Config, es: seq<Event>)
    ensures Run(cfg, es).open <==> Run(cfg, es).failures >= cfg.threshold
  {
    if es != [] {
      OpenIffThreshold(cfg, es[..|es| - 1]);
    }
  }

  /** The counter is the number of failure reports since the last success or half-open reset. */
  lemma {:induction false} FailuresSinceReset(cfg: Config, es: seq<Event>, from: nat)
    requires IsLastReset(cfg, es, from)
    ensures Run(cfg, es).failures == CountFailed(es[from..])
  {
    if es == [] {
    } else if from == |es| {
      assert es[from..] == [];
      assert Resets(cfg, es, from - 1);
    } else {
      var n := |es| - 1;
      assert !Resets(cfg, es, n);
      forall k | 0 <= k < n
        ensures Resets(cfg, es[..n], k) <==> Resets(cfg, es, k)
      {
        assert es[..n][..k] == es[..k];
      }
      FailuresSinceReset(cfg, es[..n], from);
      assert es[from..][..n - from] == es[..n][from..];
    }
  }

  /** No failure report is later than `lastFailure`. */
  lemma {:induction false} LastFailureBounds(cfg: Config, es: seq<Event>, t: real)
    requires Clocked(es)
    requires Run(cfg, es).lastFailure < t
    ensures CountFailedSince(es, t) == 0
  {
    if es != [] {
      var n := |es| - 1;
      if es[n].Failed? {
        if n > 0 {
          NoFailureAfter(es[..n], t, es[n].at);
        }
      } else {
        LastFailureBounds(cfg, es[..n], t);
      }
    }
  }

  lemma {:induction false} NoFailureAfter(es: seq<Event>, t: real, latest: real)
    requires latest < t
    requires forall i :: 0 <= i < |es| ==> es[i].at <= latest
    ensures CountFailedSince(es, t) == 0
  {
    if es != [] {
      NoFailureAfter(es[..|es| - 1], t, latest);
    }
  }

  lemma {:induction false} AfterSuccessIsPart(es: seq<Event>, t: real)
    ensures CountFailedSince(AfterSuccess(es), t) <= CountFailedSince(es, t)
  {
    if es != [] && !es[|es| - 1].Succeeded? {
      var n := |es| - 1;
      AfterSuccessIsPart(es[..n], t);
      assert (AfterSuccess(es[..n]) + [es[n]])[..|AfterSuccess(es[..n])|] == AfterSuccess(es[..n]);
    }
  }

  /** Failures within the recovery time of `now` and after the last success are all still counted:
      a half-open reset can only have forgotten older ones. */
  lemma {:induction false} RecentFailuresCounted(cfg: Config, es: seq<Event>, now: real)
    requires Clocked(es)
    requires forall i :: 0 <= i < |es| ==> es[i].at <= now
    ensures CountFailedSince(AfterSuccess(es), now - cfg.recovery) <= Run(cfg, es).failures
  {
    if es != [] && !es[|es| - 1].Succeeded? {
      var n := |es| - 1;
      var b, since := Run(cfg, es[..n]), now - cfg.recovery;
      RecentFailuresCounted(cfg, es[..n], now);
      assert (AfterSuccess(es[..n]) + [es[n]])[..|AfterSuccess(es[..n])|] == AfterSuccess(es[..n]);
      if es[n].Check? && b.open && Admits(cfg, b, es[n].at) {
        LastFailureBounds(cfg, es[..n], since);
        AfterSuccessIsPart(es[..n], since);
      }
    }
  }

  /** A counted failure was reported after the last success. */
  lemma {:induction false} CountedAfterSuccess(cfg: Config, es: seq<Event>)
    ensures Run(cfg, es).failures <= CountFailed(AfterSuccess(es))
  {
    if es != [] && !es[|es| - 1].Succeeded? {
      var n := |es| - 1;
      CountedAfterSuccess(cfg, es[..n]);
      assert (AfterSuccess(es[..n]) + [es[n]])[..|AfterSuccess(es[..n])|] == AfterSuccess(es[..n]);
    }
  }

  /** Stated on the observable history alone: with `threshold` failure reports after the last
      success and no older than the recovery time, every check is refused. */
  lemma RefusedAfterRecentFailures(cfg: Config, es: seq<Event>, now: real)
    requires Clocked(es + [Check(now)])
    requires CountFailedSince(AfterSuccess(es), now - cfg.recovery) >= cfg.threshold
    ensures !Admits(cfg, Run(cfg, es), now)
  {
    assert forall i :: 0 <= i < |es| ==> (es + [Check(now)])[i] == es[i];
    assert Clocked(es);
    forall i | 0 <= i < |es|
      ensures es[i].at <= now
    {
      assert (es + [Check(now)])[i].at <= (es + [Check(now)])[|es|].at;
    }
    RecentFailuresCounted(cfg, es, now);
    OpenIffThreshold(cfg, es);
    if Run(cfg, es).lastFailure < now - cfg.recovery {
      LastFailureBounds(cfg, es, now - cfg.recovery);
      AfterSuccessIsPart(es, now - cfg.recovery);
    }
  }

  /** Conversely a refusal needs `threshold` failure reports after the last success, the latest of
      them no older than the recovery time. */
  lemma RefusalNeedsFailures(cfg: Config, es: seq<Event>, now: real)
    requires !Admits(cfg, Run(cfg, es), now)
    ensures CountFailed(AfterSuccess(es)) >= cfg.threshold
    ensures exists k: nat :: IsLatestFailure(AfterSuccess(es), k) && now - AfterSuccess(es)[k].at <= cfg.recovery
  {
    OpenIffThreshold(cfg, es);
    CountedAfterSuccess(cfg, es);
    LatestFailureExists(cfg, es);
  }

  ghost predicate IsLatestFailure(es: seq<Event>, k: nat) {
    k < |es| && es[k].Failed? && forall j :: k < j < |es| ==> !es[j].Failed?
  }

  /** While the breaker counts anything, the latest failure after the last success is `lastFailure`. */
  lemma {:induction false} LatestFailureExists(cfg: Config, es: seq<Event>)
    requires Run(cfg, es).failures > 0
    ensures exists k: nat :: IsLatestFailure(AfterSuccess(es), k) && AfterSuccess(es)[k].at == Run(cfg, es).lastFailure
  {
    var n := |es| - 1;
    var before, after := AfterSuccess(es[..n]), AfterSuccess(es);
    if es[n].Failed? {
      assert IsLatestFailure(after, |before|) && after[|before|] == es[n];
    } else {
      LatestFailureExists(cfg, es[..n]);
      var k: nat :| IsLatestFailure(before, k) && before[k].at == Run(cfg, es[..n]).lastFailure;
      assert after == before + [es[n]];
      assert IsLatestFailure(after, k);
    }
  }

  lemma RefusedSoonAfterFailure(cfg: Config, es: seq<Event>, now: real)
    requires Clocked(es) && Run(cfg, es).open
    requires CountFailedSince(es, now - cfg.recovery) > 0
    ensures !Admits(cfg, Run(cfg, es), now)
  {
    if Run(cfg, es).lastFailure < now - cfg.recovery {
      LastFailureBounds(cfg, es, now - cfg.recovery);
    }
  }

  /** Event `i` is no success, and if it is a check it comes within the recovery time of a failure. */
  ghost predicate Unrecovered(cfg: Config, es: seq<Event>, i: nat)
    requires i < |es|
  {
    && !es[i].Succeeded?
    && (es[i].Check? ==> CountFailedSince(es[..i], es[i].at - cfg.recovery) > 0)
  }

  /** Open after `from` events, the breaker is still open after `n`, unless a success or a check more
      than the recovery time after the latest failure report came in between. */
  lemma {:induction false} StaysOpen(cfg: Config, es: seq<Event>, from: nat, n: nat)
    requires from <= n <= |es| && Clocked(es) && Run(cfg, es[..from]).open
    requires forall i :: from <= i < n ==> Unrecovered(cfg, es, i)
    ensures Run(cfg, es[..n]).open
    decreases n
  {
    if from < n {
      StaysOpen(cfg, es, from, n - 1);
      assert es[..n][..n - 1] == es[..n - 1];
      assert Unrecovered(cfg, es, n - 1);
      if es[n - 1].Check? {
        RefusedSoonAfterFailure(cfg, es[..n - 1], es[n - 1].at);
      }
    }
  }

  /** So every check in between is refused. */
  lemma OpenRefuses(cfg: Config, es: seq<Event>, from: nat, n: nat)
    requires from <= n < |es| && Clocked(es) && Run(cfg, es[..from]).open
    requires forall i :: from <= i <= n ==> Unrecovered(cfg, es, i)
    requires es[n].Check?
    ensures !Admits(cfg, Run(cfg, es[..n]), es[n].at)
  {
    StaysOpen(cfg, es, from, n);
    assert Unrecovered(cfg, es, n);
    RefusedSoonAfterFailure(cfg, es[..n], es[n].at);
  }

  // ---- several providers -------------------------------------------------------------------

  datatype Tagged = Tagged(provider: string, event: Event)

  function At(bs: map<string, Breaker>, p: string): Breaker {
    if p in bs then bs[p] else FRESH
  }

  function RunAll(cfg: Config, es: seq<Tagged>): map<string, Breaker> {
    if es == [] then map[]
    else
      var bs, e := RunAll(cfg, es[..|es| - 1]), es[|es| - 1];
      bs[e.provider := Step(cfg, At(bs, e.provider), e.event)]
  }

  function Project(es: seq<Tagged>, p: string): seq<Event> {
    if es == [] then []
    else
      var e := es[|es| - 1];
      Project(es[..|es| - 1], p) + if e.provider == p then [e.event] else []
  }

  /** A provider's breaker depends on its own events only. */
  lemma {:induction false} ProvidersIndependent(cfg: Config, es: seq<Tagged>, p: string)
    ensures At(RunAll(cfg, es), p) == Run(cfg, Project(es, p))
  {
    if es != [] {
      var n := |es| - 1;
      ProvidersIndependent(cfg, es[..n], p);
      if es[n].provider == p {
        assert Project(es, p)[..|Project(es, p)| - 1] == Project(es[..n], p);
      } else {
        assert Project(es, p) == Project(es[..n], p);
      }
    }
  }
}
