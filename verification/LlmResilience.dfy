/** The module-level state of agent/llm_resilience.py: breaker dictionaries and per-provider deques. */
module LlmResilience {
  import opened Timeline
  import CB = CircuitBreaker
  import RL = RateLimiter

  /** A `defaultdict` of deques read at `p`. */
  function WindowOf(windows: map<string, seq<real>>, p: string): seq<real> {
    if p in windows then windows[p] else []
  }

  class Resilience {
    var failures: map<string, nat>
    var lastFailure: map<string, real>
    var open: map<string, bool>
    var rateWindow: map<string, seq<real>>
    var successWindow: map<string, seq<real>>
    var failureWindow: map<string, seq<real>>

    constructor ()
      ensures forall p :: BreakerOf(p) == CB.FRESH
      ensures rateWindow == successWindow == failureWindow == map[]
    {
      failures, lastFailure, open := map[], map[], map[];
      rateWindow, successWindow, failureWindow := map[], map[], map[];
    }

    function BreakerOf(p: string): CB.Breaker
      reads this
    {
      CB.Breaker(if p in failures then failures[p] else 0,
                 if p in lastFailure then lastFailure[p] else 0.0,
                 if p in open then open[p] else false)
    }

    method CheckCircuitBreaker(cfg: CB.Config, p: string, now: real) returns (admitted: bool)
      modifies this`failures, this`open
      ensures admitted == CB.Admits(cfg, old(BreakerOf(p)), now)
      ensures BreakerOf(p) == CB.Step(cfg, old(BreakerOf(p)), CB.Check(now))
      ensures forall q :: q != p ==> BreakerOf(q) == old(BreakerOf(q))
    {
      var b := BreakerOf(p);
      if b.open {
        if now - b.lastFailure > cfg.recovery {
          open := open[p := false];
          failures := failures[p := 0];
          return true;
        }
        return false;
      }
      return true;
    }

    method ReportFailure(cfg: CB.Config, p: string, now: real, recordedAt: real)
      modifies this`failures, this`lastFailure, this`open, this`failureWindow
      ensures BreakerOf(p) == CB.Step(cfg, old(BreakerOf(p)), CB.Failed(now))
      ensures forall q :: q != p ==> BreakerOf(q) == old(BreakerOf(q))
      ensures failureWindow == old(failureWindow)[p := old(WindowOf(failureWindow, p)) + [recordedAt]]
    {
      failures := failures[p := BreakerOf(p).failures + 1];
      lastFailure := lastFailure[p := now];
      if failures[p] >= cfg.threshold {
        if !BreakerOf(p).open {
          open := open[p := true];
        }
      }
      failureWindow := failureWindow[p := WindowOf(failureWindow, p) + [recordedAt]];
    }

    method ReportSuccess(cfg: CB.Config, p: string, now: real)
      modifies this`failures, this`open, this`successWindow
      ensures BreakerOf(p) == CB.Step(cfg, old(BreakerOf(p)), CB.Succeeded(now))
      ensures forall q :: q != p ==> BreakerOf(q) == old(BreakerOf(q))
      ensures successWindow == old(successWindow)[p := old(WindowOf(successWindow, p)) + [now]]
    {
      failures := failures[p := 0];
      open := open[p := false];
      successWindow := successWindow[p := WindowOf(successWindow, p) + [now]];
    }

    method CheckRateLimit(rpm: int, p: string, now: real) returns (granted: bool)
      modifies this`rateWindow
      ensures granted == RL.Grants(rpm, old(WindowOf(rateWindow, p)), now)
      ensures WindowOf(rateWindow, p) == RL.StepDeque(rpm, old(WindowOf(rateWindow, p)), RL.Request(now))
      ensures forall q :: q != p ==> WindowOf(rateWindow, q) == old(WindowOf(rateWindow, q))
    {
      if rpm <= 0 {
        return true;
      }
      var dq := PopExpired(WindowOf(rateWindow, p), now - RL.WINDOW);
      rateWindow := rateWindow[p := dq];
      if |dq| >= rpm {
        return false;
      }
      rateWindow := rateWindow[p := dq + [now]];
      return true;
    }

    method GetRateLimitState(p: string, now: real) returns (count: nat)
      modifies this`rateWindow
      ensures WindowOf(rateWindow, p) == RL.StepDeque(0, old(WindowOf(rateWindow, p)), RL.Query(now))
      ensures forall q :: q != p ==> WindowOf(rateWindow, q) == old(WindowOf(rateWindow, q))
      ensures count == |WindowOf(rateWindow, p)|
    {
      var dq := PopExpired(WindowOf(rateWindow, p), now - RL.WINDOW);
      rateWindow := rateWindow[p := dq];
      count := |dq|;
    }

    method GetProviderErrorRate(p: string, window: real, now: real)
      returns (successes: nat, failed: nat, rate: real)
      modifies this`successWindow, this`failureWindow
      ensures successWindow == old(successWindow)[p := Pruned(old(WindowOf(successWindow, p)), now - window)]
      ensures failureWindow == old(failureWindow)[p := Pruned(old(WindowOf(failureWindow, p)), now - window)]
      ensures successes == |successWindow[p]| && failed == |failureWindow[p]|
      ensures rate * (successes + failed) as real == failed as real
      ensures successes + failed == 0 ==> rate == 0.0
    {
      var s := PopExpired(WindowOf(successWindow, p), now - window);
      var f := PopExpired(WindowOf(failureWindow, p), now - window);
      successWindow := successWindow[p := s];
      failureWindow := failureWindow[p := f];
      successes, failed := |s|, |f|;
      rate := if successes + failed > 0 then failed as real / (successes + failed) as real else 0.0;
    }
  }

  /** The `popleft` loop shared by the limiter and the error-rate windows. */
  method PopExpired(dq: seq<real>, cutoff: real) returns (kept: seq<real>)
    ensures kept == Pruned(dq, cutoff)
  {
    kept := dq;
    while kept != [] && kept[0] < cutoff
      invariant Pruned(kept, cutoff) == Pruned(dq, cutoff)
      decreases |kept|
    {
      kept := kept[1..];
    }
  }
}
