/** The 60-second sliding-window limiter of one provider (agent/llm_resilience.py). */
module RateLimiter {
  import opened Timeline

  const WINDOW := 60.0

  /** `_check_rate_limit` and `get_rate_limit_state`; both prune the deque. */
  datatype Event = Request(at: real) | Query(at: real)

  /** The deque, and beside it every admission ever recorded. */
  datatype State = State(dq: seq<real>, admitted: seq<real>)

  predicate Grants(rpm: int, dq: seq<real>, now: real) {
    rpm <= 0 || |Pruned(dq, now - WINDOW)| < rpm
  }

  /** The deque after one event; a disabled limiter (`rpm <= 0`) leaves it alone on a request. */
  function StepDeque(rpm: int, dq: seq<real>, e: Event): seq<real> {
    match e
    case Query(now) => Pruned(dq, now - WINDOW)
    case Request(now) =>
      if rpm <= 0 then dq
      else Pruned(dq, now - WINDOW) + if Grants(rpm, dq, now) then [now] else []
  }

  function Step(rpm: int, s: State, e: Event): State {
    State(StepDeque(rpm, s.dq, e),
          s.admitted + if e.Request? && Grants(rpm, s.dq, e.at) then [e.at] else [])
  }

  function Run(rpm: int, es: seq<Event>): State {
    if es == [] then State([], []) else Step(rpm, Run(rpm, es[..|es| - 1]), es[|es| - 1])
  }

  ghost predicate Clocked(es: seq<Event>) {
    forall i, j :: 0 <= i < j < |es| ==> es[i].at <= es[j].at
  }

  /** Requests alone, state queries removed. */
  function Requests(es: seq<Event>): seq<Event> {
    if es == [] then []
    else Requests(es[..|es| - 1]) + if es[|es| - 1].Request? then [es[|es| - 1]] else []
  }

  /** No time in the history is after `now`. */
  ghost predicate UpTo(ts: seq<real>, now: real) {
    forall i :: 0 <= i < |ts| ==> ts[i] <= now
  }

  /** The pruned deque is the full admission history since the cutoff of the last event. */
  ghost predicate Windowed(s: State, now: real) {
    && Nondecreasing(s.admitted)
    && UpTo(s.admitted, now)
    && s.dq == Since(s.admitted, now - WINDOW)
  }

  /** Pruning at a later time gives the admissions of the closed last 60 seconds. */
  lemma PruneAtNow(s: State, was: real, now: real)
    requires Windowed(s, was) && was <= now
    ensures Pruned(s.dq, now - WINDOW) == Since(s.admitted, now - WINDOW)
                                       == Between(s.admitted, now - WINDOW, now)
  {
    BetweenIsSince(s.admitted, now - WINDOW, now);
    SinceSound(s.admitted, was - WINDOW);
    PrunedIsSince(s.dq, now - WINDOW);
    SinceTwice(s.admitted, was - WINDOW, now - WINDOW);
  }

  lemma StepKeepsWindow(rpm: int, s: State, was: real, e: Event)
    requires rpm > 0 && Windowed(s, was) && was <= e.at
    ensures Windowed(Step(rpm, s, e), e.at)
  {
    PruneAtNow(s, was, e.at);
    var s', kept := Step(rpm, s, e), Since(s.admitted, e.at - WINDOW);
    if e.Request? && Grants(rpm, s.dq, e.at) {
      assert s'.admitted == s.admitted + [e.at] && s'.dq == kept + [e.at];
      AppendNow(s.admitted, e.at, e.at - WINDOW);
    } else {
      assert s'.admitted == s.admitted && s'.dq == kept;
    }
  }

  /** Every run keeps the window, whatever mix of requests and queries it makes. */
  lemma {:induction false} DequeIsWindow(rpm: int, es: seq<Event>, now: real)
    requires rpm > 0 && Clocked(es)
    requires if es == [] then true else es[|es| - 1].at == now
    ensures Windowed(Run(rpm, es), now)
  {
    if es != [] {
      var n := |es| - 1;
      var was := if n == 0 then now else es[n - 1].at;
      DequeIsWindow(rpm, es[..n], was);
      StepKeepsWindow(rpm, Run(rpm, es[..n]), was, es[n]);
    }
  }

  /** A request is decided by the admissions of the closed last 60 seconds, and nothing else. */
  lemma DecisionByHistory(rpm: int, es: seq<Event>, now: real)
    requires rpm > 0 && Clocked(es)
    requires es != [] ==> es[|es| - 1].at <= now
    ensures Grants(rpm, Run(rpm, es).dq, now) <==>
            |Between(Run(rpm, es).admitted, now - WINDOW, now)| < rpm
  {
    var was := if es == [] then now else es[|es| - 1].at;
    DequeIsWindow(rpm, es, was);
    PruneAtNow(Run(rpm, es), was, now);
  }

  /** One more admission keeps every closed 60-second interval within the limit: its own window
      holds all the others. */
  lemma OneMore(rpm: int, es: seq<Event>, now: real, a: real)
    requires rpm > 0 && Clocked(es)
    requires es != [] ==> es[|es| - 1].at <= now
    requires Grants(rpm, Run(rpm, es).dq, now)
    requires a <= now <= a + WINDOW
    ensures |Between(Run(rpm, es).admitted, a, a + WINDOW)| < rpm
  {
    var was := if es == [] then now else es[|es| - 1].at;
    var before := Run(rpm, es).admitted;
    DequeIsWindow(rpm, es, was);
    DecisionByHistory(rpm, es, now);
    BetweenUpTo(before, a, now, a + WINDOW);
    BetweenNarrows(before, a, now, now - WINDOW, now);
  }

  /** Every closed 60-second interval of every run holds at most `rpm` admissions. */
  lemma {:induction false} AtMostRpm(rpm: int, es: seq<Event>, a: real)
    requires rpm > 0 && Clocked(es)
    ensures |Between(Run(rpm, es).admitted, a, a + 60.0)| <= rpm
  {
    if es != [] {
      var n := |es| - 1;
      var before, now := Run(rpm, es[..n]), es[n].at;
      AtMostRpm(rpm, es[..n], a);
      if es[n].Request? && Grants(rpm, before.dq, now) {
        assert (before.admitted + [now])[..|before.admitted|] == before.admitted;
        if a <= now <= a + WINDOW {
          OneMore(rpm, es[..n], now, a);
        }
      } else {
        assert Run(rpm, es).admitted == before.admitted;
      }
    }
  }

  lemma {:induction false} BetweenUpTo(ts: seq<real>, lo: real, now: real, hi: real)
    requires UpTo(ts, now) && now <= hi
    ensures Between(ts, lo, hi) == Between(ts, lo, now)
  {
    if ts != [] {
      BetweenUpTo(ts[..|ts| - 1], lo, now, hi);
    }
  }

  /** A call is refused exactly when `rpm` admissions already lie in the last 60 seconds. */
  lemma RefusedIffFull(rpm: int, es: seq<Event>, now: real)
    requires rpm > 0 && Clocked(es)
    requires es != [] ==> es[|es| - 1].at <= now
    ensures !Grants(rpm, Run(rpm, es).dq, now) <==>
            |Between(Run(rpm, es).admitted, now - 60.0, now)| == rpm
  {
    DecisionByHistory(rpm, es, now);
    AtMostRpm(rpm, es, now - WINDOW);
  }

  /** A limit of zero or less admits everything and records nothing. */
  lemma {:induction false} DisabledAdmitsAll(rpm: int, es: seq<Event>, now: real)
    requires rpm <= 0
    ensures Grants(rpm, Run(rpm, es).dq, now) && Run(rpm, es).dq == []
  {
    if es != [] {
      DisabledAdmitsAll(rpm, es[..|es| - 1], now);
    }
  }

  /** Removing queries keeps the clock. */
  lemma {:induction false} RequestsClocked(es: seq<Event>)
    requires Clocked(es)
    ensures Clocked(Requests(es))
    ensures es != [] ==> forall i :: 0 <= i < |Requests(es)| ==> Requests(es)[i].at <= es[|es| - 1].at
  {
    if es != [] {
      RequestsClocked(es[..|es| - 1]);
    }
  }

  /** Two histories with the same admissions decide the next request alike. */
  lemma SameDecision(rpm: int, a: seq<Event>, b: seq<Event>, now: real)
    requires rpm > 0 && Clocked(a) && Clocked(b)
    requires (a != [] ==> a[|a| - 1].at <= now) && (b != [] ==> b[|b| - 1].at <= now)
    requires Run(rpm, a).admitted == Run(rpm, b).admitted
    ensures Grants(rpm, Run(rpm, a).dq, now) <==> Grants(rpm, Run(rpm, b).dq, now)
  {
    DecisionByHistory(rpm, a, now);
    DecisionByHistory(rpm, b, now);
  }

  lemma AdmittedSnoc(rpm: int, es: seq<Event>, e: Event)
    ensures Run(rpm, es + [e]).admitted ==
            Run(rpm, es).admitted + if e.Request? && Grants(rpm, Run(rpm, es).dq, e.at) then [e.at] else []
  {
  }

  /** Interleaved state queries change no decision: every run admits what its requests alone admit. */
  lemma {:induction false} QueriesIrrelevant(rpm: int, es: seq<Event>)
    requires rpm > 0 && Clocked(es)
    ensures Run(rpm, es).admitted == Run(rpm, Requests(es)).admitted
  {
    if es != [] {
      var n := |es| - 1;
      var init, e := es[..n], es[n];
      QueriesIrrelevant(rpm, init);
      RequestsClocked(init);
      assert es == init + [e];
      AdmittedSnoc(rpm, init, e);
      if e.Request? {
        SameDecision(rpm, init, Requests(init), e.at);
        AdmittedSnoc(rpm, Requests(init), e);
      } else {
        assert Requests(es) == Requests(init);
      }
    }
  }
}
