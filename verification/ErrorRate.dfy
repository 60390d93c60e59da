/** One of a provider's two error-rate deques, pruned destructively by every query (agent/llm_resilience.py). */
module ErrorRate {
  import opened Timeline

  /** A report appends the current time; a query drops everything older than its own window. */
  datatype Event = Report(at: real) | Query(at: real, window: real)

  /** The deque, and beside it every report ever made. */
  datatype State = State(dq: seq<real>, reports: seq<real>)

  function Step(s: State, e: Event): State {
    match e
    case Report(now) => State(s.dq + [now], s.reports + [now])
    case Query(now, window) => s.(dq := Pruned(s.dq, now - window))
  }

  function Run(es: seq<Event>): State {
    if es == [] then State([], []) else Step(Run(es[..|es| - 1]), es[|es| - 1])
  }

  /** A nondecreasing clock and non-negative windows. */
  ghost predicate Clocked(es: seq<Event>) {
    && (forall i, j :: 0 <= i < j < |es| ==> es[i].at <= es[j].at)
    && (forall i :: 0 <= i < |es| && es[i].Query? ==> es[i].window >= 0.0)
  }

  /** The latest cutoff any query has used, if there was a query. */
  datatype Floor = Unpruned | PrunedAt(cutoff: real)

  function NextFloor(floor: Floor, e: Event): Floor {
    if e.Report? then floor
    else PrunedAt(if floor.Unpruned? then e.at - e.window else Max(floor.cutoff, e.at - e.window))
  }

  function LatestCutoff(es: seq<Event>): Floor {
    if es == [] then Unpruned else NextFloor(LatestCutoff(es[..|es| - 1]), es[|es| - 1])
  }

  function Kept(reports: seq<real>, floor: Floor): seq<real> {
    if floor.Unpruned? then reports else Since(reports, floor.cutoff)
  }

  ghost predicate UpTo(s: State, floor: Floor, now: real) {
    && (forall i :: 0 <= i < |s.reports| ==> s.reports[i] <= now)
    && (floor.PrunedAt? ==> floor.cutoff <= now)
  }

  lemma QueryStep(reports: seq<real>, dq: seq<real>, floor: Floor, cutoff: real)
    requires Nondecreasing(reports) && dq == Kept(reports, floor)
    ensures Pruned(dq, cutoff) ==
            Since(reports, if floor.Unpruned? then cutoff else Max(floor.cutoff, cutoff))
  {
    if floor.PrunedAt? {
      SinceSound(reports, floor.cutoff);
      SinceTwice(reports, floor.cutoff, cutoff);
    }
    PrunedIsSince(dq, cutoff);
  }

  ghost predicate History(s: State, floor: Floor) {
    Nondecreasing(s.reports) && s.dq == Kept(s.reports, floor)
  }

  lemma StepKeepsHistory(s: State, floor: Floor, e: Event)
    requires History(s, floor) && UpTo(s, floor, e.at) && (e.Query? ==> e.window >= 0.0)
    ensures History(Step(s, e), NextFloor(floor, e)) && UpTo(Step(s, e), NextFloor(floor, e), e.at)
  {
    if e.Query? {
      QueryStep(s.reports, s.dq, floor, e.at - e.window);
    } else {
      AppendNow(s.reports, e.at, if floor.PrunedAt? then floor.cutoff else e.at);
    }
  }

  /** In every run the deque is the full report history since the latest cutoff used so far. */
  lemma {:induction false} DequeIsHistory(es: seq<Event>, now: real)
    requires Clocked(es)
    requires es != [] ==> es[|es| - 1].at <= now
    ensures History(Run(es), LatestCutoff(es)) && UpTo(Run(es), LatestCutoff(es), now)
  {
    if es != [] {
      var n := |es| - 1;
      DequeIsHistory(es[..n], es[n].at);
      StepKeepsHistory(Run(es[..n]), LatestCutoff(es[..n]), es[n]);
    }
  }

  /** The count a query at time `now` returns. */
  function Count(es: seq<Event>, now: real, window: real): nat {
    |Run(es + [Query(now, window)]).dq|
  }

  /** A query counts the reports since the latest cutoff, its own or an earlier query's. */
  lemma QueryCount(es: seq<Event>, now: real, window: real)
    requires Clocked(es)
    requires es != [] ==> es[|es| - 1].at <= now
    ensures var floor := LatestCutoff(es);
            Count(es, now, window) ==
            |Since(Run(es).reports, if floor.Unpruned? then now - window else Max(floor.cutoff, now - window))|
  {
    DequeIsHistory(es, now);
    QueryStep(Run(es).reports, Run(es).dq, LatestCutoff(es), now - window);
    assert (es + [Query(now, window)])[..|es|] == es;
  }

  /** So a query never over-counts; it is exact when no earlier cutoff is later than its own; and in
      general it is exact precisely when no report lies between its cutoff and the latest earlier one. */
  lemma QueryExactIff(es: seq<Event>, now: real, window: real)
    requires Clocked(es)
    requires es != [] ==> es[|es| - 1].at <= now
    ensures var reports, cutoff, floor := Run(es).reports, now - window, LatestCutoff(es);
            && Count(es, now, window) <= |Since(reports, cutoff)|
            && (Count(es, now, window) == |Since(reports, cutoff)| <==>
                floor.Unpruned? || forall i :: 0 <= i < |reports| ==> !(cutoff <= reports[i] < floor.cutoff))
  {
    QueryCount(es, now, window);
    var reports, cutoff, floor := Run(es).reports, now - window, LatestCutoff(es);
    if floor.PrunedAt? {
      var later := Max(floor.cutoff, cutoff);
      SinceAntitone(reports, cutoff, later);
      SameCountIffGapEmpty(reports, cutoff, later);
    }
  }

  /** A narrow query makes a later wide one miss reports that are still in its window. */
  lemma NarrowThenWide()
    ensures var es := [Report(0.0), Query(10.0, 5.0)];
            Clocked(es) && Count(es, 10.0, 60.0) == 0 && |Since(Run(es).reports, 10.0 - 60.0)| == 1
  {
    var es := [Report(0.0), Query(10.0, 5.0)];
    assert es[..1] == [Report(0.0)] && es[..1][..0] == [];
    assert Run(es[..1]) == State([0.0], [0.0]);
    assert Run(es) == State([], [0.0]);
    assert (es + [Query(10.0, 60.0)])[..2] == es;
    assert [0.0][..0] == [];
  }
}
