/** Sequences of clock readings: what a deque pruned from the front keeps of its full history. */
module Timeline {

  /** The clock never runs backwards. */
  ghost predicate Nondecreasing(ts: seq<real>) {
    forall i, j :: 0 <= i < j < |ts| ==> ts[i] <= ts[j]
  }

  /** The readings at or after `cutoff`, in order. */
  function Since(ts: seq<real>, cutoff: real): seq<real> {
    if ts == [] then []
    else
      var n := |ts| - 1;
      Since(ts[..n], cutoff) + if ts[n] >= cutoff then [ts[n]] else []
  }

  /** The readings in the closed interval from `lo` to `hi`. */
  function Between(ts: seq<real>, lo: real, hi: real): seq<real> {
    if ts == [] then []
    else
      var n := |ts| - 1;
      Between(ts[..n], lo, hi) + if lo <= ts[n] <= hi then [ts[n]] else []
  }

  /** What `while dq and dq[0] < cutoff: dq.popleft()` leaves. */
  function Pruned(dq: seq<real>, cutoff: real): seq<real> {
    if dq != [] && dq[0] < cutoff then Pruned(dq[1..], cutoff) else dq
  }

  function Max(a: real, b: real): real { if a < b then b else a }

  lemma {:induction false} SinceAll(ts: seq<real>, cutoff: real)
    requires forall i :: 0 <= i < |ts| ==> ts[i] >= cutoff
    ensures Since(ts, cutoff) == ts
  {
    if ts != [] {
      SinceAll(ts[..|ts| - 1], cutoff);
    }
  }

  /** Appending the current time keeps the order, and keeps the time in every window it belongs to. */
  lemma AppendNow(ts: seq<real>, now: real, cutoff: real)
    requires Nondecreasing(ts) && forall i :: 0 <= i < |ts| ==> ts[i] <= now
    ensures Nondecreasing(ts + [now])
    ensures Since(ts + [now], cutoff) == Since(ts, cutoff) + if now >= cutoff then [now] else []
  {
  }

  lemma {:induction false} SinceDropsHead(ts: seq<real>, cutoff: real)
    requires ts != [] && ts[0] < cutoff
    ensures Since(ts, cutoff) == Since(ts[1..], cutoff)
  {
    var n := |ts| - 1;
    if n == 0 {
      assert ts[..0] == [] && ts[1..] == [];
    } else {
      SinceDropsHead(ts[..n], cutoff);
      assert ts[..n][1..] == ts[1..][..n - 1];
    }
  }

  /** Popping the front of a time-ordered deque keeps exactly the readings since the cutoff. */
  lemma {:induction false} PrunedIsSince(dq: seq<real>, cutoff: real)
    requires Nondecreasing(dq)
    ensures Pruned(dq, cutoff) == Since(dq, cutoff)
    decreases |dq|
  {
    if dq != [] && dq[0] < cutoff {
      SinceDropsHead(dq, cutoff);
      PrunedIsSince(dq[1..], cutoff);
    } else {
      SinceAll(dq, cutoff);
    }
  }

  /** Every kept reading comes from the history and keeps its place in the order. */
  lemma {:induction false} SinceSound(ts: seq<real>, cutoff: real)
    requires Nondecreasing(ts)
    ensures Nondecreasing(Since(ts, cutoff))
    ensures forall t :: t in Since(ts, cutoff) ==> t in ts && t >= cutoff
    ensures forall t :: t in ts && t >= cutoff ==> t in Since(ts, cutoff)
  {
    if ts != [] {
      var n := |ts| - 1;
      SinceSound(ts[..n], cutoff);
      assert ts == ts[..n] + [ts[n]];
      forall i | 0 <= i < |Since(ts[..n], cutoff)|
        ensures Since(ts[..n], cutoff)[i] <= ts[n]
      {
        assert Since(ts[..n], cutoff)[i] in Since(ts[..n], cutoff);
      }
    }
  }

  /** Pruning twice is pruning once, at the later of the two cutoffs. */
  lemma {:induction false} SinceTwice(ts: seq<real>, a: real, b: real)
    ensures Since(Since(ts, a), b) == Since(ts, Max(a, b))
  {
    if ts != [] {
      var n := |ts| - 1;
      SinceTwice(ts[..n], a, b);
      if ts[n] >= a {
        assert (Since(ts[..n], a) + [ts[n]])[..|Since(ts[..n], a)|] == Since(ts[..n], a);
      } else {
        assert Since(ts, a) == Since(ts[..n], a);
      }
    }
  }

  lemma {:induction false} SinceAntitone(ts: seq<real>, a: real, b: real)
    requires a <= b
    ensures |Since(ts, b)| <= |Since(ts, a)|
  {
    if ts != [] {
      SinceAntitone(ts[..|ts| - 1], a, b);
    }
  }

  /** Two cutoffs keep equally many readings exactly when no reading falls between them. */
  lemma {:induction false} SameCountIffGapEmpty(ts: seq<real>, a: real, b: real)
    requires a <= b
    ensures |Since(ts, a)| == |Since(ts, b)| <==> forall i :: 0 <= i < |ts| ==> !(a <= ts[i] < b)
  {
    if ts != [] {
      var n := |ts| - 1;
      SameCountIffGapEmpty(ts[..n], a, b);
      SinceAntitone(ts[..n], a, b);
      assert forall i :: 0 <= i < n ==> ts[..n][i] == ts[i];
    }
  }

  /** With every reading at most `hi`, an interval ending at `hi` is a suffix window. */
  lemma {:induction false} BetweenIsSince(ts: seq<real>, lo: real, hi: real)
    requires forall i :: 0 <= i < |ts| ==> ts[i] <= hi
    ensures Between(ts, lo, hi) == Since(ts, lo)
  {
    if ts != [] {
      var n := |ts| - 1;
      BetweenIsSince(ts[..n], lo, hi);
    }
  }

  lemma {:induction false} BetweenNarrows(ts: seq<real>, lo: real, hi: real, lo': real, hi': real)
    requires lo' <= lo && hi <= hi'
    ensures |Between(ts, lo, hi)| <= |Between(ts, lo', hi')|
  {
    if ts != [] {
      BetweenNarrows(ts[..|ts| - 1], lo, hi, lo', hi');
    }
  }
}
