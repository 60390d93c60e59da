/** The retained sample list of a benchmark bucket: `append_sample` (agent/llm_benchmarks.py). */
module Retention {

  datatype Sample = Sample(ts: int, success: bool, qualityPassed: bool, latencyMs: nat, tokens: nat, cost: real)

  datatype Policy = Policy(maxSamples: int, maxDays: int)

  const DAY := 86400

  function Cutoff(now: int, policy: Policy): int { now - policy.maxDays * DAY }

  /** Samples no older than `minTs`. */
  function Since(ss: seq<Sample>, minTs: int): seq<Sample> {
    if ss == [] then []
    else
      var n := |ss| - 1;
      Since(ss[..n], minTs) + if ss[n].ts >= minTs then [ss[n]] else []
  }

  /** The last `n`; none if `n` is not positive. */
  function LastN<T>(s: seq<T>, n: int): seq<T> {
    if n <= 0 then [] else if |s| <= n then s else s[|s| - n..]
  }

  function Append(stored: seq<Sample>, s: Sample, policy: Policy): seq<Sample> {
    LastN(Since(stored, Cutoff(s.ts, policy)) + [s], policy.maxSamples)
  }

  /** The stored list after recording a whole history, one sample at a time. */
  function Stored(history: seq<Sample>, policy: Policy): seq<Sample> {
    if history == [] then []
    else Append(Stored(history[..|history| - 1], policy), history[|history| - 1], policy)
  }

  ghost predicate Clocked(ss: seq<Sample>) {
    forall i, j :: 0 <= i < j < |ss| ==> ss[i].ts <= ss[j].ts
  }

  method AppendSample(samples: seq<Sample>, s: Sample, policy: Policy) returns (r: seq<Sample>)
    ensures r == Append(samples, s, policy)
  {
    var minTs := Cutoff(s.ts, policy);
    r := [];
    for i := 0 to |samples|
      invariant r == Since(samples[..i], minTs)
    {
      assert samples[..i + 1][..i] == samples[..i];
      if samples[i].ts >= minTs {
        r := r + [samples[i]];
      }
    }
    assert samples[..|samples|] == samples;
    r := r + [s];
    if |r| > policy.maxSamples {
      var drop := |r| - policy.maxSamples;
      r := if drop >= |r| then [] else r[drop..];
    }
  }

  lemma {:induction false} SinceAll(ss: seq<Sample>, minTs: int)
    requires forall i :: 0 <= i < |ss| ==> ss[i].ts >= minTs
    ensures Since(ss, minTs) == ss
  {
    if ss != [] {
      SinceAll(ss[..|ss| - 1], minTs);
    }
  }

  lemma {:induction false} SinceDropsHead(ss: seq<Sample>, minTs: int)
    requires ss != [] && ss[0].ts < minTs
    ensures Since(ss, minTs) == Since(ss[1..], minTs)
  {
    var n := |ss| - 1;
    if n == 0 {
      assert ss[..0] == [] && ss[1..] == [];
    } else {
      SinceDropsHead(ss[..n], minTs);
      assert ss[..n][1..] == ss[1..][..n - 1];
    }
  }

  lemma {:induction false} SinceTwice(ss: seq<Sample>, a: int, b: int)
    requires a <= b
    ensures Since(Since(ss, a), b) == Since(ss, b)
  {
    if ss != [] {
      var n := |ss| - 1;
      SinceTwice(ss[..n], a, b);
      if ss[n].ts >= a {
        assert (Since(ss[..n], a) + [ss[n]])[..|Since(ss[..n], a)|] == Since(ss[..n], a);
      } else {
        assert Since(ss, a) == Since(ss[..n], a);
      }
    }
  }

  lemma {:induction false} SinceClocked(ss: seq<Sample>, minTs: int)
    requires Clocked(ss)
    ensures Clocked(Since(ss, minTs))
    ensures ss != [] ==> forall i :: 0 <= i < |Since(ss, minTs)| ==> Since(ss, minTs)[i].ts <= ss[|ss| - 1].ts
  {
    if ss != [] {
      SinceClocked(ss[..|ss| - 1], minTs);
    }
  }

  lemma LastNOfTail<T>(s: seq<T>, n: int)
    requires 0 < n < |s|
    ensures LastN(s, n) == LastN(s[1..], n)
  {
  }

  /** Pruning by age and capping by number commute on a time-ordered list. */
  lemma {:induction false} PruneThenCap(ss: seq<Sample>, n: int, minTs: int)
    requires Clocked(ss)
    ensures Since(LastN(ss, n), minTs) == LastN(Since(ss, minTs), n)
    decreases |ss|
  {
    if n > 0 && |ss| > n {
      LastNOfTail(ss, n);
      if ss[0].ts < minTs {
        SinceDropsHead(ss, minTs);
        PruneThenCap(ss[1..], n, minTs);
      } else {
        SinceAll(ss, minTs);
        SinceAll(LastN(ss, n), minTs);
      }
    } else if n > 0 {
      SinceShorter(ss, minTs);
    }
  }

  lemma {:induction false} SinceShorter(ss: seq<Sample>, minTs: int)
    ensures |Since(ss, minTs)| <= |ss|
  {
    if ss != [] {
      SinceShorter(ss[..|ss| - 1], minTs);
    }
  }

  lemma CapTwice<T>(s: seq<T>, x: T, n: int)
    ensures LastN(LastN(s, n) + [x], n) == LastN(s + [x], n)
  {
  }

  /** Although it is only pruned and capped step by step, the stored list is always the last
      `maxSamples` of all samples ever recorded within `maxDays` of the latest one. */
  lemma {:induction false} StoredIsWindow(history: seq<Sample>, policy: Policy)
    requires history != [] && Clocked(history) && policy.maxDays >= 0
    ensures Stored(history, policy) ==
            LastN(Since(history, Cutoff(history[|history| - 1].ts, policy)), policy.maxSamples)
  {
    var n := |history| - 1;
    var init, s, cap := history[..n], history[n], policy.maxSamples;
    var cutoff := Cutoff(s.ts, policy);
    if n == 0 {
      assert init == [];
      assert Stored(init, policy) == [];
    } else {
      var was := Cutoff(init[n - 1].ts, policy);
      StoredIsWindow(init, policy);
      SinceClocked(init, was);
      PruneThenCap(Since(init, was), cap, cutoff);
      SinceTwice(init, was, cutoff);
      CapTwice(Since(init, cutoff), s, cap);
    }
  }

  lemma {:induction false} SinceSubset(ss: seq<Sample>, minTs: int)
    ensures forall s :: s in Since(ss, minTs) ==> s in ss
  {
    if ss != [] {
      SinceSubset(ss[..|ss| - 1], minTs);
      assert ss == ss[..|ss| - 1] + [ss[|ss| - 1]];
    }
  }

  /** Only recorded samples are stored. */
  lemma {:induction false} StoredSubset(history: seq<Sample>, policy: Policy)
    ensures forall s :: s in Stored(history, policy) ==> s in history
  {
    if history != [] {
      var n := |history| - 1;
      StoredSubset(history[..n], policy);
      SinceSubset(Stored(history[..n], policy), Cutoff(history[n].ts, policy));
      assert history == history[..n] + [history[n]];
    }
  }

  lemma StoredSnoc(history: seq<Sample>, s: Sample, policy: Policy)
    ensures Stored(history + [s], policy) == Append(Stored(history, policy), s, policy)
  {
  }

  // ---- picking by a mask -------------------------------------------------------------------

  /** The elements from `i` on that the mask picks. */
  function Pick<T>(s: seq<T>, mask: seq<bool>, i: nat): (r: seq<T>)
    requires i <= |s| == |mask|
    ensures |r| <= |s| - i
    decreases |s| - i
  {
    if i == |s| then [] else (if mask[i] then [s[i]] else []) + Pick(s, mask, i + 1)
  }

  /** The first position at or after `i` from which at most `cap` elements are picked. */
  function Cut<T>(s: seq<T>, mask: seq<bool>, cap: nat, i: nat): (q: nat)
    requires i <= |s| == |mask|
    ensures i <= q <= |s| && |Pick(s, mask, q)| <= cap
    ensures i < q ==> |Pick(s, mask, q)| == cap
    decreases |s| - i
  {
    if |Pick(s, mask, i)| <= cap then i else Cut(s, mask, cap, i + 1)
  }

  /** What the mask picks from `i` up to `j`. */
  function PickRange<T>(s: seq<T>, mask: seq<bool>, i: nat, j: nat): seq<T>
    requires i <= j <= |s| == |mask|
    decreases j - i
  {
    if i == j then [] else (if mask[i] then [s[i]] else []) + PickRange(s, mask, i + 1, j)
  }

  lemma {:induction false} PickSplits<T>(s: seq<T>, mask: seq<bool>, i: nat, j: nat)
    requires i <= j <= |s| == |mask|
    ensures Pick(s, mask, i) == PickRange(s, mask, i, j) + Pick(s, mask, j)
    decreases j - i
  {
    if i < j {
      PickSplits(s, mask, i + 1, j);
    }
  }

  lemma {:induction false} PickedBefore<T>(s: seq<T>, mask: seq<bool>, i: nat, j: nat, x: nat) returns (k: nat)
    requires i <= j <= |s| == |mask| && x < |PickRange(s, mask, i, j)|
    ensures i <= k < j && mask[k] && PickRange(s, mask, i, j)[x] == s[k]
    decreases j - i
  {
    if mask[i] && x == 0 {
      k := i;
    } else {
      k := PickedBefore(s, mask, i + 1, j, if mask[i] then x - 1 else x);
    }
  }

  /** Cutting is keeping the last `cap`. */
  lemma CutIsLastN<T>(s: seq<T>, mask: seq<bool>, n: int, i: nat)
    requires i <= |s| == |mask|
    ensures LastN(Pick(s, mask, i), n) == Pick(s, mask, Cut(s, mask, Cap(n), i))
  {
    var q := Cut(s, mask, Cap(n), i);
    PickSplits(s, mask, i, q);
    LastNIsRest(PickRange(s, mask, i, q), Pick(s, mask, q), n);
  }

  lemma LastNIsRest<T>(first: seq<T>, rest: seq<T>, n: int)
    requires if first == [] then |rest| <= Cap(n) else |rest| == Cap(n)
    ensures LastN(first + rest, n) == rest
  {
  }

  function Cap(n: int): nat { if n < 0 then 0 else n }

  lemma {:induction false} CutIff<T>(s: seq<T>, mask: seq<bool>, cap: nat, i: nat, k: nat)
    requires i <= k <= |s| == |mask|
    ensures k >= Cut(s, mask, cap, i) <==> |Pick(s, mask, k)| <= cap
    decreases |s| - i
  {
    PickSplits(s, mask, i, k);
    if |Pick(s, mask, i)| > cap && i < k {
      CutIff(s, mask, cap, i + 1, k);
    }
  }

  // ---- without a hypothesis on the clock ---------------------------------------------------

  /** No later sample's cutoff is after sample `i`. */
  ghost predicate Survives(history: seq<Sample>, policy: Policy, i: nat)
    requires i < |history|
  {
    forall j :: i < j < |history| ==> history[i].ts >= Cutoff(history[j].ts, policy)
  }

  ghost function Surviving(history: seq<Sample>, policy: Policy): (mask: seq<bool>)
    ensures |mask| == |history|
  {
    seq(|history|, i requires 0 <= i < |history| => Survives(history, policy, i))
  }

  /** The survivors from sample `i` on. */
  ghost function Survivors(history: seq<Sample>, policy: Policy, i: nat): seq<Sample>
    requires i <= |history|
  {
    Pick(history, Surviving(history, policy), i)
  }

  /** At no step from `i` on did more than `maxSamples` of the samples from `i` on survive. */
  ghost predicate Uncapped(history: seq<Sample>, policy: Policy, i: nat)
    requires i <= |history|
  {
    forall n :: i < n <= |history| ==> |Survivors(history[..n], policy, i)| <= Cap(policy.maxSamples)
  }

  /** The first sample that the cap has not removed. */
  ghost function CapStart(history: seq<Sample>, policy: Policy): (p: nat)
    ensures p <= |history|
    ensures history != [] ==> |Survivors(history, policy, p)| <= Cap(policy.maxSamples)
  {
    if history == [] then 0
    else Cut(history, Surviving(history, policy), Cap(policy.maxSamples), CapStart(history[..|history| - 1], policy))
  }

  lemma {:induction false} SinceConcat(a: seq<Sample>, b: seq<Sample>, minTs: int)
    ensures Since(a + b, minTs) == Since(a, minTs) + Since(b, minTs)
  {
    if b == [] {
      assert a + b == a;
    } else {
      var n := |b| - 1;
      SinceConcat(a, b[..n], minTs);
      assert (a + b)[..|a| + n] == a + b[..n] && (a + b)[|a| + n] == b[n];
    }
  }

  lemma SurvivesOneMore(history: seq<Sample>, s: Sample, policy: Policy, i: nat)
    requires i < |history|
    ensures Survives(history + [s], policy, i) <==>
            Survives(history, policy, i) && history[i].ts >= Cutoff(s.ts, policy)
  {
    var all := history + [s];
    assert all[|history|] == s && all[i] == history[i];
    if Survives(all, policy, i) {
      assert forall j :: i < j < |history| ==> all[j] == history[j];
    }
  }

  lemma SurvivorsFrom(history: seq<Sample>, policy: Policy, i: nat)
    requires i < |history|
    ensures Survivors(history, policy, i) ==
            (if Survives(history, policy, i) then [history[i]] else []) + Survivors(history, policy, i + 1)
  {
  }

  /** One more sample prunes the survivors by its cutoff and joins them. */
  lemma {:induction false} SurvivorsOneMore(history: seq<Sample>, s: Sample, policy: Policy, i: nat)
    requires i <= |history|
    ensures Survivors(history + [s], policy, i) == Since(Survivors(history, policy, i), Cutoff(s.ts, policy)) + [s]
    decreases |history| - i
  {
    var all, minTs := history + [s], Cutoff(s.ts, policy);
    if i == |history| {
      SurvivorsFrom(all, policy, i);
      assert Survivors(all, policy, i + 1) == [];
    } else {
      SurvivorsFrom(history, policy, i);
      SurvivorsFrom(all, policy, i);
      SurvivorsOneMore(history, s, policy, i + 1);
      SurvivesOneMore(history, s, policy, i);
      SinceOne(history[i], minTs);
      var first := if Survives(history, policy, i) then [history[i]] else [];
      SinceJoins(first, Survivors(history, policy, i + 1), s, minTs);
    }
  }

  lemma SinceJoins(first: seq<Sample>, rest: seq<Sample>, s: Sample, minTs: int)
    ensures Since(first, minTs) + (Since(rest, minTs) + [s]) == Since(first + rest, minTs) + [s]
  {
    SinceConcat(first, rest, minTs);
  }

  lemma SinceOne(s: Sample, minTs: int)
    ensures Since([s], minTs) == if s.ts >= minTs then [s] else []
  {
    assert [s][..0] == [];
  }

  /** Whatever the clock does, the stored list holds exactly the samples that no later cutoff has
      passed and the cap has never removed. */
  lemma {:induction false} StoredIsSurvivors(history: seq<Sample>, policy: Policy)
    ensures Stored(history, policy) == Survivors(history, policy, CapStart(history, policy))
    ensures forall i :: 0 <= i <= |history| ==> (i >= CapStart(history, policy) <==> Uncapped(history, policy, i))
  {
    if history != [] {
      var n := |history| - 1;
      var init, s := history[..n], history[n];
      assert history == init + [s];
      StoredIsSurvivors(init, policy);
      var p := CapStart(init, policy);
      SurvivorsOneMore(init, s, policy, p);
      CutIsLastN(history, Surviving(history, policy), policy.maxSamples, p);
      forall i | 0 <= i <= |history|
        ensures i >= CapStart(history, policy) <==> Uncapped(history, policy, i)
      {
        UncappedOneMore(init, s, policy, i);
        if p <= i {
          CutIff(history, Surviving(history, policy), Cap(policy.maxSamples), p, i);
        }
      }
    }
  }

  lemma UncappedOneMore(init: seq<Sample>, s: Sample, policy: Policy, i: nat)
    requires i <= |init| + 1
    ensures Uncapped(init + [s], policy, i) <==>
            i == |init| + 1 || (Uncapped(init, policy, i) && |Survivors(init + [s], policy, i)| <= Cap(policy.maxSamples))
  {
    var all, n := init + [s], |init|;
    assert all[..n + 1] == all;
    assert forall k :: 0 <= k <= n ==> all[..k] == init[..k];
  }

  // ---- the window, whatever the clock does -------------------------------------------------

  ghost function Recent(history: seq<Sample>, minTs: int): (mask: seq<bool>)
    ensures |mask| == |history|
  {
    seq(|history|, i requires 0 <= i < |history| => history[i].ts >= minTs)
  }

  lemma {:induction false} SinceIsPick(history: seq<Sample>, minTs: int, i: nat)
    requires i <= |history|
    ensures Since(history[i..], minTs) == Pick(history, Recent(history, minTs), i)
    decreases |history| - i
  {
    if i < |history| {
      SinceIsPick(history, minTs, i + 1);
      assert history[i..] == [history[i]] + history[i + 1..];
      SinceConcat([history[i]], history[i + 1..], minTs);
      SinceOne(history[i], minTs);
    }
  }

  /** From `k` on, all that the wider mask picks is picked by the narrower one, and not before `p`. */
  ghost predicate Covered(narrow: seq<bool>, wide: seq<bool>, p: nat, k: nat)
    requires |narrow| == |wide|
  {
    forall i :: k <= i < |wide| && wide[i] ==> narrow[i] && i >= p
  }

  ghost predicate Narrower(narrow: seq<bool>, wide: seq<bool>) {
    |narrow| == |wide| && forall i :: 0 <= i < |wide| && narrow[i] ==> wide[i]
  }

  lemma {:induction false} PickSkips<T>(s: seq<T>, mask: seq<bool>, k: nat, q: nat)
    requires k <= q <= |s| == |mask| && forall i :: k <= i < q ==> !mask[i]
    ensures Pick(s, mask, k) == Pick(s, mask, q)
    decreases q - k
  {
    if k < q {
      PickSkips(s, mask, k + 1, q);
    }
  }

  lemma {:induction false} PickAgrees<T>(s: seq<T>, a: seq<bool>, b: seq<bool>, k: nat)
    requires k <= |s| == |a| == |b| && forall i :: k <= i < |s| ==> a[i] == b[i]
    ensures Pick(s, a, k) == Pick(s, b, k)
    decreases |s| - k
  {
    if k < |s| {
      PickAgrees(s, a, b, k + 1);
    }
  }

  lemma CoveredPicks<T>(s: seq<T>, narrow: seq<bool>, wide: seq<bool>, p: nat, k: nat)
    requires Narrower(narrow, wide) && |s| == |wide| && k <= |s| && p <= |s| && Covered(narrow, wide, p, k)
    ensures Pick(s, wide, k) == Pick(s, narrow, if p > k then p else k)
  {
    var q := if p > k then p else k;
    PickSkips(s, wide, k, q);
    PickAgrees(s, narrow, wide, q);
  }

  /** A later copy of a picked element is picked too. */
  ghost predicate KeepsCopies<T>(s: seq<T>, mask: seq<bool>)
    requires |s| == |mask|
  {
    forall i, j :: 0 <= i < j < |s| && mask[i] && s[i] == s[j] ==> mask[j]
  }

  /** The element of the wider pick at `k` is covered, if both picks agree and all later ones are. */
  lemma CoveredStep<T>(s: seq<T>, narrow: seq<bool>, wide: seq<bool>, p: nat, q: nat, k: nat)
    requires Narrower(narrow, wide) && |s| == |wide| && p <= |s| && q <= k < |s|
    requires KeepsCopies(s, narrow) && Pick(s, narrow, p) == Pick(s, wide, q)
    requires Covered(narrow, wide, p, k + 1) && wide[k]
    ensures narrow[k] && k >= p
  {
    CoveredPicks(s, narrow, wide, p, k + 1);
    var tail, x := Pick(s, wide, k + 1), |PickRange(s, wide, q, k)|;
    PickSplits(s, wide, q, k);
    assert Pick(s, wide, k) == [s[k]] + tail;
    assert Pick(s, wide, q)[x] == s[k] && |Pick(s, wide, q)| == x + 1 + |tail|;
    if p <= k && !narrow[k] {
      PickSplits(s, narrow, p, k);
      assert Pick(s, narrow, k) == tail;
      var i := PickedBefore(s, narrow, p, k, x);
    }
  }

  lemma {:induction false} EqualPicksCover<T>(s: seq<T>, narrow: seq<bool>, wide: seq<bool>, p: nat, q: nat, k: nat)
    requires Narrower(narrow, wide) && |s| == |wide| && p <= |s| && q <= k <= |s|
    requires KeepsCopies(s, narrow) && Pick(s, narrow, p) == Pick(s, wide, q)
    ensures Covered(narrow, wide, p, k)
    decreases |s| - k
  {
    if k < |s| {
      EqualPicksCover(s, narrow, wide, p, q, k + 1);
      if wide[k] {
        CoveredStep(s, narrow, wide, p, q, k);
      }
    }
  }

  lemma CoverMeansEqual<T>(s: seq<T>, narrow: seq<bool>, wide: seq<bool>, cap: nat, p: nat, q: nat)
    requires Narrower(narrow, wide) && |s| == |wide| && p <= |s|
    requires q == Cut(s, wide, cap, 0) && |Pick(s, narrow, p)| <= cap && Covered(narrow, wide, p, q)
    ensures Pick(s, narrow, p) == Pick(s, wide, q)
  {
    CoveredPicks(s, narrow, wide, p, q);
    if p < q {
      PickSplits(s, narrow, p, q);
    }
  }

  /** Sample `i` is one of the last `maxSamples` no older than the cutoff of the latest. */
  ghost predicate InWindow(history: seq<Sample>, policy: Policy, i: nat)
    requires i < |history|
  {
    var minTs := Cutoff(history[|history| - 1].ts, policy);
    history[i].ts >= minTs && |Since(history[i..], minTs)| <= Cap(policy.maxSamples)
  }

  /** No sample of the capped window was older than the cutoff of a later one or removed by the cap. */
  ghost predicate NoneLost(history: seq<Sample>, policy: Policy) {
    forall i :: 0 <= i < |history| && InWindow(history, policy, i) ==>
      Survives(history, policy, i) && Uncapped(history, policy, i)
  }

  ghost function WindowMask(history: seq<Sample>, policy: Policy): (mask: seq<bool>)
    requires history != []
    ensures |mask| == |history|
  {
    Recent(history, Cutoff(history[|history| - 1].ts, policy))
  }

  ghost function WindowStart(history: seq<Sample>, policy: Policy): (q: nat)
    requires history != []
    ensures q <= |history|
  {
    Cut(history, WindowMask(history, policy), Cap(policy.maxSamples), 0)
  }

  lemma InWindowIff(history: seq<Sample>, policy: Policy, i: nat)
    requires i < |history|
    ensures InWindow(history, policy, i) <==> WindowMask(history, policy)[i] && i >= WindowStart(history, policy)
  {
    SinceIsPick(history, Cutoff(history[|history| - 1].ts, policy), i);
    CutIff(history, WindowMask(history, policy), Cap(policy.maxSamples), 0, i);
  }

  lemma NoneLostIsCovered(history: seq<Sample>, policy: Policy)
    requires history != []
    ensures NoneLost(history, policy) <==>
            Covered(Surviving(history, policy), WindowMask(history, policy), CapStart(history, policy), WindowStart(history, policy))
  {
    forall i | 0 <= i < |history|
      ensures InWindow(history, policy, i) <==> WindowMask(history, policy)[i] && i >= WindowStart(history, policy)
      ensures i >= CapStart(history, policy) <==> Uncapped(history, policy, i)
      ensures Surviving(history, policy)[i] <==> Survives(history, policy, i)
    {
      InWindowIff(history, policy, i);
      StoredIsSurvivors(history, policy);
    }
  }

  lemma SurvivorsAreRecent(history: seq<Sample>, policy: Policy)
    requires history != [] && policy.maxDays >= 0
    ensures Narrower(Surviving(history, policy), WindowMask(history, policy))
    ensures KeepsCopies(history, Surviving(history, policy))
  {
  }

  lemma {:induction false} SinceRecent(ss: seq<Sample>, minTs: int, i: nat)
    requires i < |Since(ss, minTs)|
    ensures Since(ss, minTs)[i].ts >= minTs
  {
    if i < |Since(ss[..|ss| - 1], minTs)| {
      SinceRecent(ss[..|ss| - 1], minTs, i);
    }
  }

  /** With negative retention the latest sample is stored, although it is older than its own cutoff. */
  lemma NegativeRetention(history: seq<Sample>, policy: Policy)
    requires history != [] && policy.maxDays < 0 && policy.maxSamples >= 1
    ensures Stored(history, policy) != LastN(Since(history, Cutoff(history[|history| - 1].ts, policy)), policy.maxSamples)
  {
    var s := history[|history| - 1];
    var window := Since(history, Cutoff(s.ts, policy));
    var stored := Stored(history, policy);
    assert stored != [] && stored[|stored| - 1] == s;
    if window != [] {
      SinceRecent(history, Cutoff(s.ts, policy), |window| - 1);
      var last := LastN(window, policy.maxSamples);
      assert last[|last| - 1] == window[|window| - 1];
    }
  }

  /** Whatever the clock does, the stored list is the capped window of the latest sample iff nothing can
      be stored at all, or retention is not negative and no sample of that window was lost on the way. */
  lemma StoredIsWindowIff(history: seq<Sample>, policy: Policy)
    requires history != []
    ensures Stored(history, policy) ==
            LastN(Since(history, Cutoff(history[|history| - 1].ts, policy)), policy.maxSamples) <==>
            policy.maxSamples <= 0 || (policy.maxDays >= 0 && NoneLost(history, policy))
  {
    if policy.maxSamples >= 1 {
      if policy.maxDays < 0 {
        NegativeRetention(history, policy);
      } else {
        WindowByMasks(history, policy);
      }
    }
  }

  lemma WindowByMasks(history: seq<Sample>, policy: Policy)
    requires history != [] && policy.maxDays >= 0
    ensures Stored(history, policy) ==
            LastN(Since(history, Cutoff(history[|history| - 1].ts, policy)), policy.maxSamples) <==>
            NoneLost(history, policy)
  {
    var minTs, cap := Cutoff(history[|history| - 1].ts, policy), Cap(policy.maxSamples);
    var narrow, wide := Surviving(history, policy), WindowMask(history, policy);
    var p, q := CapStart(history, policy), WindowStart(history, policy);
    StoredIsSurvivors(history, policy);
    assert history[0..] == history;
    SinceIsPick(history, minTs, 0);
    CutIsLastN(history, wide, policy.maxSamples, 0);
    SurvivorsAreRecent(history, policy);
    NoneLostIsCovered(history, policy);
    if Pick(history, narrow, p) == Pick(history, wide, q) {
      EqualPicksCover(history, narrow, wide, p, q, q);
    } else if Covered(narrow, wide, p, q) {
      CoverMeansEqual(history, narrow, wide, cap, p, q);
    }
  }

  /** A sample outlives the next one iff it is at most `maxDays` days of 86400 seconds older. */
  lemma AgeLimit(a: Sample, b: Sample, policy: Policy)
    requires policy.maxSamples >= 2
    ensures Stored([a, b], policy) == if b.ts - a.ts <= policy.maxDays * 86400 then [a, b] else [b]
  {
    assert [] + [a] == [a] && [a] + [b] == [a, b];
    StoredSnoc([], a, policy);
    StoredSnoc([a], b, policy);
    SinceOne(a, Cutoff(b.ts, policy));
  }

  /** With a clock that runs backwards the window is not kept: a sample pruned once never returns. */
  lemma BackwardsClockLoses(a: Sample, b: Sample, c: Sample, policy: Policy)
    requires a.ts == 0 && b.ts == 2 * DAY && c.ts == DAY && policy == Policy(50, 1)
    ensures Stored([a, b, c], policy) == [b, c]
    ensures LastN(Since([a, b, c], Cutoff(c.ts, policy)), policy.maxSamples) == [a, b, c]
  {
    assert [] + [a] == [a] && [a] + [b] == [a, b] && [a, b] + [c] == [a, b, c];
    StoredSnoc([], a, policy);
    assert Stored([a], policy) == [a];
    StoredSnoc([a], b, policy);
    SinceDropsHead([a], Cutoff(b.ts, policy));
    assert [a][1..] == [];
    assert Stored([a, b], policy) == [b];
    StoredSnoc([a, b], c, policy);
    SinceAll([b], Cutoff(c.ts, policy));
    SinceAll([a, b, c], Cutoff(c.ts, policy));
  }
}
