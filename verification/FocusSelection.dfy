/** The last stage of `RepositoryMapEngine.search`: top-k ranking and the path-focus back-fill
    (agent/repository_map_engine.py). */
module FocusSelection {
  import opened Sorting

  datatype Chunk = Chunk(source: string, content: string, score: real)

  datatype Focus = NoFocus | Focus(prefixes: seq<string>, minResults: int)

  function ByScore(): (Chunk, Chunk) -> bool {
    (a: Chunk, b: Chunk) => a.score >= b.score
  }

  function Normalized(path: string): string {
    seq(|path|, i requires 0 <= i < |path| => if path[i] == '\\' then '/' else path[i])
  }

  function WithoutTrailingSlashes(s: string): string {
    if s != [] && s[|s| - 1] == '/' then WithoutTrailingSlashes(s[..|s| - 1]) else s
  }

  /** `_path_in_focus`. */
  predicate InFocus(focus: Focus, path: string) {
    focus.Focus? &&
    exists i :: 0 <= i < |focus.prefixes| &&
      (Normalized(path) == WithoutTrailingSlashes(focus.prefixes[i]) || focus.prefixes[i] <= Normalized(path))
  }

  function CountFocused(focus: Focus, chunks: seq<Chunk>): nat {
    if chunks == [] then 0
    else CountFocused(focus, chunks[..|chunks| - 1]) + if InFocus(focus, chunks[|chunks| - 1].source) then 1 else 0
  }

  predicate HasSource(chunks: seq<Chunk>, source: string) {
    exists i :: 0 <= i < |chunks| && chunks[i].source == source
  }

  ghost predicate DistinctSources(chunks: seq<Chunk>) {
    forall i, j :: 0 <= i < j < |chunks| ==> chunks[i].source != chunks[j].source
  }

  /** Focused chunks of `rest` whose source is not already among `top`, in order. */
  function Backups(focus: Focus, top: seq<Chunk>, rest: seq<Chunk>): seq<Chunk> {
    if rest == [] then []
    else
      var c := rest[|rest| - 1];
      Backups(focus, top, rest[..|rest| - 1]) +
      if !HasSource(top, c.source) && InFocus(focus, c.source) then [c] else []
  }

  function AtLeast1(n: int): nat { if n < 1 then 1 else n }

  /** `s[:n]` with Python's meaning of a negative bound. */
  function Take<T>(s: seq<T>, n: int): seq<T> {
    if n >= |s| then s else if n >= 0 then s[..n] else if -n <= |s| then s[..|s| + n] else []
  }

  /** The first `n`, all but the last `-n` if `n` is negative, and never more than there are. */
  lemma TakeIs<T>(s: seq<T>, n: int)
    ensures Take(s, n) <= s
    ensures 0 <= n <= |s| ==> |Take(s, n)| == n
    ensures n >= |s| ==> Take(s, n) == s
    ensures -|s| <= n < 0 ==> |Take(s, n)| == |s| + n
    ensures n < -|s| ==> Take(s, n) == []
  {
  }

  /** How many back-fill rounds the loop makes. */
  function Rounds(focus: Focus, top: seq<Chunk>, backups: seq<Chunk>): nat
    requires focus.Focus?
  {
    var missing := AtLeast1(focus.minResults) - CountFocused(focus, top);
    if missing <= 0 then 0 else if missing <= |backups| then missing else |backups|
  }

  /** `top` after `k` rounds: only its last slot has changed, and it holds the k-th backup. */
  function BackFilled(top: seq<Chunk>, backups: seq<Chunk>, k: nat): seq<Chunk>
    requires k <= |backups| && (k > 0 ==> top != [])
  {
    if k == 0 then top else top[..|top| - 1] + [backups[k - 1]]
  }

  /** The selection in closed form, for an already ranked list and a limit of at least one. */
  function Selection(focus: Focus, ranked: seq<Chunk>, limit: nat): seq<Chunk>
    requires focus.Focus? && limit >= 1
  {
    var top := Take(ranked, limit);
    var backups := Backups(focus, top, ranked[|top|..]);
    BackFilled(top, backups, Rounds(focus, top, backups))
  }

  lemma {:induction false} NoBackupsWithin(focus: Focus, top: seq<Chunk>, n: nat)
    requires n <= |top|
    ensures Backups(focus, top, top[..n]) == []
  {
    if n > 0 {
      NoBackupsWithin(focus, top, n - 1);
      assert top[..n][..n - 1] == top[..n - 1];
      assert HasSource(top, top[n - 1].source);
    }
  }

  lemma BackupsSnoc(focus: Focus, top: seq<Chunk>, rest: seq<Chunk>, c: Chunk)
    ensures Backups(focus, top, rest + [c]) == Backups(focus, top, rest) +
            if !HasSource(top, c.source) && InFocus(focus, c.source) then [c] else []
  {
  }

  /** Filtering the whole ranking finds backups only after the top. */
  lemma {:induction false} BackupsComeAfter(focus: Focus, top: seq<Chunk>, rest: seq<Chunk>)
    ensures Backups(focus, top, top + rest) == Backups(focus, top, rest)
  {
    if rest == [] {
      NoBackupsWithin(focus, top, |top|);
      assert top + rest == top && top[..|top|] == top;
    } else {
      var n := |rest| - 1;
      BackupsComeAfter(focus, top, rest[..n]);
      assert rest == rest[..n] + [rest[n]] && top + rest == top + rest[..n] + [rest[n]];
      BackupsSnoc(focus, top, rest[..n], rest[n]);
      BackupsSnoc(focus, top, top + rest[..n], rest[n]);
    }
  }

  /** A backup is a focused chunk ranked after the top, and is not in it. */
  lemma {:induction false} BackupSound(focus: Focus, top: seq<Chunk>, rest: seq<Chunk>, m: nat)
    requires m < |Backups(focus, top, rest)|
    ensures var c := Backups(focus, top, rest)[m];
            && InFocus(focus, c.source)
            && !HasSource(top, c.source)
            && exists i :: 0 <= i < |rest| && rest[i] == c
  {
    var n := |rest| - 1;
    var before := Backups(focus, top, rest[..n]);
    if m < |before| {
      BackupSound(focus, top, rest[..n], m);
      var i :| 0 <= i < |rest[..n]| && rest[..n][i] == before[m];
      assert rest[i] == before[m];
    } else {
      assert rest[n] == Backups(focus, top, rest)[m];
    }
  }

  method Filtered(focus: Focus, top: seq<Chunk>, ranked: seq<Chunk>) returns (focused: seq<Chunk>)
    ensures focused == Backups(focus, top, ranked)
  {
    focused := [];
    for i := 0 to |ranked|
      invariant focused == Backups(focus, top, ranked[..i])
    {
      assert ranked[..i + 1][..i] == ranked[..i];
      if !HasSource(top, ranked[i].source) && InFocus(focus, ranked[i].source) {
        focused := focused + [ranked[i]];
      }
    }
    assert ranked[..|ranked|] == ranked;
  }

  /** The back-fill loop: pop the last slot, append the next backup, until enough are focused. */
  method BackFill(focus: Focus, top: seq<Chunk>, focused: seq<Chunk>, limit: nat) returns (selected: seq<Chunk>)
    requires focus.Focus? && limit >= 1
    requires focused != [] ==> |top| == limit
    ensures selected == BackFilled(top, focused, Rounds(focus, top, focused))
  {
    selected := top;
    var count := CountFocused(focus, selected);
    var k := 0;
    while k < |focused| && count < AtLeast1(focus.minResults)
      invariant 0 <= k <= |focused|
      invariant selected == BackFilled(top, focused, k)
      invariant count == CountFocused(focus, top) + k
      invariant k > 0 ==> count <= AtLeast1(focus.minResults)
    {
      if |selected| >= limit {
        selected := selected[..|selected| - 1];
      }
      selected := selected + [focused[k]];
      count := count + 1;
      k := k + 1;
    }
  }

  lemma BackupsOfRanking(focus: Focus, ranked: seq<Chunk>, limit: nat)
    ensures var top := Take(ranked, limit);
            && Backups(focus, top, ranked) == Backups(focus, top, ranked[|top|..])
            && (Backups(focus, top, ranked) != [] ==> |top| == limit)
  {
    var top := Take(ranked, limit);
    BackupsComeAfter(focus, top, ranked[|top|..]);
    assert ranked == top + ranked[|top|..];
  }

  ghost predicate Descending(chunks: seq<Chunk>) {
    forall i, j :: 0 <= i < j < |chunks| ==> chunks[i].score >= chunks[j].score
  }

  /** Ranking rearranges the candidates by falling score. */
  lemma RankedDescending(candidates: seq<Chunk>)
    ensures Descending(StableSort(candidates, ByScore()))
    ensures multiset(StableSort(candidates, ByScore())) == multiset(candidates)
  {
    SortSound(candidates, ByScore());
    var ranked := StableSort(candidates, ByScore());
    assert forall i, j :: 0 <= i < j < |ranked| ==> ByScore()(ranked[i], ranked[j]);
  }

  lemma {:induction false} SlashesCut(s: string) returns (n: nat)
    ensures n <= |s| && WithoutTrailingSlashes(s) == s[..n] && (n > 0 ==> s[n - 1] != '/')
    ensures forall i :: n <= i < |s| ==> s[i] == '/'
  {
    if s != [] && s[|s| - 1] == '/' {
      n := SlashesCut(s[..|s| - 1]);
    } else {
      n := |s|;
    }
  }

  /** `p` is the path with slashes for backslashes. */
  predicate Slashed(path: string, p: string) {
    && |p| == |path|
    && forall i :: 0 <= i < |path| ==> if path[i] == '\\' then p[i] == '/' else p[i] == path[i]
  }

  /** A path is in focus iff, with slashes for backslashes, it starts with one of the prefixes, or is
      one of them up to slashes at its end. */
  lemma InFocusIff(focus: Focus, path: string, p: string)
    requires focus.Focus? && Slashed(path, p)
    ensures InFocus(focus, path) <==>
            exists i :: 0 <= i < |focus.prefixes| &&
              (focus.prefixes[i] <= p || UpToSlashes(p, focus.prefixes[i]))
  {
    assert p == Normalized(path);
    forall i | 0 <= i < |focus.prefixes|
      ensures p == WithoutTrailingSlashes(focus.prefixes[i]) <==> UpToSlashes(p, focus.prefixes[i])
    {
      var n := SlashesCut(focus.prefixes[i]);
    }
  }

  /** `prefix` is `p` and slashes, and `p` does not end in one. */
  predicate UpToSlashes(p: string, prefix: string) {
    && p <= prefix && (p != "" ==> p[|p| - 1] != '/')
    && forall i :: |p| <= i < |prefix| ==> prefix[i] == '/'
  }

  function FocusedAt(focus: Focus, chunks: seq<Chunk>): set<int> {
    set i | 0 <= i < |chunks| && InFocus(focus, chunks[i].source)
  }

  lemma FocusedAtSnoc(focus: Focus, chunks: seq<Chunk>, c: Chunk)
    ensures FocusedAt(focus, chunks + [c]) == FocusedAt(focus, chunks) + if InFocus(focus, c.source) then {|chunks|} else {}
  {
    var all := chunks + [c];
    assert all[|chunks|] == c && forall i :: 0 <= i < |chunks| ==> all[i] == chunks[i];
  }

  /** The focused count is the number of focused positions. */
  lemma {:induction false} CountIsCardinality(focus: Focus, chunks: seq<Chunk>)
    ensures CountFocused(focus, chunks) == |FocusedAt(focus, chunks)|
  {
    if chunks != [] {
      var n := |chunks| - 1;
      CountIsCardinality(focus, chunks[..n]);
      assert chunks == chunks[..n] + [chunks[n]];
      FocusedAtSnoc(focus, chunks[..n], chunks[n]);
    }
  }

  /** The ranking tail of `search`: sort, cut, back-fill, sort again, cut again. */
  method SelectTop(candidates: seq<Chunk>, topK: int, focus: Focus) returns (result: seq<Chunk>)
    ensures Descending(result)
    ensures focus.NoFocus? ==> result == Take(StableSort(candidates, ByScore()), topK)
    ensures focus.Focus? ==>
              result == Selection(focus, StableSort(candidates, ByScore()), AtLeast1(topK))
  {
    var ranked := StableSort(candidates, ByScore());
    RankedDescending(candidates);
    if focus.NoFocus? {
      return Take(ranked, topK);
    }
    var limit := AtLeast1(topK);
    var selected := Take(ranked, limit);
    var focused := Filtered(focus, selected, ranked);
    BackupsOfRanking(focus, ranked, limit);
    selected := BackFill(focus, selected, focused, limit);
    SortSound(candidates, ByScore());
    SelectionOrdered(focus, ranked, limit);
    SortOfSorted(selected, ByScore());
    RankedDescending(selected);
    result := Take(StableSort(selected, ByScore()), limit);
  }

  lemma SortedWithLater(s: seq<Chunk>, k: nat, m: nat)
    requires SortedBy(s, ByScore()) && k <= m < |s|
    ensures SortedBy(s[..k] + [s[m]], ByScore())
  {
  }

  /** The selection is in descending score order and has `min(limit, ranked)` chunks. */
  lemma SelectionOrdered(focus: Focus, ranked: seq<Chunk>, limit: nat)
    requires focus.Focus? && limit >= 1 && SortedBy(ranked, ByScore())
    ensures var r := Selection(focus, ranked, limit);
            SortedBy(r, ByScore()) && |r| == (if limit < |ranked| then limit else |ranked|)
  {
    var top := Take(ranked, limit);
    var rest := ranked[|top|..];
    var backups := Backups(focus, top, rest);
    var k := Rounds(focus, top, backups);
    if k > 0 {
      BackupSound(focus, top, rest, k - 1);
      var i :| 0 <= i < |rest| && rest[i] == backups[k - 1];
      var m := |top| + i;
      assert ranked[m] == backups[k - 1] && top[..|top| - 1] == ranked[..|top| - 1];
      SortedWithLater(ranked, |top| - 1, m);
      assert Selection(focus, ranked, limit) == ranked[..|top| - 1] + [ranked[m]];
    } else {
      assert Selection(focus, ranked, limit) == top;
    }
  }

  /** If the top already holds the minimum, or nothing waits below it, the selection is the top. Else
      its last chunk is the focused one that brings the number added up to what is missing, or the
      last of them all. */
  lemma BackFillStops(focus: Focus, ranked: seq<Chunk>, limit: nat)
    requires focus.Focus? && limit >= 1 && ranked != []
    ensures var top, r := Take(ranked, limit), Selection(focus, ranked, limit);
            var have, want := CountFocused(focus, top), if focus.minResults < 1 then 1 else focus.minResults;
            var waiting := Backups(focus, top, ranked[|top|..]);
            if have >= want || waiting == [] then r == top
            else r == top[..|top| - 1] + [waiting[if want - have <= |waiting| then want - have - 1 else |waiting| - 1]]
  {
  }

  /** Frame of the back-fill: all but the last top chunk are kept, the last slot is the top's own or
      a focused chunk from below it, and sources stay distinct. */
  lemma SelectionFrame(focus: Focus, ranked: seq<Chunk>, limit: nat)
    requires focus.Focus? && limit >= 1 && ranked != [] && DistinctSources(ranked)
    ensures var top, r := Take(ranked, limit), Selection(focus, ranked, limit);
            && |r| == |top| >= 1
            && r[..|r| - 1] == top[..|top| - 1]
            && (r != top ==> InFocus(focus, r[|r| - 1].source) && !HasSource(top, r[|r| - 1].source)
                             && r[|r| - 1] in ranked)
            && DistinctSources(r)
  {
    var top := Take(ranked, limit);
    var rest := ranked[|top|..];
    var k := Rounds(focus, top, Backups(focus, top, rest));
    if k > 0 {
      BackupSound(focus, top, rest, k - 1);
    }
  }

  lemma CountAppend(focus: Focus, s: seq<Chunk>, c: Chunk)
    ensures CountFocused(focus, s + [c]) == CountFocused(focus, s) + if InFocus(focus, c.source) then 1 else 0
  {
  }

  lemma CountReplaced(focus: Focus, top: seq<Chunk>, c: Chunk)
    requires top != [] && InFocus(focus, c.source)
    ensures CountFocused(focus, top[..|top| - 1] + [c]) ==
            CountFocused(focus, top) + if InFocus(focus, top[|top| - 1].source) then 0 else 1
  {
  }

  /** The back-fill raises the focused count by one if it runs and the slot it takes over was not
      focused, and otherwise not at all. */
  lemma FocusGain(focus: Focus, ranked: seq<Chunk>, limit: nat)
    requires focus.Focus? && limit >= 1 && ranked != []
    ensures var top := Take(ranked, limit);
            var k := Rounds(focus, top, Backups(focus, top, ranked[|top|..]));
            CountFocused(focus, Selection(focus, ranked, limit)) == CountFocused(focus, top) +
            if k > 0 && !InFocus(focus, top[|top| - 1].source) then 1 else 0
  {
    var top := Take(ranked, limit);
    var rest := ranked[|top|..];
    var backups := Backups(focus, top, rest);
    var k := Rounds(focus, top, backups);
    if k > 0 {
      BackupSound(focus, top, rest, k - 1);
      CountReplaced(focus, top, backups[k - 1]);
    }
  }

  /** So the promised minimum is not a theorem. It is met iff plain top-k already meets it, or falls
      one short while a backup exists and the last slot is not itself focused. */
  lemma MinimumMetIff(focus: Focus, ranked: seq<Chunk>, limit: nat)
    requires focus.Focus? && limit >= 1 && ranked != []
    ensures var top := Take(ranked, limit);
            var have, want := CountFocused(focus, top), AtLeast1(focus.minResults);
            CountFocused(focus, Selection(focus, ranked, limit)) >= want <==>
            || have >= want
            || (&& have == want - 1
                && Backups(focus, top, ranked[|top|..]) != []
                && !InFocus(focus, top[|top| - 1].source))
  {
    FocusGain(focus, ranked, limit);
  }

  lemma UnfocusedTop(focus: Focus, top: seq<Chunk>, c: Chunk)
    requires InFocus(focus, c.source) && forall i :: 0 <= i < |top| ==> !InFocus(focus, top[i].source)
    ensures !HasSource(top, c.source)
  {
  }

  lemma {:induction false} CountUnfocused(focus: Focus, top: seq<Chunk>)
    requires forall i :: 0 <= i < |top| ==> !InFocus(focus, top[i].source)
    ensures CountFocused(focus, top) == 0
  {
    if top != [] {
      CountUnfocused(focus, top[..|top| - 1]);
    }
  }

  /** Whenever the top holds no focused chunk and some wait below it, exactly one gets in, whatever
      minimum is asked for. */
  lemma MinimumMissed(focus: Focus, top: seq<Chunk>, rest: seq<Chunk>, c: Chunk)
    requires focus.Focus? && top != [] && InFocus(focus, c.source)
    requires forall i :: 0 <= i < |top| ==> !InFocus(focus, top[i].source)
    ensures CountFocused(focus, Selection(focus, top + (rest + [c]), |top|)) == 1
  {
    var ranked := top + (rest + [c]);
    assert Take(ranked, |top|) == top && ranked[|top|..] == rest + [c];
    CountUnfocused(focus, top);
    UnfocusedTop(focus, top, c);
    BackupsSnoc(focus, top, rest, c);
    FocusGain(focus, ranked, |top|);
  }

  /** A minimum of two, two places, and two focused files below two others: one is selected. */
  lemma MinimumMissedExample()
    ensures var focus := Focus(["a/"], 2);
            var x, y, a, b := Chunk("x", "", 4.0), Chunk("y", "", 3.0), Chunk("a/1", "", 2.0), Chunk("a/2", "", 1.0);
            && CountFocused(focus, [a] + [b]) == 2
            && CountFocused(focus, Selection(focus, [x, y] + ([a] + [b]), 2)) == 1
  {
    var focus := Focus(["a/"], 2);
    var x, y, a, b := Chunk("x", "", 4.0), Chunk("y", "", 3.0), Chunk("a/1", "", 2.0), Chunk("a/2", "", 1.0);
    assert !InFocus(focus, "x") && !InFocus(focus, "y") by {
      assert focus.prefixes[0] == "a/" && WithoutTrailingSlashes("a/") == "a";
      assert Normalized("x")[0] == 'x' && Normalized("y")[0] == 'y';
    }
    assert InFocus(focus, "a/1") && InFocus(focus, "a/2") by {
      assert Normalized("a/1") == "a/1" && Normalized("a/2") == "a/2";
      assert focus.prefixes[0] <= Normalized("a/1") && focus.prefixes[0] <= Normalized("a/2");
    }
    assert [] + [a] == [a];
    CountAppend(focus, [], a);
    CountAppend(focus, [a], b);
    MinimumMissed(focus, [x, y], [a], b);
  }
}
