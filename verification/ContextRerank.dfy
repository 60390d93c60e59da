/** Diversity-first packing of context chunks under three budgets: `rerank` (agent/context_manager.py). */
module ContextRerank {
  import opened Sorting
  import opened ContextMerge

  datatype Limits = Limits(maxChunks: int, maxChars: int, maxTokens: int)

  /** `(engine, source, content[:120])`. */
  datatype Key = Key(engine: string, source: string, head: string)

  function KeyOf(c: Chunk): Key {
    Key(c.engine, c.source, if |c.content| <= 120 then c.content else c.content[..120])
  }

  /** Four characters to a token, rounded down, and at least one. */
  function Tokens(text: string): (n: nat)
    ensures n >= 1 && |text| < 4 * (n + 1) && (n == 1 || 4 * n <= |text|)
  {
    if |text| / 4 < 1 then 1 else |text| / 4
  }

  function Chars(cs: seq<Chunk>): nat {
    if cs == [] then 0 else Chars(cs[..|cs| - 1]) + |cs[|cs| - 1].content|
  }

  function TokenSum(cs: seq<Chunk>): nat {
    if cs == [] then 0 else TokenSum(cs[..|cs| - 1]) + Tokens(cs[|cs| - 1].content)
  }

  function ByScore(): (Chunk, Chunk) -> bool {
    (a: Chunk, b: Chunk) => a.score >= b.score
  }

  predicate KeyUsed(selected: seq<Chunk>, k: Key) {
    exists i :: 0 <= i < |selected| && KeyOf(selected[i]) == k
  }

  /** Room for `c` beside what is selected. */
  predicate Fits(lim: Limits, selected: seq<Chunk>, c: Chunk) {
    Chars(selected) + |c.content| <= lim.maxChars && TokenSum(selected) + Tokens(c.content) <= lim.maxTokens
  }

  /** Take a chunk that is new, fits, and still finds a free place. */
  function Offer(lim: Limits, selected: seq<Chunk>, c: Chunk): seq<Chunk> {
    if |selected| < lim.maxChunks && !KeyUsed(selected, KeyOf(c)) && Fits(lim, selected, c)
    then selected + [c] else selected
  }

  /** One greedy pass. */
  function Greedy(lim: Limits, cs: seq<Chunk>): seq<Chunk> {
    if cs == [] then [] else Offer(lim, Greedy(lim, cs[..|cs| - 1]), cs[|cs| - 1])
  }

  predicate HasEngine(cs: seq<Chunk>, engine: string) {
    exists i :: 0 <= i < |cs| && cs[i].engine == engine
  }

  /** The first chunk of each engine, in order of appearance. */
  function Heads(ranked: seq<Chunk>): seq<Chunk> {
    if ranked == [] then []
    else
      var before, c := Heads(ranked[..|ranked| - 1]), ranked[|ranked| - 1];
      if HasEngine(before, c.engine) then before else before + [c]
  }

  /** The first head that fits by itself, if any. */
  function FirstFit(lim: Limits, heads: seq<Chunk>): seq<Chunk> {
    if heads == [] then []
    else
      var before := FirstFit(lim, heads[..|heads| - 1]);
      if before == [] && Fits(lim, [], heads[|heads| - 1]) then [heads[|heads| - 1]] else before
  }

  // ---- the greedy pass ---------------------------------------------------------------------

  ghost predicate DistinctKeys(cs: seq<Chunk>) {
    forall i, j :: 0 <= i < j < |cs| ==> KeyOf(cs[i]) != KeyOf(cs[j])
  }

  lemma SumsAppend(cs: seq<Chunk>, c: Chunk)
    ensures Chars(cs + [c]) == Chars(cs) + |c.content|
    ensures TokenSum(cs + [c]) == TokenSum(cs) + Tokens(c.content)
  {
  }

  /** Two chunks share a key iff engine, source and either the contents or their first 120 characters
      agree. */
  lemma SameKeyIff(a: Chunk, b: Chunk)
    ensures KeyOf(a) == KeyOf(b) <==>
            && a.engine == b.engine && a.source == b.source
            && (|| a.content == b.content
                || (|a.content| >= 120 && |b.content| >= 120 && a.content[..120] == b.content[..120]))
  {
  }

  /** The characters and tokens of a selection are the sums over its chunks. */
  lemma {:induction false} SumsConcat(a: seq<Chunk>, b: seq<Chunk>, c: Chunk)
    ensures Chars(a + b) == Chars(a) + Chars(b) && TokenSum(a + b) == TokenSum(a) + TokenSum(b)
    ensures Chars([c]) == |c.content| && TokenSum([c]) == Tokens(c.content)
  {
    assert [c][..0] == [];
    if b == [] {
      assert a + b == a;
    } else {
      var n := |b| - 1;
      SumsConcat(a, b[..n], c);
      assert (a + b)[..|a| + n] == a + b[..n] && (a + b)[|a| + n] == b[n];
    }
  }

  /** Every budget is respected and no key is taken twice. */
  ghost predicate WithinLimits(lim: Limits, r: seq<Chunk>) {
    && |r| <= lim.maxChunks
    && (r != [] ==> Chars(r) <= lim.maxChars && TokenSum(r) <= lim.maxTokens)
    && DistinctKeys(r)
  }

  lemma OfferWithin(lim: Limits, selected: seq<Chunk>, c: Chunk)
    requires WithinLimits(lim, selected)
    ensures WithinLimits(lim, Offer(lim, selected, c))
  {
    SumsAppend(selected, c);
  }

  lemma {:induction false} GreedyBounded(lim: Limits, cs: seq<Chunk>)
    requires lim.maxChunks >= 0
    ensures WithinLimits(lim, Greedy(lim, cs))
  {
    if cs != [] {
      var n := |cs| - 1;
      GreedyBounded(lim, cs[..n]);
      OfferWithin(lim, Greedy(lim, cs[..n]), cs[n]);
    }
  }

  lemma {:induction false} GreedyMembers(lim: Limits, cs: seq<Chunk>, i: nat)
    requires i < |Greedy(lim, cs)|
    ensures Greedy(lim, cs)[i] in cs
  {
    var n := |cs| - 1;
    if i < |Greedy(lim, cs[..n])| {
      GreedyMembers(lim, cs[..n], i);
    }
  }

  lemma GreedyGrows(lim: Limits, cs: seq<Chunk>, n: nat)
    requires n <= |cs|
    ensures Greedy(lim, cs[..n]) <= Greedy(lim, cs)
  {
    if n < |cs| {
      GreedyGrows(lim, cs[..|cs| - 1], n);
      assert cs[..|cs| - 1][..n] == cs[..n];
    } else {
      assert cs[..n] == cs;
    }
  }

  lemma {:induction false} SumsOfPrefix(cs: seq<Chunk>, n: nat)
    requires n <= |cs|
    ensures Chars(cs[..n]) <= Chars(cs) && TokenSum(cs[..n]) <= TokenSum(cs)
  {
    if n < |cs| {
      SumsOfPrefix(cs[..|cs| - 1], n);
      assert cs[..|cs| - 1][..n] == cs[..n];
    } else {
      assert cs[..n] == cs;
    }
  }

  /** If places are left, every chunk offered has a used key or would overflow the final totals. */
  lemma GreedySaturated(lim: Limits, cs: seq<Chunk>, i: nat)
    requires i < |cs| && |Greedy(lim, cs)| < lim.maxChunks
    ensures var r := Greedy(lim, cs); KeyUsed(r, KeyOf(cs[i])) || !Fits(lim, r, cs[i])
  {
    var r, before := Greedy(lim, cs), Greedy(lim, cs[..i]);
    var after := Greedy(lim, cs[..i + 1]);
    assert cs[..i + 1][..i] == cs[..i];
    GreedyGrows(lim, cs, i);
    GreedyGrows(lim, cs, i + 1);
    assert r[..|before|] == before && r[..|after|] == after;
    SumsOfPrefix(r, |before|);
    if after != before {
      assert after[|before|] == cs[i];
      assert KeyOf(r[|before|]) == KeyOf(cs[i]);
    } else if KeyUsed(before, KeyOf(cs[i])) {
      var j :| 0 <= j < |before| && KeyOf(before[j]) == KeyOf(cs[i]);
      assert KeyOf(r[j]) == KeyOf(cs[i]);
    }
  }

  lemma TakesFitting(lim: Limits, cs: seq<Chunk>, c: Chunk)
    requires !KeyUsed(cs, KeyOf(c)) && |cs| < lim.maxChunks
    requires Chars(cs + [c]) <= lim.maxChars && TokenSum(cs + [c]) <= lim.maxTokens
    ensures Offer(lim, cs, c) == cs + [c]
  {
    SumsAppend(cs, c);
  }

  lemma LastKeyIsNew(cs: seq<Chunk>)
    requires DistinctKeys(cs) && cs != []
    ensures !KeyUsed(cs[..|cs| - 1], KeyOf(cs[|cs| - 1]))
  {
  }

  /** Chunks with distinct keys that fit together are all taken. */
  lemma {:induction false} GreedyTakesAll(lim: Limits, cs: seq<Chunk>)
    requires DistinctKeys(cs) && |cs| <= lim.maxChunks
    requires Chars(cs) <= lim.maxChars && TokenSum(cs) <= lim.maxTokens
    ensures Greedy(lim, cs) == cs
  {
    if cs != [] {
      var n := |cs| - 1;
      GreedyTakesAll(lim, cs[..n]);
      LastKeyIsNew(cs);
      assert cs[..n] + [cs[n]] == cs;
      TakesFitting(lim, cs[..n], cs[n]);
    }
  }

  // ---- heads -------------------------------------------------------------------------------

  /** One head per engine present. */
  lemma {:induction false} HeadsSound(ranked: seq<Chunk>)
    ensures forall i, j :: 0 <= i < j < |Heads(ranked)| ==> Heads(ranked)[i].engine != Heads(ranked)[j].engine
    ensures forall e :: HasEngine(Heads(ranked), e) <==> HasEngine(ranked, e)
    ensures forall i :: 0 <= i < |Heads(ranked)| ==> Heads(ranked)[i] in ranked
  {
    if ranked != [] {
      var n := |ranked| - 1;
      HeadsSound(ranked[..n]);
      var before, c := Heads(ranked[..n]), ranked[n];
      forall e
        ensures HasEngine(Heads(ranked), e) <==> HasEngine(ranked, e)
      {
        assert HasEngine(ranked, e) <==> HasEngine(ranked[..n], e) || c.engine == e by {
          if HasEngine(ranked[..n], e) {
            var i :| 0 <= i < n && ranked[..n][i].engine == e;
            assert ranked[i].engine == e;
          }
        }
        if HasEngine(before, e) {
          var i :| 0 <= i < |before| && before[i].engine == e;
          assert Heads(ranked)[i].engine == e;
        }
        assert !HasEngine(before, c.engine) ==> Heads(ranked)[|before|].engine == c.engine;
      }
    }
  }

  lemma HeadBeforeLast(ranked: seq<Chunk>, i: nat)
    requires SortedBy(ranked, ByScore()) && ranked != [] && i < |Heads(ranked[..|ranked| - 1])|
    ensures Heads(ranked[..|ranked| - 1])[i].score >= ranked[|ranked| - 1].score
  {
    var n := |ranked| - 1;
    HeadsSound(ranked[..n]);
    var k :| 0 <= k < n && ranked[..n][k] == Heads(ranked[..n])[i];
    assert ByScore()(ranked[k], ranked[n]);
  }

  /** In a ranking by score, an engine's head is its best chunk. */
  lemma {:induction false} HeadIsBest(ranked: seq<Chunk>, i: nat, j: nat)
    requires SortedBy(ranked, ByScore())
    requires i < |Heads(ranked)| && j < |ranked| && Heads(ranked)[i].engine == ranked[j].engine
    ensures Heads(ranked)[i].score >= ranked[j].score
  {
    var n := |ranked| - 1;
    var init := ranked[..n];
    if i < |Heads(init)| {
      if j < n {
        HeadIsBest(init, i, j);
      } else {
        HeadBeforeLast(ranked, i);
      }
    } else if j < n {
      NewHeadIsFirst(ranked, j);
    }
  }

  /** A chunk that becomes a head is the first of its engine. */
  lemma NewHeadIsFirst(ranked: seq<Chunk>, j: nat)
    requires j < |ranked| - 1 && |Heads(ranked)| > |Heads(ranked[..|ranked| - 1])|
    ensures ranked[j].engine != ranked[|ranked| - 1].engine
  {
    var n := |ranked| - 1;
    HeadsSound(ranked[..n]);
    assert ranked[..n][j].engine == ranked[j].engine;
    assert HasEngine(ranked[..n], ranked[j].engine);
  }

  lemma HeadsDistinctKeys(ranked: seq<Chunk>)
    ensures DistinctKeys(Heads(ranked))
  {
  }

  // ---- the method --------------------------------------------------------------------------

  method EngineHeads(ranked: seq<Chunk>) returns (heads: seq<Chunk>)
    ensures heads == Heads(ranked)
  {
    heads := [];
    for i := 0 to |ranked|
      invariant heads == Heads(ranked[..i])
    {
      assert ranked[..i + 1][..i] == ranked[..i];
      if !HasEngine(heads, ranked[i].engine) {
        heads := heads + [ranked[i]];
      }
    }
    assert ranked[..|ranked|] == ranked;
  }

  /** The keys, characters and tokens of what is selected. */
  ghost predicate Accounts(selected: seq<Chunk>, used: set<Key>, chars: nat, tokens: nat) {
    && (forall k :: k in used <==> KeyUsed(selected, k))
    && chars == Chars(selected) && tokens == TokenSum(selected)
  }

  lemma AccountsAppend(selected: seq<Chunk>, used: set<Key>, chars: nat, tokens: nat, c: Chunk)
    requires Accounts(selected, used, chars, tokens)
    ensures Accounts(selected + [c], used + {KeyOf(c)}, chars + |c.content|, tokens + Tokens(c.content))
  {
    SumsAppend(selected, c);
    forall k
      ensures k in used + {KeyOf(c)} <==> KeyUsed(selected + [c], k)
    {
      if KeyUsed(selected, k) {
        var i :| 0 <= i < |selected| && KeyOf(selected[i]) == k;
        assert KeyOf((selected + [c])[i]) == k;
      }
      assert KeyOf((selected + [c])[|selected|]) == KeyOf(c);
    }
  }

  lemma {:induction false} FullStaysFull(lim: Limits, cs: seq<Chunk>, n: nat)
    requires n <= |cs| && |Greedy(lim, cs[..n])| >= lim.maxChunks
    ensures Greedy(lim, cs) == Greedy(lim, cs[..n])
  {
    if n < |cs| {
      assert cs[..|cs| - 1][..n] == cs[..n];
      FullStaysFull(lim, cs[..|cs| - 1], n);
    } else {
      assert cs[..n] == cs;
    }
  }

  /** What the first loop has selected from some heads, while it goes on and when it stops. */
  ghost predicate TakenFrom(lim: Limits, heads: seq<Chunk>, selected: seq<Chunk>) {
    selected == if lim.maxChunks >= 1 then Greedy(lim, heads) else FirstFit(lim, heads)
  }

  /** The loop stops once the selection is full; the remaining heads would not change it. */
  lemma HeadsFull(lim: Limits, heads: seq<Chunk>, n: nat, selected: seq<Chunk>)
    requires n <= |heads| && TakenFrom(lim, heads[..n], selected)
    requires |selected| >= lim.maxChunks && selected != []
    ensures TakenFrom(lim, heads, selected)
  {
    if lim.maxChunks >= 1 {
      FullStaysFull(lim, heads, n);
    } else {
      FirstFitStays(lim, heads, n);
    }
  }

  /** One turn of the first loop, by whether the key is unused and the chunk fits. */
  lemma HeadsStep(lim: Limits, heads: seq<Chunk>, i: nat, selected: seq<Chunk>, take: bool)
    requires i < |heads| && TakenFrom(lim, heads[..i], selected)
    requires |selected| < lim.maxChunks || (lim.maxChunks <= 0 && selected == [])
    requires take <==> !KeyUsed(selected, KeyOf(heads[i])) && Fits(lim, selected, heads[i])
    ensures TakenFrom(lim, heads[..i + 1], if take then selected + [heads[i]] else selected)
  {
    assert heads[..i + 1][..i] == heads[..i];
  }

  /** First loop: one chunk per engine; it checks for a free place only after taking one. */
  method TakeHeads(heads: seq<Chunk>, lim: Limits)
    returns (selected: seq<Chunk>, used: set<Key>, chars: nat, tokens: nat, full: bool)
    requires DistinctKeys(heads)
    ensures Accounts(selected, used, chars, tokens)
    ensures lim.maxChunks >= 1 ==> selected == Greedy(lim, heads) && (full ==> |selected| >= lim.maxChunks)
    ensures lim.maxChunks <= 0 ==> selected == FirstFit(lim, heads) && (full <==> selected != [])
  {
    selected, used, chars, tokens, full := [], {}, 0, 0, false;
    for i := 0 to |heads|
      invariant Accounts(selected, used, chars, tokens) && TakenFrom(lim, heads[..i], selected)
      invariant |selected| < lim.maxChunks || (lim.maxChunks <= 0 && selected == [])
    {
      var chunk := heads[i];
      var key := KeyOf(chunk);
      HeadsStep(lim, heads, i, selected, !KeyUsed(selected, key) && Fits(lim, selected, chunk));
      if key in used {
        continue;
      }
      if chars + |chunk.content| > lim.maxChars || tokens + Tokens(chunk.content) > lim.maxTokens {
        continue;
      }
      AccountsAppend(selected, used, chars, tokens, chunk);
      selected := selected + [chunk];
      used := used + {key};
      chars := chars + |chunk.content|;
      tokens := tokens + Tokens(chunk.content);
      if |selected| >= lim.maxChunks {
        full := true;
        HeadsFull(lim, heads, i + 1, selected);
        return;
      }
    }
    assert heads[..|heads|] == heads;
  }

  lemma {:induction false} FirstFitStays(lim: Limits, heads: seq<Chunk>, n: nat)
    requires n <= |heads| && FirstFit(lim, heads[..n]) != []
    ensures FirstFit(lim, heads) == FirstFit(lim, heads[..n])
  {
    if n < |heads| {
      assert heads[..|heads| - 1][..n] == heads[..n];
      FirstFitStays(lim, heads[..|heads| - 1], n);
    } else {
      assert heads[..n] == heads;
    }
  }

  /** The greedy pass continued from a given selection. */
  function Continue(lim: Limits, start: seq<Chunk>, cs: seq<Chunk>): seq<Chunk> {
    if cs == [] then start else Offer(lim, Continue(lim, start, cs[..|cs| - 1]), cs[|cs| - 1])
  }

  lemma GreedySnoc(lim: Limits, cs: seq<Chunk>, c: Chunk)
    ensures Greedy(lim, cs + [c]) == Offer(lim, Greedy(lim, cs), c)
  {
  }

  lemma {:induction false} ContinueIsGreedy(lim: Limits, before: seq<Chunk>, cs: seq<Chunk>)
    ensures Continue(lim, Greedy(lim, before), cs) == Greedy(lim, before + cs)
  {
    if cs == [] {
      assert before + cs == before;
    } else {
      var n := |cs| - 1;
      calc {
        Continue(lim, Greedy(lim, before), cs);
        Offer(lim, Continue(lim, Greedy(lim, before), cs[..n]), cs[n]);
        { ContinueIsGreedy(lim, before, cs[..n]); }
        Offer(lim, Greedy(lim, before + cs[..n]), cs[n]);
        { GreedySnoc(lim, before + cs[..n], cs[n]); }
        Greedy(lim, before + cs[..n] + [cs[n]]);
        { assert before + cs[..n] + [cs[n]] == before + cs; }
        Greedy(lim, before + cs);
      }
    }
  }

  lemma {:induction false} ContinueWhenFull(lim: Limits, start: seq<Chunk>, cs: seq<Chunk>, n: nat)
    requires n <= |cs| && |Continue(lim, start, cs[..n])| >= lim.maxChunks
    ensures Continue(lim, start, cs) == Continue(lim, start, cs[..n])
  {
    if n < |cs| {
      assert cs[..|cs| - 1][..n] == cs[..n];
      ContinueWhenFull(lim, start, cs[..|cs| - 1], n);
    } else {
      assert cs[..n] == cs;
    }
  }

  /** Second loop: everything else by score. */
  method TakeRanked(ranked: seq<Chunk>, lim: Limits, start: seq<Chunk>, used0: set<Key>, chars0: nat, tokens0: nat)
    returns (selected: seq<Chunk>)
    requires Accounts(start, used0, chars0, tokens0)
    ensures selected == Continue(lim, start, ranked)
  {
    selected := start;
    var used := used0;
    var chars: nat, tokens: nat := chars0, tokens0;
    for i := 0 to |ranked|
      invariant Accounts(selected, used, chars, tokens)
      invariant selected == Continue(lim, start, ranked[..i])
    {
      var chunk := ranked[i];
      var key := KeyOf(chunk);
      assert ranked[..i + 1][..i] == ranked[..i];
      if key in used {
        continue;
      }
      if |selected| >= lim.maxChunks {
        ContinueWhenFull(lim, start, ranked, i);
        return;
      }
      if chars + |chunk.content| > lim.maxChars || tokens + Tokens(chunk.content) > lim.maxTokens {
        continue;
      }
      AccountsAppend(selected, used, chars, tokens, chunk);
      selected := selected + [chunk];
      used := used + {key};
      chars := chars + |chunk.content|;
      tokens := tokens + Tokens(chunk.content);
    }
    assert ranked[..|ranked|] == ranked;
  }

  /** Ranking and packing of merged chunks. With at least one place the two loops are one greedy
      pass over the engine heads followed by the whole ranking. */
  method Select(chunks: seq<Chunk>, lim: Limits) returns (selected: seq<Chunk>)
    ensures var ranked := StableSort(chunks, ByScore());
            && (lim.maxChunks >= 1 ==> selected == Greedy(lim, Heads(ranked) + ranked))
            && (lim.maxChunks <= 0 ==> selected == FirstFit(lim, Heads(ranked)))
  {
    var ranked := StableSort(chunks, ByScore());
    var heads := EngineHeads(ranked);
    HeadsDistinctKeys(ranked);
    var used, chars, tokens, full;
    selected, used, chars, tokens, full := TakeHeads(heads, lim);
    if full {
      if lim.maxChunks >= 1 {
        assert (heads + ranked)[..|heads|] == heads;
        FullStaysFull(lim, heads + ranked, |heads|);
      }
      return;
    }
    if lim.maxChunks >= 1 {
      ContinueIsGreedy(lim, heads, ranked);
    } else {
      assert ranked[..0] == [];
      ContinueWhenFull(lim, selected, ranked, 0);
    }
    selected := TakeRanked(ranked, lim, selected, used, chars, tokens);
  }

  // ---- what the selection promises ---------------------------------------------------------

  ghost function Selection(ranked: seq<Chunk>, lim: Limits): seq<Chunk> {
    if lim.maxChunks >= 1 then Greedy(lim, Heads(ranked) + ranked) else FirstFit(lim, Heads(ranked))
  }

  /** Bounded: count, characters and tokens, distinct keys, and only ranked chunks. */
  lemma SelectionBounded(ranked: seq<Chunk>, lim: Limits)
    requires lim.maxChunks >= 1
    ensures var r := Selection(ranked, lim);
            && |r| <= lim.maxChunks
            && (r != [] ==> Chars(r) <= lim.maxChars && TokenSum(r) <= lim.maxTokens)
            && DistinctKeys(r)
            && forall i :: 0 <= i < |r| ==> r[i] in ranked
  {
    var all := Heads(ranked) + ranked;
    GreedyBounded(lim, all);
    HeadsSound(ranked);
    forall i | 0 <= i < |Greedy(lim, all)|
      ensures Greedy(lim, all)[i] in ranked
    {
      GreedyMembers(lim, all, i);
    }
  }

  /** Saturated: if places are left, every ranked chunk not selected has a used key or does not fit. */
  lemma SelectionSaturated(ranked: seq<Chunk>, lim: Limits, i: nat)
    requires lim.maxChunks >= 1 && i < |ranked| && |Selection(ranked, lim)| < lim.maxChunks
    ensures var r := Selection(ranked, lim);
            || (exists j :: 0 <= j < |r| && KeyOf(r[j]) == KeyOf(ranked[i]))
            || Chars(r) + |ranked[i].content| > lim.maxChars
            || TokenSum(r) + Tokens(ranked[i].content) > lim.maxTokens
  {
    var all := Heads(ranked) + ranked;
    assert all[|Heads(ranked)| + i] == ranked[i];
    GreedySaturated(lim, all, |Heads(ranked)| + i);
  }

  /** Diverse: if the engine heads fit together, every engine present is represented by its best. */
  lemma SelectionDiverse(ranked: seq<Chunk>, lim: Limits, i: nat)
    requires i < |ranked| && 1 <= |Heads(ranked)| <= lim.maxChunks
    requires Chars(Heads(ranked)) <= lim.maxChars && TokenSum(Heads(ranked)) <= lim.maxTokens
    ensures Heads(ranked) <= Selection(ranked, lim)
    ensures HasEngine(Selection(ranked, lim), ranked[i].engine)
  {
    var heads := Heads(ranked);
    HeadsDistinctKeys(ranked);
    GreedyTakesAll(lim, heads);
    assert (heads + ranked)[..|heads|] == heads;
    GreedyGrows(lim, heads + ranked, |heads|);
    HeadsSound(ranked);
    assert HasEngine(ranked, ranked[i].engine);
    var j :| 0 <= j < |heads| && heads[j].engine == ranked[i].engine;
    assert Selection(ranked, lim)[j] == heads[j];
  }

  lemma {:induction false} FirstFitEmptyIff(lim: Limits, heads: seq<Chunk>)
    ensures FirstFit(lim, heads) == [] <==> forall i :: 0 <= i < |heads| ==> !Fits(lim, [], heads[i])
    ensures |FirstFit(lim, heads)| <= 1
  {
    if heads != [] {
      FirstFitEmptyIff(lim, heads[..|heads| - 1]);
    }
  }

  /** The count limit holds exactly when it allows at least one chunk or no engine head fits at all:
      the first loop looks at the limit only after it has taken a chunk. */
  lemma CountLimitIff(ranked: seq<Chunk>, lim: Limits)
    ensures |Selection(ranked, lim)| <= (if lim.maxChunks < 0 then 0 else lim.maxChunks) <==>
            lim.maxChunks >= 1 || forall i :: 0 <= i < |Heads(ranked)| ==> !Fits(lim, [], Heads(ranked)[i])
  {
    if lim.maxChunks >= 1 {
      SelectionBounded(ranked, lim);
    } else {
      FirstFitEmptyIff(lim, Heads(ranked));
      assert Selection(ranked, lim) == FirstFit(lim, Heads(ranked));
      assert |FirstFit(lim, Heads(ranked))| <= 0 <==> FirstFit(lim, Heads(ranked)) == [];
    }
  }

  /** A limit of zero chunks still lets one through. */
  lemma ZeroLimitReturnsOne()
    ensures |Selection([Chunk("e", "s", "text", 1.0, "")], Limits(0, 100, 100))| == 1
  {
  }

  // ---- rerank ------------------------------------------------------------------------------

  function EngineWeight(engine: string): real {
    if engine == "repository_map" then 1.2
    else if engine == "codecompass_vector" then 0.65
    else if engine == "semantic_search" then 0.85
    else if engine == "agentic_search" then 0.75
    else 1.0
  }

  /** `lexical` counts the query tokens found in the chunk's text. */
  function Rescored(c: Chunk, lexical: nat): Chunk {
    c.(score := c.score * EngineWeight(c.engine) + lexical as real * 0.25)
  }

  function RescoredAll(vs: seq<Chunk>, lexical: seq<nat>): seq<Chunk>
    requires |vs| == |lexical|
  {
    seq(|vs|, i requires 0 <= i < |vs| => Rescored(vs[i], lexical[i]))
  }

  const ENGINE_WEIGHTS := map[
    "repository_map" := 1.2, "codecompass_vector" := 0.65, "semantic_search" := 0.85, "agentic_search" := 0.75]

  /** Rescoring multiplies by the engine's weight, adds a quarter per token found, and changes nothing
      else. */
  lemma RescoredScores(vs: seq<Chunk>, lexical: seq<nat>, i: nat)
    requires |vs| == |lexical| && i < |vs|
    ensures var c, c' := vs[i], RescoredAll(vs, lexical)[i];
      && c' == c.(score := c'.score)
      && 4.0 * (c'.score - c.score * (if c.engine in ENGINE_WEIGHTS then ENGINE_WEIGHTS[c.engine] else 1.0)) == lexical[i] as real
  {
  }

  method RescoreOne(cs: seq<ContextChunk>, ghost vs: seq<Chunk>, i: nat, lexical: nat)
    requires DistinctObjects(cs) && Show(cs, vs) && i < |cs|
    modifies cs[i]
    ensures Show(cs, vs[i := Rescored(vs[i], lexical)])
  {
    assert cs[i].View() == vs[i];
    cs[i].SetScore(cs[i].score * EngineWeight(cs[i].engine) + lexical as real * 0.25);
  }

  /** The scoring loop, in place. */
  method Rescore(cs: seq<ContextChunk>, ghost vs: seq<Chunk>, lexical: seq<nat>)
    requires DistinctObjects(cs) && Show(cs, vs) && |lexical| == |cs|
    modifies set c | c in cs
    ensures Show(cs, RescoredAll(vs, lexical))
  {
    ghost var now := vs;
    for i := 0 to |cs|
      invariant Show(cs, now) && |now| == |vs|
      invariant forall j :: 0 <= j < |vs| ==> now[j] == if j < i then Rescored(vs[j], lexical[j]) else vs[j]
    {
      assert cs[i] in cs;
      RescoreOne(cs, now, i, lexical[i]);
      now := now[i := Rescored(now[i], lexical[i])];
    }
    assert now == RescoredAll(vs, lexical);
  }

  /** `rerank`: rescore and merge in place, then rank and pack. */
  method Rerank(cs: seq<ContextChunk>, ghost vs: seq<Chunk>, lexical: seq<nat>, lim: Limits)
    returns (selected: seq<ContextChunk>)
    requires DistinctObjects(cs) && Show(cs, vs) && |lexical| == |cs|
    modifies set c | c in cs
    ensures Show(selected, Selection(StableSort(Merged(RescoredAll(vs, lexical)), ByScore()), lim))
    ensures DistinctObjects(selected) && forall c :: c in selected ==> c in cs
  {
    Rescore(cs, vs, lexical);
    var merged := MergeSameSource(cs, RescoredAll(vs, lexical));
    selected := SelectObjects(merged, Merged(RescoredAll(vs, lexical)), lim);
  }

  /** Ranking and packing read the merged objects and return some of them. */
  method SelectObjects(merged: seq<ContextChunk>, ghost vs: seq<Chunk>, lim: Limits)
    returns (selected: seq<ContextChunk>)
    requires Show(merged, vs)
    ensures Show(selected, Selection(StableSort(vs, ByScore()), lim))
    ensures DistinctObjects(selected) && forall c :: c in selected ==> c in merged
  {
    var values := Snapshot(merged, vs);
    var chosen := Select(values, lim);
    assert chosen == Selection(StableSort(vs, ByScore()), lim);
    SelectionDistinct(vs, lim);
    selected := ObjectsOf(merged, values, chosen);
  }

  lemma {:induction false} FirstFitMember(lim: Limits, heads: seq<Chunk>)
    ensures |FirstFit(lim, heads)| <= 1 && forall c :: c in FirstFit(lim, heads) ==> c in heads
  {
    if heads != [] {
      FirstFitMember(lim, heads[..|heads| - 1]);
    }
  }

  /** Values from `all`, none twice. */
  ghost predicate DistinctFrom(r: seq<Chunk>, all: seq<Chunk>) {
    (forall i, j :: 0 <= i < j < |r| ==> r[i] != r[j]) && forall i :: 0 <= i < |r| ==> r[i] in all
  }

  lemma SelectionFromRanking(ranked: seq<Chunk>, lim: Limits)
    ensures DistinctFrom(Selection(ranked, lim), ranked)
  {
    var r := Selection(ranked, lim);
    if lim.maxChunks >= 1 {
      SelectionBounded(ranked, lim);
      assert forall i, j :: 0 <= i < j < |r| ==> KeyOf(r[i]) != KeyOf(r[j]);
    } else {
      FirstFitMember(lim, Heads(ranked));
      HeadsSound(ranked);
      forall i | 0 <= i < |r|
        ensures r[i] in ranked
      {
        assert r[i] in Heads(ranked);
      }
    }
  }

  lemma SortMembers(values: seq<Chunk>)
    ensures forall i :: 0 <= i < |StableSort(values, ByScore())| ==> StableSort(values, ByScore())[i] in values
  {
    var ranked := StableSort(values, ByScore());
    SortSound(values, ByScore());
    forall i | 0 <= i < |ranked|
      ensures ranked[i] in values
    {
      assert ranked[i] in multiset(ranked);
    }
  }

  /** Whatever the limits, the selection takes values from the ranking and none twice. */
  lemma SelectionDistinct(values: seq<Chunk>, lim: Limits)
    ensures DistinctFrom(Selection(StableSort(values, ByScore()), lim), values)
  {
    var ranked := StableSort(values, ByScore());
    SortMembers(values);
    SelectionFromRanking(ranked, lim);
    var r := Selection(ranked, lim);
    forall i | 0 <= i < |r|
      ensures r[i] in values
    {
      assert r[i] in ranked;
    }
  }

  /** The objects that have the selected values. */
  method ObjectsOf(merged: seq<ContextChunk>, values: seq<Chunk>, chosen: seq<Chunk>)
    returns (selected: seq<ContextChunk>)
    requires Show(merged, values)
    requires DistinctFrom(chosen, values)
    ensures Show(selected, chosen)
    ensures DistinctObjects(selected) && forall c :: c in selected ==> c in merged
  {
    selected := [];
    for i := 0 to |chosen|
      invariant Show(selected, chosen[..i]) && forall c :: c in selected ==> c in merged
    {
      assert chosen[i] in values;
      var k := 0;
      while values[k] != chosen[i]
        invariant 0 <= k < |values| && chosen[i] !in values[..k]
        decreases |values| - k
      {
        k := k + 1;
        assert values[..k] == values[..k - 1] + [values[k - 1]];
        assert values == values[..k] + values[k..];
      }
      assert merged[k].View() == values[k];
      selected := selected + [merged[k]];
    }
    assert chosen[..|chosen|] == chosen;
  }

  method Snapshot(cs: seq<ContextChunk>, ghost vs: seq<Chunk>) returns (values: seq<Chunk>)
    requires Show(cs, vs)
    ensures values == vs
  {
    values := [];
    for i := 0 to |cs|
      invariant values == vs[..i]
    {
      values := values + [cs[i].View()];
    }
  }
}
