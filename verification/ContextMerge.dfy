/** Cross-engine merging of context chunks: `_merge_same_source_chunks` (agent/context_manager.py). */
module ContextMerge {
  import opened Strings

  /** A chunk's value. `signals` is its `cross_engine_signals` metadata, a comma-separated list. */
  datatype Chunk = Chunk(engine: string, source: string, content: string, score: real, signals: string)

  /** The chunk object the merge updates in place. */
  class ContextChunk {
    const engine: string
    const source: string
    var content: string
    var score: real
    var signals: string

    constructor (engine: string, source: string, content: string, score: real)
      ensures View() == Chunk(engine, source, content, score, "")
    {
      this.engine, this.source, this.content, this.score, this.signals := engine, source, content, score, "";
    }

    function View(): Chunk
      reads this
    {
      Chunk(engine, source, content, score, signals)
    }

    method SetScore(value: real)
      modifies this
      ensures View() == old(View()).(score := value)
    {
      score := value;
    }

    method Reinforce(c: ContextChunk)
      requires c != this
      modifies this
      ensures View() == Combine(old(View()), c.View())
    {
      signals := AddSignal(signals, engine, c.engine);
      score := Larger(score, c.score) + Smaller(score, c.score) * 0.15;
      if |c.content| > |content| && c.score >= score * 0.8 {
        content := c.content;
      }
    }
  }

  /** The objects currently have the values `vs`. */
  ghost predicate Show(cs: seq<ContextChunk>, vs: seq<Chunk>)
    reads set c | c in cs
  {
    |cs| == |vs| && forall i :: 0 <= i < |cs| ==> cs[i].View() == vs[i]
  }

  // ---- the metadata string -----------------------------------------------------------------

  /** The stripped parts that are not empty. */
  function NonBlank(parts: seq<string>): seq<string> {
    if parts == [] then []
    else
      var last := Strip(parts[|parts| - 1]);
      NonBlank(parts[..|parts| - 1]) + if last != "" then [last] else []
  }

  /** Adds a name to a sorted list that holds no name twice. */
  function InsertName(name: string, names: seq<string>): seq<string> {
    if names == [] then [name]
    else if names[0] == name then names
    else if StrLe(name, names[0]) then [name] + names
    else [names[0]] + InsertName(name, names[1..])
  }

  /** `sorted(set(names))`. */
  function SortedNames(names: seq<string>): seq<string> {
    if names == [] then [] else InsertName(names[|names| - 1], SortedNames(names[..|names| - 1]))
  }

  /** `",".join(names)`. */
  function Joined(names: seq<string>): string {
    if names == [] then "" else if |names| == 1 then names[0] else names[0] + "," + Joined(names[1..])
  }

  /** The metadata after one more engine: what it lists, or the chunk's own engine if it is empty, is
      split, stripped, extended, sorted and joined again. */
  function AddSignal(signals: string, own: string, engine: string): string {
    Joined(SortedNames(NonBlank(Split(if signals != "" then signals else own, ',')) + [engine]))
  }

  /** What a metadata string lists. */
  function Listed(text: string): set<string> {
    set name | name in NonBlank(Split(text, ','))
  }

  /** What a list of engine names adds up to, each name being split and stripped. */
  ghost function ListedAll(names: seq<string>): set<string> {
    set name, part | name in names && part in Listed(name) :: part
  }

  /** A name that a comma-separated list keeps. */
  predicate PlainName(name: string) { name != "" && ',' !in name && Stripped(name) }

  lemma NonBlankSnoc(parts: seq<string>, part: string)
    ensures NonBlank(parts + [part]) == NonBlank(parts) + if Strip(part) != "" then [Strip(part)] else []
  {
    assert (parts + [part])[..|parts|] == parts;
  }

  lemma {:induction false} NonBlankConcat(a: seq<string>, b: seq<string>)
    ensures NonBlank(a + b) == NonBlank(a) + NonBlank(b)
  {
    if b == [] {
      assert a + b == a;
    } else {
      var n := |b| - 1;
      var last := if Strip(b[n]) != "" then [Strip(b[n])] else [];
      calc {
        NonBlank(a + b);
      == { assert a + b == (a + b[..n]) + [b[n]]; }
        NonBlank((a + b[..n]) + [b[n]]);
      == { NonBlankSnoc(a + b[..n], b[n]); }
        NonBlank(a + b[..n]) + last;
      == { NonBlankConcat(a, b[..n]); }
        NonBlank(a) + NonBlank(b[..n]) + last;
      == { assert NonBlank(b) == NonBlank(b[..n]) + last; }
        NonBlank(a) + NonBlank(b);
      }
    }
  }

  lemma {:induction false} NonBlankPlain(parts: seq<string>, name: string)
    requires name in NonBlank(parts) && forall i :: 0 <= i < |parts| ==> ',' !in parts[i]
    ensures PlainName(name)
  {
    var n := |parts| - 1;
    if name in NonBlank(parts[..n]) {
      NonBlankPlain(parts[..n], name);
    } else {
      StripSound(parts[n]);
    }
  }

  /** Only plain names are ever listed. */
  lemma ListedPlain(text: string, name: string)
    requires name in Listed(text)
    ensures PlainName(name)
  {
    var parts := Split(text, ',');
    forall i | 0 <= i < |parts|
      ensures ',' !in parts[i]
    {
      SplitPartsClean(text, ',', i);
    }
    NonBlankPlain(parts, name);
  }

  lemma PlainListed(name: string)
    requires PlainName(name)
    ensures Listed(name) == {name}
  {
    SplitOne(name, ',');
    StripOfStripped(name);
    assert NonBlank([name]) == [name] by { assert [name][..0] == []; }
  }

  lemma ListedEmpty()
    ensures Listed("") == {}
  {
    assert NonBlank([""]) == [] by { assert [""][..0] == []; }
  }

  lemma CommaListed(x: string, y: string)
    requires PlainName(x) && PlainName(y)
    ensures Listed(x + "," + y) == {x, y} && !PlainName(x + "," + y)
  {
    ListedConcat(x, y);
    PlainListed(x);
    PlainListed(y);
    assert (x + "," + y)[|x|] == ',';
  }

  lemma ListedConcat(a: string, b: string)
    ensures Listed(a + "," + b) == Listed(a) + Listed(b)
  {
    assert a + "," + b == a + [','] + b;
    SplitConcat(a, b, ',');
    NonBlankConcat(Split(a, ','), Split(b, ','));
  }

  lemma ListedAllCons(names: seq<string>)
    requires names != []
    ensures ListedAll(names) == Listed(names[0]) + ListedAll(names[1..])
  {
    assert names == [names[0]] + names[1..];
  }

  /** What a joined list lists, whatever the names; plain names are read back as they are. */
  lemma {:induction false} SignalsRoundTrip(names: seq<string>)
    requires names != []
    ensures Listed(Joined(names)) == ListedAll(names)
    ensures (forall i :: 0 <= i < |names| ==> PlainName(names[i])) ==> Listed(Joined(names)) == set name | name in names
  {
    ListedAllCons(names);
    if |names| == 1 {
      assert ListedAll(names[1..]) == {};
    } else {
      SignalsRoundTrip(names[1..]);
      ListedConcat(names[0], Joined(names[1..]));
    }
    if forall i :: 0 <= i < |names| ==> PlainName(names[i]) {
      AllPlain(names);
    }
  }

  lemma AllPlain(names: seq<string>)
    requires forall i :: 0 <= i < |names| ==> PlainName(names[i])
    ensures ListedAll(names) == set name | name in names
  {
    forall name | name in names
      ensures Listed(name) == {name}
    {
      PlainListed(name);
    }
  }

  ghost predicate Increasing(names: seq<string>) {
    forall i, j :: 0 <= i < j < |names| ==> StrLess(names[i], names[j])
  }

  lemma {:induction false} InsertNameSound(name: string, names: seq<string>)
    requires Increasing(names)
    ensures Increasing(InsertName(name, names))
    ensures forall x :: x in InsertName(name, names) <==> x == name || x in names
    decreases |names|
  {
    if names != [] && names[0] != name {
      if StrLe(name, names[0]) {
        forall j | 0 <= j < |names|
          ensures StrLess(name, names[j])
        {
          BeforeIncreasing(name, names, j);
        }
      } else {
        StrLeTotal(name, names[0]);
        InsertNameSound(name, names[1..]);
        assert names == [names[0]] + names[1..];
        var rest := InsertName(name, names[1..]);
        forall j | 0 <= j < |rest|
          ensures StrLess(names[0], rest[j])
        {
          assert rest[j] in rest;
        }
      }
    }
  }

  lemma BeforeIncreasing(name: string, names: seq<string>, j: nat)
    requires Increasing(names) && j < |names| && StrLess(name, names[0])
    ensures StrLess(name, names[j])
  {
    if j > 0 {
      StrLeTransitive(name, names[0], names[j]);
      if name == names[j] {
        StrLeAntisymmetric(names[0], names[j]);
      }
    }
  }

  /** The written list holds each name once, in order. */
  lemma {:induction false} SortedNamesSound(names: seq<string>)
    ensures Increasing(SortedNames(names))
    ensures forall x :: x in SortedNames(names) <==> x in names
  {
    if names != [] {
      var n := |names| - 1;
      SortedNamesSound(names[..n]);
      InsertNameSound(names[n], SortedNames(names[..n]));
      assert names == names[..n] + [names[n]];
    }
  }

  lemma SameNamesListed(a: seq<string>, b: seq<string>)
    requires forall name :: name in a <==> name in b
    ensures ListedAll(a) == ListedAll(b)
  {
  }

  lemma ListedAllSnoc(names: seq<string>, engine: string)
    ensures ListedAll(names + [engine]) == ListedAll(names) + Listed(engine)
  {
    assert forall name :: name in names + [engine] <==> name in names || name == engine;
  }

  /** Listing what is listed adds nothing. */
  lemma ListedTwice(text: string)
    ensures ListedAll(NonBlank(Split(text, ','))) == Listed(text)
  {
    var names := NonBlank(Split(text, ','));
    forall i | 0 <= i < |names|
      ensures PlainName(names[i])
    {
      assert names[i] in Listed(text);
      ListedPlain(text, names[i]);
    }
    AllPlain(names);
  }

  /** Adding an engine adds what its own name lists, whatever the names are. */
  lemma SignalAdded(signals: string, own: string, engine: string)
    ensures Listed(AddSignal(signals, own, engine)) == Listed(if signals != "" then signals else own) + Listed(engine)
  {
    var text := if signals != "" then signals else own;
    var names := NonBlank(Split(text, ',')) + [engine];
    SortedNamesSound(names);
    assert engine in SortedNames(names);
    calc {
      Listed(Joined(SortedNames(names)));
    == { SignalsRoundTrip(SortedNames(names)); }
      ListedAll(SortedNames(names));
    == { SameNamesListed(SortedNames(names), names); }
      ListedAll(names);
    == { ListedAllSnoc(NonBlank(Split(text, ',')), engine); }
      ListedAll(NonBlank(Split(text, ','))) + Listed(engine);
    == { ListedTwice(text); }
      Listed(text) + Listed(engine);
    }
  }

  // ---- the merge on values -----------------------------------------------------------------

  function Larger(a: real, b: real): real { if a < b then b else a }

  function Smaller(a: real, b: real): real { if a < b then a else b }

  /** A later chunk of the same source reinforces the one already there. */
  function Combine(e: Chunk, c: Chunk): Chunk {
    var score := Larger(e.score, c.score) + Smaller(e.score, c.score) * 0.15;
    e.(score := score,
       signals := AddSignal(e.signals, e.engine, c.engine),
       content := if |c.content| > |e.content| && c.score >= score * 0.8 then c.content else e.content)
  }

  /** The entry of a source, or the number of entries if there is none. */
  function Find(merged: seq<Chunk>, source: string): (i: nat)
    ensures i <= |merged|
    ensures i < |merged| ==> merged[i].source == source
    ensures forall j :: 0 <= j < i ==> merged[j].source != source
  {
    if merged == [] || merged[0].source == source then 0 else 1 + Find(merged[1..], source)
  }

  /** A chunk without a source always stands alone. */
  function Absorb(merged: seq<Chunk>, c: Chunk): seq<Chunk> {
    var i := Find(merged, c.source);
    if c.source == "" then merged + [c]
    else if i < |merged| then merged[i := Combine(merged[i], c)]
    else merged + [c.(signals := c.engine)]
  }

  function Merged(cs: seq<Chunk>): seq<Chunk> {
    if cs == [] then [] else Absorb(Merged(cs[..|cs| - 1]), cs[|cs| - 1])
  }

  // ---- what the merge means ----------------------------------------------------------------

  /** The chunks of one source. */
  function Members(cs: seq<Chunk>, source: string): seq<Chunk> {
    if cs == [] then []
    else
      var c := cs[|cs| - 1];
      Members(cs[..|cs| - 1], source) + if c.source == source then [c] else []
  }

  function ScoreSum(cs: seq<Chunk>): real {
    if cs == [] then 0.0 else ScoreSum(cs[..|cs| - 1]) + cs[|cs| - 1].score
  }

  function Engines(cs: seq<Chunk>): set<string> {
    set i | 0 <= i < |cs| :: cs[i].engine
  }

  /** What the engine names list. */
  function EngineParts(cs: seq<Chunk>): set<string> {
    set i, part | 0 <= i < |cs| && part in Listed(cs[i].engine) :: part
  }

  /** Sources in first-seen order; the empty source is never shared. */
  function FirstSeen(cs: seq<Chunk>): seq<string> {
    if cs == [] then []
    else
      var before, s := FirstSeen(cs[..|cs| - 1]), cs[|cs| - 1].source;
      if s == "" || s !in before then before + [s] else before
  }

  function Sources(cs: seq<Chunk>): seq<string> {
    seq(|cs|, i requires 0 <= i < |cs| => cs[i].source)
  }

  ghost predicate NonNegative(cs: seq<Chunk>) {
    forall i :: 0 <= i < |cs| ==> cs[i].score >= 0.0
  }

  /** `m` stands for its group: content from a member and no shorter than the first one's, metadata
      listing exactly what the members' engine names list. */
  ghost predicate Represents(m: Chunk, group: seq<Chunk>) {
    && group != []
    && m.engine == group[0].engine && m.source == group[0].source
    && (exists i :: 0 <= i < |group| && m.content == group[i].content)
    && |m.content| >= |group[0].content|
    && Listed(m.signals) == EngineParts(group)
  }

  /** Its score lies between the group's maximum and sum. */
  ghost predicate ScoresWithin(m: Chunk, group: seq<Chunk>) {
    (forall i :: 0 <= i < |group| ==> group[i].score <= m.score) && m.score <= ScoreSum(group)
  }

  lemma CombineRepresents(m: Chunk, group: seq<Chunk>, c: Chunk)
    requires Represents(m, group)
    ensures Represents(Combine(m, c), group + [c])
  {
    SignalsSnoc(m, group, c);
    ContentFromMember(m, group, c);
  }

  lemma AloneRepresents(c: Chunk)
    ensures Represents(c.(signals := c.engine), [c])
  {
  }

  lemma SignalsSnoc(m: Chunk, group: seq<Chunk>, c: Chunk)
    requires group != [] && m.engine == group[0].engine && Listed(m.signals) == EngineParts(group)
    ensures Listed(Combine(m, c).signals) == EngineParts(group + [c])
  {
    SignalAdded(m.signals, m.engine, c.engine);
    PartsSnoc(group, c);
    if m.signals == "" {
      ListedEmpty();
      assert Listed(group[0].engine) <= EngineParts(group);
    }
  }

  lemma ScoresSnoc(m: Chunk, group: seq<Chunk>, c: Chunk)
    requires NonNegative(group) && c.score >= 0.0 && group != []
    requires ScoresWithin(m, group)
    ensures ScoresWithin(Combine(m, c), group + [c])
  {
    assert group[0].score <= m.score;
    assert (group + [c])[..|group|] == group;
  }

  lemma PartsSnoc(group: seq<Chunk>, c: Chunk)
    ensures EngineParts(group + [c]) == EngineParts(group) + Listed(c.engine)
  {
    var all := group + [c];
    forall part | part in EngineParts(group) + Listed(c.engine)
      ensures part in EngineParts(all)
    {
      if part in EngineParts(group) {
        var i :| 0 <= i < |group| && part in Listed(group[i].engine);
        assert part in Listed(all[i].engine);
      } else {
        assert part in Listed(all[|group|].engine);
      }
    }
  }

  lemma ContentFromMember(m: Chunk, group: seq<Chunk>, c: Chunk)
    requires exists i :: 0 <= i < |group| && m.content == group[i].content
    ensures exists i :: 0 <= i < |group + [c]| && Combine(m, c).content == (group + [c])[i].content
  {
    var i :| 0 <= i < |group| && m.content == group[i].content;
    var j := if Combine(m, c).content == m.content then i else |group|;
    assert Combine(m, c).content == (group + [c])[j].content;
  }

  lemma AbsorbSources(before: seq<Chunk>, c: Chunk)
    ensures Sources(Absorb(before, c)) ==
            Sources(before) + if c.source == "" || c.source !in Sources(before) then [c.source] else []
  {
    var i := Find(before, c.source);
    assert forall j :: 0 <= j < |before| ==> Sources(before)[j] == before[j].source;
    if i < |before| {
      assert Sources(before)[i] == c.source;
    }
  }

  /** One output per distinct non-empty source, in first-seen order. */
  lemma {:induction false} MergedSources(cs: seq<Chunk>)
    ensures Sources(Merged(cs)) == FirstSeen(cs)
  {
    if cs != [] {
      var n := |cs| - 1;
      MergedSources(cs[..n]);
      AbsorbSources(Merged(cs[..n]), cs[n]);
    }
  }

  lemma {:induction false} FirstSeenDistinct(cs: seq<Chunk>)
    ensures forall i, j :: 0 <= i < j < |FirstSeen(cs)| && FirstSeen(cs)[i] == FirstSeen(cs)[j] ==> FirstSeen(cs)[i] == ""
    ensures forall s :: s in FirstSeen(cs) <==> Members(cs, s) != []
  {
    if cs != [] {
      FirstSeenDistinct(cs[..|cs| - 1]);
    }
  }

  lemma MembersNonNegative(cs: seq<Chunk>, s: string)
    requires NonNegative(cs)
    ensures NonNegative(Members(cs, s))
  {
  }

  /** How an output with a source comes about: kept as it was, reinforced by the last chunk, or new. */
  lemma MergedCase(cs: seq<Chunk>, i: nat)
    requires i < |Merged(cs)| && Merged(cs)[i].source != ""
    ensures cs != []
    ensures
      var n := |cs| - 1;
      var m, s, c := Merged(cs)[i], Merged(cs)[i].source, cs[n];
      var before, group := Merged(cs[..n]), Members(cs[..n], s);
      if i < |before| then
        && before[i].source == s
        && (if c.source == s then m == Combine(before[i], c) && Members(cs, s) == group + [c]
            else m == before[i] && Members(cs, s) == group)
      else m == c.(signals := c.engine) && Members(cs, s) == [c]
  {
    var n := |cs| - 1;
    var init, c := cs[..n], cs[n];
    var before, s := Merged(init), Merged(cs)[i].source;
    var at := Find(before, c.source);
    MergedSources(init);
    FirstSeenDistinct(init);
    if i < |before| {
      assert Sources(before)[i] == before[i].source == s;
      if at < |before| {
        assert Sources(before)[at] == c.source;
      }
    } else {
      assert s == c.source && at == |before|;
      assert s !in Sources(before);
    }
  }

  /** Every output with a source represents exactly the inputs of that source, whatever their scores. */
  lemma {:induction false} MergedRepresents(cs: seq<Chunk>, i: nat)
    requires i < |Merged(cs)| && Merged(cs)[i].source != ""
    ensures Represents(Merged(cs)[i], Members(cs, Merged(cs)[i].source))
  {
    MergedCase(cs, i);
    var init, c := cs[..|cs| - 1], cs[|cs| - 1];
    var before, s := Merged(init), Merged(cs)[i].source;
    if i < |before| {
      MergedRepresents(init, i);
      CombineRepresents(before[i], Members(init, s), c);
    } else {
      AloneRepresents(c);
    }
  }

  /** With non-negative scores its score lies between the group's maximum and sum. */
  lemma {:induction false} MergedScores(cs: seq<Chunk>, i: nat)
    requires NonNegative(cs)
    requires i < |Merged(cs)| && Merged(cs)[i].source != ""
    ensures ScoresWithin(Merged(cs)[i], Members(cs, Merged(cs)[i].source))
  {
    MergedCase(cs, i);
    var init, c := cs[..|cs| - 1], cs[|cs| - 1];
    var before, s := Merged(init), Merged(cs)[i].source;
    if i < |before| {
      MergedScores(init, i);
      MergedRepresents(init, i);
      MembersNonNegative(init, s);
      ScoresSnoc(before[i], Members(init, s), c);
    }
  }

  lemma FindFirst(merged: seq<Chunk>, source: string, i: nat)
    requires i < |merged| && merged[i].source == source
    requires forall j :: 0 <= j < i ==> merged[j].source != source
    ensures Find(merged, source) == i
  {
  }

  lemma FindIsOnly(cs: seq<Chunk>, i: nat)
    requires i < |Merged(cs)| && Merged(cs)[i].source != ""
    ensures Find(Merged(cs), Merged(cs)[i].source) == i
  {
    var merged := Merged(cs);
    MergedSources(cs);
    FirstSeenDistinct(cs);
    assert forall j :: 0 <= j < |merged| ==> Sources(merged)[j] == merged[j].source;
    FindFirst(merged, merged[i].source, i);
  }

  /** One more chunk of a known source adds 15 percent of the smaller score to the larger one, and its
      content replaces a shorter one if its own score is at least 80 percent of the new one. */
  lemma LaterChunkReinforces(cs: seq<Chunk>, c: Chunk, i: nat)
    requires i < |Merged(cs)| && Merged(cs)[i].source == c.source != ""
    ensures var before, after := Merged(cs), Merged(cs + [c]);
      var e, e' := before[i], after[i];
      && |after| == |before| && (forall j :: 0 <= j < |before| && j != i ==> after[j] == before[j])
      && e'.engine == e.engine && e'.source == e.source
      && (e.score >= c.score ==> 20.0 * e'.score == 20.0 * e.score + 3.0 * c.score)
      && (e.score <= c.score ==> 20.0 * e'.score == 20.0 * c.score + 3.0 * e.score)
      && (|c.content| > |e.content| && 5.0 * c.score >= 4.0 * e'.score ==> e'.content == c.content)
      && (|c.content| <= |e.content| || 5.0 * c.score < 4.0 * e'.score ==> e'.content == e.content)
  {
    assert (cs + [c])[..|cs|] == cs;
    FindIsOnly(cs, i);
  }

  /** A chunk of a new source is kept as it is, with its engine as metadata; so is one without a source. */
  lemma NewChunkIsKept(cs: seq<Chunk>, c: Chunk)
    requires c.source == "" || c.source !in Sources(Merged(cs))
    ensures Merged(cs + [c]) == Merged(cs) + [if c.source == "" then c else c.(signals := c.engine)]
  {
    assert (cs + [c])[..|cs|] == cs;
    var merged := Merged(cs);
    assert forall j :: 0 <= j < |merged| ==> Sources(merged)[j] == merged[j].source;
  }

  /** The metadata of an output lists exactly its group's engines iff all their names are plain. */
  lemma SignalsAreEnginesIff(cs: seq<Chunk>, i: nat)
    requires i < |Merged(cs)| && Merged(cs)[i].source != ""
    ensures var group := Members(cs, Merged(cs)[i].source);
      Listed(Merged(cs)[i].signals) == Engines(group) <==> forall j :: 0 <= j < |group| ==> PlainName(group[j].engine)
  {
    MergedRepresents(cs, i);
    EnginePartsIff(Members(cs, Merged(cs)[i].source));
  }

  lemma EnginePartsIff(group: seq<Chunk>)
    ensures EngineParts(group) == Engines(group) <==> forall i :: 0 <= i < |group| ==> PlainName(group[i].engine)
  {
    if forall i :: 0 <= i < |group| ==> PlainName(group[i].engine) {
      forall i | 0 <= i < |group|
        ensures Listed(group[i].engine) == {group[i].engine}
      {
        PlainListed(group[i].engine);
      }
    }
    if EngineParts(group) == Engines(group) {
      forall i | 0 <= i < |group|
        ensures PlainName(group[i].engine)
      {
        assert group[i].engine in Engines(group);
        PartIsPlain(group, group[i].engine);
      }
    }
  }

  lemma PartIsPlain(group: seq<Chunk>, name: string)
    requires name in EngineParts(group)
    ensures PlainName(name)
  {
    var i :| 0 <= i < |group| && name in Listed(group[i].engine);
    ListedPlain(group[i].engine, name);
  }

  /** An engine name with a comma is listed as its two parts, and not as itself. */
  lemma CommaNameIsSplit(cs: seq<Chunk>, i: nat, j: nat, x: string, y: string)
    requires i < |Merged(cs)| && Merged(cs)[i].source != "" && j < |Members(cs, Merged(cs)[i].source)|
    requires Members(cs, Merged(cs)[i].source)[j].engine == x + "," + y && PlainName(x) && PlainName(y)
    ensures {x, y} <= Listed(Merged(cs)[i].signals) && x + "," + y !in Listed(Merged(cs)[i].signals)
  {
    var group := Members(cs, Merged(cs)[i].source);
    MergedRepresents(cs, i);
    CommaListed(x, y);
    assert Listed(group[j].engine) <= EngineParts(group);
    if x + "," + y in EngineParts(group) {
      PartIsPlain(group, x + "," + y);
    }
  }

  // ---- the merge on objects ----------------------------------------------------------------

  ghost predicate DistinctObjects(cs: seq<ContextChunk>) {
    forall i, j :: 0 <= i < j < |cs| ==> cs[i] != cs[j]
  }

  /** `merged` holds objects among the first `i` only. */
  ghost predicate Within(merged: seq<ContextChunk>, cs: seq<ContextChunk>, i: nat) {
    && (forall c :: c in merged ==> c in cs)
    && (forall j :: i <= j < |cs| ==> cs[j] !in merged)
  }

  lemma MergedSnoc(vs: seq<Chunk>, i: nat)
    requires i < |vs|
    ensures Merged(vs[..i + 1]) == Absorb(Merged(vs[..i]), vs[i])
  {
    assert vs[..i + 1][..i] == vs[..i];
  }

  /** `_merge_same_source_chunks`: the surviving objects are updated in place, the others are not
      touched. */
  method MergeSameSource(cs: seq<ContextChunk>, ghost vs: seq<Chunk>) returns (merged: seq<ContextChunk>)
    requires DistinctObjects(cs) && Show(cs, vs)
    modifies set c | c in cs
    ensures Show(merged, Merged(vs))
    ensures DistinctObjects(merged) && forall c :: c in merged ==> c in cs
    ensures Untouched(cs, vs, merged)
  {
    merged := [];
    for i := 0 to |cs|
      invariant MergedSoFar(cs, vs, merged, i)
    {
      merged := MergeNext(cs, vs, merged, i);
    }
    assert vs[..|cs|] == vs;
  }

  /** The state of the loop after `i` chunks. */
  ghost predicate MergedSoFar(cs: seq<ContextChunk>, vs: seq<Chunk>, merged: seq<ContextChunk>, i: nat)
    requires i <= |cs| == |vs|
    reads set c | c in cs + merged
  {
    && DistinctObjects(merged) && Within(merged, cs, i)
    && Show(merged, Merged(vs[..i])) && Untouched(cs, vs, merged)
  }

  method MergeNext(cs: seq<ContextChunk>, ghost vs: seq<Chunk>, merged: seq<ContextChunk>, i: nat)
    returns (merged': seq<ContextChunk>)
    requires DistinctObjects(cs) && i < |cs| == |vs| && MergedSoFar(cs, vs, merged, i)
    modifies set c | c in cs
    ensures MergedSoFar(cs, vs, merged', i + 1)
  {
    MergedSnoc(vs, i);
    assert cs[i] !in merged && cs[i].View() == vs[i];
    merged' := AbsorbObject(merged, Merged(vs[..i]), cs[i]);
  }

  /** The objects that do not survive keep their values. */
  ghost predicate Untouched(cs: seq<ContextChunk>, vs: seq<Chunk>, merged: seq<ContextChunk>)
    requires |cs| == |vs|
    reads set c | c in cs
  {
    forall i :: 0 <= i < |cs| && cs[i] !in merged ==> cs[i].View() == vs[i]
  }

  /** The loop body for one chunk. */
  method AbsorbObject(merged: seq<ContextChunk>, ghost vs: seq<Chunk>, c: ContextChunk)
    returns (merged': seq<ContextChunk>)
    requires DistinctObjects(merged) && c !in merged && Show(merged, vs)
    modifies set o | o in merged + [c]
    ensures Show(merged', Absorb(vs, old(c.View())))
    ensures DistinctObjects(merged')
    ensures merged' == merged || merged' == merged + [c]
    ensures c !in merged' ==> c.View() == old(c.View())
  {
    if c.source == "" {
      merged' := merged + [c];
      return;
    }
    var i := FindObject(merged, vs, c.source);
    if i == |merged| {
      assert c in merged + [c];
      c.signals := c.engine;
      merged' := merged + [c];
    } else {
      assert merged[i] in merged + [c];
      merged[i].Reinforce(c);
      merged' := merged;
    }
  }

  method FindObject(merged: seq<ContextChunk>, ghost vs: seq<Chunk>, source: string) returns (i: nat)
    requires Show(merged, vs)
    ensures i == Find(vs, source)
  {
    i := 0;
    while i < |merged| && merged[i].source != source
      invariant 0 <= i <= |merged|
      invariant forall j :: 0 <= j < i ==> vs[j].source != source
    {
      assert merged[i].View() == vs[i];
      i := i + 1;
    }
    assert i < |merged| ==> merged[i].View() == vs[i];
  }
}
