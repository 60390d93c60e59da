/** The incremental symbol index `RepositoryMapEngine.build` keeps (agent/repository_map_engine.py). */
module RepositoryIndex {

  datatype Option<+T> = None | Some(value: T)

  type Path = string

  /** `(st_mtime, st_size)`. */
  datatype FileState = FileState(mtime: real, size: nat)

  datatype Diagnostic = GuardViolation(code: string) | FileReadFailed(reason: string)

  /** What reading and parsing a file gives: its symbols, possibly none, or a diagnostic. */
  datatype Outcome = Parsed(symbols: seq<string>) | Rejected(diagnostic: Diagnostic)

  /** A tracked file as one scan finds it; an unreadable stat is `None`. */
  datatype File = File(stat: Option<FileState>, outcome: Outcome)

  datatype RawWorld = World(tracked: seq<Path>, files: map<Path, File>)

  /** A snapshot of the file system: the tracked files in scan order, and what is found for each. */
  type World = w: RawWorld | forall p :: p in w.tracked ==> p in w.files witness World([], map[])

  /** What the index remembers about a file: the state it was read in, and the outcome of that read. */
  datatype Entry = Entry(state: FileState, outcome: Outcome)

  type Index = map<Path, Entry>

  function Get(ix: Index, p: Path): Option<Entry> {
    if p in ix then Some(ix[p]) else None
  }

  /** One visit of one file. */
  function Refresh(known: Option<Entry>, f: File, force: bool): Option<Entry> {
    if f.stat.None? then known
    else if !force && known.Some? && known.value.state == f.stat.value then known
    else Some(Entry(f.stat.value, f.outcome))
  }

  /** The index after a complete scan, stated file by file. */
  function Scan(ix: Index, w: World, force: bool): Index {
    map p | p in w.tracked && Refresh(Get(ix, p), w.files[p], force).Some?
      :: Refresh(Get(ix, p), w.files[p], force).value
  }

  // The three dictionaries an index stands for.

  function StatesOf(ix: Index): map<Path, FileState> {
    map p | p in ix :: ix[p].state
  }

  function GraphOf(ix: Index): map<Path, seq<string>> {
    map p | p in ix && ix[p].outcome.Parsed? && ix[p].outcome.symbols != [] :: ix[p].outcome.symbols
  }

  function DiagnosticsOf(ix: Index): map<Path, Diagnostic> {
    map p | p in ix && ix[p].outcome.Rejected? :: ix[p].outcome.diagnostic
  }

  /** The three dictionaries of an engine. */
  datatype Tables = Tables(state: map<Path, FileState>, graph: map<Path, seq<string>>, diagnostics: map<Path, Diagnostic>)

  /** Graph and diagnostics never share a file and never outlive the file's state. */
  ghost predicate Consistent(t: Tables) {
    && t.graph.Keys !! t.diagnostics.Keys
    && t.graph.Keys + t.diagnostics.Keys <= t.state.Keys
    && forall p :: p in t.graph ==> t.graph[p] != []
  }

  function EntryIn(t: Tables, p: Path): Option<Entry> {
    if p !in t.state then None
    else if p in t.diagnostics then Some(Entry(t.state[p], Rejected(t.diagnostics[p])))
    else Some(Entry(t.state[p], Parsed(if p in t.graph then t.graph[p] else [])))
  }

  /** The dictionaries hold this outcome for the file, and nothing else. */
  ghost predicate Holds(t: Tables, p: Path, outcome: Outcome) {
    match outcome
    case Rejected(d) => p in t.diagnostics && t.diagnostics[p] == d && p !in t.graph
    case Parsed(symbols) =>
      p !in t.diagnostics && if symbols == [] then p !in t.graph else p in t.graph && t.graph[p] == symbols
  }

  ghost predicate SameAt<V(!new)>(a: map<Path, V>, b: map<Path, V>, p: Path) {
    (p in a <==> p in b) && (p in a ==> a[p] == b[p])
  }

  ghost predicate Kept(was: Tables, t: Tables, p: Path) {
    SameAt(was.state, t.state, p) && SameAt(was.graph, t.graph, p) && SameAt(was.diagnostics, t.diagnostics, p)
  }

  /** What a scan does about a file: it forgets an untracked one, keeps what it knows of an unreadable or
      unchanged one, and otherwise holds what was read. */
  ghost predicate Rescanned(was: Tables, t: Tables, w: World, force: bool, p: Path) {
    if p !in w.tracked then p !in t.state && p !in t.graph && p !in t.diagnostics
    else if w.files[p].stat.None? then Kept(was, t, p)
    else
      && p in t.state && t.state[p] == w.files[p].stat.value
      && (if !force && p in was.state && was.state[p] == w.files[p].stat.value then Kept(was, t, p)
          else Holds(t, p, w.files[p].outcome))
  }

  class RepositoryMapEngine {
    var fileState: map<Path, FileState>
    var symbolGraph: map<Path, seq<string>>
    var diagnostics: map<Path, Diagnostic>
    var lastScan: real

    constructor ()
      ensures Valid() && Entries() == map[] && lastScan == 0.0
    {
      fileState, symbolGraph, diagnostics, lastScan := map[], map[], map[], 0.0;
    }

    ghost predicate Valid()
      reads this
    {
      Consistent(Contents())
    }

    ghost function Entries(): Index
      reads this
    {
      map p | p in fileState :: EntryAt(p).value
    }

    function EntryAt(p: Path): Option<Entry>
      reads this
    {
      EntryIn(Contents(), p)
    }

    /** A valid engine's dictionaries are determined by its entries. */
    lemma DictionariesOf()
      requires Valid()
      ensures fileState == StatesOf(Entries())
      ensures symbolGraph == GraphOf(Entries())
      ensures diagnostics == DiagnosticsOf(Entries())
    {
    }

    function Contents(): Tables
      reads this
    {
      Tables(fileState, symbolGraph, diagnostics)
    }

    /** A build inside the one-second throttle changes nothing; any other is a complete scan. */
    method Build(now: real, force: bool, w: World)
      requires Valid()
      modifies this
      ensures Valid()
      ensures !force && now - old(lastScan) < 1.0 ==> lastScan == old(lastScan) && Contents() == old(Contents())
      ensures force || now - old(lastScan) >= 1.0 ==>
                lastScan == now && forall p :: Rescanned(old(Contents()), Contents(), w, force, p)
      ensures Cache(Entries(), lastScan) == BuildStep(old(Cache(Entries(), lastScan)), Step(now, force, w))
    {
      if !force && now - lastScan < 1.0 {
        return;
      }
      ghost var was, known := Contents(), Entries();
      lastScan := now;
      assert Contents() == was && Entries() == known;
      Rescan(force, w);
      assert Entries() == Scan(known, w, force);
    }

    /** The scan loop and the removal pass. */
    method Rescan(force: bool, w: World)
      requires Valid()
      modifies this`fileState, this`symbolGraph, this`diagnostics
      ensures Valid()
      ensures forall p :: Rescanned(old(Contents()), Contents(), w, force, p)
      ensures Entries() == Scan(old(Entries()), w, force)
    {
      ghost var was := Contents();
      ghost var known: map<Path, Entry> := Entries();
      var active := VisitAll(force, w);
      RemoveStale(active);
      EntriesAre(Scan(known, w, force));
      forall p
        ensures Rescanned(was, Contents(), w, force, p)
      {
        EntryIsRescanned(was, w, force, p);
      }
    }

    lemma EntryIsRescanned(was: Tables, w: World, force: bool, p: Path)
      requires Valid() && Consistent(was)
      requires EntryAt(p) == if p in w.tracked then Refresh(EntryIn(was, p), w.files[p], force) else None
      ensures Rescanned(was, Contents(), w, force, p)
    {
    }

    lemma EntriesAre(ix: Index)
      requires forall p :: EntryAt(p) == Get(ix, p)
      ensures Entries() == ix
    {
      forall p
        ensures p in Entries() <==> p in ix
        ensures p in ix ==> Entries()[p] == ix[p]
      {
        assert EntryAt(p) == Get(ix, p);
      }
    }

    /** The scan loop: every tracked file is visited, every other entry is left alone. */
    method VisitAll(force: bool, w: World) returns (active: set<Path>)
      requires Valid()
      modifies this`fileState, this`symbolGraph, this`diagnostics
      ensures Valid()
      ensures forall p :: p in active <==> p in w.tracked
      ensures forall p :: p in w.tracked ==> EntryAt(p) == Refresh(old(EntryAt(p)), w.files[p], force)
      ensures forall p :: p !in w.tracked ==> EntryAt(p) == old(EntryAt(p))
    {
      active := {};
      for i := 0 to |w.tracked|
        invariant Valid()
        invariant forall p :: p in active <==> p in w.tracked[..i]
        invariant forall p :: p in w.tracked[..i] ==>
                    EntryAt(p) == Refresh(old(EntryAt(p)), w.files[p], force)
        invariant forall p :: p !in w.tracked[..i] ==> EntryAt(p) == old(EntryAt(p))
      {
        var rel := w.tracked[i];
        assert w.tracked[..i + 1] == w.tracked[..i] + [rel];
        active := active + {rel};
        Visit(rel, w.files[rel], force);
      }
      assert w.tracked[..|w.tracked|] == w.tracked;
    }

    /** The body of the scan loop for one file. */
    method Visit(rel: Path, f: File, force: bool)
      requires Valid()
      modifies this`fileState, this`symbolGraph, this`diagnostics
      ensures Valid()
      ensures EntryAt(rel) == Refresh(old(EntryAt(rel)), f, force)
      ensures forall p :: p != rel ==> EntryAt(p) == old(EntryAt(p))
    {
      if f.stat.None? {
        return;
      }
      var state := f.stat.value;
      if !force && rel in fileState && fileState[rel] == state {
        return;
      }
      fileState := fileState[rel := state];
      match f.outcome
      case Rejected(d) =>
        diagnostics := diagnostics[rel := d];
        symbolGraph := symbolGraph - {rel};
      case Parsed(symbols) =>
        diagnostics := diagnostics - {rel};
        if symbols != [] {
          symbolGraph := symbolGraph[rel := symbols];
        } else {
          symbolGraph := symbolGraph - {rel};
        }
    }

    /** The removal pass: entries of files that are no longer tracked. */
    method RemoveStale(active: set<Path>)
      requires Valid()
      modifies this`fileState, this`symbolGraph, this`diagnostics
      ensures Valid()
      ensures forall p :: EntryAt(p) == if p in active then old(EntryAt(p)) else None
    {
      var removed := fileState.Keys - active;
      while removed != {}
        invariant Valid()
        invariant forall p :: p in active ==> EntryAt(p) == old(EntryAt(p))
        invariant forall p :: p in removed <==> p in fileState && p !in active
        decreases |removed|
      {
        var rel :| rel in removed;
        Forget(rel);
        removed := removed - {rel};
      }
    }

    method Forget(rel: Path)
      requires Valid()
      modifies this`fileState, this`symbolGraph, this`diagnostics
      ensures Valid()
      ensures fileState.Keys == old(fileState).Keys - {rel}
      ensures forall p :: EntryAt(p) == if p == rel then None else old(EntryAt(p))
    {
      fileState := fileState - {rel};
      symbolGraph := symbolGraph - {rel};
      diagnostics := diagnostics - {rel};
    }
  }

  // ---- whole runs --------------------------------------------------------------------------

  datatype Step = Step(now: real, force: bool, world: World)

  datatype Cache = Cache(index: Index, lastScan: real)

  predicate Throttled(c: Cache, s: Step) {
    !s.force && s.now - c.lastScan < 1.0
  }

  function BuildStep(c: Cache, s: Step): Cache {
    if Throttled(c, s) then c else Cache(Scan(c.index, s.world, s.force), s.now)
  }

  function Run(steps: seq<Step>): Cache {
    if steps == [] then Cache(map[], 0.0)
    else BuildStep(Run(steps[..|steps| - 1]), steps[|steps| - 1])
  }

  /** What a new engine finds on the same snapshot. */
  function Fresh(w: World): Index {
    Scan(map[], w, false)
  }

  /** Every read in the run gave what `parse` gives for that path and file state: modification time
      and size identify the content. */
  ghost predicate Faithful(steps: seq<Step>, parse: (Path, FileState) -> Outcome) {
    forall i, p :: 0 <= i < |steps| && p in steps[i].world.tracked ==>
      var f := steps[i].world.files[p];
      f.stat.Some? ==> f.outcome == parse(p, f.stat.value)
  }

  /** The remembered outcome is the one `parse` gives for the remembered state. */
  ghost predicate Coherent(ix: Index, parse: (Path, FileState) -> Outcome) {
    forall p :: p in ix ==> ix[p].outcome == parse(p, ix[p].state)
  }

  lemma {:induction false} RunCoherent(steps: seq<Step>, parse: (Path, FileState) -> Outcome)
    requires Faithful(steps, parse)
    ensures Coherent(Run(steps).index, parse)
  {
    if steps != [] {
      var n := |steps| - 1;
      forall i, p | 0 <= i < n && p in steps[..n][i].world.tracked
        ensures var f := steps[..n][i].world.files[p]; f.stat.Some? ==> f.outcome == parse(p, f.stat.value)
      {
        assert steps[..n][i] == steps[i];
      }
      RunCoherent(steps[..n], parse);
      assert steps[n] in steps;
    }
  }

  /** The exact condition, for any index and snapshot: a scan agrees with a new engine iff nothing is
      retained for an unreadable file and every file skipped as unchanged still reads the same. */
  lemma ScanAgreesIff(ix: Index, w: World, force: bool)
    ensures Scan(ix, w, force) == Fresh(w) <==>
            forall p :: p in w.tracked && p in ix ==>
              var f := w.files[p];
              && f.stat.Some?
              && (!force && f.stat == Some(ix[p].state) ==> ix[p].outcome == f.outcome)
  {
    var a, b := Scan(ix, w, force), Fresh(w);
    if a == b {
      forall p | p in w.tracked && p in ix
        ensures w.files[p].stat.Some?
        ensures !force && w.files[p].stat == Some(ix[p].state) ==> ix[p].outcome == w.files[p].outcome
      {
        assert Get(a, p) == Get(b, p);
        assert Get(a, p) == Refresh(Get(ix, p), w.files[p], force);
        assert Get(b, p) == Refresh(None, w.files[p], false);
      }
    }
  }

  /** The incremental index refines a full rebuild: after any run of builds over any snapshots the
      next unthrottled build equals a new engine's index on its snapshot, if and only if no tracked
      file with an unreadable stat still has an entry. */
  lemma IncrementalIsFresh(steps: seq<Step>, s: Step, parse: (Path, FileState) -> Outcome)
    requires Faithful(steps + [s], parse)
    requires s.force || s.now - Run(steps).lastScan >= 1.0
    ensures Run(steps + [s]).index == Fresh(s.world) <==>
            forall p :: p in s.world.tracked && s.world.files[p].stat.None? ==> p !in Run(steps).index
  {
    var all := steps + [s];
    assert all[..|steps|] == steps;
    forall i, p | 0 <= i < |steps| && p in steps[i].world.tracked
      ensures var f := steps[i].world.files[p]; f.stat.Some? ==> f.outcome == parse(p, f.stat.value)
    {
      assert all[i] == steps[i];
    }
    RunCoherent(steps, parse);
    assert all[|steps|] == s;
    ScanAgreesIff(Run(steps).index, s.world, s.force);
  }

  /** A forced build needs no assumption on file contents. */
  lemma ForcedBuildIsFresh(steps: seq<Step>, s: Step)
    requires s.force
    ensures Run(steps + [s]).index == Fresh(s.world) <==>
            forall p :: p in s.world.tracked && s.world.files[p].stat.None? ==> p !in Run(steps).index
  {
    assert (steps + [s])[..|steps|] == steps;
    ScanAgreesIff(Run(steps).index, s.world, true);
  }

  /** Without `Faithful` an unforced build can be stale: an edit that keeps time and size is missed. */
  lemma SameStateEditIsMissed()
    ensures exists s0: Step, s1: Step ::
              && !s1.force && s1.now - Run([s0]).lastScan >= 1.0
              && (forall p :: p in s1.world.tracked ==> s1.world.files[p].stat.Some?)
              && Run([s0, s1]).index != Fresh(s1.world)
  {
    var st := FileState(1.0, 3);
    var w0 := World(["a"], map["a" := File(Some(st), Parsed(["f"]))]);
    var w1 := World(["a"], map["a" := File(Some(st), Parsed(["g"]))]);
    var s0, s1 := Step(10.0, false, w0), Step(20.0, false, w1);
    assert [s0][..0] == [] && [s0, s1][..1] == [s0];
    assert Run([s0]) == BuildStep(Run([]), s0);
    assert Run([s0, s1]) == BuildStep(Run([s0]), s1);
    assert "a" in w0.tracked && "a" in w1.tracked;
    assert Run([s0]).index["a"] == Entry(st, Parsed(["f"]));
    assert Run([s0, s1]).index["a"] == Entry(st, Parsed(["f"]));
    assert Fresh(w1)["a"] == Entry(st, Parsed(["g"]));
  }

  /** While a file stays tracked but its stat stays unreadable, it keeps exactly its last good entry. */
  lemma {:induction false} OutageKeepsEntry(steps: seq<Step>, from: nat, p: Path)
    requires from <= |steps|
    requires forall i :: from <= i < |steps| ==>
               p in steps[i].world.tracked && steps[i].world.files[p].stat.None?
    ensures Get(Run(steps).index, p) == Get(Run(steps[..from]).index, p)
  {
    if from == |steps| {
      assert steps[..from] == steps;
    } else {
      var n := |steps| - 1;
      OutageKeepsEntry(steps[..n], from, p);
      assert steps[..n][..from] == steps[..from];
    }
  }

  /** A file that an unthrottled build does not track leaves no entry behind. */
  lemma NoOrphan(steps: seq<Step>, s: Step, p: Path)
    requires (s.force || s.now - Run(steps).lastScan >= 1.0) && p !in s.world.tracked
    ensures p !in Run(steps + [s]).index
  {
  }
}
