/** The task scheduler as interleaved steps of its loop thread, its executors and its callers
    (agent/scheduler.py). */
module Scheduler {

  type Id = string

  datatype Ended = Never | EndedAt(at: real)

  /** A task object; the list and its executions share it. */
  datatype Task = Task(interval: int, lastRun: Ended, nextRun: real, enabled: bool)

  /** Whether the task's own executor stored `next_run` between the two reads that picked the task,
      and the clock reading it computed it from. */
  datatype Race = Clean | Raced(reading: real)

  /** An id picked by the loop. */
  datatype Choice = Choice(id: Id, race: Race)

  /** Where the loop thread is. Selecting a task reads `next_run` first and the set of running ids
      second; executors hold no lock, so they can act in between. */
  datatype Loop =
    | Idle
    | Woken(now: real)
    | Scanning(now: real, todo: seq<Id>, chosen: seq<Choice>)
    | Due(now: real, id: Id, race: Race, rest: seq<Id>, chosen: seq<Choice>)
    | Submitting(now: real, chosen: seq<Choice>)

  /** One submission: the tick's time, and the end of the task's previous run if that ended normally. */
  datatype Start = Start(id: Id, now: real, interval: int, previous: Ended, race: Race)

  datatype State = State(
    clock: real,
    objects: map<Id, Task>,       // every task object ever created
    listed: set<Id>,              // `self.tasks`
    marked: set<Id>,              // `running_task_ids`
    executing: multiset<Id>,      // submitted, clock not yet read for `last_run`
    timed: multiset<Id>,          // `last_run` written, `next_run` not yet
    finishing: multiset<Id>,      // `next_run` written, id not yet discarded
    loop: Loop,
    lastEnd: map<Id, real>,       // normal end of the latest run
    starts: seq<Start>)           // every submission so far

  const INIT := State(0.0, map[], {}, {}, multiset{}, multiset{}, multiset{}, Idle, map[], [])

  /** The loop reads the clock before it takes the lock, and a caller before it appends a task, so the
      reading of an `Add` may be older than the state's clock. */
  datatype Step =
    | Load(loaded: Id, task: Task)
    | Add(id: Id, interval: int, at: real)
    | Remove(removed: Id)
    | Wake(now: real)
    | BeginScan(order: seq<Id>)
    | ReadDue
    | ReadMarked
    | EndScan
    | Submit
    | EndSubmit
    | ReadEnd(ended: Id, reading: real)
    | Store(stored: Id)
    | Discard(discarded: Id)
    | Crash(crashed: Id)

  ghost predicate Distinct(ids: seq<Id>) {
    forall i, j :: 0 <= i < j < |ids| ==> ids[i] != ids[j]
  }

  /** The loop holds the lock while it scans. */
  predicate Locked(s: State) { s.loop.Scanning? || s.loop.Due? }

  ghost predicate Enabled(s: State, step: Step) {
    match step
    case Load(id, _) => !Locked(s) && id !in s.objects
    case Add(id, _, _) => !Locked(s) && id !in s.objects
    case Remove(_) => !Locked(s)
    case Wake(now) => s.loop.Idle? && s.clock <= now
    case BeginScan(order) => s.loop.Woken? && Distinct(order) && forall id :: id in order <==> id in s.listed
    case ReadDue => s.loop.Scanning? && s.loop.todo != [] && s.loop.todo[0] in s.objects
    case ReadMarked => s.loop.Due?
    case EndScan => s.loop.Scanning? && s.loop.todo == []
    case Submit => s.loop.Submitting? && s.loop.chosen != [] && s.loop.chosen[0].id in s.objects
    case EndSubmit => s.loop.Submitting? && s.loop.chosen == []
    case ReadEnd(id, at) => id in s.executing && id in s.objects && s.clock <= at
    case Store(id) => id in s.timed && id in s.objects && s.objects[id].lastRun.EndedAt?
    case Discard(id) => id in s.finishing
    case Crash(id) => id in s.executing
  }

  function PreviousEnd(s: State, id: Id): Ended {
    if id in s.lastEnd then EndedAt(s.lastEnd[id]) else Never
  }

  ghost function Do(s: State, step: Step): State
    requires Enabled(s, step)
  {
    match step
    case Load(id, task) => s.(objects := s.objects[id := task], listed := s.listed + {id})
    case Add(id, interval, at) =>
      s.(clock := if at > s.clock then at else s.clock, objects := s.objects[id := Task(interval, Never, at + interval as real, true)],
         listed := s.listed + {id})
    case Remove(id) => s.(listed := s.listed - {id})
    case Wake(now) => s.(clock := now, loop := Woken(now))
    case BeginScan(order) => s.(loop := Scanning(s.loop.now, order, []))
    case ReadDue =>
      var id, rest := s.loop.todo[0], s.loop.todo[1..];
      var t := s.objects[id];
      if t.enabled && s.loop.now >= t.nextRun
      then s.(loop := Due(s.loop.now, id, Clean, rest, s.loop.chosen))
      else s.(loop := s.loop.(todo := rest))
    case ReadMarked =>
      var l := s.loop;
      s.(loop := Scanning(l.now, l.rest,
                          if l.id in s.marked then l.chosen else l.chosen + [Choice(l.id, l.race)]))
    case EndScan => s.(loop := Submitting(s.loop.now, s.loop.chosen))
    case Submit =>
      var c := s.loop.chosen[0];
      s.(marked := s.marked + {c.id}, executing := s.executing + multiset{c.id},
         loop := s.loop.(chosen := s.loop.chosen[1..]),
         starts := s.starts + [Start(c.id, s.loop.now, s.objects[c.id].interval, PreviousEnd(s, c.id), c.race)])
    case EndSubmit => s.(loop := Idle)
    case ReadEnd(id, at) =>
      s.(clock := at, objects := s.objects[id := s.objects[id].(lastRun := EndedAt(at))],
         executing := s.executing - multiset{id}, timed := s.timed + multiset{id})
    case Store(id) =>
      var t := s.objects[id];
      s.(objects := s.objects[id := t.(nextRun := t.lastRun.at + t.interval as real)],
         timed := s.timed - multiset{id}, finishing := s.finishing + multiset{id},
         lastEnd := s.lastEnd[id := t.lastRun.at],
         loop := if s.loop.Due? && s.loop.id == id then s.loop.(race := Raced(t.lastRun.at)) else s.loop)
    case Discard(id) =>
      s.(finishing := s.finishing - multiset{id}, marked := s.marked - {id})
    case Crash(id) =>
      s.(executing := s.executing - multiset{id}, marked := s.marked - {id}, lastEnd := s.lastEnd - {id})
  }

  /** A run: every step enabled where it is taken. */
  ghost predicate IsRun(steps: seq<Step>)
    decreases |steps|, 0
  {
    steps == [] ||
    (IsRun(steps[..|steps| - 1]) && Enabled(End(steps[..|steps| - 1]), steps[|steps| - 1]))
  }

  ghost function End(steps: seq<Step>): State
    requires IsRun(steps)
    decreases |steps|, 1
  {
    if steps == [] then INIT else Do(End(steps[..|steps| - 1]), steps[|steps| - 1])
  }

  // ---- mutual exclusion --------------------------------------------------------------------

  function InFlight(s: State): multiset<Id> { s.executing + s.timed + s.finishing }

  /** In-flight executions are exactly the marked ids, each once. */
  ghost predicate Exclusive(s: State) {
    forall id :: InFlight(s)[id] == if id in s.marked then 1 else 0
  }

  function Pending(l: Loop): seq<Id> {
    match l
    case Idle => []
    case Woken(_) => []
    case Scanning(_, todo, chosen) => Ids(chosen) + todo
    case Due(_, id, _, rest, chosen) => Ids(chosen) + [id] + rest
    case Submitting(_, chosen) => Ids(chosen)
  }

  function Ids(chosen: seq<Choice>): seq<Id> {
    seq(|chosen|, i requires 0 <= i < |chosen| => chosen[i].id)
  }

  function ChosenOf(l: Loop): seq<Choice> {
    if l.Idle? || l.Woken? then [] else l.chosen
  }

  /** Nothing the loop has yet to handle occurs twice or is unknown, and nothing it has chosen is
      running. */
  ghost predicate LoopSafe(s: State) {
    && Distinct(Pending(s.loop))
    && (forall i :: 0 <= i < |Pending(s.loop)| ==> Pending(s.loop)[i] in s.objects)
    && (forall i :: 0 <= i < |ChosenOf(s.loop)| ==> ChosenOf(s.loop)[i].id !in s.marked)
    && s.listed <= s.objects.Keys
    && s.marked <= s.objects.Keys
  }

  ghost predicate Safe(s: State) { Exclusive(s) && LoopSafe(s) }

  lemma ReadDueSafe(s: State)
    requires Safe(s) && Enabled(s, ReadDue)
    ensures Safe(Do(s, ReadDue))
  {
    var s', l := Do(s, ReadDue), s.loop;
    assert ChosenOf(s'.loop) == ChosenOf(l);
    assert Pending(l) == Ids(l.chosen) + [l.todo[0]] + l.todo[1..];
    if !s'.loop.Due? {
      DropOne(Ids(l.chosen), l.todo[0], l.todo[1..]);
    }
  }

  lemma ReadMarkedSafe(s: State)
    requires Safe(s) && Enabled(s, ReadMarked)
    ensures Safe(Do(s, ReadMarked))
  {
    var s', l := Do(s, ReadMarked), s.loop;
    assert forall i :: 0 <= i < |l.chosen| ==> ChosenOf(l)[i] == l.chosen[i];
    if l.id in s.marked {
      DropOne(Ids(l.chosen), l.id, l.rest);
    } else {
      assert Pending(s'.loop) == Pending(l);
    }
  }

  lemma BeginScanSafe(s: State, order: seq<Id>)
    requires Safe(s) && Enabled(s, BeginScan(order))
    ensures Safe(Do(s, BeginScan(order)))
  {
  }

  lemma EndScanSafe(s: State)
    requires Safe(s) && Enabled(s, EndScan)
    ensures Safe(Do(s, EndScan))
  {
    var s' := Do(s, EndScan);
    assert Pending(s'.loop) == Pending(s.loop) && ChosenOf(s'.loop) == ChosenOf(s.loop);
  }

  lemma DropOne(a: seq<Id>, id: Id, b: seq<Id>)
    requires Distinct(a + [id] + b)
    ensures Distinct(a + b)
    ensures forall i :: 0 <= i < |a + b| ==> (a + b)[i] in a + [id] + b
  {
    var all, fewer := a + [id] + b, a + b;
    assert forall i :: 0 <= i < |fewer| ==> fewer[i] == all[if i < |a| then i else i + 1];
  }

  lemma SubmitSafe(s: State)
    requires Safe(s) && Enabled(s, Submit)
    ensures Safe(Do(s, Submit))
  {
    var s', l := Do(s, Submit), s.loop;
    assert forall i :: 0 <= i < |s'.loop.chosen| ==> s'.loop.chosen[i] == l.chosen[i + 1];
    assert forall i :: 0 <= i < |l.chosen| ==> Pending(l)[i] == l.chosen[i].id && ChosenOf(l)[i] == l.chosen[i];
    assert InFlight(s') == InFlight(s) + multiset{l.chosen[0].id};
  }

  lemma ReadEndSafe(s: State, id: Id, at: real)
    requires Safe(s) && Enabled(s, ReadEnd(id, at))
    ensures Safe(Do(s, ReadEnd(id, at)))
  {
    var s' := Do(s, ReadEnd(id, at));
    assert InFlight(s') == InFlight(s);
  }

  lemma StoreSafe(s: State, id: Id)
    requires Safe(s) && Enabled(s, Store(id))
    ensures Safe(Do(s, Store(id)))
  {
    var s' := Do(s, Store(id));
    assert Pending(s'.loop) == Pending(s.loop) && ChosenOf(s'.loop) == ChosenOf(s.loop);
    assert InFlight(s') == InFlight(s);
  }

  /** Unmarking an id together with its only execution. */
  lemma LeaveExclusive(s: State, s': State, id: Id)
    requires Exclusive(s) && id in InFlight(s)
    requires InFlight(s') == InFlight(s) - multiset{id} && s'.marked == s.marked - {id}
    ensures Exclusive(s')
  {
  }

  lemma DiscardSafe(s: State, id: Id)
    requires Safe(s) && Enabled(s, Discard(id))
    ensures Safe(Do(s, Discard(id)))
  {
    var s' := Do(s, Discard(id));
    assert InFlight(s') == InFlight(s) - multiset{id};
    LeaveExclusive(s, s', id);
  }

  lemma CrashSafe(s: State, id: Id)
    requires Safe(s) && Enabled(s, Crash(id))
    ensures Safe(Do(s, Crash(id)))
  {
    var s' := Do(s, Crash(id));
    assert InFlight(s') == InFlight(s) - multiset{id};
    LeaveExclusive(s, s', id);
  }

  lemma StepSafe(s: State, step: Step)
    requires Safe(s) && Enabled(s, step)
    ensures Safe(Do(s, step))
  {
    match step
    case ReadDue => ReadDueSafe(s);
    case ReadMarked => ReadMarkedSafe(s);
    case EndScan => EndScanSafe(s);
    case BeginScan(order) => BeginScanSafe(s, order);
    case Wake(_) =>
    case Submit => SubmitSafe(s);
    case ReadEnd(id, at) => ReadEndSafe(s, id, at);
    case Store(id) => StoreSafe(s, id);
    case Discard(id) => DiscardSafe(s, id);
    case Crash(id) => CrashSafe(s, id);
    case Load(_, _) =>
    case Add(_, _, _) =>
    case Remove(_) =>
    case EndSubmit =>
  }

  /** Under every interleaving the in-flight executions are exactly the marked ids, each at most
      once; the fine-grained selection needs no atomicity for this. */
  lemma {:induction false} MutualExclusion(steps: seq<Step>)
    requires IsRun(steps)
    ensures Safe(End(steps))
    ensures forall id :: InFlight(End(steps))[id] <= 1
  {
    if steps != [] {
      var n := |steps| - 1;
      MutualExclusion(steps[..n]);
      StepSafe(End(steps[..n]), steps[n]);
    }
  }

  // ---- interval spacing --------------------------------------------------------------------

  /** The start came at least its interval after the end of the previous, normally ended run. */
  predicate Spaced(st: Start) {
    st.previous.EndedAt? ==> st.now >= st.previous.at + st.interval as real
  }

  /** After a normal end `next_run` is that end plus the interval. */
  ghost predicate Planned(s: State) {
    forall id :: id in s.lastEnd ==>
      id in s.objects && s.objects[id].nextRun == s.lastEnd[id] + s.objects[id].interval as real
  }

  /** A clean choice is due; before a raced one the executor's reading became the latest end. */
  ghost predicate ChoiceFits(s: State, now: real, c: Choice) {
    && c.id in s.objects
    && (c.race.Clean? ==> now >= s.objects[c.id].nextRun)
    && (c.race.Raced? ==> PreviousEnd(s, c.id) == EndedAt(c.race.reading))
  }

  ghost predicate StartFits(st: Start) {
    (st.race.Clean? ==> Spaced(st)) && (st.race.Raced? ==> st.previous == EndedAt(st.race.reading))
  }

  ghost predicate Timely(s: State) {
    && Planned(s)
    && (forall i :: 0 <= i < |ChosenOf(s.loop)| ==> ChoiceFits(s, s.loop.now, ChosenOf(s.loop)[i]))
    && (s.loop.Due? ==> ChoiceFits(s, s.loop.now, Choice(s.loop.id, s.loop.race)))
    && (s.loop.Due? && s.loop.race.Raced? ==> s.loop.id !in s.executing && s.loop.id !in s.timed)
    && (forall i :: 0 <= i < |s.starts| ==> StartFits(s.starts[i]))
  }

  /** An executor's own task is marked, so the loop has not chosen it. */
  lemma NotChosen(s: State, id: Id)
    requires Safe(s) && id in InFlight(s)
    ensures forall i :: 0 <= i < |ChosenOf(s.loop)| ==> ChosenOf(s.loop)[i].id != id
  {
  }

  lemma ReadEndTimely(s: State, id: Id, at: real)
    requires Safe(s) && Timely(s) && Enabled(s, ReadEnd(id, at))
    ensures Timely(Do(s, ReadEnd(id, at)))
  {
    var s' := Do(s, ReadEnd(id, at));
    forall i | 0 <= i < |ChosenOf(s'.loop)|
      ensures ChoiceFits(s', s'.loop.now, ChosenOf(s'.loop)[i])
    {
      assert ChoiceFits(s, s.loop.now, ChosenOf(s.loop)[i]);
    }
  }

  lemma StoreTimely(s: State, id: Id)
    requires Safe(s) && Timely(s) && Enabled(s, Store(id))
    ensures Timely(Do(s, Store(id)))
  {
    var s' := Do(s, Store(id));
    assert id in InFlight(s);
    NotChosen(s, id);
    assert InFlight(s)[id] <= 1;
    assert s.executing[id] + s.timed[id] + s.finishing[id] == InFlight(s)[id];
    assert ChosenOf(s'.loop) == ChosenOf(s.loop);
    forall i | 0 <= i < |ChosenOf(s'.loop)|
      ensures ChoiceFits(s', s'.loop.now, ChosenOf(s'.loop)[i])
    {
      assert ChosenOf(s.loop)[i].id != id;
      assert ChoiceFits(s, s.loop.now, ChosenOf(s.loop)[i]);
    }
  }

  lemma CrashTimely(s: State, id: Id)
    requires Safe(s) && Timely(s) && Enabled(s, Crash(id))
    ensures Timely(Do(s, Crash(id)))
  {
    assert id in InFlight(s);
    NotChosen(s, id);
    forall i | 0 <= i < |ChosenOf(s.loop)|
      ensures ChoiceFits(Do(s, Crash(id)), s.loop.now, ChosenOf(s.loop)[i])
    {
      assert ChosenOf(s.loop)[i].id != id;
      assert ChoiceFits(s, s.loop.now, ChosenOf(s.loop)[i]);
    }
  }

  lemma SubmitTimely(s: State)
    requires Safe(s) && Timely(s) && Enabled(s, Submit)
    ensures Timely(Do(s, Submit))
  {
    var s', l := Do(s, Submit), s.loop;
    assert ChosenOf(l)[0] == l.chosen[0];
    assert ChoiceFits(s, l.now, l.chosen[0]);
    forall i | 0 <= i < |ChosenOf(s'.loop)|
      ensures ChoiceFits(s', s'.loop.now, ChosenOf(s'.loop)[i])
    {
      assert ChosenOf(s'.loop)[i] == ChosenOf(l)[i + 1];
      assert ChoiceFits(s, l.now, ChosenOf(l)[i + 1]);
    }
  }

  lemma ScanTimely(s: State, step: Step)
    requires Safe(s) && Timely(s) && Enabled(s, step)
    requires step.ReadDue? || step.ReadMarked? || step.EndScan? || step.Wake? || step.BeginScan? || step.EndSubmit?
    ensures Timely(Do(s, step))
  {
    var s' := Do(s, step);
    forall i | 0 <= i < |ChosenOf(s'.loop)|
      ensures ChoiceFits(s', s'.loop.now, ChosenOf(s'.loop)[i])
    {
      if i < |ChosenOf(s.loop)| {
        assert ChosenOf(s'.loop)[i] == ChosenOf(s.loop)[i];
        assert ChoiceFits(s, s.loop.now, ChosenOf(s.loop)[i]);
      }
    }
  }

  lemma CallerTimely(s: State, step: Step)
    requires Safe(s) && Timely(s) && Enabled(s, step)
    requires step.Load? || step.Add? || step.Remove? || step.Discard?
    ensures Timely(Do(s, step))
  {
    var s' := Do(s, step);
    forall i | 0 <= i < |ChosenOf(s'.loop)|
      ensures ChoiceFits(s', s'.loop.now, ChosenOf(s'.loop)[i])
    {
      assert ChoiceFits(s, s.loop.now, ChosenOf(s.loop)[i]);
    }
  }

  lemma StepTimely(s: State, step: Step)
    requires Safe(s) && Timely(s) && Enabled(s, step)
    ensures Timely(Do(s, step))
  {
    match step
    case ReadEnd(id, at) => ReadEndTimely(s, id, at);
    case Store(id) => StoreTimely(s, id);
    case Crash(id) => CrashTimely(s, id);
    case Submit => SubmitTimely(s);
    case ReadDue => ScanTimely(s, step);
    case ReadMarked => ScanTimely(s, step);
    case EndScan => ScanTimely(s, step);
    case Wake(_) => ScanTimely(s, step);
    case BeginScan(_) => ScanTimely(s, step);
    case EndSubmit => ScanTimely(s, step);
    case Load(_, _) => CallerTimely(s, step);
    case Add(_, _, _) => CallerTimely(s, step);
    case Remove(_) => CallerTimely(s, step);
    case Discard(_) => CallerTimely(s, step);
  }

  lemma {:induction false} RunTimely(steps: seq<Step>)
    requires IsRun(steps)
    ensures Timely(End(steps))
  {
    if steps != [] {
      var n := |steps| - 1;
      RunTimely(steps[..n]);
      MutualExclusion(steps[..n]);
      StepTimely(End(steps[..n]), steps[n]);
    }
  }

  /** In every run, a start keeps its interval after a normally ended run iff its selection was clean,
      or the executor that raced with it had read the clock at least the interval before the tick and
      was held up until it stored `next_run`. A reading no earlier than the tick never suffices. */
  lemma SpacedIff(steps: seq<Step>, i: nat)
    requires IsRun(steps) && i < |End(steps).starts|
    ensures var st := End(steps).starts[i];
      && (Spaced(st) <==> st.race.Clean? || st.race.reading + st.interval as real <= st.now)
      && (st.race.Raced? && st.interval > 0 && st.race.reading >= st.now ==> !Spaced(st))
  {
    RunTimely(steps);
    assert StartFits(End(steps).starts[i]);
  }

  /** No executor stores `next_run` between the two reads of its task. */
  ghost predicate AtomicSelection(steps: seq<Step>)
    requires IsRun(steps)
  {
    steps == [] ||
    var s, step := End(steps[..|steps| - 1]), steps[|steps| - 1];
    AtomicSelection(steps[..|steps| - 1]) && !(step.Store? && s.loop.Due? && s.loop.id == step.stored)
  }

  ghost predicate Unraced(s: State) {
    && (s.loop.Due? ==> s.loop.race.Clean?)
    && (forall i :: 0 <= i < |ChosenOf(s.loop)| ==> ChosenOf(s.loop)[i].race.Clean?)
    && (forall i :: 0 <= i < |s.starts| ==> s.starts[i].race.Clean?)
  }

  lemma UnracedSubmit(s: State)
    requires Unraced(s) && Enabled(s, Submit)
    ensures Unraced(Do(s, Submit))
  {
    var s' := Do(s, Submit);
    assert ChosenOf(s.loop)[0].race.Clean?;
    assert forall i :: 0 <= i < |ChosenOf(s'.loop)| ==> ChosenOf(s'.loop)[i] == ChosenOf(s.loop)[i + 1];
  }

  lemma UnracedStep(s: State, step: Step)
    requires Unraced(s) && Enabled(s, step)
    requires !(step.Store? && s.loop.Due? && s.loop.id == step.stored)
    ensures Unraced(Do(s, step))
  {
    if step.Submit? {
      UnracedSubmit(s);
    } else {
      var s' := Do(s, step);
      assert s'.starts == s.starts;
      assert |ChosenOf(s'.loop)| > |ChosenOf(s.loop)| ==> step.ReadMarked?;
      assert forall i :: 0 <= i < |ChosenOf(s'.loop)| && i < |ChosenOf(s.loop)| ==> ChosenOf(s'.loop)[i] == ChosenOf(s.loop)[i];
    }
  }

  lemma {:induction false} AtomicMeansUnraced(steps: seq<Step>)
    requires IsRun(steps) && AtomicSelection(steps)
    ensures Unraced(End(steps))
  {
    if steps != [] {
      var n := |steps| - 1;
      AtomicMeansUnraced(steps[..n]);
      UnracedStep(End(steps[..n]), steps[n]);
    }
  }

  /** With atomic selection every start keeps the interval after a normally ended run. */
  lemma AtomicSpacing(steps: seq<Step>, i: nat)
    requires IsRun(steps) && AtomicSelection(steps) && i < |End(steps).starts|
    ensures Spaced(End(steps).starts[i])
  {
    RunTimely(steps);
    AtomicMeansUnraced(steps);
    assert StartFits(End(steps).starts[i]);
  }

  // ---- traces ------------------------------------------------------------------------------

  ghost predicate Next(s: State, step: Step, s': State) { Enabled(s, step) && s' == Do(s, step) }

  /** The states of a run: the initial one, and one after each step. */
  ghost predicate Trace(steps: seq<Step>, tr: seq<State>) {
    |tr| == |steps| + 1 && tr[0] == INIT && forall i :: 0 <= i < |steps| ==> Next(tr[i], steps[i], tr[i + 1])
  }

  /** Traces are the runs, state by state. */
  lemma {:induction false} TraceIsRun(steps: seq<Step>, tr: seq<State>, n: nat)
    requires Trace(steps, tr) && n <= |steps|
    ensures IsRun(steps[..n]) && End(steps[..n]) == tr[n]
  {
    if n > 0 {
      TraceIsRun(steps, tr, n - 1);
      assert steps[..n][..n - 1] == steps[..n - 1];
      assert Next(tr[n - 1], steps[n - 1], tr[n]);
    }
  }

  lemma {:induction false} RunHasTrace(steps: seq<Step>) returns (tr: seq<State>)
    requires IsRun(steps)
    ensures Trace(steps, tr) && tr[|steps|] == End(steps)
  {
    if steps == [] {
      tr := [INIT];
    } else {
      var n := |steps| - 1;
      var init := RunHasTrace(steps[..n]);
      tr := init + [End(steps)];
      TraceSnoc(steps[..n], init, steps[n], End(steps));
      assert steps == steps[..n] + [steps[n]];
    }
  }

  lemma TraceSnoc(steps: seq<Step>, tr: seq<State>, step: Step, s': State)
    requires Trace(steps, tr) && Next(tr[|steps|], step, s')
    ensures Trace(steps + [step], tr + [s'])
  {
    var steps', tr' := steps + [step], tr + [s'];
    forall i | 0 <= i < |steps'|
      ensures Next(tr'[i], steps'[i], tr'[i + 1])
    {
      if i < |steps| {
        assert Next(tr[i], steps[i], tr[i + 1]);
      }
    }
  }

  lemma TraceSafe(steps: seq<Step>, tr: seq<State>, n: nat)
    requires Trace(steps, tr) && n <= |steps|
    ensures Safe(tr[n])
  {
    TraceIsRun(steps, tr, n);
    MutualExclusion(steps[..n]);
  }

  lemma StartsAfterStep(s: State, step: Step, s': State)
    requires Next(s, step, s')
    ensures s.starts <= s'.starts && (step != Submit ==> s'.starts == s.starts)
  {
  }

  lemma {:induction false} StartsOnlyGrow(steps: seq<Step>, tr: seq<State>, n: nat, m: nat)
    requires Trace(steps, tr) && n <= m <= |steps|
    ensures tr[n].starts <= tr[m].starts
    decreases m - n
  {
    if n < m {
      StartsOnlyGrow(steps, tr, n, m - 1);
      StartsAfterStep(tr[m - 1], steps[m - 1], tr[m]);
    }
  }

  // ---- removal -----------------------------------------------------------------------------

  function StartsOf(s: State, id: Id): nat {
    |set i | 0 <= i < |s.starts| && s.starts[i].id == id|
  }

  lemma OneMoreStart(s: State, s': State, st: Start, id: Id)
    requires s'.starts == s.starts + [st]
    ensures StartsOf(s', id) == StartsOf(s, id) + if st.id == id then 1 else 0
  {
    var n := |s.starts|;
    var before := set i | 0 <= i < n && s.starts[i].id == id;
    var after := set i | 0 <= i < |s'.starts| && s'.starts[i].id == id;
    assert s'.starts[n] == st && forall i :: 0 <= i < n ==> s'.starts[i] == s.starts[i];
    if st.id == id {
      assert after == before + {n};
    } else {
      assert after == before;
    }
  }

  /** The starts a removed task has had, and the one it may still get because it is already picked. */
  function Claim(s: State, id: Id): nat {
    StartsOf(s, id) + if id in Pending(s.loop) then 1 else 0
  }

  ghost predicate IsRemoved(s: State, id: Id) { id in s.objects && id !in s.listed }

  lemma SubmitClaim(s: State, id: Id)
    requires Safe(s) && Enabled(s, Submit)
    ensures Claim(Do(s, Submit), id) <= Claim(s, id) && StartsOf(Do(s, Submit), id) >= StartsOf(s, id)
  {
    var s', c := Do(s, Submit), s.loop.chosen[0];
    OneMoreStart(s, s', s'.starts[|s.starts|], id);
    assert Pending(s.loop)[0] == c.id;
    assert forall i :: 0 <= i < |Pending(s'.loop)| ==> Pending(s'.loop)[i] == Pending(s.loop)[i + 1];
  }

  lemma ScanClaim(s: State, step: Step, id: Id)
    requires Safe(s) && Enabled(s, step) && (step.ReadDue? || step.ReadMarked? || step.EndScan?)
    ensures id in Pending(Do(s, step).loop) ==> id in Pending(s.loop)
  {
    var l, l' := s.loop, Do(s, step).loop;
    if step.ReadDue? {
      assert Pending(l) == Ids(l.chosen) + [l.todo[0]] + l.todo[1..];
    } else if step.ReadMarked? {
      assert Ids(l.chosen + [Choice(l.id, l.race)]) == Ids(l.chosen) + [l.id];
    }
  }

  lemma RemovedStep(s: State, step: Step, s': State, id: Id)
    requires Safe(s) && Next(s, step, s') && IsRemoved(s, id)
    ensures IsRemoved(s', id) && Claim(s', id) <= Claim(s, id) && StartsOf(s', id) >= StartsOf(s, id)
  {
    if step.Submit? {
      SubmitClaim(s, id);
    } else {
      assert s'.starts == s.starts;
      if step.ReadDue? || step.ReadMarked? || step.EndScan? {
        ScanClaim(s, step, id);
      }
    }
  }

  lemma RemovedAt(steps: seq<Step>, tr: seq<State>, n: nat, id: Id)
    requires Trace(steps, tr) && n < |steps| && IsRemoved(tr[n], id)
    ensures IsRemoved(tr[n + 1], id)
    ensures Claim(tr[n + 1], id) <= Claim(tr[n], id) && StartsOf(tr[n + 1], id) >= StartsOf(tr[n], id)
  {
    TraceSafe(steps, tr, n);
    RemovedStep(tr[n], steps[n], tr[n + 1], id);
  }

  lemma {:induction false} RemovedRun(steps: seq<Step>, tr: seq<State>, n: nat, m: nat, id: Id)
    requires Trace(steps, tr) && n <= m <= |steps| && IsRemoved(tr[n], id)
    ensures IsRemoved(tr[m], id) && Claim(tr[m], id) <= Claim(tr[n], id) && StartsOf(tr[m], id) >= StartsOf(tr[n], id)
    decreases m - n
  {
    if n < m {
      RemovedRun(steps, tr, n, m - 1, id);
      RemovedAt(steps, tr, m - 1, id);
    }
  }

  /** A task that is removed while it is not picked for submission never starts again; one that is
      picked already starts at most once more. */
  lemma RemovedNeverStarts(steps: seq<Step>, tr: seq<State>, k: nat, id: Id, m: nat)
    requires Trace(steps, tr) && k < m <= |steps| && steps[k] == Remove(id) && id in tr[k].objects
    ensures StartsOf(tr[k], id) <= StartsOf(tr[m], id)
    ensures StartsOf(tr[m], id) <= StartsOf(tr[k], id) + if id in Ids(ChosenOf(tr[k].loop)) then 1 else 0
  {
    assert Next(tr[k], Remove(id), tr[k + 1]);
    RemovedRun(steps, tr, k + 1, m, id);
  }

  // ---- a tick starts what is due -----------------------------------------------------------

  /** The scan has yet to look at the task. */
  ghost predicate Waits(s: State, id: Id, now: real) {
    || (s.loop.Scanning? && s.loop.now == now && id in s.loop.todo)
    || (s.loop.Due? && s.loop.now == now && id in s.loop.rest)
  }

  /** The scan's first read of the task, of `enabled` and `next_run`. */
  ghost predicate ReadsDue(s: State, step: Step, id: Id, now: real) {
    step == ReadDue && s.loop.Scanning? && s.loop.now == now && s.loop.todo != [] && s.loop.todo[0] == id
  }

  /** The scan's second read of the task, of the running ids. */
  ghost predicate ReadsMarked(s: State, step: Step, id: Id, now: real) {
    step == ReadMarked && s.loop.Due? && s.loop.now == now && s.loop.id == id
  }

  lemma WaitsOn(s: State, step: Step, s': State, id: Id, now: real)
    requires Waits(s, id, now) && Next(s, step, s') && !ReadsDue(s, step, id, now)
    ensures Waits(s', id, now)
  {
    if step == ReadDue {
      assert s.loop.todo == [s.loop.todo[0]] + s.loop.todo[1..];
    } else if step.Load? || step.Add? || step.Remove? || step.ReadEnd? || step.Store? || step.Discard? || step.Crash? {
      assert s'.loop == s.loop || (s.loop.Due? && s'.loop == s.loop.(race := s'.loop.race));
    }
  }

  lemma {:induction false} FindRead(steps: seq<Step>, tr: seq<State>, n: nat, id: Id, now: real) returns (a: nat)
    requires Trace(steps, tr) && n <= |steps| && Waits(tr[n], id, now) && tr[|steps|].loop.Idle?
    ensures n <= a < |steps| && ReadsDue(tr[a], steps[a], id, now)
    decreases |steps| - n
  {
    assert n < |steps|;
    if ReadsDue(tr[n], steps[n], id, now) {
      a := n;
    } else {
      WaitsOn(tr[n], steps[n], tr[n + 1], id, now);
      a := FindRead(steps, tr, n + 1, id, now);
    }
  }

  /** The scan is between the two reads of the task. */
  ghost predicate Between(s: State, id: Id, now: real) {
    s.loop.Due? && s.loop.id == id && s.loop.now == now
  }

  lemma BetweenOn(s: State, step: Step, s': State, id: Id, now: real)
    requires Between(s, id, now) && Next(s, step, s') && step != ReadMarked
    ensures Between(s', id, now)
  {
  }

  lemma {:induction false} FindRecheck(steps: seq<Step>, tr: seq<State>, n: nat, id: Id, now: real) returns (b: nat)
    requires Trace(steps, tr) && n <= |steps| && Between(tr[n], id, now) && tr[|steps|].loop.Idle?
    ensures n <= b < |steps| && ReadsMarked(tr[b], steps[b], id, now)
    decreases |steps| - n
  {
    assert n < |steps|;
    if steps[n] == ReadMarked {
      b := n;
    } else {
      BetweenOn(tr[n], steps[n], tr[n + 1], id, now);
      b := FindRecheck(steps, tr, n + 1, id, now);
    }
  }

  /** The task is picked for submission. */
  ghost predicate Picked(s: State, id: Id, now: real) {
    !s.loop.Idle? && !s.loop.Woken? && s.loop.now == now && id in Ids(s.loop.chosen)
  }

  /** Callers and executors do not touch what the loop has picked. */
  lemma ChosenKept(s: State, step: Step, s': State)
    requires Next(s, step, s')
    requires step.Load? || step.Add? || step.Remove? || step.ReadEnd? || step.Store? || step.Discard? || step.Crash?
    ensures s'.loop.Idle? == s.loop.Idle? && s'.loop.Woken? == s.loop.Woken?
    ensures !s.loop.Idle? ==> s'.loop.now == s.loop.now
    ensures !s.loop.Idle? && !s.loop.Woken? ==> s'.loop.chosen == s.loop.chosen
  {
  }

  /** How a step changes what is picked: a submission takes the first, the second read may add one. */
  lemma ChosenAfterStep(s: State, step: Step, s': State)
    requires Next(s, step, s') && !s.loop.Idle? && !s.loop.Woken? && !(step == EndSubmit)
    ensures !s'.loop.Idle? && !s'.loop.Woken? && s'.loop.now == s.loop.now
    ensures step == Submit ==> s.loop.chosen != [] && s'.loop.chosen == s.loop.chosen[1..]
    ensures step == ReadMarked && s.loop.id in s.marked ==> s'.loop.chosen == s.loop.chosen
    ensures step == ReadMarked && s.loop.id !in s.marked ==>
              s'.loop.chosen == s.loop.chosen + [Choice(s.loop.id, s.loop.race)]
    ensures step != Submit && step != ReadMarked ==> s'.loop.chosen == s.loop.chosen
  {
    if step.Load? || step.Add? || step.Remove? || step.ReadEnd? || step.Store? || step.Discard? || step.Crash? {
      ChosenKept(s, step, s');
    }
  }

  lemma PickedOn(s: State, step: Step, s': State, id: Id, now: real)
    requires Picked(s, id, now) && Next(s, step, s')
    requires step == Submit ==> s.loop.chosen[0].id != id
    ensures Picked(s', id, now)
  {
    var i :| 0 <= i < |s.loop.chosen| && s.loop.chosen[i].id == id;
    ChosenAfterStep(s, step, s');
    if step == Submit {
      assert Ids(s'.loop.chosen)[i - 1] == id;
    } else {
      assert Ids(s'.loop.chosen)[i] == id;
    }
  }

  /** A start of the task in this tick among those from number `from` on. */
  ghost predicate StartedFrom(s: State, from: nat, id: Id, now: real) {
    exists i :: from <= i < |s.starts| && s.starts[i].id == id && s.starts[i].now == now
  }

  lemma SubmitStarts(s: State, s': State)
    requires Next(s, Submit, s')
    ensures |s'.starts| == |s.starts| + 1
    ensures s'.starts[|s.starts|].id == s.loop.chosen[0].id && s'.starts[|s.starts|].now == s.loop.now
  {
  }

  lemma {:induction false} FindStart(steps: seq<Step>, tr: seq<State>, n: nat, id: Id, now: real)
    requires Trace(steps, tr) && n <= |steps| && Picked(tr[n], id, now) && tr[|steps|].loop.Idle?
    ensures StartedFrom(tr[|steps|], |tr[n].starts|, id, now)
    decreases |steps| - n
  {
    assert n < |steps|;
    var last := tr[|steps|];
    assert Next(tr[n], steps[n], tr[n + 1]);
    StartsOnlyGrow(steps, tr, n + 1, |steps|);
    if steps[n] == Submit && tr[n].loop.chosen[0].id == id {
      SubmitStarts(tr[n], tr[n + 1]);
      assert last.starts[|tr[n].starts|] == tr[n + 1].starts[|tr[n].starts|];
    } else {
      PickedOn(tr[n], steps[n], tr[n + 1], id, now);
      FindStart(steps, tr, n + 1, id, now);
      StartsAfterStep(tr[n], steps[n], tr[n + 1]);
    }
  }

  lemma FirstReadDue(s: State, s': State, id: Id, now: real)
    requires Next(s, ReadDue, s') && ReadsDue(s, ReadDue, id, now)
    ensures id in s.objects
    ensures s.objects[id].enabled && now >= s.objects[id].nextRun ==> Between(s', id, now)
  {
  }

  lemma SecondReadPicks(s: State, s': State, id: Id, now: real)
    requires Next(s, ReadMarked, s') && ReadsMarked(s, ReadMarked, id, now) && id !in s.marked
    ensures Picked(s', id, now) && s'.starts == s.starts
  {
    assert Ids(s'.loop.chosen)[|s.loop.chosen|] == id;
  }

  lemma ScanBegins(s: State, order: seq<Id>, s': State, id: Id)
    requires Next(s, BeginScan(order), s') && id in s.listed
    ensures Waits(s', id, s.loop.now)
  {
  }

  /** In every completed tick each listed task is read; if it is enabled and due then, the running ids
      are read for it; and if it is not running then, it is started. */
  lemma TickStartsDue(steps: seq<Step>, tr: seq<State>, k: nat, id: Id) returns (a: nat, b: nat)
    requires Trace(steps, tr) && k < |steps| && steps[k].BeginScan? && tr[k].loop.Woken?
    requires id in tr[k].listed && tr[|steps|].loop.Idle?
    ensures k < a < |steps| && ReadsDue(tr[a], steps[a], id, tr[k].loop.now) && id in tr[a].objects
    ensures tr[a].objects[id].enabled && tr[k].loop.now >= tr[a].objects[id].nextRun ==>
              && a < b < |steps| && ReadsMarked(tr[b], steps[b], id, tr[k].loop.now)
              && (id !in tr[b].marked ==> StartedFrom(tr[|steps|], |tr[b].starts|, id, tr[k].loop.now))
  {
    var now := tr[k].loop.now;
    ScanBegins(tr[k], steps[k].order, tr[k + 1], id);
    a := FindRead(steps, tr, k + 1, id, now);
    b := a;
    FirstReadDue(tr[a], tr[a + 1], id, now);
    if tr[a].objects[id].enabled && now >= tr[a].objects[id].nextRun {
      b := FindRecheck(steps, tr, a + 1, id, now);
      if id !in tr[b].marked {
        SecondReadPicks(tr[b], tr[b + 1], id, now);
        FindStart(steps, tr, b + 1, id, now);
      }
    }
  }

  // ---- when a task may start ---------------------------------------------------------------

  /** Nothing about the task is planned for a time before `t`. */
  ghost predicate PlannedFrom(s: State, id: Id, t: real) {
    && id in s.objects && s.objects[id].nextRun >= t
    && (s.objects[id].lastRun.EndedAt? ==> s.objects[id].lastRun.at + s.objects[id].interval as real >= t)
    && s.clock + s.objects[id].interval as real >= t
  }

  /** It is not picked in a tick before `t`. */
  ghost predicate PickedFrom(l: Loop, id: Id, t: real) {
    && (l.Due? && l.id == id ==> l.now >= t)
    && (id in Ids(ChosenOf(l)) ==> l.now >= t)
  }

  ghost predicate StartedSince(s: State, id: Id, t: real) {
    forall i :: 0 <= i < |s.starts| && s.starts[i].id == id ==> s.starts[i].now >= t
  }

  /** A known task changes only when its executor reads the clock or stores. */
  ghost predicate TaskStep(t: Task, step: Step, t': Task, id: Id) {
    && t'.interval == t.interval && t'.enabled == t.enabled
    && t'.lastRun == (if step.ReadEnd? && step.ended == id then EndedAt(step.reading) else t.lastRun)
    && (if step.Store? && step.stored == id
        then t.lastRun.EndedAt? && t'.nextRun == t.lastRun.at + t.interval as real
        else t'.nextRun == t.nextRun)
  }

  lemma ObjectsAfter(s: State, step: Step, s': State)
    requires Next(s, step, s') && !step.Load? && !step.Add? && !step.ReadEnd? && !step.Store?
    ensures s'.objects == s.objects
  {
  }

  lemma KnownTaskAfter(s: State, step: Step, s': State, id: Id)
    requires Next(s, step, s') && id in s.objects
    ensures id in s'.objects && TaskStep(s.objects[id], step, s'.objects[id], id)
    ensures !(step.Add? && step.id == id) && !(step.Load? && step.loaded == id)
  {
    if !step.Load? && !step.Add? && !step.ReadEnd? && !step.Store? {
      ObjectsAfter(s, step, s');
    }
  }

  lemma ClockAfter(s: State, step: Step, s': State)
    requires Next(s, step, s')
    ensures s'.clock >= s.clock && (step.ReadEnd? ==> step.reading >= s.clock)
  {
  }

  lemma PlannedFromStep(s: State, step: Step, s': State, id: Id, t: real)
    requires PlannedFrom(s, id, t) && Next(s, step, s')
    ensures PlannedFrom(s', id, t)
  {
    KnownTaskAfter(s, step, s', id);
    ClockAfter(s, step, s');
  }

  /** A chosen id was chosen before, or has just passed the second read. */
  lemma ChosenBefore(s: State, step: Step, s': State, id: Id)
    requires Next(s, step, s') && id in Ids(ChosenOf(s'.loop))
    ensures !s.loop.Idle? && !s.loop.Woken? && s'.loop.now == s.loop.now
    ensures id in Ids(ChosenOf(s.loop)) || (s.loop.Due? && s.loop.id == id)
  {
    var i :| 0 <= i < |ChosenOf(s'.loop)| && ChosenOf(s'.loop)[i].id == id;
    assert !s.loop.Idle? && !s.loop.Woken?;
    ChosenAfterStep(s, step, s');
    if step == Submit {
      assert Ids(s.loop.chosen)[i + 1] == id;
    } else if i < |s.loop.chosen| {
      assert Ids(s.loop.chosen)[i] == id;
    }
  }

  lemma DueBefore(s: State, step: Step, s': State)
    requires Next(s, step, s') && s'.loop.Due?
    ensures (s.loop.Due? && s.loop.id == s'.loop.id && s.loop.now == s'.loop.now) ||
            (step == ReadDue && s'.loop.id in s.objects && s.objects[s'.loop.id].enabled &&
             s'.loop.now >= s.objects[s'.loop.id].nextRun)
  {
  }

  lemma PickedFromStep(s: State, step: Step, s': State, id: Id, t: real)
    requires PlannedFrom(s, id, t) && PickedFrom(s.loop, id, t) && Next(s, step, s')
    ensures PickedFrom(s'.loop, id, t)
  {
    if id in Ids(ChosenOf(s'.loop)) {
      ChosenBefore(s, step, s', id);
    }
    if s'.loop.Due? {
      DueBefore(s, step, s');
    }
  }

  lemma StartedSinceStep(s: State, step: Step, s': State, id: Id, t: real)
    requires PickedFrom(s.loop, id, t) && StartedSince(s, id, t) && Next(s, step, s')
    ensures StartedSince(s', id, t)
  {
    StartsAfterStep(s, step, s');
    if step == Submit {
      SubmitStarts(s, s');
      assert Ids(ChosenOf(s.loop))[0] == s.loop.chosen[0].id;
    }
  }

  lemma {:induction false} NotBeforeRun(steps: seq<Step>, tr: seq<State>, n: nat, m: nat, id: Id, t: real)
    requires Trace(steps, tr) && n <= m <= |steps|
    requires PlannedFrom(tr[n], id, t) && PickedFrom(tr[n].loop, id, t) && StartedSince(tr[n], id, t)
    ensures PlannedFrom(tr[m], id, t) && PickedFrom(tr[m].loop, id, t) && StartedSince(tr[m], id, t)
    decreases m - n
  {
    if n < m {
      NotBeforeRun(steps, tr, n, m - 1, id, t);
      PlannedFromStep(tr[m - 1], steps[m - 1], tr[m], id, t);
      PickedFromStep(tr[m - 1], steps[m - 1], tr[m], id, t);
      StartedSinceStep(tr[m - 1], steps[m - 1], tr[m], id, t);
    }
  }

  /** Only known tasks have started. */
  ghost predicate KnownStarts(s: State) {
    forall i :: 0 <= i < |s.starts| ==> s.starts[i].id in s.objects
  }

  lemma KnownStartsStep(s: State, step: Step, s': State)
    requires KnownStarts(s) && Next(s, step, s')
    ensures KnownStarts(s')
  {
    assert s.objects.Keys <= s'.objects.Keys;
    StartsAfterStep(s, step, s');
    if step == Submit {
      SubmitStarts(s, s');
    }
  }

  lemma {:induction false} StartsKnown(steps: seq<Step>, tr: seq<State>, n: nat)
    requires Trace(steps, tr) && n <= |steps|
    ensures KnownStarts(tr[n])
  {
    if n > 0 {
      StartsKnown(steps, tr, n - 1);
      KnownStartsStep(tr[n - 1], steps[n - 1], tr[n]);
    }
  }

  /** An unknown task is neither due, nor picked, nor started. */
  lemma UnknownIsIdle(steps: seq<Step>, tr: seq<State>, n: nat, id: Id)
    requires Trace(steps, tr) && n <= |steps| && id !in tr[n].objects
    ensures !(tr[n].loop.Due? && tr[n].loop.id == id) && id !in Ids(ChosenOf(tr[n].loop))
    ensures forall i :: 0 <= i < |tr[n].starts| ==> tr[n].starts[i].id != id
  {
    TraceSafe(steps, tr, n);
    StartsKnown(steps, tr, n);
    var l := tr[n].loop;
    forall j | 0 <= j < |ChosenOf(l)|
      ensures Ids(ChosenOf(l))[j] != id
    {
      assert Pending(l)[j] in tr[n].objects;
    }
    if l.Due? {
      assert Pending(l)[|l.chosen|] in tr[n].objects;
    }
  }

  lemma AddedAt(s: State, id: Id, interval: int, at: real, s': State)
    requires Next(s, Add(id, interval, at), s')
    ensures s'.loop == s.loop && s'.starts == s.starts && PlannedFrom(s', id, at + interval as real)
  {
  }

  /** No task starts before its interval has passed since it was added. */
  lemma EarliestStart(steps: seq<Step>, tr: seq<State>, k: nat, id: Id, interval: int, at: real, m: nat, i: nat)
    requires Trace(steps, tr) && k < m <= |steps| && steps[k] == Add(id, interval, at)
    requires i < |tr[m].starts| && tr[m].starts[i].id == id
    ensures tr[m].starts[i].now >= at + interval as real
  {
    assert Next(tr[k], steps[k], tr[k + 1]);
    UnknownIsIdle(steps, tr, k, id);
    AddedAt(tr[k], id, interval, at, tr[k + 1]);
    NotBeforeRun(steps, tr, k + 1, m, id, at + interval as real);
  }

  ghost predicate IsDisabled(s: State, id: Id) { id in s.objects && !s.objects[id].enabled }

  ghost predicate IsIdle(s: State, id: Id) {
    && !(s.loop.Due? && s.loop.id == id) && id !in Ids(ChosenOf(s.loop))
    && (forall i :: 0 <= i < |s.starts| ==> s.starts[i].id != id)
  }

  lemma DisabledStep(s: State, step: Step, s': State, id: Id)
    requires IsDisabled(s, id) && Next(s, step, s')
    ensures IsDisabled(s', id)
  {
    KnownTaskAfter(s, step, s', id);
  }

  lemma IsIdleStep(s: State, step: Step, s': State, id: Id)
    requires IsDisabled(s, id) && IsIdle(s, id) && Next(s, step, s')
    ensures IsIdle(s', id)
  {
    if id in Ids(ChosenOf(s'.loop)) {
      ChosenBefore(s, step, s', id);
    }
    if s'.loop.Due? {
      DueBefore(s, step, s');
    }
    StartsAfterStep(s, step, s');
    if step == Submit {
      SubmitStarts(s, s');
      assert Ids(ChosenOf(s.loop))[0] == s.loop.chosen[0].id;
    }
  }

  lemma {:induction false} IsIdleRun(steps: seq<Step>, tr: seq<State>, n: nat, m: nat, id: Id)
    requires Trace(steps, tr) && n <= m <= |steps| && IsDisabled(tr[n], id) && IsIdle(tr[n], id)
    ensures IsDisabled(tr[m], id) && IsIdle(tr[m], id)
    decreases m - n
  {
    if n < m {
      IsIdleRun(steps, tr, n, m - 1, id);
      DisabledStep(tr[m - 1], steps[m - 1], tr[m], id);
      IsIdleStep(tr[m - 1], steps[m - 1], tr[m], id);
    }
  }

  /** A task that is loaded disabled never starts. */
  lemma DisabledNeverStarts(steps: seq<Step>, tr: seq<State>, k: nat, id: Id, task: Task, m: nat)
    requires Trace(steps, tr) && k < m <= |steps| && steps[k] == Load(id, task) && !task.enabled
    ensures StartsOf(tr[m], id) == 0
  {
    assert Next(tr[k], steps[k], tr[k + 1]);
    UnknownIsIdle(steps, tr, k, id);
    IsIdleRun(steps, tr, k + 1, m, id);
  }

  // ---- the plan, from the history ----------------------------------------------------------

  /** The clock reading of the task's latest finished execution in the history. */
  function LastReading(steps: seq<Step>, id: Id): Ended {
    if steps == [] then Never
    else
      var step := steps[|steps| - 1];
      if step.ReadEnd? && step.ended == id then EndedAt(step.reading)
      else if step.Load? && step.loaded == id then step.task.lastRun
      else LastReading(steps[..|steps| - 1], id)
  }

  /** When the task runs next: one interval after it was added or, later, after the reading it last
      stored from; a crash or a removal does not change that. */
  function Plan(steps: seq<Step>, id: Id, interval: int): real {
    if steps == [] then 0.0
    else
      var init, step := steps[..|steps| - 1], steps[|steps| - 1];
      if step.Add? && step.id == id then step.at + interval as real
      else if step.Load? && step.loaded == id then step.task.nextRun
      else if step.Store? && step.stored == id && LastReading(init, id).EndedAt?
      then LastReading(init, id).at + interval as real
      else Plan(init, id, interval)
  }

  lemma NewTask(s: State, step: Step, s': State, id: Id)
    requires Next(s, step, s') && id !in s.objects
    ensures !(step.ReadEnd? && step.ended == id)
    ensures id in s'.objects <==> (step.Add? && step.id == id) || (step.Load? && step.loaded == id)
    ensures id in s'.objects && step.Add? ==>
              s'.objects[id].lastRun == Never && s'.objects[id].nextRun == step.at + s'.objects[id].interval as real
    ensures id in s'.objects && step.Load? ==> s'.objects[id] == step.task
  {
  }

  ghost predicate FollowsPlan(steps: seq<Step>, s: State, id: Id) {
    if id in s.objects then
      && s.objects[id].lastRun == LastReading(steps, id)
      && s.objects[id].nextRun == Plan(steps, id, s.objects[id].interval)
    else LastReading(steps, id) == Never
  }

  lemma PlanStep(init: seq<Step>, step: Step, s: State, s': State, id: Id)
    requires FollowsPlan(init, s, id) && Next(s, step, s')
    ensures FollowsPlan(init + [step], s', id)
  {
    assert (init + [step])[..|init|] == init;
    if id in s.objects {
      KnownTaskAfter(s, step, s', id);
    } else {
      NewTask(s, step, s', id);
    }
  }

  /** In every run the two times of a task are those its history gives. */
  lemma {:induction false} PlanByHistory(steps: seq<Step>, tr: seq<State>, n: nat, id: Id)
    requires Trace(steps, tr) && n <= |steps|
    ensures FollowsPlan(steps[..n], tr[n], id)
  {
    if n > 0 {
      PlanByHistory(steps, tr, n - 1, id);
      assert steps[..n] == steps[..n - 1] + [steps[n - 1]];
      PlanStep(steps[..n - 1], steps[n - 1], tr[n - 1], tr[n], id);
    }
  }

  // ---- the race ----------------------------------------------------------------------------

  ghost predicate Reachable(s: State) { exists steps :: IsRun(steps) && End(steps) == s }

  lemma Then(s: State, step: Step, s': State)
    requires Reachable(s) && Enabled(s, step) && Do(s, step) == s'
    ensures Reachable(s')
  {
    var steps :| IsRun(steps) && End(steps) == s;
    var more := steps + [step];
    assert more[..|steps|] == steps;
    assert IsRun(more) && End(more) == s';
  }

  /** The loop reads a due and unmarked task, and submits it. */
  lemma Selected(s: State, now: real, id: Id, race: Race)
    requires Reachable(s) && s.loop == Due(now, id, race, [], []) && id in s.objects && id !in s.marked
    ensures Reachable(s.(loop := Submitting(now, []),
                         marked := s.marked + {id}, executing := s.executing + multiset{id},
                         starts := s.starts + [Start(id, now, s.objects[id].interval, PreviousEnd(s, id), race)]))
  {
    var c := Choice(id, race);
    var s1 := s.(loop := Scanning(now, [], [c]));
    assert [] + [c] == [c];
    Then(s, ReadMarked, s1);
    var s2 := s.(loop := Submitting(now, [c]));
    Then(s1, EndScan, s2);
    assert [c][1..] == [];
    Then(s2, Submit, s2.(marked := s2.marked + {id}, executing := s2.executing + multiset{id},
                         loop := Submitting(now, []),
                         starts := s2.starts + [Start(id, now, s2.objects[id].interval, PreviousEnd(s2, id), race)]));
  }

  /** A tick finds the only listed task due. */
  lemma FoundDue(s: State, now: real, id: Id)
    requires Reachable(s) && s.loop.Idle? && s.listed == {id} && s.clock <= now
    requires id in s.objects && s.objects[id].enabled && now >= s.objects[id].nextRun
    ensures Reachable(s.(clock := now, loop := Due(now, id, Clean, [], [])))
  {
    var s1 := s.(clock := now, loop := Scanning(now, [id], []));
    var s0 := s.(clock := now, loop := Woken(now));
    Then(s, Wake(now), s0);
    Then(s0, BeginScan([id]), s1);
    assert [id][1..] == [];
    Then(s1, ReadDue, s.(clock := now, loop := Due(now, id, Clean, [], [])));
  }

  /** The executor reads the clock. */
  ghost function EndRead(s: State, id: Id, at: real): State
    requires id in s.objects
  {
    s.(clock := at, objects := s.objects[id := s.objects[id].(lastRun := EndedAt(at))],
       executing := multiset{}, timed := multiset{id})
  }

  lemma ReachEndRead(s: State, id: Id, at: real)
    requires Reachable(s) && id in s.objects && s.clock <= at
    requires s.executing == multiset{id} && s.timed == multiset{}
    ensures Reachable(EndRead(s, id, at))
  {
    assert s.executing - multiset{id} == multiset{} && s.timed + multiset{id} == multiset{id};
    Then(s, ReadEnd(id, at), EndRead(s, id, at));
  }

  /** The executor stores `next_run` between the two reads. */
  ghost function JustStored(s: State, id: Id, at: real): State
    requires id in s.objects && s.loop.Due?
  {
    var t := s.objects[id];
    s.(objects := s.objects[id := t.(nextRun := at + t.interval as real)], timed := multiset{},
       finishing := multiset{id}, lastEnd := s.lastEnd[id := at], loop := s.loop.(race := Raced(at)))
  }

  lemma StoreGives(s: State, id: Id, at: real)
    requires id in s.objects && s.objects[id].lastRun == EndedAt(at)
    requires s.loop.Due? && s.loop.id == id && s.timed == multiset{id} && s.finishing == multiset{}
    ensures Enabled(s, Store(id)) && Do(s, Store(id)) == JustStored(s, id, at)
  {
    assert s.timed - multiset{id} == multiset{} && s.finishing + multiset{id} == multiset{id};
  }

  /** It then discards its id, still before the second read. */
  ghost function StoredMeanwhile(s: State, id: Id, at: real): State
    requires id in s.objects && s.loop.Due?
  {
    JustStored(s, id, at).(finishing := multiset{}, marked := s.marked - {id})
  }

  lemma ReachStoredMeanwhile(s: State, id: Id, at: real)
    requires Reachable(s) && id in s.objects && s.objects[id].lastRun == EndedAt(at)
    requires s.loop.Due? && s.loop.id == id && s.timed == multiset{id} && s.finishing == multiset{}
    ensures Reachable(StoredMeanwhile(s, id, at))
  {
    StoreGives(s, id, at);
    Then(s, Store(id), JustStored(s, id, at));
    Discarded(JustStored(s, id, at), id);
  }

  lemma Discarded(s: State, id: Id)
    requires Reachable(s) && s.finishing == multiset{id}
    ensures Reachable(s.(finishing := multiset{}, marked := s.marked - {id}))
  {
    assert multiset{id} - multiset{id} == multiset{};
    Then(s, Discard(id), s.(finishing := multiset{}, marked := s.marked - {id}));
  }

  ghost function Added(): State {
    State(0.0, map["t" := Task(10, Never, 10.0, true)], {"t"}, {}, multiset{}, multiset{}, multiset{}, Idle, map[], [])
  }

  /** The only task runs for the first time. */
  ghost function FirstRun(): State {
    Added().(clock := 10.0, marked := {"t"}, executing := multiset{"t"}, starts := [Start("t", 10.0, 10, Never, Clean)])
  }

  lemma ReachFirstRun()
    ensures Reachable(FirstRun())
  {
    assert IsRun([]) && End([]) == INIT;
    Then(INIT, Add("t", 10, 0.0), Added());
    FoundDue(Added(), 10.0, "t");
    Selected(Added().(clock := 10.0, loop := Due(10.0, "t", Clean, [], [])), 10.0, "t", Clean);
    var s := FirstRun().(loop := Submitting(10.0, []));
    assert {} + {"t"} == {"t"} && multiset{} + multiset{"t"} == multiset{"t"};
    assert Reachable(s);
    Then(s, EndSubmit, FirstRun());
  }

  /** The task whose executor stored `next_run` between the two reads is submitted. */
  lemma SubmittedAfterRace(s: State, now: real, at: real) returns (s': State)
    requires Reachable(s) && s.loop == Due(now, "t", Raced(at), [], []) && s.marked == {} && "t" in s.objects
    ensures Reachable(s') && |s'.starts| == |s.starts| + 1
    ensures s'.starts[|s.starts|] == Start("t", now, s.objects["t"].interval, PreviousEnd(s, "t"), Raced(at))
  {
    Selected(s, now, "t", Raced(at));
    s' := s.(loop := Submitting(now, []), marked := s.marked + {"t"}, executing := s.executing + multiset{"t"},
             starts := s.starts + [Start("t", now, s.objects["t"].interval, PreviousEnd(s, "t"), Raced(at))]);
  }

  /** The two reads of one selection can straddle the end of a run: the task then starts again at
      once, although its interval is ten seconds. */
  lemma RaceBreaksSpacing() returns (s: State)
    ensures Reachable(s) && |s.starts| == 2 && !Spaced(s.starts[1])
  {
    ReachFirstRun();
    FoundDue(FirstRun(), 11.0, "t");
    var s1 := FirstRun().(clock := 11.0, loop := Due(11.0, "t", Clean, [], []));
    ReachEndRead(s1, "t", 12.0);
    var s2 := EndRead(s1, "t", 12.0);
    ReachStoredMeanwhile(s2, "t", 12.0);
    var s3 := StoredMeanwhile(s2, "t", 12.0);
    assert {"t"} - {"t"} == {};
    s := SubmittedAfterRace(s3, 11.0, 12.0);
  }

  /** Not every race breaks the spacing: the executor may have read the clock long before the tick. */
  lemma RacedYetSpaced() returns (s: State)
    ensures Reachable(s) && |s.starts| == 2 && s.starts[1].race.Raced? && Spaced(s.starts[1])
  {
    ReachFirstRun();
    ReachEndRead(FirstRun(), "t", 11.0);
    var s1 := EndRead(FirstRun(), "t", 11.0);
    FoundDue(s1, 25.0, "t");
    var s2 := s1.(clock := 25.0, loop := Due(25.0, "t", Clean, [], []));
    ReachStoredMeanwhile(s2, "t", 11.0);
    var s3 := StoredMeanwhile(s2, "t", 11.0);
    assert {"t"} - {"t"} == {};
    s := SubmittedAfterRace(s3, 25.0, 11.0);
  }
}
