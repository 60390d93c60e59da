/** Family-balanced file selection: `_fair_registry_order` and its cap (agent/hybrid_repository_scan.py). */
module FairOrder {
  import opened Sorting
  import opened Strings

  /** One item of the candidate dictionary. */
  datatype File = File(path: string, priority: string, family: string)

  datatype Group = Group(rank: nat, family: string)

  /** `priority_order.get(priority.upper(), 99)`. */
  function PriorityRank(priority: string): nat {
    if priority == "P0" || priority == "p0" then 0
    else if priority == "P1" || priority == "p1" then 1
    else if priority == "P2" || priority == "p2" then 2
    else 99
  }

  function GroupOf(x: File): Group { Group(PriorityRank(x.priority), x.family) }

  /** The files of group `g`, in the order of `items`. */
  function Queue(items: seq<File>, g: Group): seq<File> {
    if items == [] then []
    else
      var x := items[|items| - 1];
      Queue(items[..|items| - 1], g) + if GroupOf(x) == g then [x] else []
  }

  ghost predicate NoDuplicates<T>(s: seq<T>) {
    forall i, j :: 0 <= i < j < |s| ==> s[i] != s[j]
  }

  function IndexOf(s: seq<File>, x: File): (i: nat)
    requires x in s
    ensures i < |s| && s[i] == x
  {
    if s[0] == x then 0 else 1 + IndexOf(s[1..], x)
  }

  /** Position of a file inside its own group. */
  function Position(items: seq<File>, x: File): nat {
    var q := Queue(items, GroupOf(x));
    if x in q then IndexOf(q, x) else 0
  }

  /** The sort key: priority, then position within the family, then family name. */
  datatype Key = Key(rank: nat, position: nat, family: string)

  predicate KeyLe(a: Key, b: Key) {
    if a.rank != b.rank then a.rank < b.rank
    else if a.position != b.position then a.position < b.position
    else StrLe(a.family, b.family)
  }

  function KeyOf(items: seq<File>, x: File): Key {
    Key(GroupOf(x).rank, Position(items, x), x.family)
  }

  function ByKey(items: seq<File>): (File, File) -> bool {
    (x, y) => KeyLe(KeyOf(items, x), KeyOf(items, y))
  }

  function ByPath(): (File, File) -> bool {
    (x: File, y: File) => StrLe(x.path, y.path)
  }

  /** The order the round-robin promises: `items` sorted by key. */
  function Fair(items: seq<File>): seq<File> {
    StableSort(items, ByKey(items))
  }

  // ---- facts about queues and keys ---------------------------------------------------------

  lemma ByKeyPreorder(items: seq<File>)
    ensures TotalPreorder(ByKey(items))
  {
    forall x, y
      ensures ByKey(items)(x, y) || ByKey(items)(y, x)
    {
      StrLeTotal(x.family, y.family);
    }
    forall x, y, z | ByKey(items)(x, y) && ByKey(items)(y, z)
      ensures ByKey(items)(x, z)
    {
      if StrLe(x.family, y.family) && StrLe(y.family, z.family) {
        StrLeTransitive(x.family, y.family, z.family);
      }
    }
  }

  lemma ByPathPreorder()
    ensures TotalPreorder(ByPath())
  {
    forall x: File, y: File
      ensures ByPath()(x, y) || ByPath()(y, x)
    {
      StrLeTotal(x.path, y.path);
    }
    forall x: File, y: File, z: File | ByPath()(x, y) && ByPath()(y, z)
      ensures ByPath()(x, z)
    {
      StrLeTransitive(x.path, y.path, z.path);
    }
  }

  lemma {:induction false} QueueSound(items: seq<File>, g: Group)
    ensures forall x :: x in Queue(items, g) <==> x in items && GroupOf(x) == g
    ensures NoDuplicates(items) ==> NoDuplicates(Queue(items, g))
  {
    if items != [] {
      var n := |items| - 1;
      QueueSound(items[..n], g);
      assert items == items[..n] + [items[n]];
      assert NoDuplicates(items) ==> items[n] !in items[..n];
    }
  }

  lemma {:induction false} IndexIs(s: seq<File>, i: nat)
    requires NoDuplicates(s) && i < |s|
    ensures IndexOf(s, s[i]) == i
  {
  }

  /** The file at position `k` of its group has key position `k`. */
  lemma PositionInQueue(items: seq<File>, g: Group, k: nat)
    requires NoDuplicates(items) && k < |Queue(items, g)|
    ensures var x := Queue(items, g)[k];
            x in items && GroupOf(x) == g && Position(items, x) == k
  {
    QueueSound(items, g);
    var x := Queue(items, g)[k];
    assert x in Queue(items, g);
    IndexIs(Queue(items, g), k);
  }

  lemma NoKeyTies(items: seq<File>)
    requires NoDuplicates(items)
    ensures NoTies(items, ByKey(items))
  {
    forall i, j | 0 <= i < |items| && 0 <= j < |items|
                  && ByKey(items)(items[i], items[j]) && ByKey(items)(items[j], items[i])
      ensures items[i] == items[j]
    {
      var x, y := items[i], items[j];
      if StrLe(x.family, y.family) && StrLe(y.family, x.family) {
        StrLeAntisymmetric(x.family, y.family);
      }
      assert GroupOf(x) == GroupOf(y);
      QueueSound(items, GroupOf(x));
    }
  }

  lemma {:induction false} CountsOfDistinct<T>(s: seq<T>, x: T)
    requires NoDuplicates(s)
    ensures multiset(s)[x] == if x in s then 1 else 0
  {
    if s != [] {
      var n := |s| - 1;
      CountsOfDistinct(s[..n], x);
      assert s == s[..n] + [s[n]];
      assert s[n] !in s[..n];
    }
  }

  lemma SameMembers<T>(a: seq<T>, b: seq<T>)
    requires NoDuplicates(a) && NoDuplicates(b)
    requires forall x :: x in a <==> x in b
    ensures multiset(a) == multiset(b)
  {
    forall x: T
      ensures multiset(a)[x] == multiset(b)[x]
    {
      CountsOfDistinct(a, x);
      CountsOfDistinct(b, x);
    }
  }

  // ---- prefix fairness ---------------------------------------------------------------------

  /** `out` is an order of `items` sorted by key. */
  ghost predicate IsFairOrder(items: seq<File>, out: seq<File>) {
    && NoDuplicates(items) && NoDuplicates(out)
    && (forall x :: x in out <==> x in items)
    && SortedBy(out, ByKey(items))
  }

  lemma {:induction false} CountedTwice<T>(b: seq<T>, i: nat, j: nat)
    requires i < j < |b| && b[i] == b[j]
    ensures multiset(b)[b[i]] >= 2
  {
    var n := |b| - 1;
    assert b == b[..n] + [b[n]];
    if j < n {
      CountedTwice(b[..n], i, j);
    } else {
      assert b[i] in b[..n];
    }
  }

  lemma DistinctByCount<T>(a: seq<T>, b: seq<T>)
    requires NoDuplicates(a) && multiset(a) == multiset(b)
    ensures NoDuplicates(b)
  {
    forall i, j | 0 <= i < j < |b|
      ensures b[i] != b[j]
    {
      CountsOfDistinct(a, b[i]);
      if b[i] == b[j] {
        CountedTwice(b, i, j);
      }
    }
  }

  lemma FairIsFairOrder(items: seq<File>)
    requires NoDuplicates(items)
    ensures IsFairOrder(items, Fair(items))
  {
    ByKeyPreorder(items);
    SortSound(items, ByKey(items));
    DistinctByCount(items, Fair(items));
    assert forall x :: x in Fair(items) <==> x in multiset(Fair(items));
  }

  /** How many files of group `g` the first `n` of `out` hold. */
  function Held(out: seq<File>, n: nat, g: Group): nat
    requires n <= |out|
  {
    |Queue(out[..n], g)|
  }

  /** The next file of a family is still to come after a prefix that holds the first `c` of it. */
  lemma StillToCome(items: seq<File>, out: seq<File>, n: nat, g: Group) returns (m: nat)
    requires IsFairOrder(items, out) && n <= |out|
    requires Held(out, n, g) < |Queue(items, g)|
    requires Queue(out[..n], g) == Queue(items, g)[..Held(out, n, g)]
    ensures n <= m < |out| && out[m] == Queue(items, g)[Held(out, n, g)]
  {
    var q, c := Queue(items, g), Held(out, n, g);
    QueueSound(items, g);
    QueueSound(out[..n], g);
    assert q[c] in q;
    assert q[c] in out;
    m :| 0 <= m < |out| && out[m] == q[c];
    assert q[c] !in q[..c];
    assert q[c] !in out[..n];
    assert forall i :: 0 <= i < n ==> out[..n][i] == out[i];
  }

  lemma NextInLine(items: seq<File>, out: seq<File>, n: nat, g: Group)
    requires IsFairOrder(items, out) && n < |out| && GroupOf(out[n]) == g
    requires Held(out, n, g) <= |Queue(items, g)|
    requires Queue(out[..n], g) == Queue(items, g)[..Held(out, n, g)]
    requires out[n] in Queue(items, g)
    ensures IndexOf(Queue(items, g), out[n]) <= Held(out, n, g)
  {
    var q, c := Queue(items, g), Held(out, n, g);
    var k := IndexOf(q, out[n]);
    if c < |q| {
      QueueSound(items, g);
      var m := StillToCome(items, out, n, g);
      PositionInQueue(items, g, c);
      PositionInQueue(items, g, k);
      assert m == n || ByKey(items)(out[n], out[m]);
    }
  }

  /** The file now in turn is not among those already taken. */
  lemma NotYetTaken(items: seq<File>, out: seq<File>, n: nat, g: Group)
    requires IsFairOrder(items, out) && n < |out| && GroupOf(out[n]) == g
    requires Held(out, n, g) <= |Queue(items, g)|
    requires Queue(out[..n], g) == Queue(items, g)[..Held(out, n, g)]
    ensures out[n] in Queue(items, g)
    ensures forall k :: 0 <= k < Held(out, n, g) ==> Queue(items, g)[k] != out[n]
  {
    QueueSound(items, g);
    QueueSound(out[..n], g);
    var q, c := Queue(items, g), Held(out, n, g);
    assert out[n] in items;
    assert out[n] !in out[..n];
    forall k | 0 <= k < c
      ensures q[k] != out[n]
    {
      assert q[..c][k] in Queue(out[..n], g);
    }
  }

  lemma OneMoreOfFamily(items: seq<File>, out: seq<File>, n: nat, g: Group)
    requires IsFairOrder(items, out) && n < |out| && GroupOf(out[n]) == g
    requires Held(out, n, g) <= |Queue(items, g)|
    requires Queue(out[..n], g) == Queue(items, g)[..Held(out, n, g)]
    ensures Held(out, n, g) < |Queue(items, g)| && Queue(items, g)[Held(out, n, g)] == out[n]
  {
    NotYetTaken(items, out, n, g);
    NextInLine(items, out, n, g);
    AtIndex(Queue(items, g), out[n], Held(out, n, g));
  }

  lemma AtIndex(q: seq<File>, x: File, c: nat)
    requires x in q && IndexOf(q, x) <= c && forall k :: 0 <= k < c && k < |q| ==> q[k] != x
    ensures c < |q| && q[c] == x
  {
  }

  lemma QueueSnoc(out: seq<File>, n: nat, g: Group)
    requires n < |out|
    ensures Queue(out[..n + 1], g) == Queue(out[..n], g) + if GroupOf(out[n]) == g then [out[n]] else []
  {
    assert out[..n + 1][..n] == out[..n];
  }

  lemma PrefixSnoc<T>(q: seq<T>, c: nat)
    requires c < |q|
    ensures q[..c] + [q[c]] == q[..c + 1]
  {
  }

  /** Every prefix takes each family from the front: it holds the first files of the family's queue. */
  lemma {:induction false} TakesFromFront(items: seq<File>, out: seq<File>, n: nat, g: Group)
    requires IsFairOrder(items, out) && n <= |out|
    ensures Held(out, n, g) <= |Queue(items, g)|
    ensures Queue(out[..n], g) == Queue(items, g)[..Held(out, n, g)]
  {
    if n > 0 {
      TakesFromFront(items, out, n - 1, g);
      QueueSnoc(out, n - 1, g);
      if GroupOf(out[n - 1]) == g {
        OneMoreOfFamily(items, out, n - 1, g);
        PrefixSnoc(Queue(items, g), Held(out, n - 1, g));
      }
    }
  }

  /** A prefix that holds more of `g` than of `f` took its last `g` before the next `f`. */
  lemma TakenBefore(items: seq<File>, out: seq<File>, n: nat, f: Group, g: Group)
    requires IsFairOrder(items, out) && n <= |out|
    requires Held(out, n, f) < |Queue(items, f)| && Held(out, n, g) >= 1
    ensures KeyLe(Key(g.rank, Held(out, n, g) - 1, g.family), Key(f.rank, Held(out, n, f), f.family))
  {
    TakesFromFront(items, out, n, f);
    TakesFromFront(items, out, n, g);
    var cf, cg := Held(out, n, f), Held(out, n, g);
    var m := StillToCome(items, out, n, f);
    var y := Queue(items, g)[cg - 1];
    assert y == Queue(out[..n], g)[cg - 1] && y in Queue(out[..n], g);
    QueueSound(out[..n], g);
    var i :| 0 <= i < n && out[i] == y;
    PositionInQueue(items, f, cf);
    PositionInQueue(items, g, cg - 1);
    assert ByKey(items)(out[i], out[m]);
  }

  /** Two families of one priority stay within one file of each other in every prefix, until the
      shorter one is used up; the alphabetically earlier family is never behind at all. */
  lemma PrefixFairness(items: seq<File>, out: seq<File>, n: nat, f: Group, g: Group)
    requires IsFairOrder(items, out) && n <= |out| && f.rank == g.rank
    ensures Held(out, n, f) < |Queue(items, f)| ==> Held(out, n, g) <= Held(out, n, f) + 1
    ensures Held(out, n, f) < |Queue(items, f)| && StrLess(f.family, g.family) ==>
              Held(out, n, g) <= Held(out, n, f)
  {
    if Held(out, n, f) < |Queue(items, f)| && Held(out, n, g) >= 1 {
      TakenBefore(items, out, n, f, g);
      if StrLe(f.family, g.family) && StrLe(g.family, f.family) {
        StrLeAntisymmetric(f.family, g.family);
      }
    }
  }

  /** No file of a lower priority appears before every higher priority is exhausted. */
  lemma PriorityExhausted(items: seq<File>, out: seq<File>, n: nat, i: nat, x: File)
    requires IsFairOrder(items, out) && i < n <= |out|
    requires x in items && GroupOf(x).rank < GroupOf(out[i]).rank
    ensures x in out[..n]
  {
  }

  // ---- the order, in terms of the candidates alone -----------------------------------------

  /** Priorities that are drained together: the spellings of P0, of P1, of P2, and all others. */
  predicate SamePriority(p: string, q: string) {
    || p == q
    || {p, q} <= {"P0", "p0"} || {p, q} <= {"P1", "p1"} || {p, q} <= {"P2", "p2"}
    || {p, q} !! {"P0", "p0", "P1", "p1", "P2", "p2"}
  }

  predicate Matches(x: File, priority: string, family: string) {
    SamePriority(x.priority, priority) && x.family == family
  }

  /** The positions of the files with that priority and family, and their number. */
  function Positions(files: seq<File>, priority: string, family: string): set<int> {
    set i | 0 <= i < |files| && Matches(files[i], priority, family)
  }

  function CountOf(files: seq<File>, priority: string, family: string): nat {
    |Positions(files, priority, family)|
  }

  /** Files with a priority of `first` come before all files whose priority is not in `upTo`. */
  ghost predicate Precede(out: seq<File>, first: set<string>, upTo: set<string>) {
    forall i, j :: 0 <= i < |out| && 0 <= j < |out| && out[i].priority in first && out[j].priority !in upTo ==> i < j
  }

  /** P0 before everything else, P1 before P2 and the rest, P2 before the rest. */
  ghost predicate ByPriority(out: seq<File>) {
    && Precede(out, {"P0", "p0"}, {"P0", "p0"})
    && Precede(out, {"P1", "p1"}, {"P0", "p0", "P1", "p1"})
    && Precede(out, {"P2", "p2"}, {"P0", "p0", "P1", "p1", "P2", "p2"})
  }

  /** Files of one priority and family come in path order. */
  ghost predicate ByPathInFamily(out: seq<File>) {
    forall i, j :: 0 <= i < j < |out| && Matches(out[i], out[j].priority, out[j].family) ==>
      StrLe(out[i].path, out[j].path)
  }

  /** While family `f` has files left after the first `n`, family `g` of the same priority is at most one
      file ahead of it, and not at all if it comes later in the alphabet. */
  ghost predicate BalancedAt(candidates: seq<File>, out: seq<File>, n: nat, p: string, f: string, g: string)
    requires n <= |out|
  {
    CountOf(out[..n], p, f) < CountOf(candidates, p, f) ==>
      && CountOf(out[..n], p, g) <= CountOf(out[..n], p, f) + 1
      && (StrLess(f, g) ==> CountOf(out[..n], p, g) <= CountOf(out[..n], p, f))
  }

  ghost predicate BalancedPrefixes(candidates: seq<File>, out: seq<File>) {
    forall n: nat, p, f, g :: n <= |out| ==> BalancedAt(candidates, out, n, p, f, g)
  }

  /** What `_fair_registry_order` promises of its result. */
  ghost predicate FairListing(candidates: seq<File>, out: seq<File>) {
    && multiset(out) == multiset(candidates)
    && ByPriority(out) && ByPathInFamily(out) && BalancedPrefixes(candidates, out)
  }

  lemma SameRank(p: string, q: string)
    ensures SamePriority(p, q) <==> PriorityRank(p) == PriorityRank(q)
  {
  }

  lemma CountSnoc(a: seq<File>, x: File, p: string, f: string)
    ensures CountOf(a + [x], p, f) == CountOf(a, p, f) + if Matches(x, p, f) then 1 else 0
  {
    var all := a + [x];
    assert all[|a|] == x && forall i :: 0 <= i < |a| ==> all[i] == a[i];
    assert Positions(all, p, f) == if Matches(x, p, f) then Positions(a, p, f) + {|a|} else Positions(a, p, f);
  }

  lemma {:induction false} CountIsQueue(files: seq<File>, p: string, f: string)
    ensures CountOf(files, p, f) == |Queue(files, Group(PriorityRank(p), f))|
  {
    if files != [] {
      var n := |files| - 1;
      CountIsQueue(files[..n], p, f);
      SameRank(files[n].priority, p);
      assert files == files[..n] + [files[n]];
      CountSnoc(files[..n], files[n], p, f);
    }
  }

  lemma RanksSorted(items: seq<File>, out: seq<File>, i: nat, j: nat)
    requires IsFairOrder(items, out) && i < j < |out|
    ensures PriorityRank(out[i].priority) <= PriorityRank(out[j].priority)
  {
    assert ByKey(items)(out[i], out[j]);
  }

  lemma PrecedeByRank(items: seq<File>, out: seq<File>, first: set<string>, upTo: set<string>)
    requires IsFairOrder(items, out)
    requires forall p, q :: p in first && q !in upTo ==> PriorityRank(p) < PriorityRank(q)
    ensures Precede(out, first, upTo)
  {
    forall i, j | 0 <= i < |out| && 0 <= j < |out| && out[i].priority in first && out[j].priority !in upTo
      ensures i < j
    {
      assert PriorityRank(out[i].priority) < PriorityRank(out[j].priority);
      if j < i {
        RanksSorted(items, out, j, i);
      }
    }
  }

  lemma OrderByPriority(items: seq<File>, out: seq<File>)
    requires IsFairOrder(items, out)
    ensures ByPriority(out)
  {
    PrecedeByRank(items, out, {"P0", "p0"}, {"P0", "p0"});
    PrecedeByRank(items, out, {"P1", "p1"}, {"P0", "p0", "P1", "p1"});
    PrecedeByRank(items, out, {"P2", "p2"}, {"P0", "p0", "P1", "p1", "P2", "p2"});
  }

  lemma {:induction false} QueueByPath(items: seq<File>, g: Group)
    requires SortedBy(items, ByPath())
    ensures SortedBy(Queue(items, g), ByPath())
    ensures items != [] ==>
      forall i :: 0 <= i < |Queue(items, g)| ==> ByPath()(Queue(items, g)[i], items[|items| - 1])
  {
    if items != [] {
      var n := |items| - 1;
      QueueByPath(items[..n], g);
      StrLeReflexive(items[n].path);
      if n > 0 {
        assert ByPath()(items[n - 1], items[n]);
        forall i | 0 <= i < |Queue(items[..n], g)|
          ensures ByPath()(Queue(items[..n], g)[i], items[n])
        {
          StrLeTransitive(Queue(items[..n], g)[i].path, items[n - 1].path, items[n].path);
        }
      }
    }
  }

  lemma OrderByPath(items: seq<File>, out: seq<File>)
    requires IsFairOrder(items, out) && SortedBy(items, ByPath())
    ensures ByPathInFamily(out)
  {
    forall i, j | 0 <= i < j < |out| && Matches(out[i], out[j].priority, out[j].family)
      ensures StrLe(out[i].path, out[j].path)
    {
      SameRank(out[i].priority, out[j].priority);
      var g := GroupOf(out[i]);
      var q := Queue(items, g);
      QueueSound(items, g);
      QueueByPath(items, g);
      assert out[i] in q && out[j] in q;
      assert ByKey(items)(out[i], out[j]);
      var a, b := IndexOf(q, out[i]), IndexOf(q, out[j]);
      assert a < b ==> ByPath()(q[a], q[b]);
      StrLeReflexive(out[i].path);
    }
  }

  lemma OrderIsBalanced(candidates: seq<File>, items: seq<File>, out: seq<File>, n: nat, p: string, f: string, g: string)
    requires IsFairOrder(items, out) && multiset(items) == multiset(candidates) && n <= |out|
    ensures BalancedAt(candidates, out, n, p, f, g)
  {
    CountIsQueue(out[..n], p, f);
    CountIsQueue(out[..n], p, g);
    CountIsQueue(items, p, f);
    CountOfPermutation(items, candidates, p, f);
    PrefixFairness(items, out, n, Group(PriorityRank(p), f), Group(PriorityRank(p), g));
  }

  lemma {:induction false} CountOfPermutation(a: seq<File>, b: seq<File>, p: string, f: string)
    requires multiset(a) == multiset(b)
    ensures CountOf(a, p, f) == CountOf(b, p, f)
    decreases |a|
  {
    SameLength(a, b);
    if a != [] {
      var n := |a| - 1;
      assert a == a[..n] + [a[n]];
      assert a[n] in multiset(b);
      var i :| 0 <= i < |b| && b[i] == a[n];
      var rest := b[..i] + b[i + 1..];
      assert b == b[..i] + [b[i]] + b[i + 1..];
      assert multiset(rest) == multiset(b) - multiset{b[i]};
      CountOfPermutation(a[..n], rest, p, f);
      CountSnoc(a[..n], a[n], p, f);
      CountConcat(b[..i], b[i + 1..], p, f);
      CountSnoc(b[..i], b[i], p, f);
      CountConcat(b[..i] + [b[i]], b[i + 1..], p, f);
    }
  }

  lemma {:induction false} CountConcat(a: seq<File>, b: seq<File>, p: string, f: string)
    ensures CountOf(a + b, p, f) == CountOf(a, p, f) + CountOf(b, p, f)
  {
    if b == [] {
      assert a + b == a;
    } else {
      var n := |b| - 1;
      CountConcat(a, b[..n], p, f);
      assert a + b == (a + b[..n]) + [b[n]] && b == b[..n] + [b[n]];
      CountSnoc(a + b[..n], b[n], p, f);
      CountSnoc(b[..n], b[n], p, f);
    }
  }

  /** The order sorted by key is such a listing. */
  lemma FairIsListing(candidates: seq<File>, items: seq<File>)
    requires NoDuplicates(items) && multiset(items) == multiset(candidates) && SortedBy(items, ByPath())
    ensures FairListing(candidates, Fair(items))
  {
    var out := Fair(items);
    ByKeyPreorder(items);
    SortSound(items, ByKey(items));
    FairIsFairOrder(items);
    OrderByPriority(items, out);
    OrderByPath(items, out);
    forall n: nat, p, f, g | n <= |out|
      ensures BalancedAt(candidates, out, n, p, f, g)
    {
      OrderIsBalanced(candidates, items, out, n, p, f, g);
    }
  }

  // ---- the nested deque loops --------------------------------------------------------------

  predicate KeyLess(a: Key, b: Key) { KeyLe(a, b) && a != b }

  ghost predicate StrictlySorted(keys: seq<Key>) {
    forall i, j :: 0 <= i < j < |keys| ==> KeyLess(keys[i], keys[j])
  }

  /** The key is that of some file. */
  ghost predicate Occupied(items: seq<File>, k: Key) {
    k.position < |Queue(items, Group(k.rank, k.family))|
  }

  /** `out` lists the files with the given keys. */
  ghost predicate Lists(items: seq<File>, out: seq<File>, keys: seq<Key>) {
    && |out| == |keys|
    && forall i :: 0 <= i < |keys| ==>
         && Occupied(items, keys[i])
         && out[i] == Queue(items, Group(keys[i].rank, keys[i].family))[keys[i].position]
  }

  lemma ListedKeys(items: seq<File>, out: seq<File>, keys: seq<Key>)
    requires NoDuplicates(items) && Lists(items, out, keys)
    ensures forall i :: 0 <= i < |out| ==> out[i] in items && KeyOf(items, out[i]) == keys[i]
  {
    forall i | 0 <= i < |out|
      ensures out[i] in items && KeyOf(items, out[i]) == keys[i]
    {
      PositionInQueue(items, Group(keys[i].rank, keys[i].family), keys[i].position);
    }
  }

  lemma TiesOfMembers(items: seq<File>, out: seq<File>, le: (File, File) -> bool)
    requires NoTies(items, le) && forall i :: 0 <= i < |out| ==> out[i] in items
    ensures NoTies(out, le)
  {
  }

  /** Listing all files in strictly increasing key order gives the sorted order. */
  lemma ListingIsFair(items: seq<File>, out: seq<File>, keys: seq<Key>)
    requires NoDuplicates(items) && Lists(items, out, keys) && StrictlySorted(keys)
    requires forall k :: Occupied(items, k) ==> k in keys
    ensures out == Fair(items)
  {
    ListedKeys(items, out, keys);
    forall x | x in items
      ensures x in out
    {
      QueueSound(items, GroupOf(x));
      var k := KeyOf(items, x);
      assert Occupied(items, k);
      var i :| 0 <= i < |keys| && keys[i] == k;
      assert out[i] == x;
    }
    assert NoDuplicates(out);
    FairIsFairOrder(items);
    SameMembers(out, items);
    SameMembers(items, Fair(items));
    NoKeyTies(items);
    TiesOfMembers(items, out, ByKey(items));
    assert SortedBy(out, ByKey(items));
    SortedUnique(out, Fair(items), ByKey(items));
  }

  /** Has the file at position `k` of family number `a` been taken, `i` families into round `r`? */
  predicate Taken(r: nat, i: nat, a: nat, k: nat) {
    k < r || (k == r && a < i)
  }

  /** The keys emitted so far for one priority are exactly those already taken. */
  ghost predicate Progress(items: seq<File>, rank: nat, families: seq<string>, keys: seq<Key>, r: nat, i: nat) {
    && (forall n :: 0 <= n < |keys| ==> TakenKey(rank, families, keys[n], r, i))
    && (forall a: nat, k: nat :: a < |families| && Taken(r, i, a, k) && Occupied(items, Key(rank, k, families[a]))
          ==> Key(rank, k, families[a]) in keys)
  }

  ghost predicate TakenKey(rank: nat, families: seq<string>, key: Key, r: nat, i: nat) {
    key.rank == rank && exists a: nat :: a < |families| && families[a] == key.family && Taken(r, i, a, key.position)
  }

  ghost predicate StrictFamilies(families: seq<string>) {
    forall a, b :: 0 <= a < b < |families| ==> StrLess(families[a], families[b])
  }

  lemma TakeOne(items: seq<File>, rank: nat, families: seq<string>, keys: seq<Key>, r: nat, i: nat)
    requires StrictFamilies(families) && i < |families|
    requires Progress(items, rank, families, keys, r, i) && StrictlySorted(keys)
    ensures Progress(items, rank, families, keys + [Key(rank, r, families[i])], r, i + 1)
    ensures StrictlySorted(keys + [Key(rank, r, families[i])])
  {
  }

  lemma SkipOne(items: seq<File>, rank: nat, families: seq<string>, keys: seq<Key>, r: nat, i: nat)
    requires i < |families| && Progress(items, rank, families, keys, r, i)
    requires !Occupied(items, Key(rank, r, families[i]))
    ensures Progress(items, rank, families, keys, r, i + 1)
  {
  }

  lemma EndRound(items: seq<File>, rank: nat, families: seq<string>, keys: seq<Key>, r: nat)
    requires Progress(items, rank, families, keys, r, |families|)
    ensures Progress(items, rank, families, keys, r + 1, 0)
  {
  }

  function Drop<T>(s: seq<T>, r: nat): seq<T> { if r <= |s| then s[r..] else [] }

  /** A bound on the number of rounds. */
  function Longest(queues: map<string, seq<File>>, families: seq<string>): (m: nat)
    requires forall f :: f in families ==> f in queues
    ensures forall f :: f in families ==> |queues[f]| <= m
  {
    if families == [] then 0
    else
      var m, n := Longest(queues, families[1..]), |queues[families[0]]|;
      if m < n then n else m
  }

  /** In the middle of round `r`: the first `i` families have given up one more file than the rest. */
  ghost predicate MidRound(items: seq<File>, rank: nat, families: seq<string>, queues: map<string, seq<File>>,
                           r: nat, i: nat)
  {
    && queues.Keys == (set f | f in families)
    && (forall a :: 0 <= a < |families| ==>
          queues[families[a]] == Drop(Queue(items, Group(rank, families[a])), if a < i then r + 1 else r))
  }

  lemma ListsSnoc(items: seq<File>, out: seq<File>, keys: seq<Key>, x: File, k: Key)
    requires Lists(items, out, keys)
    requires Occupied(items, k) && x == Queue(items, Group(k.rank, k.family))[k.position]
    ensures Lists(items, out + [x], keys + [k])
  {
  }

  lemma MidRoundTake(items: seq<File>, rank: nat, families: seq<string>, queues: map<string, seq<File>>, r: nat, i: nat)
    requires StrictFamilies(families) && i < |families| && MidRound(items, rank, families, queues, r, i)
    requires queues[families[i]] != []
    ensures MidRound(items, rank, families, queues[families[i] := queues[families[i]][1..]], r, i + 1)
    ensures Occupied(items, Key(rank, r, families[i]))
    ensures queues[families[i]][0] == Queue(items, Group(rank, families[i]))[r]
  {
    var queues' := queues[families[i] := queues[families[i]][1..]];
    assert queues'.Keys == queues.Keys;
    forall a | 0 <= a < |families|
      ensures queues'[families[a]] == Drop(Queue(items, Group(rank, families[a])), if a < i + 1 then r + 1 else r)
    {
      assert a != i ==> families[a] != families[i];
    }
  }

  lemma MidRoundSkip(items: seq<File>, rank: nat, families: seq<string>, queues: map<string, seq<File>>, r: nat, i: nat)
    requires i < |families| && MidRound(items, rank, families, queues, r, i)
    requires queues[families[i]] == []
    ensures MidRound(items, rank, families, queues, r, i + 1)
    ensures !Occupied(items, Key(rank, r, families[i]))
  {
  }

  /** One family's turn: a non-empty queue gives up its head. */
  method TakeTurn(ghost items: seq<File>, rank: nat, families: seq<string>, i: nat, queues: map<string, seq<File>>,
                  out: seq<File>, ghost keys: seq<Key>, ghost r: nat)
    returns (queues': map<string, seq<File>>, out': seq<File>, ghost keys': seq<Key>)
    requires StrictFamilies(families) && i < |families| && MidRound(items, rank, families, queues, r, i)
    requires Lists(items, out, keys) && StrictlySorted(keys) && Progress(items, rank, families, keys, r, i)
    ensures MidRound(items, rank, families, queues', r, i + 1)
    ensures Lists(items, out', keys') && StrictlySorted(keys') && Progress(items, rank, families, keys', r, i + 1)
  {
    var family := families[i];
    if queues[family] != [] {
      MidRoundTake(items, rank, families, queues, r, i);
      TakeOne(items, rank, families, keys, r, i);
      ListsSnoc(items, out, keys, queues[family][0], Key(rank, r, family));
      out' := out + [queues[family][0]];
      queues' := queues[family := queues[family][1..]];
      keys' := keys + [Key(rank, r, family)];
    } else {
      MidRoundSkip(items, rank, families, queues, r, i);
      SkipOne(items, rank, families, keys, r, i);
      queues', out', keys' := queues, out, keys;
    }
  }

  /** One pass over the families. */
  method OneRound(ghost items: seq<File>, rank: nat, families: seq<string>, queues: map<string, seq<File>>,
                  out: seq<File>, ghost keys: seq<Key>, ghost r: nat)
    returns (queues': map<string, seq<File>>, out': seq<File>, ghost keys': seq<Key>)
    requires StrictFamilies(families) && MidRound(items, rank, families, queues, r, 0)
    requires Lists(items, out, keys) && StrictlySorted(keys) && Progress(items, rank, families, keys, r, 0)
    ensures MidRound(items, rank, families, queues', r + 1, 0)
    ensures Lists(items, out', keys') && StrictlySorted(keys') && Progress(items, rank, families, keys', r + 1, 0)
  {
    queues', out', keys' := queues, out, keys;
    for i := 0 to |families|
      invariant MidRound(items, rank, families, queues', r, i)
      invariant Lists(items, out', keys') && StrictlySorted(keys')
      invariant Progress(items, rank, families, keys', r, i)
    {
      queues', out', keys' := TakeTurn(items, rank, families, i, queues', out', keys', r);
    }
    EndRound(items, rank, families, keys', r);
  }

  /** Once every queue is empty, every file of the priority has been taken. */
  lemma RoundsComplete(items: seq<File>, rank: nat, families: seq<string>, left: map<string, seq<File>>,
                       keys: seq<Key>, r: nat)
    requires MidRound(items, rank, families, left, r, 0) && Progress(items, rank, families, keys, r, 0)
    requires forall a :: 0 <= a < |families| ==> left[families[a]] == []
    ensures forall i :: 0 <= i < |keys| ==> keys[i].rank == rank
    ensures forall k: Key :: k.rank == rank && k.family in families && Occupied(items, k) ==> k in keys
  {
  }

  predicate AnyLeft(left: map<string, seq<File>>, families: seq<string>)
    requires forall a :: 0 <= a < |families| ==> families[a] in left
  {
    exists a :: 0 <= a < |families| && left[families[a]] != []
  }

  /** While a queue is not empty, the round number is below the longest queue. */
  lemma RoundsBounded(items: seq<File>, rank: nat, families: seq<string>, queues: map<string, seq<File>>,
                      left: map<string, seq<File>>, r: nat)
    requires MidRound(items, rank, families, queues, 0, 0) && MidRound(items, rank, families, left, r, 0)
    requires AnyLeft(left, families)
    ensures r < Longest(queues, families)
  {
  }

  /** The `while any(...)` loop of one priority. */
  method RoundRobin(ghost items: seq<File>, rank: nat, families: seq<string>, queues: map<string, seq<File>>)
    returns (out: seq<File>, ghost keys: seq<Key>)
    requires StrictFamilies(families) && MidRound(items, rank, families, queues, 0, 0)
    ensures Lists(items, out, keys) && StrictlySorted(keys)
    ensures forall i :: 0 <= i < |keys| ==> keys[i].rank == rank
    ensures forall k: Key :: k.rank == rank && k.family in families && Occupied(items, k) ==> k in keys
  {
    var left := queues;
    out, keys := [], [];
    ghost var r := 0;
    while AnyLeft(left, families)
      invariant MidRound(items, rank, families, left, r, 0)
      invariant Lists(items, out, keys) && StrictlySorted(keys) && Progress(items, rank, families, keys, r, 0)
      decreases Longest(queues, families) - r
    {
      RoundsBounded(items, rank, families, queues, left, r);
      left, out, keys := OneRound(items, rank, families, left, out, keys, r);
      r := r + 1;
    }
    RoundsComplete(items, rank, families, left, keys, r);
  }

  lemma {:induction false} InsertDistinct<K>(x: K, s: seq<K>, le: (K, K) -> bool)
    requires NoDuplicates(s) && x !in s
    ensures NoDuplicates(Insert(x, s, le))
    ensures forall y :: y in Insert(x, s, le) <==> y in s || y == x
    decreases |s|
  {
    if s != [] && le(s[0], x) {
      InsertDistinct(x, s[1..], le);
      assert s == [s[0]] + s[1..];
      assert s[0] !in s[1..];
    }
  }

  /** `sorted` over the keys of a dictionary. */
  method SortedKeys<K(!new)>(keys: set<K>, le: (K, K) -> bool) returns (s: seq<K>)
    requires TotalPreorder(le)
    ensures SortedBy(s, le) && NoDuplicates(s)
    ensures forall k :: k in s <==> k in keys
  {
    s := [];
    var left := keys;
    while left != {}
      invariant left <= keys && SortedBy(s, le) && NoDuplicates(s)
      invariant forall k :: k in s <==> k in keys && k !in left
      decreases left
    {
      var k :| k in left;
      InsertSound(k, s, le);
      InsertDistinct(k, s, le);
      s := Insert(k, s, le);
      left := left - {k};
    }
  }

  function Deque(queues: map<nat, map<string, seq<File>>>, g: Group): seq<File> {
    if g.rank in queues && g.family in queues[g.rank] then queues[g.rank][g.family] else []
  }

  /** `append` to the deque of the file's group. */
  function Pushed(queues: map<nat, map<string, seq<File>>>, x: File): map<nat, map<string, seq<File>>> {
    var g := GroupOf(x);
    var families := if g.rank in queues then queues[g.rank] else map[];
    queues[g.rank := families[g.family := Deque(queues, g) + [x]]]
  }

  lemma PushedDeque(queues: map<nat, map<string, seq<File>>>, x: File, g: Group)
    ensures Deque(Pushed(queues, x), g) == Deque(queues, g) + if GroupOf(x) == g then [x] else []
  {
  }

  /** Filling the deques. */
  method FillQueues(items: seq<File>) returns (queues: map<nat, map<string, seq<File>>>)
    ensures forall g :: Deque(queues, g) == Queue(items, g)
  {
    queues := map[];
    for i := 0 to |items|
      invariant forall g :: Deque(queues, g) == Queue(items[..i], g)
    {
      ghost var before := queues;
      queues := Pushed(queues, items[i]);
      forall g
        ensures Deque(queues, g) == Queue(items[..i + 1], g)
      {
        PushedDeque(before, items[i], g);
        QueueSnoc(items, i, g);
      }
    }
    assert items[..|items|] == items;
  }

  function NatLe(): (nat, nat) -> bool { (a, b) => a <= b }

  function FamilyLe(): (string, string) -> bool { (a, b) => StrLe(a, b) }

  lemma FamilyPreorder()
    ensures TotalPreorder(FamilyLe())
  {
    forall a, b
      ensures FamilyLe()(a, b) || FamilyLe()(b, a)
    {
      StrLeTotal(a, b);
    }
    forall a, b, c | FamilyLe()(a, b) && FamilyLe()(b, c)
      ensures FamilyLe()(a, c)
    {
      StrLeTransitive(a, b, c);
    }
  }

  lemma ConcatListings(items: seq<File>, out: seq<File>, keys: seq<Key>, more: seq<File>, moreKeys: seq<Key>, p: nat)
    requires Lists(items, out, keys) && StrictlySorted(keys)
    requires Lists(items, more, moreKeys) && StrictlySorted(moreKeys)
    requires forall i :: 0 <= i < |keys| ==> keys[i].rank < p
    requires forall i :: 0 <= i < |moreKeys| ==> moreKeys[i].rank == p
    ensures Lists(items, out + more, keys + moreKeys) && StrictlySorted(keys + moreKeys)
  {
  }

  /** The listing so far holds exactly the files of the first `i` priorities. */
  ghost predicate ListsRanks(items: seq<File>, out: seq<File>, keys: seq<Key>, ranks: seq<nat>) {
    && Lists(items, out, keys) && StrictlySorted(keys)
    && (forall n :: 0 <= n < |keys| ==> keys[n].rank in ranks)
    && (forall k :: Occupied(items, k) && k.rank in ranks ==> k in keys)
  }

  /** All files of one priority, after those of all smaller ones. */
  method OnePriority(ghost items: seq<File>, p: nat, queues: map<nat, map<string, seq<File>>>,
                     out: seq<File>, ghost keys: seq<Key>, ghost ranks: seq<nat>)
    returns (out': seq<File>, ghost keys': seq<Key>)
    requires p in queues && forall g :: Deque(queues, g) == Queue(items, g)
    requires ListsRanks(items, out, keys, ranks) && forall q :: q in ranks ==> q < p
    ensures ListsRanks(items, out', keys', ranks + [p])
  {
    FamilyPreorder();
    var families := SortedKeys(queues[p].Keys, FamilyLe());
    assert StrictFamilies(families);
    forall a | 0 <= a < |families|
      ensures queues[p][families[a]] == Drop(Queue(items, Group(p, families[a])), 0)
    {
      assert Deque(queues, Group(p, families[a])) == queues[p][families[a]];
    }
    var more, moreKeys := RoundRobin(items, p, families, queues[p]);
    ConcatListings(items, out, keys, more, moreKeys, p);
    out', keys' := out + more, keys + moreKeys;
    forall k | Occupied(items, k) && k.rank in ranks + [p]
      ensures k in keys'
    {
      if k.rank == p {
        assert Deque(queues, Group(p, k.family)) != [];
        assert k.family in families;
      }
    }
  }

  /** The loop over the sorted priorities. */
  method AllPriorities(ghost items: seq<File>, queues: map<nat, map<string, seq<File>>>)
    returns (out: seq<File>, ghost keys: seq<Key>)
    requires forall g :: Deque(queues, g) == Queue(items, g)
    ensures Lists(items, out, keys) && StrictlySorted(keys) && forall k :: Occupied(items, k) ==> k in keys
  {
    var priorities := SortedKeys(queues.Keys, NatLe());
    out, keys := [], [];
    for i := 0 to |priorities|
      invariant ListsRanks(items, out, keys, priorities[..i])
    {
      assert priorities[..i + 1] == priorities[..i] + [priorities[i]];
      assert forall j :: 0 <= j < i ==> NatLe()(priorities[j], priorities[i]) && priorities[j] != priorities[i];
      out, keys := OnePriority(items, priorities[i], queues, out, keys, priorities[..i]);
    }
    assert priorities[..|priorities|] == priorities;
    forall k | Occupied(items, k)
      ensures k in keys
    {
      assert Deque(queues, Group(k.rank, k.family)) != [];
      assert k.rank in priorities;
    }
  }

  /** The round-robin over deques is exactly a sort of the candidates, taken in path order, by
      (priority, position within the family, family). */
  method FairRegistryOrder(candidates: seq<File>) returns (result: seq<File>)
    requires NoDuplicates(candidates)
    ensures result == Fair(StableSort(candidates, ByPath()))
    ensures FairListing(candidates, result)
  {
    var items := StableSort(candidates, ByPath());
    ByPathPreorder();
    SortSound(candidates, ByPath());
    DistinctByCount(candidates, items);
    var queues := FillQueues(items);
    ghost var keys;
    result, keys := AllPriorities(items, queues);
    ListingIsFair(items, result, keys);
    FairIsListing(candidates, items);
  }

  /** The cap of `tracked_registry_files`: the first `max(0, maxFiles)` of the fair order. */
  method TrackedRegistryFiles(candidates: seq<File>, maxFiles: int) returns (files: seq<File>)
    requires NoDuplicates(candidates)
    ensures exists all :: FairListing(candidates, all) && files <= all
    ensures files <= Fair(StableSort(candidates, ByPath()))
    ensures |files| == if maxFiles < 0 then 0 else if maxFiles < |candidates| then maxFiles else |candidates|
  {
    var ordered := FairRegistryOrder(candidates);
    SameLength(ordered, candidates);
    files := if maxFiles < 0 then [] else if maxFiles < |ordered| then ordered[..maxFiles] else ordered;
  }
}
