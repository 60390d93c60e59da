/** Python's stable `sorted`, over any total preorder. */
module Sorting {

  ghost predicate TotalPreorder<T(!new)>(le: (T, T) -> bool) {
    && (forall x, y :: le(x, y) || le(y, x))
    && (forall x, y, z :: le(x, y) && le(y, z) ==> le(x, z))
  }

  ghost predicate SortedBy<T>(s: seq<T>, le: (T, T) -> bool) {
    forall i, j :: 0 <= i < j < |s| ==> le(s[i], s[j])
  }

  /** Puts `x` after everything it does not have to precede. */
  function Insert<T>(x: T, s: seq<T>, le: (T, T) -> bool): seq<T> {
    if s != [] && le(s[0], x) then [s[0]] + Insert(x, s[1..], le) else [x] + s
  }

  function StableSort<T>(s: seq<T>, le: (T, T) -> bool): seq<T> {
    if s == [] then [] else Insert(s[|s| - 1], StableSort(s[..|s| - 1], le), le)
  }

  ghost predicate BeforeAll<T>(y: T, s: seq<T>, le: (T, T) -> bool) {
    forall i :: 0 <= i < |s| ==> le(y, s[i])
  }

  lemma {:induction false} InsertBeforeAll<T>(y: T, x: T, s: seq<T>, le: (T, T) -> bool)
    requires BeforeAll(y, s, le) && le(y, x)
    ensures BeforeAll(y, Insert(x, s, le), le)
    decreases |s|
  {
    if s != [] && le(s[0], x) {
      InsertBeforeAll(y, x, s[1..], le);
    }
  }

  lemma {:induction false} InsertMultiset<T>(x: T, s: seq<T>, le: (T, T) -> bool)
    ensures multiset(Insert(x, s, le)) == multiset(s) + multiset{x}
    decreases |s|
  {
    if s != [] && le(s[0], x) {
      InsertMultiset(x, s[1..], le);
      assert s == [s[0]] + s[1..];
    }
  }

  lemma {:induction false} InsertSorted<T(!new)>(x: T, s: seq<T>, le: (T, T) -> bool)
    requires TotalPreorder(le) && SortedBy(s, le)
    ensures SortedBy(Insert(x, s, le), le)
    decreases |s|
  {
    if s != [] && le(s[0], x) {
      InsertSorted(x, s[1..], le);
      InsertBeforeAll(s[0], x, s[1..], le);
    } else if s != [] {
      assert le(x, s[0]);
      assert BeforeAll(x, s, le);
    }
  }

  lemma InsertSound<T(!new)>(x: T, s: seq<T>, le: (T, T) -> bool)
    requires TotalPreorder(le) && SortedBy(s, le)
    ensures multiset(Insert(x, s, le)) == multiset(s) + multiset{x}
    ensures SortedBy(Insert(x, s, le), le)
  {
    InsertMultiset(x, s, le);
    InsertSorted(x, s, le);
  }

  /** Sorting permutes its input into order. */
  lemma {:induction false} SortSound<T(!new)>(s: seq<T>, le: (T, T) -> bool)
    requires TotalPreorder(le)
    ensures multiset(StableSort(s, le)) == multiset(s)
    ensures |StableSort(s, le)| == |s|
    ensures SortedBy(StableSort(s, le), le)
  {
    if s != [] {
      var n := |s| - 1;
      SortSound(s[..n], le);
      InsertSound(s[n], StableSort(s[..n], le), le);
      assert s == s[..n] + [s[n]];
      assert |multiset(StableSort(s, le))| == |multiset(s)|;
    }
  }

  lemma {:induction false} InsertLast<T>(x: T, s: seq<T>, le: (T, T) -> bool)
    requires forall i :: 0 <= i < |s| ==> le(s[i], x)
    ensures Insert(x, s, le) == s + [x]
    decreases |s|
  {
    if s != [] {
      InsertLast(x, s[1..], le);
    }
  }

  /** Being stable, sorting leaves a sorted list alone. */
  lemma {:induction false} SortOfSorted<T>(s: seq<T>, le: (T, T) -> bool)
    requires SortedBy(s, le)
    ensures StableSort(s, le) == s
  {
    if s != [] {
      var n := |s| - 1;
      SortOfSorted(s[..n], le);
      InsertLast(s[n], s[..n], le);
    }
  }

  /** The order never ties two different elements of `s`. */
  ghost predicate NoTies<T>(s: seq<T>, le: (T, T) -> bool) {
    forall i, j :: 0 <= i < |s| && 0 <= j < |s| && le(s[i], s[j]) && le(s[j], s[i]) ==> s[i] == s[j]
  }

  lemma SameHead<T>(a: seq<T>, b: seq<T>, le: (T, T) -> bool)
    requires a != [] && b != [] && multiset(a) == multiset(b)
    requires SortedBy(a, le) && SortedBy(b, le) && NoTies(a, le)
    ensures a[0] == b[0]
  {
    assert a[0] in multiset(b) && b[0] in multiset(a);
    var i :| 0 <= i < |b| && b[i] == a[0];
    var j :| 0 <= j < |a| && a[j] == b[0];
    if i != 0 && j != 0 {
      assert le(b[0], b[i]) && le(a[0], a[j]);
      assert le(a[0], a[j]) && le(a[j], a[0]);
    }
  }

  lemma SameTail<T>(a: seq<T>, b: seq<T>)
    requires a != [] && b != [] && multiset(a) == multiset(b) && a[0] == b[0]
    ensures multiset(a[1..]) == multiset(b[1..])
  {
    assert a == [a[0]] + a[1..] && b == [b[0]] + b[1..];
    assert multiset(a[1..]) == multiset(a) - multiset{a[0]};
    assert multiset(b[1..]) == multiset(b) - multiset{b[0]};
  }

  lemma SameLength<T>(a: seq<T>, b: seq<T>)
    requires multiset(a) == multiset(b)
    ensures |a| == |b|
  {
    assert |a| == |multiset(a)| == |multiset(b)| == |b|;
  }

  /** An order that never ties sorts a list in only one way: both agree at every position. */
  lemma {:induction false} SortedUnique<T>(a: seq<T>, b: seq<T>, le: (T, T) -> bool)
    requires multiset(a) == multiset(b)
    requires SortedBy(a, le) && SortedBy(b, le) && NoTies(a, le)
    ensures a == b
    decreases |a|
  {
    SameLength(a, b);
    if a != [] {
      SameHead(a, b, le);
      SameTail(a, b);
      SortedUnique(a[1..], b[1..], le);
      assert a == [a[0]] + a[1..];
      assert b == [b[0]] + b[1..];
    }
  }
}
