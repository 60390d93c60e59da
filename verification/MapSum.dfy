/** Sums over the values of a dictionary, in whatever order. */
module MapSum {

  function At<K>(m: map<K, real>, k: K): real { if k in m then m[k] else 0.0 }

  function SumAlong<K>(m: map<K, real>, order: seq<K>): real {
    if order == [] then 0.0 else SumAlong(m, order[..|order| - 1]) + At(m, order[|order| - 1])
  }

  ghost predicate Distinct<K>(s: seq<K>) {
    forall i, j :: 0 <= i < j < |s| ==> s[i] != s[j]
  }

  /** `order` lists every key of the dictionary once. */
  ghost predicate Enumerates<K>(order: seq<K>, m: map<K, real>) {
    && Distinct(order)
    && (forall i :: 0 <= i < |order| ==> order[i] in m)
    && (forall k :: k in m ==> k in order)
  }

  /** The values of the dictionary add up to `t`. */
  ghost predicate SumsTo<K(!new)>(m: map<K, real>, t: real) {
    exists order :: Enumerates(order, m) && SumAlong(m, order) == t
  }

  lemma {:induction false} SumElsewhere<K>(m: map<K, real>, order: seq<K>, k: K, v: real)
    requires forall i :: 0 <= i < |order| ==> order[i] != k
    ensures SumAlong(m[k := v], order) == SumAlong(m, order)
  {
    if order != [] {
      SumElsewhere(m, order[..|order| - 1], k, v);
    }
  }

  lemma {:induction false} SumAddAt<K>(m: map<K, real>, order: seq<K>, i: nat, d: real)
    requires i < |order| && Distinct(order)
    ensures SumAlong(m[order[i] := At(m, order[i]) + d], order) == SumAlong(m, order) + d
  {
    var n := |order| - 1;
    if i == n {
      SumElsewhere(m, order[..n], order[n], At(m, order[n]) + d);
    } else {
      SumAddAt(m, order[..n], i, d);
    }
  }

  lemma SumSnoc<K>(m: map<K, real>, order: seq<K>, k: K)
    ensures SumAlong(m, order + [k]) == SumAlong(m, order) + At(m, k)
  {
  }

  lemma EnumeratesGrown<K>(order: seq<K>, m: map<K, real>, k: K, v: real)
    requires Enumerates(order, m)
    ensures k in m ==> Enumerates(order, m[k := v])
    ensures k !in m ==> k !in order && Enumerates(order + [k], m[k := v])
  {
  }

  /** Adding to one entry, present or not, adds to the sum. */
  lemma SumAdd<K(!new)>(m: map<K, real>, k: K, d: real, t: real)
    requires SumsTo(m, t)
    ensures SumsTo(m[k := At(m, k) + d], t + d)
  {
    var order :| Enumerates(order, m) && SumAlong(m, order) == t;
    var m' := m[k := At(m, k) + d];
    EnumeratesGrown(order, m, k, At(m, k) + d);
    if k in m {
      var i :| 0 <= i < |order| && order[i] == k;
      SumAddAt(m, order, i, d);
      assert Enumerates(order, m') && SumAlong(m', order) == t + d;
    } else {
      SumElsewhere(m, order, k, d);
      SumSnoc(m', order, k);
      assert Enumerates(order + [k], m') && SumAlong(m', order + [k]) == t + d;
    }
  }

  lemma SumEmpty<K(!new)>(m: map<K, real>)
    requires m == map[]
    ensures SumsTo(m, 0.0)
  {
    assert Enumerates([], m) && SumAlong(m, []) == 0.0;
  }

  /** A sum can leave out any of its entries and add it at the end. */
  lemma {:induction false} SumTakeOut<K>(m: map<K, real>, before: seq<K>, k: K, after: seq<K>)
    ensures SumAlong(m, before + [k] + after) == SumAlong(m, before + after) + At(m, k)
  {
    if after == [] {
      assert before + [k] + after == before + [k] && before + after == before;
      SumSnoc(m, before, k);
    } else {
      var n := |after| - 1;
      var init, last := after[..n], after[n];
      SumTakeOut(m, before, k, init);
      assert before + [k] + after == before + [k] + init + [last];
      assert before + after == before + init + [last];
      SumSnoc(m, before + [k] + init, last);
      SumSnoc(m, before + init, last);
    }
  }

  lemma WithoutOne<K>(b: seq<K>, i: nat)
    requires Distinct(b) && i < |b|
    ensures var rest := b[..i] + b[i + 1..];
            && Distinct(rest) && b == b[..i] + [b[i]] + b[i + 1..]
            && forall k :: k in rest <==> k in b && k != b[i]
  {
  }

  lemma {:induction false} SumPermuted<K>(m: map<K, real>, a: seq<K>, b: seq<K>)
    requires Distinct(a) && Distinct(b) && forall k :: k in a <==> k in b
    ensures SumAlong(m, a) == SumAlong(m, b)
    decreases |a|
  {
    assert b != [] ==> b[0] in b;
    if a == [] {
      assert b == [];
    } else {
      var n := |a| - 1;
      assert a[n] in b;
      var i :| 0 <= i < |b| && b[i] == a[n];
      WithoutOne(a, n);
      WithoutOne(b, i);
      assert a[..n] + a[n + 1..] == a[..n];
      SumPermuted(m, a[..n], b[..i] + b[i + 1..]);
      SumTakeOut(m, b[..i], b[i], b[i + 1..]);
    }
  }

  /** A dictionary adds up to only one value. */
  lemma SumUnique<K(!new)>(m: map<K, real>, t: real, t': real)
    requires SumsTo(m, t) && SumsTo(m, t')
    ensures t == t'
  {
    var a :| Enumerates(a, m) && SumAlong(m, a) == t;
    var b :| Enumerates(b, m) && SumAlong(m, b) == t';
    SumPermuted(m, a, b);
  }
}
