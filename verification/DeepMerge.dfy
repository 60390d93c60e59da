/** The recursive configuration merge shared by agent/hub_benchmark.py and agent/ollama_benchmark.py. */
module DeepMerge {

  /** A JSON value: an object, or anything else. */
  datatype Json = Leaf(text: string) | Obj(fields: map<string, Json>)

  /** Two objects meet key by key; otherwise the override replaces what was there. */
  function Merge(base: Json, over: Json): Json
    decreases over
  {
    if base.Leaf? || over.Leaf? then over
    else
      Obj(map k | k in base.fields.Keys + over.fields.Keys ::
            if k !in over.fields then base.fields[k]
            else if k !in base.fields then over.fields[k]
            else Merge(base.fields[k], over.fields[k]))
  }

  /** `_deep_merge_dicts`: the loop over a copy of the base dictionary. */
  method DeepMergeDicts(base: Json, over: Json) returns (merged: Json)
    requires base.Obj? && over.Obj?
    ensures merged == Merge(base, over)
    decreases over
  {
    var fields := base.fields;
    var left := over.fields.Keys;
    while left != {}
      invariant left <= over.fields.Keys
      invariant fields.Keys == base.fields.Keys + (over.fields.Keys - left)
      invariant forall k :: k in fields ==>
                  fields[k] == if k in over.fields && k !in left then Merge(base, over).fields[k] else base.fields[k]
      decreases left
    {
      var key :| key in left;
      var value := over.fields[key];
      if value.Obj? && key in fields && fields[key].Obj? {
        value := DeepMergeDicts(fields[key], value);
      }
      fields := fields[key := value];
      left := left - {key};
    }
    merged := Obj(fields);
    assert fields == Merge(base, over).fields;
  }

  // ---- self-merge and repetition -----------------------------------------------------------

  lemma {:induction false} SelfMerge(a: Json)
    ensures Merge(a, a) == a
  {
    if a.Obj? {
      forall k | k in a.fields
        ensures Merge(a.fields[k], a.fields[k]) == a.fields[k]
      {
        SelfMerge(a.fields[k]);
      }
      assert Merge(a, a).fields == a.fields;
    }
  }

  /** Applying the same overrides twice is applying them once. */
  lemma {:induction false} MergeTwice(a: Json, b: Json)
    ensures Merge(Merge(a, b), b) == Merge(a, b)
    decreases b
  {
    SelfMerge(b);
    if a.Obj? && b.Obj? {
      var m := Merge(a, b);
      forall k | k in m.fields
        ensures k in b.fields ==> Merge(m.fields[k], b.fields[k]) == m.fields[k]
      {
        if k in b.fields {
          SelfMerge(b.fields[k]);
          if k in a.fields {
            MergeTwice(a.fields[k], b.fields[k]);
          }
        }
      }
      assert Merge(m, b).fields == m.fields;
    }
  }

  // ---- paths -------------------------------------------------------------------------------

  datatype Found = Nothing | Value(json: Json)

  function Lookup(j: Json, path: seq<string>): Found {
    if path == [] then Value(j)
    else if j.Obj? && path[0] in j.fields then Lookup(j.fields[path[0]], path[1..])
    else Nothing
  }

  /** The overrides decide the path: they have a value there, or a leaf somewhere on the way. */
  predicate Decides(over: Json, path: seq<string>) {
    over.Leaf? || path == [] || (path[0] in over.fields && Decides(over.fields[path[0]], path[1..]))
  }

  /** A leaf of the result is a leaf of the overrides, which always win, or a leaf of the base on a
      path that the overrides do not decide, and all of those survive. */
  lemma {:induction false} LeavesOfMerge(base: Json, over: Json, path: seq<string>, text: string)
    ensures Lookup(Merge(base, over), path) == Value(Leaf(text)) <==>
            || Lookup(over, path) == Value(Leaf(text))
            || (Lookup(base, path) == Value(Leaf(text)) && !Decides(over, path))
    decreases over
  {
    if base.Obj? && over.Obj? && path != [] {
      var k := path[0];
      if k in base.fields && k in over.fields {
        LeavesOfMerge(base.fields[k], over.fields[k], path[1..], text);
      }
    }
  }

  // ---- associativity -----------------------------------------------------------------------

  /** Merging `c` over `a` leaves no trace of `a`: where both are objects, `c` has every key of `a`, and
      so on below it until either is a leaf. */
  predicate Absorbed(a: Json, c: Json)
    decreases c
  {
    a.Leaf? || c.Leaf? ||
    forall k :: k in a.fields ==> k in c.fields && Absorbed(a.fields[k], c.fields[k])
  }

  lemma {:induction false} AbsorbedIff(a: Json, c: Json)
    ensures Merge(a, c) == c <==> Absorbed(a, c)
    decreases c
  {
    if a.Obj? && c.Obj? {
      var m := Merge(a, c);
      forall k | k in a.fields && k in c.fields
        ensures m.fields[k] == c.fields[k] <==> Absorbed(a.fields[k], c.fields[k])
      {
        AbsorbedIff(a.fields[k], c.fields[k]);
      }
      if m == c {
        forall k | k in a.fields
          ensures k in c.fields && Absorbed(a.fields[k], c.fields[k])
        {
          assert k in m.fields;
        }
      }
      if Absorbed(a, c) {
        assert m.fields == c.fields;
      }
    }
  }

  /** Wherever all three have a value, a leaf in the middle hides an object of `a` only from an
      object of `c` that absorbs it anyway. */
  predicate Composable(a: Json, b: Json, c: Json)
    decreases c
  {
    if a.Leaf? || c.Leaf? then true
    else if b.Leaf? then Absorbed(a, c)
    else forall k :: k in a.fields && k in b.fields && k in c.fields ==>
           Composable(a.fields[k], b.fields[k], c.fields[k])
  }

  /** Merging is associative exactly on composable triples. */
  lemma {:induction false} AssociativeIff(a: Json, b: Json, c: Json)
    ensures Merge(Merge(a, b), c) == Merge(a, Merge(b, c)) <==> Composable(a, b, c)
    decreases c
  {
    if a.Obj? && c.Obj? && b.Leaf? {
      AbsorbedIff(a, c);
    } else if a.Obj? && b.Obj? && c.Obj? {
      var l, r := Merge(Merge(a, b), c), Merge(a, Merge(b, c));
      assert l.fields.Keys == r.fields.Keys;
      forall k | k in l.fields
        ensures l.fields[k] == r.fields[k] <==>
                (k in a.fields && k in b.fields && k in c.fields ==>
                   Composable(a.fields[k], b.fields[k], c.fields[k]))
      {
        if k in a.fields && k in b.fields && k in c.fields {
          AssociativeIff(a.fields[k], b.fields[k], c.fields[k]);
        }
      }
      if l == r {
        forall k | k in a.fields && k in b.fields && k in c.fields
          ensures Composable(a.fields[k], b.fields[k], c.fields[k])
        {
          assert k in l.fields;
        }
      }
      if Composable(a, b, c) {
        assert l.fields == r.fields;
      }
    }
  }

  /** An object, then a leaf, then another object: the order of merging decides whether the first
      object's keys come back. */
  lemma NotAssociative()
    ensures var a, b, c := Obj(map["k" := Obj(map["x" := Leaf("1")])]), Obj(map["k" := Leaf("2")]),
                           Obj(map["k" := Obj(map["y" := Leaf("3")])]);
            Merge(Merge(a, b), c) != Merge(a, Merge(b, c))
  {
    var a, b, c := Obj(map["k" := Obj(map["x" := Leaf("1")])]), Obj(map["k" := Leaf("2")]),
                   Obj(map["k" := Obj(map["y" := Leaf("3")])]);
    AssociativeIff(a, b, c);
    assert "x" in a.fields["k"].fields && "x" !in c.fields["k"].fields;
    assert !Absorbed(a.fields["k"], c.fields["k"]);
    assert "k" in a.fields && "k" in b.fields && "k" in c.fields;
  }

  // ---- the filtered merge ------------------------------------------------------------------

  /** `merge_ollama_bench_config`: unknown top-level keys are dropped first. */
  function Known(current: Json, updates: Json): Json
    requires current.Obj? && updates.Obj?
  {
    Obj(map k | k in updates.fields && k in current.fields :: updates.fields[k])
  }

  method MergeConfig(current: Json, updates: Json) returns (merged: Json)
    requires current.Obj? && updates.Obj?
    ensures merged.Obj? && merged.fields.Keys == current.fields.Keys
    ensures forall k :: k in current.fields ==>
              merged.fields[k] == if k in updates.fields then Merge(current.fields[k], updates.fields[k])
                                  else current.fields[k]
  {
    merged := DeepMergeDicts(current, Known(current, updates));
  }
}
