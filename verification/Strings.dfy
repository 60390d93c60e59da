/** Python string operations used by several components. */
module Strings {

  /** Code-point order. */
  predicate StrLe(a: string, b: string) {
    if a == "" then true
    else if b == "" then false
    else if a[0] != b[0] then a[0] < b[0]
    else StrLe(a[1..], b[1..])
  }

  predicate StrLess(a: string, b: string) { StrLe(a, b) && a != b }

  /** The first difference of `a` and `b` is at `i`, and `a` has the smaller character there. */
  predicate SmallerAt(a: string, b: string, i: nat) {
    i < |a| && i < |b| && a[..i] == b[..i] && a[i] < b[i]
  }

  lemma SmallerAtTail(a: string, b: string, i: nat)
    requires a != "" && b != "" && a[0] == b[0]
    ensures SmallerAt(a[1..], b[1..], i) <==> SmallerAt(a, b, i + 1)
  {
    if i < |a| - 1 && i < |b| - 1 {
      assert a[..i + 1] == [a[0]] + a[1..][..i] && b[..i + 1] == [b[0]] + b[1..][..i];
    }
  }

  /** `a` comes first iff it is a prefix of `b` or has the smaller character at the first difference. */
  lemma {:induction false} StrLeIff(a: string, b: string)
    ensures StrLe(a, b) <==> a <= b || exists i: nat :: SmallerAt(a, b, i)
  {
    if a != "" && b != "" {
      StrLeIff(a[1..], b[1..]);
      if a[0] == b[0] {
        assert a == [a[0]] + a[1..] && b == [b[0]] + b[1..];
        if i: nat :| SmallerAt(a[1..], b[1..], i) {
          SmallerAtTail(a, b, i);
        }
        if i: nat :| SmallerAt(a, b, i) {
          SmallerAtTail(a, b, i - 1);
        }
      } else {
        assert SmallerAt(a, b, 0) <==> a[0] < b[0];
        assert forall i: nat :: i > 0 && i <= |a| && i <= |b| ==> a[..i][0] != b[..i][0];
      }
    }
  }

  lemma {:induction false} StrLeReflexive(a: string)
    ensures StrLe(a, a)
  {
    if a != "" {
      StrLeReflexive(a[1..]);
    }
  }

  lemma {:induction false} StrLeTotal(a: string, b: string)
    ensures StrLe(a, b) || StrLe(b, a)
  {
    if a != "" && b != "" && a[0] == b[0] {
      StrLeTotal(a[1..], b[1..]);
    }
  }

  lemma {:induction false} StrLeAntisymmetric(a: string, b: string)
    requires StrLe(a, b) && StrLe(b, a)
    ensures a == b
  {
    if a != "" && b != "" {
      StrLeAntisymmetric(a[1..], b[1..]);
      assert a == [a[0]] + a[1..] && b == [b[0]] + b[1..];
    }
  }

  lemma {:induction false} StrLeTransitive(a: string, b: string, c: string)
    requires StrLe(a, b) && StrLe(b, c)
    ensures StrLe(a, c)
  {
    if a != "" && b != "" && c != "" && a[0] == b[0] == c[0] {
      StrLeTransitive(a[1..], b[1..], c[1..]);
    }
  }

  /** The characters `str.strip` removes. */
  predicate IsSpace(c: char) {
    var n := c as int;
    9 <= n <= 13 || 28 <= n <= 32 || n == 0x85 || n == 0xA0 || n == 0x1680 || 0x2000 <= n <= 0x200A
    || n == 0x2028 || n == 0x2029 || n == 0x202F || n == 0x205F || n == 0x3000
  }

  /** Below 128 these are tab to carriage return, the four separators and the space. */
  lemma AsciiSpaces(c: char)
    requires c as int < 128
    ensures IsSpace(c) <==> c as int in {9, 10, 11, 12, 13, 28, 29, 30, 31, 32}
  {
  }

  function LStrip(s: string): string {
    if s != "" && IsSpace(s[0]) then LStrip(s[1..]) else s
  }

  function RStrip(s: string): string {
    if s != "" && IsSpace(s[|s| - 1]) then RStrip(s[..|s| - 1]) else s
  }

  function Strip(s: string): string { RStrip(LStrip(s)) }

  /** No white space at either end. */
  predicate Stripped(s: string) {
    s == "" || (!IsSpace(s[0]) && !IsSpace(s[|s| - 1]))
  }

  lemma {:induction false} LStripSound(s: string)
    ensures LStrip(s) == "" || !IsSpace(LStrip(s)[0])
    ensures forall c :: c !in s ==> c !in LStrip(s)
  {
    if s != "" && IsSpace(s[0]) {
      LStripSound(s[1..]);
    }
  }

  lemma {:induction false} RStripSound(s: string)
    ensures RStrip(s) == "" || !IsSpace(RStrip(s)[|RStrip(s)| - 1])
    ensures RStrip(s) <= s
  {
    if s != "" && IsSpace(s[|s| - 1]) {
      RStripSound(s[..|s| - 1]);
    }
  }

  /** Stripping leaves no white space at either end, and adds no character. */
  lemma StripSound(s: string)
    ensures Stripped(Strip(s))
    ensures forall c :: c !in s ==> c !in Strip(s)
  {
    LStripSound(s);
    RStripSound(LStrip(s));
    var r := Strip(s);
    assert forall c :: c in r ==> c in LStrip(s);
  }

  lemma StripOfStripped(s: string)
    requires Stripped(s)
    ensures Strip(s) == s
  {
  }

  /** One more character before the first part. */
  function Prepend(c: char, sep: char, parts: seq<string>): (r: seq<string>)
    requires |parts| >= 1
    ensures |r| >= 1
  {
    if c == sep then [""] + parts else [[c] + parts[0]] + parts[1..]
  }

  predicate AllSpace(s: string) {
    forall i :: 0 <= i < |s| ==> IsSpace(s[i])
  }

  lemma {:induction false} LStripCuts(s: string) returns (n: nat)
    ensures n <= |s| && AllSpace(s[..n]) && s[n..] == LStrip(s)
  {
    if s != "" && IsSpace(s[0]) {
      var m := LStripCuts(s[1..]);
      n := m + 1;
      assert s[..n] == [s[0]] + s[1..][..m];
    } else {
      n := 0;
    }
  }

  lemma {:induction false} RStripCuts(s: string) returns (n: nat)
    ensures n <= |s| && AllSpace(s[n..]) && s[..n] == RStrip(s)
  {
    if s != "" && IsSpace(s[|s| - 1]) {
      n := RStripCuts(s[..|s| - 1]);
      assert s[n..] == s[..|s| - 1][n..] + [s[|s| - 1]];
    } else {
      n := |s|;
    }
  }

  /** Stripping cuts white space off both ends, and nothing else. */
  lemma StripCuts(s: string) returns (i: nat, j: nat)
    ensures i <= j <= |s| && s[i..j] == Strip(s)
    ensures AllSpace(s[..i]) && AllSpace(s[j..])
  {
    i := LStripCuts(s);
    var n := RStripCuts(s[i..]);
    j := i + n;
    assert s[i..][..n] == s[i..j] && s[i..][n..] == s[j..];
  }

  lemma StripEmptyIff(s: string)
    ensures Strip(s) == "" <==> AllSpace(s)
  {
    var i, j := StripCuts(s);
    StripSound(s);
    assert s == s[..i] + s[i..j] + s[j..];
    if Strip(s) != "" {
      assert s[i] == Strip(s)[0];
    } else {
      assert s == s[..i] + s[j..];
    }
  }

  /** `s.split(sep)` for a one-character separator. */
  function Split(s: string, sep: char): (parts: seq<string>)
    ensures |parts| >= 1
  {
    if s == "" then [""] else Prepend(s[0], sep, Split(s[1..], sep))
  }

  lemma PrependConcat(c: char, sep: char, a: seq<string>, b: seq<string>)
    requires |a| >= 1
    ensures Prepend(c, sep, a + b) == Prepend(c, sep, a) + b
  {
    if c != sep {
      assert (a + b)[0] == a[0] && (a + b)[1..] == a[1..] + b;
    }
  }

  lemma {:induction false} SplitPartsClean(s: string, sep: char, i: nat)
    requires i < |Split(s, sep)|
    ensures sep !in Split(s, sep)[i]
  {
    if s != "" {
      var rest := Split(s[1..], sep);
      if s[0] == sep {
        if i > 0 { SplitPartsClean(s[1..], sep, i - 1); }
      } else {
        SplitPartsClean(s[1..], sep, i);
      }
    }
  }

  lemma {:induction false} SplitOne(s: string, sep: char)
    requires sep !in s
    ensures Split(s, sep) == [s]
  {
    if s != "" {
      SplitOne(s[1..], sep);
      assert s == [s[0]] + s[1..];
    }
  }

  /** Splitting commutes with joining two texts by the separator. */
  lemma {:induction false} SplitConcat(a: string, b: string, sep: char)
    ensures Split(a + [sep] + b, sep) == Split(a, sep) + Split(b, sep)
  {
    var s := a + [sep] + b;
    if a == "" {
      assert s[1..] == b;
    } else {
      assert s[0] == a[0] && s[1..] == a[1..] + [sep] + b;
      SplitConcat(a[1..], b, sep);
      PrependConcat(a[0], sep, Split(a[1..], sep), Split(b, sep));
    }
  }

  lemma SplitFirst(a: string, b: string, sep: char)
    requires sep !in a
    ensures Split(a + [sep] + b, sep) == [a] + Split(b, sep)
  {
    SplitConcat(a, b, sep);
    SplitOne(a, sep);
  }

  /** Text without a separator before `s` belongs to the first part. */
  lemma {:induction false} SplitPrefix(p: string, s: string, sep: char)
    requires sep !in p
    ensures Split(p + s, sep) == [p + Split(s, sep)[0]] + Split(s, sep)[1..]
  {
    if p == "" {
      assert p + s == s && p + Split(s, sep)[0] == Split(s, sep)[0];
    } else {
      SplitPrefix(p[1..], s, sep);
      assert (p + s)[0] == p[0] && (p + s)[1..] == p[1..] + s;
      assert p + Split(s, sep)[0] == [p[0]] + (p[1..] + Split(s, sep)[0]);
    }
  }

  /** The last part with one more character after it. */
  function Padded(parts: seq<string>, c: char): seq<string>
    requires |parts| >= 1
  {
    parts[..|parts| - 1] + [parts[|parts| - 1] + [c]]
  }

  lemma PrependPadded(c: char, sep: char, parts: seq<string>, pad: char)
    requires |parts| >= 1
    ensures Prepend(c, sep, Padded(parts, pad)) == Padded(Prepend(c, sep, parts), pad)
  {
    var n := |parts| - 1;
    if c != sep && n == 0 {
      assert [c] + (parts[0] + [pad]) == [c] + parts[0] + [pad];
    }
  }

  lemma {:induction false} SplitPadded(s: string, pad: char, sep: char)
    requires pad != sep
    ensures Split(s + [pad], sep) == Padded(Split(s, sep), pad)
  {
    if s == "" {
      assert s + [pad] == [pad] && [pad][1..] == "";
      assert [pad] + "" == [pad] && "" + [pad] == [pad];
      assert Prepend(pad, sep, [""]) == [[pad] + ""];
      assert Padded([""], pad) == ["" + [pad]];
    } else {
      SplitPadded(s[1..], pad, sep);
      assert (s + [pad])[0] == s[0] && (s + [pad])[1..] == s[1..] + [pad];
      PrependPadded(s[0], sep, Split(s[1..], sep), pad);
    }
  }

  /** Stripping forgets white space at the end. */
  lemma {:induction false} StripPadded(s: string, pad: char)
    requires IsSpace(pad)
    ensures Strip(s + [pad]) == Strip(s)
  {
    var t := s + [pad];
    if s == "" {
      assert t[1..] == "";
    } else if IsSpace(s[0]) {
      assert t[0] == s[0] && t[1..] == s[1..] + [pad];
      StripPadded(s[1..], pad);
    } else {
      assert t[0] == s[0] && t[..|t| - 1] == s;
    }
  }
}
