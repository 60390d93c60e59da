/** Context trimming: `_trim_messages`, `_truncate_text` and `_estimate_tokens` (agent/llm_integration.py). */
module MessageTrim {

  datatype Message = Message(role: string, content: string)

  /** Four characters to a token, rounded down, and at least one. */
  function Tokens(text: string): (n: nat)
    ensures n >= 1 && |text| < 4 * (n + 1) && (n == 1 || 4 * n <= |text|)
  {
    if |text| / 4 < 1 then 1 else |text| / 4
  }

  function Total(ms: seq<Message>): nat {
    if ms == [] then 0 else Total(ms[..|ms| - 1]) + Tokens(ms[|ms| - 1].content)
  }

  datatype Keep = Start | End

  /** Callers pass a positive budget; with zero Python's `text[-0:]` would be the whole text. */
  function Truncate(text: string, maxTokens: nat, keep: Keep): (r: string)
    requires maxTokens >= 1
    ensures |r| <= |text| && Tokens(r) <= Tokens(text)
    ensures Tokens(r) <= maxTokens
    ensures Tokens(text) > maxTokens ==> Tokens(r) == maxTokens
    ensures keep.Start? ==> r <= text
    ensures keep.End? ==> r == text[|text| - |r|..]
  {
    var maxChars := maxTokens * 4;
    if |text| <= maxChars then text
    else if keep.Start? then text[..maxChars]
    else text[|text| - maxChars..]
  }

  /** What the context leaves for the prompt beside the output and a reserve of 256, at least 256. */
  function Budget(maxContext: int, maxOutput: int): (b: nat)
    ensures b >= 256 && b + maxOutput + 256 >= maxContext
    ensures b == 256 || b + maxOutput + 256 == maxContext
  {
    var b := maxContext - maxOutput - 256;
    if b < 256 then 256 else b
  }

  /** The leading system message, if there is one, apart from the conversation. */
  function System(ms: seq<Message>): seq<Message> {
    if ms != [] && ms[0].role == "system" then ms[..1] else []
  }

  function Conversation(ms: seq<Message>): seq<Message> { ms[|System(ms)|..] }

  function SystemBudget(m: Message, budget: nat): (b: nat)
    requires budget >= 256
    ensures 1 <= b <= budget / 2
  {
    var half := if budget / 2 < 64 then 64 else budget / 2;
    if Tokens(m.content) < half then Tokens(m.content) else half
  }

  function CutSystem(m: Message, budget: nat): Message
    requires budget >= 256
  {
    m.(content := Truncate(m.content, SystemBudget(m, budget), Start))
  }

  /** What is kept of the system message. */
  function Head(ms: seq<Message>, budget: nat): (head: seq<Message>)
    requires budget >= 256
    ensures |head| == |System(ms)| && Total(head) <= budget / 2
  {
    if System(ms) == [] then []
    else
      var head := [CutSystem(ms[0], budget)];
      assert head[..0] == [];
      head
  }

  /** What the head leaves for the conversation. */
  function Room(ms: seq<Message>, budget: nat): (room: nat)
    requires budget >= 256
    ensures room >= 1
  {
    budget - Total(Head(ms, budget))
  }

  // ---- what the backward loop keeps of a conversation --------------------------------------

  /** `kept` is what `room` tokens keep of `ms`: a suffix of it, or a suffix preceded by the end of
      the next older message; anything lost means that the room is used up exactly. */
  ghost predicate KeptTail(ms: seq<Message>, kept: seq<Message>, room: nat, k: nat, cut: bool) {
    && k <= |ms| && (cut ==> k >= 1)
    && Total(kept) <= room
    && (if cut then IsCutTail(ms, kept, k) else kept == ms[k..])
    && (k > 0 ==> Total(kept) == room)
  }

  ghost predicate Keeps(ms: seq<Message>, kept: seq<Message>, room: nat) {
    exists k, cut :: KeptTail(ms, kept, room, k, cut)
  }

  /** `kept` is `ms[k..]` preceded by the end of message `k - 1`, cut to a whole number of tokens. */
  ghost predicate IsCutTail(ms: seq<Message>, kept: seq<Message>, k: nat) {
    && 1 <= k <= |ms| && |kept| == |ms| - k + 1
    && kept[1..] == ms[k..]
    && kept[0].role == ms[k - 1].role
    && Tokens(kept[0].content) < Tokens(ms[k - 1].content)
    && |kept[0].content| == 4 * Tokens(kept[0].content) <= |ms[k - 1].content|
    && kept[0].content == ms[k - 1].content[|ms[k - 1].content| - |kept[0].content|..]
  }

  lemma {:induction false} TotalSplit(a: seq<Message>, b: seq<Message>)
    ensures Total(a + b) == Total(a) + Total(b)
  {
    if b == [] {
      assert a + b == a;
    } else {
      var n := |b| - 1;
      TotalSplit(a, b[..n]);
      assert (a + b)[..|a| + n] == a + b[..n];
    }
  }

  lemma TotalCons(m: Message, ms: seq<Message>)
    ensures Total([m] + ms) == Tokens(m.content) + Total(ms)
  {
    TotalSplit([m], ms);
    assert [m][..0] == [];
    assert Total([m]) == Tokens(m.content);
  }

  /** The loop over `reversed(messages)`. */
  method KeepTail(ms: seq<Message>, room: nat)
    returns (kept: seq<Message>, ghost k: nat, ghost cut: bool)
    ensures KeptTail(ms, kept, room, k, cut)
    ensures ms != [] && room >= 1 ==> kept != []
  {
    kept, cut := [], false;
    var remaining := room;
    var i := |ms|;
    assert Total([]) == 0;
    while i > 0
      invariant 0 <= i <= |ms| && 0 <= remaining <= room
      invariant kept == ms[i..] && Total(kept) == room - remaining
      invariant i < |ms| ==> kept != []
    {
      var m := ms[i - 1];
      var tokens := Tokens(m.content);
      if tokens <= remaining {
        TotalCons(m, kept);
        kept := [m] + kept;
        remaining := remaining - tokens;
        i := i - 1;
        continue;
      }
      if remaining <= 0 {
        break;
      }
      var last := m.(content := Truncate(m.content, remaining, End));
      TotalCons(last, kept);
      kept := [last] + kept;
      k, cut := i, true;
      return;
    }
    k := i;
  }

  // ---- the whole trim ----------------------------------------------------------------------

  /** What trimming promises of its result. */
  ghost predicate Trimmed(ms: seq<Message>, budget: nat, r: seq<Message>)
    requires budget >= 256
  {
    if Total(ms) <= budget then r == ms
    else
      && Total(r) <= budget
      && Head(ms, budget) <= r
      && Keeps(Conversation(ms), r[|System(ms)|..], Room(ms, budget))
  }

  /** The system message is cut at its end only: to half the budget if it has more tokens than that,
      and otherwise by less than one token. */
  lemma SystemKept(m: Message, budget: nat)
    requires budget >= 256
    ensures var m' := CutSystem(m, budget);
            && m'.role == m.role && m'.content <= m.content
            && Tokens(m'.content) == (if Tokens(m.content) <= budget / 2 then Tokens(m.content) else budget / 2)
            && (Tokens(m.content) <= budget / 2 ==> |m.content| - |m'.content| < 4)
  {
  }

  lemma KeepsWithin(ms: seq<Message>, kept: seq<Message>, room: nat)
    requires Keeps(ms, kept, room)
    ensures Total(kept) <= room
  {
  }

  /** A cut system message and a kept tail make a trimmed list. */
  lemma Assembled(ms: seq<Message>, budget: nat, tail: seq<Message>)
    requires budget >= 256 && Total(ms) > budget
    requires Keeps(Conversation(ms), tail, Room(ms, budget))
    ensures Trimmed(ms, budget, Head(ms, budget) + tail)
  {
    var head := Head(ms, budget);
    KeepsWithin(Conversation(ms), tail, Room(ms, budget));
    TotalSplit(head, tail);
    assert (head + tail)[|System(ms)|..] == tail;
  }

  /** The head that is kept, and the room it leaves: at least half the budget. */
  method KeepSystem(ms: seq<Message>, budget: nat) returns (head: seq<Message>, remaining: nat)
    requires budget >= 256
    ensures head == Head(ms, budget) && remaining == Room(ms, budget)
  {
    head, remaining := [], budget;
    if System(ms) != [] {
      var system := CutSystem(ms[0], budget);
      head := [system];
      TotalCons(system, []);
      assert [system] + [] == head;
      remaining := remaining - Tokens(system.content);
    }
  }

  method TrimMessages(ms: seq<Message>, maxContext: int, maxOutput: int) returns (r: seq<Message>)
    ensures Trimmed(ms, Budget(maxContext, maxOutput), r)
    ensures Conversation(ms) != [] ==> |r| > |System(ms)|
  {
    var budget := Budget(maxContext, maxOutput);
    if ms == [] {
      return ms;
    }
    var total := SumTokens(ms);
    if total <= budget {
      return ms;
    }
    var head, remaining := KeepSystem(ms, budget);
    var tail, k, cut := KeepTail(Conversation(ms), remaining);
    r := head + tail;
    Assembled(ms, budget, tail);
  }

  method SumTokens(ms: seq<Message>) returns (total: nat)
    ensures total == Total(ms)
  {
    total := 0;
    for i := 0 to |ms|
      invariant total == Total(ms[..i])
    {
      assert ms[..i + 1][..i] == ms[..i];
      total := total + Tokens(ms[i].content);
    }
    assert ms[..|ms|] == ms;
  }

  /** With a leading system message the result starts with a start of it, and the rest is cut from the
      other messages; without one all of it is. */
  lemma HeadByRole(ms: seq<Message>, budget: nat, r: seq<Message>)
    requires budget >= 256 && Trimmed(ms, budget, r) && Total(ms) > budget && ms != []
    ensures ms[0].role == "system" ==>
              && r != [] && r[0].role == "system" && r[0].content <= ms[0].content
              && Keeps(ms[1..], r[1..], budget - Tokens(r[0].content))
    ensures ms[0].role != "system" ==> Keeps(ms, r, budget)
  {
    if ms[0].role == "system" {
      assert System(ms) == ms[..1] && Head(ms, budget) == [r[0]];
      TotalCons(r[0], []);
      assert [r[0]] + [] == [r[0]];
      assert Room(ms, budget) == budget - Tokens(r[0].content);
    } else {
      assert ms[0..] == ms && r[0..] == r;
    }
  }

  /** A trimmed list is within budget, so trimming it again returns it unchanged. */
  lemma TrimmedTwice(ms: seq<Message>, budget: nat, r: seq<Message>, r': seq<Message>)
    requires budget >= 256 && Trimmed(ms, budget, r) && Trimmed(r, budget, r')
    ensures Total(r) <= budget && r' == r
  {
  }

  lemma KeepsLoss(ms: seq<Message>, kept: seq<Message>, room: nat)
    requires Keeps(ms, kept, room) && kept != ms
    ensures Total(kept) == room
  {
  }

  /** A non-system message is lost or shortened only if the budget is then used exactly. */
  lemma LossUsesBudget(ms: seq<Message>, budget: nat, r: seq<Message>)
    requires budget >= 256 && Trimmed(ms, budget, r)
    requires Total(ms) > budget && r[|System(ms)|..] != Conversation(ms)
    ensures Total(r) == budget
  {
    var n := |System(ms)|;
    KeepsLoss(Conversation(ms), r[n..], Room(ms, budget));
    assert r == Head(ms, budget) + r[n..];
    TotalSplit(Head(ms, budget), r[n..]);
  }

  /** The whole messages kept are as many as fit: one more would overflow what the head leaves. */
  lemma KeptTailMaximal(ms: seq<Message>, kept: seq<Message>, room: nat, k: nat, cut: bool)
    requires KeptTail(ms, kept, room, k, cut)
    ensures Total(ms[k..]) <= room
    ensures k >= 1 ==> Total(ms[k - 1..]) > room
    ensures cut ==> Total(ms[k..]) + Tokens(kept[0].content) == room
  {
    if k >= 1 {
      assert ms[k - 1..] == [ms[k - 1]] + ms[k..];
      TotalCons(ms[k - 1], ms[k..]);
    }
    if cut {
      assert kept == [kept[0]] + kept[1..];
      TotalCons(kept[0], kept[1..]);
    }
  }

  lemma SuffixTotal(ms: seq<Message>, k: nat, k': nat)
    requires k <= k' <= |ms|
    ensures Total(ms[k'..]) <= Total(ms[k..])
  {
    assert ms[k..] == ms[k..k'] + ms[k'..];
    TotalSplit(ms[k..k'], ms[k'..]);
  }

  /** Two tails that use the same room start at the same message. */
  lemma KeptTailStart(ms: seq<Message>, room: nat, a: seq<Message>, k: nat, cut: bool,
                      b: seq<Message>, k': nat, cut': bool)
    requires KeptTail(ms, a, room, k, cut) && KeptTail(ms, b, room, k', cut')
    ensures k >= k'
  {
    KeptTailMaximal(ms, a, room, k, cut);
    KeptTailMaximal(ms, b, room, k', cut');
    if k < k' { SuffixTotal(ms, k, k' - 1); }
  }

  lemma CutTailUnique(ms: seq<Message>, a: seq<Message>, b: seq<Message>, k: nat)
    requires IsCutTail(ms, a, k) && IsCutTail(ms, b, k) && Tokens(a[0].content) == Tokens(b[0].content)
    ensures a == b
  {
    assert a[0] == b[0];
    assert a == [a[0]] + a[1..] && b == [b[0]] + b[1..];
  }

  lemma SameStartSameTail(ms: seq<Message>, room: nat, k: nat, a: seq<Message>, cut: bool, b: seq<Message>, cut': bool)
    requires KeptTail(ms, a, room, k, cut) && KeptTail(ms, b, room, k, cut')
    ensures a == b
  {
    KeptTailMaximal(ms, a, room, k, cut);
    KeptTailMaximal(ms, b, room, k, cut');
    if cut && cut' {
      CutTailUnique(ms, a, b, k);
    }
  }

  lemma KeepsUnique(ms: seq<Message>, room: nat, a: seq<Message>, b: seq<Message>)
    requires Keeps(ms, a, room) && Keeps(ms, b, room)
    ensures a == b
  {
    var k, cut :| KeptTail(ms, a, room, k, cut);
    var k', cut' :| KeptTail(ms, b, room, k', cut');
    KeptTailStart(ms, room, a, k, cut, b, k', cut');
    KeptTailStart(ms, room, b, k', cut', a, k, cut);
    SameStartSameTail(ms, room, k, a, cut, b, cut');
  }

  /** The promise leaves no freedom: it determines the result. */
  lemma TrimmedDetermined(ms: seq<Message>, budget: nat, a: seq<Message>, b: seq<Message>)
    requires budget >= 256 && Trimmed(ms, budget, a) && Trimmed(ms, budget, b)
    ensures a == b
  {
    if Total(ms) > budget {
      var n := |System(ms)|;
      KeepsUnique(Conversation(ms), Room(ms, budget), a[n..], b[n..]);
      assert a == Head(ms, budget) + a[n..] && b == Head(ms, budget) + b[n..];
    }
  }
}
