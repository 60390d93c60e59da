/** The goal commands `add_goal_task` prints and `_parse_goal_command` reads (agent/scheduler.py). */
module GoalCommand {
  import opened Strings

  datatype Goal = Goal(goal: string, context: string, team: string)

  const GOAL := "goal:"
  const CONTEXT := "context:"
  const TEAM := "team:"

  /** An absent context or team is the empty string. */
  function Print(g: Goal): string {
    GOAL + (g.goal + (if g.context != "" then "|" + (CONTEXT + g.context + TeamPart(g.team)) else TeamPart(g.team)))
  }

  function TeamPart(team: string): string {
    if team != "" then "|" + (TEAM + team) else ""
  }

  /** The fields after reading the given parts in order; a later part overwrites an earlier one. */
  function Fields(start: Goal, parts: seq<string>): Goal {
    if parts == [] then start
    else
      ReadPart(Fields(start, parts[..|parts| - 1]), parts[|parts| - 1])
  }

  function ReadPart(g: Goal, part: string): Goal {
    if CONTEXT <= part then g.(context := Strip(part[8..]))
    else if TEAM <= part then g.(team := Strip(part[5..]))
    else g
  }

  function ReadAll(parts: seq<string>): Goal
    requires |parts| >= 1
  {
    Fields(Goal(Strip(parts[0]), "", ""), parts[1..])
  }

  function Parse(command: string): Goal {
    if GOAL <= command then ReadAll(Split(command[5..], '|')) else Goal("", "", "")
  }

  method ParseGoalCommand(command: string) returns (result: Goal)
    ensures result == Parse(command)
  {
    result := Goal("", "", "");
    if !(GOAL <= command) {
      return;
    }
    var parts := Split(command[5..], '|');
    result := result.(goal := Strip(parts[0]));
    ghost var start := result;
    for i := 1 to |parts|
      invariant result == Fields(start, parts[1..i])
    {
      var part := parts[i];
      assert parts[1..i + 1] == parts[1..i] + [part];
      FieldsSnoc(start, parts[1..i], part);
      if CONTEXT <= part {
        result := result.(context := Strip(part[8..]));
      } else if TEAM <= part {
        result := result.(team := Strip(part[5..]));
      }
    }
    assert parts[1..|parts|] == parts[1..];
  }

  /** A field that survives printing: no separator inside, no white space at the ends. */
  predicate Clean(s: string) { '|' !in s && Stripped(s) }

  lemma {:induction false} FieldsClean(start: Goal, parts: seq<string>)
    requires Clean(start.goal) && Clean(start.context) && Clean(start.team)
    requires forall i :: 0 <= i < |parts| ==> '|' !in parts[i]
    ensures var g := Fields(start, parts); g.goal == start.goal && Clean(g.context) && Clean(g.team)
  {
    if parts != [] {
      var n := |parts| - 1;
      FieldsClean(start, parts[..n]);
      if CONTEXT <= parts[n] { StripSound(parts[n][8..]); }
      if TEAM <= parts[n] { StripSound(parts[n][5..]); }
    }
  }

  /** Whatever the command, the parsed fields are clean. */
  lemma ParseClean(command: string)
    ensures var g := Parse(command); Clean(g.goal) && Clean(g.context) && Clean(g.team)
  {
    if GOAL <= command {
      var parts := Split(command[5..], '|');
      forall i | 0 <= i < |parts|
        ensures '|' !in parts[i]
      {
        SplitPartsClean(command[5..], '|', i);
      }
      StripSound(parts[0]);
      FieldsClean(Goal(Strip(parts[0]), "", ""), parts[1..]);
    }
  }

  /** The parts after the goal. */
  function Tail(g: Goal): seq<string> {
    (if g.context != "" then [CONTEXT + g.context] else []) + (if g.team != "" then [TEAM + g.team] else [])
  }

  lemma SplitNext(a: string, b: string)
    requires '|' !in a
    ensures Split(a + ("|" + b), '|') == [a] + Split(b, '|')
  {
    assert a + ("|" + b) == a + ['|'] + b;
    SplitFirst(a, b, '|');
  }

  lemma SplitTeam(prefix: string, team: string)
    requires '|' !in prefix && '|' !in team
    ensures Split(prefix + TeamPart(team), '|') == [prefix] + (if team != "" then [TEAM + team] else [])
  {
    if team != "" {
      SplitNext(prefix, TEAM + team);
      SplitOne(TEAM + team, '|');
    } else {
      assert prefix + "" == prefix;
      SplitOne(prefix, '|');
    }
  }

  lemma SplitPrinted(g: Goal)
    requires '|' !in g.goal && '|' !in g.context && '|' !in g.team
    ensures GOAL <= Print(g) && Split(Print(g)[5..], '|') == [g.goal] + Tail(g)
  {
    if g.context != "" {
      SplitNext(g.goal, CONTEXT + g.context + TeamPart(g.team));
      SplitTeam(CONTEXT + g.context, g.team);
    } else {
      SplitTeam(g.goal, g.team);
    }
  }

  lemma FieldsSnoc(start: Goal, parts: seq<string>, part: string)
    ensures Fields(start, parts + [part]) == ReadPart(Fields(start, parts), part)
  {
    assert (parts + [part])[..|parts|] == parts;
  }

  lemma ReadTail(g: Goal)
    requires Clean(g.goal) && Clean(g.context) && Clean(g.team)
    ensures Fields(Goal(g.goal, "", ""), Tail(g)) == g
  {
    var start := Goal(g.goal, "", "");
    var first := if g.context != "" then [CONTEXT + g.context] else [];
    StripOfStripped(g.context);
    StripOfStripped(g.team);
    if g.context != "" {
      assert [] + [CONTEXT + g.context] == first;
      FieldsSnoc(start, [], CONTEXT + g.context);
      assert (CONTEXT + g.context)[8..] == g.context;
    }
    assert Fields(start, first) == Goal(g.goal, g.context, "");
    if g.team != "" {
      var part := TEAM + g.team;
      FieldsSnoc(start, first, part);
      assert part[5..] == g.team;
      assert part[0] == 't' && CONTEXT[0] == 'c';
    } else {
      assert Tail(g) == first;
    }
  }

  /** A goal is read back as printed exactly when none of its fields contains the separator or
      begins or ends with white space. */
  lemma RoundTripIff(g: Goal)
    ensures Parse(Print(g)) == g <==> Clean(g.goal) && Clean(g.context) && Clean(g.team)
  {
    ParseClean(Print(g));
    if Clean(g.goal) && Clean(g.context) && Clean(g.team) {
      SplitPrinted(g);
      StripOfStripped(g.goal);
      assert ([g.goal] + Tail(g))[1..] == Tail(g);
      ReadTail(g);
    }
  }

  lemma Regroup(a: string, b: string, c: string)
    ensures a + (b + c) == a + b + c
  {
  }

  lemma TeamSpelled(prefix: string, team: string)
    requires team != ""
    ensures prefix + TeamPart(team) == prefix + "|team:" + team
  {
    assert "|" + TEAM == "|team:";
    Regroup("|", TEAM, team);
    Regroup(prefix, "|team:", team);
  }

  lemma ContextSpelled(prefix: string, context: string)
    ensures prefix + ("|" + (CONTEXT + context)) == prefix + "|context:" + context
  {
    assert "|" + CONTEXT == "|context:";
    Regroup("|", CONTEXT, context);
    Regroup(prefix, "|context:", context);
  }

  /** One more part of a goal command overwrites the context or the team, or is ignored. */
  lemma OneMorePart(command: string, part: string)
    requires "goal:" <= command && '|' !in part
    ensures Parse(command + "|" + part) ==
            var g := Parse(command);
            if "context:" <= part then g.(context := Strip(part[8..]))
            else if "team:" <= part then g.(team := Strip(part[5..]))
            else g
  {
    var body := command[5..];
    assert (command + "|" + part)[5..] == body + ['|'] + part;
    SplitConcat(body, part, '|');
    SplitOne(part, '|');
    var parts := Split(body, '|');
    assert (parts + [part])[1..] == parts[1..] + [part];
    FieldsSnoc(Goal(Strip(parts[0]), "", ""), parts[1..], part);
  }

  /** What `add_goal_task` writes, spelled out. */
  lemma PrintSpelled(goal: string, context: string, team: string)
    ensures context == "" && team == "" ==> Print(Goal(goal, context, team)) == "goal:" + goal
    ensures context == "" && team != "" ==> Print(Goal(goal, context, team)) == "goal:" + goal + "|team:" + team
    ensures context != "" && team == "" ==> Print(Goal(goal, context, team)) == "goal:" + goal + "|context:" + context
    ensures context != "" && team != "" ==>
              Print(Goal(goal, context, team)) == "goal:" + goal + "|context:" + context + "|team:" + team
  {
    var head := GOAL + goal;
    if context == "" {
      Regroup(GOAL, goal, TeamPart(team));
      if team != "" {
        TeamSpelled(head, team);
      } else {
        assert head + "" == head;
      }
    } else {
      var part := CONTEXT + context;
      Regroup(GOAL, goal, "|" + (part + TeamPart(team)));
      Regroup("|", part, TeamPart(team));
      Regroup(head, "|" + part, TeamPart(team));
      ContextSpelled(head, context);
      if team != "" {
        TeamSpelled(head + ("|" + part), team);
      } else {
        assert head + ("|" + part) + "" == head + ("|" + part);
      }
    }
  }

  /** And what `_parse_goal_command` makes of it. */
  lemma ParseSpelled(goal: string, context: string, team: string)
    requires Clean(goal) && Clean(context) && Clean(team) && context != "" && team != ""
    ensures Parse("goal:" + goal + "|context:" + context + "|team:" + team) == Goal(goal, context, team)
    ensures Parse("goal:" + goal) == Goal(goal, "", "")
  {
    PrintSpelled(goal, context, team);
    PrintSpelled(goal, "", "");
    RoundTripIff(Goal(goal, context, team));
    RoundTripIff(Goal(goal, "", ""));
  }

  // ---- the context that `add_task` appends --------------------------------------------------

  /** What `add_task` makes of a command and a context; the separator has spaces around it. */
  function Appended(command: string, context: string): string { command + " | context: " + context }

  lemma {:induction false} FieldsConcat(start: Goal, a: seq<string>, b: seq<string>)
    ensures Fields(start, a + b) == Fields(Fields(start, a), b)
  {
    if b == [] {
      assert a + b == a;
    } else {
      var n := |b| - 1;
      FieldsConcat(start, a, b[..n]);
      assert a + b == (a + b[..n]) + [b[n]];
      FieldsSnoc(start, a + b[..n], b[n]);
    }
  }

  lemma ReadConcat(a: seq<string>, b: seq<string>)
    requires |a| >= 1
    ensures ReadAll(a + b) == Fields(ReadAll(a), b)
  {
    assert (a + b)[1..] == a[1..] + b;
    FieldsConcat(Goal(Strip(a[0]), "", ""), a[1..], b);
  }

  /** A keyword without spaces is not completed by one. */
  lemma KeywordPadded(keyword: string, part: string)
    requires keyword != "" && ' ' !in keyword
    ensures keyword <= part + " " <==> keyword <= part
  {
    if |keyword| == |part| + 1 {
      assert (part + " ")[|part|] == ' ' != keyword[|part|];
    }
  }

  lemma ReadPartPadded(g: Goal, part: string)
    ensures ReadPart(g, part + " ") == ReadPart(g, part)
  {
    KeywordPadded(CONTEXT, part);
    KeywordPadded(TEAM, part);
    if CONTEXT <= part {
      assert (part + " ")[8..] == part[8..] + " ";
      StripPadded(part[8..], ' ');
    } else if TEAM <= part {
      assert (part + " ")[5..] == part[5..] + " ";
      StripPadded(part[5..], ' ');
    }
  }

  /** The space before the separator changes nothing. */
  lemma ReadPadded(parts: seq<string>)
    requires |parts| >= 1
    ensures ReadAll(Padded(parts, ' ')) == ReadAll(parts)
  {
    var n := |parts| - 1;
    if n == 0 {
      StripPadded(parts[0], ' ');
    } else {
      var start, middle := Goal(Strip(parts[0]), "", ""), parts[1..n];
      assert parts[1..] == middle + [parts[n]];
      assert Padded(parts, ' ')[1..] == middle + [parts[n] + " "];
      FieldsSnoc(start, middle, parts[n]);
      FieldsSnoc(start, middle, parts[n] + " ");
      ReadPartPadded(Fields(start, middle), parts[n]);
    }
  }

  /** Nor does the appended part, because of the space after the separator. */
  lemma ReadAppendedPart(g: Goal, first: string, later: seq<string>)
    ensures Fields(g, [" context: " + first] + later) == Fields(g, later)
  {
    var part := " context: " + first;
    FieldsConcat(g, [part], later);
    assert part[0] == ' ' && CONTEXT[0] == 'c' && TEAM[0] == 't';
    assert [] + [part] == [part];
    FieldsSnoc(g, [], part);
  }

  lemma SplitAppended(body: string, context: string)
    ensures var parts := Split(context, '|');
      Split(Appended(body, context), '|') == Padded(Split(body, '|'), ' ') + ([" context: " + parts[0]] + parts[1..])
  {
    var part := " context: " + context;
    assert Appended(body, context) == (body + [' ']) + ['|'] + part;
    SplitConcat(body + [' '], part, '|');
    SplitPadded(body, ' ', '|');
    SplitPrefix(" context: ", context, '|');
  }

  /** For every command and context: the appended context itself is never read; only what follows a
      separator inside it is, as further parts of a goal command. */
  lemma AppendedIsParsed(command: string, context: string)
    ensures Parse(Appended(command, context)) ==
            if GOAL <= command then Fields(Parse(command), Split(context, '|')[1..]) else Parse(command)
  {
    var whole := Appended(command, context);
    if GOAL <= command {
      var body, parts := command[5..], Split(context, '|');
      assert whole[5..] == Appended(body, context);
      SplitAppended(body, context);
      ReadConcat(Padded(Split(body, '|'), ' '), [" context: " + parts[0]] + parts[1..]);
      ReadPadded(Split(body, '|'));
      ReadAppendedPart(Parse(command), parts[0], parts[1..]);
    } else if |command| < 5 {
      assert whole[|command|] == ' ' != GOAL[|command|];
    } else {
      assert whole[..5] == command[..5];
    }
  }

  /** A context without separators is lost: all fields are those of the command alone. */
  lemma AppendedContextIsLost(command: string, context: string)
    requires '|' !in context
    ensures Parse(Appended(command, context)) == Parse(command)
  {
    AppendedIsParsed(command, context);
    SplitOne(context, '|');
  }

  /** Some part after the first sets the context. */
  ghost predicate SetsContext(parts: seq<string>) {
    exists i :: 0 <= i < |parts| && CONTEXT <= parts[i]
  }

  lemma {:induction false} FieldsContext(g: Goal, g': Goal, parts: seq<string>)
    ensures if SetsContext(parts) then Fields(g, parts).context == Fields(g', parts).context
            else Fields(g, parts).context == g.context
  {
    if parts != [] {
      var n := |parts| - 1;
      FieldsContext(g, g', parts[..n]);
      if SetsContext(parts) && !(CONTEXT <= parts[n]) {
        var i :| 0 <= i < |parts| && CONTEXT <= parts[i];
        assert CONTEXT <= parts[..n][i];
      }
    }
  }

  /** Appending leaves the parsed context of every command alone iff no later part of the appended
      context starts with the keyword. */
  lemma AppendedContextIsLostIff(context: string)
    ensures (forall command :: Parse(Appended(command, context)).context == Parse(command).context) <==>
            !SetsContext(Split(context, '|')[1..])
  {
    var later := Split(context, '|')[1..];
    if SetsContext(later) {
      var a, b := Goal("", "a", ""), Goal("", "b", "");
      OverwrittenContext(a, b, context);
      assert Parse(Appended(Print(a), context)).context != Parse(Print(a)).context
          || Parse(Appended(Print(b), context)).context != Parse(Print(b)).context;
    } else {
      forall command
        ensures Parse(Appended(command, context)).context == Parse(command).context
      {
        AppendedIsParsed(command, context);
        FieldsContext(Parse(command), Parse(command), later);
      }
    }
  }

  /** Two printed goals get the same context from what overwrites it. */
  lemma OverwrittenContext(a: Goal, b: Goal, context: string)
    requires a == Goal("", "a", "") && b == Goal("", "b", "") && SetsContext(Split(context, '|')[1..])
    ensures Parse(Print(a)) == a && Parse(Print(b)) == b
    ensures Parse(Appended(Print(a), context)).context == Parse(Appended(Print(b), context)).context
  {
    RoundTripIff(a);
    RoundTripIff(b);
    AppendedIsParsed(Print(a), context);
    AppendedIsParsed(Print(b), context);
    FieldsContext(a, b, Split(context, '|')[1..]);
  }

  /** A separator and the keyword inside the appended context do set it. */
  lemma AppendedContextIsRead(command: string, x: string, y: string)
    requires GOAL <= command && '|' !in x && Clean(y)
    ensures Parse(Appended(command, x + "|" + (CONTEXT + y))).context == y
  {
    var context, part := x + "|" + (CONTEXT + y), CONTEXT + y;
    assert context == x + ("|" + part);
    SplitNext(x, part);
    SplitOne(part, '|');
    AppendedIsParsed(command, context);
    assert [] + [part] == [part] && part[8..] == y;
    FieldsSnoc(Parse(command), [], part);
    StripOfStripped(y);
  }
}
