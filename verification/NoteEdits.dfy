/** What each editor of a note's text does to the marker lines in it, and to the
    tasks: the facts the interleaved writers rest on. */
module NoteEdits {
  import opened Options
  import opened Text
  import opened Sections
  import opened NoteMarkers
  import opened MarkedText
  import opened TaskLines
  import opened StatusPrefix
  import opened Tasks
  import Trim
  import Rating
  import TaskAdding
  import Calendar

  // ---------------------------------------------------------------- rating

  lemma {:induction false} TasksShift(lines: seq<string>, index: int, number: int, number': int)
    ensures var a, b := TasksIn(lines, index, number), TasksIn(lines, index, number');
      |a| == |b| && forall k :: 0 <= k < |a| ==> b[k] == a[k].(lineNumber := a[k].lineNumber + (number' - number))
  {
    hide ParseLine;
    if lines != [] {
      var next := index + (if ParseLine(lines[0]).Some? then 1 else 0);
      TasksShift(lines[1..], next, number + 1, number' + 1);
      var a, b := TasksIn(lines[1..], next, number + 1), TasksIn(lines[1..], next, number' + 1);
      if ParseLine(lines[0]).Some? {
        var t := ParseLine(lines[0]).value;
        assert TasksIn(lines, index, number) == [Task(t.0, t.1, index, number)] + a;
        assert TasksIn(lines, index, number') == [Task(t.0, t.1, index, number')] + b;
      } else {
        assert TasksIn(lines, index, number) == a && TasksIn(lines, index, number') == b;
      }
      hide TasksIn;
    }
  }

  /** A rating leaves the tasks: their texts, states and positions in the list. */
  lemma RatingKeepsTasks(content: string, r: Trim.Int64)
    requires Rating.Updated(content, r).Some?
    ensures var a, b := TasksOf(content), TasksOf(Rating.Updated(content, r).value);
      |a| == |b| && forall k :: 0 <= k < |a| ==> b[k].text == a[k].text && b[k].state == a[k].state && b[k].index == a[k].index
  {
    var parts := Split(content, SEP);
    var parts' := parts[1 := Rating.NewFront(parts, r)];
    Rating.UpdatedParts(content, r);
    hide Rating.NewFront, Rating.Updated, Split, Join, Offset, TasksIn;
    if |parts| >= 4 {
      TasksOfSplit(content, parts);
      TasksOfSplit(Rating.Updated(content, r).value, parts');
      TasksShift(Lines(parts[2]), 0, Offset(parts), Offset(parts'));
    }
  }

  // ------------------------------------------------------------------ tasks

  /** A box is never on a marker line. */
  lemma BoxedIsBare(content: string, k: nat)
    requires WellMarked(content) && k < |Lines(content)| && '[' in Lines(content)[k]
    ensures Bare(Lines(content)[k])
  {
    MatchingIn(Lines(content), PREFIX);
    if !Bare(Lines(content)[k]) { MarkerShape(Lines(content)[k]); }
  }

  lemma LineSwapped(lines: seq<string>, k: nat, line: string)
    requires k < |lines| && Bare(lines[k])
    ensures Matching(lines[k := line], PREFIX) == Matching(lines, PREFIX) <==> Bare(line)
  {
    var a, b := lines[..k], lines[k + 1..];
    assert lines == a + [lines[k]] + b && lines[k := line] == a + [line] + b;
    SkipLine(a, lines[k], b, PREFIX);
    hide Contains;
    MatchingConcat(a + [line], b, PREFIX);
    MatchingConcat(a, [line], PREFIX);
    MatchingConcat(a, b, PREFIX);
    assert Matching([line], PREFIX) == if Bare(line) then [] else [line];
    if !Bare(line) {
      assert |Matching(a + [line] + b, PREFIX)| == |Matching(a + b, PREFIX)| + 1;
    } else {
      SkipLine(a, line, b, PREFIX);
    }
  }

  lemma SetLineHasBox(line: string, state: Status, today: string)
    requires SetLine(line, state, today).Some?
    ensures '[' in line
  {
    hide DropTag, Swap, Replace, DropSpaces;
    var c :| IsMark(c) && Has(line, c);
    var i := BoxFound(line, c);
    assert line[i + 2] == '[';
  }

  lemma ReplaceIsLine(s: string, a: char, b: char)
    requires IsLine(s) && IsMark(a) && IsMark(b)
    ensures IsLine(Replace(s, Box(a), Box(b)))
  {
  }

  lemma SwapIsLine(s: string, a: char, b: char, c: char)
    requires IsLine(s) && IsMark(a) && IsMark(b) && IsMark(c)
    ensures IsLine(Swap(s, a, b, c))
  {
    hide Replace, Box;
    ReplaceIsLine(s, a, c);
    ReplaceIsLine(Replace(s, Box(a), Box(c)), b, c);
  }

  lemma SetLineIsLine(line: string, state: Status, today: string)
    requires IsLine(line) && IsLine(today) && SetLine(line, state, today).Some?
    ensures IsLine(SetLine(line, state, today).value)
  {
    hide Replace, DropTag, DropSpaces, Has, Box, Swap;
    DropIsLine(line);
    match state
    case Pending =>
      SwapIsLine(line, 'x', 'X', '?');
      ReplaceIsLine(line, '-', '?');
      ReplaceIsLine(line, ' ', '?');
      DropIsLine(Swap(line, 'x', 'X', '?'));
      DropIsLine(Replace(line, Box('-'), Box('?')));
      DropIsLine(Replace(line, Box(' '), Box('?')));
    case Completed =>
      SwapIsLine(DropTag(line), '?', ' ', 'x');
      ReplaceIsLine(line, '-', 'x');
      DropIsLine(Swap(DropTag(line), '?', ' ', 'x'));
      DropIsLine(Replace(line, Box('-'), Box('x')));
    case Rejected =>
      SwapIsLine(line, '?', ' ', '-');
      SwapIsLine(line, 'x', 'X', '-');
      DropIsLine(Swap(line, '?', ' ', '-'));
      DropIsLine(Swap(line, 'x', 'X', '-'));
  }

  lemma DropIsLine(s: string)
    requires IsLine(s)
    ensures IsLine(DropTag(s)) && IsLine(DropSpaces(s))
  {
    DropSpacesStarts(s);
    var i := Index(s, TAG);
    if i >= 0 { DropSpacesStarts(s[..i]); }
  }

  /** A status leaves the marker lines of a well-marked note as they are exactly
      when it leaves the line's tag alone, or taking the tag out of the line
      brings no prefix about. */
  lemma StatusKeepsMarkers(content: string, k: int, state: Status, today: string)
    requires WellMarked(content) && Calendar.IsIsoDate(today) && WithStatus(content, k, state, today).Some?
    ensures var at := TasksOf(content)[k].lineNumber - 1;
      && 0 <= at < |Lines(content)|
      && (Marked(WithStatus(content, k, state, today).value) == Marked(content) <==> StaysClear(Lines(content)[at], state))
  {
    var at, lines := TasksOf(content)[k].lineNumber - 1, Lines(content);
    var line := SetLine(lines[at], state, today).value;
    SetLineHasBox(lines[at], state, today);
    BoxedIsBare(content, at);
    SetLineBare(lines[at], state, today);
    IsoDatePlain(today);
    LinesAreLines(content);
    SetLineIsLine(lines[at], state, today);
    hide SetLine, TasksOf, Contains, Matching, Split, StaysClear;
    LineSwapped(lines, at, line);
    LinesOfJoin(lines[at := line]);
  }

  /** Rewriting a regular line never brings the prefix about. */
  lemma RegularStaysBare(line: string, x: string, c: char, r: string, state: Status, today: string)
    requires Regular(line, x, c, r) && Bare(line) && Calendar.IsIsoDate(today) && SetLine(line, state, today).Some?
    ensures Bare(SetLine(line, state, today).value) && StaysClear(line, state)
  {
    SetLineBare(line, state, today);
    SetRegular(line, x, c, r, state, today);
    var m, blanks, tail := NewRestPieces(x, c, r, state, today);
    IsoDatePlain(today);
    var d := MarkOf(state);
    BareAround(x, c, d, m, r);
    hide SetLine, NewRest, Contains, Box, CompletedOn, StaysClear;
    BareBlanks(x + Box(d) + m, blanks);
    if state == Completed { BareTail(x + Box(d) + m + blanks, today); }
    RestPieces(x + Box(d), m, blanks, tail);
  }

  lemma RestPieces(front: string, m: string, blanks: string, tail: string)
    ensures front + (m + blanks + tail) == front + m + blanks + tail
    ensures front + m + blanks + "" == front + m + blanks
  {
  }

  lemma BoxPieces(x: string, c: char, r: string)
    ensures x + Box(c) + r == (x + "- ") + ['['] + ([c] + [']'] + r)
    ensures x + Box(c) + r == "" + (x + "- ") + (['['] + [c] + [']'] + r)
  {
  }

  /** Another mark in the box, and less behind it. */
  lemma BareAround(x: string, c: char, d: char, m: string, r: string)
    requires Bare(x + Box(c) + r) && m <= r && IsMark(d)
    ensures Bare(x + Box(d) + m)
  {
    BoxPieces(x, c, r);
    BoxPieces(x, d, m);
    assert x + Box(c) + r == (x + Box(c)) + m + r[|m|..];
    BareMark(d);
    PrefixEnds();
    hide Contains, Box;
    BarePart(x + Box(c) + r, "", x + "- ", ['['] + [c] + [']'] + r);
    BarePart(x + Box(c) + r, x + Box(c), m, r[|m|..]);
    NotAcross([d], ']', m, PREFIX);
    NotAcross(x + "- ", '[', [d] + [']'] + m, PREFIX);
  }

  lemma BareMark(d: char)
    requires IsMark(d)
    ensures Bare([d])
  {
    assert PREFIX[0] == '<' && [d][1..] == "" && |PREFIX| > 1;
  }

  // ------------------------------------------------------------- adding a task

  lemma NewTaskBare(text: string)
    requires Bare(text)
    ensures Bare(TaskAdding.NewTask(text))
  {
    PrefixEnds();
    assert TaskAdding.NewTask(text) == "- [?" + [']'] + (" " + text);
    Rating.NoOpening("- [?");
    PrefixNotAtBlank(text);
    hide Contains;
    NotAcross("- [?", ']', " " + text, PREFIX);
  }

  lemma PrefixNotAtBlank(text: string)
    requires Bare(text)
    ensures Bare(" " + text)
  {
    assert (" " + text)[1..] == text && PREFIX[0] == '<';
  }

  /** The new task, in lines: with a text of several lines it is several. */
  lemma NewSectionMarked(part: string, text: string)
    requires Bare(text) && Bare(First(part)) && Bare(Last(part))
    ensures var y := TaskAdding.NewSection(part, text); Marked(y) == Marked(part) && Bare(First(y)) && Bare(Last(y))
  {
    var ls, line := Lines(part), TaskAdding.NewTask(text);
    var n := TaskAdding.Place(ls);
    NewTaskBare(text);
    LinesAreLines(part);
    hide Contains, TaskAdding.Place, TaskAdding.NewTask;
    assert ls[..n] + ls[n..] == ls;
    SectionMarked(ls[..n], line, ls[n..]);
  }

  lemma SpliceMatching(a: seq<string>, m: seq<string>, b: seq<string>, key: string)
    requires forall k :: 0 <= k < |m| ==> !Contains(m[k], key)
    ensures Matching(a + m + b, key) == Matching(a + b, key)
  {
    MatchingConcat(a + m, b, key);
    MatchingConcat(a, m, key);
    MatchingConcat(a, b, key);
    MatchingNone(m, key);
  }

  lemma SpliceEnds(a: seq<string>, m: seq<string>, b: seq<string>)
    requires |m| >= 1
    ensures var all := a + m + b;
      && all[0] == (if a == [] then m[0] else a[0])
      && all[|all| - 1] == (if b == [] then m[|m| - 1] else b[|b| - 1])
  {
  }

  lemma SpliceLines(a: seq<string>, m: seq<string>, b: seq<string>)
    requires forall k :: 0 <= k < |a| ==> IsLine(a[k])
    requires forall k :: 0 <= k < |m| ==> IsLine(m[k])
    requires forall k :: 0 <= k < |b| ==> IsLine(b[k])
    requires |m| >= 1
    ensures Lines(Join(a + m + b, NL)) == a + m + b
  {
    hide IsLine;
    var all := a + m + b;
    forall k | 0 <= k < |all| ensures IsLine(all[k]) {
      assert all[k] == if k < |a| then a[k] else if k < |a| + |m| then m[k - |a|] else b[k - |a| - |m|];
    }
    LinesOfJoin(all);
  }

  /** Joining lines of which one holds line breaks. */
  lemma SectionMarked(a: seq<string>, text: string, b: seq<string>)
    requires |a + b| >= 1 && Bare(text) && Bare((a + b)[0]) && Bare((a + b)[|a + b| - 1])
    requires forall k :: 0 <= k < |a| ==> IsLine(a[k])
    requires forall k :: 0 <= k < |b| ==> IsLine(b[k])
    ensures var y := Join(a + [text] + b, NL); Marked(y) == Matching(a + b, PREFIX) && Bare(First(y)) && Bare(Last(y))
  {
    var m := Lines(text);
    LinesJoined(text);
    forall k | 0 <= k < |m| ensures Bare(m[k]) {
      if Contains(m[k], PREFIX) { LineContains(text, k, PREFIX); }
    }
    assert Bare(m[0]) && Bare(m[|m| - 1]);
    hide Contains, Matching, IsLine, Split, Join;
    JoinedInside(a, m, b);
    SpliceLines(a, m, b);
    SpliceEnds(a, m, b);
    SpliceMatching(a, m, b, PREFIX);
    assert a != [] ==> (a + b)[0] == a[0];
    assert b != [] ==> (a + b)[|a + b| - 1] == b[|b| - 1];
  }

  /** A joined list inside a list of lines. */
  lemma {:induction false} JoinedInside(a: seq<string>, m: seq<string>, b: seq<string>)
    requires |m| >= 1
    ensures Join(a + [Join(m, NL)] + b, NL) == Join(a + m + b, NL)
  {
    if a == [] {
      assert a + [Join(m, NL)] + b == [Join(m, NL)] + b && a + m + b == m + b;
      if b == [] {
        assert m + b == m && [Join(m, NL)] + b == [Join(m, NL)];
      } else {
        Rating.JoinConcat(m, b);
        Rating.JoinConcat([Join(m, NL)], b);
      }
    } else {
      JoinedInside(a[1..], m, b);
      JoinCons(a[0], a[1..] + [Join(m, NL)] + b, NL);
      JoinCons(a[0], a[1..] + m + b, NL);
      assert a + [Join(m, NL)] + b == [a[0]] + (a[1..] + [Join(m, NL)] + b);
      assert a + m + b == [a[0]] + (a[1..] + m + b);
    }
  }

  /** An added task leaves the marker lines as they are. */
  lemma AddTaskKeepsMarkers(content: string, text: string)
    requires WellMarked(content) && Bare(text) && TaskAdding.WithTask(content, text).Some?
    ensures Marked(TaskAdding.WithTask(content, text).value) == Marked(content)
  {
    var parts := Split(content, SEP);
    var y := TaskAdding.NewSection(parts[2], text);
    SplitShape(content);
    var a, b := parts[0] + SEP + parts[1], Join(parts[3..], SEP);
    ThreeParts(parts, parts[2]);
    ThreeParts(parts, y);
    assert parts[2 := parts[2]] == parts;
    hide TaskAdding.NewSection, Contains, Matching, Split;
    InnerBare(a, parts[2], b);
    NewSectionMarked(parts[2], text);
    RewriteKeepsMarked(a, parts[2], y, b);
  }

  lemma ThreeParts(parts: seq<string>, p: string)
    requires |parts| >= 4
    ensures Join(parts[2 := p], SEP) == (parts[0] + SEP + parts[1]) + SEP + (p + SEP + Join(parts[3..], SEP))
  {
    var q := parts[2 := p];
    JoinCons(q[0], q[1..], SEP);
    JoinCons(q[1], q[2..], SEP);
    JoinCons(q[2], q[3..], SEP);
    assert q == [q[0]] + q[1..] && q[1..] == [q[1]] + q[2..] && q[2..] == [q[2]] + q[3..] && q[3..] == parts[3..];
    Regroup(parts[0] + SEP, parts[1] + SEP, p + SEP + Join(parts[3..], SEP));
    Regroup(parts[0] + SEP, parts[1], SEP);
  }
}
