/** The task section of a note, between its second and third "---"
    (core/features/tasks.go). */
module Tasks {
  import opened Options
  import opened Text
  import opened Trim
  import opened Sections
  import opened TaskLines
  import Calendar

  datatype Task = Task(text: string, state: Status, index: int, lineNumber: int)

  /** The tasks among the lines of a section whose first line has this number. */
  function TasksIn(lines: seq<string>, index: int, number: int): seq<Task> {
    if lines == [] then []
    else
      var parsed := ParseLine(lines[0]);
      if parsed.None? then TasksIn(lines[1..], index, number + 1)
      else [Task(parsed.value.0, parsed.value.1, index, number)] + TasksIn(lines[1..], index + 1, number + 1)
  }

  /** The number of the section's first line in the note. */
  function Offset(parts: seq<string>): int
    requires |parts| >= 2
  {
    Newlines(Join(parts[..2], SEP) + SEP) + 1
  }

  /** ParseTasks */
  function TasksOf(content: string): seq<Task> {
    var parts := Split(content, SEP);
    if |parts| < 4 then [] else TasksIn(Lines(parts[2]), 0, Offset(parts))
  }

  /** SetTaskStatusContent; None is its error. */
  function WithStatus(content: string, k: int, state: Status, today: string): Option<string> {
    var tasks := TasksOf(content);
    if !(0 <= k < |tasks|) then None
    else
      var at, lines := tasks[k].lineNumber - 1, Lines(content);
      if !(0 <= at < |lines|) then None
      else
        var line := SetLine(lines[at], state, today);
        if line.None? then None else Some(Join(lines[at := line.value], NL))
  }

  // ------------------------------------------------------------ task lists

  lemma {:induction false} TasksConcat(a: seq<string>, b: seq<string>, index: int, number: int)
    ensures TasksIn(a + b, index, number)
         == TasksIn(a, index, number) + TasksIn(b, index + |TasksIn(a, index, number)|, number + |a|)
  {
    hide ParseLine;
    if a == [] {
      assert a + b == b;
    } else {
      assert (a + b)[1..] == a[1..] + b;
      TasksConcat(a[1..], b, index + (if ParseLine(a[0]).Some? then 1 else 0), number + 1);
    }
  }

  /** Task k stands on one line of the section, behind k others. */
  lemma {:induction false} TaskPosition(lines: seq<string>, index: int, number: int, k: nat) returns (i: nat)
    requires k < |TasksIn(lines, index, number)|
    ensures i < |lines| && |TasksIn(lines[..i], index, number)| == k && ParseLine(lines[i]).Some?
    ensures TasksIn(lines, index, number)[k]
         == Task(ParseLine(lines[i]).value.0, ParseLine(lines[i]).value.1, index + k, number + i)
  {
    hide ParseLine;
    var more := if ParseLine(lines[0]).Some? then 1 else 0;
    if k == 0 && more == 1 {
      i := 0;
      assert lines[..0] == [];
    } else {
      i := TaskPosition(lines[1..], index + more, number + 1, k - more);
      i := i + 1;
      assert lines[..i][1..] == lines[1..][..i - 1];
    }
  }

  /** Rewriting the line of one task changes that task only. */
  lemma TaskRewritten(lines: seq<string>, i: nat, line: string, index: int, number: int)
    requires i < |lines| && ParseLine(lines[i]).Some? && ParseLine(line).Some?
    ensures var k, next := |TasksIn(lines[..i], index, number)|, ParseLine(line).value;
      && k < |TasksIn(lines, index, number)|
      && TasksIn(lines[i := line], index, number)
         == TasksIn(lines, index, number)[k := Task(next.0, next.1, index + k, number + i)]
  {
    hide ParseLine;
    var a, b := lines[..i], lines[i + 1..];
    var k := |TasksIn(a, index, number)|;
    assert lines == a + ([lines[i]] + b) && lines[i := line] == a + ([line] + b);
    TasksConcat(a, [lines[i]] + b, index, number);
    TasksConcat(a, [line] + b, index, number);
    assert ([lines[i]] + b)[1..] == b && ([line] + b)[1..] == b;
  }

  // ----------------------------------------------------- the section's place

  /** In front of the section, and behind it. */
  function Head(parts: seq<string>): string
    requires |parts| >= 3
  {
    Before(parts, 2)
  }

  function Foot(parts: seq<string>): string
    requires |parts| >= 4
  {
    SEP + Join(parts[3..], SEP)
  }

  lemma ContentAround(content: string)
    requires |Split(content, SEP)| >= 4
    ensures var parts := Split(content, SEP);
      && content == Head(parts) + (parts[2] + Foot(parts))
      && Offset(parts) == |Lines(Head(parts))|
      && AreParts(parts)
  {
    var parts := Split(content, SEP);
    SplitShape(content);
    JoinAround(parts, 2);
    JoinCons(parts[2], parts[3..], SEP);
    assert parts[2..] == [parts[2]] + parts[3..];
    Regroup(parts[2], SEP, Join(parts[3..], SEP));
    HeadIs(parts);
    LinesCounted(Head(parts));
  }

  lemma HeadIs(parts: seq<string>)
    requires |parts| >= 3
    ensures Head(parts) == Join(parts[..2], SEP) + SEP
  {
    assert parts[..2] == [parts[0]] + [parts[1]];
    assert Before(parts[1..][1..], 0) == "";
    assert Before(parts[1..], 1) == parts[1] + SEP + "";
    Regroup(parts[0] + SEP, parts[1], SEP);
  }

  lemma TasksOfSplit(content: string, parts: seq<string>)
    requires Split(content, SEP) == parts && |parts| >= 4
    ensures TasksOf(content) == TasksIn(Lines(parts[2]), 0, Offset(parts))
  {
  }

  lemma OffsetSame(a: seq<string>, b: seq<string>)
    requires |a| >= 2 && |b| >= 2 && a[..2] == b[..2]
    ensures Offset(a) == Offset(b)
  {
  }

  /** Any text put in the section's place is split off again, and parsed. */
  lemma TasksAround(parts: seq<string>, p: string, foot: string)
    requires AreParts(parts) && |parts| >= 4 && Clean(p) && SEP <= foot
    ensures TasksOf(Head(parts) + (p + foot)) == TasksIn(Lines(p), 0, Offset(parts))
  {
    var rest := foot[3..];
    assert foot == SEP + rest;
    hide Split, TasksIn, TasksOf, Offset, Clean, AreParts, Join, Before;
    Regroup(p, SEP, rest);
    SplitAround(parts, 2, p + foot);
    SplitFirst(p, rest);
    var split := parts[..2] + ([p] + Split(rest, SEP));
    assert split[2] == p && split[..2] == parts[..2];
    TasksOfSplit(Head(parts) + (p + foot), split);
    OffsetSame(parts, split);
  }

  // ------------------------------------------------------- lines of the note

  /** What a line of the middle text is glued to. */
  function Left(a: string, i: nat): string {
    if i == 0 then Lines(a)[|Lines(a)| - 1] else ""
  }

  function Right(p: string, b: string, i: nat): string {
    if i == |Lines(p)| - 1 then Lines(b)[0] else ""
  }

  lemma GlueRight(x: seq<string>, y: seq<string>, j: nat, w: string)
    requires |x| >= 1 && j < |y|
    ensures var n, u := |x| - 1 + j, if j == 0 then x[|x| - 1] else "";
      Glue(x, y)[n] == u + y[j] && Glue(x, y)[n := u + w] == Glue(x, y[j := w])
  {
    assert "" + w == w && "" + y[j] == y[j];
    if j > 0 { assert y[j := w][1..] == y[1..][j - 1 := w]; }
  }

  lemma GlueLeft(x: seq<string>, y: seq<string>, j: nat, w: string, v: string)
    requires j < |x| && |y| >= 1 && (j < |x| - 1 ==> v == "")
    ensures var last := j == |x| - 1;
      && Glue(x, y)[j] == x[j] + (if last then y[0] else "")
      && Glue(x, y)[j := w + v] == Glue(x[j := w], if last then y[0 := v] else y)
  {
    assert w + "" == w;
  }

  /** Line i of the middle of three texts, and the effect of replacing it. */
  lemma LineInside(a: string, p: string, b: string, i: nat, line: string, right: string)
    requires i < |Lines(p)| && IsLine(line) && IsLine(right) && (i < |Lines(p)| - 1 ==> right == "")
    ensures var n, all := |Lines(a)| - 1 + i, Lines(a + (p + b));
      && n < |all| && all[n] == Left(a, i) + (Lines(p)[i] + Right(p, b, i))
      && Join(all[n := Left(a, i) + (line + right)], NL)
         == a + (Join(Lines(p)[i := line], NL) + (if i == |Lines(p)| - 1 then Join(Lines(b)[0 := right], NL) else b))
  {
    var la, ls, lb := Lines(a), Lines(p), Lines(b);
    var last := i == |ls| - 1;
    LinesGlue(p, b);
    LinesGlue(a, p + b);
    GlueLeft(ls, lb, i, line, right);
    GlueRight(la, Glue(ls, lb), i, line + right);
    LinesJoined(p);
    LinesJoined(b);
    var p', b' := Join(ls[i := line], NL), if last then Join(lb[0 := right], NL) else b;
    LinesOfJoin(ls[i := line]);
    LinesOfJoin(lb[0 := right]);
    LinesGlue(p', b');
    LinesGlue(a, p' + b');
    LinesJoined(a + (p' + b'));
  }

  // --------------------------------------------------------- setting a status

  /** Where task k stands: line i of the section. */
  ghost predicate Site(content: string, k: nat, i: nat) {
    var parts := Split(content, SEP);
    && |parts| >= 4 && AreParts(parts) && content == Head(parts) + (parts[2] + Foot(parts))
    && i < |Lines(parts[2])| && ParseLine(Lines(parts[2])[i]).Some?
    && |TasksIn(Lines(parts[2])[..i], 0, Offset(parts))| == k
  }

  lemma TaskSite(content: string, k: nat) returns (i: nat)
    requires k < |TasksOf(content)|
    ensures Site(content, k, i)
    ensures var parts := Split(content, SEP); var parsed := ParseLine(Lines(parts[2])[i]).value;
      TasksOf(content)[k] == Task(parsed.0, parsed.1, k, |Lines(Head(parts))| + i)
  {
    ContentAround(content);
    var parts := Split(content, SEP);
    i := TaskPosition(Lines(parts[2]), 0, Offset(parts), k);
  }

  /** The line number of a task names the line of the note that holds the task's
      line: all of it, or what stands between delimiters on the same line. */
  lemma LineNumberNames(content: string, k: nat) returns (u: string, l: string, v: string)
    requires k < |TasksOf(content)|
    ensures var t, lines := TasksOf(content)[k], Lines(content);
      && t.index == k && 0 < t.lineNumber <= |lines| && lines[t.lineNumber - 1] == u + (l + v)
      && ParseLine(l) == Some((t.text, t.state)) && !Contains(l, SEP)
    ensures v == "" || SEP <= v
    ensures u == "" || (|u| >= 3 && u[|u| - 3..] == SEP)
  {
    var i := TaskSite(content, k);
    var parts := Split(content, SEP);
    hide *;
    SiteIs(content, k, i);
    var a, p, b := Head(parts), parts[2], Foot(parts);
    u, l, v := Left(a, i), Lines(p)[i], Right(p, b, i);
    LinesOfClean(p);
    LeftEnds(parts, i);
    RightEnds(parts, i);
    LineInside(a, p, b, i, l, v);
  }

  lemma SiteIs(content: string, k: nat, i: nat)
    requires Site(content, k, i)
    ensures var parts := Split(content, SEP);
      && |parts| >= 4 && Clean(parts[2]) && content == Head(parts) + (parts[2] + Foot(parts)) && i < |Lines(parts[2])|
  {
    hide Split, Head, Foot, Clean, ParseLine, TasksIn;
  }

  lemma LeftEnds(parts: seq<string>, i: nat)
    requires |parts| >= 3
    ensures var u := Left(Head(parts), i); u == "" || (|u| >= 3 && u[|u| - 3..] == SEP)
  {
    hide Head, Split;
    HeadEnds(parts);
  }

  lemma RightEnds(parts: seq<string>, i: nat)
    requires |parts| >= 4 && i < |Lines(parts[2])|
    ensures var v := Right(parts[2], Foot(parts), i);
      IsLine(v) && (v == "" || SEP <= v) && (i < |Lines(parts[2])| - 1 ==> v == "")
  {
    LinesAreLines(Foot(parts));
    FootStarts(parts);
    hide Foot, Split;
  }

  lemma HeadEnds(parts: seq<string>)
    requires |parts| >= 3
    ensures var last := Lines(Head(parts))[|Lines(Head(parts))| - 1]; |last| >= 3 && last[|last| - 3..] == SEP
  {
    HeadIs(parts);
    var x := Join(parts[..2], SEP);
    LinesOfLine(SEP);
    LinesGlue(x, SEP);
  }

  lemma FootStarts(parts: seq<string>)
    requires |parts| >= 4
    ensures SEP <= Lines(Foot(parts))[0]
  {
    LinesOfLine(SEP);
    LinesGlue(SEP, Join(parts[3..], SEP));
  }

  /** The parts of a regular task line: what it shares its line with, the blanks
      in front of the checkbox, and the text behind it. */
  ghost predicate Anatomy(content: string, k: nat, i: nat, x: string, c: char, r: string, ws: string, y: string, v: string) {
    && Site(content, k, i)
    && var parts := Split(content, SEP);
    && Lines(parts[2])[i] == ws + Box(c) + y && Blank(ws) && IsMark(c)
    && x == Left(Head(parts), i) + ws && r == y + v && v == Right(parts[2], Foot(parts), i)
    && (i < |Lines(parts[2])| - 1 ==> v == "") && (i == |Lines(parts[2])| - 1 ==> SEP <= v)
  }

  ghost predicate StatusSite(content: string, k: nat, i: nat, x: string, c: char, r: string, ws: string, y: string, v: string) {
    && Anatomy(content, k, i, x, c, r, ws, y, v) && AtMostTrailingTag(x, c, r) && k < |TasksOf(content)|
    && IsMark(c) && r == y + v && Blank(ws) && (v == "" || SEP <= v) && Site(content, k, i)
  }

  lemma SameBox(u: string, ws: string, c0: char, y: string, v: string, x: string, c: char, r: string)
    requires u + (ws + Box(c0) + y + v) == x + Box(c) + r && IsMark(c0) && OneBox(x, c, r)
    ensures x == u + ws && c0 == c && r == y + v
  {
    var s := x + Box(c) + r;
    var n := |u| + |ws|;
    assert s == (u + ws) + Box(c0) + (y + v);
    assert s[n + 3] == c0 && BoxAt(s, n);
    assert s[..n] == u + ws && s[..|x|] == x;
    assert s[n + 5..] == y + v && s[|x| + 5..] == r;
  }

  lemma RegularAnatomy(content: string, parts: seq<string>, k: nat, x: string, c: char, r: string)
    returns (i: nat, ws: string, y: string, v: string)
    requires parts == Split(content, SEP) && k < |TasksOf(content)| && 0 < TasksOf(content)[k].lineNumber <= |Lines(content)|
    requires Regular(Lines(content)[TasksOf(content)[k].lineNumber - 1], x, c, r)
    ensures StatusSite(content, k, i, x, c, r, ws, y, v) && |parts| >= 4
    ensures TasksOf(content)[k].lineNumber == |Lines(Head(parts))| + i
  {
    i := TaskSite(content, k);
    var a, p, b := Head(parts), parts[2], Foot(parts);
    v := Right(p, b, i);
    var l := Lines(p)[i];
    var ws0, c0, y0 := TaskLineForm(l);
    ws, y := ws0, y0;
    LinesAreLines(p);
    LinesAreLines(b);
    FootStarts(parts);
    hide TasksOf, TasksIn, ParseLine, Split, Join, Head, Foot, Contains, AreParts, Offset, AtMostTrailingTag, OneBox, Blank;
    LineInside(a, p, b, i, l, v);
    SameBox(Left(a, i), ws, c0, y, v, x, c, r);
  }

  /** What stands behind the checkbox of the rewritten task line, and what then
      shares the line's end. */
  ghost predicate Rewritten(c: char, y: string, v: string, state: Status, today: string, y': string, right: string) {
    && NewRest(c, y + v, state, today) == y' + right
    && (v == "" ==> right == "")
    && (v != "" ==> y' == y && SEP <= right)
  }

  lemma RewriteLine(x: string, c: char, y: string, v: string, state: Status, today: string) returns (y': string, right: string)
    requires IsMark(c) && AtMostTrailingTag(x, c, y + v) && (v == "" || SEP <= v)
    ensures Rewritten(c, y, v, state, today, y', right)
    ensures TrimSpace(Cut(y')) == TrimSpace(Cut(y))
  {
    hide TrimSpace, Cut, NewRest, AtMostTrailingTag;
    if v == "" {
      assert y + v == y;
      y', right := NewRest(c, y, state, today), "";
      NewRestText(x, c, y, state, today);
      assert y' + right == y';
    } else {
      y' := y;
      right := NewRestAround(x, c, y, v, state, today);
    }
  }

  lemma RewrittenPlain(x: string, c: char, y: string, v: string, state: Status, today: string, ws: string, y': string, right: string)
    requires IsMark(c) && Blank(ws) && AtMostTrailingTag(x, c, y + v)
    requires Rewritten(c, y, v, state, today, y', right) && IsLine(today) && !Contains(today, SEP)
    requires IsLine(ws + Box(c) + y) && !Contains(ws + Box(c) + y, SEP) && IsLine(v)
    ensures IsLine(ws + Box(MarkOf(state)) + y') && IsLine(right) && !Contains(ws + Box(MarkOf(state)) + y', SEP)
  {
    BoxedParts(ws, c, y);
    assert IsLine(y + v) && IsMark(MarkOf(state));
    hide NewRest, AtMostTrailingTag, Contains, Blank, Box, IsLine;
    NewRestIsLine(x, c, y + v, state, today);
    if v == "" {
      assert y + v == y && y' + right == y';
      NewRestHasNoSep(x, c, y, state, today);
    }
    LineHalves(y', right);
    BoxedHasNoSep(ws, MarkOf(state), y');
    BoxedIsLine(ws, MarkOf(state), y');
  }

  lemma BoxedIsLine(ws: string, c: char, r: string)
    requires IsLine(ws) && IsMark(c) && IsLine(r)
    ensures IsLine(ws + Box(c) + r)
  {
  }

  lemma LineHalves(a: string, b: string)
    requires IsLine(a + b)
    ensures IsLine(a) && IsLine(b)
  {
    assert forall j :: 0 <= j < |a| ==> (a + b)[j] == a[j];
    assert forall j :: 0 <= j < |b| ==> (a + b)[|a| + j] == b[j];
  }

  /** The section with line i replaced is still one part of the note. */
  lemma SectionClean(p: string, i: nat, line: string, ws: string, c: char, d: char, y: string, last: bool)
    requires Clean(p) && i < |Lines(p)| && IsLine(line) && !Contains(line, SEP) && Lines(p)[i] == ws + Box(c) + y
    requires last <==> i == |Lines(p)| - 1
    requires last ==> line == ws + Box(d) + y
    ensures Clean(Join(Lines(p)[i := line], NL)) && Lines(Join(Lines(p)[i := line], NL)) == Lines(p)[i := line]
  {
    var ls := Lines(p);
    LinesOfClean(p);
    LinesOfJoin(ls[i := line]);
    if last {
      assert ls[i][|ls[i]| - 1] == if y == "" then ']' else y[|y| - 1];
      assert line[|line| - 1] == if y == "" then ']' else y[|y| - 1];
    }
    CleanLines(ls[i := line]);
  }

  lemma FootKept(b: string, right: string)
    requires SEP <= right && IsLine(right)
    ensures SEP <= Join(Lines(b)[0 := right], NL)
  {
    var lb := Lines(b)[0 := right];
    if |lb| > 1 { assert Join(lb, NL) == right + NL + Join(lb[1..], NL); }
  }

  /** With line `at` of the note replaced by `t`, the tasks are those of the section with line i replaced. */
  ghost predicate Reads(content: string, at: int, t: string, parts: seq<string>, i: nat, line: string) {
    && |parts| >= 4 && i < |Lines(parts[2])| && at == |Lines(Head(parts))| - 1 + i && 0 <= at < |Lines(content)|
    && TasksOf(Join(Lines(content)[at := t], NL)) == TasksIn(Lines(parts[2])[i := line], 0, Offset(parts))
  }

  predicate Boxed(line: string, ws: string, c: char, y: string) {
    line == ws + Box(c) + y
  }

  predicate Joins(t: string, left: string, line: string, right: string) {
    t == left + (line + right)
  }

  /** A rewritten task line in its place: what Reassembled needs to know. */
  ghost predicate Fits(content: string, parts: seq<string>, i: nat, line: string, right: string, t: string,
                       ws: string, c: char, d: char, y: string)
  {
    && |parts| >= 4 && AreParts(parts) && content == Head(parts) + (parts[2] + Foot(parts)) && i < |Lines(parts[2])|
    && Clean(parts[2]) && Boxed(Lines(parts[2])[i], ws, c, y)
    && IsLine(line) && IsLine(right) && !Contains(line, SEP) && Joins(t, Left(Head(parts), i), line, right)
    && if i == |Lines(parts[2])| - 1 then SEP <= right && Boxed(line, ws, d, y) else right == ""
  }

  /** The note with one task line replaced, and what shares its end, parsed. */
  lemma Reassembled(content: string, parts: seq<string>, i: nat, line: string, right: string, t: string,
                    ws: string, c: char, d: char, y: string)
    requires Fits(content, parts, i, line, right, t, ws, c, d, y)
    ensures Reads(content, |Lines(Head(parts))| - 1 + i, t, parts, i, line)
  {
    var a, p, b := Head(parts), parts[2], Foot(parts);
    var last := i == |Lines(p)| - 1;
    FootIs(parts);
    assert Lines(p)[i] == ws + Box(c) + y && t == Left(a, i) + (line + right) && (last ==> line == ws + Box(d) + y);
    hide *;
    SectionClean(p, i, line, ws, c, d, y, last);
    LineInside(a, p, b, i, line, right);
    if last { FootKept(b, right); }
    TasksAround(parts, Join(Lines(p)[i := line], NL), if last then Join(Lines(b)[0 := right], NL) else b);
    ReadsIf(content, parts, i, line, t);
  }

  lemma ReadsIf(content: string, parts: seq<string>, i: nat, line: string, t: string)
    requires |parts| >= 4 && i < |Lines(parts[2])| && |Lines(Head(parts))| - 1 + i < |Lines(content)|
    requires TasksOf(Join(Lines(content)[|Lines(Head(parts))| - 1 + i := t], NL)) == TasksIn(Lines(parts[2])[i := line], 0, Offset(parts))
    ensures Reads(content, |Lines(Head(parts))| - 1 + i, t, parts, i, line)
  {
    hide TasksOf, TasksIn, Offset, Split, Join;
  }

  lemma SiteFacts(content: string, parts: seq<string>, k: nat, i: nat, x: string, c: char, r: string, ws: string, y: string, v: string)
    requires Anatomy(content, k, i, x, c, r, ws, y, v) && parts == Split(content, SEP)
    ensures
      && |parts| >= 4 && AreParts(parts) && Clean(parts[2]) && content == Head(parts) + (parts[2] + Foot(parts))
      && i < |Lines(parts[2])| && Boxed(Lines(parts[2])[i], ws, c, y)
  {
    hide Split, Join, Head, Foot, Contains, Offset, TasksIn, ParseLine, Box;
  }

  lemma StatusLine(content: string, parts: seq<string>, k: nat, i: nat, x: string, c: char, r: string, ws: string, y: string, v: string,
                   state: Status, today: string, y': string, right: string) returns (line: string, t: string)
    requires Anatomy(content, k, i, x, c, r, ws, y, v) && AtMostTrailingTag(x, c, y + v) && parts == Split(content, SEP)
    requires Rewritten(c, y, v, state, today, y', right) && IsLine(today) && !Contains(today, SEP)
    ensures Boxed(line, ws, MarkOf(state), y') && Boxed(t, x, MarkOf(state), NewRest(c, r, state, today))
    ensures |parts| >= 4
    ensures var last := i == |Lines(parts[2])| - 1;
      && IsLine(line) && IsLine(right) && !Contains(line, SEP)
      && Joins(t, Left(Head(parts), i), line, right)
      && (if last then SEP <= right && Boxed(line, ws, MarkOf(state), y) else right == "")
  {
    hide TasksOf, TasksIn, ParseLine, Split, Join, Head, Foot, Contains, AtMostTrailingTag, Offset, NewRest, Box, IsLine, Left, AreParts;
    line, t := ws + Box(MarkOf(state)) + y', x + Box(MarkOf(state)) + NewRest(c, r, state, today);
    AnatomyLines(content, k, i, x, c, r, ws, y, v);
    RewrittenPlain(x, c, y, v, state, today, ws, y', right);
    Nested(Left(Head(parts), i), ws, Box(MarkOf(state)), y', right);
  }

  lemma AnatomyLines(content: string, k: nat, i: nat, x: string, c: char, r: string, ws: string, y: string, v: string)
    requires Anatomy(content, k, i, x, c, r, ws, y, v)
    ensures IsLine(v) && IsLine(ws + Box(c) + y) && !Contains(ws + Box(c) + y, SEP) && Clean(Split(content, SEP)[2])
  {
    var parts := Split(content, SEP);
    hide Split, Join, Head, Foot, Contains, Offset, TasksIn, ParseLine, Box;
    LinesOfClean(parts[2]);
    LinesAreLines(Foot(parts));
  }

  lemma FootIs(parts: seq<string>)
    requires |parts| >= 4
    ensures SEP <= Foot(parts)
  {
  }

  lemma Nested(u: string, ws: string, box: string, y: string, right: string)
    ensures (u + ws) + box + (y + right) == u + (ws + box + y + right)
  {
  }

  /** Setting the status of a task whose line has one checkbox and at most a
      trailing completion tag: it is refused exactly when the task's box has that
      status already, and otherwise parsing gives the same tasks, with only the
      status of this one changed. */
  lemma StatusFrame(content: string, k: nat, state: Status, today: string, x: string, c: char, r: string)
    requires k < |TasksOf(content)| && 0 < TasksOf(content)[k].lineNumber <= |Lines(content)|
    requires Regular(Lines(content)[TasksOf(content)[k].lineNumber - 1], x, c, r) && Calendar.IsIsoDate(today)
    ensures var result := WithStatus(content, k, state, today);
      && (result.None? <==> Refused(c, state))
      && (result.Some? ==> TasksOf(result.value) == TasksOf(content)[k := TasksOf(content)[k].(state := state)])
  {
    var at := TasksOf(content)[k].lineNumber - 1;
    var parts := Split(content, SEP);
    hide *;
    SetRegular(Lines(content)[at], x, c, r, state, today);
    WithStatusIs(content, k, state, today, at);
    if !Refused(c, state) {
      var i, ws, y, v := RegularAnatomy(content, parts, k, x, c, r);
      var at', t := StatusRead(content, parts, k, i, x, c, r, ws, y, v, state, today);
      assert at' == at && t == x + Box(MarkOf(state)) + NewRest(c, r, state, today);
    }
  }

  lemma StatusWritten(content: string, parts: seq<string>, k: nat, i: nat, x: string, c: char, r: string, ws: string, y: string, v: string,
                      state: Status, today: string) returns (y': string, line: string, right: string, t: string)
    requires StatusSite(content, k, i, x, c, r, ws, y, v) && Calendar.IsIsoDate(today) && parts == Split(content, SEP)
    ensures TrimSpace(Cut(y')) == TrimSpace(Cut(y))
    ensures Boxed(line, ws, MarkOf(state), y') && Boxed(t, x, MarkOf(state), NewRest(c, r, state, today))
    ensures Fits(content, parts, i, line, right, t, ws, c, MarkOf(state), y)
  {
    assert AtMostTrailingTag(x, c, y + v) && IsMark(c) && (v == "" || SEP <= v);
    IsoDatePlain(today);
    hide StatusSite, Anatomy, Site, Rewritten, Boxed, Joins, TasksOf, TasksIn, Offset, Split, Join, Head, Foot, Clean, AreParts, NewRest,
      AtMostTrailingTag, TrimSpace, Cut, Contains, IsLine, Box, Left;
    y', right := RewriteLine(x, c, y, v, state, today);
    SiteFacts(content, parts, k, i, x, c, r, ws, y, v);
    line, t := StatusLine(content, parts, k, i, x, c, r, ws, y, v, state, today, y', right);
  }

  lemma FitsAt(content: string, parts: seq<string>, i: nat, line: string, right: string, t: string,
               ws: string, c: char, d: char, y: string)
    requires Fits(content, parts, i, line, right, t, ws, c, d, y)
    ensures |parts| >= 4 && i < |Lines(parts[2])| && Boxed(Lines(parts[2])[i], ws, c, y)
  {
    hide AreParts, Head, Foot, Clean, IsLine, Contains, Joins, Boxed, Left;
  }

  lemma StatusRead(content: string, parts: seq<string>, k: nat, i: nat, x: string, c: char, r: string, ws: string, y: string, v: string,
                   state: Status, today: string) returns (at: int, t: string)
    requires StatusSite(content, k, i, x, c, r, ws, y, v) && Calendar.IsIsoDate(today) && parts == Split(content, SEP)
    ensures k < |TasksOf(content)| && |parts| >= 3 && at == |Lines(Head(parts))| - 1 + i && 0 <= at < |Lines(content)|
    ensures t == x + Box(MarkOf(state)) + NewRest(c, r, state, today)
    ensures TasksOf(Join(Lines(content)[at := t], NL)) == TasksOf(content)[k := TasksOf(content)[k].(state := state)]
  {
    hide Anatomy, Site, Rewritten, Fits, Joins, TasksOf, TasksIn, Offset, Split, Join, Head, Foot, Clean, AreParts, NewRest,
      AtMostTrailingTag, TrimSpace, Cut, Contains, IsLine, Box, Left;
    var y', line, right;
    y', line, right, t := StatusWritten(content, parts, k, i, x, c, r, ws, y, v, state, today);
    assert IsMark(c) && IsMark(MarkOf(state)) && StatusOf(MarkOf(state)) == state && Blank(ws) && Site(content, k, i);
    FitsAt(content, parts, i, line, right, t, ws, c, MarkOf(state), y);
    Reassembled(content, parts, i, line, right, t, ws, c, MarkOf(state), y);
    at := |Lines(Head(parts))| - 1 + i;
    assert line == ws + Box(MarkOf(state)) + y' && Lines(parts[2])[i] == ws + Box(c) + y;
    assert Reads(content, at, t, parts, i, line);
    hide *;
    OneTaskChanged(content, k, i, ws, c, y, MarkOf(state), y');
  }

  lemma WithStatusIs(content: string, k: nat, state: Status, today: string, at: nat)
    requires k < |TasksOf(content)| && at == TasksOf(content)[k].lineNumber - 1 && at < |Lines(content)|
    ensures WithStatus(content, k, state, today)
         == var line := SetLine(Lines(content)[at], state, today);
            if line.None? then None else Some(Join(Lines(content)[at := line.value], NL))
  {
  }

  lemma OneStatusChanged(lines: seq<string>, i: nat, line: string, number: int, text: string, was: Status, next: Status)
    requires i < |lines| && ParseLine(lines[i]) == Some((text, was)) && ParseLine(line) == Some((text, next))
    ensures var k, tasks := |TasksIn(lines[..i], 0, number)|, TasksIn(lines, 0, number);
      k < |tasks| && TasksIn(lines[i := line], 0, number) == tasks[k := tasks[k].(state := next)]
  {
    hide *;
    TaskRewritten(lines, i, line, 0, number);
    TaskRewritten(lines, i, lines[i], 0, number);
    assert lines[i := lines[i]] == lines;
  }

  lemma OneTaskChanged(content: string, k: nat, i: nat, ws: string, c: char, y: string, d: char, y': string)
    requires Site(content, k, i) && Blank(ws) && IsMark(c) && IsMark(d) && TrimSpace(Cut(y')) == TrimSpace(Cut(y))
    requires Lines(Split(content, SEP)[2])[i] == ws + Box(c) + y
    ensures var parts := Split(content, SEP);
      && k < |TasksOf(content)|
      && TasksIn(Lines(parts[2])[i := ws + Box(d) + y'], 0, Offset(parts))
         == TasksOf(content)[k := TasksOf(content)[k].(state := StatusOf(d))]
  {
    var parts := Split(content, SEP);
    hide Split, TasksOf, TasksIn, ParseLine, TrimSpace, Cut, Box, Offset, Head, Foot, AreParts, Join, Blank;
    ParseBox(ws, c, y);
    ParseBox(ws, d, y');
    TasksOfSplit(content, parts);
    OneStatusChanged(Lines(parts[2]), i, ws + Box(d) + y', Offset(parts), TrimSpace(Cut(y)), StatusOf(c), StatusOf(d));
  }
}
