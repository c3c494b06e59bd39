/** Adding a task to the section, and the imperative forms of the task editors
    (core/features/tasks.go). */
module TaskAdding {
  import opened Options
  import opened Text
  import opened Trim
  import opened Sections
  import opened TaskLines
  import opened Tasks

  function NewTask(text: string): string {
    "- [?] " + text
  }

  /** The position of the last task line, or -1. */
  function LastTask(lines: seq<string>): (k: int)
    ensures -1 <= k < |lines|
  {
    if lines == [] then -1
    else if ParseLine(lines[|lines| - 1]).Some? then |lines| - 1
    else LastTask(lines[..|lines| - 1])
  }

  lemma {:induction false} LastTaskIs(lines: seq<string>)
    ensures var k := LastTask(lines);
      (k >= 0 ==> ParseLine(lines[k]).Some?) && forall i :: k < i < |lines| ==> ParseLine(lines[i]).None?
  {
    hide ParseLine;
    if lines != [] {
      LastTaskIs(lines[..|lines| - 1]);
    }
  }

  /** Where a new task goes: behind the last one, or at the start of the section. */
  function Place(lines: seq<string>): (n: nat)
    requires |lines| >= 1
    ensures n <= |lines|
  {
    if LastTask(lines) >= 0 then LastTask(lines) + 1 else if lines[0] == "" then 1 else 0
  }

  function Inserted(lines: seq<string>, n: nat, line: string): seq<string>
    requires n <= |lines|
  {
    lines[..n] + [line] + lines[n..]
  }

  /** The section with the new task. */
  function NewSection(part: string, text: string): string {
    Join(Inserted(Lines(part), Place(Lines(part)), NewTask(text)), NL)
  }

  /** AddTaskContent; None is its error. */
  function WithTask(content: string, text: string): Option<string> {
    var parts := Split(content, SEP);
    if |parts| < 4 then None else Some(Join(parts[2 := NewSection(parts[2], text)], SEP))
  }

  // ------------------------------------------------------------- the new task

  predicate OneLine(text: string) {
    IsLine(text) && !Contains(text, SEP)
  }

  /** A text that is read back as it was entered. */
  predicate Plain(text: string) {
    Trimmed(text) && OneLine(text) && !Contains(text, TAG)
  }

  lemma NewTaskParsed(text: string)
    requires !Contains(text, TAG)
    ensures ParseLine(NewTask(text)) == Some((TrimSpace(text), Pending))
  {
    hide *;
    NewTaskCut(text);
    NewTaskBox(text);
    TrimBefore(" ", text);
    ParseBox("", '?', " " + text);
    PendingMark();
  }

  lemma NewTaskBox(text: string)
    ensures NewTask(text) == "" + Box('?') + (" " + text) && Blank("") && Blank(" ") && IsMark('?')
  {
  }

  lemma PendingMark()
    ensures StatusOf('?') == Pending
  {
  }

  lemma NewTaskCut(text: string)
    requires !Contains(text, TAG)
    ensures Cut(" " + text) == " " + text
  {
    TagBehindBlanks(" ", text);
    CutNone(" " + text);
  }

  lemma TrimTrimmed(text: string)
    requires Trimmed(text)
    ensures TrimSpace(text) == text
  {
    TrimOf("", text, "");
    hide TrimSpace, Trimmed;
    assert "" + text + "" == text;
  }

  lemma NewTaskPlain(text: string)
    requires OneLine(text)
    ensures IsLine(NewTask(text)) && !Contains(NewTask(text), SEP)
    ensures NewTask(text)[|NewTask(text)| - 1] == if text == "" then ' ' else text[|text| - 1]
  {
    var lead := "- [?] ";
    assert lead[1] == ' ' && lead[2] == '[' && lead[3] == '?' && lead[4] == ']' && lead[5] == ' ';
    NoThreeDashes(lead);
    NoSepAcross(lead, text);
  }

  lemma {:induction false} NoTasks(lines: seq<string>, index: int, number: int)
    requires forall i :: 0 <= i < |lines| ==> ParseLine(lines[i]).None?
    ensures TasksIn(lines, index, number) == []
  {
    hide ParseLine;
    if lines != [] {
      NoTasks(lines[1..], index, number + 1);
    }
  }

  lemma NoneBehind(lines: seq<string>)
    requires |lines| >= 1
    ensures var rest := lines[Place(lines)..]; forall i :: 0 <= i < |rest| ==> ParseLine(rest[i]).None?
  {
    var rest := lines[Place(lines)..];
    assert TrimSpace("") == "" && ParseLine("").None?;
    hide ParseLine;
    LastTaskIs(lines);
    forall i | 0 <= i < |rest| ensures ParseLine(rest[i]).None? {
      assert rest[i] == lines[Place(lines) + i];
    }
  }

  lemma TasksInserted(a: seq<string>, line: string, b: seq<string>, text: string, number: int)
    requires ParseLine(line) == Some((text, Pending)) && forall i :: 0 <= i < |b| ==> ParseLine(b[i]).None?
    ensures TasksIn(a + [line] + b, 0, number) == TasksIn(a + b, 0, number) + [Task(text, Pending, |TasksIn(a + b, 0, number)|, number + |a|)]
  {
    hide ParseLine;
    var before := TasksIn(a, 0, number);
    Regroup(a, [line], b);
    TasksConcat(a, b, 0, number);
    TasksConcat(a, [line] + b, 0, number);
    NoTasks(b, |before|, number + |a|);
    NoTasks(b, |before| + 1, number + |a| + 1);
    assert ([line] + b)[1..] == b;
  }

  lemma PlainParsed(text: string)
    requires Plain(text)
    ensures ParseLine(NewTask(text)) == Some((text, Pending))
  {
    hide ParseLine, NewTask, TrimSpace;
    TrimTrimmed(text);
    NewTaskParsed(text);
  }

  lemma CutAt(lines: seq<string>, n: nat, line: string)
    requires n <= |lines|
    ensures lines == lines[..n] + lines[n..] && Inserted(lines, n, line) == lines[..n] + [line] + lines[n..]
  {
  }

  /** The section's tasks, and then the new one. */
  lemma TasksWithNew(lines: seq<string>, n: nat, line: string, text: string, number: int)
    requires |lines| >= 1 && n == Place(lines) && ParseLine(line) == Some((text, Pending))
    ensures TasksIn(Inserted(lines, n, line), 0, number)
         == TasksIn(lines, 0, number) + [Task(text, Pending, |TasksIn(lines, 0, number)|, number + n)]
  {
    hide *;
    NoneBehind(lines);
    CutAt(lines, n, line);
    TasksInserted(lines[..n], line, lines[n..], text, number);
  }

  predicate EndsLine(part: string) {
    part != "" && part[|part| - 1] == '\n'
  }

  /** The new section is still one part: the task is not put in front of the
      closing delimiter, or does not end in a dash. */
  lemma NewSectionClean(part: string, text: string)
    requires Clean(part) && OneLine(text) && Placeable(part, text)
    ensures Clean(NewSection(part, text))
    ensures Lines(NewSection(part, text)) == Inserted(Lines(part), Place(Lines(part)), NewTask(text))
  {
    var ls, n, line := Lines(part), Place(Lines(part)), NewTask(text);
    SoundClean(part);
    NewTaskSound(part, text);
    hide *;
    InsertedSound(ls, n, line);
    SoundJoin(Inserted(ls, n, line));
  }

  lemma NewTaskSound(part: string, text: string)
    requires OneLine(text) && Placeable(part, text)
    ensures PlainLines([NewTask(text)]) && (Place(Lines(part)) == |Lines(part)| ==> PlainEnd([NewTask(text)]))
  {
    NewTaskPlain(text);
    hide Place, NewTask, Contains;
  }

  lemma InsertedSound(ls: seq<string>, n: nat, line: string)
    requires n <= |ls| && Sound(ls) && PlainLines([line]) && (n == |ls| ==> PlainEnd([line]))
    ensures |Inserted(ls, n, line)| >= 1 && Sound(Inserted(ls, n, line))
  {
    hide Contains, IsLine;
    var all := Inserted(ls, n, line);
    assert [line][0] == line;
    assert forall i :: 0 <= i < |all| ==> all[i] == if i < n then ls[i] else if i == n then line else ls[i - 1];
  }

  lemma NotAtEnd(part: string)
    requires EndsLine(part)
    ensures Place(Lines(part)) < |Lines(part)|
  {
    var ls := Lines(part);
    LinesJoined(part);
    JoinEnd(ls);
    assert IsLine(ls[|ls| - 1]);
    assert ls[|ls| - 1] == "" && |ls| > 1;
    assert TrimSpace("") == "" && ParseLine("").None?;
    LastTaskIs(ls);
  }

  predicate EndsInDash(text: string) {
    text != "" && text[|text| - 1] == '-'
  }

  /** The text does not end in a dash, or does not go directly in front of the
      closing delimiter. */
  predicate Placeable(part: string, text: string) {
    Place(Lines(part)) < |Lines(part)| || !EndsInDash(text)
  }

  /** One more task, behind the others, which stay as they are. */
  predicate OneTaskMore(content: string, after: string, text: string, number: int) {
    TasksOf(after) == TasksOf(content) + [Task(text, Pending, |TasksOf(content)|, number)]
  }

  lemma IsOneMore(content: string, after: string, text: string, number: int)
    requires TasksOf(after) == TasksOf(content) + [Task(text, Pending, |TasksOf(content)|, number)]
    ensures OneTaskMore(content, after, text, number)
  {
  }

  // ------------------------------------------------- a text that ends in dashes

  /** The text without the dashes it ends in. */
  function Stem(text: string): string {
    if EndsInDash(text) then Stem(text[..|text| - 1]) else text
  }

  lemma {:induction false} StemForm(text: string) returns (dashes: string)
    ensures text == Stem(text) + dashes && (forall c <- dashes :: c == '-')
    ensures !EndsInDash(Stem(text)) && (EndsInDash(text) ==> |Stem(text)| < |text|)
  {
    dashes := "";
    if EndsInDash(text) {
      var more := StemForm(text[..|text| - 1]);
      dashes := more + "-";
      Regroup(Stem(text), more, "-");
    }
  }

  lemma StemPlain(text: string)
    requires Plain(text)
    ensures OneLine(Stem(text)) && !Contains(Stem(text), TAG)
  {
    var dashes := StemForm(text);
    var stem := Stem(text);
    hide Stem, Contains;
    assert text == "" + stem + dashes;
    if Contains(stem, SEP) { ContainsWithin(text, "", stem, dashes, SEP); }
    if Contains(stem, TAG) { ContainsWithin(text, "", stem, dashes, TAG); }
    assert forall i :: 0 <= i < |stem| ==> stem[i] == text[i];
  }

  lemma StemPlaceable(part: string, text: string)
    ensures Placeable(part, Stem(text))
  {
    var dashes := StemForm(text);
    hide Place, Stem;
  }

  /** The dashes the text ends in are those the new section ends in. */
  lemma SectionStem(part: string, text: string) returns (dashes: string)
    requires !Placeable(part, text)
    ensures NewSection(part, text) == NewSection(part, Stem(text)) + dashes && forall c <- dashes :: c == '-'
  {
    dashes := StemForm(text);
    var lines := Lines(part);
    hide Place, Stem, Lines;
    assert lines[..|lines|] == lines && lines[|lines|..] == [];
    assert Inserted(lines, |lines|, NewTask(text)) == lines + [NewTask(text)];
    assert Inserted(lines, |lines|, NewTask(Stem(text))) == lines + [NewTask(Stem(text))];
    JoinLast(lines, NewTask(Stem(text)), dashes);
    assert NewTask(text) == NewTask(Stem(text)) + dashes;
  }

  lemma {:induction false} JoinLast(lines: seq<string>, line: string, more: string)
    ensures Join(lines + [line + more], NL) == Join(lines + [line], NL) + more
  {
    if lines != [] {
      assert (lines + [line])[1..] == lines[1..] + [line] && (lines + [line + more])[1..] == lines[1..] + [line + more];
      JoinLast(lines[1..], line, more);
      Regroup(lines[0] + NL, Join(lines[1..] + [line], NL), more);
    }
  }

  lemma DashesInFront(dashes: string, parts: seq<string>)
    requires |parts| >= 4 && forall c <- dashes :: c == '-'
    ensures SEP <= dashes + Foot(parts)
  {
    FootStarts(parts);
    var foot := Foot(parts);
    hide Foot;
    assert forall i :: 0 <= i < |dashes| ==> dashes[i] in dashes;
    assert foot[0] == '-' && foot[1] == '-' && foot[2] == '-';
    var s := dashes + foot;
    assert s[0] == '-' && s[1] == '-' && s[2] == '-';
  }

  lemma TrimShrinks(s: string)
    ensures |TrimSpace(s)| <= |s|
  {
    var u, v := TrimForm(s);
  }

  lemma NotTheText(part: string, content: string, after: string, text: string, number: int)
    requires !Placeable(part, text) && OneTaskMore(content, after, TrimSpace(Stem(text)), number)
    ensures !OneTaskMore(content, after, text, number)
  {
    var dashes := StemForm(text);
    TrimShrinks(Stem(text));
    hide TasksOf, TrimSpace, Stem, Place;
    assert TasksOf(after)[|TasksOf(content)|].text == TrimSpace(Stem(text));
  }

  // ------------------------------------------------------- every text is plain

  /** What is read is plain, so a text that is not is not read back. */
  lemma ParsedIsPlain(line: string)
    requires ParseLine(line).Some? && OneLine(line)
    ensures Plain(ParseLine(line).value.0)
  {
    var ws, c, r := TaskLineForm(line);
    hide *;
    CutStarts(r);
    TrimmedWithin(Cut(r), r, ws + Box(c), line);
  }

  lemma TrimmedWithin(cut: string, r: string, front: string, line: string)
    requires line == front + r && OneLine(line) && cut <= r && !Contains(cut, TAG)
    ensures Plain(TrimSpace(cut))
  {
    var u, v := TrimForm(cut);
    var text := TrimSpace(cut);
    hide TrimSpace, Contains, Trimmed, IsLine;
    var behind := v + r[|cut|..];
    assert line == (front + u) + text + behind;
    WithinPlain(line, front + u, text, behind);
    if Contains(text, TAG) { ContainsWithin(cut, u, text, v, TAG); }
  }

  lemma CutStarts(r: string)
    ensures Cut(r) <= r && !Contains(Cut(r), TAG)
  {
    if Contains(r, TAG) {
      var a, b := IndexFirst(r, TAG);
      assert Cut(r) == a;
    } else {
      CutNone(r);
    }
  }

  lemma WithinPlain(line: string, u: string, text: string, v: string)
    requires OneLine(line) && line == u + text + v
    ensures OneLine(text)
  {
    if Contains(text, SEP) { ContainsWithin(line, u, text, v, SEP); }
    assert forall i :: 0 <= i < |text| ==> text[i] == line[|u| + i];
  }

  lemma TasksArePlain(content: string, k: nat)
    requires k < |TasksOf(content)|
    ensures Plain(TasksOf(content)[k].text)
  {
    var i := TaskSite(content, k);
    var parts := Split(content, SEP);
    hide *;
    SiteIs(content, k, i);
    LinesOfClean(parts[2]);
    SiteParsed(content, k, i);
  }

  lemma SiteParsed(content: string, k: nat, i: nat)
    requires Site(content, k, i) && k < |TasksOf(content)|
    requires var parts := Split(content, SEP); |parts| >= 3 && i < |Lines(parts[2])| && OneLine(Lines(parts[2])[i])
    requires TasksOf(content)[k].text == ParseLine(Lines(Split(content, SEP)[2])[i]).value.0
    ensures Plain(TasksOf(content)[k].text)
  {
    hide Split, TasksOf, ParseLine;
    ParsedIsPlain(Lines(Split(content, SEP)[2])[i]);
  }

  lemma LastIsPlain(content: string, after: string, text: string, number: int)
    requires OneTaskMore(content, after, text, number)
    ensures Plain(text)
  {
    hide TasksOf, Plain;
    TasksArePlain(after, |TasksOf(content)|);
  }

  lemma PartClean(parts: seq<string>)
    requires AreParts(parts) && |parts| >= 4
    ensures Clean(parts[2])
  {
  }

  lemma AddedTaskIn(content: string, parts: seq<string>, text: string)
    requires Plain(text) && parts == Split(content, SEP) && |parts| >= 4 && AreParts(parts) && Placeable(parts[2], text)
    ensures OneTaskMore(content, Join(parts[2 := NewSection(parts[2], text)], SEP), text, Offset(parts) + Place(Lines(parts[2])))
  {
    hide *;
    var p, lines, number := NewSection(parts[2], text), Lines(parts[2]), Offset(parts);
    PartClean(parts);
    PlainParsed(text);
    PlainIsLine(text);
    NewSectionClean(parts[2], text);
    SectionReplaced(content, parts, p);
    TasksWithNew(lines, Place(lines), NewTask(text), text, number);
    IsOneMore(content, Join(parts[2 := p], SEP), text, number + Place(lines));
  }

  lemma PlainIsLine(text: string)
    requires Plain(text)
    ensures OneLine(text)
  {
  }

  lemma SectionReplaced(content: string, parts: seq<string>, p: string)
    requires parts == Split(content, SEP) && |parts| >= 4 && AreParts(parts) && Clean(p)
    ensures TasksOf(content) == TasksIn(Lines(parts[2]), 0, Offset(parts))
    ensures TasksOf(Join(parts[2 := p], SEP)) == TasksIn(Lines(p), 0, Offset(parts))
  {
    hide TasksIn, TasksOf, Offset, AreParts, Clean;
    PartReplaced(parts, 2, p);
    TasksOfSplit(content, parts);
    TasksOfSplit(Join(parts[2 := p], SEP), parts[2 := p]);
    assert parts[2 := p][..2] == parts[..2];
    OffsetSame(parts, parts[2 := p]);
  }

  // -------------------------------------------------------------- the theorems

  /** Otherwise the delimiter is found early, and the text read back without the
      dashes it ends in. */
  lemma AddedTaskCut(content: string, parts: seq<string>, text: string)
    requires Plain(text) && parts == Split(content, SEP) && |parts| >= 4 && !Placeable(parts[2], text)
    ensures WithTask(content, text).Some?
    ensures OneTaskMore(content, WithTask(content, text).value, TrimSpace(Stem(text)), Offset(parts) + Place(Lines(parts[2])))
  {
    hide *;
    var p, q, lines := NewSection(parts[2], text), NewSection(parts[2], Stem(text)), Lines(parts[2]);
    WithTaskIs(content, parts, text);
    SplitShape(content);
    PartClean(parts);
    SectionJoined(parts, p);
    var dashes := SectionStem(parts[2], text);
    Regroup(q, dashes, Foot(parts));
    DashesInFront(dashes, parts);
    StemPlain(text);
    StemPlaceable(parts[2], text);
    NewSectionClean(parts[2], Stem(text));
    TasksAround(parts, q, dashes + Foot(parts));
    TasksOfSplit(content, parts);
    NewTaskParsed(Stem(text));
    TasksWithNew(lines, Place(lines), NewTask(Stem(text)), TrimSpace(Stem(text)), Offset(parts));
    IsOneMore(content, WithTask(content, text).value, TrimSpace(Stem(text)), Offset(parts) + Place(lines));
  }

  /** A text is read back as one more pending task, behind the others, which stay as
      they are, exactly when it is plain and does not end in a dash directly in front
      of the closing delimiter; the note needs three delimiters. */
  lemma AddedTask(content: string, parts: seq<string>, text: string)
    requires parts == Split(content, SEP) && |parts| >= 4
    ensures WithTask(content, text) == Some(Join(parts[2 := NewSection(parts[2], text)], SEP))
    ensures OneTaskMore(content, WithTask(content, text).value, text, Offset(parts) + Place(Lines(parts[2])))
       <==> Plain(text) && Placeable(parts[2], text)
  {
    hide *;
    SplitShape(content);
    WithTaskIs(content, parts, text);
    var after, number := WithTask(content, text).value, Offset(parts) + Place(Lines(parts[2]));
    if OneTaskMore(content, after, text, number) {
      LastIsPlain(content, after, text, number);
    }
    if Plain(text) {
      if Placeable(parts[2], text) {
        AddedTaskIn(content, parts, text);
      } else {
        AddedTaskCut(content, parts, text);
        NotTheText(parts[2], content, after, text, number);
      }
    }
  }

  lemma GlueInsertedLeft(x: seq<string>, y: seq<string>, n: nat, line: string)
    requires n < |x| && |y| >= 1
    ensures Glue(Inserted(x, n, line), y) == Inserted(Glue(x, y), n, line)
  {
    var g, m, x' := Glue(x, y), |x| - 1, Inserted(x, n, line);
    assert x'[..|x|] == x[..n] + [line] + x[n..m];
    assert g[..n] == x[..n] && g[n..] == x[n..m] + [x[m] + y[0]] + y[1..];
  }

  lemma GlueInsertedRight(x: seq<string>, y: seq<string>, n: nat, line: string)
    requires |x| >= 1 && 0 < n <= |y|
    ensures Glue(x, Inserted(y, n, line)) == Inserted(Glue(x, y), |x| - 1 + n, line)
  {
    var g, m, y' := Glue(x, y), |x| - 1, Inserted(y, n, line);
    assert y'[0] == y[0] && y'[1..] == y[1..n] + [line] + y[n..];
    assert g[..m + n] == x[..m] + [x[m] + y[0]] + y[1..n] && g[m + n..] == y[n..];
  }

  /** In a section of whole lines that starts with an empty line or holds a task,
      the note gains one line and keeps all others, in order. */
  lemma AddedLine(content: string, parts: seq<string>, text: string)
    requires parts == Split(content, SEP) && Plain(text) && |parts| >= 4 && EndsLine(parts[2]) && Place(Lines(parts[2])) > 0
    ensures var n := |Lines(Head(parts))| - 1 + Place(Lines(parts[2]));
      && WithTask(content, text).Some? && n <= |Lines(content)|
      && Lines(WithTask(content, text).value) == Inserted(Lines(content), n, NewTask(text))
  {
    hide *;
    WithTaskIs(content, parts, text);
    SectionIsClean(content, parts);
    SectionInserted(parts, text);
  }

  lemma SectionInserted(parts: seq<string>, text: string)
    requires |parts| >= 4 && Clean(parts[2]) && Plain(text) && EndsLine(parts[2]) && Place(Lines(parts[2])) > 0
    ensures var p, n := parts[2], |Lines(Head(parts))| - 1 + Place(Lines(parts[2]));
      var all := Lines(Head(parts) + (p + Foot(parts)));
      n <= |all| && Lines(Join(parts[2 := NewSection(p, text)], SEP)) == Inserted(all, n, NewTask(text))
  {
    var p, p' := parts[2], NewSection(parts[2], text);
    hide *;
    EndsPlaceable(p, text);
    NotAtEnd(p);
    PlainIsLine(text);
    NewSectionClean(p, text);
    SectionJoined(parts, p');
    LinesInserted(Head(parts), p, p', Foot(parts), Place(Lines(p)), NewTask(text));
  }

  lemma EndsPlaceable(part: string, text: string)
    requires EndsLine(part)
    ensures Placeable(part, text)
  {
    NotAtEnd(part);
  }

  lemma WithTaskIs(content: string, parts: seq<string>, text: string)
    requires parts == Split(content, SEP) && |parts| >= 4
    ensures WithTask(content, text) == Some(Join(parts[2 := NewSection(parts[2], text)], SEP))
  {
    hide Split, Join, NewSection;
  }

  lemma SectionIsClean(content: string, parts: seq<string>)
    requires parts == Split(content, SEP) && |parts| >= 4
    ensures content == Head(parts) + (parts[2] + Foot(parts)) && Clean(parts[2])
  {
    hide Split, Head, Foot;
    ContentAround(content);
  }

  lemma LinesInserted(a: string, p: string, p': string, b: string, n: nat, line: string)
    requires 0 < n < |Lines(p)| && Lines(p') == Inserted(Lines(p), n, line)
    ensures var at := |Lines(a)| - 1 + n;
      at <= |Lines(a + (p + b))| && Lines(a + (p' + b)) == Inserted(Lines(a + (p + b)), at, line)
  {
    hide Inserted, Split;
    LinesGlue(p, b);
    LinesGlue(a, p + b);
    LinesGlue(p', b);
    LinesGlue(a, p' + b);
    GlueInsertedLeft(Lines(p), Lines(b), n, line);
    GlueInsertedRight(Lines(a), Glue(Lines(p), Lines(b)), n, line);
  }

  /** The note with another section text. */
  lemma SectionJoined(parts: seq<string>, p: string)
    requires |parts| >= 4
    ensures Join(parts[2 := p], SEP) == Head(parts) + (p + Foot(parts))
  {
    var other := parts[2 := p];
    JoinAround(other, 2);
    JoinCons(p, parts[3..], SEP);
    assert other[2..] == [p] + parts[3..];
    assert other[..2] == parts[..2];
    BeforeSame(parts, other, 2);
    Regroup(p, SEP, Join(parts[3..], SEP));
  }

  /** `after` is `before` with one more line. */
  ghost predicate OneLineMore(before: seq<string>, after: seq<string>, line: string) {
    exists n :: 0 <= n <= |before| && after == Inserted(before, n, line)
  }

  /** All other lines are kept exactly when the section holds a task or starts on a
      fresh line. Otherwise the task is put between the opening delimiter and the
      text on the delimiter's own line, which splits that line in two. */
  lemma OtherLinesKept(content: string, parts: seq<string>, text: string)
    requires parts == Split(content, SEP) && Plain(text) && |parts| >= 4 && EndsLine(parts[2])
    ensures WithTask(content, text).Some?
    ensures OneLineMore(Lines(content), Lines(WithTask(content, text).value), NewTask(text)) <==> Place(Lines(parts[2])) > 0
  {
    WithTaskIs(content, parts, text);
    hide WithTask, Split;
    if Place(Lines(parts[2])) > 0 {
      AddedLine(content, parts, text);
    } else {
      FrontLineSplit(content, parts, text);
    }
  }

  lemma FrontLineSplit(content: string, parts: seq<string>, text: string)
    requires parts == Split(content, SEP) && Plain(text) && |parts| >= 4 && EndsLine(parts[2]) && Place(Lines(parts[2])) == 0
    ensures WithTask(content, text).Some?
    ensures !OneLineMore(Lines(content), Lines(WithTask(content, text).value), NewTask(text))
  {
    var p, p', head := parts[2], NewSection(parts[2], text), Lines(Head(parts));
    hide *;
    WithTaskIs(content, parts, text);
    EndsPlaceable(p, text);
    SectionIsClean(content, parts);
    PlainIsLine(text);
    NewSectionClean(p, text);
    SectionJoined(parts, p');
    HeadEnds(parts);
    FirstIsNoTask(p, text);
    InFront(Lines(p), NewTask(text));
    LinesInFront(Head(parts), p, p', Foot(parts), NewTask(text));
    NotInserted(head[..|head| - 1], head[|head| - 1], Lines(p)[0], NewTask(text), Glue(Lines(p), Lines(Foot(parts)))[1..]);
  }

  lemma InFront(lines: seq<string>, line: string)
    ensures Inserted(lines, 0, line) == [line] + lines
  {
  }

  lemma FirstIsNoTask(part: string, text: string)
    requires EndsLine(part) && Place(Lines(part)) == 0 && Plain(text)
    ensures |Lines(part)| > 1 && Lines(part)[0] != NewTask(text)
  {
    PlainParsed(text);
    NotAtEnd(part);
    LinesJoined(part);
    LastTaskIs(Lines(part));
    hide ParseLine, NewTask;
  }

  lemma LinesInFront(a: string, p: string, p': string, b: string, line: string)
    requires |Lines(p)| > 1 && Lines(p') == [line] + Lines(p)
    ensures var x, rest := Lines(a), Glue(Lines(p), Lines(b))[1..];
      var m := |x| - 1;
      && Lines(a + (p + b)) == x[..m] + [x[m] + Lines(p)[0]] + rest
      && Lines(a + (p' + b)) == x[..m] + [x[m] + line] + [Lines(p)[0]] + rest
  {
    hide Split;
    LinesGlue(p, b);
    LinesGlue(a, p + b);
    LinesGlue(p', b);
    LinesGlue(a, p' + b);
    var g := Glue(Lines(p), Lines(b));
    assert g[0] == Lines(p)[0] && g == [g[0]] + g[1..];
    assert Glue([line] + Lines(p), Lines(b)) == [line] + g;
  }

  lemma SameRemainder(common: multiset<string>, a: multiset<string>, b: multiset<string>)
    requires common + a == common + b
    ensures a == b
  {
    assert a == common + a - common && b == common + b - common;
  }

  lemma OtherPair(a: string, b: string, c: string, d: string)
    requires c != a && c != b
    ensures multiset{a, b} != multiset{c, d}
  {
    assert c in multiset{c, d} && c !in multiset{a, b};
  }

  lemma InsertedAdds(lines: seq<string>, n: nat, line: string)
    requires n <= |lines|
    ensures multiset(Inserted(lines, n, line)) == multiset(lines) + multiset{line}
  {
    assert lines == lines[..n] + lines[n..];
  }

  lemma NotInserted(front: seq<string>, last: string, first: string, line: string, rest: seq<string>)
    requires last != "" && line != first
    ensures !OneLineMore(front + [last + first] + rest, front + [last + line] + [first] + rest, line)
  {
    var before, after := front + [last + first] + rest, front + [last + line] + [first] + rest;
    if n :| 0 <= n <= |before| && after == Inserted(before, n, line) {
      var joined, started, common := last + first, last + line, multiset(front) + multiset(rest);
      assert |joined| > |first| && joined[|last|..] == first && started[|last|..] == line;
      OtherPair(started, first, joined, line);
      InsertedAdds(before, n, line);
      assert multiset(after) == common + multiset{started, first};
      assert multiset(before) == common + multiset{joined};
      assert common + multiset{joined} + multiset{line} == common + multiset{joined, line};
      SameRemainder(common, multiset{started, first}, multiset{joined, line});
    }
  }

  // -------------------------------------------------------------- the methods

  /** ParseTasks computes `TasksOf`. */
  method ParseTasks(content: string) returns (tasks: seq<Task>)
    ensures tasks == TasksOf(content)
  {
    tasks := [];
    var parts := Split(content, SEP);
    if |parts| < 4 { return; }
    var lines, lineOffset := Lines(parts[2]), Newlines(Join(parts[..2], SEP) + SEP) + 1;
    hide ParseLine;
    for i := 0 to |lines|
      invariant tasks == TasksIn(lines[..i], 0, lineOffset)
    {
      assert lines[..i + 1] == lines[..i] + [lines[i]];
      TasksConcat(lines[..i], [lines[i]], 0, lineOffset);
      var parsed := ParseLine(lines[i]);
      if parsed.None? { continue; }
      tasks := tasks + [Task(parsed.value.0, parsed.value.1, |tasks|, lineOffset + i)];
    }
    assert lines[..|lines|] == lines;
  }

  /** SetTaskStatusContent computes `WithStatus`. */
  method SetTaskStatusContent(content: string, taskIndex: int, newState: Status, today: string) returns (updated: Option<string>)
    ensures updated == WithStatus(content, taskIndex, newState, today)
  {
    var tasks := ParseTasks(content);
    if taskIndex < 0 || taskIndex >= |tasks| { return None; }
    var lineIdx, lines := tasks[taskIndex].lineNumber - 1, Lines(content);
    if lineIdx < 0 || lineIdx >= |lines| { return None; }
    hide SetLine, TasksOf;
    var newLine := SetLine(lines[lineIdx], newState, today);
    if newLine.None? { return None; }
    lines := lines[lineIdx := newLine.value];
    updated := Some(Join(lines, NL));
  }

  lemma LastTaskSnoc(lines: seq<string>, line: string)
    ensures LastTask(lines + [line]) == if ParseLine(line).Some? then |lines| else LastTask(lines)
  {
    hide ParseLine;
    assert (lines + [line])[..|lines|] == lines;
  }

  /** AddTaskContent computes `WithTask`. */
  method AddTaskContent(content: string, taskText: string) returns (updated: Option<string>)
    ensures updated == WithTask(content, taskText)
  {
    var parts := Split(content, SEP);
    if |parts| < 4 { return None; }
    var lines := Lines(parts[2]);
    var newLines := InsertTask(lines, NewTask(taskText));
    updated := Some(Join(parts[2 := Join(newLines, NL)], SEP));
    assert Join(newLines, NL) == NewSection(parts[2], taskText);
    WithTaskIs(content, parts, taskText);
  }

  /** The new line behind the last task, or at the start of the section. */
  method InsertTask(lines: seq<string>, newTask: string) returns (out: seq<string>)
    requires |lines| >= 1
    ensures out == Inserted(lines, Place(lines), newTask)
  {
    hide ParseLine;
    var lastTaskIdx := -1;
    for i := 0 to |lines|
      invariant lastTaskIdx == LastTask(lines[..i])
    {
      assert lines[..i + 1] == lines[..i] + [lines[i]];
      LastTaskSnoc(lines[..i], lines[i]);
      if ParseLine(lines[i]).Some? {
        lastTaskIdx := i;
      }
    }
    assert lines[..|lines|] == lines;
    if lastTaskIdx >= 0 {
      out := lines[..lastTaskIdx + 1] + ([newTask] + lines[lastTaskIdx + 1..]);
    } else if lines[0] == "" {
      out := [lines[0], newTask] + lines[1..];
    } else {
      out := [newTask] + lines;
    }
  }
}
