/** Turning a task on through its states: a task line stays one that can be turned on
    again (core/stores.go, core/features/tasks.go). */
module TaskCycle {
  import opened Options
  import opened Text
  import opened Trim
  import opened Sections
  import opened TaskLines
  import opened Tasks
  import Calendar
  import NoteEdits

  // --------------------------------------------------- regular lines stay regular

  lemma NoTagInDropped(x: string, c: char, r: string)
    requires IsMark(c) && AtMostTrailingTag(x, c, r)
    ensures !Contains(x + Box(c) + DropTag(r), TAG)
  {
    var front := x + Box(c);
    if !Contains(front + r, TAG) {
      NoTagBehind(front, r);
    } else {
      var t :| r == Tagged(t) && TailOk(front, t);
      DropTaggedAlone(front, t);
      var v := DropSpacesForm(t.text);
      var m := DropSpaces(t.text);
      hide DropTag, DropSpaces, Tagged;
      NoTagInPart(front, m, v, t.blanks);
    }
  }

  lemma NoTagInPart(front: string, m: string, v: string, blanks: string)
    requires !Contains(front + (m + v), TAG) && Blank(blanks)
    ensures !Contains(front + m, TAG) && !Contains(front + (m + blanks), TAG)
  {
    assert front + (m + v) == "" + (front + m) + v;
    if Contains(front + m, TAG) { ContainsWithin(front + (m + v), "", front + m, v, TAG); }
    hide Contains, Blank;
    assert front + (m + blanks) == "" + (front + m) + blanks;
    if Contains(front + (m + blanks), TAG) { TagInside("", front + m, blanks); }
  }

  lemma IsoDateFigures(s: string)
    requires Calendar.IsIsoDate(s)
    ensures |s| == 10 && forall c <- s :: c == '-' || '0' <= c <= '9'
  {
    var d: Calendar.Date :| d.Valid() && 0 <= d.year <= 9999 && Calendar.IsoDate(d) == s;
    Calendar.DigitsPlain(d.year, 4);
    Calendar.DigitsPlain(d.month, 2);
    Calendar.DigitsPlain(d.day, 2);
  }

  /** The tag of a completion day makes no second checkbox. */
  lemma OneBoxCompleted(x: string, r: string, m: string, today: string)
    requires OneBox(x, 'x', r) && m <= r && Calendar.IsIsoDate(today)
    ensures OneBox(x, 'x', m + CompletedOn(today))
  {
    IsoDateFigures(today);
    var tail := CompletedOn(today);
    var s, n := x + Box('x') + r, x + Box('x') + (m + tail);
    var k := |x| + 5 + |m|;
    assert forall i :: 0 <= i < k ==> n[i] == s[i];
    assert forall i :: k <= i < |n| ==> n[i] == tail[i - k];
    OnlyLastBracket(today);
    assert n[|n| - 3] == tail[|tail| - 3] && forall j :: k <= j < |n| && n[j] == ']' ==> j == |n| - 1;
    forall i | BoxAt(n, i) ensures i == |x| {
      assert i + 4 < k;
      assert BoxAt(s, i);
    }
  }

  lemma OnlyLastBracket(today: string)
    requires Calendar.IsIsoDate(today)
    ensures var tail := CompletedOn(today);
      |tail| >= 3 && tail[|tail| - 3] != '[' && forall j :: 0 <= j < |tail| && tail[j] == ']' ==> j == |tail| - 1
  {
    IsoDateFigures(today);
    var front := "  [completion:: ";
    var tail := CompletedOn(today);
    assert tail == front + today + "]";
    assert forall j :: 0 <= j < |front| ==> front[j] != ']';
    assert forall j :: 0 <= j < 10 ==> tail[|front| + j] == today[j] && today[j] in today;
    assert tail[|tail| - 3] == today[8];
  }

  lemma TailCompleted(x: string, r: string, m: string, today: string)
    requires !Contains(x + Box('x') + r, TAG) && Calendar.IsIsoDate(today) && m <= r
    ensures AtMostTrailingTag(x, 'x', m + CompletedOn(today))
  {
    var t := Tail(m + "  ", " " + today, "");
    TaggedDay(m, today);
    IsoDatePlain(today);
    SepInDate(today);
    hide Contains, Tagged, CompletedOn, AtMostTrailingTag;
    assert r == m + r[|m|..];
    NoTagInPart(x + Box('x'), m, r[|m|..], "  ");
    EndsInTag(x, 'x', m + CompletedOn(today), t);
  }

  lemma TaggedDay(m: string, today: string)
    ensures Tagged(Tail(m + "  ", " " + today, "")) == m + CompletedOn(today)
  {
    var front := "  [completion:: ";
    assert front == "  " + TAG + " ";
    assert CompletedOn(today) == front + today + "]";
    assert m + "  " + TAG + (" " + today) + "]" + "" == m + ("  " + TAG + " " + today + "]");
  }

  lemma EndsInTag(x: string, c: char, r: string, t: Tail)
    requires r == Tagged(t) && TailOk(x + Box(c), t)
    ensures AtMostTrailingTag(x, c, r)
  {
  }

  lemma SepInDate(today: string)
    requires !Contains(today, SEP)
    ensures !Contains(" " + today, SEP)
  {
    var s := " " + today;
    assert s[0] == ' ' && s[1..] == today && SEP[0] == '-';
    assert !(SEP <= s);
  }

  /** Unless the tag of a rejected line is left beside a new one, a regular line with its
      status set is regular again. */
  lemma SetStaysRegular(x: string, c: char, r: string, state: Status, today: string)
    requires OneBox(x, c, r) && AtMostTrailingTag(x, c, r) && Calendar.IsIsoDate(today) && (c == '-' ==> state != Completed)
    ensures OneBox(x, MarkOf(state), NewRest(c, r, state, today)) && AtMostTrailingTag(x, MarkOf(state), NewRest(c, r, state, today))
  {
    var d, r1 := MarkOf(state), DropTag(r);
    assert IsMark(c) && IsMark(d);
    OneBoxWithoutTag(x, c, r);
    MarkedAnew(x, c, d, r1);
    NoTagInDropped(x, c, r);
    hide DropTag, OneBox, AtMostTrailingTag, Contains, CompletedOn;
    NoTagAnew(x, c, d, r1);
    if state == Completed {
      var v := DropSpacesForm(r1);
      OneBoxCompleted(x, r1, DropSpaces(r1), today);
      TailCompleted(x, r1, DropSpaces(r1), today);
    } else {
      Untagged(x, d, r1);
    }
  }

  lemma Untagged(x: string, c: char, r: string)
    requires !Contains(x + Box(c) + r, TAG)
    ensures AtMostTrailingTag(x, c, r)
  {
  }

  // ----------------------------------------------------------- turning a task on

  /** The line of the note that a task's line number names. */
  function LineOf(content: string, k: nat): string
    requires k < |TasksOf(content)| && 0 < TasksOf(content)[k].lineNumber <= |Lines(content)|
  {
    Lines(content)[TasksOf(content)[k].lineNumber - 1]
  }

  /** Task k stands on a line with one checkbox and at most a trailing completion tag. */
  ghost predicate RegularTask(content: string, k: int) {
    && 0 <= k < |TasksOf(content)| && 0 < TasksOf(content)[k].lineNumber <= |Lines(content)|
    && exists x, c, r :: Regular(LineOf(content, k), x, c, r)
  }

  /** The box of the line shows the task's state. */
  lemma StateShown(content: string, k: nat, x: string, c: char, r: string)
    requires k < |TasksOf(content)| && 0 < TasksOf(content)[k].lineNumber <= |Lines(content)|
    requires Regular(LineOf(content, k), x, c, r)
    ensures IsMark(c) && TasksOf(content)[k].state == StatusOf(c)
  {
    var parts := Split(content, SEP);
    var i, ws, y, v := RegularAnatomy(content, parts, k, x, c, r);
    BoxShown(content, parts, k, i, x, c, r, ws, y, v);
  }

  lemma BoxShown(content: string, parts: seq<string>, k: nat, i: nat, x: string, c: char, r: string, ws: string, y: string, v: string)
    requires StatusSite(content, k, i, x, c, r, ws, y, v) && parts == Split(content, SEP)
    ensures IsMark(c) && k < |TasksOf(content)| && TasksOf(content)[k].state == StatusOf(c)
  {
    hide TasksOf, TasksIn, ParseLine, Split, Join, Head, Foot, Contains, AreParts, Offset, AtMostTrailingTag, OneBox, Blank, TrimSpace, Cut, Box;
    var ls := Lines(parts[2]);
    assert ls[i] == ws + Box(c) + y && ls[i := ls[i]] == ls;
    OneTaskChanged(content, k, i, ws, c, y, c, y);
    TasksOfSplit(content, parts);
  }

  /** The line rewritten is regular, and the note's other lines are as they were. */
  lemma SetLineOf(content: string, k: nat, state: Status, today: string, x: string, c: char, r: string)
    requires k < |TasksOf(content)| && 0 < TasksOf(content)[k].lineNumber <= |Lines(content)|
    requires Regular(LineOf(content, k), x, c, r) && Calendar.IsIsoDate(today) && !Refused(c, state) && (c == '-' ==> state != Completed)
    ensures var after, at := WithStatus(content, k, state, today), TasksOf(content)[k].lineNumber - 1;
      && after.Some?
      && Lines(after.value) == Lines(content)[at := x + Box(MarkOf(state)) + NewRest(c, r, state, today)]
  {
    var at, line := TasksOf(content)[k].lineNumber - 1, LineOf(content, k);
    IsoDatePlain(today);
    LinesAreLines(content);
    hide TasksOf, SetLine, NewRest, Regular, Split, Join, WithStatus, Contains;
    SetRegular(line, x, c, r, state, today);
    WithStatusIs(content, k, state, today, at);
    NoteEdits.SetLineIsLine(line, state, today);
    LinesOfJoin(Lines(content)[at := SetLine(line, state, today).value]);
  }

  /** A regular task turned on to the state that follows its own: the same tasks with this
      one's state the next, and the task can be turned on again. */
  lemma TurnedOn(content: string, k: nat, next: Status, today: string)
    requires RegularTask(content, k) && Calendar.IsIsoDate(today)
    requires next == match TasksOf(content)[k].state case Pending => Completed case Completed => Rejected case Rejected => Pending
    ensures var after := WithStatus(content, k, next, today);
      && after.Some?
      && TasksOf(after.value) == TasksOf(content)[k := TasksOf(content)[k].(state := next)]
      && RegularTask(after.value, k)
  {
    var x, c, r :| Regular(LineOf(content, k), x, c, r);
    StateShown(content, k, x, c, r);
    assert !Refused(c, next) && (c == '-' ==> next != Completed) && OneBox(x, c, r) && AtMostTrailingTag(x, c, r);
    StatusFrame(content, k, next, today, x, c, r);
    SetLineOf(content, k, next, today, x, c, r);
    SetStaysRegular(x, c, r, next, today);
    hide TasksOf, WithStatus, NewRest, OneBox, AtMostTrailingTag, Split, Box;
    var after := WithStatus(content, k, next, today).value;
    assert Regular(LineOf(after, k), x, MarkOf(next), NewRest(c, r, next, today));
  }

  /** The task went on to its next state, no other task changed, and it can go on. */
  ghost predicate Turned(before: string, k: int, after: string) {
    && RegularTask(before, k) && RegularTask(after, k)
    && var tasks := TasksOf(before);
    && TasksOf(after) == tasks[k := tasks[k].(state := match tasks[k].state case Pending => Completed case Completed => Rejected case Rejected => Pending)]
  }

  /** After three turns every task is as it was. */
  lemma ThreeTurns(a: string, b: string, c: string, d: string, k: int)
    requires Turned(a, k, b) && Turned(b, k, c) && Turned(c, k, d)
    ensures TasksOf(d) == TasksOf(a)
  {
    hide TasksOf, RegularTask;
    TurnedTasks(a, k, b);
    TurnedTasks(b, k, c);
    TurnedTasks(c, k, d);
  }

  lemma TurnedTasks(before: string, k: int, after: string)
    requires Turned(before, k, after)
    ensures 0 <= k < |TasksOf(before)| && |TasksOf(after)| == |TasksOf(before)|
  {
  }

  // ------------------------------------------------------------- spelled out

  /** A text that reads as itself behind a checkbox. */
  ghost predicate PlainText(text: string) {
    TrimSpace(text) == text != "" && !Contains(text, "[completion::") && !Contains(text, "- [")
  }

  lemma NotInside(text: string, k: nat, sub: string)
    requires !Contains(text, sub) && k + |sub| <= |text|
    ensures text[k..k + |sub|] != sub
  {
    if text[k..k + |sub|] == sub { ContainsAt(text, k, sub); }
  }

  lemma BoxIsFirst(c: char, text: string, i: int)
    requires IsMark(c) && !Contains(text, "- [") && BoxAt("" + Box(c) + (" " + text), i)
    ensures i == 0
  {
    var s := "" + Box(c) + (" " + text);
    assert s[0] == '-' && s[1] == ' ' && s[2] == '[' && s[3] == c && s[4] == ']' && s[5] == ' ';
    assert forall j :: 6 <= j < |s| ==> s[j] == text[j - 6];
    if i >= 6 {
      NotInside(text, i - 6, "- [");
    }
  }

  lemma TagIsInText(c: char, text: string)
    requires IsMark(c) && Contains("" + Box(c) + (" " + text), TAG)
    ensures Contains(text, TAG)
  {
    var s := "" + Box(c) + (" " + text);
    var a, b := IndexFirst(s, TAG);
    assert s[0] == '-' && s[1] == ' ' && s[2] == '[' && s[3] == c && s[4] == ']' && s[5] == ' ';
    assert s[|a|] == '[' && s[|a| + 1] == 'c';
    var k := |a| - 6;
    assert text == s[6..];
    assert s[|a|..|a| + |TAG|] == TAG;
    assert text[k..k + |TAG|] == TAG;
    ContainsAt(text, k, TAG);
  }

  lemma PlainLine(c: char, text: string)
    requires IsMark(c) && PlainText(text)
    ensures Regular("- [" + [c] + "] " + text, "", c, " " + text)
    ensures !Contains("" + Box(c) + (" " + text), TAG) && !Contains(" " + text, TAG)
  {
    var s := "" + Box(c) + (" " + text);
    assert "- [" + [c] + "] " + text == s;
    forall i | BoxAt(s, i) ensures i == 0 { BoxIsFirst(c, text, i); }
    if Contains(s, TAG) { TagIsInText(c, text); }
    NoTagBehind("" + Box(c), " " + text);
  }

  /** What the marks mean: a question mark or a blank is pending, an x completed, a dash
      rejected. */
  lemma MarkMeans(c: char, text: string)
    requires IsMark(c) && PlainText(text)
    ensures c in "? " ==> ParseLine("- [" + [c] + "] " + text) == Some((text, Pending))
    ensures c in "xX" ==> ParseLine("- [" + [c] + "] " + text) == Some((text, Completed))
    ensures c == '-' ==> ParseLine("- [" + [c] + "] " + text) == Some((text, Status.Rejected))
  {
    PlainLine(c, text);
    hide PlainText, ParseLine, TrimSpace, Contains, Box;
    PlainMeans(c, text);
    ParseBox("", c, " " + text);
  }

  lemma PlainMeans(c: char, text: string)
    requires PlainText(text) && !Contains(" " + text, TAG)
    ensures TrimSpace(Cut(" " + text)) == text
    ensures "- [" + [c] + "] " + text == "" + Box(c) + (" " + text)
  {
    IndexContains(" " + text, TAG);
    assert Blank(" ");
    TrimBefore(" ", text);
  }

  /** What a status writes on a plain task line that has another: its mark, and behind a
      completed task the day. */
  lemma StatusWrites(c: char, text: string, state: Status, today: string)
    requires IsMark(c) && PlainText(text) && !Refused(c, state)
    ensures var line := SetLine("- [" + [c] + "] " + text, state, today);
      line == Some(match state
                   case Pending => "- [?] " + text
                   case Completed => "- [x] " + text + "  [completion:: " + today + "]"
                   case Rejected => "- [-] " + text)
  {
    PlainLine(c, text);
    NoTagBehind("" + Box(c), " " + text);
    NoBlankEnd(text);
    hide *;
    SetRegular("- [" + [c] + "] " + text, "", c, " " + text, state, today);
    PlainResult(c, text, state, today);
  }

  lemma PlainResult(c: char, text: string, state: Status, today: string)
    requires DropTag(" " + text) == " " + text == DropSpaces(" " + text)
    ensures "" + Box(MarkOf(state)) + NewRest(c, " " + text, state, today)
         == match state
            case Pending => "- [?] " + text
            case Completed => "- [x] " + text + "  [completion:: " + today + "]"
            case Rejected => "- [-] " + text
  {
    hide DropTag, DropSpaces;
    match state
    case Pending => assert "" + Box('?') + (" " + text) == "- [?] " + text;
    case Rejected => assert "" + Box('-') + (" " + text) == "- [-] " + text;
    case Completed => assert "" + Box('x') + (" " + text + ("  [completion:: " + today + "]")) == "- [x] " + text + "  [completion:: " + today + "]";
  }

  lemma NoBlankEnd(text: string)
    requires TrimSpace(text) == text != ""
    ensures DropSpaces(" " + text) == " " + text
  {
    var u, v := TrimForm(text);
    assert (" " + text)[|text|] == text[|text| - 1];
  }
}
