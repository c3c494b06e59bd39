/** Notes on which the editors do not do what one expects of them: the cases the
    exact conditions shut out do occur. */
module SampleNotes {
  import opened Options
  import opened Text
  import opened Sections
  import opened NoteMarkers
  import opened MarkedText
  import opened StatusPrefix
  import opened TaskLines
  import opened Tasks
  import Calendar
  import NoteEdits
  import TaskAdding
  import Trim

  /** A note with this task section, between "---\na\n---" and "---\n". */
  function Note(section: seq<string>): string {
    Join(["", "\na\n", Join(section, NL), "\n"], SEP)
  }

  lemma ShortHasNo(s: string, sub: string)
    requires |s| < |sub|
    ensures !Contains(s, sub)
  {
    if Contains(s, sub) { var u, v := ContainsSplits(s, sub); }
  }

  lemma NoteParts(section: seq<string>)
    requires |section| >= 1 && Sound(section)
    ensures Split(Note(section), SEP) == ["", "\na\n", Join(section, NL), "\n"]
  {
    var parts := ["", "\na\n", Join(section, NL), "\n"];
    SoundJoin(section);
    NoDash("\na\n");
    NoDash("\n");
    assert AreParts(parts);
    SplitOfJoin(parts);
  }

  lemma HeadLines(section: seq<string>)
    ensures var parts := ["", "\na\n", Join(section, NL), "\n"];
      Lines(Head(parts)) == ["---", "a", "---"] && Lines(Foot(parts)) == ["---", ""]
  {
    var parts := ["", "\na\n", Join(section, NL), "\n"];
    var front, last := ["---", "a", "---"], ["---", ""];
    assert parts[1..][1..] == [Join(section, NL), "\n"];
    assert Head(parts) == Join(front, NL) by {
      HeadIs(parts);
      assert parts[..2] == ["", "\na\n"] && parts[..2][1..] == ["\na\n"];
      assert Join(parts[..2], SEP) == "" + SEP + "\na\n";
      assert front[1..] == ["a", "---"] && front[1..][1..] == ["---"];
      assert Join(front, NL) == "---" + NL + ("a" + NL + "---");
    }
    assert Foot(parts) == Join(last, NL) by {
      assert parts[3..] == ["\n"] && last[1..] == [""];
      assert Foot(parts) == SEP + "\n" && Join(last, NL) == "---" + NL + "";
    }
    LinesOfJoin(front);
    LinesOfJoin(last);
  }

  /** The lines of the note, and where its section starts. */
  lemma NoteLines(section: seq<string>)
    requires |section| >= 1 && Sound(section)
    ensures Lines(Note(section)) == Glue(["---", "a", "---"], Glue(section, ["---", ""]))
    ensures TasksOf(Note(section)) == TasksIn(section, 0, 3)
  {
    var parts := ["", "\na\n", Join(section, NL), "\n"];
    NoteParts(section);
    SoundJoin(section);
    ContentAround(Note(section));
    HeadLines(section);
    hide Note, Split, Join, Head, Foot, Sound, Offset, Glue, TasksIn;
    LinesGlue(parts[2], Foot(parts));
    LinesGlue(Head(parts), parts[2] + Foot(parts));
  }

  // ----------------------------------------------------------- the one exception

  /** A line whose tag stands inside what would otherwise read as the prefix. */
  const SPLIT_PREFIX: string := " <!-- notes-bot" + TAG + "]" + ":append:"

  lemma PrefixChars(line: string, u: string, v: string)
    requires line == u + PREFIX + v
    ensures |u| + 14 < |line| && line[|u|] == '<' && line[|u| + 14] == ':'
  {
  }

  lemma TagChars(line: string, u: string, v: string)
    requires line == u + TAG + v
    ensures |u| + 1 < |line| && line[|u|] == '[' && line[|u| + 1] == 'c'
  {
  }

  lemma SplitPrefixChars()
    ensures var line := Box('x') + SPLIT_PREFIX;
      && |line| == 42 && line[20] == '[' && line[21] == 'c'
      && (forall i :: 0 <= i < |line| && i != 2 && i != 20 ==> line[i] != '[')
      && (forall i :: 0 <= i < |line| && i != 6 ==> line[i] != '<')
    ensures var p := Box('?') + " <!-- notes-bot";
      p[3] == '?' && forall i :: 0 <= i < |p| && i != 2 ==> p[i] != '['
  {
  }

  lemma SplitPrefixShape()
    ensures Bare(Box('x') + SPLIT_PREFIX) && OneBox("", 'x', SPLIT_PREFIX) && !Contains(Box('?') + " <!-- notes-bot", TAG)
  {
    var line, p := Box('x') + SPLIT_PREFIX, Box('?') + " <!-- notes-bot";
    assert "" + Box('x') + SPLIT_PREFIX == line;
    SplitPrefixChars();
    if Contains(line, PREFIX) {
      var u, v := ContainsSplits(line, PREFIX);
      PrefixChars(line, u, v);
    }
    if Contains(p, TAG) {
      var u, v := ContainsSplits(p, TAG);
      TagChars(p, u, v);
    }
  }

  /** Without a trailing tag a status can bring the prefix about: taking the tag
      out of "- [x] <!-- notes-bot[completion::]:append:" leaves a line that a
      later scan takes for a marker line. */
  lemma TagRemovalCanExpose(today: string)
    ensures var line := Box('x') + SPLIT_PREFIX;
      Bare(line) && SetLine(line, Pending, today).Some? && !Bare(SetLine(line, Pending, today).value)
  {
    var line, p := Box('x') + SPLIT_PREFIX, Box('?') + " <!-- notes-bot";
    SplitPrefixShape();
    assert "" + Box('x') + SPLIT_PREFIX == line && "" + Box('?') + SPLIT_PREFIX == Box('?') + SPLIT_PREFIX;
    OnlyMark("", 'x', SPLIT_PREFIX);
    SwapBox("", 'x', SPLIT_PREFIX, 'x', 'X', '?');
    TagFirst(p, "]" + ":append:");
    Exposed(p);
  }

  lemma ExposedPieces(p: string)
    requires p == Box('?') + " <!-- notes-bot"
    ensures Box('?') + SPLIT_PREFIX == p + TAG + ("]" + ":append:") && p[|p| - 1] == 't'
    ensures p + ":append:" == (Box('?') + " ") + PREFIX + ""
  {
  }

  lemma Exposed(p: string)
    requires p == Box('?') + " <!-- notes-bot" && Index(p + TAG + ("]" + ":append:"), TAG) == |p|
    ensures !Bare(DropTag(Box('?') + SPLIT_PREFIX))
  {
    var q := "]" + ":append:";
    ExposedPieces(p);
    BracketBehindTag(q);
    ContainsIn(Box('?') + " ", PREFIX, "");
    assert DropSpaces(p) == p;
    hide Contains, Index, DropTag, DropSpaces, Box;
    DropPieces(p + TAG + q, p, TAG, q, "]", ":append:");
  }

  lemma BracketBehindTag(q: string)
    requires q != "" && q[0] == ']'
    ensures Index(TAG + q, "]") == 13
  {
    assert forall i :: 0 <= i < 13 ==> TAG[i] != ']';
    IndexOfChar(TAG + q, ']', 13);
  }

  /** The exposing line in a note of its own. */
  function Exposing(): seq<string> {
    ["", Box('x') + SPLIT_PREFIX, ""]
  }

  lemma ExposingChars()
    ensures var line := Box('x') + SPLIT_PREFIX;
      && (forall i :: 0 <= i < |line| ==> line[i] != '\n')
      && (forall i :: 0 <= i < |line| && i != 0 && i != 8 && i != 9 && i != 16 ==> line[i] != '-')
  {
  }

  lemma ExposingSound()
    ensures Sound(Exposing())
  {
    var line := Box('x') + SPLIT_PREFIX;
    ExposingChars();
    NoThreeDashes(line);
    ShortHasNo("", SEP);
  }

  /** The note's lines, and its one task. */
  lemma ExposingNote()
    ensures Lines(Note(Exposing())) == ["---", "a", "---", Box('x') + SPLIT_PREFIX, "---", ""]
    ensures |TasksOf(Note(Exposing()))| == 1 && TasksOf(Note(Exposing()))[0].lineNumber == 4
  {
    var line, section := Box('x') + SPLIT_PREFIX, Exposing();
    ExposingSound();
    NoteLines(section);
    ParseBox("", 'x', SPLIT_PREFIX);
    assert "" + Box('x') + SPLIT_PREFIX == line;
    hide ParseLine, Note, Lines, TasksOf, TasksIn, Glue, Sound, Box;
    OneTask(line, 3);
    OneLine(line);
  }

  lemma OneTask(line: string, number: int)
    requires ParseLine(line).Some?
    ensures var tasks := TasksIn(["", line, ""], 0, number); |tasks| == 1 && tasks[0].lineNumber == number + 1
  {
    BlankNoTask();
    hide ParseLine;
    var section := ["", line, ""];
    assert section[1..] == [line, ""] && section[1..][1..] == [""] && section[1..][1..][1..] == [];
    assert TasksIn([""], 1, number + 2) == [];
  }

  lemma OneLine(line: string)
    ensures Glue(["---", "a", "---"], Glue(["", line, ""], ["---", ""])) == ["---", "a", "---", line, "---", ""]
  {
    assert "" + "---" == "---" && "---" + "" == "---";
    assert Glue(["", line, ""], ["---", ""]) == ["", line, "---", ""];
  }

  lemma BlankNoTask()
    ensures ParseLine("").None?
  {
    assert Trim.TrimSpace("") == "";
  }

  lemma NoneMatch(line: string)
    requires Bare(line)
    ensures Matching(["---", "a", "---", line, "---", ""], PREFIX) == []
  {
    ShortHasNo("---", PREFIX);
    ShortHasNo("a", PREFIX);
    ShortHasNo("", PREFIX);
    hide Contains;
    MatchingNone(["---", "a", "---", line, "---", ""], PREFIX);
  }

  lemma ExposingBare()
    ensures WellMarked(Note(Exposing()))
  {
    ExposingNote();
    SplitPrefixShape();
    hide Contains, Note, Split, Box, Matching;
    NoneMatch(Box('x') + SPLIT_PREFIX);
  }

  lemma ExposingStatus(today: string)
    requires Calendar.IsIsoDate(today)
    ensures SetLine(Box('x') + SPLIT_PREFIX, Pending, today).Some? && !StaysClear(Box('x') + SPLIT_PREFIX, Pending)
  {
    TagRemovalCanExpose(today);
    hide SetLine, StaysClear, Box;
    SetLineBare(Box('x') + SPLIT_PREFIX, Pending, today);
  }

  /** A whole well-marked note whose marker lines a status changes. */
  lemma StatusCanExpose(today: string)
    requires Calendar.IsIsoDate(today)
    ensures var note := Note(Exposing());
      && WellMarked(note) && WithStatus(note, 0, Pending, today).Some?
      && Marked(WithStatus(note, 0, Pending, today).value) != Marked(note)
  {
    var note := Note(Exposing());
    hide *;
    ExposingBare();
    ExposingNote();
    ExposingStatus(today);
    WithStatusIs(note, 0, Pending, today, 3);
    NoteEdits.StatusKeepsMarkers(note, 0, Pending, today);
  }

  // --------------------------------------------- a section on the delimiter's line

  /** A new task splits the line that the section shares with its delimiter. */
  lemma TaskCanSplit(text: string)
    requires TaskAdding.Plain(text)
    ensures var note := Note(["x", ""]);
      && TaskAdding.WithTask(note, text).Some?
      && !TaskAdding.OneLineMore(Lines(note), Lines(TaskAdding.WithTask(note, text).value), TaskAdding.NewTask(text))
  {
    var section := ["x", ""];
    NoDash("x");
    NoDash("");
    NoteParts(section);
    SoundJoin(section);
    assert section[1..] == [""];
    assert Join(section, NL) == "x" + NL + "";
    NoTaskInX();
    var parts := Split(Note(section), SEP);
    hide Note, TaskAdding.OneLineMore, TaskAdding.WithTask;
    TaskAdding.OtherLinesKept(Note(section), parts, text);
  }

  lemma NoTaskInX()
    ensures TaskAdding.Place(["x", ""]) == 0
  {
    BlankNoTask();
    assert ["x", ""][..1] == ["x"] && ["x"][..0] == [];
    assert ParseLine("x").None? by {
      Trim.TrimOf("", "x", "");
      assert "" + "x" + "" == "x";
    }
    hide ParseLine;
    assert TaskAdding.LastTask(["x"]) == -1;
  }
}
