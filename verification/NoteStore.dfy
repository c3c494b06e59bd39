/** The note store: every operation that rewrites a note, as a method on the files
    it changes (core/stores.go, core/append_once.go, core/append_path_once.go). */
module NoteStore {
  import opened Options
  import opened Text
  import opened NoteMarkers
  import opened MarkedText
  import opened NoteVault
  import opened StatusPrefix
  import opened TaskLines
  import Calendar
  import NoteEdits
  import NoteLocks
  import Rating
  import TaskAdding
  import TaskCycle
  import Tasks
  import Trim

  // ------------------------------------------------------------ operations

  /** An operation other than a keyed append by date, with its arguments. */
  datatype Edit =
    | Ensure(date: string)
    | Append(date: string, text: string)
    | AppendTo(file: File, text: string)
    // an unkeyed append whose second write failed
    | Stopped(file: File)
    | AppendToOnce(file: File, path: string, text: string, op: string)
    | Rate(date: string, rating: Trim.Int64)
    | SetStatus(date: string, index: int, state: Status, today: string)
    | Toggle(date: string, index: int, today: string)
    | AddTask(date: string, text: string)

  /** ToggleTask's cycle. */
  function NextStatus(state: Status): Status {
    match state
    case Pending => Completed
    case Completed => Status.Rejected
    case Rejected => Pending
  }

  function Toggled(content: string, index: int, today: string): Option<string> {
    var tasks := Tasks.TasksOf(content);
    if 0 <= index < |tasks| then Tasks.WithStatus(content, index, NextStatus(tasks[index].state), today) else None
  }

  /** What replaces the content of an existing note; None leaves it. */
  function Change(e: Edit, content: string): Option<string> {
    match e
    case Ensure(_) => None
    case Append(_, text) => Some(AppendBlock(content, text))
    case AppendTo(_, text) => Some(AppendBlock(content, text))
    case Stopped(_) => Some(Ended(content))
    case AppendToOnce(_, path, text, op) =>
      if Hits(content, op) == [] then Some(AppendBlock(content, KeyedBlock(op, path, text))) else None
    case Rate(_, rating) => Rating.Updated(content, rating)
    case SetStatus(_, index, state, today) => Tasks.WithStatus(content, index, state, today)
    case Toggle(_, index, today) => Toggled(content, index, today)
    case AddTask(_, text) => TaskAdding.WithTask(content, text)
  }

  function Target(e: Edit): File {
    if e.AppendTo? || e.Stopped? || e.AppendToOnce? then e.file else Daily(e.date)
  }

  /** The operation refuses its arguments before it looks at the note. */
  predicate Refuses(e: Edit) {
    e.AppendToOnce? && (!ValidOperation(e.op) || Contains(e.text, PREFIX))
  }

  function Made(files: Files, template: Template, e: Edit): Files {
    if (e.Ensure? || e.Append?) && Target(e) !in files then files[Target(e) := template(e.date)] else files
  }

  /** The files after the operation; a missing daily note is made first by the
      operations that append. */
  function After(files: Files, template: Template, e: Edit): Files {
    var f, made := Target(e), Made(files, template, e);
    if Refuses(e) || f !in made then files
    else
      var content := Change(e, made[f]);
      if content.Some? then made[f := content.value] else made
  }

  /** The operation finds its note and changes it. */
  predicate Accepts(files: Files, e: Edit) {
    Target(e) in files && Change(e, files[Target(e)]).Some?
  }

  /** A regular task toggled goes on to its next state. */
  lemma ToggleTurns(files: Files, date: string, index: int, today: string)
    ensures var f := Daily(date);
      f in files && TaskCycle.RegularTask(files[f], index) && Calendar.IsIsoDate(today) ==>
        Toggled(files[f], index, today).Some? && TaskCycle.Turned(files[f], index, Toggled(files[f], index, today).value)
  {
    var f := Daily(date);
    if f in files && TaskCycle.RegularTask(files[f], index) && Calendar.IsIsoDate(today) {
      TaskCycle.TurnedOn(files[f], index, NextStatus(Tasks.TasksOf(files[f])[index].state), today);
      hide Tasks.TasksOf, Tasks.WithStatus;
    }
  }

  /** Toggled three times, a regular task and all others are as they were. */
  lemma ThreeToggles(content: string, index: int, day1: string, day2: string, day3: string)
    requires TaskCycle.RegularTask(content, index)
    requires Calendar.IsIsoDate(day1) && Calendar.IsIsoDate(day2) && Calendar.IsIsoDate(day3)
    ensures var once := Toggled(content, index, day1);
      && once.Some?
      && var twice := Toggled(once.value, index, day2);
      && twice.Some?
      && var thrice := Toggled(twice.value, index, day3);
      && thrice.Some? && Tasks.TasksOf(thrice.value) == Tasks.TasksOf(content)
  {
    hide TaskCycle.RegularTask, Toggled, Tasks.TasksOf, Calendar.IsIsoDate;
    var a := Turn(content, index, day1);
    var b := Turn(a, index, day2);
    var c := Turn(b, index, day3);
    TaskCycle.ThreeTurns(content, a, b, c, index);
  }

  lemma Turn(content: string, index: int, today: string) returns (after: string)
    requires TaskCycle.RegularTask(content, index) && Calendar.IsIsoDate(today)
    ensures Toggled(content, index, today) == Some(after) && TaskCycle.Turned(content, index, after) && TaskCycle.RegularTask(after, index)
  {
    hide TaskCycle.RegularTask, Toggled;
    ToggleTurns(map[Daily("") := content], "", index, today);
    after := Toggled(content, index, today).value;
  }

  // -------------------------------------------------------------- the class

  /** A line that mentions the key is among the matching ones, behind those before it. */
  lemma MatchingAt(lines: seq<string>, i: nat, key: string)
    requires i < |lines| && Contains(lines[i], key)
    ensures var p, all := Matching(lines[..i], key), Matching(lines, key);
            |p| < |all| && all[|p|] == lines[i] && all[..|p|] == p
    ensures Matching([lines[i]], key) == [lines[i]]
  {
    hide Contains;
    MatchingConcat(lines[..i], lines[i..], key);
    MatchingConcat([lines[i]], lines[i + 1..], key);
    assert lines == lines[..i] + lines[i..] && lines[i..] == [lines[i]] + lines[i + 1..];
    assert Matching([lines[i]], key) == [lines[i]];
  }

  lemma MatchingStep(lines: seq<string>, i: nat, key: string)
    requires i < |lines|
    ensures Matching(lines[..i + 1], key) == Matching(lines[..i], key) + if Contains(lines[i], key) then [lines[i]] else []
  {
    hide Contains;
    assert lines[..i + 1] == lines[..i] + [lines[i]];
    MatchingConcat(lines[..i], [lines[i]], key);
    assert Matching([lines[i]], key) == if Contains(lines[i], key) then [lines[i]] else [];
  }

  lemma NothingMatched(lines: seq<string>, key: string)
    ensures Matching(lines[..0], key) == []
  {
    assert lines[..0] == [];
  }

  class Store {
    var files: Files
    const template: Template

    constructor (template: Template)
      ensures files == map[] && this.template == template
    {
      files, this.template := map[], template;
    }

    /** createFromTemplate: the template is read and the note put in place in one step.
        It may fail before that, or behind it. */
    method CreateFromTemplate(date: string) returns (ok: bool)
      modifies this`files
      ensures ok ==> files == old(files)[Daily(date) := template(date)]
      ensures files == old(files) || files == old(files)[Daily(date) := template(date)]
    {
      var read: bool := *;
      if !read { return false; }
      var placed: bool := *;
      if !placed { return false; }
      files := files[Daily(date) := template(date)];
      ok := *;
    }

    method EnsureNote(date: string) returns (ok: bool)
      modifies this`files
      ensures ok ==> files == After(old(files), template, Ensure(date))
      ensures files == old(files) || files == After(old(files), template, Ensure(date))
      ensures Daily(date) in old(files) ==> ok
      ensures After(old(files), template, Ensure(date))
           == if Daily(date) in old(files) then old(files) else old(files)[Daily(date) := template(date)]
    {
      if Daily(date) in files { return true; }
      ok := CreateFromTemplate(date);
    }

    method WriteString(f: File, s: string) returns (ok: bool)
      requires f in files
      modifies this`files
      ensures files == if ok then old(files)[f := old(files)[f] + s] else old(files)
    {
      ok := *;
      if ok { files := files[f := files[f] + s]; }
    }

    /** appendToFile: two writes, of a newline when the last line is unfinished and of
        the text; either may fail. */
    method AppendToFile(f: File, text: string) returns (ok: bool)
      requires f in files
      modifies this`files
      ensures ok ==> files == old(files)[f := AppendBlock(old(files)[f], text)]
      ensures !ok ==> files == old(files) || files == old(files)[f := Ended(old(files)[f])]
    {
      if NeedsNewline(files[f]) {
        ok := WriteString(f, NL);
        if !ok { return; }
      }
      ghost var begun := files[f];
      ok := WriteString(f, text + NL);
      Regroup(begun, text, NL);
      assert old(files)[f] + "" == old(files)[f];
    }

    /** The same content written in one step, as the keyed appends do. */
    method ExtendNote(f: File, block: string)
      requires f in files
      modifies this`files
      ensures files == old(files)[f := AppendBlock(old(files)[f], block)]
    {
      var content := files[f];
      assert content + "" == content;
      if |content| > 0 && content[|content| - 1] != '\n' {
        content := content + NL;
      }
      files := files[f := content + block + NL];
    }

    /** When it fails the note is missing still, or made, or its last line is ended. */
    method AppendToNote(date: string, text: string) returns (ok: bool)
      modifies this`files
      ensures ok ==> files == After(old(files), template, Append(date, text))
      ensures var made := After(old(files), template, Ensure(date));
        !ok ==> files == old(files) || files == made || files == After(made, template, Stopped(Daily(date)))
    {
      ok := EnsureNote(date);
      if !ok { return; }
      ghost var made := files;
      ok := AppendToFile(Daily(date), text);
      assert Change(Append(date, text), made[Daily(date)]) == Some(AppendBlock(made[Daily(date)], text));
    }

    method AppendByPath(file: File, text: string) returns (ok: bool)
      modifies this`files
      ensures ok ==> file in old(files) && files == After(old(files), template, AppendTo(file, text))
      ensures !ok ==> files == old(files) || files == After(old(files), template, Stopped(file))
    {
      if file !in files { return false; }
      ok := AppendToFile(file, text);
    }

    /** The lines of one note that mention the key: whether they allow the append,
        and whether the marker is there. */
    method ScanNote(content: string, key: string, marker: string, isTarget: bool, before: bool) returns (conflict: bool, found: bool)
      ensures var hits := Matching(Lines(content), key);
        && (conflict <==> !(hits == [] || (hits == [marker] && isTarget && !before)))
        && (!conflict ==> found == (before || hits != []))
    {
      var lines := Lines(content);
      hide Matching, Contains, Split;
      NothingMatched(lines, key);
      conflict, found := false, before;
      for i := 0 to |lines|
        invariant !conflict && Matching(lines[..i], key) == if found && !before then [marker] else []
        invariant before ==> found
        invariant found && !before ==> isTarget
      {
        MatchingStep(lines, i, key);
        if !Contains(lines[i], key) { continue; }
        MatchingAt(lines, i, key);
        if !isTarget || lines[i] != marker || found {
          conflict := true;
          return;
        }
        found := true;
      }
      assert lines[..|lines|] == lines;
    }

    /** The directory listing, in some order. */
    method ReadDir() returns (entries: seq<File>)
      ensures NoteLocks.Lists(files, entries)
    {
      entries := [];
      var rest := files.Keys;
      while rest != {}
        invariant rest <= files.Keys
        invariant forall f :: f in entries <==> f in files && f !in rest && f.Daily?
        invariant forall i, j :: 0 <= i < j < |entries| ==> entries[i] != entries[j]
        decreases rest
      {
        var f := AnyFile(rest);
        rest := rest - {f};
        if f.Daily? { entries := entries + [f]; }
      }
    }

    method FindAppendOperation(target: File, op: string, marker: string) returns (conflict: bool, found: bool)
      requires target.Daily?
      ensures conflict <==> !OnlyMarker(files, op, target, marker)
      ensures !conflict ==> found == (target in files && Hits(files[target], op) == [marker])
    {
      hide Matching, KeyPrefix;
      var entries := ReadDir();
      conflict, found := false, false;
      for i := 0 to |entries|
        invariant !conflict
        invariant forall k :: 0 <= k < i ==> Hits(files[entries[k]], op) == [] || (entries[k] == target && Hits(files[target], op) == [marker])
        invariant found <==> exists k :: 0 <= k < i && entries[k] == target && Hits(files[target], op) == [marker]
      {
        var f := entries[i];
        ghost var before := found;
        conflict, found := ScanNote(files[f], KeyPrefix(op), marker, f == target, found);
        if conflict {
          assert !(Hits(files[f], op) == [] || (Hits(files[f], op) == [marker] && f == target));
          return;
        }
      }
    }

    /** AppendToNoteOnce; `dated` is what parsing the date says. None when a missing
        note cannot be made: it is missing still, or made without the text. */
    method AppendToNoteOnce(date: string, dated: bool, text: string, op: string) returns (answer: Option<Outcome>)
      requires dated <==> Calendar.IsNoteDate(date)
      modifies this`files
      ensures answer.Some? ==> (files, answer.value) == AppendOnce(old(files), template, date, text, op)
      ensures answer.None? ==> files == old(files) || files == After(old(files), template, Ensure(date))
      ensures answer.None? ==> Daily(date) !in old(files) && AppendOnce(old(files), template, date, text, op).1 == Done
    {
      if !dated || !ValidOperation(op) || Contains(text, PREFIX) {
        return Some(Outcome.Rejected);
      }
      hide Marker, Hits, Contains, ValidOperation, Calendar.IsNoteDate, KeyedBlock, AppendBlock;
      var target, marker := Daily(date), Marker(op, date, text);
      var conflict, found := FindAppendOperation(target, op, marker);
      if conflict { return Some(Conflict); }
      if found { return Some(Done); }
      var made := EnsureNote(date);
      if !made { return None; }
      assert files[target] == (if target in old(files) then old(files)[target] else template(date));
      ExtendNote(target, text + NL + marker);
      assert files == old(files)[target := files[target]];
      answer := Some(Done);
    }

    /** AppendByPathOnce; `file` is what the path resolves to, `path` its cleaned form. */
    method AppendByPathOnce(path: string, file: File, text: string, op: string) returns (outcome: Outcome)
      modifies this`files
      ensures (files, outcome) == AppendPathOnce(old(files), path, file, text, op)
      ensures files == After(old(files), template, AppendToOnce(file, path, text, op))
    {
      if !ValidOperation(op) || Contains(text, PREFIX) {
        return Outcome.Rejected;
      }
      if file !in files { return NotFound; }
      var marker := Marker(op, path, text);
      var conflict, found := ScanNote(files[file], KeyPrefix(op), marker, true, false);
      if conflict { return Conflict; }
      if found { return Done; }
      ExtendNote(file, text + NL + marker);
      outcome := Done;
    }

    /** Replaces a note by an edited text, if there is one. */
    method Replace(f: File, content: Option<string>) returns (ok: bool)
      modifies this`files
      ensures files == (if content.Some? then old(files)[f := content.value] else old(files)) && ok == content.Some?
    {
      ok := content.Some?;
      if ok { files := files[f := content.value]; }
    }

    method UpdateRating(date: string, rating: Trim.Int64) returns (ok: bool)
      modifies this`files
      ensures files == After(old(files), template, Rate(date, rating))
      ensures ok <==> Accepts(old(files), Rate(date, rating))
    {
      var f := Daily(date);
      if f !in files { return false; }
      var content := Rating.UpdateRating(files[f], rating);
      ok := Replace(f, content);
    }

    method SetTaskStatus(date: string, index: int, newState: Status, today: string) returns (ok: bool)
      modifies this`files
      ensures files == After(old(files), template, SetStatus(date, index, newState, today))
      ensures ok <==> Accepts(old(files), SetStatus(date, index, newState, today))
    {
      var f := Daily(date);
      if f !in files { return false; }
      var content := TaskAdding.SetTaskStatusContent(files[f], index, newState, today);
      ok := Replace(f, content);
    }

    method ToggleTask(date: string, index: int, today: string) returns (ok: bool)
      modifies this`files
      ensures files == After(old(files), template, Toggle(date, index, today))
      ensures ok <==> Accepts(old(files), Toggle(date, index, today))
      // a pending task is now completed, a completed one rejected, a rejected one pending
      ensures Daily(date) in old(files) && TaskCycle.RegularTask(old(files)[Daily(date)], index) && Calendar.IsIsoDate(today) ==>
        ok && Daily(date) in files && TaskCycle.Turned(old(files)[Daily(date)], index, files[Daily(date)])
    {
      var f := Daily(date);
      ToggleTurns(files, date, index, today);
      if f !in files { return false; }
      var tasks := TaskAdding.ParseTasks(files[f]);
      if index < 0 || index >= |tasks| { return false; }
      var content := TaskAdding.SetTaskStatusContent(files[f], index, NextStatus(tasks[index].state), today);
      ok := Replace(f, content);
    }

    method AddNewTask(date: string, text: string) returns (ok: bool)
      modifies this`files
      ensures files == After(old(files), template, AddTask(date, text))
      ensures ok <==> Accepts(old(files), AddTask(date, text))
    {
      var f := Daily(date);
      if f !in files { return false; }
      var content := TaskAdding.AddTaskContent(files[f], text);
      ok := Replace(f, content);
    }
  }

  method AnyFile(files: set<File>) returns (f: File)
    requires files != {}
    ensures f in files
  {
    assert (forall x :: x !in files) ==> files == {};
    f :| f in files;
  }

  // ---------------------------------------------------- what the edits keep

  /** The texts entered mention no prefix, and taking the tag out of the task line
      brings none about (on regular lines it never does). */
  ghost predicate Admissible(files: Files, e: Edit) {
    && (e.Append? || e.AppendTo? || e.AddTask? ==> !Contains(e.text, PREFIX))
    && (e.SetStatus? || e.Toggle? ==> Calendar.IsIsoDate(e.today))
    && (Target(e) in files && (e.SetStatus? || e.Toggle?) ==> TagStaysClear(files[Target(e)], e))
  }

  ghost predicate TagStaysClear(content: string, e: Edit)
    requires e.SetStatus? || e.Toggle?
  {
    var tasks, lines := Tasks.TasksOf(content), Lines(content);
    0 <= e.index < |tasks| && 0 < tasks[e.index].lineNumber <= |lines| ==>
      var line := lines[tasks[e.index].lineNumber - 1];
      var state := if e.SetStatus? then e.state else NextStatus(tasks[e.index].state);
      SetLine(line, state, e.today).Some? ==> StaysClear(line, state)
  }

  /** A changed content whose markers of `id` are those of the old one. */
  ghost predicate Keeps(before: string, after: string, id: string) {
    WellMarked(after) && Hits(after, id) == Hits(before, id)
  }

  lemma SameMarkedKeeps(before: string, after: string, id: string)
    requires WellMarked(before) && Marked(after) == Marked(before)
    ensures Keeps(before, after, id)
  {
    hide Matching, IsMarker, Lines, Contains;
    SameMarkedSameHits(before, after, id);
  }

  lemma StatusChangeKeeps(content: string, e: Edit, state: Status, id: string)
    requires WellMarked(content) && (e.SetStatus? || e.Toggle?) && TagStaysClear(content, e) && Calendar.IsIsoDate(e.today)
    requires Tasks.WithStatus(content, e.index, state, e.today).Some?
    requires state == if e.SetStatus? then e.state else NextStatus(Tasks.TasksOf(content)[e.index].state)
    ensures Keeps(content, Tasks.WithStatus(content, e.index, state, e.today).value, id)
  {
    NoteEdits.StatusKeepsMarkers(content, e.index, state, e.today);
    SameMarkedKeeps(content, Tasks.WithStatus(content, e.index, state, e.today).value, id);
  }

  /** No editor touches a marker of an operation other than its own. */
  lemma ChangeKeeps(files: Files, e: Edit, content: string, id: string)
    requires WellMarked(content) && Change(e, content).Some? && (Target(e) in files ==> content == files[Target(e)])
    requires Target(e) !in files ==> e.Append?
    requires Admissible(files, e) && !Refuses(e) && (e.AppendToOnce? ==> e.op != id)
    ensures Keeps(content, Change(e, content).value, id)
  {
    var after := Change(e, content).value;
    match e
    case Append(_, text) =>
      PlainAppendMarked(content, text);
      SameMarkedKeeps(content, after, id);
    case AppendTo(_, text) =>
      PlainAppendMarked(content, text);
      SameMarkedKeeps(content, after, id);
    case Stopped(_) =>
      EndedMarked(content);
      SameMarkedKeeps(content, after, id);
    case AppendToOnce(_, path, text, op) =>
      KeyedAppendMarked(content, op, path, text);
      KeyedAppendHits(content, op, path, text, id);
    case Rate(_, rating) =>
      Rating.RatingKeepsMarkers(content, rating);
      SameMarkedKeeps(content, after, id);
    case SetStatus(_, index, state, today) => StatusChangeKeeps(content, e, state, id);
    case Toggle(_, index, today) => StatusChangeKeeps(content, e, NextStatus(Tasks.TasksOf(content)[index].state), id);
    case AddTask(_, text) =>
      NoteEdits.AddTaskKeepsMarkers(content, text);
      SameMarkedKeeps(content, after, id);
  }

  lemma AddingKeeps(files: Files, f: File, text: string, id: string)
    requires NoteLocks.AllWellMarked(files) && f !in files && WellMarked(text) && Hits(text, id) == []
    ensures SameMarkers(files, files[f := text], id) && NoteLocks.AllWellMarked(files[f := text])
  {
    hide WellMarked, Hits;
  }

  /** A new note from the template holds no marker. */
  lemma MakingKeeps(files: Files, template: Template, e: Edit, id: string)
    requires NoteLocks.AllWellMarked(files) && Unmarked(template)
    ensures var made := Made(files, template, e); SameMarkers(files, made, id) && NoteLocks.AllWellMarked(made)
  {
    hide WellMarked, Hits, SameMarkers, NoteLocks.AllWellMarked, Contains;
    SameMarkersRefl(files, id);
    if (e.Ensure? || e.Append?) && Target(e) !in files {
      BareText(template(e.date));
      NoMarkersInText(template(e.date), id);
      AddingKeeps(files, Target(e), template(e.date), id);
    }
  }

  /** What the operation does to the notes, with a missing one made. */
  lemma AfterCases(files: Files, template: Template, e: Edit)
    ensures var f, made, after := Target(e), Made(files, template, e), After(files, template, e);
      || after == files
      || after == made
      || (!Refuses(e) && f in made && Change(e, made[f]).Some? && after == made[f := Change(e, made[f]).value]
          && (f in files ==> made[f] == files[f]) && (f !in files ==> e.Append?))
  {
    hide Refuses;
  }

  lemma WritingKeeps(files: Files, f: File, after: string, id: string)
    requires NoteLocks.AllWellMarked(files) && f in files && Keeps(files[f], after, id)
    ensures SameMarkers(files, files[f := after], id) && NoteLocks.AllWellMarked(files[f := after])
  {
    hide WellMarked, Hits;
  }

  /** Every operation of the store keeps the markers of every operation but its
      own, in every note, and leaves all marker lines markers: what the voice
      protocol asks of the other writers. */
  lemma EditsKeepMarkers(files: Files, template: Template, e: Edit, id: string)
    requires NoteLocks.AllWellMarked(files) && Unmarked(template) && Admissible(files, e) && (e.AppendToOnce? ==> e.op != id)
    ensures SameMarkers(files, After(files, template, e), id) && NoteLocks.AllWellMarked(After(files, template, e))
  {
    var f, made, after := Target(e), Made(files, template, e), After(files, template, e);
    hide *;
    AfterCases(files, template, e);
    MakingKeeps(files, template, e, id);
    SameMarkersRefl(files, id);
    if after != files && after != made {
      NoteLocks.WellMarkedAt(made, f);
      ChangeKeeps(files, e, made[f], id);
      WritingKeeps(made, f, Change(e, made[f]).value, id);
      SameMarkersTrans(files, made, after, id);
    }
  }

  /** The two writes of an unkeyed append are two edits of the note, of which the first
      ends its last line; whoever reads in between finds the note after the first. */
  lemma AppendIsTwoEdits(file: File, text: string, content: string)
    ensures Change(Stopped(file), content).Some?
    ensures Change(AppendTo(file, text), Change(Stopped(file), content).value) == Change(AppendTo(file, text), content)
    ensures Change(AppendTo(file, text), Change(Stopped(file), content).value) == Some(Ended(content) + text + NL)
  {
    AppendAfterEnded(content, text);
    assert Ended(content) + "" == Ended(content);
  }

  /** The same as edits of one note under its lock. */
  lemma EditsAreJobs(env: NoteLocks.Env, files: Files, e: Edit, content: string)
    requires Target(e) in files && files[Target(e)] == content && Admissible(files, e) && !Refuses(e)
    requires e.AppendToOnce? ==> e.op !in env.dated
    ensures NoteLocks.EditKeeps(env, content, Change(e, content))
  {
    if WellMarked(content) && Change(e, content).Some? {
      forall op | op in env.dated ensures Keeps(content, Change(e, content).value, op) {
        ChangeKeeps(files, e, content, op);
      }
      ChangeKeeps(files, e, content, if e.AppendToOnce? then e.op + "x" else "");
    }
  }
}
