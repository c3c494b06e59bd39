/** The notes as files, and the keyed and plain appends as atomic operations on
    them (core/append_once.go, core/append_path_once.go, core/stores.go). */
module NoteVault {
  import opened Text
  import opened NoteMarkers
  import Calendar

  /** A note file: a daily note by its date, or any other note of the vault. */
  datatype File = Daily(date: string) | Other(path: string)

  type Files = map<File, string>

  /** Content of a new daily note: the template for that date. */
  type Template = string -> string

  ghost predicate Unmarked(template: Template) {
    forall date :: !Contains(template(date), PREFIX)
  }

  datatype Outcome = Done | Conflict | Rejected | NotFound

  predicate OperationChar(c: char) {
    'A' <= c <= 'Z' || 'a' <= c <= 'z' || '0' <= c <= '9' || c in "_.:-"
  }

  predicate ValidOperation(op: string) {
    1 <= |op| <= 128 && forall c <- op :: OperationChar(c)
  }

  // ------------------------------------------------------- keyed by date

  /** Every marker of `op` in the daily notes is this one, in this file. */
  ghost predicate OnlyMarker(files: Files, op: string, target: File, marker: string) {
    forall f <- files :: f.Daily? ==> Hits(files[f], op) == [] || (f == target && Hits(files[f], op) == [marker])
  }

  /** AppendToNoteOnce as one atomic operation. */
  ghost function AppendOnce(files: Files, template: Template, date: string, text: string, op: string): (Files, Outcome) {
    var target, marker := Daily(date), Marker(op, date, text);
    if !Calendar.IsNoteDate(date) || !ValidOperation(op) || Contains(text, PREFIX) then (files, Rejected)
    else if !OnlyMarker(files, op, target, marker) then (files, Conflict)
    else if target in files && Hits(files[target], op) == [marker] then (files, Done)
    else
      var base := if target in files then files[target] else template(date);
      (files[target := AppendBlock(base, KeyedBlock(op, date, text))], Done)
  }

  /** AppendByPathOnce; `path` is the cleaned relative path, `file` what it resolves to. */
  ghost function AppendPathOnce(files: Files, path: string, file: File, text: string, op: string): (Files, Outcome) {
    var marker := Marker(op, path, text);
    if !ValidOperation(op) || Contains(text, PREFIX) then (files, Rejected)
    else if file !in files then (files, NotFound)
    else if Hits(files[file], op) == [marker] then (files, Done)
    else if Hits(files[file], op) != [] then (files, Conflict)
    else (files[file := AppendBlock(files[file], KeyedBlock(op, path, text))], Done)
  }

  // ------------------------------------------------------- what is accepted

  const UPPER: string := "ABCDEFGHIJKLMNOPQRSTUVWXYZ"
  const LOWER: string := "abcdefghijklmnopqrstuvwxyz"

  lemma IsUpper(c: char)
    ensures 'A' <= c <= 'Z' <==> c in UPPER
  {
    assert forall k :: 0 <= k < 26 ==> UPPER[k] as int == 'A' as int + k;
    if 'A' <= c <= 'Z' { assert UPPER[c as int - 'A' as int] == c; }
  }

  lemma IsLower(c: char)
    ensures 'a' <= c <= 'z' <==> c in LOWER
  {
    assert forall k :: 0 <= k < 26 ==> LOWER[k] as int == 'a' as int + k;
    if 'a' <= c <= 'z' { assert LOWER[c as int - 'a' as int] == c; }
  }

  lemma IsFigure(c: char)
    ensures '0' <= c <= '9' <==> c in "0123456789"
  {
    var s := "0123456789";
    assert forall k :: 0 <= k < 10 ==> s[k] as int == '0' as int + k;
    if '0' <= c <= '9' { assert s[c as int - '0' as int] == c; }
  }

  /** An operation's id: 1 to 128 letters, figures, underscores, dots, colons and dashes. */
  predicate OperationId(op: string) {
    1 <= |op| <= 128 && forall c <- op :: c in UPPER || c in LOWER || c in "0123456789" || c in ['_', '.', ':', '-']
  }

  lemma OperationAlphabet(op: string)
    ensures ValidOperation(op) <==> OperationId(op)
  {
    forall c ensures OperationChar(c) <==> c in UPPER || c in LOWER || c in "0123456789" || c in ['_', '.', ':', '-'] {
      IsUpper(c);
      IsLower(c);
      IsFigure(c);
      hide UPPER, LOWER;
    }
    hide OperationChar, UPPER, LOWER;
  }

  /** A day that exists, as note names write it. */
  ghost predicate NamesDay(date: string) {
    exists d: Calendar.Date :: d.Valid() && Calendar.Written(date, d)
  }

  /** The marker line, spelled out. */
  function MarkerLine(op: string, dest: string, text: string): string {
    "<!-- notes-bot:append:" + Digest(op) + ":" + Digest(dest + "\0" + text) + " -->"
  }

  /** The content with a block behind it: on a line of its own, and ended. */
  function With(content: string, block: string): string {
    if content == "" || content[|content| - 1] == '\n' then content + block + "\n" else content + "\n" + block + "\n"
  }

  lemma BlockIs(content: string, op: string, dest: string, text: string)
    ensures AppendBlock(content, KeyedBlock(op, dest, text)) == With(content, text + "\n" + MarkerLine(op, dest, text))
    ensures Marker(op, dest, text) == MarkerLine(op, dest, text)
  {
    assert Marker(op, dest, text) == MarkerLine(op, dest, text);
    var block := KeyedBlock(op, dest, text);
    assert content + "" + block == content + block;
  }

  /** A keyed append by date is rejected exactly for a text that names no day, an id that
      is none, and a text that holds the start of a marker. It is done exactly when it is
      not rejected and every marker line of its operation in a daily note is its own, at
      most once, in its own note; else it is a conflict. */
  lemma AppendOnceAnswers(files: Files, template: Template, date: string, text: string, op: string)
    ensures var outcome := AppendOnce(files, template, date, text, op).1;
      var accepted := NamesDay(date) && OperationId(op) && !Contains(text, "<!-- notes-bot:append:");
      var own := forall f <- files :: f.Daily? ==>
        Hits(files[f], op) == [] || (f == Daily(date) && Hits(files[f], op) == [MarkerLine(op, date, text)]);
      outcome == if !accepted then Rejected else if own then Done else Conflict
  {
    OperationAlphabet(op);
    Calendar.NoteDates(date);
    BlockIs("", op, date, text);
    hide ValidOperation, OperationId, Hits, MarkerLine, Marker, AppendBlock, KeyedBlock, Calendar.IsNoteDate, Calendar.Written, Contains;
  }

  /** One by path is rejected for an id or a text only, and finds its note or not; it is
      done exactly when that note holds no marker of its operation, or just its own. */
  lemma AppendPathOnceAnswers(files: Files, path: string, file: File, text: string, op: string)
    ensures var outcome := AppendPathOnce(files, path, file, text, op).1;
      var accepted := OperationId(op) && !Contains(text, "<!-- notes-bot:append:");
      outcome == if !accepted then Rejected else if file !in files then NotFound
                 else if Hits(files[file], op) in [[], [MarkerLine(op, path, text)]] then Done else Conflict
  {
    OperationAlphabet(op);
    BlockIs("", op, path, text);
    hide ValidOperation, OperationId, Hits, MarkerLine, Marker, AppendBlock, KeyedBlock, Contains;
  }

  /** An append by date of an operation that no daily note holds, with an id, a day and a
      text that are accepted, succeeds: its note, made from the template if there is none,
      ends in the text and the marker, and no other note changes. */
  lemma AppendOnceWrites(files: Files, template: Template, date: string, text: string, op: string)
    requires NamesDay(date) && OperationId(op) && !Contains(text, "<!-- notes-bot:append:")
    requires forall f <- files :: f.Daily? ==> Hits(files[f], op) == []
    ensures var base := if Daily(date) in files then files[Daily(date)] else template(date);
      AppendOnce(files, template, date, text, op)
      == (files[Daily(date) := With(base, text + "\n" + MarkerLine(op, date, text))], Done)
  {
    AppendOnceAnswers(files, template, date, text, op);
    BlockIs(if Daily(date) in files then files[Daily(date)] else template(date), op, date, text);
    hide ValidOperation, OperationId, Hits, MarkerLine, Marker, AppendBlock, KeyedBlock, With, NamesDay, Contains;
  }

  /** So does one by path to a note that exists and holds no marker of the operation. */
  lemma AppendPathOnceWrites(files: Files, path: string, file: File, text: string, op: string)
    requires OperationId(op) && !Contains(text, "<!-- notes-bot:append:") && file in files && Hits(files[file], op) == []
    ensures AppendPathOnce(files, path, file, text, op)
         == (files[file := With(files[file], text + "\n" + MarkerLine(op, path, text))], Done)
  {
    AppendPathOnceAnswers(files, path, file, text, op);
    BlockIs(files[file], op, path, text);
    hide ValidOperation, OperationId, Hits, MarkerLine, Marker, AppendBlock, KeyedBlock, With, Contains;
  }

  // ------------------------------------------------------------- frames

  /** No note gains or loses a marker of `op`. */
  ghost predicate SameMarkers(before: Files, after: Files, op: string) {
    && before.Keys <= after.Keys
    && (forall f <- before :: Hits(after[f], op) == Hits(before[f], op))
    && (forall f <- after :: f !in before ==> Hits(after[f], op) == [])
  }

  lemma SameMarkersRefl(files: Files, op: string)
    ensures SameMarkers(files, files, op)
  {
  }

  lemma SameMarkersTrans(a: Files, b: Files, c: Files, op: string)
    requires SameMarkers(a, b, op) && SameMarkers(b, c, op)
    ensures SameMarkers(a, c, op)
  {
  }

  /** A replaced file whose markers of `op` are those of the old content, or of
      a new file without any. */
  lemma ReplaceFrame(files: Files, f: File, content: string, op: string)
    requires Hits(content, op) == if f in files then Hits(files[f], op) else []
    ensures SameMarkers(files, files[f := content], op)
  {
  }

  lemma BaseHits(files: Files, template: Template, f: File, date: string, op: string)
    requires Unmarked(template)
    ensures Hits(if f in files then files[f] else template(date), op) == if f in files then Hits(files[f], op) else []
  {
    if f !in files {
      NoMarkersInText(template(date), op);
    }
  }

  // ----------------------------------------------- what a keyed append does

  /** A completed append leaves exactly one marker of its operation in the daily
      notes, in the target; a refused one changes nothing. */
  lemma AppendOnceEffect(files: Files, template: Template, date: string, text: string, op: string)
    requires Unmarked(template)
    ensures var (after, outcome) := AppendOnce(files, template, date, text, op);
      && (outcome != Done ==> after == files)
      && (outcome == Done ==>
            && OnlyMarker(after, op, Daily(date), Marker(op, date, text))
            && Daily(date) in after && Hits(after[Daily(date)], op) == [Marker(op, date, text)])
      && (forall f <- files :: f in after && (f != Daily(date) ==> after[f] == files[f]))
  {
    var (after, outcome) := AppendOnce(files, template, date, text, op);
    if after != files {
      BaseHits(files, template, Daily(date), date, op);
      var base := if Daily(date) in files then files[Daily(date)] else template(date);
      KeyedAppendHits(base, op, date, text, op);
    }
  }

  lemma BlockFrame(files: Files, f: File, base: string, op: string, dest: string, text: string, other: string)
    requires op != other && !Contains(text, PREFIX)
    requires Hits(base, other) == if f in files then Hits(files[f], other) else []
    ensures SameMarkers(files, files[f := AppendBlock(base, KeyedBlock(op, dest, text))], other)
  {
    KeyedAppendHits(base, op, dest, text, other);
    ReplaceFrame(files, f, AppendBlock(base, KeyedBlock(op, dest, text)), other);
  }

  /** Markers of other operations are never touched. */
  lemma AppendOnceFrame(files: Files, template: Template, date: string, text: string, op: string, other: string)
    requires Unmarked(template) && op != other
    ensures SameMarkers(files, AppendOnce(files, template, date, text, op).0, other)
  {
    SameMarkersRefl(files, other);
    hide Hits, Marker, AppendBlock, KeyedBlock, Contains, ValidOperation, SameMarkers, OnlyMarker;
    if AppendOnce(files, template, date, text, op).0 != files {
      BaseHits(files, template, Daily(date), date, other);
      BlockFrame(files, Daily(date), if Daily(date) in files then files[Daily(date)] else template(date), op, date, text, other);
    }
  }

  lemma AppendPathOnceEffect(files: Files, path: string, file: File, text: string, op: string)
    ensures var (after, outcome) := AppendPathOnce(files, path, file, text, op);
      && (outcome != Done ==> after == files)
      && (outcome == Done ==> file in after && Hits(after[file], op) == [Marker(op, path, text)])
      && after.Keys == files.Keys
      && (forall f <- files :: f != file ==> after[f] == files[f])
  {
    var (after, outcome) := AppendPathOnce(files, path, file, text, op);
    if after != files {
      KeyedAppendHits(files[file], op, path, text, op);
    }
  }

  lemma AppendPathOnceFrame(files: Files, path: string, file: File, text: string, op: string, other: string)
    requires op != other
    ensures SameMarkers(files, AppendPathOnce(files, path, file, text, op).0, other)
  {
    SameMarkersRefl(files, other);
    if file in files && !Contains(text, PREFIX) {
      BlockFrame(files, file, files[file], op, path, text, other);
    }
    hide Hits, Marker, AppendBlock, KeyedBlock, Contains, ValidOperation, SameMarkers;
  }

  /** The notes hold a marker of `op` exactly when it is `logged`: this one, in this file. */
  ghost predicate HoldsIfLogged(files: Files, op: string, target: File, marker: string, logged: bool) {
    && (logged ==> target in files)
    && forall f <- files :: Hits(files[f], op) == if logged && f == target then [marker] else []
  }

  /** What an append does then: no conflict, and a write exactly when not yet logged. */
  ghost predicate WritesUnlessLogged(files: Files, after: Files, outcome: Outcome, op: string, target: File, marker: string, logged: bool) {
    && outcome != Conflict
    && (outcome == Done ==> target in after && Hits(after[target], op) == [marker])
    && (after != files ==> outcome == Done && !logged)
    && (outcome == Done && after == files ==> logged)
    && files.Keys <= after.Keys <= files.Keys + {target}
    && (forall f <- files :: f != target ==> after[f] == files[f])
  }

  lemma AppendOnceLogged(files: Files, template: Template, date: string, text: string, op: string, logged: bool)
    requires Unmarked(template) && HoldsIfLogged(files, op, Daily(date), Marker(op, date, text), logged)
    ensures var (after, outcome) := AppendOnce(files, template, date, text, op);
      WritesUnlessLogged(files, after, outcome, op, Daily(date), Marker(op, date, text), logged)
  {
    hide Marker, Hits, AppendBlock, KeyedBlock, Contains, ValidOperation;
    AppendOnceEffect(files, template, date, text, op);
    var marker := Marker(op, date, text);
    assert OnlyMarker(files, op, Daily(date), marker);
  }

  lemma AppendPathOnceLogged(files: Files, path: string, file: File, text: string, op: string, logged: bool)
    requires HoldsIfLogged(files, op, file, Marker(op, path, text), logged)
    ensures var (after, outcome) := AppendPathOnce(files, path, file, text, op);
      WritesUnlessLogged(files, after, outcome, op, file, Marker(op, path, text), logged)
  {
    AppendPathOnceEffect(files, path, file, text, op);
    hide Marker, Hits;
  }

  // ------------------------------------------------------- retries

  /** A retry with the same arguments changes nothing, however the notes were
      edited in between by writers that keep this operation's markers. */
  lemma RetryChangesNothing(files: Files, template: Template, date: string, text: string, op: string, later: Files)
    requires Unmarked(template) && AppendOnce(files, template, date, text, op).1 == Done
    requires SameMarkers(AppendOnce(files, template, date, text, op).0, later, op)
    ensures AppendOnce(later, template, date, text, op) == (later, Done)
  {
    AppendOnceEffect(files, template, date, text, op);
    var after := AppendOnce(files, template, date, text, op).0;
    assert OnlyMarker(after, op, Daily(date), Marker(op, date, text));
    forall f <- later | f.Daily?
      ensures Hits(later[f], op) == [] || (f == Daily(date) && Hits(later[f], op) == [Marker(op, date, text)])
    {
      if f in after { assert Hits(later[f], op) == Hits(after[f], op); }
    }
  }

  /** Reusing the key for another date or text is refused, and changes nothing. */
  lemma ReuseRefused(files: Files, template: Template, date: string, text: string, op: string, later: Files, date': string, text': string)
    requires Unmarked(template) && AppendOnce(files, template, date, text, op).1 == Done
    requires SameMarkers(AppendOnce(files, template, date, text, op).0, later, op)
    requires date' != date || text' != text
    ensures var (after, outcome) := AppendOnce(later, template, date', text', op);
            after == later && outcome in {Conflict, Rejected}
  {
    AppendOnceEffect(files, template, date, text, op);
    if Calendar.IsNoteDate(date') {
      Calendar.NoteDatePlain(date);
      Calendar.NoteDatePlain(date');
      if Marker(op, date, text) == Marker(op, date', text') {
        MarkerInjective(op, date, text, date', text');
      }
      assert Hits(later[Daily(date)], op) == [Marker(op, date, text)];
      assert !OnlyMarker(later, op, Daily(date'), Marker(op, date', text'));
    }
  }
}
