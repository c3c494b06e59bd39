/** Writers of notes interleaved under their file locks: an append keyed by date
    holds the operations lock and the note's lock, every other writer only the
    note's lock (core/append_once.go, core/stores.go). Each lock, directory
    listing, file read and file replacement is a step of its own; a writer may
    stop for ever at any point, which closes its lock files. */
module NoteLocks {
  import opened Text
  import opened NoteMarkers
  import opened NoteVault
  import opened MarkedText
  import opened Options
  import Calendar

  /** The template, and the operation ids that are only ever used with a date. */
  datatype Env = Env(template: Template, dated: iset<string>)

  /** A read-modify-write of one note: `change` is None on an error, and
      `creates` says whether a missing daily note is made first. */
  datatype Job =
    | Keyed(date: string, text: string, op: string)
    | Edit(file: File, creates: bool, change: string -> Option<string>)
  {
    function Target(): File {
      if Keyed? then Daily(date) else file
    }

    ghost predicate Accepted()
      requires Keyed?
    {
      Calendar.IsNoteDate(date) && ValidOperation(op) && !Contains(text, PREFIX)
    }

    ghost predicate Valid(env: Env) {
      if Keyed? then op in env.dated else creates ==> file.Daily?
    }
  }

  /** What the edits of a note are assumed to do (module NoteEdits says which do):
      the marker lines of dated operations stay, and all marker lines are markers. */
  ghost predicate EditKeeps(env: Env, before: string, after: Option<string>) {
    WellMarked(before) && after.Some? ==> WellMarked(after.value) && forall op :: op in env.dated ==> Hits(after.value, op) == Hits(before, op)
  }

  datatype Pc =
    | Idle
    | OpsHeld
    | NoteHeld
    | Scanning(listing: seq<File>, next: nat, found: bool)
    | Ready
    | Loaded(content: string)
    | Finished(outcome: Outcome)

  datatype Proc = Proc(job: Job, pc: Pc)

  datatype State = State(files: Files, ops: Option<int>, notes: map<File, int>, procs: map<int, Proc>)

  datatype Step =
    | Start(p: int, job: Job)
    | Refuse(p: int)
    | LockOps(p: int)
    | LockNote(p: int)
    | List(p: int, listing: seq<File>)
    | Scan(p: int)
    | Create(p: int)
    | Load(p: int)
    | Write(p: int)
    | Stop(p: int)

  function Move(s: State, p: int, pc: Pc): State
    requires p in s.procs
  {
    s.(procs := s.procs[p := s.procs[p].(pc := pc)])
  }

  function OnlyHit(job: Job): seq<string>
    requires job.Keyed?
  {
    [Marker(job.op, job.date, job.text)]
  }

  /** One file of the scan: None is a conflict, otherwise whether the marker has been seen. */
  function ScanFile(content: string, f: File, job: Job, found: bool): Option<bool>
    requires job.Keyed?
  {
    if Hits(content, job.op) == [] then Some(found)
    else if f == job.Target() && Hits(content, job.op) == OnlyHit(job) && !found then Some(true)
    else None
  }

  function ScanOn(files: Files, w: Proc): Pc
    requires w.job.Keyed? && w.pc.Scanning?
  {
    if w.pc.next == |w.pc.listing| then
      if w.pc.found then Finished(Done) else Ready
    else if w.pc.next < |w.pc.listing| && w.pc.listing[w.pc.next] in files then
      var f := w.pc.listing[w.pc.next];
      var r := ScanFile(files[f], f, w.job, w.pc.found);
      if r.None? then Finished(Conflict) else Scanning(w.pc.listing, w.pc.next + 1, r.value)
    else Finished(NotFound)
  }

  ghost predicate Lists(files: Files, listing: seq<File>) {
    && (forall f :: f in listing <==> f in files && f.Daily?)
    && (forall i, j :: 0 <= i < j < |listing| ==> listing[i] != listing[j])
  }

  /** What a process replaces its note by. */
  function NewContent(job: Job, content: string): Option<string> {
    if job.Keyed? then Some(AppendBlock(content, KeyedBlock(job.op, job.date, job.text))) else job.change(content)
  }

  predicate MayCreate(s: State, w: Proc) {
    && w.job.Target().Daily? && w.job.Target() !in s.files
    && if w.job.Keyed? then w.pc.Ready? else w.pc.NoteHeld? && w.job.creates
  }

  predicate MayLoad(s: State, w: Proc) {
    if w.job.Keyed? then w.pc.Ready? && w.job.Target() in s.files else w.pc.NoteHeld? && !MayCreate(s, w)
  }

  function Loading(files: Files, f: File): Pc {
    if f in files then Loaded(files[f]) else Finished(NotFound)
  }

  function Writing(s: State, p: int, w: Proc): State
    requires p in s.procs && w.pc.Loaded?
  {
    var c := NewContent(w.job, w.pc.content);
    if c.Some? then Move(s, p, Finished(Done)).(files := s.files[w.job.Target() := c.value]) else Move(s, p, Finished(Rejected))
  }

  /** Done, failed or dead: the lock files of `p` are closed. */
  function Closed(s: State, p: int): State {
    State(s.files, if s.ops == Some(p) then None else s.ops, map g <- s.notes | s.notes[g] != p :: s.notes[g], s.procs - {p})
  }

  ghost predicate ProcStep(env: Env, s: State, s': State, step: Step, w: Proc)
    requires step.p in s.procs && w == s.procs[step.p]
  {
    var p, f := step.p, w.job.Target();
    if step.Refuse? then w.job.Keyed? && w.pc.Idle? && !w.job.Accepted() && s' == Move(s, p, Finished(Rejected))
    else if step.LockOps? then
      w.job.Keyed? && w.pc.Idle? && w.job.Accepted() && s.ops == None && s' == Move(s, p, OpsHeld).(ops := Some(p))
    else if step.LockNote? then
      && w.pc == (if w.job.Keyed? then OpsHeld else Idle)
      && f !in s.notes && s' == Move(s, p, NoteHeld).(notes := s.notes[f := p])
    else if step.List? then
      w.job.Keyed? && w.pc.NoteHeld? && Lists(s.files, step.listing) && s' == Move(s, p, Scanning(step.listing, 0, false))
    else if step.Scan? then w.job.Keyed? && w.pc.Scanning? && s' == Move(s, p, ScanOn(s.files, w))
    else if step.Create? then MayCreate(s, w) && s' == s.(files := s.files[f := env.template(f.date)])
    else if step.Load? then MayLoad(s, w) && s' == Move(s, p, Loading(s.files, f))
    else if step.Write? then
      w.pc.Loaded? && (w.job.Edit? ==> EditKeeps(env, w.pc.content, w.job.change(w.pc.content))) && s' == Writing(s, p, w)
    else step.Stop? && s' == Closed(s, p)
  }

  ghost predicate NextStep(env: Env, s: State, s': State, step: Step) {
    if step.Start? then step.p !in s.procs && step.job.Valid(env) && s' == s.(procs := s.procs[step.p := Proc(step.job, Idle)])
    else step.p in s.procs && ProcStep(env, s, s', step, s.procs[step.p])
  }

  // -------------------------------------------------------------- invariant

  predicate HoldsNote(w: Proc) {
    w.pc.NoteHeld? || w.pc.Scanning? || w.pc.Ready? || w.pc.Loaded?
  }

  predicate HoldsOps(w: Proc) {
    w.job.Keyed? && (w.pc.OpsHeld? || HoldsNote(w))
  }

  ghost predicate LocksOk(s: State) {
    && (forall p <- s.procs :: HoldsOps(s.procs[p]) ==> s.ops == Some(p))
    && (forall p <- s.procs :: HoldsNote(s.procs[p]) ==> s.procs[p].job.Target() in s.notes && s.notes[s.procs[p].job.Target()] == p)
  }

  /** What the scan has established about `f`; nobody can change it while the
      scanner holds the operations lock. */
  ghost predicate Scanned(files: Files, job: Job, f: File, found: bool)
    requires job.Keyed?
  {
    f in files && f.Daily? ==>
      Hits(files[f], job.op) == [] || (found && f == job.Target() && Hits(files[f], job.op) == OnlyHit(job))
  }

  ghost predicate Clear(files: Files, job: Job)
    requires job.Keyed?
  {
    forall f :: Scanned(files, job, f, false)
  }

  ghost predicate ScanOk(files: Files, job: Job, listing: seq<File>, next: nat, found: bool)
    requires job.Keyed?
  {
    && next <= |listing|
    && (forall i, j :: 0 <= i < j < |listing| ==> listing[i] != listing[j])
    && (forall f <- listing :: f.Daily? && f in files)
    && (forall f :: f !in listing[next..] ==> Scanned(files, job, f, found))
    && (found ==> job.Target() in listing[..next] && Hits(files[job.Target()], job.op) == OnlyHit(job))
  }

  ghost predicate KeyedOk(files: Files, w: Proc)
    requires w.job.Keyed?
  {
    && (HoldsOps(w) ==> w.job.Accepted())
    && (w.pc.Scanning? ==> ScanOk(files, w.job, w.pc.listing, w.pc.next, w.pc.found))
    && (w.pc.Ready? || w.pc.Loaded? ==> Clear(files, w.job))
  }

  ghost predicate ProcOk(env: Env, files: Files, w: Proc) {
    && w.job.Valid(env)
    && (w.pc.Loaded? ==> w.job.Target() in files && files[w.job.Target()] == w.pc.content)
    && (w.job.Keyed? ==> KeyedOk(files, w))
  }

  /** An operation has at most one marker line across the daily notes. */
  ghost predicate OneMarker(files: Files, op: string) {
    && (forall f <- files :: f.Daily? ==> |Hits(files[f], op)| <= 1)
    && (forall f, g :: f in files && g in files && f.Daily? && g.Daily? && Hits(files[f], op) != [] && Hits(files[g], op) != [] ==> f == g)
  }

  ghost predicate AllOneMarker(env: Env, files: Files) {
    forall op :: op in env.dated ==> OneMarker(files, op)
  }

  ghost predicate AllWellMarked(files: Files) {
    forall f <- files :: WellMarked(files[f])
  }

  lemma WellMarkedAt(files: Files, f: File)
    requires AllWellMarked(files) && f in files
    ensures WellMarked(files[f])
  {
  }

  ghost predicate Inv(env: Env, s: State) {
    && LocksOk(s)
    && AllWellMarked(s.files)
    && (forall p <- s.procs :: ProcOk(env, s.files, s.procs[p]))
    && AllOneMarker(env, s.files)
  }

  // ------------------------------------------------------ what one step does

  /** A committed change: a note made from the template, or a whole job. */
  datatype Commit = Made(date: string) | Ran(job: Job)

  /** The commit as one atomic operation, with its answer. */
  ghost function Apply(env: Env, files: Files, c: Commit): (Files, Outcome) {
    match c
    case Made(date) => (if Daily(date) in files then files else files[Daily(date) := env.template(date)], Done)
    case Ran(Keyed(date, text, op)) => AppendOnce(files, env.template, date, text, op)
    case Ran(Edit(f, _, change)) =>
      if f !in files then (files, NotFound)
      else if change(files[f]).None? then (files, Rejected)
      else (files[f := change(files[f]).value], Done)
  }

  /** What the step commits, if anything. */
  function Commits(s: State, s': State, step: Step): (log: seq<Commit>)
    ensures |log| <= 1
  {
    if step.p !in s.procs || step.p !in s'.procs then []
    else if step.Create? && s.procs[step.p].job.Target().Daily? then [Made(s.procs[step.p].job.Target().date)]
    else if s'.procs[step.p].pc.Finished? && !s.procs[step.p].pc.Finished? then [Ran(s.procs[step.p].job)]
    else []
  }

  ghost function Replay(env: Env, files: Files, log: seq<Commit>): Files {
    if |log| == 0 then files else Apply(env, Replay(env, files, log[..|log| - 1]), log[|log| - 1]).0
  }

  /** The step is atomic: the notes change exactly as its commit would change
      them at this moment, and a job that finishes answers as the atomic
      operation does. So no writer overwrites another's committed update. */
  ghost predicate Atomic(env: Env, s: State, s': State, step: Step) {
    && s'.files == Replay(env, s.files, Commits(s, s', step))
    && (step.p in s.procs && step.p in s'.procs && s'.procs[step.p].pc.Finished? && !s.procs[step.p].pc.Finished? ==>
          s'.procs[step.p].pc.outcome == Apply(env, s.files, Ran(s.procs[step.p].job)).1)
  }

  lemma ReplayOne(env: Env, files: Files, c: Commit)
    ensures Replay(env, files, [c]) == Apply(env, files, c).0
  {
    assert Replay(env, files, [c][..0]) == files;
  }

  lemma StepIsAtomic(env: Env, s: State, s': State, step: Step)
    requires Inv(env, s) && NextStep(env, s, s', step)
    ensures Atomic(env, s, s', step)
  {
    var log := Commits(s, s', step);
    if |log| == 1 {
      ReplayOne(env, s.files, log[0]);
      var w := s.procs[step.p];
      assert ProcOk(env, s.files, w);
      if step.Scan? {
        ScanAnswers(env, s.files, w);
      } else if step.Write? && w.job.Keyed? {
        KeyedWrite(env, s.files, w);
      }
    }
  }

  lemma NotEarlier(listing: seq<File>, k: nat)
    requires k < |listing| && forall i, j :: 0 <= i < j < |listing| ==> listing[i] != listing[j]
    ensures listing[k] !in listing[..k]
  {
  }

  /** A scan that ends the append answers as the atomic append. */
  lemma ScanAnswers(env: Env, files: Files, w: Proc)
    requires w.job.Keyed? && w.pc.Scanning? && ProcOk(env, files, w) && ScanOn(files, w).Finished?
    ensures AppendOnce(files, env.template, w.job.date, w.job.text, w.job.op) == (files, ScanOn(files, w).outcome)
  {
    var target, op, listing := w.job.Target(), w.job.op, w.pc.listing;
    if w.pc.next == |listing| {
      forall f <- files | f.Daily? ensures Hits(files[f], op) == [] || (f == target && Hits(files[f], op) == OnlyHit(w.job)) {
        assert Scanned(files, w.job, f, true);
      }
    } else {
      var f := listing[w.pc.next];
      assert f in listing;
      NotEarlier(listing, w.pc.next);
      assert !OnlyMarker(files, op, target, Marker(op, w.job.date, w.job.text));
    }
  }

  /** The append that writes is the atomic append at that moment. */
  lemma KeyedWrite(env: Env, files: Files, w: Proc)
    requires w.job.Keyed? && w.pc.Loaded? && ProcOk(env, files, w)
    ensures AppendOnce(files, env.template, w.job.date, w.job.text, w.job.op)
         == (files[w.job.Target() := NewContent(w.job, w.pc.content).value], Done)
  {
    forall f <- files | f.Daily? ensures Hits(files[f], w.job.op) == [] {
      assert Scanned(files, w.job, f, false);
    }
    assert OnlyMarker(files, w.job.op, w.job.Target(), Marker(w.job.op, w.job.date, w.job.text));
  }

  // ------------------------------------------------- the invariant is kept

  lemma LocksKept(env: Env, s: State, s': State, step: Step)
    requires LocksOk(s) && NextStep(env, s, s', step)
    ensures LocksOk(s')
  {
    forall q <- s'.procs | HoldsOps(s'.procs[q]) ensures s'.ops == Some(q) {
      if q in s.procs && q != step.p { assert s'.procs[q] == s.procs[q]; }
    }
    forall q <- s'.procs | HoldsNote(s'.procs[q])
      ensures s'.procs[q].job.Target() in s'.notes && s'.notes[s'.procs[q].job.Target()] == q
    {
      if q in s.procs && q != step.p { assert s'.procs[q] == s.procs[q]; }
    }
  }

  /** A step of anything but a keyed append leaves the markers of dated operations alone. */
  lemma EditsKeepMarkers(env: Env, s: State, s': State, step: Step, op: string)
    requires Inv(env, s) && NextStep(env, s, s', step) && Unmarked(env.template) && op in env.dated
    requires step.Create? || step.p !in s.procs || s.procs[step.p].job.Edit?
    ensures SameMarkers(s.files, s'.files, op)
  {
    if step.Create? {
      var f := s.procs[step.p].job.Target();
      NoMarkersInText(env.template(f.date), op);
    } else if step.Write? {
      var w := s.procs[step.p];
      assert ProcOk(env, s.files, w);
      if NewContent(w.job, w.pc.content).Some? {
        ReplaceFrame(s.files, w.job.file, w.job.change(w.pc.content).value, op);
      }
    }
  }

  lemma WellMarkedKept(env: Env, s: State, s': State, step: Step)
    requires Inv(env, s) && NextStep(env, s, s', step) && Unmarked(env.template)
    ensures AllWellMarked(s'.files)
  {
    if step.Create? {
      BareText(env.template(s.procs[step.p].job.Target().date));
    } else if step.Write? {
      var w := s.procs[step.p];
      assert ProcOk(env, s.files, w) && WellMarked(w.pc.content);
      if w.job.Keyed? { KeyedAppendMarked(w.pc.content, w.job.op, w.job.date, w.job.text); }
    }
  }

  lemma OneMarkerKept(before: Files, after: Files, op: string)
    requires OneMarker(before, op) && SameMarkers(before, after, op)
    ensures OneMarker(after, op)
  {
  }

  lemma MarkersKept(env: Env, s: State, s': State, step: Step, op: string)
    requires Inv(env, s) && NextStep(env, s, s', step) && Unmarked(env.template) && op in env.dated
    ensures OneMarker(s'.files, op)
  {
    assert OneMarker(s.files, op);
    if step.Write? && s.procs[step.p].job.Keyed? {
      var w := s.procs[step.p];
      assert ProcOk(env, s.files, w);
      KeyedWrite(env, s.files, w);
      if op == w.job.op {
        AppendOnceEffect(s.files, env.template, w.job.date, w.job.text, op);
      } else {
        AppendOnceFrame(s.files, env.template, w.job.date, w.job.text, w.job.op, op);
        OneMarkerKept(s.files, s'.files, op);
      }
    } else if s'.files != s.files {
      EditsKeepMarkers(env, s, s', step, op);
      OneMarkerKept(s.files, s'.files, op);
    }
  }

  /** What a scanner knows survives every change that keeps its operation's markers. */
  lemma KeyedOkKept(before: Files, after: Files, w: Proc)
    requires w.job.Keyed? && KeyedOk(before, w) && SameMarkers(before, after, w.job.op)
    ensures KeyedOk(after, w)
  {
    forall f, found | Scanned(before, w.job, f, found) ensures Scanned(after, w.job, f, found) {}
    if w.pc.Scanning? && w.pc.found {
      assert w.job.Target() in w.pc.listing;
    }
  }

  lemma OthersKept(env: Env, s: State, s': State, step: Step, q: int)
    requires Inv(env, s) && NextStep(env, s, s', step) && Unmarked(env.template)
    requires q in s.procs && q in s'.procs && q != step.p
    ensures ProcOk(env, s'.files, s'.procs[q])
  {
    var v := s.procs[q];
    assert s'.procs[q] == v && ProcOk(env, s.files, v);
    if s'.files != s.files {
      var w := s.procs[step.p];
      assert HoldsNote(w);
      if v.job.Keyed? && HoldsOps(v) {
        assert !HoldsOps(w);
        EditsKeepMarkers(env, s, s', step, v.job.op);
        KeyedOkKept(s.files, s'.files, v);
      }
    }
  }

  /** The scan moves past one file. */
  lemma OneScanned(files: Files, job: Job, listing: seq<File>, next: nat, found: bool, found': bool)
    requires job.Keyed? && ScanOk(files, job, listing, next, found) && next < |listing|
    requires ScanFile(files[listing[next]], listing[next], job, found) == Some(found')
    ensures ScanOk(files, job, listing, next + 1, found')
  {
    hide Hits;
    assert listing[next] in listing;
    assert listing[next..] == [listing[next]] + listing[next + 1..];
    assert listing[..next + 1] == listing[..next] + [listing[next]];
    forall f | f !in listing[next + 1..] ensures Scanned(files, job, f, found') {
      if f != listing[next] { assert Scanned(files, job, f, found); }
    }
  }

  lemma ScanKept(files: Files, w: Proc)
    requires w.job.Keyed? && w.pc.Scanning? && KeyedOk(files, w)
    ensures KeyedOk(files, w.(pc := ScanOn(files, w)))
  {
    var job, listing, next := w.job, w.pc.listing, w.pc.next;
    var after := ScanOn(files, w);
    if next == |listing| {
      forall f ensures Scanned(files, job, f, w.pc.found) {
        assert f !in listing[next..];
      }
    } else if after.Scanning? {
      OneScanned(files, job, listing, next, w.pc.found, after.found);
      hide ScanOk, ScanFile, Hits;
    }
  }

  lemma OwnKept(env: Env, s: State, s': State, step: Step)
    requires Inv(env, s) && NextStep(env, s, s', step) && Unmarked(env.template)
    requires step.p in s'.procs
    ensures ProcOk(env, s'.files, s'.procs[step.p])
  {
    if step.p in s.procs {
      var w := s.procs[step.p];
      assert ProcOk(env, s.files, w);
      if step.Scan? {
        ScanKept(s.files, w);
      } else if step.Create? && w.job.Keyed? {
        EditsKeepMarkers(env, s, s', step, w.job.op);
        KeyedOkKept(s.files, s'.files, w);
      }
    }
  }

  lemma StepKeeps(env: Env, s: State, s': State, step: Step)
    requires Inv(env, s) && NextStep(env, s, s', step) && Unmarked(env.template)
    ensures Inv(env, s')
  {
    LocksKept(env, s, s', step);
    WellMarkedKept(env, s, s', step);
    forall q <- s'.procs ensures ProcOk(env, s'.files, s'.procs[q]) {
      if q == step.p {
        OwnKept(env, s, s', step);
      } else {
        OthersKept(env, s, s', step, q);
      }
    }
    forall op | op in env.dated ensures OneMarker(s'.files, op) {
      MarkersKept(env, s, s', step, op);
    }
  }

  // -------------------------------------------------------------- whole runs

  ghost predicate IsRun(env: Env, states: seq<State>, steps: seq<Step>) {
    && |states| == |steps| + 1
    && forall i :: 0 <= i < |steps| ==> NextStep(env, states[i], states[i + 1], steps[i])
  }

  /** No writer is under way and no dated operation has two markers. */
  ghost predicate Init(env: Env, s: State) {
    s.procs == map[] && s.notes == map[] && s.ops == None && AllOneMarker(env, s.files) && AllWellMarked(s.files)
  }

  /** The commits of a run, in the order of the steps that make them. */
  function Log(states: seq<State>, steps: seq<Step>, n: nat): seq<Commit>
    requires |states| == |steps| + 1 && n <= |steps|
  {
    if n == 0 then [] else Log(states, steps, n - 1) + Commits(states[n - 1], states[n], steps[n - 1])
  }

  lemma {:induction false} ReplayConcat(env: Env, files: Files, a: seq<Commit>, b: seq<Commit>)
    requires |b| <= 1
    ensures Replay(env, files, a + b) == Replay(env, Replay(env, files, a), b)
  {
    if |b| == 0 {
      assert a + b == a;
    } else {
      assert (a + b)[..|a|] == a && (a + b)[|a|] == b[0] && b[..0] == [];
      ReplayOne(env, Replay(env, files, a), b[0]);
    }
  }

  lemma InitInv(env: Env, s: State)
    requires Init(env, s)
    ensures Inv(env, s)
  {
  }

  lemma {:induction false} RunInv(env: Env, states: seq<State>, steps: seq<Step>, n: nat)
    requires IsRun(env, states, steps) && Init(env, states[0]) && Unmarked(env.template) && n <= |steps|
    ensures Inv(env, states[n])
  {
    hide NextStep, Init, Inv;
    if n == 0 {
      InitInv(env, states[0]);
    } else {
      RunInv(env, states, steps, n - 1);
      assert NextStep(env, states[n - 1], states[n], steps[n - 1]);
      StepKeeps(env, states[n - 1], states[n], steps[n - 1]);
    }
  }

  /** In every run of interleaved writers, stopped ones included, no dated
      operation ever has two marker lines, and the notes are those of the run's
      commits executed one after the other. */
  lemma {:induction false} RunsAreSerial(env: Env, states: seq<State>, steps: seq<Step>, n: nat)
    requires IsRun(env, states, steps) && Init(env, states[0]) && Unmarked(env.template) && n <= |steps|
    ensures AllOneMarker(env, states[n].files)
    ensures states[n].files == Replay(env, states[0].files, Log(states, steps, n))
  {
    hide NextStep, Commits, Apply, LocksOk, ProcOk, OneMarker, AllWellMarked;
    RunInv(env, states, steps, n);
    if n > 0 {
      RunsAreSerial(env, states, steps, n - 1);
      RunInv(env, states, steps, n - 1);
      assert NextStep(env, states[n - 1], states[n], steps[n - 1]);
      StepIsAtomic(env, states[n - 1], states[n], steps[n - 1]);
      ReplayConcat(env, states[0].files, Log(states, steps, n - 1), Commits(states[n - 1], states[n], steps[n - 1]));
    }
  }

  /** Only the process that steps moves. */
  lemma OneMover(env: Env, s: State, s': State, step: Step, p: int)
    requires NextStep(env, s, s', step) && p in s.procs && p in s'.procs && s'.procs[p] != s.procs[p]
    ensures step.p == p
  {
  }

  /** A job that finishes in a run got the answer of its atomic operation on the
      notes as they were at that moment. */
  lemma AnswersAreSerial(env: Env, states: seq<State>, steps: seq<Step>, n: nat, p: int)
    requires IsRun(env, states, steps) && Init(env, states[0]) && Unmarked(env.template) && n < |steps|
    requires p in states[n].procs && !states[n].procs[p].pc.Finished?
    requires p in states[n + 1].procs && states[n + 1].procs[p].pc.Finished?
    ensures states[n + 1].procs[p].pc.outcome
         == Apply(env, Replay(env, states[0].files, Log(states, steps, n)), Ran(states[n].procs[p].job)).1
  {
    hide NextStep, Commits, Apply, Inv, Init, Replay, Log;
    RunInv(env, states, steps, n);
    RunsAreSerial(env, states, steps, n);
    assert NextStep(env, states[n], states[n + 1], steps[n]);
    StepIsAtomic(env, states[n], states[n + 1], steps[n]);
    OneMover(env, states[n], states[n + 1], steps[n], p);
  }
}
