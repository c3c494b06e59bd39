/** The voice protocol and the other writers of notes fit together: the steps the
    protocol allows to others are met by every operation of the note store. */
module VoiceWriters {
  import opened Options
  import opened Text
  import opened NoteMarkers
  import opened MarkedText
  import opened NoteVault
  import opened VoiceProtocol
  import NoteLocks
  import NoteStore
  import VoiceRefinement

  /** On well-marked notes, an operation of the store whose own id is not a voice
      job's is a step of the other writers, and leaves the notes well-marked. */
  lemma StoreEditIsAllowed(env: Env, s: State, e: NoteStore.Edit)
    requires NoteLocks.AllWellMarked(s.files) && Unmarked(env.template) && NoteStore.Admissible(s.files, e)
    requires e.AppendToOnce? ==> !("voice:" <= e.op)
    ensures var files := NoteStore.After(s.files, env.template, e);
      NextStep(env, s, s.(files := files), OtherWriters(files)) && NoteLocks.AllWellMarked(files)
  {
    forall id ensures SameMarkers(s.files, NoteStore.After(s.files, env.template, e), Op(id)) {
      assert "voice:" <= Op(id);
      NoteStore.EditsKeepMarkers(s.files, env.template, e, Op(id));
    }
    NoteStore.EditsKeepMarkers(s.files, env.template, e, if e.AppendToOnce? then e.op + "x" else "");
  }

  lemma DatedIsWellMarked(files: Files, template: Template, date: string, text: string, op: string)
    requires NoteLocks.AllWellMarked(files) && Unmarked(template)
    ensures NoteLocks.AllWellMarked(AppendOnce(files, template, date, text, op).0)
  {
    if !Contains(text, PREFIX) {
      var base := if Daily(date) in files then files[Daily(date)] else template(date);
      if Daily(date) !in files { BareText(base); }
      KeyedAppendMarked(base, op, date, text);
      hide Contains, Hits, WellMarked, AppendBlock, KeyedBlock, Marker;
    }
  }

  lemma PathIsWellMarked(files: Files, path: string, file: File, text: string, op: string)
    requires NoteLocks.AllWellMarked(files)
    ensures NoteLocks.AllWellMarked(AppendPathOnce(files, path, file, text, op).0)
  {
    if !Contains(text, PREFIX) && file in files {
      KeyedAppendMarked(files[file], op, path, text);
      hide Contains, Hits, WellMarked, AppendBlock, KeyedBlock, Marker;
    }
  }

  /** So is an append keyed by date whose id is not a voice job's. */
  lemma DatedAppendIsAllowed(env: Env, s: State, date: string, text: string, op: string)
    requires NoteLocks.AllWellMarked(s.files) && Unmarked(env.template) && !("voice:" <= op)
    ensures var files := AppendOnce(s.files, env.template, date, text, op).0;
      NextStep(env, s, s.(files := files), OtherWriters(files)) && NoteLocks.AllWellMarked(files)
  {
    DatedIsWellMarked(s.files, env.template, date, text, op);
    DatedKeepsVoice(env, s.files, date, text, op);
  }

  lemma DatedKeepsVoice(env: Env, files: Files, date: string, text: string, op: string)
    requires Unmarked(env.template) && !("voice:" <= op)
    ensures forall id :: SameMarkers(files, AppendOnce(files, env.template, date, text, op).0, Op(id))
  {
    forall id ensures SameMarkers(files, AppendOnce(files, env.template, date, text, op).0, Op(id)) {
      assert "voice:" <= Op(id);
      AppendOnceFrame(files, env.template, date, text, op, Op(id));
    }
  }

  /** The protocol's own appends leave the notes well-marked. */
  lemma VoiceAppendIsWellMarked(env: Env, files: Files, r: Request)
    requires NoteLocks.AllWellMarked(files) && Unmarked(env.template)
    ensures NoteLocks.AllWellMarked(Append(env, files, r).0)
  {
    hide AppendOnce, AppendPathOnce, NoteLocks.AllWellMarked;
    if r.relpath != "" {
      PathIsWellMarked(files, env.clean(r.relpath), env.resolve(r.relpath), r.text, Op(r.id));
    } else {
      DatedIsWellMarked(files, env.template, r.date, r.text, Op(r.id));
    }
  }

  /** A step of the protocol keeps the notes well-marked if the other writers do. */
  lemma StepsStayWellMarked(env: Env, s: State, s': State, step: Step)
    requires NextStep(env, s, s', step) && NoteLocks.AllWellMarked(s.files) && Unmarked(env.template)
    requires step.OtherWriters? ==> NoteLocks.AllWellMarked(step.files)
    ensures NoteLocks.AllWellMarked(s'.files)
  {
    hide NoteLocks.AllWellMarked, Append;
    if step.Execute? || step.ExecuteReply? {
      VoiceAppendIsWellMarked(env, s.files, step.q);
    } else if !step.OtherWriters? {
      NotesUntouched(env, s, s', step);
    }
  }

  lemma NotesUntouched(env: Env, s: State, s': State, step: Step)
    requires NextStep(env, s, s', step) && !step.Execute? && !step.ExecuteReply? && !step.OtherWriters?
    ensures s'.files == s.files
  {
  }

  // ------------------------------------------- interleaved writers, in the protocol

  /** A request of the protocol, as an append keyed by date. */
  predicate IsDated(r: Request, date: string, text: string, op: string) {
    r.relpath == "" && r.date == date && r.text == text && Op(r.id) == op
  }

  /** A request of the protocol, as an edit of the note its path resolves to. */
  ghost predicate IsByPath(env: Env, files: Files, r: Request, f: File, after: string) {
    r.relpath != "" && Append(env, files, r).0 == files[f := after]
  }

  /** What interleaved writers may commit besides the protocol: keyed appends and
      edits that are pending requests, and those that keep all voice markers. */
  ghost predicate Fits(env: Env, requests: set<Request>, files: Files, c: NoteLocks.Commit) {
    match c
    case Made(_) => true
    case Ran(Keyed(date, text, op)) => "voice:" <= op ==> exists r <- requests :: IsDated(r, date, text, op)
    case Ran(Edit(f, _, change)) =>
      f in files && change(files[f]).Some? ==>
        || (forall id :: Hits(change(files[f]).value, Op(id)) == Hits(files[f], Op(id)))
        || (exists r <- requests :: IsByPath(env, files, r, f, change(files[f]).value))
  }

  lemma Executes(env: Env, s: State, r: Request) returns (s': State)
    requires r in s.requests
    ensures NextStep(env, s, s', Execute(r))
    ensures s' == s.(files := Append(env, s.files, r).0, log := s'.log)
  {
    hide Append;
    var files := Append(env, s.files, r).0;
    s' := s.(files := files, log := if files != s.files then s.log + [r.id] else s.log);
    assert ExecuteStep(env, s, s', r);
  }

  /** A step of the other writers. */
  lemma Writes(env: Env, s: State, files: Files) returns (s': State)
    requires forall id :: SameMarkers(s.files, files, Op(id))
    ensures NextStep(env, s, s', OtherWriters(files)) && s' == s.(files := files)
  {
    hide SameMarkers;
    s' := s.(files := files);
  }

  lemma SameForAll(files: Files)
    ensures forall id :: SameMarkers(files, files, Op(id))
  {
    forall id ensures SameMarkers(files, files, Op(id)) { SameMarkersRefl(files, Op(id)); }
  }

  lemma MadeKeepsVoice(env: Env, files: Files, date: string)
    requires Unmarked(env.template) && Daily(date) !in files
    ensures forall id :: SameMarkers(files, files[Daily(date) := env.template(date)], Op(id))
  {
    forall id ensures SameMarkers(files, files[Daily(date) := env.template(date)], Op(id)) {
      NoMarkersInText(env.template(date), Op(id));
      hide Hits;
    }
  }

  lemma MadeStep(env: Env, locks: NoteLocks.Env, s: State, date: string) returns (s': State, step: Step)
    requires Unmarked(env.template) && locks.template == env.template
    ensures NextStep(env, s, s', step) && step.OtherWriters?
    ensures s' == s.(files := NoteLocks.Apply(locks, s.files, NoteLocks.Commit.Made(date)).0)
  {
    var files := NoteLocks.Apply(locks, s.files, NoteLocks.Commit.Made(date)).0;
    hide SameMarkers;
    SameForAll(s.files);
    if Daily(date) !in s.files { MadeKeepsVoice(env, s.files, date); }
    step := OtherWriters(files);
    s' := Writes(env, s, files);
  }

  lemma KeyedStep(env: Env, s: State, date: string, text: string, op: string) returns (s': State, step: Step)
    requires Unmarked(env.template)
    requires "voice:" <= op ==> exists r <- s.requests :: IsDated(r, date, text, op)
    ensures NextStep(env, s, s', step) && (step.Execute? || step.OtherWriters?)
    ensures s' == s.(files := AppendOnce(s.files, env.template, date, text, op).0, log := s'.log)
  {
    var files := AppendOnce(s.files, env.template, date, text, op).0;
    hide AppendOnce, AppendPathOnce, NextStep, SameMarkers, Unmarked;
    if "voice:" <= op {
      var r :| r in s.requests && IsDated(r, date, text, op);
      step := Execute(r);
      s' := Executes(env, s, r);
    } else {
      DatedKeepsVoice(env, s.files, date, text, op);
      step := OtherWriters(files);
      s' := Writes(env, s, files);
    }
  }

  lemma EditKeepsVoice(files: Files, f: File, after: string)
    requires f in files && forall id :: Hits(after, Op(id)) == Hits(files[f], Op(id))
    ensures forall id :: SameMarkers(files, files[f := after], Op(id))
  {
    hide Hits;
  }

  lemma EditStep(env: Env, s: State, f: File, after: string) returns (s': State, step: Step)
    requires f in s.files
    requires (forall id :: Hits(after, Op(id)) == Hits(s.files[f], Op(id))) || exists r <- s.requests :: IsByPath(env, s.files, r, f, after)
    ensures NextStep(env, s, s', step) && (step.Execute? || step.OtherWriters?)
    ensures s' == s.(files := s.files[f := after], log := s'.log)
  {
    hide NextStep, SameMarkers, Hits, Append;
    if r :| r in s.requests && IsByPath(env, s.files, r, f, after) {
      step := Execute(r);
      s' := Executes(env, s, r);
    } else {
      EditKeepsVoice(s.files, f, after);
      step := OtherWriters(s.files[f := after]);
      s' := Writes(env, s, s.files[f := after]);
    }
  }

  lemma IdleStep(env: Env, s: State) returns (step: Step)
    ensures NextStep(env, s, s, step) && step.OtherWriters?
  {
    SameForAll(s.files);
    step := OtherWriters(s.files);
    var s' := Writes(env, s, s.files);
    assert s' == s;
  }

  /** Each commit of interleaved writers is one step of the protocol: the execution
      of a request, or a step of the other writers. */
  lemma CommitIsAStep(env: Env, locks: NoteLocks.Env, s: State, c: NoteLocks.Commit) returns (s': State, step: Step)
    requires Unmarked(env.template) && locks.template == env.template && Fits(env, s.requests, s.files, c)
    ensures NextStep(env, s, s', step) && (step.Execute? || step.OtherWriters?)
    ensures s' == s.(files := NoteLocks.Apply(locks, s.files, c).0, log := s'.log)
  {
    hide NextStep, AppendOnce, IsByPath, IsDated, Hits, Unmarked;
    match c
    case Made(date) => s', step := MadeStep(env, locks, s, date);
    case Ran(Keyed(date, text, op)) => s', step := KeyedStep(env, s, date, text, op);
    case Ran(Edit(f, _, change)) =>
      if f in s.files && change(s.files[f]).Some? {
        s', step := EditStep(env, s, f, change(s.files[f]).value);
      } else {
        s' := s;
        step := IdleStep(env, s);
      }
  }

  ghost predicate FitsAt(env: Env, requests: set<Request>, states: seq<NoteLocks.State>, steps: seq<NoteLocks.Step>, m: nat)
    requires |states| == |steps| + 1 && m < |steps|
  {
    forall c <- NoteLocks.Commits(states[m], states[m + 1], steps[m]) :: Fits(env, requests, states[m].files, c)
  }

  /** The commits of each step fit the requests. */
  ghost predicate AllFit(env: Env, requests: set<Request>, states: seq<NoteLocks.State>, steps: seq<NoteLocks.Step>)
    requires |states| == |steps| + 1
  {
    forall m :: 0 <= m < |steps| ==> FitsAt(env, requests, states, steps, m)
  }

  /** A run of interleaved writers, lock by lock, is a piece of a run of the
      protocol: it leaves the same notes. */
  lemma {:induction false} LockRunIsAPath(env: Env, locks: NoteLocks.Env, states: seq<NoteLocks.State>, steps: seq<NoteLocks.Step>, n: nat, s: State)
    returns (run: seq<State>)
    requires NoteLocks.IsRun(locks, states, steps) && NoteLocks.Init(locks, states[0]) && n <= |steps|
    requires Unmarked(env.template) && locks.template == env.template && s.files == states[0].files
    requires AllFit(env, s.requests, states, steps)
    ensures VoiceRefinement.IsPath(env, run) && run[0] == s
    ensures var e := VoiceRefinement.Last(run); e == s.(files := states[n].files, log := e.log)
  {
    if n == 0 {
      run := [s];
    } else {
      run := LockRunIsAPath(env, locks, states, steps, n - 1, s);
      var e := VoiceRefinement.Last(run);
      var before, after := states[n - 1], states[n];
      NoteLocks.RunInv(locks, states, steps, n - 1);
      assert NoteLocks.NextStep(locks, before, after, steps[n - 1]);
      NoteLocks.StepIsAtomic(locks, before, after, steps[n - 1]);
      var log := NoteLocks.Commits(before, after, steps[n - 1]);
      assert after.files == NoteLocks.Replay(locks, before.files, log);
      if |log| == 1 {
        assert FitsAt(env, s.requests, states, steps, n - 1) && log[0] in log;
        assert Fits(env, s.requests, before.files, log[0]);
        NoteLocks.ReplayOne(locks, before.files, log[0]);
        assert log == [log[0]];
        hide *;
        var e', step := CommitIsAStep(env, locks, e, log[0]);
        run := VoiceRefinement.Longer(env, run, e', step);
      }
    }
  }

  // ------------------------------------------------------ the store's own writers

  /** The edit is one of the store's, admissible now, and its own id is not a voice job's. */
  ghost predicate IsStoreEdit(files: Files, e: NoteStore.Edit, f: File, change: string -> Option<string>) {
    && NoteStore.Target(e) == f && NoteStore.Admissible(files, e) && !NoteStore.Refuses(e)
    && (e.AppendToOnce? ==> !("voice:" <= e.op))
    && (f in files ==> change(files[f]) == NoteStore.Change(e, files[f]))
  }

  /** What the writers of the system commit: requests of the protocol, keyed appends by
      date with other ids, and edits of the store. */
  ghost predicate FromStore(env: Env, requests: set<Request>, files: Files, c: NoteLocks.Commit) {
    match c
    case Made(_) => true
    case Ran(Keyed(date, text, op)) => "voice:" <= op ==> exists r <- requests :: IsDated(r, date, text, op)
    case Ran(Edit(f, _, change)) =>
      || (exists e :: IsStoreEdit(files, e, f, change))
      || (f in files && change(files[f]).Some? ==> exists r <- requests :: IsByPath(env, files, r, f, change(files[f]).value))
  }

  lemma StoreEditFits(files: Files, e: NoteStore.Edit, f: File, change: string -> Option<string>)
    requires NoteLocks.AllWellMarked(files) && IsStoreEdit(files, e, f, change) && f in files && change(files[f]).Some?
    ensures forall id :: Hits(change(files[f]).value, Op(id)) == Hits(files[f], Op(id))
  {
    NoteLocks.WellMarkedAt(files, f);
    forall id ensures Hits(change(files[f]).value, Op(id)) == Hits(files[f], Op(id)) {
      assert "voice:" <= Op(id);
      hide NoteStore.Admissible, NoteStore.Refuses, NoteStore.Change, Hits, WellMarked;
      NoteStore.ChangeKeeps(files, e, files[f], Op(id));
    }
  }

  lemma StoreCommitFits(env: Env, requests: set<Request>, files: Files, c: NoteLocks.Commit)
    requires NoteLocks.AllWellMarked(files) && FromStore(env, requests, files, c)
    ensures Fits(env, requests, files, c)
  {
    hide IsByPath, IsDated, Hits, IsStoreEdit, WellMarked;
    match c
    case Made(_) =>
    case Ran(Keyed(_, _, _)) =>
    case Ran(Edit(f, _, change)) =>
      if f in files && change(files[f]).Some? {
        if e :| IsStoreEdit(files, e, f, change) { StoreEditFits(files, e, f, change); }
      }
  }

  ghost predicate AllFromStore(env: Env, requests: set<Request>, states: seq<NoteLocks.State>, steps: seq<NoteLocks.Step>)
    requires |states| == |steps| + 1
  {
    forall m, c :: 0 <= m < |steps| && c in NoteLocks.Commits(states[m], states[m + 1], steps[m])
      ==> FromStore(env, requests, states[m].files, c)
  }

  lemma StoreRunFits(env: Env, locks: NoteLocks.Env, states: seq<NoteLocks.State>, steps: seq<NoteLocks.Step>, requests: set<Request>)
    requires NoteLocks.IsRun(locks, states, steps) && NoteLocks.Init(locks, states[0])
    requires Unmarked(env.template) && locks.template == env.template && AllFromStore(env, requests, states, steps)
    ensures AllFit(env, requests, states, steps)
  {
    hide FromStore, Fits, NoteLocks.Commits, NoteLocks.Init;
    forall m | 0 <= m < |steps| ensures FitsAt(env, requests, states, steps, m) {
      NoteLocks.RunInv(locks, states, steps, m);
      assert NoteLocks.AllWellMarked(states[m].files);
      forall c <- NoteLocks.Commits(states[m], states[m + 1], steps[m]) ensures Fits(env, requests, states[m].files, c) {
        StoreCommitFits(env, requests, states[m].files, c);
      }
    }
  }

  /** So interleaved operations of the note store are a piece of a run of the protocol. */
  lemma StoreRunIsAPath(env: Env, locks: NoteLocks.Env, states: seq<NoteLocks.State>, steps: seq<NoteLocks.Step>, s: State)
    returns (run: seq<State>)
    requires NoteLocks.IsRun(locks, states, steps) && NoteLocks.Init(locks, states[0])
    requires Unmarked(env.template) && locks.template == env.template && s.files == states[0].files
    requires AllFromStore(env, s.requests, states, steps)
    ensures VoiceRefinement.IsPath(env, run) && run[0] == s
    ensures var e := VoiceRefinement.Last(run); e == s.(files := states[|steps|].files, log := e.log)
  {
    assert |states| == |steps| + 1;
    hide AllFit, AllFromStore, NoteLocks.Init, NoteLocks.IsRun, Unmarked;
    StoreRunFits(env, locks, states, steps, s.requests);
    run := LockRunIsAPath(env, locks, states, steps, |steps|, s);
  }
}
