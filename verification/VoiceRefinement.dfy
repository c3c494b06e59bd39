/** The worker's code refines the protocol: a pass of the loop is a run of it, so
    that what holds of every run holds of what the code does. */
module VoiceRefinement {
  import opened Options
  import opened NoteVault
  import opened VoiceJob
  import opened VoiceProtocol
  import opened VoiceWorker

  /** A piece of a run. */
  ghost predicate IsPath(env: Env, run: seq<State>) {
    |run| > 0 && forall k :: 0 <= k < |run| - 1 ==> Next(env, run[k], run[k + 1])
  }

  function Last(run: seq<State>): State
    requires |run| > 0
  {
    run[|run| - 1]
  }

  lemma Longer(env: Env, run: seq<State>, s': State, step: Step) returns (more: seq<State>)
    requires IsPath(env, run) && NextStep(env, Last(run), s', step)
    ensures IsPath(env, more) && more[0] == run[0] && Last(more) == s'
  {
    more := run + [s'];
    hide NextStep;
    assert Next(env, Last(run), s');
    forall k | 0 <= k < |more| - 1 ensures Next(env, more[k], more[k + 1]) {
      if k < |run| - 1 { assert more[k] == run[k] && more[k + 1] == run[k + 1]; }
    }
  }

  /** The replies a worker may get: the front check tells the truth, and an append
      is reported saved only if it was done. */
  ghost predicate Truthful(env: Env, s: State, p: Payload, c: Calls) {
    && Honest(c)
    && (c.front == Some(true) ==> IsFront(s.rows, p.chat, p.msg))
    && (c.append == NoteSaved ==> Append(env, s.files, RequestOf(p)).1 == Done)
  }

  /** Worker `t` has just claimed its job. */
  predicate JustClaimed(s: State, t: int) {
    && t in s.workers && s.workers[t].phase == Ready && s.workers[t].job == s.workers[t].snap
    && s.workers[t].snap.id in s.rows
  }

  function StartAt(s: State, t: int): Start
    requires t in s.workers
  {
    Start(s.workers[t].job, s.workers[t].cancel, t, s.rows, s.now)
  }

  /** What the worker hears in a step, other than that its append was done. */
  function Hears(p: Payload, cancel: bool, c: Calls): set<(string, Reply)> {
    var a := Chosen(p, cancel, c);
    if Answer(a, c).Some? && a != AppendNote then {(p.id, Answer(a, c).value)} else {}
  }

  /** The step of worker `t` as the code does it leads from `s` to `e`. */
  ghost predicate Ends(env: Env, s: State, t: int, c: Calls, e: State)
    requires t in s.workers
  {
    var st, w := StartAt(s, t), s.workers[t];
    var a := Chosen(w.job, w.cancel, c);
    && e.rows == RowsAfter(st, c) && e.now == s.now && e.nextToken == s.nextToken
    && e.workers == s.workers[t := Worker(w.snap, w.cancel, JobAfter(st, c), Releasing(Final(a) && Succeeds(st, c)))]
    && e.heard == s.heard + Hears(w.job, w.cancel, c)
    && e.files == (if a == AppendNote && c.append == NoteSaved then Append(env, s.files, RequestOf(w.job)).0 else s.files)
  }

  // ------------------------------------------------------------- single steps

  predicate Effective(s: State, t: int, save: Commit)
    requires t in s.workers
  {
    var id := s.workers[t].snap.id;
    save != Failed && id in s.rows && Holds(s.rows[id], t, s.now)
  }

  function AfterSave(s: State, t: int, save: Commit): State
    requires t in s.workers
  {
    var w := s.workers[t];
    var effect := Effective(s, t, save);
    Put(s, t, w.(phase := if effect && save == Reported && w.phase == Redelivering then Reediting else Releasing(false)))
      .(rows := if effect then s.rows[w.snap.id := SaveRow(s.rows[w.snap.id], w.job)] else s.rows)
  }

  lemma Saves(env: Env, run: seq<State>, t: int, save: Commit) returns (more: seq<State>)
    requires IsPath(env, run) && t in Last(run).workers
    requires Last(run).workers[t].phase in {Saving, Redelivering} && Last(run).workers[t].snap.id in Last(run).rows
    ensures IsPath(env, more) && more[0] == run[0] && Last(more) == AfterSave(Last(run), t, save)
  {
    var s := Last(run);
    var reported := save == Reported && Effective(s, t, save);
    assert SaveStep(s, AfterSave(s, t, save), t, s.workers[t], save != Failed, reported);
    more := Longer(env, run, AfterSave(s, t, save), Save(t, save != Failed, reported));
  }

  lemma Fails(env: Env, run: seq<State>, t: int) returns (more: seq<State>)
    requires IsPath(env, run) && t in Last(run).workers
    ensures IsPath(env, more) && more[0] == run[0]
    ensures Last(more) == Put(Last(run), t, Last(run).workers[t].(phase := Releasing(false)))
  {
    var s := Last(run);
    var s' := Put(s, t, s.workers[t].(phase := Releasing(false)));
    more := Longer(env, run, s', Fail(t));
  }

  lemma Receives(env: Env, run: seq<State>, t: int, r: Reply) returns (more: seq<State>)
    requires IsPath(env, run) && t in Last(run).workers && Last(run).workers[t].phase.Waiting?
    requires Answers(Last(run).workers[t].phase.action, r) && !r.Appended?
    ensures IsPath(env, more) && more[0] == run[0]
    ensures var w := Last(run).workers[t];
            Last(more) == Put(Last(run), t, w.(job := Checkpoint(w.job, r), phase := if r.Running? then Releasing(false) else Saving))
                          .(heard := Last(run).heard + {(w.job.id, r)})
  {
    var s := Last(run);
    var w := s.workers[t];
    var s' := Put(s, t, w.(job := Checkpoint(w.job, r), phase := if r.Running? then Releasing(false) else Saving))
              .(heard := s.heard + {(w.job.id, r)});
    more := Longer(env, run, s', Receive(t, r));
  }

  lemma Sends(env: Env, s: State, t: int) returns (run: seq<State>)
    requires JustClaimed(s, t)
    requires NextAction(s.workers[t].job, s.workers[t].cancel) !in {CloseCancelled, MarkSubmit, CheckFront}
    ensures IsPath(env, run) && run[0] == s
    ensures Last(run).rows == s.rows && Last(run).now == s.now && Last(run).nextToken == s.nextToken && Last(run).files == s.files
    ensures Last(run).heard == s.heard
    ensures var w := s.workers[t]; Last(run).workers == s.workers[t := w.(phase := Waiting(NextAction(w.job, w.cancel)))]
  {
    var w := s.workers[t];
    var a := NextAction(w.job, w.cancel);
    var s' := Put(s, t, w.(phase := Waiting(a)))
             .(uploads := if a == Upload then s.uploads + {w.job.id} else s.uploads,
               acks := if a == VoiceJob.Action.Ack then s.acks + {w.job.id} else s.acks);
    run := Longer(env, [s], s', Send(t));
  }

  lemma SendsAtFront(env: Env, s: State, t: int) returns (run: seq<State>)
    requires JustClaimed(s, t) && NextAction(s.workers[t].job, s.workers[t].cancel) == CheckFront
    requires IsFront(s.rows, s.workers[t].job.chat, s.workers[t].job.msg)
    ensures IsPath(env, run) && run[0] == s
    ensures Last(run).rows == s.rows && Last(run).now == s.now && Last(run).nextToken == s.nextToken && Last(run).files == s.files
    ensures Last(run).heard == s.heard
    ensures var w := s.workers[t]; Last(run).workers == s.workers[t := w.(phase := Waiting(FrontAction(w.job)))]
    ensures FrontAction(s.workers[t].job) == AppendNote ==> RequestOf(s.workers[t].job) in Last(run).requests
  {
    var w := s.workers[t];
    var a := FrontAction(w.job);
    var s1 := Put(s, t, w.(phase := AtFront));
    run := Longer(env, [s], s1, PassFront(t));
    var s2 := Put(s1, t, w.(phase := Waiting(a)))
             .(requests := if a == AppendNote then s.requests + {RequestOf(w.job)} else s.requests);
    run := Longer(env, run, s2, SendAtFront(t));
  }

  // ------------------------------------------------------- the cases of a step

  /** Nothing but worker `t`, and the notes as said, is other than at the start. */
  predicate At(s: State, t: int, w: Worker, files: Files, heard: set<(string, Reply)>, m: State) {
    && m.heard == s.heard + heard
    && m.rows == s.rows && m.now == s.now && m.nextToken == s.nextToken && m.files == files && m.workers == s.workers[t := w]
  }

  ghost function FilesAfter(env: Env, s: State, p: Payload, cancel: bool, c: Calls): Files {
    if Chosen(p, cancel, c) == AppendNote && c.append == NoteSaved then Append(env, s.files, RequestOf(p)).0 else s.files
  }

  /** A checkpoint set in memory and then saved ends the step. */
  lemma SavedEnds(env: Env, s: State, t: int, c: Calls, m: State)
    requires JustClaimed(s, t)
    requires var w := s.workers[t];
      && Sets(w.job, w.cancel, c).Some? && !Final(Chosen(w.job, w.cancel, c))
      && At(s, t, w.(job := Sets(w.job, w.cancel, c).value, phase := Saving), FilesAfter(env, s, w.job, w.cancel, c), Hears(w.job, w.cancel, c), m)
    ensures Ends(env, s, t, c, AfterSave(m, t, c.save))
  {
    hide Sets, Chosen, Append, SaveRow, Holds;
  }

  /** A call without a checkpoint ends the step. */
  lemma FailedEnds(env: Env, s: State, t: int, c: Calls, e: State)
    requires JustClaimed(s, t)
    requires var w := s.workers[t];
      && Sets(w.job, w.cancel, c).None?
      && (Final(Chosen(w.job, w.cancel, c)) ==> c.edit != Edited)
      && At(s, t, w.(phase := Releasing(false)), FilesAfter(env, s, w.job, w.cancel, c), Hears(w.job, w.cancel, c), e)
    ensures Ends(env, s, t, c, e)
  {
    hide Sets, Chosen, Append, SaveRow, Holds;
  }

  /** A delivered result ends it, and closes the job. */
  lemma DeliveredEnds(env: Env, s: State, t: int, c: Calls, e: State)
    requires JustClaimed(s, t) && c.edit == Edited
    requires var w := s.workers[t];
      && Sets(w.job, w.cancel, c).None? && Final(Chosen(w.job, w.cancel, c))
      && At(s, t, w.(phase := Releasing(true)), FilesAfter(env, s, w.job, w.cancel, c), Hears(w.job, w.cancel, c), e)
    ensures Ends(env, s, t, c, e)
  {
    hide Sets, Chosen, Append, SaveRow, Holds;
  }

  /** So does an answer that the job is still running. */
  lemma RunningEnds(env: Env, s: State, t: int, c: Calls, e: State)
    requires JustClaimed(s, t) && Honest(c)
    requires var w := s.workers[t];
      && NextAction(w.job, w.cancel) !in {CloseCancelled, MarkSubmit, CheckFront}
      && var r := Answer(NextAction(w.job, w.cancel), c);
      && r == Some(Running)
      && At(s, t, w.(job := Checkpoint(w.job, Running), phase := Releasing(false)), FilesAfter(env, s, w.job, w.cancel, c), Hears(w.job, w.cancel, c), e)
    ensures Ends(env, s, t, c, e)
  {
    var w := s.workers[t];
    CallSets(w.job, w.cancel, c);
    hide NextAction, SaveRow, Holds, Append;
  }

  /** A recreated status message ends the step unless its id was saved; then the
      second edit does. */
  lemma RecreatedEnds(env: Env, s: State, t: int, c: Calls, m: State)
    requires JustClaimed(s, t) && c.edit == Missing
    requires var w := s.workers[t];
      && Sets(w.job, w.cancel, c).Some? && Final(Chosen(w.job, w.cancel, c))
      && At(s, t, w.(job := Sets(w.job, w.cancel, c).value, phase := Redelivering), s.files, {}, m)
    ensures var e := AfterSave(m, t, c.save);
      if Effective(m, t, c.save) && c.save == Reported
      then e.workers[t].phase == Reediting && Ends(env, s, t, c, Put(e, t, e.workers[t].(phase := Releasing(c.editAgain))))
      else Ends(env, s, t, c, e)
  {
    hide Sets, Chosen, Append, SaveRow, Holds;
  }

  lemma AppendSets(p: Payload, cancel: bool, c: Calls)
    requires NextAction(p, cancel) == CheckFront && c.front == Some(true) && FrontAction(p) == AppendNote
    ensures Chosen(p, cancel, c) == AppendNote
    ensures Sets(p, cancel, c) == if c.append == NoteSaved then Some(Checkpoint(p, Appended)) else None
  {
  }

  lemma PrepareSets(p: Payload, cancel: bool, c: Calls)
    requires NextAction(p, cancel) == CheckFront && c.front == Some(true) && FrontAction(p) == Prepare
    ensures Chosen(p, cancel, c) == Prepare
    ensures Sets(p, cancel, c) == if c.prepare.Some? then Some(Checkpoint(p, PreparedAs(c.prepare.value))) else None
  {
  }

  lemma CallSets(p: Payload, cancel: bool, c: Calls)
    requires NextAction(p, cancel) !in {CloseCancelled, MarkSubmit, CheckFront} && Honest(c)
    ensures var a := NextAction(p, cancel);
      && Chosen(p, cancel, c) == a && !Final(a) && a != AppendNote
      && (a == Poll ==> (c.status.Some? <==> Answer(a, c).Some?))
      && (Answer(a, c).Some? ==> Answers(a, Answer(a, c).value) && !Answer(a, c).value.Appended?)
      && (Answer(a, c).Some? && Answer(a, c).value.Running? ==> Checkpoint(p, Answer(a, c).value) == p)
      && Sets(p, cancel, c) == if Answer(a, c).Some? && !Answer(a, c).value.Running?
                               then Some(Checkpoint(p, Answer(a, c).value)) else None
  {
  }

  lemma FinalSets(p: Payload, cancel: bool, c: Calls)
    requires NextAction(p, cancel) == CheckFront && c.front == Some(true) && Final(FrontAction(p))
    ensures Chosen(p, cancel, c) == FrontAction(p) && FrontAction(p) != AppendNote
    ensures Sets(p, cancel, c) == if c.edit == Missing && c.send.Some? then Some(p.(statusMsg := c.send.value)) else None
  {
  }

  lemma LocalPath(env: Env, s: State, t: int, c: Calls) returns (run: seq<State>)
    requires JustClaimed(s, t) && Truthful(env, s, s.workers[t].job, c)
    requires NextAction(s.workers[t].job, s.workers[t].cancel) in {CloseCancelled, MarkSubmit}
    ensures IsPath(env, run) && run[0] == s && Ends(env, s, t, c, Last(run))
  {
    var w := s.workers[t];
    var s1 := Put(s, t, w.(job := LocalCheckpoint(w.job, NextAction(w.job, w.cancel)), phase := Saving));
    run := Longer(env, [s], s1, Local(t));
    run := Saves(env, run, t, c.save);
    hide IsPath, NextStep, Holds, SaveRow;
  }

  lemma CallPath(env: Env, s: State, t: int, c: Calls) returns (run: seq<State>)
    requires JustClaimed(s, t) && Truthful(env, s, s.workers[t].job, c)
    requires NextAction(s.workers[t].job, s.workers[t].cancel) !in {CloseCancelled, MarkSubmit, CheckFront}
    ensures IsPath(env, run) && run[0] == s && Ends(env, s, t, c, Last(run))
  {
    var w := s.workers[t];
    var a := NextAction(w.job, w.cancel);
    var r := Answer(a, c);
    CallSets(w.job, w.cancel, c);
    assert !Final(a);
    hide IsPath, NextStep, Holds, SaveRow, NextAction, Answer, Chosen, Sets, Ends, AfterSave, Checkpoint, Answers;
    run := Sends(env, s, t);
    if r.None? {
      run := Fails(env, run, t);
      FailedEnds(env, s, t, c, Last(run));
    } else {
      run := Receives(env, run, t, r.value);
      if r.value.Running? {
        RunningEnds(env, s, t, c, Last(run));
      } else {
        SavedEnds(env, s, t, c, Last(run));
        run := Saves(env, run, t, c.save);
      }
    }
  }

  lemma BehindPath(env: Env, s: State, t: int, c: Calls) returns (run: seq<State>)
    requires JustClaimed(s, t) && Truthful(env, s, s.workers[t].job, c)
    requires NextAction(s.workers[t].job, s.workers[t].cancel) == CheckFront && c.front != Some(true)
    ensures IsPath(env, run) && run[0] == s && Ends(env, s, t, c, Last(run))
  {
    run := Fails(env, [s], t);
    hide IsPath, NextStep, Holds, SaveRow;
  }

  lemma Appends(env: Env, run: seq<State>, t: int, r: Request) returns (more: seq<State>)
    requires IsPath(env, run) && t in Last(run).workers && Last(run).workers[t].phase == Waiting(AppendNote)
    requires r in Last(run).requests && Last(run).workers[t].job.id == r.id && Append(env, Last(run).files, r).1 == Done
    ensures IsPath(env, more) && more[0] == run[0]
    ensures Last(more).rows == Last(run).rows && Last(more).now == Last(run).now && Last(more).nextToken == Last(run).nextToken
    ensures Last(more).files == Append(env, Last(run).files, r).0 && Last(more).heard == Last(run).heard
    ensures var w := Last(run).workers[t];
            Last(more).workers == Last(run).workers[t := w.(job := Checkpoint(w.job, Appended), phase := Saving)]
  {
    hide Append;
    var s := Last(run);
    var w, files := s.workers[t], Append(env, s.files, r).0;
    var s' := Put(s, t, w.(job := Checkpoint(w.job, Appended), phase := Saving))
              .(files := files, log := if files != s.files then s.log + [r.id] else s.log);
    assert ExecuteReplyStep(env, s, s', r, t, w);
    more := Longer(env, run, s', ExecuteReply(t, r));
  }

  lemma AtTheFront(env: Env, s: State, p: Payload, c: Calls)
    requires Truthful(env, s, p, c) && c.front == Some(true)
    ensures IsFront(s.rows, p.chat, p.msg)
  {
    hide IsFront, Append;
  }

  lemma AppendIsDone(env: Env, s: State, p: Payload, cancel: bool, c: Calls)
    requires Truthful(env, s, p, c) && c.append == NoteSaved
    ensures Append(env, s.files, RequestOf(p)).1 == Done
    ensures Chosen(p, cancel, c) == AppendNote ==> FilesAfter(env, s, p, cancel, c) == Append(env, s.files, RequestOf(p)).0
  {
    hide IsFront, Append, Chosen, RequestOf;
  }

  lemma RequestIs(p: Payload)
    ensures RequestOf(p).id == p.id
  {
  }

  /** The front of the chat is not told to the worker as a reply, unless it is a preview. */
  lemma NoHearing(p: Payload, cancel: bool, c: Calls)
    requires NextAction(p, cancel) == CheckFront && FrontAction(p) != Prepare
    ensures Hears(p, cancel, c) == {}
  {
  }

  lemma NoFiles(env: Env, s: State, p: Payload, cancel: bool, c: Calls)
    requires NextAction(p, cancel) == CheckFront && FrontAction(p) != AppendNote
    ensures FilesAfter(env, s, p, cancel, c) == s.files
  {
    hide Append;
  }

  /** The append is asked for and done, and its checkpoint set. */
  lemma AppendedAt(env: Env, s: State, t: int, c: Calls) returns (run: seq<State>)
    requires JustClaimed(s, t) && Append(env, s.files, RequestOf(s.workers[t].job)).1 == Done
    requires NextAction(s.workers[t].job, s.workers[t].cancel) == CheckFront && FrontAction(s.workers[t].job) == AppendNote
    requires IsFront(s.rows, s.workers[t].job.chat, s.workers[t].job.msg)
    ensures IsPath(env, run) && run[0] == s
    ensures var w := s.workers[t];
      At(s, t, w.(job := Checkpoint(w.job, Appended), phase := Saving), Append(env, s.files, RequestOf(w.job)).0, {}, Last(run))
  {
    hide NextStep, Append, NextAction, FrontAction, IsFront, RequestOf, Checkpoint;
    var w := s.workers[t];
    RequestIs(w.job);
    run := SendsAtFront(env, s, t);
    run := Appends(env, run, t, RequestOf(w.job));
  }

  lemma AppendedPath(env: Env, s: State, t: int, c: Calls) returns (run: seq<State>)
    requires JustClaimed(s, t) && Truthful(env, s, s.workers[t].job, c)
    requires NextAction(s.workers[t].job, s.workers[t].cancel) == CheckFront && c.front == Some(true)
    requires FrontAction(s.workers[t].job) == AppendNote && c.append == NoteSaved
    ensures IsPath(env, run) && run[0] == s && Ends(env, s, t, c, Last(run))
  {
    var w := s.workers[t];
    assert !Final(AppendNote);
    hide IsPath, NextStep, Append, NextAction, FrontAction, Chosen, Sets, Ends, Truthful, IsFront, FilesAfter, RequestOf, Checkpoint,
      At, Hears, Last, Final;
    NoHearing(w.job, w.cancel, c);
    AtTheFront(env, s, w.job, c);
    AppendSets(w.job, w.cancel, c);
    AppendIsDone(env, s, w.job, w.cancel, c);
    run := AppendedAt(env, s, t, c);
    run := SavedPath(env, s, run, t, c);
  }

  /** A checkpoint set is saved, which ends the step. */
  lemma SavedPath(env: Env, s: State, path: seq<State>, t: int, c: Calls) returns (run: seq<State>)
    requires JustClaimed(s, t) && IsPath(env, path) && path[0] == s
    requires var w := s.workers[t];
      && Sets(w.job, w.cancel, c).Some? && !Final(Chosen(w.job, w.cancel, c))
      && At(s, t, w.(job := Sets(w.job, w.cancel, c).value, phase := Saving), FilesAfter(env, s, w.job, w.cancel, c),
            Hears(w.job, w.cancel, c), Last(path))
    ensures IsPath(env, run) && run[0] == s && Ends(env, s, t, c, Last(run))
  {
    assert |path| > 0;
    hide IsPath, NextStep, Holds, SaveRow, Sets, Chosen, Ends, AfterSave, FilesAfter, Hears, Final;
    SavedEnds(env, s, t, c, Last(path));
    run := Saves(env, path, t, c.save);
  }

  lemma NotAppendedPath(env: Env, s: State, t: int, c: Calls) returns (run: seq<State>)
    requires JustClaimed(s, t) && Truthful(env, s, s.workers[t].job, c)
    requires NextAction(s.workers[t].job, s.workers[t].cancel) == CheckFront && c.front == Some(true)
    requires FrontAction(s.workers[t].job) == AppendNote && c.append != NoteSaved
    ensures IsPath(env, run) && run[0] == s && Ends(env, s, t, c, Last(run))
  {
    var w := s.workers[t];
    run := SendsAtFront(env, s, t);
    AppendSets(w.job, w.cancel, c);
    hide IsPath, NextStep, Holds, SaveRow, Append, NextAction, FrontAction, Chosen, Sets, Ends, AfterSave, Truthful, IsFront;
    run := Fails(env, run, t);
    FailedEnds(env, s, t, c, Last(run));
  }

  lemma PreparePath(env: Env, s: State, t: int, c: Calls) returns (run: seq<State>)
    requires JustClaimed(s, t) && Truthful(env, s, s.workers[t].job, c)
    requires NextAction(s.workers[t].job, s.workers[t].cancel) == CheckFront && c.front == Some(true)
    requires FrontAction(s.workers[t].job) == Prepare
    ensures IsPath(env, run) && run[0] == s && Ends(env, s, t, c, Last(run))
  {
    var w := s.workers[t];
    run := SendsAtFront(env, s, t);
    PrepareSets(w.job, w.cancel, c);
    hide IsPath, NextStep, Holds, SaveRow, NextAction, FrontAction, Chosen, Sets, Ends, AfterSave, Checkpoint;
    if c.prepare.Some? {
      run := Receives(env, run, t, PreparedAs(c.prepare.value));
      SavedEnds(env, s, t, c, Last(run));
      run := Saves(env, run, t, c.save);
    } else {
      run := Fails(env, run, t);
      FailedEnds(env, s, t, c, Last(run));
    }
  }

  lemma Delivers(env: Env, run: seq<State>, t: int) returns (more: seq<State>)
    requires IsPath(env, run) && t in Last(run).workers
    requires var p := Last(run).workers[t].phase; p == Reediting || (p.Waiting? && Final(p.action))
    ensures IsPath(env, more) && more[0] == run[0]
    ensures Last(more) == Put(Last(run), t, Last(run).workers[t].(phase := Releasing(true)))
  {
    var s := Last(run);
    var s' := Put(s, t, s.workers[t].(phase := Releasing(true)));
    more := Longer(env, run, s', Delivered(t));
  }

  lemma Recreates(env: Env, run: seq<State>, t: int, msg: int) returns (more: seq<State>)
    requires IsPath(env, run) && t in Last(run).workers
    requires var p := Last(run).workers[t].phase; p.Waiting? && Final(p.action)
    ensures IsPath(env, more) && more[0] == run[0]
    ensures var w := Last(run).workers[t];
            Last(more) == Put(Last(run), t, w.(job := w.job.(statusMsg := msg), phase := Redelivering))
  {
    var s := Last(run);
    var s' := Put(s, t, s.workers[t].(job := s.workers[t].job.(statusMsg := msg), phase := Redelivering));
    more := Longer(env, run, s', Recreated(t, msg));
  }

  /** The final message is edited. */
  lemma EditedPath(env: Env, s: State, t: int, c: Calls) returns (run: seq<State>)
    requires JustClaimed(s, t) && IsFront(s.rows, s.workers[t].job.chat, s.workers[t].job.msg) && c.edit == Edited
    requires NextAction(s.workers[t].job, s.workers[t].cancel) == CheckFront && Final(FrontAction(s.workers[t].job))
    requires var w := s.workers[t];
      && Sets(w.job, w.cancel, c).None? && Final(Chosen(w.job, w.cancel, c))
      && FilesAfter(env, s, w.job, w.cancel, c) == s.files && Hears(w.job, w.cancel, c) == {}
    ensures IsPath(env, run) && run[0] == s && Ends(env, s, t, c, Last(run))
  {
    hide NextStep, Append, NextAction, FrontAction, Chosen, Sets, Ends, IsFront, FilesAfter, Hears, Final;
    run := SendsAtFront(env, s, t);
    run := Delivers(env, run, t);
    DeliveredEnds(env, s, t, c, Last(run));
  }

  /** It is not. */
  lemma UneditedPath(env: Env, s: State, t: int, c: Calls) returns (run: seq<State>)
    requires JustClaimed(s, t) && IsFront(s.rows, s.workers[t].job.chat, s.workers[t].job.msg) && c.edit != Edited
    requires NextAction(s.workers[t].job, s.workers[t].cancel) == CheckFront
    requires var w := s.workers[t];
      Sets(w.job, w.cancel, c).None? && FilesAfter(env, s, w.job, w.cancel, c) == s.files && Hears(w.job, w.cancel, c) == {}
    ensures IsPath(env, run) && run[0] == s && Ends(env, s, t, c, Last(run))
  {
    hide NextStep, Append, NextAction, FrontAction, Chosen, Sets, Ends, IsFront, FilesAfter, Hears, Final;
    run := SendsAtFront(env, s, t);
    run := Fails(env, run, t);
    FailedEnds(env, s, t, c, Last(run));
  }

  lemma EditPath(env: Env, s: State, t: int, c: Calls) returns (run: seq<State>)
    requires JustClaimed(s, t) && Truthful(env, s, s.workers[t].job, c)
    requires NextAction(s.workers[t].job, s.workers[t].cancel) == CheckFront && c.front == Some(true)
    requires Final(FrontAction(s.workers[t].job)) && !(c.edit == Missing && c.send.Some?)
    ensures IsPath(env, run) && run[0] == s && Ends(env, s, t, c, Last(run))
  {
    var w := s.workers[t];
    assert FrontAction(w.job) !in {AppendNote, Prepare};
    hide IsPath, NextStep, Append, NextAction, FrontAction, Chosen, Sets, Ends, Truthful, IsFront, FilesAfter, Hears, Final;
    NoHearing(w.job, w.cancel, c);
    NoFiles(env, s, w.job, w.cancel, c);
    AtTheFront(env, s, w.job, c);
    FinalSets(w.job, w.cancel, c);
    if c.edit == Edited {
      run := EditedPath(env, s, t, c);
    } else {
      run := UneditedPath(env, s, t, c);
    }
  }

  lemma RecreatePath(env: Env, s: State, t: int, c: Calls) returns (run: seq<State>)
    requires JustClaimed(s, t) && Truthful(env, s, s.workers[t].job, c)
    requires NextAction(s.workers[t].job, s.workers[t].cancel) == CheckFront && c.front == Some(true)
    requires Final(FrontAction(s.workers[t].job)) && c.edit == Missing && c.send.Some?
    ensures IsPath(env, run) && run[0] == s && Ends(env, s, t, c, Last(run))
  {
    run := SendsAtFront(env, s, t);
    FinalSets(s.workers[t].job, s.workers[t].cancel, c);
    hide IsPath, NextStep, Holds, SaveRow, Append, NextAction, FrontAction, Chosen, Sets, Ends;
    run := Recreates(env, run, t, c.send.value);
    var m := Last(run);
    RecreatedEnds(env, s, t, c, m);
    run := Saves(env, run, t, c.save);
    if Effective(m, t, c.save) && c.save == Reported {
      if c.editAgain { run := Delivers(env, run, t); } else { run := Fails(env, run, t); }
    }
  }

  // ------------------------------------------------------------------ theorems

  /** What one step of the worker does to the row, the job, the notes and the
      phase, the protocol can do in a few of its steps. */
  lemma StepIsAPath(env: Env, s: State, t: int, c: Calls) returns (run: seq<State>)
    requires JustClaimed(s, t) && Truthful(env, s, s.workers[t].job, c)
    ensures IsPath(env, run) && run[0] == s && Ends(env, s, t, c, Last(run))
  {
    var w := s.workers[t];
    var a := NextAction(w.job, w.cancel);
    if a in {CloseCancelled, MarkSubmit} {
      run := LocalPath(env, s, t, c);
    } else if a != CheckFront {
      run := CallPath(env, s, t, c);
    } else if c.front != Some(true) {
      run := BehindPath(env, s, t, c);
    } else if FrontAction(w.job) == AppendNote {
      if c.append == NoteSaved { run := AppendedPath(env, s, t, c); } else { run := NotAppendedPath(env, s, t, c); }
    } else if FrontAction(w.job) == Prepare {
      run := PreparePath(env, s, t, c);
    } else if c.edit == Missing && c.send.Some? {
      run := RecreatePath(env, s, t, c);
    } else {
      run := EditPath(env, s, t, c);
    }
  }

  lemma Claims(env: Env, s: State, id: string) returns (run: seq<State>)
    requires id in s.rows && s.rows[id].payload.id == id && Claimable(s.rows[id], s.now)
    ensures IsPath(env, run) && run[0] == s && JustClaimed(Last(run), s.nextToken)
    ensures StartAt(Last(run), s.nextToken) == Claimed(s.rows, id, s.nextToken, s.now)
    ensures Last(run).files == s.files && Last(run).heard == s.heard && Last(run).now == s.now && Last(run).nextToken == s.nextToken + 1
    ensures Last(run).workers[s.nextToken].snap == s.rows[id].payload
    ensures forall chat, msg :: IsFront(s.rows, chat, msg) ==> IsFront(Last(run).rows, chat, msg)
  {
    var row, t := s.rows[id], s.nextToken;
    var s' := Put(s, t, Worker(row.payload, row.cancel, row.payload, Ready))
              .(rows := s.rows[id := ClaimRow(row, t, s.now)], nextToken := t + 1);
    run := Longer(env, [s], s', Claim(id));
  }

  lemma Releases(env: Env, run: seq<State>, t: int, st: Start, c: Calls, db: Commit) returns (more: seq<State>)
    requires IsPath(env, run) && t in Last(run).workers && st.token == t && Last(run).now == st.now
    requires st.job.id in st.rows && Last(run).rows == RowsAfter(st, c) && Last(run).workers[t].snap.id == st.job.id
    requires Last(run).workers[t].job == JobAfter(st, c)
    requires Last(run).workers[t].phase == Releasing(Final(Chosen(st.job, st.cancel, c)) && Succeeds(st, c))
    ensures IsPath(env, more) && more[0] == run[0]
    ensures Last(more) == Last(run).(workers := Last(run).workers - {t}, rows := PassRows(st, c, db))
  {
    hide Chosen, Succeeds, Sets, Writes, JobAfter;
    var s := Last(run);
    var nextAt := Released(st, c).nextAt;
    var s' := s.(workers := s.workers - {t}, rows := PassRows(st, c, db));
    assert st.job.id in RowsAfter(st, c);
    assert ReleaseStep(s, s', t, s.workers[t], db != Failed, nextAt);
    more := Longer(env, run, s', Release(t, db != Failed, nextAt));
  }

  /** A pass of the loop over the table is a run of the protocol: from any state
      with a claimable row, to the table that RunVoiceJob leaves behind. */
  lemma PassIsARun(env: Env, s: State, id: string, c: Calls, db: Commit) returns (run: seq<State>)
    requires id in s.rows && s.rows[id].payload.id == id && Claimable(s.rows[id], s.now)
    requires Truthful(env, s, s.rows[id].payload, c)
    ensures IsPath(env, run) && run[0] == s
    ensures Last(run).rows == PassRows(Claimed(s.rows, id, s.nextToken, s.now), c, db)
    ensures Last(run).now == s.now && Last(run).nextToken == s.nextToken + 1
    ensures Last(run).heard == s.heard + Hears(s.rows[id].payload, s.rows[id].cancel, c)
  {
    var t := s.nextToken;
    var first := Claims(env, s, id);
    var m := Last(first);
    hide IsPath, NextStep, PassRows, RowsAfter, Append, Claimed, IsFront, Sets, Chosen, Succeeds;
    var steps := StepIsAPath(env, m, t, c);
    run := Joined(env, first, steps);
    run := Releases(env, run, t, StartAt(m, t), c, db);
  }

  lemma Joined(env: Env, a: seq<State>, b: seq<State>) returns (run: seq<State>)
    requires IsPath(env, a) && IsPath(env, b) && Last(a) == b[0]
    ensures IsPath(env, run) && run[0] == a[0] && Last(run) == Last(b) && a <= run
  {
    run := a + b[1..];
    forall k | 0 <= k < |run| - 1 ensures Next(env, run[k], run[k + 1]) {
      if k < |a| - 1 {
        assert run[k] == a[k] && run[k + 1] == a[k + 1];
      } else {
        assert run[k] == b[k - |a| + 1] && run[k + 1] == b[k - |a| + 2];
      }
    }
  }

  /** So the passes of the code extend runs to runs, and every theorem about runs
      is about the tables and notes the code leaves. */
  lemma PassExtendsRun(env: Env, run: seq<State>, id: string, c: Calls, db: Commit) returns (more: seq<State>)
    requires IsRun(env, run)
    requires var s := Last(run);
      && id in s.rows && s.rows[id].payload.id == id && Claimable(s.rows[id], s.now)
      && Truthful(env, s, s.rows[id].payload, c)
    ensures IsRun(env, more) && run <= more
    ensures var s := Last(run); Last(more).rows == PassRows(Claimed(s.rows, id, s.nextToken, s.now), c, db)
    ensures var s := Last(run); Last(more).heard == s.heard + Hears(s.rows[id].payload, s.rows[id].cancel, c)
  {
    var s := Last(run);
    var pass := PassIsARun(env, s, id, c, db);
    hide NextStep, Next, Init, PassRows, Claimed, Truthful, Claimable;
    assert IsPath(env, run);
    more := Joined(env, run, pass);
  }
}
