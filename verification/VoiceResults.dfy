/** Where the result of a voice job comes from: over every run, what a row holds is
    what the backend answered for it, word for word, or a cancellation by the user. */
module VoiceResults {
  import opened Text
  import opened NoteMarkers
  import opened NoteVault
  import opened Options
  import opened VoiceJob
  import opened VoiceProtocol
  import opened VoiceGuarantees

  type Heard = set<(string, Reply)>

  /** What a job says its backend answered was answered, and only a cancelled job
      says it was cancelled. */
  predicate Told(heard: Heard, p: Payload, cancel: bool) {
    && (p.resultReady && p.error == "" ==> (p.id, Transcribed(p.text)) in heard)
    && (p.error == "" || p.error == "inference_failed" || p.error == "cancelled")
    && (p.error == "inference_failed" ==> (p.id, InferenceFailed) in heard)
    && (p.error == "cancelled" ==> cancel)
    && (p.remoteId != "" ==> (p.id, Uploaded(p.remoteId)) in heard)
    && (p.acked ==> (p.id, Acknowledged) in heard)
  }

  predicate PreviewTold(heard: Heard, p: Payload) {
    p.prepared != "" ==> (p.id, PreparedAs(p.prepared)) in heard
  }

  /** Once a job is closed its preview may be refined. */
  predicate RowTold(heard: Heard, row: Row) {
    Told(heard, row.payload, row.cancel) && (row.done || PreviewTold(heard, row.payload))
  }

  predicate WorkerTold(s: State, w: Worker) {
    && Told(s.heard, w.job, w.cancel) && PreviewTold(s.heard, w.job)
    && w.snap.id in s.rows && (w.cancel ==> s.rows[w.snap.id].cancel)
  }

  predicate AllTold(s: State) {
    (forall id <- s.rows :: RowTold(s.heard, s.rows[id])) && (forall t <- s.workers :: WorkerTold(s, s.workers[t]))
  }

  // ------------------------------------------------------------------- steps

  lemma ToldOn(a: Heard, b: Heard, p: Payload, cancel: bool, cancel': bool)
    requires Told(a, p, cancel) && a <= b && (cancel ==> cancel')
    ensures Told(b, p, cancel') && (PreviewTold(a, p) ==> PreviewTold(b, p))
  {
  }

  lemma RowToldOn(a: Heard, b: Heard, row: Row, row': Row)
    requires RowTold(a, row) && a <= b && row'.payload == row.payload && (row.cancel ==> row'.cancel) && row'.done == row.done
    ensures RowTold(b, row')
  {
    ToldOn(a, b, row.payload, row.cancel, row'.cancel);
  }

  lemma WorkerToldOn(s: State, s': State, w: Worker, w': Worker)
    requires WorkerTold(s, w) && s.heard <= s'.heard && w'.job == w.job && w'.snap == w.snap && w'.cancel == w.cancel
    requires w.snap.id in s'.rows && (s.rows[w.snap.id].cancel ==> s'.rows[w.snap.id].cancel)
    ensures WorkerTold(s', w')
  {
    ToldOn(s.heard, s'.heard, w.job, w.cancel, w.cancel);
  }

  /** A reply is kept in the job just as it was heard. */
  lemma ReplyTold(heard: Heard, p: Payload, cancel: bool, a: Action, r: Reply)
    requires Told(heard, p, cancel) && PreviewTold(heard, p) && Coherent(p) && Takes(p, cancel, a) && Answers(a, r)
    ensures var q, more := Checkpoint(p, r), heard + {(p.id, r)}; Told(more, q, cancel) && PreviewTold(more, q)
  {
  }

  lemma LocalTold(heard: Heard, p: Payload, cancel: bool)
    requires Told(heard, p, cancel) && PreviewTold(heard, p) && Coherent(p) && NextAction(p, cancel) in {CloseCancelled, MarkSubmit}
    ensures var q := LocalCheckpoint(p, NextAction(p, cancel)); Told(heard, q, cancel) && PreviewTold(heard, q)
  {
  }

  /** The flag of a cancelled row stays, and rows stay. */
  predicate CancelsStay(a: Rows, b: Rows) {
    forall id <- a :: id in b && (a[id].cancel ==> b[id].cancel)
  }

  /** The rows a step leaves are as they were, or hold a worker's copy of the job. */
  predicate RowFrom(s: State, row': Row) {
    || (exists id <- s.rows :: SameResult(s.rows[id], row'))
    || (exists t <- s.workers :: HoldsCopy(s, row', s.workers[t]))
    || Fresh(row'.payload)
  }

  predicate SameResult(row: Row, row': Row) {
    && (row.cancel ==> row'.cancel) && row'.done == row.done
    && (row'.payload == row.payload || (row.done && row'.payload == row.payload.(prepared := row'.payload.prepared)))
  }

  predicate HoldsCopy(s: State, row': Row, w: Worker) {
    row'.payload == w.job && w.snap.id in s.rows && row'.cancel == s.rows[w.snap.id].cancel
  }

  lemma RowFromTold(s: State, heard: Heard, row': Row)
    requires AllTold(s) && s.heard <= heard && RowFrom(s, row')
    ensures RowTold(heard, row')
  {
    if id :| id in s.rows && SameResult(s.rows[id], row') {
      assert RowTold(s.heard, s.rows[id]);
      ToldOn(s.heard, heard, s.rows[id].payload, s.rows[id].cancel, row'.cancel);
    } else if t :| t in s.workers && HoldsCopy(s, row', s.workers[t]) {
      assert WorkerTold(s, s.workers[t]);
      ToldOn(s.heard, heard, s.workers[t].job, s.workers[t].cancel, row'.cancel);
    }
  }

  lemma SameRow(s: State, id: string, row': Row)
    requires id in s.rows && SameResult(s.rows[id], row')
    ensures RowFrom(s, row')
  {
  }

  lemma CopyRow(s: State, t: int, row': Row)
    requires t in s.workers && HoldsCopy(s, row', s.workers[t])
    ensures RowFrom(s, row')
  {
  }

  predicate RowsFromHere(s: State, rows: Rows) {
    forall id <- rows :: RowFrom(s, rows[id])
  }

  lemma OneRow(s: State, id: string, row': Row)
    requires RowFrom(s, row') && (id in s.rows && s.rows[id].cancel ==> row'.cancel)
    ensures CancelsStay(s.rows, s.rows[id := row'])
    ensures RowsFromHere(s, s.rows[id := row'])
  {
    hide RowFrom;
    var rows := s.rows[id := row'];
    forall x <- rows ensures RowFrom(s, rows[x]) {
      if x != id { SameRow(s, x, s.rows[x]); }
    }
  }

  lemma RowsFrom(env: Env, s: State, s': State, step: Step)
    requires Core(s) && NextStep(env, s, s', step)
    ensures CancelsStay(s.rows, s'.rows)
    ensures RowsFromHere(s, s'.rows)
  {
    hide RowFrom, RowsFromHere, CancelsStay, Core, Fresh, Known, Holds, Claimable, Append;
    if WritesRows(step) {
      match step
      case Enqueue(p) =>
        if s'.rows != s.rows { assert RowFrom(s, s'.rows[p.id]) by { NewRow(s, s'.rows[p.id]); } OneRow(s, p.id, s'.rows[p.id]); }
        else { RowsSame(s); }
      case Cancel(id) => SameRow(s, id, s'.rows[id]); OneRow(s, id, s'.rows[id]);
      case Claim(id) => SameRow(s, id, s'.rows[id]); OneRow(s, id, s'.rows[id]);
      case Refine(id, blob) => SameRow(s, id, s'.rows[id]); OneRow(s, id, s'.rows[id]);
      case Save(t, _, _) =>
        if s'.rows == s.rows { RowsSame(s); } else { var id := s.workers[t].snap.id; CopyRow(s, t, s'.rows[id]); OneRow(s, id, s'.rows[id]); }
      case Release(t, _, _) =>
        if s'.rows == s.rows { RowsSame(s); } else { var id := s.workers[t].snap.id; CopyRow(s, t, s'.rows[id]); OneRow(s, id, s'.rows[id]); }
    } else {
      OtherStepsKeepRows(env, s, s', step);
      RowsSame(s);
    }
  }

  lemma NewRow(s: State, row': Row)
    requires Fresh(row'.payload)
    ensures RowFrom(s, row')
  {
  }

  lemma RowsSame(s: State)
    ensures CancelsStay(s.rows, s.rows)
    ensures RowsFromHere(s, s.rows)
  {
    hide RowFrom;
    forall x <- s.rows ensures RowFrom(s, s.rows[x]) { SameRow(s, x, s.rows[x]); }
  }

  lemma HeardGrows(env: Env, s: State, s': State, step: Step)
    requires NextStep(env, s, s', step)
    ensures s.heard <= s'.heard
    ensures s'.heard == s.heard || step.Receive?
  {
    hide Append, Claimable, Holds, NextAction, FrontAction, Coherent, Fresh, EnqueueRow, Checkpoint, LocalCheckpoint;
  }

  // ------------------------------------------------------------ what workers hold

  /** A worker's copy changes by a reply, a local checkpoint, or a recreated message. */
  lemma WorkerFrom(env: Env, s: State, s': State, step: Step, t: int)
    requires Core(s) && AllTold(s) && NextStep(env, s, s', step) && t in s'.workers
    requires CancelsStay(s.rows, s'.rows) && s.heard <= s'.heard
    ensures WorkerTold(s', s'.workers[t])
  {
    if step.Claim? && t == s.nextToken {
      assert RowOk(s, step.id);
      ClaimTold(s, s', step.id);
    } else {
      Changed(env, s, s', step, t);
      var w, w' := s.workers[t], s'.workers[t];
      assert WorkerOk(s, w) && WorkerTold(s, w);
      hide *;
      if SameWork(w, w') {
        SameTold(s, s', w, w');
      } else {
        WorkTold(env, s, s', step, t, w);
      }
    }
  }

  predicate SameWork(w: Worker, w': Worker) {
    w'.job == w.job && w'.snap == w.snap && w'.cancel == w.cancel
  }

  lemma SameTold(s: State, s': State, w: Worker, w': Worker)
    requires SameWork(w, w') && WorkerTold(s, w) && CancelsStay(s.rows, s'.rows) && s.heard <= s'.heard
    ensures WorkerTold(s', w')
  {
    WorkerToldOn(s, s', w, w');
  }

  lemma ClaimTold(s: State, s': State, id: string)
    requires AllTold(s) && ClaimStep(s, s', id) && RowOk(s, id)
    ensures WorkerTold(s', s'.workers[s.nextToken])
  {
    assert RowTold(s.heard, s.rows[id]);
  }

  predicate Works(step: Step) {
    step.Local? || step.Receive? || step.Recreated? || step.ExecuteReply?
  }

  /** Only worker `t` may have changed, and if it did not work it holds the same job. */
  predicate OnlyWorker(s: State, s': State, step: Step, t: int) {
    forall u <- s'.workers :: u in s.workers && (SameWork(s.workers[u], s'.workers[u]) || (u == t && Works(step)))
  }

  lemma WorkerStepChanges(env: Env, s: State, s': State, t: int, w: Worker, step: Step)
    requires t in s.workers && w == s.workers[t] && WorkerStep(env, s, s', t, w, step)
    ensures OnlyWorker(s, s', step, t)
  {
    hide Append, Holds, NextAction, FrontAction, Checkpoint, LocalCheckpoint, Answers, IsFront, RequestOf;
  }

  lemma OtherStepChanges(env: Env, s: State, s': State, step: Step)
    requires NextStep(env, s, s', step) && !step.Claim?
    requires step.Enqueue? || step.Cancel? || step.Tick? || step.Execute? || step.Confirm? || step.Refine? || step.OtherWriters?
    ensures s'.workers == s.workers
  {
    hide Append, Fresh, EnqueueRow, RequestOf;
  }

  lemma NewWorker(s: State, s': State, id: string)
    requires ClaimStep(s, s', id)
    ensures forall u <- s'.workers :: u != s.nextToken ==> u in s.workers && s'.workers[u] == s.workers[u]
  {
    hide Claimable;
  }

  lemma Changed(env: Env, s: State, s': State, step: Step, t: int)
    requires NextStep(env, s, s', step) && t in s'.workers && !(step.Claim? && t == s.nextToken)
    ensures t in s.workers && (SameWork(s.workers[t], s'.workers[t]) || (Works(step) && step.t == t))
  {
    hide NextStep, ClaimStep, WorkerStep, OnlyWorker;
    ByKind(env, s, s', step);
    if step.Claim? {
      NewWorker(s, s', step.id);
      SameIsSame(s'.workers[t]);
    } else if ForWorker(step) {
      WorkerStepChanges(env, s, s', step.t, s.workers[step.t], step);
      OnlyWorkerAt(s, s', step, step.t, t);
    } else {
      OtherStepChanges(env, s, s', step);
      SameIsSame(s'.workers[t]);
    }
  }

  lemma SameIsSame(w: Worker)
    ensures SameWork(w, w)
  {
  }

  lemma OnlyWorkerAt(s: State, s': State, step: Step, t: int, u: int)
    requires OnlyWorker(s, s', step, t) && u in s'.workers
    ensures u in s.workers && (SameWork(s.workers[u], s'.workers[u]) || (Works(step) && u == t))
  {
  }

  predicate ForWorker(step: Step) {
    !step.Enqueue? && !step.Cancel? && !step.Tick? && !step.Execute? && !step.Confirm? && !step.Refine? && !step.OtherWriters?
    && !step.Claim?
  }

  lemma ByKind(env: Env, s: State, s': State, step: Step)
    requires NextStep(env, s, s', step)
    ensures step.Claim? ==> ClaimStep(s, s', step.id)
    ensures ForWorker(step) ==> step.t in s.workers && WorkerStep(env, s, s', step.t, s.workers[step.t], step)
    ensures !ForWorker(step) && !step.Claim? ==>
      step.Enqueue? || step.Cancel? || step.Tick? || step.Execute? || step.Confirm? || step.Refine? || step.OtherWriters?
  {
    hide WorkerStep, ClaimStep, Append, Fresh, EnqueueRow, RequestOf;
  }

  lemma WorkTold(env: Env, s: State, s': State, step: Step, t: int, w: Worker)
    requires t in s.workers && w == s.workers[t] && WorkerOk(s, w) && WorkerTold(s, w) && NextStep(env, s, s', step)
    requires Works(step) && step.t == t
    ensures t in s'.workers && WorkerTold(s', s'.workers[t])
  {
    hide Told, PreviewTold, WorkerTold, WorkerOk, LocalStep, ReceiveStep, RecreatedStep, ExecuteReplyStep;
    match step
    case Local(_) => LocalWorkTold(s, s', t, w);
    case Receive(_, r) => ReceiveTold(s, s', t, w, r);
    case Recreated(_, msg) => RecreatedTold(s, s', t, w, msg);
    case ExecuteReply(_, r) => RepliedTold(env, s, s', t, w, r);
  }

  lemma RecreatedTold(s: State, s': State, t: int, w: Worker, msg: int)
    requires WorkerTold(s, w) && RecreatedStep(s, s', t, w, msg)
    ensures t in s'.workers && WorkerTold(s', s'.workers[t])
  {
  }

  lemma RepliedTold(env: Env, s: State, s': State, t: int, w: Worker, r: Request)
    requires WorkerTold(s, w) && ExecuteReplyStep(env, s, s', r, t, w)
    ensures t in s'.workers && WorkerTold(s', s'.workers[t])
  {
    hide Append;
    AppendedTold(s.heard, w.job, w.cancel);
  }

  lemma LocalWorkTold(s: State, s': State, t: int, w: Worker)
    requires WorkerOk(s, w) && WorkerTold(s, w) && LocalStep(s, s', t, w)
    ensures t in s'.workers && WorkerTold(s', s'.workers[t])
  {
    LocalTold(s.heard, w.job, w.cancel);
    hide NextAction, LocalCheckpoint, Told, PreviewTold, Coherent, Extends;
  }

  lemma ReceiveTold(s: State, s': State, t: int, w: Worker, r: Reply)
    requires WorkerOk(s, w) && WorkerTold(s, w) && ReceiveStep(s, s', t, w, r)
    ensures t in s'.workers && WorkerTold(s', s'.workers[t])
  {
    ReplyTold(s.heard, w.job, w.cancel, w.phase.action, r);
    hide NextAction, FrontAction, Checkpoint, Told, PreviewTold, Coherent, Extends, Answers;
  }

  lemma AppendedTold(heard: Heard, p: Payload, cancel: bool)
    requires Told(heard, p, cancel) && PreviewTold(heard, p)
    ensures var q := Checkpoint(p, Appended); Told(heard, q, cancel) && PreviewTold(heard, q)
  {
  }

  // ------------------------------------------------------------------- theorem

  lemma StepTold(env: Env, s: State, s': State, step: Step)
    requires Core(s) && AllTold(s) && NextStep(env, s, s', step)
    ensures AllTold(s')
  {
    hide *;
    RowsFrom(env, s, s', step);
    HeardGrows(env, s, s', step);
    forall id <- s'.rows ensures RowTold(s'.heard, s'.rows[id]) {
      FromHere(s, s'.rows, id);
      RowFromTold(s, s'.heard, s'.rows[id]);
    }
    forall t <- s'.workers ensures WorkerTold(s', s'.workers[t]) { WorkerFrom(env, s, s', step, t); }
    AllToldIs(s');
  }

  lemma FromHere(s: State, rows: Rows, id: string)
    requires RowsFromHere(s, rows) && id in rows
    ensures RowFrom(s, rows[id])
  {
    hide RowFrom;
  }

  lemma AllToldIs(s: State)
    requires forall id <- s.rows :: RowTold(s.heard, s.rows[id])
    requires forall t <- s.workers :: WorkerTold(s, s.workers[t])
    ensures AllTold(s)
  {
  }

  lemma {:induction false} RunTold(env: Env, run: seq<State>, k: nat)
    requires IsRun(env, run) && Unmarked(env.template) && k < |run|
    ensures AllTold(run[k])
  {
    if k > 0 {
      RunTold(env, run, k - 1);
      RunStep(env, run, k - 1);
      var step :| NextStep(env, run[k - 1], run[k], step);
      StepTold(env, run[k - 1], run[k], step);
    }
  }

  /** In every reachable state a result that is ready is the transcript the backend
      answered, word for word, unless the backend answered that the inference failed
      or the user cancelled the job; and the id under which the backend is asked is the
      one it gave. */
  lemma ResultIsTheAnswer(env: Env, run: seq<State>, k: nat, id: string)
    requires IsRun(env, run) && Unmarked(env.template) && k < |run| && id in run[k].rows
    ensures var row, heard := run[k].rows[id], run[k].heard;
      && (row.payload.resultReady ==>
            || (row.payload.error == "" && (id, Transcribed(row.payload.text)) in heard)
            || (row.payload.error == "inference_failed" && row.payload.text == "" && (id, InferenceFailed) in heard)
            || (row.payload.error == "cancelled" && row.payload.text == "" && row.cancel))
      && (row.payload.remoteId != "" ==> (id, Uploaded(row.payload.remoteId)) in heard)
      && (row.payload.acked ==> (id, Acknowledged) in heard)
      && (row.payload.prepared != "" && !row.done ==> (id, PreparedAs(row.payload.prepared)) in heard)
  {
    RunTold(env, run, k);
    RunInv(env, run, k);
    assert RowTold(run[k].heard, run[k].rows[id]) && RowOk(run[k], id);
  }

  /** The backend, when it answered, answered with this transcript. */
  ghost predicate Says(heard: Heard, id: string, t: string) {
    && (id, InferenceFailed) !in heard
    && forall x :: (id, Transcribed(x)) in heard ==> x == t
  }

  /** Then, unless the user cancelled it in time, that is what the row of a ready job holds. */
  lemma TranscriptIsStored(env: Env, run: seq<State>, k: nat, id: string, t: string)
    requires IsRun(env, run) && Unmarked(env.template) && k < |run| && Says(run[k].heard, id, t)
    requires id in run[k].rows && run[k].rows[id].payload.resultReady
    requires run[k].rows[id].cancel ==> run[k].rows[id].payload.error == ""
    ensures run[k].rows[id].payload.text == t && run[k].rows[id].payload.error == ""
  {
    ResultIsTheAnswer(env, run, k, id);
  }

  /** And once the job is closed, if it is a note job and the transcript has text,
      exactly one step of the run wrote that transcript with its marker, as a block at
      the end of the note the job was accepted for, and changed no other note. */
  lemma TranscriptIsWritten(env: Env, run: seq<State>, k: nat, id: string, t: string) returns (j: nat)
    requires IsRun(env, run) && Unmarked(env.template) && k < |run| && Says(run[k].heard, id, t) && t != ""
    requires id in run[k].rows && run[k].rows[id].done && run[k].rows[id].payload.mode == Note
    requires run[k].rows[id].cancel ==> run[k].rows[id].payload.error == ""
    ensures j < k
    ensures var p := run[k].rows[id].payload;
      var f := if p.relpath != "" then env.resolve(p.relpath) else Daily(p.date);
      var marker := MarkerLine("voice:" + id, if p.relpath != "" then env.clean(p.relpath) else p.date, t);
      var base := if f in run[j].files then run[j].files[f] else env.template(p.date);
      run[j + 1].files == run[j].files[f := With(base, t + "\n" + marker)]
    ensures forall i :: 0 <= i < |run| - 1 && WritesBlock(env, run[i], run[i + 1], id) <==> i == j
  {
    RunInv(env, run, k);
    assert RowOk(run[k], id);
    TranscriptIsStored(env, run, k, id, t);
    j := WrittenOnce(env, run, k, id);
    CheckpointsNeverGoBack(env, run, j, k);
    BlockWritten(env, run[j], run[j + 1], id);
  }

  lemma BlockWritten(env: Env, s: State, s': State, id: string)
    requires WritesBlock(env, s, s', id) && s.rows[id].payload.id == id
    ensures var p := s.rows[id].payload;
      var f := if p.relpath != "" then env.resolve(p.relpath) else Daily(p.date);
      var marker := MarkerLine("voice:" + id, if p.relpath != "" then env.clean(p.relpath) else p.date, p.text);
      var base := if f in s.files then s.files[f] else env.template(p.date);
      s'.files == s.files[f := With(base, p.text + "\n" + marker)]
  {
    var p := s.rows[id].payload;
    var f := if p.relpath != "" then env.resolve(p.relpath) else Daily(p.date);
    BlockIs(if f in s.files then s.files[f] else env.template(p.date), "voice:" + id, if p.relpath != "" then env.clean(p.relpath) else p.date, p.text);
    hide MarkerLine, With, AppendBlock, Marker, HasText;
  }

  // ------------------------------------------------------------ appends succeed

  /** An id as the bot makes them: hexadecimal figures and dashes. */
  predicate HexId(id: string) {
    1 <= |id| <= 122 && forall c <- id :: c in "0123456789abcdefABCDEF-"
  }

  lemma VoiceOperation(id: string)
    requires HexId(id)
    ensures OperationId("voice:" + id)
  {
    forall c | c in "voice:" + id ensures c in UPPER || c in LOWER || c in "0123456789" || c in ['_', '.', ':', '-'] {
      if c in id {
        HexCharacter(c);
      } else {
        assert c in "voice:";
        VoiceCharacter(c);
      }
    }
  }

  lemma HexCharacter(c: char)
    requires c in "0123456789abcdefABCDEF-"
    ensures c in UPPER || c in LOWER || c in "0123456789" || c == '-'
  {
    IsUpper(c);
    IsLower(c);
    IsFigure(c);
    hide UPPER, LOWER;
  }

  lemma VoiceCharacter(c: char)
    requires c in "voice:"
    ensures c in LOWER || c == ':'
  {
    IsLower(c);
    hide LOWER;
  }

  /** The note of an append is there, or can be made. */
  ghost predicate HasNote(env: Env, files: Files, r: Request) {
    if r.relpath != "" then env.resolve(r.relpath) in files else NamesDay(r.date)
  }

  /** The append of a voice job that no note holds yet succeeds: the note the job was
      accepted for ends in the transcript and the marker, and no other note changes. */
  lemma VoiceAppendWrites(env: Env, files: Files, r: Request)
    requires HexId(r.id) && HasNote(env, files, r) && !Contains(r.text, "<!-- notes-bot:append:")
    requires forall f <- files :: Hits(files[f], "voice:" + r.id) == []
    ensures var f := if r.relpath != "" then env.resolve(r.relpath) else Daily(r.date);
      var marker := MarkerLine("voice:" + r.id, if r.relpath != "" then env.clean(r.relpath) else r.date, r.text);
      var base := if f in files then files[f] else env.template(r.date);
      Append(env, files, r) == (files[f := With(base, r.text + "\n" + marker)], Done)
  {
    VoiceOperation(r.id);
    hide HexId, OperationId, Hits, MarkerLine, With, NamesDay, Contains, AppendOnce, AppendPathOnce;
    if r.relpath != "" {
      AppendPathOnceWrites(files, env.clean(r.relpath), env.resolve(r.relpath), r.text, "voice:" + r.id);
    } else {
      AppendOnceWrites(files, env.template, r.date, r.text, "voice:" + r.id);
    }
  }

  /** In every reachable state, a request once sent is answered that it is done, whether
      it was executed before or not, unless its note is missing or its text is refused. */
  lemma RequestSucceeds(env: Env, run: seq<State>, k: nat, r: Request)
    requires IsRun(env, run) && Unmarked(env.template) && k < |run| && r in run[k].requests
    requires HexId(r.id) && HasNote(env, run[k].files, r) && !Contains(r.text, "<!-- notes-bot:append:")
    ensures Append(env, run[k].files, r).1 == Done
  {
    RunInv(env, run, k);
    AppendEffect(env, run[k], r);
    VoiceOperation(r.id);
    var files := run[k].files;
    hide HexId, OperationId, Hits, MarkerLine, NamesDay, Contains, AppendOnce, AppendPathOnce, Inv, IsRun;
    if r.relpath != "" {
      AppendPathOnceAnswers(files, env.clean(r.relpath), env.resolve(r.relpath), r.text, "voice:" + r.id);
    } else {
      AppendOnceAnswers(files, env.template, r.date, r.text, "voice:" + r.id);
    }
  }
}
