/** What every run of the voice protocol guarantees. */
module VoiceGuarantees {
  import opened NoteMarkers
  import opened NoteVault
  import opened Options
  import opened VoiceJob
  import opened VoiceProtocol

  // ------------------------------------------------------------ checkpoints

  lemma NextEvolves(env: Env, s: State, s': State)
    requires Inv(env, s) && Next(env, s, s')
    ensures Evolves(s.rows, s'.rows)
  {
    var step :| NextStep(env, s, s', step);
    StepEvolves(env, s, s', step);
  }

  lemma RunStep(env: Env, run: seq<State>, k: nat)
    requires IsRun(env, run) && Unmarked(env.template) && k < |run| - 1
    ensures Inv(env, run[k]) && Next(env, run[k], run[k + 1]) && Evolves(run[k].rows, run[k + 1].rows)
  {
    RunInv(env, run, k);
    assert Next(env, run[k], run[k + 1]);
    NextEvolves(env, run[k], run[k + 1]);
  }

  lemma {:induction false} EvolvesChain(chain: seq<Rows>, i: nat, j: nat)
    requires i <= j < |chain| && forall k :: 0 <= k < |chain| - 1 ==> Evolves(chain[k], chain[k + 1])
    ensures Evolves(chain[i], chain[j])
  {
    if i == j {
      EvolvesRefl(chain[i]);
    } else {
      EvolvesChain(chain, i, j - 1);
      assert Evolves(chain[j - 1], chain[j - 1 + 1]);
      EvolvesTrans(chain[i], chain[j - 1], chain[j]);
    }
  }

  /** Durable flags never go back, whoever writes: a job keeps its identity,
      destination and mode, and a result once stored is final. */
  lemma CheckpointsNeverGoBack(env: Env, run: seq<State>, i: nat, j: nat)
    requires IsRun(env, run) && Unmarked(env.template) && i <= j < |run|
    ensures Evolves(run[i].rows, run[j].rows)
  {
    var chain := seq(|run|, k requires 0 <= k < |run| => run[k].rows);
    forall k | 0 <= k < |chain| - 1 ensures Evolves(chain[k], chain[k + 1]) {
      RunStep(env, run, k);
    }
    EvolvesChain(chain, i, j);
  }

  /** The backend is asked to forget a job only once the row holds the final
      result: whatever state follows, that result is the one stored. */
  lemma AckedResultIsStored(env: Env, run: seq<State>, i: nat, j: nat, id: string)
    requires IsRun(env, run) && Unmarked(env.template) && i <= j < |run| && id in run[i].acks
    ensures id in run[i].rows && run[i].rows[id].payload.resultReady
    ensures id in run[j].rows && run[j].rows[id].payload.text == run[i].rows[id].payload.text
         && run[j].rows[id].payload.error == run[i].rows[id].payload.error
  {
    RunInv(env, run, i);
    CheckpointsNeverGoBack(env, run, i, j);
  }

  /** A job closed as cancelled with no remote id was never uploaded, by any
      worker, and never will be. */
  lemma CancelledNeverUploaded(env: Env, run: seq<State>, i: nat, j: nat, id: string)
    requires IsRun(env, run) && Unmarked(env.template) && i < |run| && j < |run|
    requires id in run[i].rows
    requires var p := run[i].rows[id].payload; p.resultReady && p.error == "cancelled" && p.remoteId == ""
    ensures id !in run[j].uploads
  {
    var m := if i <= j then j else i;
    CheckpointsNeverGoBack(env, run, i, m);
    RunInv(env, run, m);
    assert RowOk(run[m], id);
    assert id !in run[m].uploads;
    UploadsGrow(env, run, j, m);
  }

  lemma UploadsOnlyGrow(env: Env, s: State, s': State)
    requires Next(env, s, s')
    ensures s.uploads <= s'.uploads
  {
    var step :| NextStep(env, s, s', step);
    hide Append, Claimable, Holds, NextAction, FrontAction, Coherent;
  }

  lemma {:induction false} GrowingChain(chain: seq<set<string>>, i: nat, j: nat)
    requires i <= j < |chain| && forall k :: 0 <= k < |chain| - 1 ==> chain[k] <= chain[k + 1]
    ensures chain[i] <= chain[j]
  {
    if i < j {
      GrowingChain(chain, i, j - 1);
      assert chain[j - 1] <= chain[j - 1 + 1];
    }
  }

  lemma UploadsGrow(env: Env, run: seq<State>, i: nat, j: nat)
    requires IsRun(env, run) && Unmarked(env.template) && i <= j < |run|
    ensures run[i].uploads <= run[j].uploads
  {
    var chain := seq(|run|, k requires 0 <= k < |run| => run[k].uploads);
    forall k | 0 <= k < |chain| - 1 ensures chain[k] <= chain[k + 1] {
      RunStep(env, run, k);
      UploadsOnlyGrow(env, run[k], run[k + 1]);
    }
    GrowingChain(chain, i, j);
  }

  // ------------------------------------------------------------- exactly once

  /** The marker that the job of a row leaves, and where. */
  function JobMarker(env: Env, p: Payload): string {
    MarkerOf(env, RequestOf(p))
  }

  function JobFile(env: Env, p: Payload): File {
    Dest(env, RequestOf(p))
  }

  /** In every reachable state: a message has at most one job; no operation has
      more than one marker in the notes, nor a marker outside its destination;
      and a closed note job with a transcript has its marker exactly once. */
  lemma ExactlyOnce(env: Env, run: seq<State>, k: nat)
    requires IsRun(env, run) && Unmarked(env.template) && k < |run|
    ensures Distinct(run[k].rows)
    ensures forall id, f :: f in run[k].files && Hits(run[k].files[f], Op(id)) != [] ==>
      && id in run[k].rows && f == JobFile(env, run[k].rows[id].payload)
      && Hits(run[k].files[f], Op(id)) == [JobMarker(env, run[k].rows[id].payload)]
    ensures forall id <- run[k].rows :: Delivered(env, run[k], id)
  {
    RunInv(env, run, k);
    var s := run[k];
    forall id, f | f in s.files && Hits(s.files[f], Op(id)) != []
      ensures id in s.rows && f == JobFile(env, s.rows[id].payload) && Hits(s.files[f], Op(id)) == [JobMarker(env, s.rows[id].payload)]
    {
      assert Hits(s.files[f], Op(id)) == ExpectedHits(env, s, id, f);
    }
    forall id <- s.rows ensures Delivered(env, s, id) {
      assert RowOk(s, id);
      if NeedsNote(s.rows[id]) {
        assert id in s.log;
        var f := JobFile(env, s.rows[id].payload);
        assert Hits(s.files[f], Op(id)) == ExpectedHits(env, s, id, f);
      }
    }
  }

  predicate NeedsNote(row: Row) {
    row.done && row.payload.mode == Note && row.payload.error == "" && row.payload.text != ""
  }

  predicate Delivered(env: Env, s: State, id: string)
    requires id in s.rows
  {
    var p := s.rows[id].payload;
    NeedsNote(s.rows[id]) ==> JobFile(env, p) in s.files && Hits(s.files[JobFile(env, p)], Op(id)) == [JobMarker(env, p)]
  }

  /** The one step in which an operation takes effect writes its text and its
      marker as one block at the end of its destination, and nothing else. */
  ghost predicate WritesBlock(env: Env, s: State, s': State, id: string) {
    && id in s.rows && id !in s.log && s'.log == s.log + [id] && HasText(s.rows[id].payload)
    && var p := s.rows[id].payload;
       var f := JobFile(env, p);
       var base := if f in s.files then s.files[f] else env.template(p.date);
    s'.files == s.files[f := AppendBlock(base, p.text + "\n" + JobMarker(env, p))]
  }

  lemma AppendWritesBlock(env: Env, s: State, files: Files, r: Request)
    requires Inv(env, s) && Unmarked(env.template) && r in s.requests
    requires files == Append(env, s.files, r).0 && files != s.files
    ensures WritesBlock(env, s, s.(files := files, log := s.log + [r.id]), r.id)
  {
    assert RequestOk(s, r);
    AppendEffect(env, s, r);
  }

  ghost predicate BlockOrNothing(env: Env, s: State, s': State) {
    || (exists id :: WritesBlock(env, s, s', id))
    || (s'.log == s.log && (s'.files == s.files || WritersStep(s, s', s'.files)))
  }

  /** Every change the protocol makes to the notes is one such block; a retried
      or late append of an operation already written changes nothing. */
  lemma ChangesAreBlocks(env: Env, run: seq<State>, k: nat)
    requires IsRun(env, run) && Unmarked(env.template) && k < |run| - 1
    ensures BlockOrNothing(env, run[k], run[k + 1])
  {
    RunStep(env, run, k);
    var s, s' := run[k], run[k + 1];
    var step :| NextStep(env, s, s', step);
    if Executes(step) {
      ExecuteWrites(env, s, s', step);
      var files := Append(env, s.files, step.q).0;
      if files != s.files {
        AppendWritesBlock(env, s, files, step.q);
        assert WritesBlock(env, s, s', step.q.id);
      }
    } else {
      OtherStepsKeepNotes(env, s, s', step);
    }
  }

  predicate Grows(a: seq<string>, b: seq<string>) {
    a == b || (|b| == |a| + 1 && b == a + [b[|a|]])
  }

  lemma {:induction false} LogPrefix(logs: seq<seq<string>>, i: nat, j: nat)
    requires i <= j < |logs| && forall k :: 0 <= k < |logs| - 1 ==> Grows(logs[k], logs[k + 1])
    ensures logs[i] <= logs[j]
  {
    if i < j {
      LogPrefix(logs, i, j - 1);
      assert Grows(logs[j - 1], logs[j - 1 + 1]);
    }
  }

  /** An entry of the log was added in some step. */
  lemma {:induction false} AddedIn(logs: seq<seq<string>>, k: nat, id: string) returns (j: nat)
    requires k < |logs| && logs[0] == [] && id in logs[k]
    requires forall m :: 0 <= m < |logs| - 1 ==> Grows(logs[m], logs[m + 1])
    ensures j < k && logs[j + 1] == logs[j] + [id]
  {
    assert k > 0 && Grows(logs[k - 1], logs[k - 1 + 1]);
    if id in logs[k - 1] {
      j := AddedIn(logs, k - 1, id);
    } else {
      j := k - 1;
      var last := logs[k][|logs[k - 1]|];
      assert logs[k] == logs[k - 1] + [last] && id == last;
    }
  }

  lemma LogStep(env: Env, run: seq<State>, k: nat)
    requires IsRun(env, run) && Unmarked(env.template) && k < |run| - 1
    ensures Grows(run[k].log, run[k + 1].log)
    ensures forall id :: WritesBlock(env, run[k], run[k + 1], id) <==> run[k + 1].log == run[k].log + [id]
  {
    ChangesAreBlocks(env, run, k);
    var s, s' := run[k], run[k + 1];
    hide IsRun, JobFile, JobMarker, HasText;
    if id :| WritesBlock(env, s, s', id) {
      assert s'.log[|s.log|] == id;
      forall x | s'.log == s.log + [x] ensures x == id { assert s'.log[|s.log|] == x; }
    } else {
      forall x ensures s'.log != s.log + [x] { assert |s.log + [x]| == |s.log| + 1; }
    }
  }

  lemma ClosedIsLogged(env: Env, run: seq<State>, k: nat, id: string)
    requires IsRun(env, run) && Unmarked(env.template) && k < |run|
    requires id in run[k].rows && NeedsNote(run[k].rows[id])
    ensures id in run[k].log
  {
    RunInv(env, run, k);
    assert RowOk(run[k], id);
  }

  lemma LogsOf(env: Env, run: seq<State>) returns (logs: seq<seq<string>>)
    requires IsRun(env, run) && Unmarked(env.template)
    ensures |logs| == |run| > 0 && logs[0] == [] && forall m :: 0 <= m < |run| ==> logs[m] == run[m].log
    ensures forall m :: 0 <= m < |logs| - 1 ==> Grows(logs[m], logs[m + 1])
  {
    logs := seq(|run|, m requires 0 <= m < |run| => run[m].log);
    forall m | 0 <= m < |logs| - 1 ensures Grows(logs[m], logs[m + 1]) { LogStep(env, run, m); }
  }

  lemma OneBlock(env: Env, s: State, s': State, t: State, t': State, id: string)
    requires WritesBlock(env, s, s', id) && WritesBlock(env, t, t', id)
    ensures !(s'.log <= t.log)
  {
    assert s'.log[|s.log|] == id;
    PrefixMember(s'.log, t.log, id);
  }

  lemma PrefixMember(a: seq<string>, b: seq<string>, x: string)
    ensures a <= b && x in a ==> x in b
  {
    if a <= b && x in a {
      var i :| 0 <= i < |a| && a[i] == x;
      assert b[i] == x;
    }
  }

  /** For every closed note job with a transcript, exactly one step of the run wrote
      its text and marker. */
  lemma WrittenOnce(env: Env, run: seq<State>, k: nat, id: string) returns (j: nat)
    requires IsRun(env, run) && Unmarked(env.template) && k < |run|
    requires id in run[k].rows && NeedsNote(run[k].rows[id])
    ensures j < k && WritesBlock(env, run[j], run[j + 1], id)
    ensures forall i :: 0 <= i < |run| - 1 && WritesBlock(env, run[i], run[i + 1], id) ==> i == j
  {
    ClosedIsLogged(env, run, k, id);
    var logs := LogsOf(env, run);
    j := AddedIn(logs, k, id);
    LogStep(env, run, j);
    hide *;
    forall i | 0 <= i < |run| - 1 && WritesBlock(env, run[i], run[i + 1], id) ensures i == j {
      if i < j {
        LogPrefix(logs, i + 1, j);
        OneBlock(env, run[i], run[i + 1], run[j], run[j + 1], id);
      } else if j < i {
        LogPrefix(logs, j + 1, i);
        OneBlock(env, run[j], run[j + 1], run[i], run[i + 1], id);
      }
    }
  }

  // -------------------------------------------------------------------- order

  /** Jobs of a chat are accepted in the order of their messages. */
  predicate AcceptedInOrder(a: Rows, b: Rows) {
    forall id, x :: id in b && id !in a && x in a && a[x].payload.chat == b[id].payload.chat
      ==> a[x].payload.msg < b[id].payload.msg
  }

  ghost predicate IsOrderedRun(env: Env, run: seq<State>) {
    IsRun(env, run) && forall k :: 0 <= k < |run| - 1 ==> AcceptedInOrder(run[k].rows, run[k + 1].rows)
  }

  predicate Front(s: State, p: Payload) {
    IsFront(s.rows, p.chat, p.msg)
  }

  ghost predicate OrderInv(s: State) {
    && (forall t <- s.workers :: NearAppend(s.workers[t]) ==> Front(s, s.workers[t].job))
    && (forall r <- s.requests :: r.id in s.rows && s.rows[r.id].payload.mode == Note ==> Front(s, s.rows[r.id].payload))
    && LogInOrder(s)
  }

  predicate LogInOrder(s: State) {
    forall i, j :: 0 <= i < j < |s.log| ==> InOrder(s.rows, s.log[i], s.log[j])
  }

  /** Note jobs of one chat: the first came before the second. */
  predicate InOrder(rows: Rows, x: string, y: string) {
    x in rows && y in rows && rows[x].payload.mode == Note && rows[y].payload.mode == Note
    && rows[x].payload.chat == rows[y].payload.chat
    ==> rows[x].payload.msg < rows[y].payload.msg
  }

  /** Once every smaller message of the chat is closed, it stays so. */
  lemma FrontStays(s: State, s': State, p: Payload, id: string)
    requires Evolves(s.rows, s'.rows) && AcceptedInOrder(s.rows, s'.rows)
    requires id in s.rows && s.rows[id].payload.chat == p.chat && s.rows[id].payload.msg == p.msg
    requires Front(s, p)
    ensures Front(s', p)
  {
  }

  lemma FrontKept(env: Env, s: State, s': State)
    requires Inv(env, s) && OrderInv(s)
    requires Evolves(s.rows, s'.rows) && AcceptedInOrder(s.rows, s'.rows)
    ensures forall t <- s.workers :: NearAppend(s.workers[t]) ==> Front(s', s.workers[t].job)
    ensures forall r <- s.requests :: r.id in s.rows && (s.rows[r.id].payload.mode == Note ==> Front(s', s'.rows[r.id].payload))
  {
    forall t <- s.workers | NearAppend(s.workers[t]) ensures Front(s', s.workers[t].job) {
      assert WorkerOk(s, s.workers[t]);
      FrontStays(s, s', s.workers[t].job, s.workers[t].snap.id);
    }
    forall r <- s.requests ensures r.id in s.rows && (s.rows[r.id].payload.mode == Note ==> Front(s', s'.rows[r.id].payload)) {
      assert RequestOk(s, r);
      if s.rows[r.id].payload.mode == Note {
        FrontStays(s, s', s'.rows[r.id].payload, r.id);
      }
    }
  }

  /** A new entry of the log comes after every entry of its chat: a later
      message's append was requested only when this job was already closed,
      and a closed note job with a transcript has been appended. */
  lemma NewEntryLast(env: Env, s: State, r: Request, x: string)
    requires Inv(env, s) && OrderInv(s) && r in s.requests && r.id !in s.log && x in s.log
    ensures InOrder(s.rows, x, r.id)
  {
    assert RequestOk(s, r) && RowOk(s, r.id) && RowOk(s, x);
    var later := RequestOf(s.rows[x].payload);
    assert later in s.requests;
    var p, q := s.rows[x].payload, s.rows[r.id].payload;
    assert p.mode == Note ==> Front(s, p);
    assert p.chat == q.chat && p.msg == q.msg ==> SameMessage(p, q);
  }

  lemma LogKept(env: Env, s: State, s': State, step: Step)
    requires Inv(env, s) && OrderInv(s) && Unmarked(env.template) && NextStep(env, s, s', step)
    requires Evolves(s.rows, s'.rows)
    ensures LogInOrder(s')
  {
    if Executes(step) {
      ExecuteWrites(env, s, s', step);
      if s'.log != s.log {
        AppendEffect(env, s, step.q);
        LogExtended(env, s, s', step.q);
      } else {
        LogStays(env, s, s');
      }
    } else {
      OtherStepsKeepNotes(env, s, s', step);
      LogStays(env, s, s');
    }
  }

  lemma LogStays(env: Env, s: State, s': State)
    requires Inv(env, s) && LogInOrder(s) && Evolves(s.rows, s'.rows) && s'.log == s.log
    ensures LogInOrder(s')
  {
    forall i, j | 0 <= i < j < |s'.log| ensures InOrder(s'.rows, s'.log[i], s'.log[j]) {
      assert InOrder(s.rows, s.log[i], s.log[j]);
      LoggedHasRow(env, s, s.log[i]);
      LoggedHasRow(env, s, s.log[j]);
    }
  }

  lemma LoggedHasRow(env: Env, s: State, id: string)
    requires Inv(env, s) && id in s.log
    ensures id in s.rows
  {
  }

  lemma LogExtended(env: Env, s: State, s': State, r: Request)
    requires Inv(env, s) && OrderInv(s) && r in s.requests && r.id !in s.log && s'.log == s.log + [r.id] && s'.rows == s.rows
    ensures LogInOrder(s')
  {
    forall i, j | 0 <= i < j < |s'.log| ensures InOrder(s'.rows, s'.log[i], s'.log[j]) {
      if j < |s.log| {
        assert InOrder(s.rows, s.log[i], s.log[j]);
      } else {
        NewEntryLast(env, s, r, s.log[i]);
      }
    }
  }

  /** A worker reaches the front only by the front check, and an append request
      is sent only from there (or to confirm a preview, which is no note job). */
  lemma FrontWorkers(env: Env, s: State, s': State, step: Step)
    requires Inv(env, s) && NextStep(env, s, s', step)
    ensures forall t <- s'.workers :: NearAppend(s'.workers[t]) ==> WasFront(s, t, s'.workers[t])
  {
    if step.Send? { assert WorkerOk(s, s.workers[step.t]); }
    forall t <- s'.workers | NearAppend(s'.workers[t]) ensures WasFront(s, t, s'.workers[t]) {
      if t in s.workers && s.workers[t] != s'.workers[t] {
        assert t < s.nextToken;
        if MovesToFront(step) {
          MovedToFront(env, s, s', step, t);
        } else {
          MovedElsewhere(env, s, s', step, t);
        }
      }
    }
  }

  predicate NearAppend(w: Worker) {
    w.phase in {AtFront, Waiting(AppendNote)}
  }

  predicate WasFront(s: State, t: int, w: Worker) {
    t in s.workers && w.job == s.workers[t].job && (NearAppend(s.workers[t]) || Front(s, w.job))
  }

  predicate MovesToFront(step: Step) {
    step.PassFront? || step.SendAtFront? || step.Send?
  }

  lemma MovedToFront(env: Env, s: State, s': State, step: Step, t: int)
    requires Inv(env, s) && NextStep(env, s, s', step) && MovesToFront(step)
    requires t in s.workers && t in s'.workers && s.workers[t] != s'.workers[t] && NearAppend(s'.workers[t])
    ensures WasFront(s, t, s'.workers[t])
  {
    assert t == step.t;
    assert WorkerOk(s, s.workers[t]);
  }

  lemma MovedElsewhere(env: Env, s: State, s': State, step: Step, t: int)
    requires NextStep(env, s, s', step) && !MovesToFront(step)
    requires t in s.workers && t in s'.workers && t != s.nextToken && s.workers[t] != s'.workers[t]
    ensures !NearAppend(s'.workers[t])
  {
  }

  predicate FromFrontOrPreview(s: State, step: Step, r: Request) {
    r.id in s.rows
    && (s.rows[r.id].payload.mode == Note ==>
          && step.SendAtFront? && step.t in s.workers && s.workers[step.t].phase == AtFront
          && r.id == s.workers[step.t].job.id && Extends(s.workers[step.t].job, s.rows[r.id].payload))
  }

  lemma SentAtFront(s: State, s': State, step: Step, w: Worker)
    requires step.SendAtFront? && step.t in s.workers && w == s.workers[step.t] && SendAtFrontStep(s, s', step.t, w)
    requires WorkerOk(s, w)
    ensures forall r <- s'.requests :: r in s.requests || (s'.rows == s.rows && FromFrontOrPreview(s, step, r))
  {
    hide Coherent, PhaseOk, FrontAction;
    assert Extends(w.job, s.rows[w.snap.id].payload) by { AtFrontIsSnap(s, w); }
  }

  lemma AtFrontIsSnap(s: State, w: Worker)
    requires WorkerOk(s, w) && w.phase == AtFront
    ensures w.job == w.snap
  {
  }

  lemma Confirmed(s: State, s': State, step: Step)
    requires step.Confirm? && ConfirmStep(s, s', step.id) && RowOk(s, step.id)
    ensures forall r <- s'.requests :: r in s.requests || (s'.rows == s.rows && FromFrontOrPreview(s, step, r))
  {
  }

  lemma OthersSendNothing(env: Env, s: State, s': State, step: Step)
    requires NextStep(env, s, s', step) && !step.SendAtFront? && !step.Confirm?
    ensures s'.requests == s.requests
  {
  }

  lemma FrontRequests(env: Env, s: State, s': State, step: Step)
    requires Inv(env, s) && NextStep(env, s, s', step)
    ensures forall r <- s'.requests :: r in s.requests || (s'.rows == s.rows && FromFrontOrPreview(s, step, r))
  {
    if step.SendAtFront? {
      hide WorkerOk, RowOk, SendAtFrontStep, FromFrontOrPreview;
      SentAtFront(s, s', step, s.workers[step.t]);
    } else if step.Confirm? {
      hide RowOk, ConfirmStep, FromFrontOrPreview;
      Confirmed(s, s', step);
    } else {
      OthersSendNothing(env, s, s', step);
    }
  }

  lemma WorkersAtFront(env: Env, s: State, s': State, step: Step)
    requires Inv(env, s) && OrderInv(s) && NextStep(env, s, s', step)
    requires Evolves(s.rows, s'.rows) && AcceptedInOrder(s.rows, s'.rows)
    ensures forall t <- s'.workers :: NearAppend(s'.workers[t]) ==> Front(s', s'.workers[t].job)
  {
    FrontKept(env, s, s');
    FrontWorkers(env, s, s', step);
    hide NextStep, Front, Evolves, AcceptedInOrder, NearAppend, Coherent, PhaseOk, LogInOrder;
    forall t <- s'.workers | NearAppend(s'.workers[t]) ensures Front(s', s'.workers[t].job) {
      var w := s.workers[t];
      assert WasFront(s, t, s'.workers[t]) && WorkerOk(s, w);
      if !NearAppend(w) { FrontStays(s, s', w.job, w.snap.id); }
    }
  }

  lemma RequestsAtFront(env: Env, s: State, s': State, step: Step)
    requires Inv(env, s) && OrderInv(s) && NextStep(env, s, s', step)
    requires Evolves(s.rows, s'.rows) && AcceptedInOrder(s.rows, s'.rows)
    ensures forall r <- s'.requests :: r.id in s'.rows && s'.rows[r.id].payload.mode == Note ==> Front(s', s'.rows[r.id].payload)
  {
    FrontKept(env, s, s');
    FrontRequests(env, s, s', step);
    hide NextStep, Front, Evolves, AcceptedInOrder, Coherent, PhaseOk, LogInOrder, RowOk;
    forall r <- s'.requests | r.id in s'.rows && s'.rows[r.id].payload.mode == Note ensures Front(s', s'.rows[r.id].payload) {
      if r !in s.requests { NewRequestAtFront(s, s', step, r); }
    }
  }

  lemma NewRequestAtFront(s: State, s': State, step: Step, r: Request)
    requires s'.rows == s.rows && FromFrontOrPreview(s, step, r) && s.rows[r.id].payload.mode == Note
    requires forall t <- s.workers :: NearAppend(s.workers[t]) ==> Front(s', s.workers[t].job)
    ensures Front(s', s'.rows[r.id].payload)
  {
    assert NearAppend(s.workers[step.t]);
  }

  lemma StepOrder(env: Env, s: State, s': State, step: Step)
    requires Inv(env, s) && OrderInv(s) && Unmarked(env.template) && NextStep(env, s, s', step)
    requires AcceptedInOrder(s.rows, s'.rows)
    ensures OrderInv(s')
  {
    StepEvolves(env, s, s', step);
    LogKept(env, s, s', step);
    WorkersAtFront(env, s, s', step);
    RequestsAtFront(env, s, s', step);
    hide Inv, NextStep, Front, LogInOrder, NearAppend, Evolves, AcceptedInOrder;
  }

  lemma {:induction false} RunOrder(env: Env, run: seq<State>, k: nat)
    requires IsOrderedRun(env, run) && Unmarked(env.template) && k < |run|
    ensures OrderInv(run[k])
  {
    if k > 0 {
      RunOrder(env, run, k - 1);
      RunStep(env, run, k - 1);
      var step :| NextStep(env, run[k - 1], run[k], step);
      assert AcceptedInOrder(run[k - 1].rows, run[k - 1 + 1].rows);
      StepOrder(env, run[k - 1], run[k], step);
    }
  }

  /** If the jobs of each chat are accepted in message order, the appends of the
      note jobs of a chat take effect in message order, with retries, stale
      workers past the front check and late requests included. */
  lemma AppendsInMessageOrder(env: Env, run: seq<State>, k: nat, i: nat, j: nat)
    requires IsOrderedRun(env, run) && Unmarked(env.template) && k < |run| && i < j < |run[k].log|
    ensures var rows, x, y := run[k].rows, run[k].log[i], run[k].log[j];
      && x in rows && y in rows
      && (rows[x].payload.mode == Note && rows[y].payload.mode == Note && rows[x].payload.chat == rows[y].payload.chat
          ==> rows[x].payload.msg < rows[y].payload.msg)
  {
    RunOrder(env, run, k);
    RunInv(env, run, k);
    assert InOrder(run[k].rows, run[k].log[i], run[k].log[j]);
  }
}
