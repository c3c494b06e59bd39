/** Runs of the durable voice protocol: any number of workers over the leased
    rows, the transcription backend and the notes. Workers may crash or stall at
    any point, leases expire under them, database and service replies may be
    lost, and an append request once sent may be executed at any later time, any
    number of times (frontends/telegram/tghandlers/voice_durable.go). */
module VoiceProtocol {
  import opened NoteMarkers
  import opened NoteVault
  import opened Options
  import opened VoiceJob

  /** The note template, what a relative path resolves to, and its cleaned form. */
  datatype Env = Env(template: Template, resolve: string -> File, clean: string -> string)

  /** A keyed append as sent to the notes service. */
  datatype Request = Request(id: string, date: string, relpath: string, text: string)

  datatype Phase =
    | Ready                     // claimed
    | AtFront                   // the front check said yes
    | Waiting(action: Action)   // a call is outstanding
    | Saving                    // a checkpoint is set in memory
    | Redelivering              // the status message was recreated, in memory
    | Reediting                 // and saved
    | Releasing(done: bool)

  /** One claim: `snap` is the row as claimed, `job` the worker's copy. */
  datatype Worker = Worker(snap: Payload, cancel: bool, job: Payload, phase: Phase)

  /** For the theorems, `heard` records what was answered to the workers of a job, and
      `log` whose append took effect and in what order. */
  datatype State = State(
    now: int, rows: Rows, workers: map<int, Worker>, nextToken: int,
    uploads: set<string>, acks: set<string>, heard: set<(string, Reply)>, requests: set<Request>,
    files: Files, log: seq<string>)

  function Op(id: string): string {
    "voice:" + id
  }

  function RequestOf(p: Payload): Request {
    Request(p.id, p.date, p.relpath, p.text)
  }

  function Dest(env: Env, r: Request): File {
    if r.relpath != "" then env.resolve(r.relpath) else Daily(r.date)
  }

  function DestKey(env: Env, r: Request): string {
    if r.relpath != "" then env.clean(r.relpath) else r.date
  }

  function MarkerOf(env: Env, r: Request): string {
    Marker(Op(r.id), DestKey(env, r), r.text)
  }

  /** appendDurableVoice: by path after "append to this note", else by date. */
  ghost function Append(env: Env, files: Files, r: Request): (Files, Outcome) {
    if r.relpath != "" then AppendPathOnce(files, env.clean(r.relpath), env.resolve(r.relpath), r.text, Op(r.id))
    else AppendOnce(files, env.template, r.date, r.text, Op(r.id))
  }

  // ------------------------------------------------------------------- steps

  datatype Step =
    | Enqueue(p: Payload)
    | Cancel(id: string)
    | Tick(to: int)
    | Claim(id: string)
    | Local(t: int)
    | Send(t: int)
    | PassFront(t: int)
    | SendAtFront(t: int)
    | Receive(t: int, r: Reply)
    | Delivered(t: int)
    | Recreated(t: int, msg: int)
    | Save(t: int, committed: bool, reported: bool)
    | Fail(t: int)
    | Release(t: int, committed: bool, nextAt: int)
    | Crash(t: int)
    | Execute(q: Request)
    | ExecuteReply(t: int, q: Request)
    | Confirm(id: string)
    | Refine(id: string, blob: string)
    | OtherWriters(files: Files)

  function Put(s: State, t: int, w: Worker): State {
    s.(workers := s.workers[t := w])
  }

  predicate EnqueueStep(s: State, s': State, p: Payload) {
    // AcceptVoice: a fresh id; dropped when the message already has a job
    Fresh(p) && p.id !in s.rows && s' == s.(rows := EnqueueRow(s.rows, p, s.now))
  }

  predicate CancelStep(s: State, s': State, id: string) {
    && id in s.rows && !s.rows[id].done
    && s' == s.(rows := s.rows[id := s.rows[id].(cancel := true, nextAt := s.now)])
  }

  predicate ClaimStep(s: State, s': State, id: string) {
    && id in s.rows && Claimable(s.rows[id], s.now)
    && s' == Put(s, s.nextToken, Worker(s.rows[id].payload, s.rows[id].cancel, s.rows[id].payload, Ready))
             .(rows := s.rows[id := ClaimRow(s.rows[id], s.nextToken, s.now)], nextToken := s.nextToken + 1)
  }

  predicate LocalStep(s: State, s': State, t: int, w: Worker) {
    var a := NextAction(w.job, w.cancel);
    w.phase == Ready && a in {CloseCancelled, MarkSubmit} && s' == Put(s, t, w.(job := LocalCheckpoint(w.job, a), phase := Saving))
  }

  predicate SendStep(s: State, s': State, t: int, w: Worker) {
    var a := NextAction(w.job, w.cancel);
    && w.phase == Ready && a !in {CloseCancelled, MarkSubmit, CheckFront}
    && s' == Put(s, t, w.(phase := Waiting(a)))
             .(uploads := if a == Upload then s.uploads + {w.job.id} else s.uploads,
               acks := if a == VoiceJob.Action.Ack then s.acks + {w.job.id} else s.acks)
  }

  predicate PassFrontStep(s: State, s': State, t: int, w: Worker) {
    && w.phase == Ready && NextAction(w.job, w.cancel) == CheckFront && IsFront(s.rows, w.job.chat, w.job.msg)
    && s' == Put(s, t, w.(phase := AtFront))
  }

  predicate SendAtFrontStep(s: State, s': State, t: int, w: Worker) {
    var a := FrontAction(w.job);
    && w.phase == AtFront
    && s' == Put(s, t, w.(phase := Waiting(a)))
             .(requests := if a == AppendNote then s.requests + {RequestOf(w.job)} else s.requests)
  }

  predicate ReceiveStep(s: State, s': State, t: int, w: Worker, r: Reply) {
    && w.phase.Waiting? && Answers(w.phase.action, r) && !r.Appended?
    && s' == Put(s, t, w.(job := Checkpoint(w.job, r), phase := if r.Running? then Releasing(false) else Saving))
             .(heard := s.heard + {(w.job.id, r)})
  }

  predicate DeliveredStep(s: State, s': State, t: int, w: Worker) {
    && (w.phase == Reediting || (w.phase.Waiting? && Final(w.phase.action)))
    && s' == Put(s, t, w.(phase := Releasing(true)))
  }

  predicate RecreatedStep(s: State, s': State, t: int, w: Worker, msg: int) {
    && w.phase.Waiting? && Final(w.phase.action)
    && s' == Put(s, t, w.(job := w.job.(statusMsg := msg), phase := Redelivering))
  }

  /** The statement may fail, or succeed with its reply lost. */
  predicate SaveStep(s: State, s': State, t: int, w: Worker, committed: bool, reported: bool) {
    && w.phase in {Saving, Redelivering} && w.snap.id in s.rows
    && var effect := committed && Holds(s.rows[w.snap.id], t, s.now);
    && (reported ==> effect)
    && s' == Put(s, t, w.(phase := if reported && w.phase == Redelivering then Reediting else Releasing(false)))
             .(rows := if effect then s.rows[w.snap.id := SaveRow(s.rows[w.snap.id], w.job)] else s.rows)
  }

  /** An error, a timeout, or not at the front: the in-memory job stays as it is. */
  predicate FailStep(s: State, s': State, t: int, w: Worker) {
    s' == Put(s, t, w.(phase := Releasing(false)))
  }

  /** Release writes the in-memory job too, also after a failed step. */
  predicate ReleaseStep(s: State, s': State, t: int, w: Worker, committed: bool, nextAt: int) {
    && w.phase.Releasing? && w.snap.id in s.rows
    && var effect := committed && Holds(s.rows[w.snap.id], t, s.now);
    && s' == s.(workers := s.workers - {t},
                rows := if effect then s.rows[w.snap.id := ReleaseRow(s.rows[w.snap.id], w.job, w.phase.done, nextAt)] else s.rows)
  }

  /** The notes service executes a request; the caller may be gone. */
  ghost predicate ExecuteStep(env: Env, s: State, s': State, r: Request) {
    var (files, outcome) := Append(env, s.files, r);
    r in s.requests && s' == s.(files := files, log := if files != s.files then s.log + [r.id] else s.log)
  }

  /** As above, and a worker waiting for it hears the outcome. */
  ghost predicate ExecuteReplyStep(env: Env, s: State, s': State, r: Request, t: int, w: Worker) {
    var (files, outcome) := Append(env, s.files, r);
    var w' := if outcome == Done then w.(job := Checkpoint(w.job, Appended), phase := Saving) else w.(phase := Releasing(false));
    && r in s.requests && w.phase == Waiting(AppendNote) && w.job.id == r.id
    && s' == Put(s, t, w').(files := files, log := if files != s.files then s.log + [r.id] else s.log)
  }

  /** The user confirms a prepared result as a note. */
  predicate ConfirmStep(s: State, s': State, id: string) {
    id in s.rows && s.rows[id].payload.prepared != "" && s' == s.(requests := s.requests + {RequestOf(s.rows[id].payload)})
  }

  /** SetPrepared: on a delivered preview only. */
  predicate RefineStep(s: State, s': State, id: string, blob: string) {
    && id in s.rows && s.rows[id].done && s.rows[id].payload.prepared != "" && blob != ""
    && s' == s.(rows := s.rows[id := s.rows[id].(payload := s.rows[id].payload.(prepared := blob))])
  }

  /** Every other writer of the notes keeps the markers of voice operations. */
  ghost predicate WritersStep(s: State, s': State, files: Files) {
    (forall id :: SameMarkers(s.files, files, Op(id))) && s' == s.(files := files)
  }

  ghost predicate WorkerStep(env: Env, s: State, s': State, t: int, w: Worker, step: Step) {
    match step
    case Local(_) => LocalStep(s, s', t, w)
    case Send(_) => SendStep(s, s', t, w)
    case PassFront(_) => PassFrontStep(s, s', t, w)
    case SendAtFront(_) => SendAtFrontStep(s, s', t, w)
    case Receive(_, r) => ReceiveStep(s, s', t, w, r)
    case Delivered(_) => DeliveredStep(s, s', t, w)
    case Recreated(_, msg) => RecreatedStep(s, s', t, w, msg)
    case Save(_, committed, reported) => SaveStep(s, s', t, w, committed, reported)
    case Fail(_) => FailStep(s, s', t, w)
    case Release(_, committed, nextAt) => ReleaseStep(s, s', t, w, committed, nextAt)
    case Crash(_) => s' == s.(workers := s.workers - {t})
    case ExecuteReply(_, r) => ExecuteReplyStep(env, s, s', r, t, w)
    case _ => false
  }

  ghost predicate NextStep(env: Env, s: State, s': State, step: Step) {
    match step
    case Enqueue(p) => EnqueueStep(s, s', p)
    case Cancel(id) => CancelStep(s, s', id)
    case Tick(to) => s.now <= to && s' == s.(now := to)
    case Claim(id) => ClaimStep(s, s', id)
    case Execute(r) => ExecuteStep(env, s, s', r)
    case Confirm(id) => ConfirmStep(s, s', id)
    case Refine(id, blob) => RefineStep(s, s', id, blob)
    case OtherWriters(files) => WritersStep(s, s', files)
    case _ => step.t in s.workers && WorkerStep(env, s, s', step.t, s.workers[step.t], step)
  }

  ghost predicate Next(env: Env, s: State, s': State) {
    exists step :: NextStep(env, s, s', step)
  }

  ghost predicate Init(s: State) {
    && s.rows == map[] && s.workers == map[] && s.uploads == {} && s.acks == {} && s.heard == {} && s.requests == {} && s.log == []
    && s.nextToken >= 0
    && forall id, f :: f in s.files ==> Hits(s.files[f], Op(id)) == []
  }

  ghost predicate IsRun(env: Env, run: seq<State>) {
    && |run| > 0 && Init(run[0])
    && forall k :: 0 <= k < |run| - 1 ==> Next(env, run[k], run[k + 1])
  }

  // -------------------------------------------------------------- invariants

  predicate SameMessage(p: Payload, q: Payload) {
    p.chat == q.chat && p.msg == q.msg
  }

  predicate Distinct(rows: Rows) {
    forall a, b :: a in rows && b in rows && SameMessage(rows[a].payload, rows[b].payload) ==> a == b
  }

  ghost predicate PhaseOk(w: Worker) {
    var a := NextAction(w.snap, w.cancel);
    match w.phase
    case Ready => w.job == w.snap
    case AtFront => w.job == w.snap && a == CheckFront
    case Waiting(b) => w.job == w.snap && (b == a || (a == CheckFront && b == FrontAction(w.snap)))
    case Saving => true
    case Releasing(done) => done ==> Closable(w.job)
    case _ => a == CheckFront && Final(FrontAction(w.snap)) && w.job == w.snap.(statusMsg := w.job.statusMsg)
  }

  ghost predicate WorkerOk(s: State, w: Worker) {
    && Coherent(w.snap) && Coherent(w.job) && Extends(w.snap, w.job) && PhaseOk(w)
    && w.snap.id in s.rows && Extends(w.snap, s.rows[w.snap.id].payload)
    && (w.job.noteSaved ==> w.snap.id in s.log)
  }

  ghost predicate RowOk(s: State, id: string) {
    id in s.rows
    && var row := s.rows[id];
    && row.payload.id == id && Coherent(row.payload)
    && (row.payload.noteSaved ==> id in s.log)
    && (row.done ==> Closable(row.payload) && row.token == None)
    && (row.token.Some? ==>
          && row.token.value < s.nextToken
          && (row.token.value in s.workers ==> s.workers[row.token.value].snap.id == id
                                               && Extends(row.payload, s.workers[row.token.value].job)))
  }

  ghost predicate RequestOk(s: State, r: Request) {
    r.id in s.rows && HasText(s.rows[r.id].payload) && r == RequestOf(s.rows[r.id].payload)
  }

  /** The notes hold the markers of exactly the operations in the log, once each,
      in the destination fixed at acceptance. */
  ghost predicate MarkersOk(env: Env, s: State) {
    && (forall id <- s.log :: id in s.rows && RequestOf(s.rows[id].payload) in s.requests
          && Dest(env, RequestOf(s.rows[id].payload)) in s.files)
    && (forall i, j :: 0 <= i < j < |s.log| ==> s.log[i] != s.log[j])
    && (forall id, f :: f in s.files ==> Hits(s.files[f], Op(id)) == ExpectedHits(env, s, id, f))
  }

  ghost function ExpectedHits(env: Env, s: State, id: string, f: File): seq<string> {
    if id in s.log && id in s.rows && f == Dest(env, RequestOf(s.rows[id].payload))
    then [MarkerOf(env, RequestOf(s.rows[id].payload))] else []
  }

  /** The invariant of rows, workers and requests; it does not look into notes. */
  ghost predicate Core(s: State) {
    && Distinct(s.rows)
    && (forall id <- s.rows :: RowOk(s, id))
    && (forall t <- s.workers :: t < s.nextToken && WorkerOk(s, s.workers[t]))
    && (forall id <- s.uploads :: id in s.rows && s.rows[id].payload.submitStarted)
    && (forall id <- s.acks :: id in s.rows && s.rows[id].payload.resultReady)
    && (forall r <- s.requests :: RequestOk(s, r))
  }

  ghost predicate Inv(env: Env, s: State) {
    Core(s) && MarkersOk(env, s)
  }

  // ---------------------------------------------------- steps keep invariants

  predicate RowsExtend(a: Rows, b: Rows) {
    forall id <- a :: id in b && Extends(a[id].payload, b[id].payload)
  }

  lemma RequestsKept(s: State, s': State)
    requires Core(s) && RowsExtend(s.rows, s'.rows)
    ensures forall r <- s.requests :: RequestOk(s', r)
    ensures forall id <- s.uploads :: id in s'.rows && s'.rows[id].payload.submitStarted
    ensures forall id <- s.acks :: id in s'.rows && s'.rows[id].payload.resultReady
  {
    forall r <- s.requests ensures RequestOk(s', r) {
      assert RequestOk(s, r);
    }
  }

  lemma WorkerStays(s: State, s': State, w: Worker)
    requires WorkerOk(s, w) && RowsExtend(s.rows, s'.rows) && s.log == s'.log
    ensures WorkerOk(s', w)
  {
  }

  /** Only worker `t` may have changed, and it is in order. */
  lemma WorkersKept(s: State, s': State, t: int)
    requires Core(s) && RowsExtend(s.rows, s'.rows) && s.log == s'.log && s.nextToken == s'.nextToken
    requires s'.workers.Keys == s.workers.Keys && t in s.workers && WorkerOk(s', s'.workers[t])
    requires forall u <- s.workers :: u != t ==> s'.workers[u] == s.workers[u]
    ensures forall u <- s'.workers :: u < s'.nextToken && WorkerOk(s', s'.workers[u])
  {
    forall u <- s'.workers ensures u < s'.nextToken && WorkerOk(s', s'.workers[u]) {
      assert u < s.nextToken && WorkerOk(s, s.workers[u]);
      if u != t { WorkerStays(s, s', s.workers[u]); }
    }
  }

  /** A step that replaces one worker and nothing else that matters to it. */
  lemma WorkerPut(s: State, s': State, t: int, w': Worker)
    requires Core(s) && t in s.workers
    requires s' == Put(s, t, w').(uploads := s'.uploads, acks := s'.acks, heard := s'.heard, requests := s'.requests)
    requires WorkerOk(s, w') && w'.snap == s.workers[t].snap && Extends(s.workers[t].job, w'.job)
    requires s.requests <= s'.requests
    requires forall id <- s'.uploads :: id in s.rows && s.rows[id].payload.submitStarted
    requires forall id <- s'.acks :: id in s.rows && s.rows[id].payload.resultReady
    requires forall r <- s'.requests :: RequestOk(s, r)
    ensures Core(s')
  {
    hide Coherent, PhaseOk, NextAction;
    forall id <- s'.rows ensures RowOk(s', id) { assert RowOk(s, id); }
    WorkersKept(s, s', t);
    forall r <- s'.requests ensures RequestOk(s', r) { assert RequestOk(s, r); }
  }

  /** Only row `id` may have changed, and it and the requests are in order. */
  lemma RowsChanged(s: State, s': State, id: string)
    requires Core(s) && s' == s.(rows := s'.rows, requests := s'.requests)
    requires RowsExtend(s.rows, s'.rows) && Distinct(s'.rows) && RowOk(s', id)
    requires forall x <- s'.rows :: x != id ==> x in s.rows && s'.rows[x] == s.rows[x]
    requires forall r <- s'.requests :: r in s.requests || RequestOk(s', r)
    ensures Core(s')
  {
    hide RequestOk, Extends, PhaseOk, Coherent;
    RequestsKept(s, s');
    forall x <- s'.rows ensures RowOk(s', x) {
      if x != id { RowStays(s, s', x); }
    }
    forall t <- s'.workers ensures t < s'.nextToken && WorkerOk(s', s'.workers[t]) { WorkerStays(s, s', s.workers[t]); }
  }

  lemma NewRowOk(s: State, s': State, p: Payload)
    requires EnqueueStep(s, s', p) && s'.rows != s.rows
    ensures RowOk(s', p.id)
  {
  }

  lemma EnqueueKeeps(s: State, s': State, p: Payload)
    requires Core(s) && EnqueueStep(s, s', p)
    ensures Core(s')
  {
    if s' != s {
      NewRowOk(s, s', p);
      assert Distinct(s'.rows) by { hide RowOk, WorkerOk, RequestOk, Fresh; }
      hide Fresh, Distinct, WorkerOk, RequestOk;
      RowsChanged(s, s', p.id);
    }
  }

  lemma CancelKeeps(s: State, s': State, id: string)
    requires Core(s) && CancelStep(s, s', id)
    ensures Core(s')
  {
    assert RowOk(s, id);
    DistinctKept(s.rows, s'.rows);
    RowsChanged(s, s', id);
  }

  lemma DistinctKept(a: Rows, b: Rows)
    requires Distinct(a) && RowsExtend(a, b) && b.Keys == a.Keys
    ensures Distinct(b)
  {
    forall x, y | x in b && y in b && SameMessage(b[x].payload, b[y].payload) ensures x == y {
      assert SameMessage(a[x].payload, a[y].payload);
    }
  }

  predicate SameCopy(w: Worker, v: Worker) {
    w.snap == v.snap && w.job == v.job
  }

  lemma RowStays(s: State, s': State, x: string)
    requires RowOk(s, x) && x in s'.rows && s'.rows[x] == s.rows[x] && s'.log == s.log && s.nextToken <= s'.nextToken
    requires forall t <- s'.workers :: t < s.nextToken ==> t in s.workers && SameCopy(s'.workers[t], s.workers[t])
    ensures RowOk(s', x)
  {
  }

  lemma ClaimKeeps(s: State, s': State, id: string)
    requires Core(s) && ClaimStep(s, s', id)
    ensures Core(s')
  {
    hide Coherent, Extends, PhaseOk;
    ClaimedRow(s, s', id);
    DistinctKept(s.rows, s'.rows);
    RequestsKept(s, s');
    forall x <- s'.rows ensures RowOk(s', x) {
      if x != id { RowStays(s, s', x); }
    }
    forall t <- s'.workers ensures t < s'.nextToken && WorkerOk(s', s'.workers[t]) {
      if t != s.nextToken {
        assert t < s.nextToken && WorkerOk(s, s.workers[t]);
        WorkerStays(s, s', s.workers[t]);
      }
    }
  }

  lemma ClaimedRow(s: State, s': State, id: string)
    requires Core(s) && ClaimStep(s, s', id)
    ensures RowsExtend(s.rows, s'.rows) && RowOk(s', id) && WorkerOk(s', s'.workers[s.nextToken])
  {
    assert RowOk(s, id);
  }

  /** The worker's copy stays coherent, and gains checkpoints only. */
  ghost predicate MoveOk(s: State, s': State, t: int, w: Worker) {
    && t in s'.workers && s' == Put(s, t, s'.workers[t]).(heard := s'.heard)
    && WorkerOk(s, s'.workers[t]) && s'.workers[t].snap == w.snap && Extends(w.job, s'.workers[t].job)
  }

  lemma LocalMoveOk(s: State, s': State, t: int, w: Worker)
    requires WorkerOk(s, w) && LocalStep(s, s', t, w)
    ensures MoveOk(s, s', t, w)
  {
    LocalCheckpointExtends(w.job, w.cancel);
    hide Extends, Coherent, NextAction, LocalCheckpoint;
  }

  lemma ReceiveMoveOk(s: State, s': State, t: int, w: Worker, r: Reply)
    requires WorkerOk(s, w) && ReceiveStep(s, s', t, w, r)
    ensures MoveOk(s, s', t, w)
  {
    CheckpointExtends(w.job, w.cancel, w.phase.action, r);
    RunningKeeps(w.job, r);
    CheckpointId(w.job, r);
    hide Extends, Coherent, NextAction, FrontAction, Answers, Checkpoint;
  }

  lemma RunningKeeps(p: Payload, r: Reply)
    ensures r.Running? ==> Checkpoint(p, r) == p
    ensures !r.Appended? ==> Checkpoint(p, r).noteSaved == p.noteSaved
  {
  }

  lemma CheckpointId(p: Payload, r: Reply)
    ensures Checkpoint(p, r).id == p.id
  {
  }

  lemma DeliveredMoveOk(s: State, s': State, t: int, w: Worker)
    requires WorkerOk(s, w) && DeliveredStep(s, s', t, w)
    ensures MoveOk(s, s', t, w)
  {
    FinalCloses(w.snap, w.cancel);
    ExtendsRefl(w.job);
  }

  lemma ExtendsRefl(p: Payload)
    ensures Extends(p, p)
  {
  }

  lemma RecreatedMoveOk(s: State, s': State, t: int, w: Worker, msg: int)
    requires WorkerOk(s, w) && RecreatedStep(s, s', t, w, msg)
    ensures MoveOk(s, s', t, w)
  {
  }

  /** What a worker does between its claim and its save. */
  lemma WorkerMoveOk(env: Env, s: State, s': State, t: int, w: Worker, step: Step)
    requires WorkerOk(s, w) && WorkerStep(env, s, s', t, w, step)
    requires step.Local? || step.Receive? || step.Delivered? || step.Recreated?
    ensures MoveOk(s, s', t, w)
  {
    hide WorkerOk, MoveOk, LocalStep, ReceiveStep, DeliveredStep, RecreatedStep;
    match step
    case Local(_) => LocalMoveOk(s, s', t, w);
    case Receive(_, r) => ReceiveMoveOk(s, s', t, w, r);
    case Delivered(_) => DeliveredMoveOk(s, s', t, w);
    case Recreated(_, msg) => RecreatedMoveOk(s, s', t, w, msg);
  }

  lemma WorkerMoveKeeps(env: Env, s: State, s': State, t: int, w: Worker, step: Step)
    requires Core(s) && t in s.workers && w == s.workers[t] && WorkerStep(env, s, s', t, w, step)
    requires step.Local? || step.Receive? || step.Delivered? || step.Recreated?
    ensures Core(s')
  {
    WorkerMoveOk(env, s, s', t, w, step);
    WorkerPut(s, s', t, s'.workers[t]);
  }

  /** Uploads follow a durable intent, acks a durable result, append requests a
      durable transcript. */
  lemma SentIsDurable(env: Env, s: State, s': State, t: int, w: Worker, step: Step)
    requires WorkerOk(s, w) && RowOk(s, w.snap.id) && WorkerStep(env, s, s', t, w, step)
    requires step.Send? || step.SendAtFront?
    ensures forall id <- s'.uploads :: id in s.uploads || (id == w.snap.id && s.rows[id].payload.submitStarted)
    ensures forall id <- s'.acks :: id in s.acks || (id == w.snap.id && s.rows[id].payload.resultReady)
    ensures forall r <- s'.requests :: r in s.requests || RequestOk(s, r)
  {
  }

  lemma WorkerSendKeeps(env: Env, s: State, s': State, t: int, w: Worker, step: Step)
    requires Core(s) && t in s.workers && w == s.workers[t] && WorkerStep(env, s, s', t, w, step)
    requires step.Send? || step.PassFront? || step.SendAtFront? || step.Fail?
    ensures Core(s')
  {
    assert WorkerOk(s, w) && RowOk(s, w.snap.id);
    if step.Send? || step.SendAtFront? {
      SentIsDurable(env, s, s', t, w, step);
    }
    ExtendsRefl(w.job);
    hide Extends, Coherent, RowOk, RequestOk, NextAction, FrontAction;
    WorkerPut(s, s', t, s'.workers[t]);
  }

  /** A row rewritten by the worker that holds its lease. */
  predicate HolderWrites(s: State, row': Row, t: int, w: Worker) {
    && w.snap.id in s.rows && Holds(s.rows[w.snap.id], t, s.now)
    && row'.payload == w.job && row'.token in {None, Some(t)}
    && (row'.done ==> Closable(w.job) && row'.token == None)
  }

  lemma HolderExtends(s: State, row': Row, t: int, w: Worker)
    requires Core(s) && t in s.workers && w == s.workers[t] && HolderWrites(s, row', t, w)
    ensures RowsExtend(s.rows, s.rows[w.snap.id := row'])
    ensures Distinct(s.rows[w.snap.id := row'])
  {
    assert RowOk(s, w.snap.id);
    DistinctKept(s.rows, s.rows[w.snap.id := row']);
  }

  lemma WrittenRow(s: State, row': Row, t: int, w: Worker, w': Worker)
    requires Core(s) && t in s.workers && w == s.workers[t] && HolderWrites(s, row', t, w)
    requires SameCopy(w', w)
    requires PhaseOk(w') && w'.cancel == w.cancel
    ensures var s' := Put(s, t, w').(rows := s.rows[w.snap.id := row']); RowOk(s', w.snap.id) && WorkerOk(s', w')
  {
    assert RowOk(s, w.snap.id) && WorkerOk(s, w);
  }

  lemma RowWriteKeeps(s: State, row': Row, t: int, w: Worker, w': Worker)
    requires Core(s) && t in s.workers && w == s.workers[t] && HolderWrites(s, row', t, w)
    requires w' == w.(phase := w'.phase) && PhaseOk(w')
    ensures Core(Put(s, t, w').(rows := s.rows[w.snap.id := row']))
  {
    hide Extends, Coherent, PhaseOk;
    var s' := Put(s, t, w').(rows := s.rows[w.snap.id := row']);
    HolderExtends(s, row', t, w);
    WrittenRow(s, row', t, w, w');
    RequestsKept(s, s');
    forall x <- s'.rows ensures RowOk(s', x) {
      if x != w.snap.id { RowStays(s, s', x); }
    }
    WorkersKept(s, s', t);
  }

  lemma DropWorkerKeeps(s: State, t: int)
    requires Core(s) && t in s.workers
    ensures Core(s.(workers := s.workers - {t}))
  {
    var s' := s.(workers := s.workers - {t});
    forall x <- s'.rows ensures RowOk(s', x) { assert RowOk(s, x); }
    forall u <- s'.workers ensures u < s'.nextToken && WorkerOk(s', s'.workers[u]) { assert WorkerOk(s, s.workers[u]); }
    RequestsKept(s, s');
  }

  lemma SaveKeeps(s: State, s': State, t: int, w: Worker, committed: bool, reported: bool)
    requires Core(s) && t in s.workers && w == s.workers[t] && SaveStep(s, s', t, w, committed, reported)
    ensures Core(s')
  {
    assert WorkerOk(s, w) && RowOk(s, w.snap.id);
    if committed && Holds(s.rows[w.snap.id], t, s.now) {
      RowWriteKeeps(s, SaveRow(s.rows[w.snap.id], w.job), t, w, s'.workers[t]);
    } else {
      WorkerPut(s, s', t, s'.workers[t]);
    }
  }

  lemma ReleasedKeeps(s: State, t: int, w: Worker, row': Row)
    requires Core(s) && t in s.workers && w == s.workers[t] && HolderWrites(s, row', t, w)
    ensures Core(s.(workers := s.workers - {t}, rows := s.rows[w.snap.id := row']))
  {
    var written := Put(s, t, w).(rows := s.rows[w.snap.id := row']);
    assert WorkerOk(s, w);
    RowWriteKeeps(s, row', t, w, w);
    DropWorkerKeeps(written, t);
    assert written.workers - {t} == s.workers - {t};
  }

  lemma ReleaseKeeps(s: State, s': State, t: int, w: Worker, committed: bool, nextAt: int)
    requires Core(s) && t in s.workers && w == s.workers[t] && ReleaseStep(s, s', t, w, committed, nextAt)
    ensures Core(s')
  {
    assert WorkerOk(s, w);
    if committed && Holds(s.rows[w.snap.id], t, s.now) {
      ReleasedKeeps(s, t, w, ReleaseRow(s.rows[w.snap.id], w.job, w.phase.done, nextAt));
    } else {
      DropWorkerKeeps(s, t);
    }
  }

  lemma ConfirmKeeps(s: State, s': State, id: string)
    requires Core(s) && ConfirmStep(s, s', id)
    ensures Core(s')
  {
    assert RowOk(s, id);
    RowsChanged(s, s', id);
  }

  lemma RefinedRow(s: State, s': State, id: string, blob: string)
    requires RowOk(s, id) && RefineStep(s, s', id, blob)
    ensures RowOk(s', id) && RowsExtend(s.rows, s'.rows)
  {
    forall x <- s.rows ensures Extends(s.rows[x].payload, s'.rows[x].payload) { ExtendsRefl(s.rows[x].payload); }
  }

  lemma RefineKeeps(s: State, s': State, id: string, blob: string)
    requires Core(s) && RefineStep(s, s', id, blob)
    ensures Core(s')
  {
    assert RowOk(s, id);
    RefinedRow(s, s', id, blob);
    DistinctKept(s.rows, s'.rows);
    hide RowOk, RowsExtend, Coherent, Extends, PhaseOk, RequestOk;
    RowsChanged(s, s', id);
  }

  lemma TickKeeps(s: State, to: int)
    requires Core(s)
    ensures Core(s.(now := to))
  {
    forall id <- s.rows ensures RowOk(s.(now := to), id) { RowStays(s, s.(now := to), id); }
    forall t <- s.workers ensures WorkerOk(s.(now := to), s.workers[t]) { WorkerStays(s, s.(now := to), s.workers[t]); }
    RequestsKept(s, s.(now := to));
  }

  // ------------------------------------------------------- appends and writers

  /** In a reachable state the append of a voice operation is never refused as a
      conflict, and it writes exactly when its operation is not in the log. */
  lemma AppendEffect(env: Env, s: State, r: Request)
    requires Inv(env, s) && Unmarked(env.template) && r in s.requests
    ensures var (after, outcome) := Append(env, s.files, r);
      WritesUnlessLogged(s.files, after, outcome, Op(r.id), Dest(env, r), MarkerOf(env, r), r.id in s.log)
  {
    assert RequestOk(s, r);
    forall f <- s.files ensures Hits(s.files[f], Op(r.id)) == ExpectedHits(env, s, r.id, f) {}
    assert HoldsIfLogged(s.files, Op(r.id), Dest(env, r), MarkerOf(env, r), r.id in s.log);
    hide Inv, WritesUnlessLogged, HoldsIfLogged;
    if r.relpath != "" {
      AppendPathOnceLogged(s.files, env.clean(r.relpath), env.resolve(r.relpath), r.text, Op(r.id), r.id in s.log);
    } else {
      AppendOnceLogged(s.files, env.template, r.date, r.text, Op(r.id), r.id in s.log);
    }
  }

  /** Nobody else's marker is touched. */
  lemma AppendFrame(env: Env, files: Files, r: Request, id: string)
    requires Unmarked(env.template) && id != r.id
    ensures SameMarkers(files, Append(env, files, r).0, Op(id))
  {
    assert Op(id)[6..] == id && Op(r.id)[6..] == r.id;
    if r.relpath != "" {
      AppendPathOnceFrame(files, env.clean(r.relpath), env.resolve(r.relpath), r.text, Op(r.id), Op(id));
    } else {
      AppendOnceFrame(files, env.template, r.date, r.text, Op(r.id), Op(id));
    }
  }

  lemma AppendOwnMarkers(env: Env, s: State, s': State, r: Request, f: File)
    requires Inv(env, s) && Unmarked(env.template) && ExecuteStep(env, s, s', r) && f in s'.files
    ensures Hits(s'.files[f], Op(r.id)) == ExpectedHits(env, s', r.id, f)
  {
    AppendEffect(env, s, r);
    assert RequestOk(s, r);
    if f in s.files {
      assert Hits(s.files[f], Op(r.id)) == ExpectedHits(env, s, r.id, f);
    }
  }

  lemma AppendOtherMarkers(env: Env, s: State, s': State, r: Request, id: string, f: File)
    requires Inv(env, s) && Unmarked(env.template) && ExecuteStep(env, s, s', r) && f in s'.files && id != r.id
    ensures Hits(s'.files[f], Op(id)) == ExpectedHits(env, s', id, f)
  {
    AppendFrame(env, s.files, r, id);
    UnchangedMarkers(env, s, s', id, f);
  }

  lemma UnchangedMarkers(env: Env, s: State, s': State, id: string, f: File)
    requires MarkersOk(env, s) && SameMarkers(s.files, s'.files, Op(id)) && f in s'.files
    requires s'.rows == s.rows && (id in s'.log <==> id in s.log)
    ensures Hits(s'.files[f], Op(id)) == ExpectedHits(env, s', id, f)
  {
    if f in s.files {
      assert Hits(s.files[f], Op(id)) == ExpectedHits(env, s, id, f);
    } else if id in s.log {
      assert Dest(env, RequestOf(s.rows[id].payload)) in s.files;
    }
  }

  lemma AppendMarkers(env: Env, s: State, s': State, r: Request)
    requires Inv(env, s) && Unmarked(env.template) && ExecuteStep(env, s, s', r)
    ensures MarkersOk(env, s')
  {
    AppendEffect(env, s, r);
    assert RequestOk(s, r);
    forall id, f | f in s'.files ensures Hits(s'.files[f], Op(id)) == ExpectedHits(env, s', id, f) {
      if id == r.id {
        AppendOwnMarkers(env, s, s', r, f);
      } else {
        AppendOtherMarkers(env, s, s', r, id, f);
      }
    }
  }

  /** The log may grow; nothing else that Core looks at changes. */
  lemma LogGrowsKeeps(s: State, files: Files, log: seq<string>)
    requires Core(s) && s.log <= log
    ensures Core(s.(files := files, log := log))
  {
    var s' := s.(files := files, log := log);
    forall x <- s'.rows ensures RowOk(s', x) { assert RowOk(s, x); }
    forall t <- s'.workers ensures t < s'.nextToken && WorkerOk(s', s'.workers[t]) { assert WorkerOk(s, s.workers[t]); }
    forall q <- s'.requests ensures RequestOk(s', q) { assert RequestOk(s, q); }
  }

  lemma RepliedKeeps(s: State, s': State, t: int, w: Worker, id: string, ok: bool)
    requires Core(s) && t in s.workers && w == s.workers[t] && w.phase == Waiting(AppendNote) && w.job.id == id
    requires ok ==> id in s.log
    requires s' == Put(s, t, if ok then w.(job := Checkpoint(w.job, Appended), phase := Saving) else w.(phase := Releasing(false)))
    ensures Core(s')
  {
    assert WorkerOk(s, w) && RowOk(s, w.snap.id);
    if ok { CheckpointExtends(w.job, w.cancel, AppendNote, Appended); }
    WorkerPut(s, s', t, s'.workers[t]);
  }

  lemma ExecuteKeeps(env: Env, s: State, s': State, r: Request)
    requires Inv(env, s) && Unmarked(env.template) && ExecuteStep(env, s, s', r)
    ensures Core(s') && s.log <= s'.log
    ensures Append(env, s.files, r).1 == Done ==> r.id in s'.log
  {
    AppendEffect(env, s, r);
    LogGrowsKeeps(s, s'.files, s'.log);
  }

  lemma ExecuteReplyKeeps(env: Env, s: State, s': State, r: Request, t: int, w: Worker)
    requires Inv(env, s) && Unmarked(env.template) && t in s.workers && w == s.workers[t]
    requires ExecuteReplyStep(env, s, s', r, t, w)
    ensures Core(s')
  {
    var mid := s.(files := s'.files, log := s'.log);
    ExecuteKeeps(env, s, mid, r);
    RepliedKeeps(mid, s', t, w, r.id, Append(env, s.files, r).1 == Done);
  }

  lemma WritersMarkers(env: Env, s: State, s': State)
    requires Inv(env, s) && WritersStep(s, s', s'.files)
    ensures MarkersOk(env, s')
  {
    forall id, f | f in s'.files ensures Hits(s'.files[f], Op(id)) == ExpectedHits(env, s', id, f) {
      UnchangedMarkers(env, s, s', id, f);
    }
    forall id <- s.log ensures Dest(env, RequestOf(s.rows[id].payload)) in s'.files {
      assert SameMarkers(s.files, s'.files, Op(id));
    }
  }

  // --------------------------------------------------------- rows only extend

  /** Rows are never removed or reopened, and no checkpoint is undone. */
  predicate Evolves(a: Rows, b: Rows) {
    forall id <- a :: id in b && Extends(a[id].payload, b[id].payload) && (a[id].done ==> b[id].done)
  }

  lemma EvolvesRefl(a: Rows)
    ensures Evolves(a, a)
  {
  }

  lemma EvolvesTrans(a: Rows, b: Rows, c: Rows)
    requires Evolves(a, b) && Evolves(b, c)
    ensures Evolves(a, c)
  {
    forall id <- a ensures id in c && Extends(a[id].payload, c[id].payload) && (a[id].done ==> c[id].done) {
      assert id in b;
    }
  }

  lemma SaveEvolves(env: Env, s: State, s': State, t: int, w: Worker, committed: bool, reported: bool)
    requires Core(s) && t in s.workers && w == s.workers[t] && SaveStep(s, s', t, w, committed, reported)
    ensures Evolves(s.rows, s'.rows)
  {
    assert RowOk(s, w.snap.id);
  }

  /** A closed job has no lease left, so nobody can reopen it. */
  lemma ReleaseEvolves(env: Env, s: State, s': State, t: int, w: Worker, committed: bool, nextAt: int)
    requires Core(s) && t in s.workers && w == s.workers[t] && ReleaseStep(s, s', t, w, committed, nextAt)
    ensures Evolves(s.rows, s'.rows)
  {
    assert RowOk(s, w.snap.id);
  }

  predicate WritesRows(step: Step) {
    step.Enqueue? || step.Cancel? || step.Claim? || step.Save? || step.Release? || step.Refine?
  }

  lemma OtherStepsKeepRows(env: Env, s: State, s': State, step: Step)
    requires NextStep(env, s, s', step) && !WritesRows(step)
    ensures s'.rows == s.rows
  {
  }

  lemma RowChanged(rows: Rows, id: string, row: Row)
    requires id in rows && Extends(rows[id].payload, row.payload) && (rows[id].done ==> row.done)
    ensures Evolves(rows, rows[id := row])
  {
    forall x <- rows ensures Extends(rows[x].payload, rows[id := row][x].payload) { ExtendsRefl(rows[x].payload); }
    hide Extends;
  }

  lemma EnqueueEvolves(rows: Rows, p: Payload, now: int)
    requires p.id !in rows
    ensures Evolves(rows, EnqueueRow(rows, p, now))
  {
    forall x <- rows ensures Extends(rows[x].payload, rows[x].payload) { ExtendsRefl(rows[x].payload); }
    hide Extends, Known;
  }

  lemma RefineExtends(p: Payload, blob: string)
    requires blob != ""
    ensures Extends(p, p.(prepared := blob))
  {
  }

  lemma RowStepEvolves(env: Env, s: State, s': State, step: Step)
    requires NextStep(env, s, s', step) && (step.Enqueue? || step.Cancel? || step.Claim? || step.Refine?)
    ensures Evolves(s.rows, s'.rows)
  {
    hide Extends, Evolves, Fresh, EnqueueRow;
    match step
    case Enqueue(p) => EnqueueEvolves(s.rows, p, s.now);
    case Cancel(id) =>
      ExtendsRefl(s.rows[id].payload);
      RowChanged(s.rows, id, s'.rows[id]);
    case Claim(id) =>
      ExtendsRefl(s.rows[id].payload);
      RowChanged(s.rows, id, s'.rows[id]);
    case Refine(id, blob) =>
      RefineExtends(s.rows[id].payload, blob);
      RowChanged(s.rows, id, s'.rows[id]);
  }

  lemma StepEvolves(env: Env, s: State, s': State, step: Step)
    requires Core(s) && NextStep(env, s, s', step)
    ensures Evolves(s.rows, s'.rows)
  {
    hide Core;
    if step.Save? {
      SaveEvolves(env, s, s', step.t, s.workers[step.t], step.committed, step.reported);
    } else if step.Release? {
      ReleaseEvolves(env, s, s', step.t, s.workers[step.t], step.committed, step.nextAt);
    } else if WritesRows(step) {
      RowStepEvolves(env, s, s', step);
    } else {
      OtherStepsKeepRows(env, s, s', step);
    }
  }

  /** A step that writes no note keeps the markers right. */
  lemma MarkersKept(env: Env, s: State, s': State)
    requires Inv(env, s) && RowsExtend(s.rows, s'.rows)
    requires s'.files == s.files && s'.log == s.log && s.requests <= s'.requests
    ensures MarkersOk(env, s')
  {
    forall id <- s'.log
      ensures id in s'.rows && RequestOf(s'.rows[id].payload) == RequestOf(s.rows[id].payload)
    {
      assert RequestOk(s, RequestOf(s.rows[id].payload));
    }
    forall id, f | f in s'.files ensures Hits(s'.files[f], Op(id)) == ExpectedHits(env, s', id, f) {
      assert Hits(s.files[f], Op(id)) == ExpectedHits(env, s, id, f);
    }
  }

  // ------------------------------------------------------------------- runs

  lemma InitInv(env: Env, s: State)
    requires Init(s)
    ensures Inv(env, s)
  {
  }

  predicate Executes(step: Step) {
    step.Execute? || step.ExecuteReply?
  }

  lemma OtherStepsKeepNotes(env: Env, s: State, s': State, step: Step)
    requires NextStep(env, s, s', step) && !Executes(step)
    ensures s'.log == s.log && s.requests <= s'.requests
    ensures s'.files == s.files || WritersStep(s, s', s'.files)
  {
  }

  lemma ExecuteWrites(env: Env, s: State, s': State, step: Step)
    requires NextStep(env, s, s', step) && Executes(step)
    ensures ExecuteStep(env, s, s.(files := s'.files, log := s'.log), step.q) && s'.rows == s.rows && s'.requests == s.requests
  {
  }

  lemma StepMarkers(env: Env, s: State, s': State, step: Step)
    requires Inv(env, s) && Unmarked(env.template) && NextStep(env, s, s', step)
    ensures MarkersOk(env, s')
  {
    StepEvolves(env, s, s', step);
    if Executes(step) {
      ExecuteWrites(env, s, s', step);
      var mid := s.(files := s'.files, log := s'.log);
      AppendMarkers(env, s, mid, step.q);
      SameNotes(env, mid, s');
    } else {
      OtherStepsKeepNotes(env, s, s', step);
      if s'.files == s.files {
        MarkersKept(env, s, s');
      } else {
        WritersMarkers(env, s, s');
      }
    }
  }

  lemma SameNotes(env: Env, s: State, s': State)
    requires MarkersOk(env, s)
    requires s'.files == s.files && s'.log == s.log && s'.rows == s.rows && s'.requests == s.requests
    ensures MarkersOk(env, s')
  {
    forall id, f | f in s'.files ensures Hits(s'.files[f], Op(id)) == ExpectedHits(env, s', id, f) {
      assert Hits(s.files[f], Op(id)) == ExpectedHits(env, s, id, f);
    }
  }

  lemma StepCore(env: Env, s: State, s': State, step: Step)
    requires Inv(env, s) && Unmarked(env.template) && NextStep(env, s, s', step)
    ensures Core(s')
  {
    hide Core, MarkersOk, Unmarked, EnqueueStep, CancelStep, ClaimStep, ExecuteStep, ConfirmStep, RefineStep, SaveStep, ReleaseStep,
      ExecuteReplyStep, SendStep, PassFrontStep, SendAtFrontStep, FailStep;
    match step
    case Enqueue(p) => EnqueueKeeps(s, s', p);
    case Cancel(id) => CancelKeeps(s, s', id);
    case Tick(to) => TickKeeps(s, to);
    case Claim(id) => ClaimKeeps(s, s', id);
    case Execute(r) => ExecuteKeeps(env, s, s', r);
    case Confirm(id) => ConfirmKeeps(s, s', id);
    case Refine(id, blob) => RefineKeeps(s, s', id, blob);
    case OtherWriters(files) => LogGrowsKeeps(s, files, s.log);
    case Save(t, committed, reported) => SaveKeeps(s, s', t, s.workers[t], committed, reported);
    case Release(t, committed, nextAt) => ReleaseKeeps(s, s', t, s.workers[t], committed, nextAt);
    case Crash(t) => DropWorkerKeeps(s, t);
    case ExecuteReply(t, r) => ExecuteReplyKeeps(env, s, s', r, t, s.workers[t]);
    case Send(t) => WorkerSendKeeps(env, s, s', t, s.workers[t], step);
    case PassFront(t) => WorkerSendKeeps(env, s, s', t, s.workers[t], step);
    case SendAtFront(t) => WorkerSendKeeps(env, s, s', t, s.workers[t], step);
    case Fail(t) => WorkerSendKeeps(env, s, s', t, s.workers[t], step);
    case _ => WorkerMoveKeeps(env, s, s', step.t, s.workers[step.t], step);
  }

  lemma StepKeeps(env: Env, s: State, s': State, step: Step)
    requires Inv(env, s) && Unmarked(env.template) && NextStep(env, s, s', step)
    ensures Inv(env, s')
  {
    StepCore(env, s, s', step);
    StepMarkers(env, s, s', step);
  }

  lemma {:induction false} RunInv(env: Env, run: seq<State>, k: nat)
    requires IsRun(env, run) && Unmarked(env.template) && k < |run|
    ensures Inv(env, run[k])
  {
    if k == 0 {
      InitInv(env, run[0]);
    } else {
      RunInv(env, run, k - 1);
      assert Next(env, run[k - 1], run[k - 1 + 1]);
      var step :| NextStep(env, run[k - 1], run[k], step);
      StepKeeps(env, run[k - 1], run[k], step);
    }
  }
}
