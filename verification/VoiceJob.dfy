/** One durable voice job: its checkpoints, the lease-guarded row that stores
    them, and one bounded step of a worker
    (internal/voicejobs/store.go, frontends/telegram/tghandlers/voice_durable.go). */
module VoiceJob {
  import opened Options

  datatype Mode = Note | Reminder | Smart

  /** The JSON payload of a job. */
  datatype Payload = Payload(
    // fixed at acceptance
    id: string, chat: int, msg: int, date: string, relpath: string, mode: Mode,
    // checkpoints
    statusMsg: int, submitStarted: bool, remoteId: string, resultReady: bool, text: string, error: string,
    acked: bool, noteSaved: bool, prepared: string)

  /** A row of voice_jobs; `until` means something only while a token is set. */
  datatype Row = Row(payload: Payload, cancel: bool, done: bool, created: int, nextAt: int, token: Option<int>, until: int)

  type Rows = map<string, Row>

  const LEASE: int := 240

  // ----------------------------------------------------------- SQL statements

  predicate Claimable(row: Row, now: int) {
    !row.done && row.nextAt <= now && (row.token.None? || row.until < now)
  }

  /** ORDER BY next_at, created_at, message_id */
  predicate Ahead(a: Row, b: Row) {
    || a.nextAt < b.nextAt
    || (a.nextAt == b.nextAt && (a.created < b.created || (a.created == b.created && a.payload.msg <= b.payload.msg)))
  }

  function ClaimRow(row: Row, token: int, now: int): Row {
    row.(token := Some(token), until := now + LEASE)
  }

  /** The guard of save.sql and release.sql. */
  predicate Holds(row: Row, token: int, now: int) {
    row.token == Some(token) && row.until > now
  }

  function SaveRow(row: Row, payload: Payload): Row {
    row.(payload := payload)
  }

  function ReleaseRow(row: Row, payload: Payload, done: bool, nextAt: int): Row {
    row.(payload := payload, done := done, nextAt := nextAt, token := None)
  }

  predicate IsFront(rows: Rows, chat: int, msg: int) {
    forall id <- rows :: rows[id].payload.chat == chat && rows[id].payload.msg < msg ==> rows[id].done
  }

  predicate Known(rows: Rows, chat: int, msg: int) {
    exists id <- rows :: rows[id].payload.chat == chat && rows[id].payload.msg == msg
  }

  /** enqueue.sql: a second job for the same message is dropped. */
  function EnqueueRow(rows: Rows, p: Payload, now: int): Rows {
    if Known(rows, p.chat, p.msg) then rows
    else rows[p.id := Row(p, false, false, now, now, None, 0)]
  }

  // ------------------------------------------------------------ what to do

  datatype Action =
    | SendStatus | CloseCancelled | CancelRemote | MarkSubmit | Upload | Poll | Ack | CheckFront
    // once the job is at the front of its chat
    | ShowFailure | AppendNote | ShowNote | Prepare | ShowPrepared

  /** The first missing checkpoint. */
  function NextAction(j: Payload, cancel: bool): Action {
    if j.statusMsg == 0 then SendStatus
    else if cancel && !j.resultReady && j.remoteId != "" then CancelRemote
    else if cancel && !j.resultReady && !j.submitStarted then CloseCancelled
    else if !j.resultReady && j.remoteId == "" then (if j.submitStarted then Upload else MarkSubmit)
    else if !j.resultReady then Poll
    else if !j.acked && j.remoteId != "" then Ack
    else CheckFront
  }

  function FrontAction(j: Payload): Action {
    if j.error != "" || j.text == "" then ShowFailure
    else if j.mode == Note then (if j.noteSaved then ShowNote else AppendNote)
    else if j.prepared == "" then Prepare else ShowPrepared
  }

  predicate Final(a: Action) {
    a in {ShowFailure, ShowNote, ShowPrepared}
  }

  /** Successful replies. */
  datatype Reply =
    | StatusSent(msg: int) | RemoteCancelled | Uploaded(remote: string) | Transcribed(text: string)
    | InferenceFailed | Running | Acknowledged | Appended | PreparedAs(blob: string)

  predicate Answers(a: Action, r: Reply) {
    match a
    case SendStatus => r.StatusSent?
    case CancelRemote => r.RemoteCancelled?
    case Upload => r.Uploaded?
    case Poll => r.Transcribed? || r.InferenceFailed? || r.Running?
    case Ack => r.Acknowledged?
    case AppendNote => r.Appended?
    case Prepare => r.PreparedAs?
    case _ => false
  }

  /** The checkpoint a successful reply sets. */
  function Checkpoint(j: Payload, r: Reply): Payload {
    match r
    case StatusSent(m) => j.(statusMsg := m)
    case RemoteCancelled => j.(error := "cancelled", resultReady := true)
    case Uploaded(remote) => j.(remoteId := remote)
    case Transcribed(text) => j.(text := text, resultReady := true)
    case InferenceFailed => j.(error := "inference_failed", resultReady := true)
    case Running => j
    case Acknowledged => j.(acked := true)
    case Appended => j.(noteSaved := true)
    case PreparedAs(blob) => j.(prepared := blob)
  }

  /** The checkpoint of an action that calls nobody. */
  function LocalCheckpoint(j: Payload, a: Action): Payload {
    match a
    case CloseCancelled => j.(error := "cancelled", resultReady := true)
    case MarkSubmit => j.(submitStarted := true)
    case _ => j
  }

  // ----------------------------------------------------------- checkpoints

  /** A job whose transcript is to be written or confirmed. */
  predicate HasText(p: Payload) {
    p.resultReady && p.error == "" && p.text != ""
  }

  /** What every stored or in-memory payload satisfies. */
  predicate Coherent(p: Payload) {
    && (p.remoteId != "" ==> p.submitStarted)
    && (p.acked ==> p.resultReady)
    && (p.noteSaved ==> HasText(p) && p.mode == Note)
    && (p.prepared != "" ==> HasText(p) && p.mode != Note)
    && (p.resultReady && p.remoteId == "" ==> p.error == "cancelled" && !p.submitStarted)
    && (p.error != "" ==> p.resultReady)
    && (p.text != "" ==> p.resultReady && p.error == "")
    && (p.relpath != "" ==> p.mode == Note)
  }

  /** A payload as AcceptVoice enqueues it. */
  predicate Fresh(p: Payload) {
    && !p.submitStarted && p.remoteId == "" && !p.resultReady && p.text == "" && p.error == ""
    && !p.acked && !p.noteSaved && p.prepared == ""
    && (p.relpath != "" ==> p.mode == Note)
  }

  /** `q` is `p` with possibly more checkpoints; none is undone, and a result
      once ready is final. */
  predicate Extends(p: Payload, q: Payload) {
    && q.id == p.id && q.chat == p.chat && q.msg == p.msg && q.date == p.date && q.relpath == p.relpath && q.mode == p.mode
    && (p.submitStarted ==> q.submitStarted)
    && (p.remoteId != "" ==> q.remoteId == p.remoteId)
    && (p.resultReady ==> q.resultReady && q.text == p.text && q.error == p.error
                          && q.remoteId == p.remoteId && q.submitStarted == p.submitStarted)
    && (p.acked ==> q.acked)
    && (p.noteSaved ==> q.noteSaved)
    && (p.prepared != "" ==> q.prepared != "")
  }

  /** A job may be closed only with its result delivered where it belongs. */
  predicate Closable(p: Payload) {
    && p.resultReady && (p.remoteId != "" ==> p.acked)
    && (HasText(p) ==> if p.mode == Note then p.noteSaved else p.prepared != "")
  }

  lemma CheckpointExtends(j: Payload, cancel: bool, a: Action, r: Reply)
    requires Coherent(j) && Answers(a, r)
    requires a == NextAction(j, cancel) || (NextAction(j, cancel) == CheckFront && a == FrontAction(j))
    ensures Extends(j, Checkpoint(j, r)) && Coherent(Checkpoint(j, r))
    ensures Checkpoint(j, r).noteSaved ==> j.noteSaved || a == AppendNote
  {
  }

  lemma LocalCheckpointExtends(j: Payload, cancel: bool)
    requires Coherent(j) && NextAction(j, cancel) in {CloseCancelled, MarkSubmit}
    ensures var q := LocalCheckpoint(j, NextAction(j, cancel)); Extends(j, q) && Coherent(q)
  {
  }

  lemma FinalCloses(j: Payload, cancel: bool)
    requires Coherent(j) && NextAction(j, cancel) == CheckFront && Final(FrontAction(j))
    ensures Closable(j)
  {
  }

  // ----------------------------------------------------------- termination

  function Unset(p: Payload): nat {
    (if p.statusMsg == 0 then 1 else 0) + (if p.submitStarted then 0 else 1) + (if p.remoteId == "" then 1 else 0)
    + (if p.resultReady then 0 else 1) + (if p.acked then 0 else 1) + (if p.noteSaved then 0 else 1)
    + (if p.prepared == "" then 1 else 0)
  }

  /** A reply that carries something: no service here should answer with an empty
      id or blob. */
  predicate Substantial(r: Reply) {
    match r
    case StatusSent(m) => m != 0
    case Uploaded(remote) => remote != ""
    case PreparedAs(blob) => blob != ""
    case Running => false
    case _ => true
  }

  /** The action of a step, past the front check if it comes to that. */
  predicate Takes(p: Payload, cancel: bool, a: Action) {
    a == NextAction(p, cancel) || (NextAction(p, cancel) == CheckFront && a == FrontAction(p))
  }

  /** A step that returns with no delay: it saved a checkpoint. */
  ghost predicate ZeroDelay(p: Payload, cancel: bool, q: Payload) {
    var a := NextAction(p, cancel);
    || (a in {CloseCancelled, MarkSubmit} && q == LocalCheckpoint(p, a))
    || (exists b, r :: Takes(p, cancel, b) && Answers(b, r) && !r.Running? && q == Checkpoint(p, r))
  }

  /** An answered action lowers the number of unset checkpoints exactly when the reply
      carries something; after an empty one the job is as it was, and the action, an
      upload or a preview, is taken again. */
  lemma ReplyProgress(p: Payload, cancel: bool, a: Action, r: Reply)
    requires Coherent(p) && Takes(p, cancel, a) && Answers(a, r)
    ensures if Substantial(r) then Unset(Checkpoint(p, r)) < Unset(p) else Checkpoint(p, r) == p
  {
  }

  lemma ZeroDelayProgress(p: Payload, cancel: bool, q: Payload)
    requires Coherent(p) && ZeroDelay(p, cancel, q)
    ensures Coherent(q) && Extends(p, q) && (q == p || Unset(q) < Unset(p))
  {
    var a := NextAction(p, cancel);
    if a in {CloseCancelled, MarkSubmit} && q == LocalCheckpoint(p, a) {
      LocalCheckpointExtends(p, cancel);
    } else {
      var b, r :| Takes(p, cancel, b) && Answers(b, r) && !r.Running? && q == Checkpoint(p, r);
      CheckpointExtends(p, cancel, b, r);
      ReplyProgress(p, cancel, b, r);
    }
  }

  /** The steps of a run that changed the job. */
  function Advances(run: seq<Payload>): nat {
    if |run| < 2 then 0 else (if run[1] != run[0] then 1 else 0) + Advances(run[1..])
  }

  /** However cancellations arrive, at most seven zero-delay steps change the job. */
  lemma {:induction false} SuccessfulRunsEnd(run: seq<Payload>, cancels: seq<bool>)
    requires |run| >= 1 && |cancels| == |run| - 1 && Coherent(run[0])
    requires forall k :: 0 <= k < |cancels| ==> ZeroDelay(run[k], cancels[k], run[k + 1])
    ensures Advances(run) + Unset(run[|cancels|]) <= Unset(run[0]) <= 7
    ensures (forall k :: 0 <= k < |cancels| ==> run[k + 1] != run[k]) ==> Advances(run) == |cancels|
  {
    if |cancels| > 0 {
      ZeroDelayProgress(run[0], cancels[0], run[1]);
      hide ZeroDelay, Coherent, Extends, Unset;
      var run', cancels' := run[1..], cancels[1..];
      forall k | 0 <= k < |cancels'| ensures ZeroDelay(run'[k], cancels'[k], run'[k + 1]) {
        assert run'[k] == run[k + 1] && cancels'[k] == cancels[k + 1];
      }
      SuccessfulRunsEnd(run', cancels');
      assert (forall k :: 0 <= k < |cancels| ==> run[k + 1] != run[k]) ==> forall k :: 0 <= k < |cancels'| ==> run'[k + 1] != run'[k];
    }
  }

  /** And when none is left that would, the job is waiting on somebody or can be closed. */
  lemma NoStepLeft(p: Payload, cancel: bool)
    requires Coherent(p) && forall q :: ZeroDelay(p, cancel, q) ==> q == p
    ensures NextAction(p, cancel) == CheckFront && Final(FrontAction(p)) && Closable(p)
  {
    var a := NextAction(p, cancel);
    if a in {CloseCancelled, MarkSubmit} {
      assert ZeroDelay(p, cancel, LocalCheckpoint(p, a));
    }
    var b := if a == CheckFront then FrontAction(p) else a;
    if !Final(b) {
      var r := match b
        case SendStatus => StatusSent(1) case CancelRemote => RemoteCancelled case Upload => Uploaded("r")
        case Poll => InferenceFailed case Ack => Acknowledged case AppendNote => Appended case _ => PreparedAs("{}");
      assert Takes(p, cancel, b) && Answers(b, r);
      assert ZeroDelay(p, cancel, Checkpoint(p, r));
    }
    FinalCloses(p, cancel);
  }
}
