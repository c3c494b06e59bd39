/** The code that drives the protocol: acceptance of a voice message, the polling
    loop, the job store, and one bounded step of a worker. External calls appear
    as their replies, given in advance. */
module VoiceWorker {
  import opened Options
  import opened VoiceJob
  import opened VoiceProtocol

  // --------------------------------------------------------------------- store

  /** How a statement fares: it fails, or commits with its reply lost, or commits. */
  datatype Commit = Failed | Unreported | Reported

  /** The voice_jobs table. */
  class Store {
    var rows: Rows
    var now: int
    var nextToken: int

    constructor (now: int)
      ensures rows == map[] && this.now == now && nextToken == 0
    {
      rows, this.now, nextToken := map[], now, 0;
    }

    method Find(chat: int, msg: int) returns (found: Option<Payload>)
      ensures found.Some? <==> Known(rows, chat, msg)
      ensures found.Some? ==> found.value.chat == chat && found.value.msg == msg
    {
      if id :| id in rows && rows[id].payload.chat == chat && rows[id].payload.msg == msg {
        return Some(rows[id].payload);
      }
      return None;
    }

    method Enqueue(p: Payload)
      modifies this`rows
      ensures rows == EnqueueRow(old(rows), p, now)
    {
      var found := Find(p.chat, p.msg);
      if found.None? {
        rows := rows[p.id := Row(p, false, false, now, now, None, 0)];
      }
    }

    /** The due row without a live lease that comes first. */
    method FirstDue() returns (first: Option<string>)
      ensures first.None? ==> forall id <- rows :: !Claimable(rows[id], now)
      ensures first.Some? ==> first.value in rows && Claimable(rows[first.value], now)
      ensures first.Some? ==> forall id <- rows :: Claimable(rows[id], now) ==> Ahead(rows[first.value], rows[id])
    {
      first := None;
      var rest := rows.Keys;
      while rest != {}
        invariant rest <= rows.Keys
        invariant first.Some? ==> first.value in rows && Claimable(rows[first.value], now)
        invariant forall id <- rows :: id !in rest && Claimable(rows[id], now) ==> first.Some? && Ahead(rows[first.value], rows[id])
        decreases rest
      {
        assert (forall x :: x !in rest) ==> rest == {};
        var id :| id in rest;
        rest := rest - {id};
        if Claimable(rows[id], now) && (first.None? || !Ahead(rows[first.value], rows[id])) {
          first := Some(id);
        }
      }
    }

    /** The first due job without a live lease, under a fresh token. */
    method Claim() returns (job: Job?)
      requires forall id <- rows :: rows[id].payload.id == id
      modifies this`rows, this`nextToken
      ensures nextToken == old(nextToken) + 1
      ensures job == null <==> forall id <- old(rows) :: !Claimable(old(rows)[id], now)
      ensures job == null ==> rows == old(rows)
      ensures job != null ==> fresh(job) && job.id in old(rows) && Claimable(old(rows)[job.id], now)
      ensures job != null ==>
        forall id <- old(rows) :: Claimable(old(rows)[id], now) ==> Ahead(old(rows)[job.id], old(rows)[id])
      ensures job != null ==> job.Value() == old(rows)[job.id].payload && job.cancelRequested == old(rows)[job.id].cancel
      ensures job != null ==> job.leaseToken == old(nextToken)
      ensures job != null ==> rows == old(rows)[job.id := ClaimRow(old(rows)[job.id], old(nextToken), now)]
    {
      var token := nextToken;
      nextToken := nextToken + 1;
      job := null;
      assert rows == old(rows);
      var first := FirstDue();
      if first.Some? {
        var id := first.value;
        assert id in old(rows) && Claimable(old(rows)[id], now);
        job := new Job(rows[id].payload, rows[id].cancel, token);
        rows := rows[id := ClaimRow(rows[id], token, now)];
      }
    }

    /** Written when the lease is held and the statement commits; true when its reply
        arrives, too. */
    method Save(j: Job, db: Commit) returns (ok: bool)
      modifies this`rows
      ensures var held := j.id in old(rows) && Holds(old(rows)[j.id], j.leaseToken, now);
        && (ok <==> held && db == Reported)
        && rows == if held && db != Failed then old(rows)[j.id := SaveRow(old(rows)[j.id], j.Value())] else old(rows)
    {
      var held := j.id in rows && Holds(rows[j.id], j.leaseToken, now);
      if held && db != Failed {
        rows := rows[j.id := rows[j.id].(payload := j.Value())];
      }
      ok := held && db == Reported;
    }

    method Release(j: Job, done: bool, delay: int, db: Commit) returns (ok: bool)
      modifies this`rows
      ensures var held := j.id in old(rows) && Holds(old(rows)[j.id], j.leaseToken, now);
        && (ok <==> held && db == Reported)
        && rows == if held && db != Failed then old(rows)[j.id := ReleaseRow(old(rows)[j.id], j.Value(), done, now + delay)] else old(rows)
    {
      var held := j.id in rows && Holds(rows[j.id], j.leaseToken, now);
      if held && db != Failed {
        rows := rows[j.id := rows[j.id].(payload := j.Value(), done := done, nextAt := now + delay, token := None)];
      }
      ok := held && db == Reported;
    }
  }

  /** A claimed job in memory. */
  class Job {
    const id: string
    const chat: int
    const msg: int
    const date: string
    const relpath: string
    const mode: Mode
    const cancelRequested: bool
    const leaseToken: int
    var statusMsg: int
    var submitStarted: bool
    var remoteId: string
    var resultReady: bool
    var text: string
    var error: string
    var acked: bool
    var noteSaved: bool
    var prepared: string

    constructor (p: Payload, cancel: bool, token: int)
      ensures Value() == p && cancelRequested == cancel && leaseToken == token && id == p.id
    {
      id, chat, msg, date, relpath, mode := p.id, p.chat, p.msg, p.date, p.relpath, p.mode;
      statusMsg, submitStarted, remoteId := p.statusMsg, p.submitStarted, p.remoteId;
      resultReady, text, error, acked := p.resultReady, p.text, p.error, p.acked;
      noteSaved, prepared, cancelRequested, leaseToken := p.noteSaved, p.prepared, cancel, token;
    }

    function Value(): Payload
      reads this
    {
      Payload(id, chat, msg, date, relpath, mode, statusMsg, submitStarted, remoteId, resultReady, text, error,
              acked, noteSaved, prepared)
    }
  }

  // ---------------------------------------------------------------- voice step

  datatype AckReply = AckOk | AckRejected | AckNotFound | AckError
  datatype AppendReply = NoteSaved | NotSaved | AppendError
  datatype EditReply = Edited | Missing | EditError

  /** The delay of a step that waits on somebody. */
  const RETRY := 5

  /** What every outside call of a step would answer; None is an error. */
  datatype Calls = Calls(
    send: Option<int>, cancel: bool, download: bool, submit: Option<string>, status: Option<Reply>,
    ack: AckReply, front: Option<bool>, append: AppendReply, prepare: Option<string>,
    edit: EditReply, editAgain: bool, save: Commit)

  /** GetStatus answers with a transcript, a failure, or that it is not finished. */
  predicate Honest(c: Calls) {
    c.status.Some? ==> Answers(Poll, c.status.value)
  }

  /** The action of a step: the first missing checkpoint, or what the front of
      the chat calls for once the front check passes. */
  function Chosen(p: Payload, cancel: bool, c: Calls): Action {
    var a := NextAction(p, cancel);
    if a == CheckFront && c.front == Some(true) then FrontAction(p) else a
  }

  /** The successful reply the chosen action gets, if any. */
  function Answer(a: Action, c: Calls): Option<Reply> {
    match a
    case SendStatus => if c.send.Some? then Some(StatusSent(c.send.value)) else None
    case CancelRemote => if c.cancel then Some(RemoteCancelled) else None
    case Upload => if c.download && c.submit.Some? then Some(Uploaded(c.submit.value)) else None
    case Poll => c.status
    case Ack => if c.ack in {AckOk, AckNotFound} then Some(Acknowledged) else None
    case AppendNote => if c.append == NoteSaved then Some(Appended) else None
    case Prepare => if c.prepare.Some? then Some(PreparedAs(c.prepare.value)) else None
    case _ => None
  }

  /** The checkpoint the step sets in memory, if it sets one. */
  function Sets(p: Payload, cancel: bool, c: Calls): Option<Payload> {
    var a := Chosen(p, cancel, c);
    var r := Answer(a, c);
    if a in {CloseCancelled, MarkSubmit} then Some(LocalCheckpoint(p, a))
    else if r.Some? && !r.value.Running? then Some(Checkpoint(p, r.value))
    else if Final(a) && c.edit == Missing && c.send.Some? then Some(p.(statusMsg := c.send.value))
    else None
  }

  /** A job, its row and its lease as a step starts. */
  datatype Start = Start(job: Payload, cancel: bool, token: int, rows: Rows, now: int)

  /** The checkpoint reaches the row. */
  predicate Writes(s: Start, c: Calls) {
    Sets(s.job, s.cancel, c).Some? && c.save != Failed && s.job.id in s.rows && Holds(s.rows[s.job.id], s.token, s.now)
  }

  /** And the worker hears of it. */
  predicate Saved(s: Start, c: Calls) {
    Writes(s, c) && c.save == Reported
  }

  function JobAfter(s: Start, c: Calls): Payload {
    Sets(s.job, s.cancel, c).GetOr(s.job)
  }

  function RowsAfter(s: Start, c: Calls): Rows {
    if Writes(s, c) then s.rows[s.job.id := SaveRow(s.rows[s.job.id], JobAfter(s, c))] else s.rows
  }

  /** A final step succeeds when its message was edited, if need be after it was
      recreated and that was saved; a step with a checkpoint when that was saved;
      any other when it found the job still running, or not at the front. */
  predicate Succeeds(s: Start, c: Calls) {
    var a := Chosen(s.job, s.cancel, c);
    if Final(a) then c.edit == Edited || (c.edit == Missing && Saved(s, c) && c.editAgain)
    else if Sets(s.job, s.cancel, c).Some? then Saved(s, c)
    else (a == Poll && c.status.Some?) || (a == CheckFront && c.front.Some?)
  }

  /** What one step does: in memory the job is one checkpoint ahead or unchanged,
      and the row is that job if the lease was still held when it was saved. Only
      a final step asks to close the job, and only a step that waits on somebody
      asks to be delayed. */
  predicate Stepped(s: Start, c: Calls, job: Payload, rows: Rows, done: bool, delay: int, ok: bool) {
    var last := Final(Chosen(s.job, s.cancel, c));
    && job == JobAfter(s, c) && rows == RowsAfter(s, c) && done == last && ok == Succeeds(s, c)
    && delay == (if last || Sets(s.job, s.cancel, c).Some? then 0 else 5)
  }

  ghost function StartOf(store: Store, j: Job): Start
    reads store, j
  {
    Start(j.Value(), j.cancelRequested, j.leaseToken, store.rows, store.now)
  }

  // ------------------------------------------ what a step leaves, field by field

  /** The status message is there and the result is not. */
  predicate Unanswered(p: Payload) {
    p.statusMsg != 0 && !p.resultReady
  }

  /** A cancellation that takes effect: before the intent to upload is recorded it needs
      nobody, and once the backend has the job it needs the backend. */
  predicate Cancels(p: Payload, cancel: bool, c: Calls) {
    Unanswered(p) && cancel && (if p.remoteId != "" then c.cancel else !p.submitStarted)
  }

  predicate Polls(p: Payload, cancel: bool) {
    Unanswered(p) && p.remoteId != "" && !cancel
  }

  /** The result is ready, the backend need not keep it, and no message before this one is open. */
  predicate MayDeliver(p: Payload, c: Calls) {
    p.statusMsg != 0 && p.resultReady && (p.remoteId == "" || p.acked) && c.front == Some(true)
  }

  predicate Delivers(p: Payload, c: Calls) {
    MayDeliver(p, c) && (p.error != "" || p.text == "" || (if p.mode == Note then p.noteSaved else p.prepared != ""))
  }

  /** Each field changes in one situation only, to what was answered in it, and what was
      fixed at acceptance stays. */
  predicate FieldsAfter(p: Payload, cancel: bool, c: Calls, q: Payload) {
    && q.id == p.id && q.chat == p.chat && q.msg == p.msg && q.date == p.date && q.relpath == p.relpath && q.mode == p.mode
    && q.statusMsg == (if c.send.Some? && (p.statusMsg == 0 || (Delivers(p, c) && c.edit == Missing)) then c.send.value else p.statusMsg)
    && q.submitStarted == (p.submitStarted || (Unanswered(p) && p.remoteId == "" && !cancel))
    && q.remoteId == (if Unanswered(p) && p.remoteId == "" && p.submitStarted && c.download && c.submit.Some? then c.submit.value else p.remoteId)
    && ResultAfter(p, cancel, c, q)
    && q.acked == (p.acked || (p.statusMsg != 0 && p.resultReady && p.remoteId != "" && c.ack in {AckOk, AckNotFound}))
    && var writes := MayDeliver(p, c) && p.error == "" && p.text != "";
    && q.noteSaved == (p.noteSaved || (writes && p.mode == Note && c.append == NoteSaved))
    && q.prepared == (if writes && p.mode != Note && p.prepared == "" && c.prepare.Some? then c.prepare.value else p.prepared)
  }

  predicate ResultAfter(p: Payload, cancel: bool, c: Calls, q: Payload) {
    var reply := if Polls(p, cancel) then c.status else None;
    && q.text == (if reply.Some? && reply.value.Transcribed? then reply.value.text else p.text)
    && q.error == (if Cancels(p, cancel, c) then "cancelled" else if reply == Some(InferenceFailed) then "inference_failed" else p.error)
    && q.resultReady == (p.resultReady || Cancels(p, cancel, c) || (reply.Some? && !reply.value.Running?))
  }

  lemma NewFields(p: Payload, cancel: bool, c: Calls)
    requires p.statusMsg == 0
    ensures FieldsAfter(p, cancel, c, Sets(p, cancel, c).GetOr(p))
  {
    UnansweredSets(p, cancel, c);
    hide Sets, Chosen, FrontAction, Final;
  }

  lemma CancelledFields(p: Payload, cancel: bool, c: Calls)
    requires Unanswered(p) && cancel
    ensures FieldsAfter(p, cancel, c, Sets(p, cancel, c).GetOr(p))
  {
    UnansweredSets(p, cancel, c);
    hide Sets, Chosen, FrontAction, Final;
  }

  lemma OpenFields(p: Payload, c: Calls)
    requires Honest(c) && Unanswered(p)
    ensures FieldsAfter(p, false, c, Sets(p, false, c).GetOr(p))
  {
    UnansweredSets(p, false, c);
    hide Sets, Chosen, FrontAction, Final;
  }

  lemma UnansweredFields(p: Payload, cancel: bool, c: Calls)
    requires Honest(c) && (p.statusMsg == 0 || !p.resultReady)
    ensures FieldsAfter(p, cancel, c, Sets(p, cancel, c).GetOr(p))
    ensures !Final(Chosen(p, cancel, c)) && !Delivers(p, c)
  {
    UnansweredSets(p, cancel, c);
    hide Sets, Chosen, FrontAction, Final, NextAction, FieldsAfter, Honest;
    if p.statusMsg == 0 {
      NewFields(p, cancel, c);
    } else if cancel {
      CancelledFields(p, cancel, c);
    } else {
      OpenFields(p, c);
    }
  }

  lemma UnansweredSets(p: Payload, cancel: bool, c: Calls)
    requires p.statusMsg == 0 || !p.resultReady
    ensures var a := NextAction(p, cancel);
      && Chosen(p, cancel, c) == a && !Final(a)
      && Sets(p, cancel, c) == if a in {CloseCancelled, MarkSubmit} then Some(LocalCheckpoint(p, a))
        else if Answer(a, c).Some? && !Answer(a, c).value.Running? then Some(Checkpoint(p, Answer(a, c).value)) else None
  {
    var a := NextAction(p, cancel);
    assert Chosen(p, cancel, c) == a && !Final(a);
    hide Chosen, NextAction, FrontAction, Checkpoint, LocalCheckpoint, Answer;
  }

  lemma BehindFields(p: Payload, cancel: bool, c: Calls)
    requires p.statusMsg != 0 && p.resultReady && !MayDeliver(p, c)
    ensures FieldsAfter(p, cancel, c, Sets(p, cancel, c).GetOr(p))
    ensures !Final(Chosen(p, cancel, c)) && !Delivers(p, c)
  {
    assert Chosen(p, cancel, c) == if !p.acked && p.remoteId != "" then Ack else CheckFront;
    hide Chosen, NextAction, FrontAction, Checkpoint;
    assert Checkpoint(p, Acknowledged) == p.(acked := true) by { Acked(p); }
  }

  lemma Acked(p: Payload)
    ensures Checkpoint(p, Acknowledged) == p.(acked := true)
  {
  }

  lemma FrontFields(p: Payload, cancel: bool, c: Calls)
    requires MayDeliver(p, c)
    ensures FieldsAfter(p, cancel, c, Sets(p, cancel, c).GetOr(p))
    ensures Final(Chosen(p, cancel, c)) <==> Delivers(p, c)
  {
    FrontChoice(p, cancel, c);
    hide Chosen, NextAction;
  }

  lemma FrontChoice(p: Payload, cancel: bool, c: Calls)
    requires MayDeliver(p, c)
    ensures Chosen(p, cancel, c) == FrontAction(p)
  {
  }

  lemma StepFields(s: Start, c: Calls)
    requires Honest(c)
    ensures FieldsAfter(s.job, s.cancel, c, JobAfter(s, c))
    ensures Final(Chosen(s.job, s.cancel, c)) <==> Delivers(s.job, c)
  {
    hide FieldsAfter, Sets, Chosen, Final, Delivers, Honest;
    if s.job.statusMsg == 0 || !s.job.resultReady {
      UnansweredFields(s.job, s.cancel, c);
    } else if !MayDeliver(s.job, c) {
      BehindFields(s.job, s.cancel, c);
    } else {
      FrontFields(s.job, s.cancel, c);
    }
  }

  /** The lease of the row is held, so nobody else may write it. */
  predicate Leased(rows: Rows, id: string, token: int, now: int) {
    id in rows && rows[id].token == Some(token) && rows[id].until > now
  }

  /** The row of the job holds what the worker holds, or no row is touched; and the worker
      goes on with a changed job only when the row holds it. */
  predicate Recorded(before: Rows, after: Rows, p: Payload, q: Payload, token: int, now: int, save: Commit, ok: bool) {
    var held := Leased(before, p.id, token, now) && save != Failed;
    && (after == before || (held && after == before[p.id := before[p.id].(payload := q)]))
    && (held && q != p ==> after == before[p.id := before[p.id].(payload := q)])
    && (ok && q != p ==> held && save == Reported)
  }

  lemma StepRecords(s: Start, c: Calls)
    ensures Recorded(s.rows, RowsAfter(s, c), s.job, JobAfter(s, c), s.token, s.now, c.save, Succeeds(s, c))
  {
    hide Chosen;
    SetsId(s, c);
  }

  lemma SetsId(s: Start, c: Calls)
    ensures JobAfter(s, c).id == s.job.id
  {
  }

  // ---------------------------------------------------------- the step, in its parts

  /** A step that sets nothing leaves the job alone, and waits. */
  lemma StepWaits(s: Start, c: Calls)
    requires Sets(s.job, s.cancel, c).None? && !Final(Chosen(s.job, s.cancel, c))
    ensures Stepped(s, c, s.job, s.rows, false, RETRY, Succeeds(s, c))
  {
    hide Sets, Chosen, Succeeds;
  }

  /** One that sets a checkpoint saves it, and goes on at once. */
  lemma StepSaves(s: Start, c: Calls)
    requires Sets(s.job, s.cancel, c).Some? && !Final(Chosen(s.job, s.cancel, c))
    ensures var q := Sets(s.job, s.cancel, c).value; var held := s.job.id in s.rows && Holds(s.rows[s.job.id], s.token, s.now);
      Stepped(s, c, q, if held && c.save != Failed then s.rows[s.job.id := SaveRow(s.rows[s.job.id], q)] else s.rows, false, 0,
              held && c.save == Reported)
  {
    hide Sets, Chosen, SaveRow, Holds;
  }

  /** A final step that recreates no message leaves the job alone. */
  lemma FinalEdits(s: Start, c: Calls)
    requires Final(Chosen(s.job, s.cancel, c)) && (c.edit == Missing ==> c.send.None?)
    ensures Stepped(s, c, s.job, s.rows, true, 0, c.edit == Edited)
  {
  }

  /** One that does sets it, and nothing else. */
  lemma FinalRecreates(s: Start, c: Calls)
    requires Final(Chosen(s.job, s.cancel, c)) && c.edit == Missing && c.send.Some?
    ensures var p := s.job.(statusMsg := c.send.value); var held := p.id in s.rows && Holds(s.rows[p.id], s.token, s.now);
      Stepped(s, c, p, if held && c.save != Failed then s.rows[p.id := SaveRow(s.rows[p.id], p)] else s.rows, true, 0,
              held && c.save == Reported && c.editAgain)
  {
    hide SaveRow, Holds;
  }

  /** Deliver a final result; a deleted status message is recreated, and that
      is saved before the new one is edited. */
  method EditDurableResult(store: Store, j: Job, c: Calls) returns (ok: bool)
    requires Chosen(j.Value(), j.cancelRequested, c) in {ShowFailure, ShowNote, ShowPrepared}
    modifies store`rows, j`statusMsg
    ensures Stepped(old(StartOf(store, j)), c, j.Value(), store.rows, true, 0, ok)
  {
    ghost var s := StartOf(store, j);
    hide SaveRow, Holds, Stepped, Chosen;
    if c.edit == Missing {
      if c.send.None? {
        FinalEdits(s, c);
        return false;
      }
      FinalRecreates(s, c);
      j.statusMsg := c.send.value;
      var saved := store.Save(j, c.save);
      return saved && c.editAgain;
    }
    FinalEdits(s, c);
    return c.edit == Edited;
  }

  /** The status message is sent. */
  method StatusStep(store: Store, j: Job, c: Calls) returns (done: bool, delay: int, ok: bool)
    requires NextAction(j.Value(), j.cancelRequested) == SendStatus
    modifies store`rows, j
    ensures Stepped(old(StartOf(store, j)), c, j.Value(), store.rows, done, delay, ok)
    ensures c.send.Some? ==> j.statusMsg == c.send.value
    ensures c.send.None? ==> unchanged(j`statusMsg)
    ensures unchanged(j`submitStarted, j`remoteId, j`resultReady, j`text, j`error, j`acked, j`noteSaved, j`prepared)
  {
    hide SaveRow, Holds;
    if c.send.None? {
      return false, RETRY, false;
    }
    j.statusMsg := c.send.value;
    ok := store.Save(j, c.save);
    return false, 0, ok;
  }

  /** The job is closed as cancelled, at the backend too if that has it. */
  method CancelStep(store: Store, j: Job, c: Calls) returns (done: bool, delay: int, ok: bool)
    requires NextAction(j.Value(), j.cancelRequested) in {CancelRemote, CloseCancelled}
    modifies store`rows, j
    ensures Stepped(old(StartOf(store, j)), c, j.Value(), store.rows, done, delay, ok)
    ensures old(j.remoteId) == "" || c.cancel ==> j.error == "cancelled" && j.resultReady
    ensures old(j.remoteId) != "" && !c.cancel ==> unchanged(j)
    ensures unchanged(j`statusMsg, j`submitStarted, j`remoteId, j`text, j`acked, j`noteSaved, j`prepared)
  {
    hide SaveRow, Holds;
    if j.remoteId != "" {
      if !c.cancel {
        return false, RETRY, false;
      }
    }
    j.error := "cancelled";
    j.resultReady := true;
    ok := store.Save(j, c.save);
    return false, 0, ok;
  }

  /** The intent to upload is saved, then the upload. */
  method SubmitStep(store: Store, j: Job, c: Calls) returns (done: bool, delay: int, ok: bool)
    requires NextAction(j.Value(), j.cancelRequested) in {MarkSubmit, Upload}
    modifies store`rows, j
    ensures Stepped(old(StartOf(store, j)), c, j.Value(), store.rows, done, delay, ok)
    ensures !old(j.submitStarted) ==> j.submitStarted && unchanged(j`remoteId)
    ensures old(j.submitStarted) ==> unchanged(j`submitStarted)
    ensures old(j.submitStarted) ==> j.remoteId == if c.download && c.submit.Some? then c.submit.value else old(j.remoteId)
    ensures unchanged(j`statusMsg, j`resultReady, j`text, j`error, j`acked, j`noteSaved, j`prepared)
  {
    hide SaveRow, Holds;
    if !j.submitStarted {
      j.submitStarted := true;
      ok := store.Save(j, c.save);
      return false, 0, ok;
    }
    if !c.download || c.submit.None? {
      return false, RETRY, false;
    }
    j.remoteId := c.submit.value;
    ok := store.Save(j, c.save);
    return false, 0, ok;
  }

  lemma PollSets(s: Start, c: Calls)
    requires Honest(c) && NextAction(s.job, s.cancel) == Poll
    ensures Chosen(s.job, s.cancel, c) == Poll && !Final(Poll)
    ensures c.status.Some? ==> var r := c.status.value; r.Transcribed? || r.InferenceFailed? || r.Running?
    ensures Sets(s.job, s.cancel, c)
         == if c.status.None? || c.status.value.Running? then None else Some(Checkpoint(s.job, c.status.value))
    ensures Sets(s.job, s.cancel, c).None? ==> (Succeeds(s, c) <==> c.status.Some?)
  {
    hide SaveRow, Holds;
  }

  /** The backend is asked for the result. */
  method PollStep(store: Store, j: Job, c: Calls) returns (done: bool, delay: int, ok: bool)
    requires Honest(c) && NextAction(j.Value(), j.cancelRequested) == Poll
    modifies store`rows, j
    ensures Stepped(old(StartOf(store, j)), c, j.Value(), store.rows, done, delay, ok)
    ensures match c.status
      case Some(Transcribed(t)) => j.text == t && j.resultReady && unchanged(j`error)
      case Some(InferenceFailed) => j.error == "inference_failed" && j.resultReady && unchanged(j`text)
      case _ => unchanged(j)
    ensures Coherent(old(j.Value())) && c.status != Some(InferenceFailed) ==> j.error == ""
    ensures unchanged(j`statusMsg, j`submitStarted, j`remoteId, j`acked, j`noteSaved, j`prepared)
    ensures Recorded(old(store.rows), store.rows, old(j.Value()), j.Value(), j.leaseToken, store.now, c.save, ok)
  {
    ghost var s := StartOf(store, j);
    PollSets(s, c);
    hide SaveRow, Holds, Stepped, Chosen, Sets, NextAction, Honest, Answers, Succeeds;
    if c.status.None? {
      StepWaits(s, c);
      return false, RETRY, false;
    }
    match c.status.value {
      case Transcribed(text) =>
        j.text := text;
        j.resultReady := true;
      case InferenceFailed =>
        j.error := "inference_failed";
        j.resultReady := true;
      case _ =>
        StepWaits(s, c);
        return false, RETRY, true;
    }
    StepSaves(s, c);
    ok := store.Save(j, c.save);
    return false, 0, ok;
  }

  /** The backend may forget the result, which is saved. */
  method AckStep(store: Store, j: Job, c: Calls) returns (done: bool, delay: int, ok: bool)
    requires NextAction(j.Value(), j.cancelRequested) == Ack
    modifies store`rows, j
    ensures Stepped(old(StartOf(store, j)), c, j.Value(), store.rows, done, delay, ok)
    ensures j.acked == (old(j.acked) || c.ack in {AckOk, AckNotFound})
    ensures unchanged(j`statusMsg, j`submitStarted, j`remoteId, j`resultReady, j`text, j`error, j`noteSaved, j`prepared)
  {
    hide SaveRow, Holds;
    if c.ack == AckError || c.ack == AckRejected {
      return false, RETRY, false;
    }
    j.acked := true;
    ok := store.Save(j, c.save);
    return false, 0, ok;
  }

  /** The transcript is appended to the note. */
  method AppendStep(store: Store, j: Job, c: Calls) returns (done: bool, delay: int, ok: bool)
    requires NextAction(j.Value(), j.cancelRequested) == CheckFront && c.front == Some(true) && FrontAction(j.Value()) == AppendNote
    modifies store`rows, j
    ensures Stepped(old(StartOf(store, j)), c, j.Value(), store.rows, done, delay, ok)
    ensures j.noteSaved == (old(j.noteSaved) || c.append == NoteSaved)
    ensures unchanged(j`statusMsg, j`submitStarted, j`remoteId, j`resultReady, j`text, j`error, j`acked, j`prepared)
  {
    hide SaveRow, Holds;
    if c.append != NoteSaved {
      return false, RETRY, false;
    }
    j.noteSaved := true;
    ok := store.Save(j, c.save);
    return false, 0, ok;
  }

  /** The transcript is turned into a preview. */
  method PrepareStep(store: Store, j: Job, c: Calls) returns (done: bool, delay: int, ok: bool)
    requires NextAction(j.Value(), j.cancelRequested) == CheckFront && c.front == Some(true) && FrontAction(j.Value()) == Prepare
    modifies store`rows, j
    ensures Stepped(old(StartOf(store, j)), c, j.Value(), store.rows, done, delay, ok)
    ensures j.prepared == if c.prepare.Some? then c.prepare.value else old(j.prepared)
    ensures unchanged(j`statusMsg, j`submitStarted, j`remoteId, j`resultReady, j`text, j`error, j`acked, j`noteSaved)
  {
    hide SaveRow, Holds;
    if c.prepare.None? {
      return false, RETRY, false;
    }
    j.prepared := c.prepare.value;
    ok := store.Save(j, c.save);
    return false, 0, ok;
  }

  /** The rest of the step at the front of the chat. */
  method FrontStep(store: Store, j: Job, c: Calls) returns (done: bool, delay: int, ok: bool)
    requires NextAction(j.Value(), j.cancelRequested) == CheckFront && c.front == Some(true)
    modifies store`rows, j
    ensures Stepped(old(StartOf(store, j)), c, j.Value(), store.rows, done, delay, ok)
  {
    hide Sets, Succeeds, RowsAfter, JobAfter;
    if j.error != "" || j.text == "" {
      ok := EditDurableResult(store, j, c);
      return true, 0, ok;
    }
    if j.mode == Note {
      if !j.noteSaved {
        done, delay, ok := AppendStep(store, j, c);
        return;
      }
      ok := EditDurableResult(store, j, c);
      return true, 0, ok;
    }
    if j.prepared == "" {
      done, delay, ok := PrepareStep(store, j, c);
      return;
    }
    ok := EditDurableResult(store, j, c);
    return true, 0, ok;
  }

  /** One step: at most one external effect, then at most one checkpoint. */
  method VoiceStep(store: Store, j: Job, c: Calls) returns (done: bool, delay: int, ok: bool)
    requires Honest(c)
    modifies store`rows, j
    ensures Stepped(old(StartOf(store, j)), c, j.Value(), store.rows, done, delay, ok)
    ensures FieldsAfter(old(j.Value()), j.cancelRequested, c, j.Value()) && done == Delivers(old(j.Value()), c)
    ensures Recorded(old(store.rows), store.rows, old(j.Value()), j.Value(), j.leaseToken, store.now, c.save, ok)
  {
    ghost var s := StartOf(store, j);
    StepFields(s, c);
    StepRecords(s, c);
    hide SaveRow, Holds, FieldsAfter, Delivers, Recorded;
    if j.statusMsg == 0 {
      done, delay, ok := StatusStep(store, j, c);
    } else if j.cancelRequested && !j.resultReady && (j.remoteId != "" || !j.submitStarted) {
      done, delay, ok := CancelStep(store, j, c);
    } else if j.remoteId == "" && !j.resultReady {
      done, delay, ok := SubmitStep(store, j, c);
    } else if !j.resultReady {
      done, delay, ok := PollStep(store, j, c);
    } else if !j.acked && j.remoteId != "" {
      done, delay, ok := AckStep(store, j, c);
    } else if c.front.None? || !c.front.value {
      done, delay, ok := false, RETRY, c.front.Some?;
    } else {
      done, delay, ok := FrontStep(store, j, c);
    }
  }

  // -------------------------------------------------------------- worker loop

  predicate TableRow(rows: Rows, id: string)
    requires id in rows
  {
    && rows[id].payload.id == id && Coherent(rows[id].payload)
    && (rows[id].done ==> Closable(rows[id].payload) && rows[id].token == None)
  }

  predicate TableOk(rows: Rows) {
    forall id <- rows :: TableRow(rows, id)
  }

  lemma SetsExtends(p: Payload, cancel: bool, c: Calls)
    requires Coherent(p) && Honest(c) && Sets(p, cancel, c).Some?
    ensures Extends(p, Sets(p, cancel, c).value) && Coherent(Sets(p, cancel, c).value)
    ensures Final(Chosen(p, cancel, c)) ==> Closable(Sets(p, cancel, c).value)
  {
    var a := Chosen(p, cancel, c);
    var r := Answer(a, c);
    if a in {CloseCancelled, MarkSubmit} {
      LocalCheckpointExtends(p, cancel);
    } else if r.Some? && !r.value.Running? {
      CheckpointExtends(p, cancel, a, r.value);
    } else {
      FinalCloses(p, cancel);
    }
  }

  lemma StepExtends(s: Start, c: Calls)
    requires Coherent(s.job) && Honest(c)
    ensures Extends(s.job, JobAfter(s, c)) && Coherent(JobAfter(s, c))
    ensures Final(Chosen(s.job, s.cancel, c)) && Succeeds(s, c) ==> Closable(JobAfter(s, c))
  {
    if Sets(s.job, s.cancel, c).Some? {
      SetsExtends(s.job, s.cancel, c);
    } else if Final(Chosen(s.job, s.cancel, c)) {
      FinalCloses(s.job, s.cancel);
    }
  }

  lemma EvolvesAt(a: Rows, b: Rows, id: string)
    requires TableOk(a) && id in a && id in b && b == a[id := b[id]] && TableRow(b, id)
    requires Extends(a[id].payload, b[id].payload) && !a[id].done
    ensures TableOk(b) && Evolves(a, b)
  {
    forall x <- b ensures TableRow(b, x) { assert x != id ==> TableRow(a, x); }
  }

  /** A row as a pass of the loop claims it. */
  function Claimed(rows: Rows, id: string, token: int, now: int): Start
    requires id in rows
  {
    Start(rows[id].payload, rows[id].cancel, token, rows[id := ClaimRow(rows[id], token, now)], now)
  }

  /** The job is closed, or tried again after a delay. */
  function Released(s: Start, c: Calls): Row
    requires s.job.id in s.rows
  {
    var delay := if !Succeeds(s, c) then 30 else if Sets(s.job, s.cancel, c).Some? || Final(Chosen(s.job, s.cancel, c)) then 0 else 5;
    ReleaseRow(RowsAfter(s, c)[s.job.id], JobAfter(s, c), Final(Chosen(s.job, s.cancel, c)) && Succeeds(s, c), s.now + delay)
  }

  /** The table after a pass over one claimed row. */
  function PassRows(s: Start, c: Calls, db: Commit): Rows
    requires s.job.id in s.rows
  {
    var stepped := RowsAfter(s, c);
    if db != Failed && Holds(stepped[s.job.id], s.token, s.now) then stepped[s.job.id := Released(s, c)] else stepped
  }

  /** A pass claims one claimable row, if there is any. */
  ghost predicate Passes(rows: Rows, token: int, now: int, c: Calls, db: Commit, after: Rows) {
    if forall id <- rows :: !Claimable(rows[id], now) then after == rows
    else exists id :: PassesOver(rows, id, token, now, c, db, after)
  }

  ghost predicate PassesOver(rows: Rows, id: string, token: int, now: int, c: Calls, db: Commit, after: Rows) {
    && id in rows && rows[id].payload.id == id && Claimable(rows[id], now)
    && after == PassRows(Claimed(rows, id, token, now), c, db)
  }

  /** A pass over a claimed row, as far as the table can see. */
  lemma PassEvolves(rows: Rows, id: string, token: int, now: int, c: Calls, db: Commit)
    requires TableOk(rows) && Honest(c) && id in rows && Claimable(rows[id], now)
    ensures var after := PassRows(Claimed(rows, id, token, now), c, db);
            TableOk(after) && Evolves(rows, after)
  {
    var s := Claimed(rows, id, token, now);
    assert TableRow(rows, id);
    StepExtends(s, c);
    hide Sets, Chosen, Succeeds, Extends, Coherent, Closable;
    EvolvesAt(rows, PassRows(s, c, db), id);
  }

  lemma PassReleases(s: Start, c: Calls, job: Payload, stepped: Rows, done: bool, delay: int, ok: bool)
    requires s.job.id in s.rows && Stepped(s, c, job, stepped, done, delay, ok)
    ensures s.job.id in stepped && stepped == RowsAfter(s, c)
    ensures ReleaseRow(stepped[s.job.id], job, done && ok, s.now + if ok then delay else 30) == Released(s, c)
  {
    hide Sets, Chosen, Succeeds;
  }

  lemma TableIds(rows: Rows)
    requires TableOk(rows)
    ensures forall id <- rows :: rows[id].payload.id == id
  {
    forall id <- rows ensures rows[id].payload.id == id { assert TableRow(rows, id); }
  }

  /** One pass of the loop at a time: claim, step, release. */
  method RunVoiceJob(store: Store, time: int, c: Calls, db: Commit)
    requires TableOk(store.rows) && Honest(c)
    modifies store
    ensures TableOk(store.rows) && Evolves(old(store.rows), store.rows)
    ensures Passes(old(store.rows), old(store.nextToken), time, c, db, store.rows)
  {
    hide Sets, Chosen, Succeeds, Extends, Coherent, Closable, SaveRow, ReleaseRow, Stepped, RowsAfter, Released, Evolves, TableOk, Claimable, Holds;
    EvolvesRefl(store.rows);
    TableIds(store.rows);
    store.now := time;
    var j := store.Claim();
    if j != null {
      ghost var start := Claimed(old(store.rows), j.id, old(store.nextToken), time);
      var done, delay, ok := VoiceStep(store, j, c);
      PassReleases(start, c, j.Value(), store.rows, done, delay, ok);
      if !ok {
        delay := 30;
      }
      var _ := store.Release(j, done && ok, delay, db);
      assert PassesOver(old(store.rows), start.job.id, old(store.nextToken), time, c, db, store.rows);
      PassEvolves(old(store.rows), start.job.id, old(store.nextToken), time, c, db);
    }
  }

  /** The loop, one element of `world` per pass: the clock, the replies, and
      whether the release reaches the database. However it goes, no checkpoint
      is ever undone and a job is closed only with its result delivered. */
  method RunVoiceJobs(store: Store, world: seq<(int, Calls, Commit)>)
    requires TableOk(store.rows)
    requires forall k :: 0 <= k < |world| ==> Honest(world[k].1)
    modifies store
    ensures TableOk(store.rows) && Evolves(old(store.rows), store.rows)
  {
    EvolvesRefl(store.rows);
    for k := 0 to |world|
      invariant TableOk(store.rows) && Evolves(old(store.rows), store.rows)
    {
      ghost var before := store.rows;
      RunVoiceJob(store, world[k].0, world[k].1, world[k].2);
      EvolvesTrans(old(store.rows), before, store.rows);
    }
  }

  // ---------------------------------------------------------------- acceptance

  datatype UserState = AppendInput | ReminderInput | SmartInput | OtherState

  datatype UserContext = UserContext(activeDate: string, activeRelpath: string, state: UserState)

  /** An update as Telegram delivers it: its id, and for a voice message its chat,
      number and whether the sender is authorised. */
  datatype Update = Update(id: int, voice: bool, chat: int, msg: int, authorized: bool)

  /** The outside of one acceptance: the user's context, the status message, a
      fresh job id, today's date, and whether the calls succeed. */
  datatype Acceptance = Acceptance(find: bool, context: Option<UserContext>, refusalSent: bool, status: Option<int>,
                                   id: string, today: string, enqueue: bool, enqueueReported: bool)

  /** A voice message that is answered without a job. */
  predicate Refused(u: Update, a: Acceptance) {
    !u.voice || !u.authorized
    || (a.context.Some? && a.context.value.state == AppendInput && a.context.value.activeRelpath == "")
  }

  function Snapshot(u: Update, a: Acceptance): Payload
    requires a.context.Some? && a.status.Some?
  {
    var uc := a.context.value;
    Payload(a.id, u.chat, u.msg, if uc.activeDate == "" then a.today else uc.activeDate,
            if uc.state == AppendInput then uc.activeRelpath else "",
            if uc.state == ReminderInput then Reminder else if uc.state == SmartInput then Smart else Note,
            a.status.value, false, "", false, "", "", false, false, "")
  }

  /** AcceptVoice: success means the message is durable (or needs no job), and a
      redelivery keeps the destination, mode and id of the first acceptance. */
  method AcceptVoice(store: Store, u: Update, a: Acceptance) returns (ok: bool)
    requires a.id !in store.rows
    modifies store`rows
    ensures ok && !Refused(u, a) ==> Known(store.rows, u.chat, u.msg)
    ensures Known(old(store.rows), u.chat, u.msg) ==> store.rows == old(store.rows)
    ensures store.rows == old(store.rows) ||
      (a.context.Some? && a.status.Some? && Fresh(Snapshot(u, a))
       && store.rows == EnqueueRow(old(store.rows), Snapshot(u, a), store.now))
    ensures old(store.rows).Keys <= store.rows.Keys
      && forall id <- old(store.rows) :: store.rows[id] == old(store.rows)[id]
    // a new job is for this message, and goes where the user's state says at this moment
    ensures a.id in store.rows ==> a.context.Some? && var p, uc := store.rows[a.id].payload, a.context.value;
      && p.id == a.id && p.chat == u.chat && p.msg == u.msg && p.date == (if uc.activeDate == "" then a.today else uc.activeDate)
      && (uc.state == AppendInput ==> p.mode == Note && p.relpath == uc.activeRelpath != "")
      && (uc.state != AppendInput ==> p.relpath == "")
      && (p.mode == Reminder <==> uc.state == ReminderInput) && (p.mode == Smart <==> uc.state == SmartInput)
  {
    if !u.voice || !u.authorized {
      return true;
    }
    if !a.find {
      return false;
    }
    var existing := store.Find(u.chat, u.msg);
    if existing.Some? {
      return true;
    }
    if a.context.None? {
      return false;
    }
    var uc := a.context.value;
    var relpath, date, mode := "", uc.activeDate, Note;
    if uc.state == AppendInput {
      if uc.activeRelpath == "" {
        return a.refusalSent;
      }
      relpath := uc.activeRelpath;
    }
    if date == "" {
      date := a.today;
    }
    if uc.state == ReminderInput {
      mode := Reminder;
    }
    if uc.state == SmartInput {
      mode := Smart;
    }
    if a.status.None? {
      return false;
    }
    var p := Payload(a.id, u.chat, u.msg, date, relpath, mode, a.status.value, false, "", false, "", "", false, false, "");
    if !a.enqueue {
      return false;
    }
    store.Enqueue(p);
    assert store.rows[a.id].payload == p;
    return a.enqueueReported;
  }

  // ------------------------------------------------------------------- polling

  /** Updates arrive in increasing order of id, from the offset on. */
  predicate Batch(updates: seq<Update>, offset: int) {
    forall i :: 0 <= i < |updates| ==> offset <= updates[i].id && (i > 0 ==> updates[i - 1].id < updates[i].id)
  }

  predicate Settled(rows: Rows, u: Update, a: Acceptance) {
    Refused(u, a) || Known(rows, u.chat, u.msg)
  }

  lemma {:induction false} BatchIncreasing(updates: seq<Update>, offset: int, i: nat, j: nat)
    requires Batch(updates, offset) && i < j < |updates|
    ensures updates[i].id < updates[j].id
  {
    if i + 1 < j {
      BatchIncreasing(updates, offset, i, j - 1);
    }
  }

  /** One answer to getUpdates: the offset passes an update only once it is settled,
      so Telegram delivers every other one again. */
  method ProcessBatch(store: Store, updates: seq<Update>, world: seq<Acceptance>, offset: int) returns (next: int)
    requires Batch(updates, offset) && |world| == |updates|
    requires forall i, j :: 0 <= i < j < |world| ==> world[i].id != world[j].id
    requires forall i :: 0 <= i < |world| ==> world[i].id !in store.rows
    modifies store`rows
    ensures offset <= next
    ensures forall i :: 0 <= i < |updates| && updates[i].id < next && updates[i].voice ==> Settled(store.rows, updates[i], world[i])
    // nothing settled before is lost
    ensures old(store.rows).Keys <= store.rows.Keys && forall id <- old(store.rows) :: store.rows[id] == old(store.rows)[id]
    // and the whole batch is passed unless an acceptance failed
    ensures |updates| > 0 && next <= updates[|updates| - 1].id ==>
      exists i :: 0 <= i < |updates| && updates[i].voice && next <= updates[i].id && (i > 0 ==> next == updates[i - 1].id + 1)
  {
    next := offset;
    for i := 0 to |updates|
      invariant offset <= next && (i > 0 ==> next == updates[i - 1].id + 1) && (i == 0 ==> next == offset)
      invariant forall k :: 0 <= k < i && updates[k].voice ==> Settled(store.rows, updates[k], world[k])
      invariant forall k :: i <= k < |world| ==> world[k].id !in store.rows
      invariant old(store.rows).Keys <= store.rows.Keys && forall id <- old(store.rows) :: store.rows[id] == old(store.rows)[id]
    {
      if updates[i].voice {
        ghost var before := store.rows;
        var ok := AcceptVoice(store, updates[i], world[i]);
        KnownStays(before, store.rows);
        if !ok {
          forall k | 0 <= k < |updates| && updates[k].id < next && updates[k].voice ensures k < i {
            if k >= i && i > 0 { BatchIncreasing(updates, offset, i - 1, k); }
          }
          break;
        }
      }
      next := updates[i].id + 1;
    }
    if |updates| > 0 {
      forall k | 0 <= k < |updates| - 1 ensures updates[k].id < updates[|updates| - 1].id {
        BatchIncreasing(updates, offset, k, |updates| - 1);
      }
    }
  }

  lemma KnownStays(a: Rows, b: Rows)
    requires a.Keys <= b.Keys && forall id <- a :: b[id] == a[id]
    ensures forall chat, msg :: Known(a, chat, msg) ==> Known(b, chat, msg)
  {
  }
}
