/** Voice jobs get done: a job whose calls succeed is closed after a bounded number of
    passes, no chat is ever blocked with nobody at its front, and a lease that its
    worker lost ends by itself. */
module VoiceProgress {
  import opened Options
  import opened VoiceJob
  import opened VoiceProtocol
  import opened VoiceWorker

  // -------------------------------------------------------------------- leases

  /** For 240 seconds after a claim nobody else can claim the row and its worker can
      write it; after them another can claim it and the worker cannot write it. */
  lemma LeaseLasts(row: Row, token: int, now: int, later: int)
    ensures var claimed := ClaimRow(row, token, now);
      && (Claimable(claimed, later) <==> !row.done && row.nextAt <= later && now + 240 < later)
      && (Holds(claimed, token, later) <==> later < now + 240)
      && forall other :: other != token ==> !Holds(claimed, other, later)
  {
  }

  /** An accepted job is due at once. */
  lemma AcceptedIsDue(rows: Rows, p: Payload, now: int)
    requires forall id <- rows :: !SameMessage(rows[id].payload, p)
    ensures var after := EnqueueRow(rows, p, now);
      p.id in after && after[p.id].payload == p && Claimable(after[p.id], now) && !after[p.id].cancel
  {
  }

  // ---------------------------------------------------------------- the front

  predicate Open(rows: Rows, chat: int, id: string) {
    id in rows && rows[id].payload.chat == chat && !rows[id].done
  }

  /** While a chat has an open job, one of its open jobs is at the front. */
  lemma SomeoneIsFront(rows: Rows, chat: int, id: string) returns (first: string)
    requires Open(rows, chat, id)
    ensures Open(rows, chat, first) && IsFront(rows, chat, rows[first].payload.msg)
  {
    var open := set x <- rows | Open(rows, chat, x);
    first := Least(rows, open, id);
    forall x <- rows | rows[x].payload.chat == chat && rows[x].payload.msg < rows[first].payload.msg ensures rows[x].done {
      assert Open(rows, chat, x) ==> x in open;
    }
  }

  lemma {:induction false} Least(rows: Rows, open: set<string>, id: string) returns (first: string)
    requires open <= rows.Keys && id in open
    ensures first in open && forall x <- open :: rows[first].payload.msg <= rows[x].payload.msg
    decreases open
  {
    if y :| y in open && rows[y].payload.msg < rows[id].payload.msg {
      first := Least(rows, open - {id}, y);
    } else {
      first := id;
    }
  }

  // ------------------------------------------------------------------ progress

  /** Every call succeeds and its answer carries something. */
  predicate Good(c: Calls) {
    && c.send.Some? && c.send.value != 0 && c.cancel && c.download && c.submit.Some? && c.submit.value != ""
    && c.status.Some? && (c.status.value.Transcribed? || c.status.value.InferenceFailed?)
    && c.ack in {AckOk, AckNotFound} && c.front == Some(true) && c.append == NoteSaved && c.prepare.Some? && c.prepare.value != ""
    && (c.edit == Edited || (c.edit == Missing && c.editAgain)) && c.save == Reported
  }

  lemma GoodAnswer(p: Payload, cancel: bool, c: Calls)
    requires Good(c)
    ensures var a := Chosen(p, cancel, c);
      && Takes(p, cancel, a) && a != CheckFront
      && (!Final(a) && a !in {CloseCancelled, MarkSubmit} ==>
            Answer(a, c).Some? && Answers(a, Answer(a, c).value) && Substantial(Answer(a, c).value))
  {
  }

  lemma LocalProgress(p: Payload, cancel: bool)
    requires Coherent(p) && NextAction(p, cancel) in {CloseCancelled, MarkSubmit}
    ensures var q := LocalCheckpoint(p, NextAction(p, cancel)); Coherent(q) && q.id == p.id && Unset(q) < Unset(p)
  {
  }

  /** A good step sets a checkpoint that was missing, or delivers. */
  lemma GoodSets(p: Payload, cancel: bool, c: Calls)
    requires Good(c) && Coherent(p) && !Final(Chosen(p, cancel, c))
    ensures Sets(p, cancel, c).Some?
    ensures var q := Sets(p, cancel, c).value; Coherent(q) && q.id == p.id && Unset(q) < Unset(p)
  {
    GoodAnswer(p, cancel, c);
    var a := Chosen(p, cancel, c);
    if a in {CloseCancelled, MarkSubmit} {
      LocalProgress(p, cancel);
    } else {
      var r := Answer(a, c).value;
      ReplyProgress(p, cancel, a, r);
      CheckpointExtends(p, cancel, a, r);
      hide Chosen, NextAction, FrontAction, Coherent, Unset, Takes;
    }
  }

  /** A pass with good calls closes the job with its result delivered, or leaves it with
      one checkpoint more, due at once. */
  lemma GoodPass(rows: Rows, id: string, token: int, now: int, c: Calls)
    requires id in rows && rows[id].payload.id == id && Coherent(rows[id].payload) && Claimable(rows[id], now) && Good(c)
    ensures var after := PassRows(Claimed(rows, id, token, now), c, Reported);
      && id in after && after[id].payload.id == id && Coherent(after[id].payload)
      && if after[id].done then Closable(after[id].payload)
         else Claimable(after[id], now) && Unset(after[id].payload) < Unset(rows[id].payload)
  {
    var s := Claimed(rows, id, token, now);
    StepExtends(s, c);
    if Final(Chosen(s.job, s.cancel, c)) {
    } else {
      GoodSets(s.job, s.cancel, c);
    }
    hide Chosen, Sets, Coherent, Closable, Unset, Extends;
  }

  datatype Pass = Pass(token: int, now: int, calls: Calls)

  /** An open job, and the table a pass over it leaves. */
  ghost predicate PassTo(before: Rows, id: string, pass: Pass, after: Rows) {
    && id in before && before[id].payload.id == id && !before[id].done && Good(pass.calls)
    && after == PassRows(Claimed(before, id, pass.token, pass.now), pass.calls, Reported)
  }

  /** From wherever it stands, an open job that is due is closed, its result delivered where
      it belongs, by the eighth good pass at the latest. */
  lemma {:induction false} ClosedByTheEighth(tables: seq<Rows>, id: string, passes: seq<Pass>)
    requires |tables| == |passes| + 1 && |passes| > 0
    requires forall k :: 0 <= k < |passes| ==> PassTo(tables[k], id, passes[k], tables[k + 1])
    requires forall k :: 0 < k < |passes| ==> passes[k - 1].now <= passes[k].now
    requires id in tables[0] && Coherent(tables[0][id].payload) && Claimable(tables[0][id], passes[0].now)
    ensures var last := tables[|passes|];
      && id in last
      && (last[id].done ==> Closable(last[id].payload))
      && (!last[id].done ==> |passes| + Unset(last[id].payload) <= Unset(tables[0][id].payload))
    ensures |passes| <= Unset(tables[0][id].payload) + 1 <= 8 && (|passes| == 8 ==> tables[8][id].done)
  {
    var p := passes[0];
    assert PassTo(tables[0], id, p, tables[0 + 1]);
    GoodPass(tables[0], id, p.token, p.now, p.calls);
    UnsetBound(tables[0][id].payload);
    hide Unset, Coherent, Closable, Good, PassRows, Claimed;
    if |passes| > 1 {
      var tables', passes' := tables[1..], passes[1..];
      forall k | 0 <= k < |passes'| ensures PassTo(tables'[k], id, passes'[k], tables'[k + 1]) {
        assert PassTo(tables[k + 1], id, passes[k + 1], tables[k + 1 + 1]);
      }
      forall k | 0 < k < |passes'| ensures passes'[k - 1].now <= passes'[k].now {
        assert passes[k + 1 - 1].now <= passes[k + 1].now;
      }
      assert passes[1 - 1].now <= passes[1].now && !tables'[0][id].done by { assert PassTo(tables'[0], id, passes'[0], tables'[0 + 1]); }
      ClosedByTheEighth(tables', id, passes');
    }
  }

  lemma UnsetBound(p: Payload)
    ensures Unset(p) <= 7
  {
  }
}
