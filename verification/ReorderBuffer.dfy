/** The buffer that releases voice results in the order of their messages
    (frontends/telegram/tghandlers/voice.go). */
module ReorderBuffer {

  datatype Result = Result(done: bool, text: string, failed: bool)

  predicate Sorted(ids: seq<int>) {
    forall i, j :: 0 <= i < j < |ids| ==> ids[i] < ids[j]
  }

  predicate Ordered(ids: seq<int>) {
    forall i, j :: 0 <= i < j < |ids| ==> ids[i] <= ids[j]
  }

  /** The buffer as a value. */
  datatype Buffer = Buffer(ids: seq<int>, results: map<int, Result>) {
    /** Ids are sorted and are those of the results. */
    predicate Matched() {
      && Sorted(ids)
      && (forall id <- ids :: id in results)
      && (forall id <- results :: id in ids)
    }

    /** The first id has a result that is done. */
    predicate FrontDone() {
      ids != [] && ids[0] in results && results[ids[0]].done
    }
  }

  /** The number of ids below `id`: where it goes. */
  function Place(ids: seq<int>, id: int): (n: nat)
    ensures n <= |ids|
  {
    if ids == [] || ids[0] >= id then 0 else 1 + Place(ids[1..], id)
  }

  function Registered(b: Buffer, id: int, r: Result): Buffer {
    var n := Place(b.ids, id);
    Buffer(b.ids[..n] + [id] + b.ids[n..], b.results[id := r])
  }

  function Marked(b: Buffer, id: int, text: string, failed: bool): Buffer {
    if id in b.results then b.(results := b.results[id := Result(true, text, failed)]) else b
  }

  function Popped(b: Buffer): Buffer
    requires b.ids != []
  {
    Buffer(b.ids[1..], b.results - {b.ids[0]})
  }

  /** How many results at the front are done. */
  function Ready(b: Buffer): (n: nat)
    ensures n <= |b.ids|
    decreases |b.ids|
  {
    if b.FrontDone() then 1 + Ready(Popped(b)) else 0
  }

  function Drained(b: Buffer): (d: Buffer)
    ensures !d.FrontDone() && d.ids == b.ids[Ready(b)..]
    decreases |b.ids|
  {
    if b.FrontDone() then Drained(Popped(b)) else b
  }

  lemma {:induction false} PlaceSplits(ids: seq<int>, id: int)
    requires Ordered(ids)
    ensures forall i :: 0 <= i < Place(ids, id) ==> ids[i] < id
    ensures forall i :: Place(ids, id) <= i < |ids| ==> ids[i] >= id
  {
    if ids != [] && ids[0] < id {
      PlaceSplits(ids[1..], id);
      assert forall i :: 1 <= i < |ids| ==> ids[i] == ids[1..][i - 1];
    }
  }

  /** Insertion keeps the order; with a new id, it keeps the ids distinct. */
  lemma InsertKeepsOrder(ids: seq<int>, id: int)
    requires Ordered(ids)
    ensures var n := Place(ids, id); Ordered(ids[..n] + [id] + ids[n..])
    ensures var n := Place(ids, id); Sorted(ids) && id !in ids ==> Sorted(ids[..n] + [id] + ids[n..])
  {
    PlaceSplits(ids, id);
    var n := Place(ids, id);
    var more := ids[..n] + [id] + ids[n..];
    forall i, j | 0 <= i < j < |more|
      ensures more[i] <= more[j] && (Sorted(ids) && id !in ids ==> more[i] < more[j])
    {
      assert more[i] == if i < n then ids[i] else if i == n then id else ids[i - 1];
      assert more[j] == if j < n then ids[j] else if j == n then id else ids[j - 1];
    }
  }

  lemma RegisterMatched(b: Buffer, id: int, r: Result)
    requires b.Matched() && id !in b.results
    ensures Registered(b, id, r).Matched()
    ensures forall x :: x in Registered(b, id, r).ids <==> x in b.ids || x == id
  {
    InsertKeepsOrder(b.ids, id);
    assert b.ids == b.ids[..Place(b.ids, id)] + b.ids[Place(b.ids, id)..];
  }

  lemma PopMatched(b: Buffer)
    requires b.Matched() && b.ids != []
    ensures Popped(b).Matched()
    ensures forall id <- Popped(b).ids :: id in b.ids && Popped(b).results[id] == b.results[id]
  {
    assert b.ids == [b.ids[0]] + b.ids[1..];
    assert forall i :: 1 <= i < |b.ids| ==> b.ids[i] == b.ids[1..][i - 1];
  }

  /** Draining a matched buffer drops exactly the done results before the first
      pending one. */
  lemma {:induction false} DrainMatched(b: Buffer)
    requires b.Matched()
    ensures Drained(b).Matched()
    ensures forall i :: 0 <= i < Ready(b) ==> b.results[b.ids[i]].done
    ensures Ready(b) < |b.ids| ==> !b.results[b.ids[Ready(b)]].done
    ensures forall id <- Drained(b).ids :: id in b.ids && Drained(b).results[id] == b.results[id]
    decreases |b.ids|
  {
    if b.FrontDone() {
      var p := Popped(b);
      PopMatched(b);
      DrainMatched(p);
      assert Drained(b) == Drained(p) && Ready(b) == 1 + Ready(p) && p.ids == b.ids[1..];
      forall i | 0 <= i < Ready(b) ensures b.results[b.ids[i]].done {
        if i > 0 { assert b.ids[i] == p.ids[i - 1] && p.ids[i - 1] in p.ids; }
      }
      if Ready(b) < |b.ids| {
        assert b.ids[Ready(b)] == p.ids[Ready(p)] && p.ids[Ready(p)] in p.ids;
      }
    }
  }

  // --------------------------------------------------------------- whole runs

  datatype Event = Register(id: int) | Complete(id: int, text: string, failed: bool)

  /** The buffer after a history, and what has been released, in order. */
  datatype Outcome = Outcome(buffer: Buffer, released: seq<int>)

  function Handled(o: Outcome, e: Event): Outcome {
    match e
    case Register(id) => o.(buffer := Registered(o.buffer, id, Result(false, "", false)))
    case Complete(id, text, failed) =>
      var b := Marked(o.buffer, id, text, failed);
      Outcome(Drained(b), o.released + b.ids[..Ready(b)])
  }

  function Run(h: seq<Event>): Outcome {
    if h == [] then Outcome(Buffer([], map[]), []) else Handled(Run(h[..|h| - 1]), h[|h| - 1])
  }

  /** The ids of all registrations, in order. */
  function Registrations(h: seq<Event>): seq<int> {
    if h == [] then []
    else if h[|h| - 1].Register? then Registrations(h[..|h| - 1]) + [h[|h| - 1].id]
    else Registrations(h[..|h| - 1])
  }

  /** How many registrations found their id held already, as a caller can see. */
  function Repeats(h: seq<Event>): nat {
    if h == [] then 0
    else
      var front, e := h[..|h| - 1], h[|h| - 1];
      Repeats(front) + (if e.Register? && e.id in Run(front).buffer.results then 1 else 0)
  }

  predicate CompletedAt(h: seq<Event>, id: int, j: int) {
    0 <= j < |h| && h[j].Complete? && h[j].id == id
  }

  predicate RegisteredAfter(h: seq<Event>, id: int, j: int) {
    exists k :: j < k < |h| && 0 <= k && h[k] == Register(id)
  }

  /** Completed since it was last registered, if ever it was. */
  ghost predicate Done(h: seq<Event>, id: int) {
    exists j :: CompletedAt(h, id, j) && !RegisteredAfter(h, id, j)
  }

  /** Every registration is completed afterwards. */
  ghost predicate AllCompleted(h: seq<Event>) {
    forall id <- Registrations(h) :: Done(h, id)
  }

  lemma OneMore(h: seq<Event>, e: Event, id: int)
    ensures Done(h + [e], id) <==> if e == Register(id) then false else Done(h, id) || (e.Complete? && e.id == id)
  {
    var g := h + [e];
    assert g[|h|] == e && forall i :: 0 <= i < |h| ==> g[i] == h[i];
    if e == Register(id) {
      forall j | CompletedAt(g, id, j) ensures RegisteredAfter(g, id, j) {}
    } else {
      forall j | 0 <= j < |h| ensures RegisteredAfter(g, id, j) <==> RegisteredAfter(h, id, j) {}
      forall j | 0 <= j < |h| ensures CompletedAt(g, id, j) <==> CompletedAt(h, id, j) {}
      if e.Complete? && e.id == id { assert CompletedAt(g, id, |h|); }
      if j :| CompletedAt(h, id, j) && !RegisteredAfter(h, id, j) { assert CompletedAt(g, id, j); }
    }
  }

  lemma LastEvent(h: seq<Event>)
    requires h != []
    ensures h == h[..|h| - 1] + [h[|h| - 1]]
  {
  }

  // ------------------------------------------------------------- conservation

  lemma RegisterAdds(b: Buffer, id: int, r: Result)
    ensures multiset(Registered(b, id, r).ids) == multiset(b.ids) + multiset{id}
    ensures |Registered(b, id, r).results| == |b.results| + if id in b.results then 0 else 1
  {
    var n := Place(b.ids, id);
    assert b.ids == b.ids[..n] + b.ids[n..];
    if id in b.results {
      assert b.results[id := r].Keys == b.results.Keys;
    } else {
      assert b.results[id := r].Keys == b.results.Keys + {id};
    }
    KeysCount(b.results);
    KeysCount(b.results[id := r]);
  }

  lemma KeysCount(m: map<int, Result>)
    ensures |m| == |m.Keys|
  {
  }

  lemma {:induction false} DrainMoves(b: Buffer)
    ensures multiset(b.ids) == multiset(b.ids[..Ready(b)]) + multiset(Drained(b).ids)
    ensures |b.ids| - |Drained(b).ids| == |b.results| - |Drained(b).results|
    decreases |b.ids|
  {
    assert b.ids == b.ids[..Ready(b)] + b.ids[Ready(b)..];
    if b.FrontDone() {
      var p := Popped(b);
      DrainMoves(p);
      assert b.results.Keys == p.results.Keys + {b.ids[0]};
      KeysCount(b.results);
      KeysCount(p.results);
    }
  }

  lemma MarkKeeps(b: Buffer, id: int, text: string, failed: bool)
    ensures Marked(b, id, text, failed).ids == b.ids && Marked(b, id, text, failed).results.Keys == b.results.Keys
    ensures |Marked(b, id, text, failed).results| == |b.results|
  {
    KeysCount(b.results);
    KeysCount(Marked(b, id, text, failed).results);
  }

  /** What one event changes: entries move from held to released, or are added. */
  lemma OneEvent(o: Outcome, e: Event)
    ensures var p := Handled(o, e);
      && multiset(p.released) + multiset(p.buffer.ids)
         == multiset(o.released) + multiset(o.buffer.ids) + (if e.Register? then multiset{e.id} else multiset{})
      && |p.buffer.ids| - |p.buffer.results|
         == |o.buffer.ids| - |o.buffer.results| + (if e.Register? && e.id in o.buffer.results then 1 else 0)
  {
    match e
    case Register(id) => RegisterAdds(o.buffer, id, Result(false, "", false));
    case Complete(id, text, failed) =>
      var b := Marked(o.buffer, id, text, failed);
      MarkKeeps(o.buffer, id, text, failed);
      DrainMoves(b);
      hide Drained, Ready, Marked;
  }

  /** In every history, every registration is released or held, as often as it was
      made; and the entries held in excess of the results are the repeated ones. */
  lemma {:induction false} Conserved(h: seq<Event>)
    ensures multiset(Run(h).released) + multiset(Run(h).buffer.ids) == multiset(Registrations(h))
    ensures |Run(h).buffer.ids| == |Run(h).buffer.results| + Repeats(h)
  {
    if h != [] {
      Conserved(h[..|h| - 1]);
      OneEvent(Run(h[..|h| - 1]), h[|h| - 1]);
      hide Handled;
    }
  }

  // ------------------------------------------------------------- without repeats

  /** Ids sorted and those of the results, the first one pending, and a result
      done exactly when its id was completed since its registration. */
  ghost predicate RunOk(h: seq<Event>, o: Outcome) {
    && o.buffer.Matched() && !o.buffer.FrontDone()
    && (forall id <- o.buffer.ids :: o.buffer.results[id].done <==> Done(h, id))
  }

  /** Completed after it was registered. */
  ghost predicate WasCompleted(h: seq<Event>, id: int) {
    exists i, j :: 0 <= i < j && CompletedAt(h, id, j) && h[i] == Register(id)
  }

  lemma {:induction false} RegistrationAt(h: seq<Event>, id: int) returns (i: nat)
    requires id in Registrations(h)
    ensures i < |h| && h[i] == Register(id)
  {
    if h[|h| - 1] == Register(id) {
      i := |h| - 1;
    } else {
      i := RegistrationAt(h[..|h| - 1], id);
    }
  }

  lemma NoneAfter(h: seq<Event>, id: int, j: int, i: nat)
    requires !RegisteredAfter(h, id, j) && i < |h| && h[i] == Register(id)
    ensures i <= j
  {
  }

  lemma DoneWasCompleted(h: seq<Event>, id: int)
    requires id in Registrations(h) && Done(h, id)
    ensures WasCompleted(h, id)
  {
    var j :| CompletedAt(h, id, j) && !RegisteredAfter(h, id, j);
    var i := RegistrationAt(h, id);
    NoneAfter(h, id, j, i);
  }

  lemma StillCompleted(h: seq<Event>, e: Event, id: int)
    requires WasCompleted(h, id)
    ensures WasCompleted(h + [e], id)
  {
    var i, j :| 0 <= i < j && CompletedAt(h, id, j) && h[i] == Register(id);
    assert (h + [e])[i] == h[i] && (h + [e])[j] == h[j];
    assert CompletedAt(h + [e], id, j);
  }

  lemma RegisterOk(h: seq<Event>, o: Outcome, id: int)
    requires RunOk(h, o) && id !in o.buffer.results
    ensures RunOk(h + [Register(id)], Handled(o, Register(id)))
  {
    var e, r := Register(id), Result(false, "", false);
    var b := Registered(o.buffer, id, r);
    RegisterMatched(o.buffer, id, r);
    forall x <- b.ids ensures b.results[x].done <==> Done(h + [e], x) { OneMore(h, e, x); }
    RegisterFront(o.buffer, id, r);
    hide Done, Buffer.Matched, Registered;
  }

  lemma RegisterFront(b: Buffer, id: int, r: Result)
    requires b.Matched() && !b.FrontDone() && id !in b.results && !r.done
    ensures !Registered(b, id, r).FrontDone()
  {
    var n := Place(b.ids, id);
    assert (b.ids[..n] + [id] + b.ids[n..])[0] == if n == 0 then id else b.ids[0];
  }

  lemma MarkedMatched(b: Buffer, id: int, text: string, failed: bool)
    requires b.Matched()
    ensures Marked(b, id, text, failed).Matched()
    ensures forall x <- b.ids :: Marked(b, id, text, failed).results[x].done <==> b.results[x].done || x == id
  {
  }

  lemma CompleteOk(h: seq<Event>, o: Outcome, e: Event)
    requires RunOk(h, o) && e.Complete?
    ensures RunOk(h + [e], Handled(o, e))
  {
    var b := Marked(o.buffer, e.id, e.text, e.failed);
    MarkedMatched(o.buffer, e.id, e.text, e.failed);
    forall x <- b.ids ensures b.results[x].done <==> Done(h + [e], x) { OneMore(h, e, x); }
    DrainMatched(b);
    hide Done, Buffer.Matched, Marked, Ready;
  }

  lemma {:induction false} RunsOk(h: seq<Event>)
    requires Repeats(h) == 0
    ensures RunOk(h, Run(h))
  {
    if h != [] {
      var front, e := h[..|h| - 1], h[|h| - 1];
      RunsOk(front);
      LastEvent(h);
      hide RunOk;
      if e.Register? { RegisterOk(front, Run(front), e.id); } else { CompleteOk(front, Run(front), e); }
    } else {
      assert RunOk(h, Run(h));
    }
  }

  lemma RegistrationHeld(h: seq<Event>, id: int)
    requires id in Run(h).buffer.ids
    ensures id in Registrations(h)
  {
    Conserved(h);
    assert id in multiset(Run(h).buffer.ids);
    assert id in multiset(Registrations(h));
  }

  /** What one more event releases was done, so completed. */
  lemma ReleasesDone(h: seq<Event>, e: Event, id: int)
    requires Repeats(h + [e]) == 0 && id in Run(h + [e]).released
    ensures id in Run(h).released || WasCompleted(h + [e], id)
  {
    assert (h + [e])[..|h|] == h;
    if e.Complete? && id !in Run(h).released {
      var o := Run(h);
      var b := Marked(o.buffer, e.id, e.text, e.failed);
      RunsOk(h);
      MarkedMatched(o.buffer, e.id, e.text, e.failed);
      DrainMatched(b);
      var i :| 0 <= i < Ready(b) && b.ids[i] == id;
      OneMore(h, e, id);
      RegistrationHeld(h, id);
      DoneWasCompleted(h + [e], id);
    }
  }

  lemma {:induction false} ReleasedWereCompleted(h: seq<Event>)
    requires Repeats(h) == 0
    ensures forall id <- Run(h).released :: WasCompleted(h, id)
  {
    if h != [] {
      var front, e := h[..|h| - 1], h[|h| - 1];
      ReleasedWereCompleted(front);
      LastEvent(h);
      forall id <- Run(h).released ensures WasCompleted(h, id) {
        ReleasesDone(front, e, id);
        if id in Run(front).released { StillCompleted(front, e, id); }
      }
    }
  }

  /** In every history in which no registration finds its id held: ids are sorted
      and those of the results, the first one is pending, every registration is
      released or held, once, and only completed ids are released. */
  lemma EveryRun(h: seq<Event>)
    requires Repeats(h) == 0
    ensures RunOk(h, Run(h))
    ensures multiset(Run(h).released) + multiset(Run(h).buffer.ids) == multiset(Registrations(h))
    ensures forall id <- Run(h).released :: WasCompleted(h, id)
  {
    RunsOk(h);
    Conserved(h);
    ReleasedWereCompleted(h);
  }

  predicate Distinct(ids: seq<int>) {
    forall i, j :: 0 <= i < j < |ids| ==> ids[i] != ids[j]
  }

  /** With fresh ids no registration finds its id held. */
  lemma {:induction false} FreshIdsDoNotRepeat(h: seq<Event>)
    requires Distinct(Registrations(h))
    ensures Repeats(h) == 0
  {
    if h != [] {
      var front, e := h[..|h| - 1], h[|h| - 1];
      var ids := Registrations(front);
      assert forall i :: 0 <= i < |ids| ==> Registrations(h)[i] == ids[i];
      FreshIdsDoNotRepeat(front);
      if e.Register? {
        RunsOk(front);
        LastIsNew(ids, e.id);
        HeldWasRegistered(front, e.id);
      }
    }
  }

  lemma LastIsNew(ids: seq<int>, id: int)
    requires Distinct(ids + [id])
    ensures id !in ids
  {
    assert (ids + [id])[|ids|] == id && forall i :: 0 <= i < |ids| ==> (ids + [id])[i] == ids[i];
  }

  lemma HeldWasRegistered(h: seq<Event>, id: int)
    ensures id in Run(h).buffer.ids ==> id in Registrations(h)
  {
    if id in Run(h).buffer.ids { RegistrationHeld(h, id); }
  }

  lemma {:induction false} DistinctCounts(ids: seq<int>, x: int)
    requires Distinct(ids)
    ensures multiset(ids)[x] <= 1
  {
    if ids != [] {
      var front, last := ids[..|ids| - 1], ids[|ids| - 1];
      assert ids == front + [last];
      DistinctCounts(front, x);
      LastIsNew(front, last);
      assert multiset(front)[last] == 0;
    }
  }

  /** And each id is released at most once, and not while it is held. */
  lemma ReleasedOnce(h: seq<Event>, x: int)
    requires Distinct(Registrations(h))
    ensures multiset(Run(h).released)[x] + multiset(Run(h).buffer.ids)[x] == if x in Registrations(h) then 1 else 0
  {
    Conserved(h);
    DistinctCounts(Registrations(h), x);
    assert x in multiset(Registrations(h)) <==> x in Registrations(h);
  }

  /** Once every registration is completed, the buffer is empty exactly when no
      registration found its id held. */
  lemma DrainsExactly(h: seq<Event>)
    requires AllCompleted(h)
    ensures Run(h).buffer.ids == [] <==> Repeats(h) == 0
  {
    Conserved(h);
    var b := Run(h).buffer;
    if Repeats(h) == 0 {
      RunsOk(h);
      forall i | 0 <= i < |b.ids| ensures b.ids[i] in b.results && b.results[b.ids[i]].done {
        assert b.ids[i] in b.ids;
        RegistrationHeld(h, b.ids[i]);
      }
      AllDoneEmpty(b);
    }
  }

  lemma AllDoneEmpty(b: Buffer)
    requires !b.FrontDone() && forall i :: 0 <= i < |b.ids| ==> b.ids[i] in b.results && b.results[b.ids[i]].done
    ensures b.ids == []
  {
  }

  lemma {:induction false} RepeatsStay(h: seq<Event>, more: seq<Event>)
    ensures Repeats(h + more) >= Repeats(h)
  {
    if more == [] {
      assert h + more == h;
    } else {
      assert (h + more)[..|h + more| - 1] == h + more[..|more| - 1];
      RepeatsStay(h, more[..|more| - 1]);
    }
  }

  /** After one such registration the buffer is never empty again. */
  lemma NeverEmptyAgain(h: seq<Event>, more: seq<Event>)
    requires Repeats(h) > 0
    ensures Run(h + more).buffer.ids != []
  {
    RepeatsStay(h, more);
    Conserved(h + more);
  }

  /** A release never overtakes a smaller id that is held and stays held. */
  lemma NoOvertaking(h: seq<Event>, e: Event, x: int, y: int)
    requires Repeats(h) == 0 && x < y
    requires x in Run(h).buffer.ids && x in Run(h + [e]).buffer.ids
    ensures multiset(Run(h + [e]).released)[y] == multiset(Run(h).released)[y]
  {
    assert (h + [e])[..|h|] == h;
    if e.Complete? {
      var o := Run(h);
      var b := Marked(o.buffer, e.id, e.text, e.failed);
      var n := Ready(b);
      RunsOk(h);
      MarkedMatched(o.buffer, e.id, e.text, e.failed);
      FrontAndBack(b.ids, n);
      if y in b.ids[..n] { SmallerFirst(b.ids, n, x, y); }
      assert y !in multiset(b.ids[..n]);
    }
  }

  lemma FrontAndBack(ids: seq<int>, n: nat)
    requires Sorted(ids) && n <= |ids|
    ensures forall x :: x in ids[..n] ==> x !in ids[n..] && x in ids
    ensures forall x :: x in ids <==> x in ids[..n] || x in ids[n..]
  {
    assert ids == ids[..n] + ids[n..];
  }

  lemma SmallerFirst(ids: seq<int>, n: nat, x: int, y: int)
    requires Sorted(ids) && n <= |ids| && x in ids && y in ids[..n] && x < y
    ensures x in ids[..n]
  {
    var i :| 0 <= i < |ids| && ids[i] == x;
    var j :| 0 <= j < n && ids[..n][j] == y;
    assert ids[..n][i] == x;
  }

  // ------------------------------------------------------------ increasing ids

  predicate Increasing(h: seq<Event>) {
    Sorted(Registrations(h))
  }

  /** Everything released is below everything held. */
  predicate Below(released: seq<int>, ids: seq<int>) {
    forall x, y :: x in released && y in ids ==> x < y
  }

  /** What was released or is held was registered before. */
  lemma BeforeLast(h: seq<Event>, id: int)
    requires Increasing(h) && h != [] && h[|h| - 1] == Register(id)
    ensures Below(Run(h[..|h| - 1]).released, [id]) && Below(Run(h[..|h| - 1]).buffer.ids, [id])
  {
    var front := h[..|h| - 1];
    var o, ids := Run(front), Registrations(front);
    Conserved(front);
    forall x | x in o.released || x in o.buffer.ids ensures x < id {
      assert x in multiset(o.released) + multiset(o.buffer.ids);
      assert x in multiset(ids);
      var i :| 0 <= i < |ids| && ids[i] == x;
      assert Registrations(h)[i] == x && Registrations(h)[|ids|] == id;
    }
  }

  lemma ReleaseKeepsOrder(released: seq<int>, ids: seq<int>, n: nat)
    requires Sorted(released) && Below(released, ids) && Sorted(ids) && n <= |ids|
    ensures Sorted(released + ids[..n]) && Below(released + ids[..n], ids[n..])
  {
    var more, held := released + ids[..n], ids[n..];
    forall i, j | 0 <= i < j < |more| ensures more[i] < more[j] {
      assert more[i] == if i < |released| then released[i] else ids[i - |released|];
      assert more[j] == if j < |released| then released[j] else ids[j - |released|];
      if i < |released| <= j {
        assert released[i] in released && ids[j - |released|] in ids;
      }
    }
    forall x, y | x in more && y in held ensures x < y {
      var j :| 0 <= j < |held| && held[j] == y;
      assert y == ids[n + j] && y in ids;
      if x !in released {
        var i :| 0 <= i < n && ids[..n][i] == x;
      }
    }
  }

  lemma CompletedBelow(o: Outcome, e: Event)
    requires o.buffer.Matched() && e.Complete? && Sorted(o.released) && Below(o.released, o.buffer.ids)
    ensures var p := Handled(o, e); Sorted(p.released) && Below(p.released, p.buffer.ids)
  {
    var b := Marked(o.buffer, e.id, e.text, e.failed);
    ReleaseKeepsOrder(o.released, b.ids, Ready(b));
  }

  lemma RegisteredBelow(o: Outcome, id: int)
    requires o.buffer.Matched() && id !in o.buffer.results && Below(o.released, o.buffer.ids)
    requires Below(o.released, [id])
    ensures Below(o.released, Handled(o, Register(id)).buffer.ids)
  {
    RegisterMatched(o.buffer, id, Result(false, "", false));
  }

  /** Ids registered in increasing order are released in increasing order. */
  lemma {:induction false} ReleasedInOrder(h: seq<Event>)
    requires Increasing(h)
    ensures Sorted(Run(h).released) && Below(Run(h).released, Run(h).buffer.ids)
  {
    if h != [] {
      var front, e := h[..|h| - 1], h[|h| - 1];
      IncreasingFront(h);
      ReleasedInOrder(front);
      FreshIdsDoNotRepeat(h);
      RunsOk(front);
      if e.Register? {
        BeforeLast(h, e.id);
        RegisteredBelow(Run(front), e.id);
      } else {
        CompletedBelow(Run(front), e);
      }
    }
  }

  lemma IncreasingFront(h: seq<Event>)
    requires Increasing(h) && h != []
    ensures Increasing(h[..|h| - 1])
  {
    var ids := Registrations(h[..|h| - 1]);
    assert forall i :: 0 <= i < |ids| ==> Registrations(h)[i] == ids[i];
  }

  // ------------------------------------------- what a repeated registration does

  /** An id at the front without a result, as a second registration of one id
      leaves it behind. */
  predicate Stuck(b: Buffer) {
    b.ids != [] && b.ids[0] !in b.results
  }

  /** One id registered twice and completed: the second entry has lost its result. */
  lemma RepeatedIdSticks(id: int, text: string)
    ensures Stuck(Run([Register(id), Register(id), Complete(id, text, false)]).buffer)
  {
    var r := Result(false, "", false);
    var h := [Register(id), Register(id), Complete(id, text, false)];
    assert h[..2] == [Register(id), Register(id)] && h[..2][..1] == [Register(id)];
    assert Run([Register(id)][..0]) == Outcome(Buffer([], map[]), []);
    var b1 := Run([Register(id)]).buffer;
    assert b1 == Buffer([id], map[id := r]);
    var b2 := Run(h[..2]).buffer;
    assert Place([id], id) == 0;
    assert b2 == Buffer([id, id], map[id := r]);
    var b := Marked(b2, id, text, false);
    assert Popped(b) == Buffer([id], map[]);
    assert !Popped(b).FrontDone();
    assert Drained(b) == Popped(b);
  }

  predicate OnlyCompletes(h: seq<Event>) {
    forall i :: 0 <= i < |h| ==> h[i].Complete?
  }

  function RunFrom(o: Outcome, h: seq<Event>): Outcome {
    if h == [] then o else Handled(RunFrom(o, h[..|h| - 1]), h[|h| - 1])
  }

  /** Until another registration, no completion releases anything then. */
  lemma {:induction false} StuckUntilRegistration(o: Outcome, h: seq<Event>)
    requires Stuck(o.buffer) && OnlyCompletes(h)
    ensures RunFrom(o, h).released == o.released && RunFrom(o, h).buffer.ids == o.buffer.ids
    ensures Stuck(RunFrom(o, h).buffer)
  {
    if h != [] {
      StuckUntilRegistration(o, h[..|h| - 1]);
      var p, e := RunFrom(o, h[..|h| - 1]), h[|h| - 1];
      var b := Marked(p.buffer, e.id, e.text, e.failed);
      assert !b.FrontDone();
      assert p.released + b.ids[..0] == p.released;
    }
  }

  lemma FrontPops(b: Buffer)
    requires b.FrontDone()
    ensures Drained(b) == Drained(Popped(b))
    ensures ReadyResults(b) == [b.results[b.ids[0]]] + ReadyResults(Popped(b))
  {
  }

  lemma NextReady(b: Buffer, ready: seq<Result>)
    requires b.FrontDone()
    ensures Drained(b) == Drained(Popped(b))
    ensures ready + [b.results[b.ids[0]]] + ReadyResults(Popped(b)) == ready + ReadyResults(b)
  {
    FrontPops(b);
    hide Drained, Popped, ReadyResults, Buffer.FrontDone;
  }

  lemma FrontStops(b: Buffer)
    requires !b.FrontDone()
    ensures Drained(b) == b && ReadyResults(b) == []
  {
  }

  // ---------------------------------------------------------------- the class

  class VoiceReorderBuffer {
    var ids: seq<int>
    var results: map<int, Result>

    predicate Valid()
      reads this
    {
      Ordered(ids)
    }

    function Value(): Buffer
      reads this
    {
      Buffer(ids, results)
    }

    constructor ()
      ensures Valid() && Value() == Buffer([], map[])
    {
      ids, results := [], map[];
    }

    /** sort.SearchInts: the first position whose id is not below. */
    method SearchInts(id: int) returns (n: nat)
      requires Valid()
      ensures n == Place(ids, id)
    {
      var lo, hi := 0, |ids|;
      PlaceSplits(ids, id);
      while lo < hi
        invariant 0 <= lo <= Place(ids, id) <= hi <= |ids|
      {
        var mid := lo + (hi - lo) / 2;
        if ids[mid] < id { lo := mid + 1; } else { hi := mid; }
      }
      n := lo;
    }

    method Register(id: int, r: Result)
      requires Valid()
      modifies this
      ensures Valid() && Value() == Registered(old(Value()), id, r)
    {
      InsertKeepsOrder(ids, id);
      var i := SearchInts(id);
      ids := ids[..i] + [id] + ids[i..];
      results := results[id := r];
    }

    /** Marks the result done and releases all done results from the front. */
    method Complete(id: int, text: string, failed: bool) returns (ready: seq<Result>)
      requires Valid()
      modifies this
      ensures Valid()
      ensures var b := Marked(old(Value()), id, text, failed);
              Value() == Drained(b) && ready == ReadyResults(b)
    {
      if id in results {
        results := results[id := Result(true, text, failed)];
      }
      ghost var b := Value();
      hide Drained, ReadyResults, Ready, Marked;
      ready := [];
      while |ids| > 0
        invariant Valid() && Drained(Value()) == Drained(b)
        invariant ready + ReadyResults(Value()) == ReadyResults(b)
        decreases |ids|
      {
        if ids[0] !in results || !results[ids[0]].done { break; }
        var r := results[ids[0]];
        ghost var was := Value();
        NextReady(was, ready);
        results := results - {ids[0]};
        ids := ids[1..];
        ready := ready + [r];
        assert Value() == Popped(was);
      }
      FrontStops(Value());
      assert ready + [] == ready;
    }
  }

  /** The released results, in order. */
  function ReadyResults(b: Buffer): (rs: seq<Result>)
    ensures |rs| == Ready(b)
    decreases |b.ids|
  {
    if b.FrontDone() then [b.results[b.ids[0]]] + ReadyResults(Popped(b)) else []
  }

  /** In a matched buffer they are the results of the released ids. */
  lemma {:induction false} ReadyResultsAt(b: Buffer, i: nat)
    requires b.Matched() && i < Ready(b)
    ensures ReadyResults(b)[i] == b.results[b.ids[i]]
    decreases |b.ids|
  {
    if i > 0 {
      var p := Popped(b);
      FrontPops(b);
      PopMatched(b);
      assert Ready(b) == 1 + Ready(p) && b.ids[i] == p.ids[i - 1] && p.ids[i - 1] in p.ids;
      hide Ready, Drained, ReadyResults, Buffer.Matched;
      ReadyResultsAt(p, i - 1);
    }
  }

  // ------------------------------------------------------ what is delivered

  /** What a history says last of an id: that it waits, or how it was completed. */
  function Said(h: seq<Event>, id: int): Result {
    if h == [] then Result(false, "", false)
    else
      match h[|h| - 1]
      case Register(x) => if x == id then Result(false, "", false) else Said(h[..|h| - 1], id)
      case Complete(x, text, failed) => if x == id then Result(true, text, failed) else Said(h[..|h| - 1], id)
  }

  lemma {:induction false} DrainedResults(b: Buffer)
    ensures forall id <- Drained(b).results :: id in b.results && Drained(b).results[id] == b.results[id]
    decreases |b.ids|
  {
    if b.FrontDone() {
      DrainedResults(Popped(b));
    }
  }

  /** A result that is held is what the history says of its id. */
  lemma {:induction false} HeldIsSaid(h: seq<Event>)
    ensures forall id <- Run(h).buffer.results :: Run(h).buffer.results[id] == Said(h, id)
  {
    if h != [] {
      HeldIsSaid(h[..|h| - 1]);
      var before, e := Run(h[..|h| - 1]).buffer, h[|h| - 1];
      if e.Complete? {
        DrainedResults(Marked(before, e.id, e.text, e.failed));
      }
    }
  }

  lemma RunOn(h: seq<Event>, e: Event)
    ensures Run(h + [e]) == Handled(Run(h), e)
    ensures forall id :: Said(h + [e], id) == match e
      case Register(x) => if x == id then Result(false, "", false) else Said(h, id)
      case Complete(x, text, failed) => if x == id then Result(true, text, failed) else Said(h, id)
  {
    assert (h + [e])[..|h|] == h;
  }

  lemma MarkedIsSaid(h: seq<Event>, id: int, text: string, failed: bool)
    ensures var b := Marked(Run(h).buffer, id, text, failed);
      forall x <- b.results :: b.results[x] == Said(h + [Complete(id, text, failed)], x)
  {
    HeldIsSaid(h);
    RunOn(h, Complete(id, text, failed));
    hide Run, Said;
  }

  lemma MarkedStays(h: seq<Event>, id: int, text: string, failed: bool)
    requires Repeats(h) == 0
    ensures Marked(Run(h).buffer, id, text, failed).Matched()
  {
    RunsOk(h);
    assert Run(h).buffer.Matched();
    MarkedMatched(Run(h).buffer, id, text, failed);
  }

  /** The results that a completion releases carry, in the order of the ids released, the
      text or failure with which each id was completed. */
  lemma DeliversWhatWasSaid(h: seq<Event>, id: int, text: string, failed: bool, i: nat)
    requires Repeats(h) == 0
    requires i < Ready(Marked(Run(h).buffer, id, text, failed))
    ensures var b, after := Marked(Run(h).buffer, id, text, failed), h + [Complete(id, text, failed)];
      && Run(after).released == Run(h).released + b.ids[..Ready(b)]
      && ReadyResults(b)[i] == Said(after, b.ids[i]) && Said(after, b.ids[i]).done
  {
    var b := Marked(Run(h).buffer, id, text, failed);
    MarkedStays(h, id, text, failed);
    MarkedIsSaid(h, id, text, failed);
    RunOn(h, Complete(id, text, failed));
    InMatched(b);
    hide Run, Said, Ready, ReadyResults, Drained, Marked, Repeats, Buffer.Matched, Buffer.FrontDone;
    DrainMatched(b);
    ReadyResultsAt(b, i);
    assert b.ids[i] in b.ids;
  }

  lemma InMatched(b: Buffer)
    requires b.Matched()
    ensures forall id <- b.ids :: id in b.results
  {
  }
}
