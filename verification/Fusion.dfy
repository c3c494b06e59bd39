/** Rank fusion with a per-note cap (search/retrieval.go). Scores are reals. */
module Fusion {

  datatype Hit = Hit(noteId: int, chunkId: int, text: string, score: real)

  const RRF_K: real := 60.0

  /** What a hit at a position of a ranking is worth. */
  function Weight(rank: nat): (w: real)
    ensures w > 0.0
  {
    1.0 / (RRF_K + (rank + 1) as real)
  }

  // ------------------------------------------------------ fused candidates

  /** Sum of the weights of a chunk in the first `n` hits of a ranking. */
  function Votes(hits: seq<Hit>, n: nat, id: int): (v: real)
    requires n <= |hits|
    ensures v >= 0.0
    ensures v > 0.0 <==> exists i :: 0 <= i < n && hits[i].chunkId == id
  {
    if n == 0 then 0.0
    else if hits[n - 1].chunkId == id then Votes(hits, n - 1, id) + Weight(n - 1)
    else Votes(hits, n - 1, id)
  }

  /** `hit` is the first occurrence of its chunk. */
  predicate IsFirst(hits: seq<Hit>, hit: Hit) {
    exists i :: 0 <= i < |hits| && hits[i] == hit && forall j :: 0 <= j < i ==> hits[j].chunkId != hit.chunkId
  }

  /** One candidate per chunk that some ranking names: its first hit, scored by
      all its occurrences in both rankings. */
  predicate IsCandidate(dense: seq<Hit>, lexical: seq<Hit>, c: Hit) {
    && c.chunkId != 0
    && (exists hit :: hit in dense + lexical && IsFirst(dense + lexical, hit) && c == hit.(score := c.score))
    && c.score == Votes(dense, |dense|, c.chunkId) + Votes(lexical, |lexical|, c.chunkId)
  }

  lemma FirstIsUnique(hits: seq<Hit>, x: Hit, y: Hit)
    requires IsFirst(hits, x) && IsFirst(hits, y) && x.chunkId == y.chunkId
    ensures x == y
  {
    var i :| 0 <= i < |hits| && hits[i] == x && forall k :: 0 <= k < i ==> hits[k].chunkId != x.chunkId;
    var j :| 0 <= j < |hits| && hits[j] == y && forall k :: 0 <= k < j ==> hits[k].chunkId != y.chunkId;
    assert i == j;
  }

  lemma CandidateIsUnique(dense: seq<Hit>, lexical: seq<Hit>, a: Hit, b: Hit)
    requires IsCandidate(dense, lexical, a) && IsCandidate(dense, lexical, b) && a.chunkId == b.chunkId
    ensures a == b
  {
    hide IsFirst, Votes;
    var hits := dense + lexical;
    var x :| x in hits && IsFirst(hits, x) && a == x.(score := a.score);
    var y :| y in hits && IsFirst(hits, y) && b == y.(score := b.score);
    FirstIsUnique(hits, x, y);
  }

  // --------------------------------------------------------------- ranking

  /** The comparison of the sort: higher score first, then the smaller id. */
  predicate Before(a: Hit, b: Hit) {
    a.score > b.score || (a.score == b.score && a.chunkId < b.chunkId)
  }

  predicate Sorted(r: seq<Hit>) {
    forall i, j :: 0 <= i < j < |r| ==> Before(r[i], r[j])
  }

  /** All candidates in order. */
  ghost predicate IsRanking(dense: seq<Hit>, lexical: seq<Hit>, r: seq<Hit>) {
    Sorted(r) && forall c :: c in r <==> IsCandidate(dense, lexical, c)
  }

  lemma EmptyIfNoMember(q: seq<Hit>)
    ensures (forall c :: c !in q) ==> q == []
  {
    assert |q| > 0 ==> q[0] in q;
  }

  lemma {:induction false} SortedUnique(r: seq<Hit>, q: seq<Hit>)
    requires Sorted(r) && Sorted(q) && forall c :: c in r <==> c in q
    ensures r == q
  {
    if |r| == 0 {
      EmptyIfNoMember(q);
    } else {
      assert r[0] in q;
      assert q[0] in r;
      assert r[0] == q[0];
      forall c ensures c in r[1..] <==> c in q[1..] {
        assert c in r <==> c == r[0] || c in r[1..];
        assert c in q <==> c == q[0] || c in q[1..];
      }
      SortedUnique(r[1..], q[1..]);
    }
  }

  // ------------------------------------------------------- greedy selection

  function Get(used: map<int, nat>, note: int): nat {
    if note in used then used[note] else 0
  }

  /** The flags of the greedy pass: take whatever its note still has room for. */
  function Greedy(r: seq<Hit>, used: map<int, nat>, cap: nat, limit: nat): (mask: seq<bool>)
    ensures |mask| == |r|
  {
    if |r| == 0 then []
    else
      var n := r[0].noteId;
      if limit == 0 || Get(used, n) >= cap then [false] + Greedy(r[1..], used, cap, limit)
      else [true] + Greedy(r[1..], used[n := Get(used, n) + 1], cap, limit - 1)
  }

  function Pick(r: seq<Hit>, mask: seq<bool>): seq<Hit>
    requires |mask| == |r|
  {
    if |r| == 0 then [] else (if mask[0] then [r[0]] else []) + Pick(r[1..], mask[1..])
  }

  function Total(hits: seq<Hit>): real {
    if |hits| == 0 then 0.0 else hits[0].score + Total(hits[1..])
  }

  function OfNote(hits: seq<Hit>, note: int): nat {
    if |hits| == 0 then 0 else (if hits[0].noteId == note then 1 else 0) + OfNote(hits[1..], note)
  }

  /** A selection that keeps the limits, given what is already used. */
  predicate Fits(r: seq<Hit>, mask: seq<bool>, used: map<int, nat>, cap: nat, limit: nat) {
    |mask| == |r| && |Pick(r, mask)| <= limit && forall hit <- r :: OfNote(Pick(r, mask), hit.noteId) + Get(used, hit.noteId) <= cap
  }

  lemma PickTail(r: seq<Hit>, mask: seq<bool>)
    requires |mask| == |r| > 0
    ensures var p, t := Pick(r, mask), Pick(r[1..], mask[1..]);
      && |p| == |t| + (if mask[0] then 1 else 0)
      && Total(p) == Total(t) + (if mask[0] then r[0].score else 0.0)
      && forall n :: OfNote(p, n) == OfNote(t, n) + (if mask[0] && r[0].noteId == n then 1 else 0)
  {
    if mask[0] {
      assert Pick(r, mask)[1..] == Pick(r[1..], mask[1..]);
    } else {
      assert Pick(r, mask) == Pick(r[1..], mask[1..]);
    }
  }

  /** Dropping a chosen hit lowers the counts of the selection by its share. */
  lemma {:induction false} Dropped(r: seq<Hit>, mask: seq<bool>, k: nat)
    requires |mask| == |r| && k < |r| && mask[k]
    ensures var p, q := Pick(r, mask), Pick(r, mask[k := false]);
      && |q| == |p| - 1 && Total(q) == Total(p) - r[k].score
      && forall n :: OfNote(q, n) == OfNote(p, n) - (if r[k].noteId == n then 1 else 0)
  {
    var less := mask[k := false];
    PickTail(r, mask);
    PickTail(r, less);
    if k == 0 {
      assert less[1..] == mask[1..];
    } else {
      assert less[1..] == mask[1..][k - 1 := false];
      Dropped(r[1..], mask[1..], k - 1);
    }
  }

  /** A chosen hit whose removal makes room for the head of the ranking: one of
      the same note if there is any, otherwise any. */
  lemma {:induction false} Chosen(r: seq<Hit>, mask: seq<bool>, note: int) returns (k: int)
    requires |mask| == |r|
    ensures -1 <= k < |r| && (k >= 0 ==> mask[k])
    ensures k == -1 ==> Pick(r, mask) == []
    ensures k >= 0 && r[k].noteId != note ==> OfNote(Pick(r, mask), note) == 0
  {
    if |r| == 0 {
      k := -1;
    } else {
      PickTail(r, mask);
      if mask[0] && r[0].noteId == note {
        k := 0;
      } else {
        var t := Chosen(r[1..], mask[1..], note);
        k := if t >= 0 then t + 1 else if mask[0] then 0 else -1;
      }
    }
  }

  predicate Positive(r: seq<Hit>) {
    forall hit <- r :: hit.score > 0.0
  }

  lemma RankTail(r: seq<Hit>)
    requires |r| > 0 && Sorted(r) && Positive(r)
    ensures Sorted(r[1..]) && Positive(r[1..])
    ensures forall k :: 0 <= k < |r| - 1 ==> r[1..][k].score <= r[0].score
  {
    forall k | 0 <= k < |r| - 1 ensures r[1..][k].score <= r[0].score {
      assert Before(r[0], r[1 + k]);
    }
    assert forall hit <- r[1..] :: hit in r;
  }

  predicate GoesOn(out: seq<Hit>, head: Hit, rest: seq<Hit>) {
    out == [head] + rest && out[1..] == rest && Total(out) == head.score + Total(rest)
  }

  lemma GreedyTail(r: seq<Hit>, used: map<int, nat>, cap: nat, limit: nat)
    requires |r| > 0
    ensures var n, out := r[0].noteId, Pick(r, Greedy(r, used, cap, limit));
      if limit == 0 || Get(used, n) >= cap then out == Pick(r[1..], Greedy(r[1..], used, cap, limit))
      else GoesOn(out, r[0], Pick(r[1..], Greedy(r[1..], used[n := Get(used, n) + 1], cap, limit - 1)))
  {
    var n, g := r[0].noteId, Greedy(r, used, cap, limit);
    if limit == 0 || Get(used, n) >= cap {
      assert g[1..] == Greedy(r[1..], used, cap, limit);
    } else {
      assert g[1..] == Greedy(r[1..], used[n := Get(used, n) + 1], cap, limit - 1);
    }
  }

  lemma FullSkips(r: seq<Hit>, mask: seq<bool>, used: map<int, nat>, cap: nat, limit: nat)
    requires |r| > 0 && Fits(r, mask, used, cap, limit) && (limit == 0 || Get(used, r[0].noteId) >= cap)
    ensures !mask[0]
  {
    assert r[0] in r;
  }

  lemma GreedyTotal(r: seq<Hit>, used: map<int, nat>, cap: nat, limit: nat)
    requires |r| > 0
    ensures var n := r[0].noteId;
      Total(Pick(r, Greedy(r, used, cap, limit))) ==
        if limit == 0 || Get(used, n) >= cap then Total(Pick(r[1..], Greedy(r[1..], used, cap, limit)))
        else r[0].score + Total(Pick(r[1..], Greedy(r[1..], used[n := Get(used, n) + 1], cap, limit - 1)))
  {
    GreedyTail(r, used, cap, limit);
    hide Pick, Greedy, Total;
  }

  /** With no room for the head, every selection passes over it. */
  lemma AllSkip(r: seq<Hit>, mask: seq<bool>, used: map<int, nat>, cap: nat, limit: nat)
    requires |r| > 0 && Fits(r, mask, used, cap, limit) && (limit == 0 || Get(used, r[0].noteId) >= cap)
    ensures Fits(r[1..], mask[1..], used, cap, limit) && Total(Pick(r, mask)) == Total(Pick(r[1..], mask[1..]))
  {
    FullSkips(r, mask, used, cap, limit);
    SkipFits(r, mask, used, cap, limit);
    PickTail(r, mask);
    hide Fits, Pick, Total, Get;
  }

  /** No selection within the limits scores more than the greedy one. */
  lemma {:induction false} GreedyIsBest(r: seq<Hit>, mask: seq<bool>, used: map<int, nat>, cap: nat, limit: nat)
    requires Sorted(r) && Positive(r) && Fits(r, mask, used, cap, limit)
    ensures Total(Pick(r, mask)) <= Total(Pick(r, Greedy(r, used, cap, limit)))
  {
    if |r| > 0 {
      hide *;
      var n := r[0].noteId;
      GreedyTotal(r, used, cap, limit);
      RankTail(r);
      if limit == 0 || Get(used, n) >= cap {
        AllSkip(r, mask, used, cap, limit);
        GreedyIsBest(r[1..], mask[1..], used, cap, limit);
      } else {
        var k, less := MakeRoom(r, mask, used, cap, limit);
        GreedyIsBest(r[1..], less, used[n := Get(used, n) + 1], cap, limit - 1);
      }
    } else {
      assert mask == Greedy(r, used, cap, limit);
    }
  }

  /** The exchange: with the head taken, what is left of any other selection
      gives up at most the head's score. */
  lemma {:induction false} MakeRoom(r: seq<Hit>, mask: seq<bool>, used: map<int, nat>, cap: nat, limit: nat)
    returns (k: int, less: seq<bool>)
    requires |r| > 0 && limit > 0 && Get(used, r[0].noteId) < cap
    requires Sorted(r) && Positive(r) && Fits(r, mask, used, cap, limit)
    ensures Fits(r[1..], less, used[r[0].noteId := Get(used, r[0].noteId) + 1], cap, limit - 1)
    ensures Total(Pick(r, mask)) <= r[0].score + Total(Pick(r[1..], less))
  {
    less, k := mask[1..], -1;
    PickTail(r, mask);
    RankTail(r);
    if mask[0] {
      TailFits(r, mask, used, cap, limit);
    } else {
      k := Chosen(r[1..], mask[1..], r[0].noteId);
      if k == -1 {
        EmptyFits(r, mask, used, cap, limit);
        assert r[0] in r;
      } else {
        DropFits(r, mask, k, used, cap, limit);
        Dropped(r[1..], mask[1..], k);
        less := mask[1..][k := false];
      }
    }
  }

  lemma SkipFits(r: seq<Hit>, mask: seq<bool>, used: map<int, nat>, cap: nat, limit: nat)
    requires |r| > 0 && Fits(r, mask, used, cap, limit) && !mask[0]
    ensures Fits(r[1..], mask[1..], used, cap, limit)
  {
    PickTail(r, mask);
    forall hit <- r[1..] ensures OfNote(Pick(r[1..], mask[1..]), hit.noteId) + Get(used, hit.noteId) <= cap {
      assert hit in r;
    }
  }

  lemma EmptyFits(r: seq<Hit>, mask: seq<bool>, used: map<int, nat>, cap: nat, limit: nat)
    requires |r| > 0 && limit > 0 && Get(used, r[0].noteId) < cap
    requires Fits(r, mask, used, cap, limit) && !mask[0] && Pick(r[1..], mask[1..]) == []
    ensures Fits(r[1..], mask[1..], used[r[0].noteId := Get(used, r[0].noteId) + 1], cap, limit - 1)
  {
    forall hit <- r[1..]
      ensures OfNote(Pick(r[1..], mask[1..]), hit.noteId) + Get(used[r[0].noteId := Get(used, r[0].noteId) + 1], hit.noteId) <= cap
    {
      assert hit in r;
    }
  }

  lemma TailFits(r: seq<Hit>, mask: seq<bool>, used: map<int, nat>, cap: nat, limit: nat)
    requires |r| > 0 && Fits(r, mask, used, cap, limit) && mask[0]
    ensures limit > 0 && Fits(r[1..], mask[1..], used[r[0].noteId := Get(used, r[0].noteId) + 1], cap, limit - 1)
  {
    PickTail(r, mask);
    forall hit <- r[1..]
      ensures OfNote(Pick(r[1..], mask[1..]), hit.noteId) + Get(used[r[0].noteId := Get(used, r[0].noteId) + 1], hit.noteId) <= cap
    {
      assert hit in r;
    }
  }

  lemma DropFits(r: seq<Hit>, mask: seq<bool>, k: nat, used: map<int, nat>, cap: nat, limit: nat)
    requires |r| > 0 && Fits(r, mask, used, cap, limit) && !mask[0] && k < |r| - 1 && mask[1..][k]
    requires Get(used, r[0].noteId) < cap
    requires r[1..][k].noteId != r[0].noteId ==> OfNote(Pick(r[1..], mask[1..]), r[0].noteId) == 0
    ensures limit > 0 && Fits(r[1..], mask[1..][k := false], used[r[0].noteId := Get(used, r[0].noteId) + 1], cap, limit - 1)
  {
    PickTail(r, mask);
    Dropped(r[1..], mask[1..], k);
    var used' := used[r[0].noteId := Get(used, r[0].noteId) + 1];
    forall hit <- r[1..] ensures OfNote(Pick(r[1..], mask[1..][k := false]), hit.noteId) + Get(used', hit.noteId) <= cap {
      assert hit in r;
    }
  }

  lemma {:induction false} GreedyFits(r: seq<Hit>, used: map<int, nat>, cap: nat, limit: nat)
    ensures |Pick(r, Greedy(r, used, cap, limit))| <= limit
    ensures forall n :: Get(used, n) <= cap ==> OfNote(Pick(r, Greedy(r, used, cap, limit)), n) + Get(used, n) <= cap
  {
    if |r| > 0 {
      var n := r[0].noteId;
      GreedyTail(r, used, cap, limit);
      if limit == 0 || Get(used, n) >= cap {
        GreedyFits(r[1..], used, cap, limit);
      } else {
        var used' := used[n := Get(used, n) + 1];
        GreedyFits(r[1..], used', cap, limit - 1);
        var out, rest := Pick(r, Greedy(r, used, cap, limit)), Pick(r[1..], Greedy(r[1..], used', cap, limit - 1));
        forall m | Get(used, m) <= cap ensures OfNote(out, m) + Get(used, m) <= cap {
          assert out[1..] == rest;
          assert Get(used', m) <= cap;
        }
      }
    }
  }

  // ------------------------------------------------------------- the methods

  /** A fused result: distinct chunks, at most `limit` of them and at most `cap` of
      any note, with the largest total score any such selection can have. */
  ghost predicate IsBestSelection(r: seq<Hit>, out: seq<Hit>, cap: nat, limit: nat) {
    && |out| <= limit
    && (forall n :: OfNote(out, n) <= cap)
    && (forall i, j :: 0 <= i < j < |out| ==> out[i].chunkId != out[j].chunkId && Before(out[i], out[j]))
    && (forall hit <- out :: hit in r)
    && (forall mask :: Fits(r, mask, map[], cap, limit) ==> Total(Pick(r, mask)) <= Total(out))
  }

  lemma {:induction false} PickKeepsOrder(r: seq<Hit>, mask: seq<bool>)
    requires Sorted(r) && |mask| == |r|
    ensures Sorted(Pick(r, mask)) && forall hit <- Pick(r, mask) :: hit in r
  {
    if |r| > 0 {
      PickKeepsOrder(r[1..], mask[1..]);
      var p, t := Pick(r, mask), Pick(r[1..], mask[1..]);
      assert forall k :: 0 <= k < |t| ==> t[k] in r[1..];
      assert forall hit <- r[1..] :: hit in r && Before(r[0], hit);
      if mask[0] { assert p == [r[0]] + t; } else { assert p == t; }
    }
  }

  lemma GreedySelection(dense: seq<Hit>, lexical: seq<Hit>, r: seq<Hit>, cap: nat, limit: nat)
    requires IsRanking(dense, lexical, r)
    ensures IsBestSelection(r, Pick(r, Greedy(r, map[], cap, limit)), cap, limit)
  {
    var g := Greedy(r, map[], cap, limit);
    var out := Pick(r, g);
    forall hit <- r ensures hit.score > 0.0 {
      CandidateScored(dense, lexical, hit);
    }
    GreedyFits(r, map[], cap, limit);
    PickKeepsOrder(r, g);
    forall i, j | 0 <= i < j < |out| ensures out[i].chunkId != out[j].chunkId {
      var a, b := out[i], out[j];
      assert Before(a, b) && a in r && b in r;
      if a.chunkId == b.chunkId {
        CandidateIsUnique(dense, lexical, a, b);
      }
    }
    forall mask | Fits(r, mask, map[], cap, limit) ensures Total(Pick(r, mask)) <= Total(out) {
      GreedyIsBest(r, mask, map[], cap, limit);
    }
  }

  lemma CandidateScored(dense: seq<Hit>, lexical: seq<Hit>, c: Hit)
    requires IsCandidate(dense, lexical, c)
    ensures c.score > 0.0
  {
    var hits := dense + lexical;
    var x :| x in hits && IsFirst(hits, x) && c == x.(score := c.score);
    var i :| 0 <= i < |hits| && hits[i] == x;
    if i < |dense| {
      assert dense[i].chunkId == c.chunkId;
    } else {
      assert lexical[i - |dense|].chunkId == c.chunkId;
    }
  }

  /** The first of the first `n` hits with a given chunk. */
  function FirstIn(hits: seq<Hit>, n: nat, id: int): (hit: Hit)
    requires n <= |hits| && Votes(hits, n, id) > 0.0
    ensures exists i :: 0 <= i < n && hits[i] == hit && hit.chunkId == id && forall j :: 0 <= j < i ==> hits[j].chunkId != id
  {
    if Votes(hits, n - 1, id) > 0.0 then FirstIn(hits, n - 1, id) else hits[n - 1]
  }

  /** `m` is `m0` with the first `n` hits of one more ranking added. */
  ghost predicate Added(m0: map<int, Hit>, m: map<int, Hit>, hits: seq<Hit>, n: nat)
    requires n <= |hits|
  {
    forall id :: AddedAt(m0, m, hits, n, id)
  }

  ghost predicate AddedAt(m0: map<int, Hit>, m: map<int, Hit>, hits: seq<Hit>, n: nat, id: int)
    requires n <= |hits|
  {
    var votes := Votes(hits, n, id);
    && (id in m <==> id in m0 || (id != 0 && votes > 0.0))
    && (id in m0 ==> m[id] == m0[id].(score := m0[id].score + votes))
    && (id !in m0 && id in m ==> m[id] == FirstIn(hits, n, id).(score := votes))
  }

  method Add(candidates: map<int, Hit>, hits: seq<Hit>) returns (m: map<int, Hit>)
    requires 0 !in candidates
    ensures Added(candidates, m, hits, |hits|)
  {
    m := candidates;
    assert Added(candidates, m, hits, 0);
    for rank := 0 to |hits|
      invariant Added(candidates, m, hits, rank)
    {
      var hit := hits[rank];
      ghost var before := m;
      if hit.chunkId != 0 {
        var candidate := if hit.chunkId in m then m[hit.chunkId] else hit.(score := 0.0);
        m := m[hit.chunkId := candidate.(score := candidate.score + Weight(rank))];
      }
      ghost var n := rank + 1;
      forall id ensures AddedAt(candidates, m, hits, n, id) {
        assert AddedAt(candidates, before, hits, rank, id);
      }
    }
  }

  lemma FusedCandidate(dense: seq<Hit>, lexical: seq<Hit>, m0: map<int, Hit>, m: map<int, Hit>, id: int)
    requires Added(map[], m0, dense, |dense|) && Added(m0, m, lexical, |lexical|)
    ensures id in m ==> IsCandidate(dense, lexical, m[id]) && m[id].chunkId == id
    ensures forall c: Hit :: IsCandidate(dense, lexical, c) && c.chunkId == id ==> id in m
  {
    var hits := dense + lexical;
    assert AddedAt(map[], m0, dense, |dense|, id) && AddedAt(m0, m, lexical, |lexical|, id);
    if id in m {
      var i := FirstPosition(dense, lexical, id);
      assert hits[i] in hits && IsFirst(hits, hits[i]);
      assert m[id] == hits[i].(score := m[id].score);
    }
    forall c: Hit | IsCandidate(dense, lexical, c) && c.chunkId == id ensures id in m {
      CandidateScored(dense, lexical, c);
    }
  }

  lemma FirstPosition(dense: seq<Hit>, lexical: seq<Hit>, id: int) returns (i: nat)
    requires Votes(dense, |dense|, id) + Votes(lexical, |lexical|, id) > 0.0
    ensures i < |dense + lexical| && (dense + lexical)[i].chunkId == id
    ensures forall j :: 0 <= j < i ==> (dense + lexical)[j].chunkId != id
    ensures (dense + lexical)[i] == if Votes(dense, |dense|, id) > 0.0 then FirstIn(dense, |dense|, id) else FirstIn(lexical, |lexical|, id)
  {
    if Votes(dense, |dense|, id) > 0.0 {
      var hit := FirstIn(dense, |dense|, id);
      i :| 0 <= i < |dense| && dense[i] == hit && forall j :: 0 <= j < i ==> dense[j].chunkId != id;
    } else {
      var hit := FirstIn(lexical, |lexical|, id);
      var k :| 0 <= k < |lexical| && lexical[k] == hit && forall j :: 0 <= j < k ==> lexical[j].chunkId != id;
      i := |dense| + k;
    }
  }

  lemma Inserted(ranked: seq<Hit>, i: nat, c: Hit)
    requires i <= |ranked| && Sorted(ranked)
    requires forall k :: 0 <= k < i ==> Before(ranked[k], c)
    requires i < |ranked| ==> Before(c, ranked[i])
    ensures var r := ranked[..i] + [c] + ranked[i..]; Sorted(r) && forall hit :: hit in r <==> hit in ranked || hit == c
  {
    var a, b := ranked[..i], ranked[i..];
    var r := a + [c] + b;
    forall k | 0 <= k < |r| ensures r[k] == if k < i then ranked[k] else if k == i then c else ranked[k - 1] {}
    forall k | i <= k < |ranked| ensures Before(c, ranked[k]) {
      if k > i { assert Before(ranked[i], ranked[k]); }
    }
    assert ranked == a + b;
    forall hit ensures hit in r <==> hit in ranked || hit == c {
      InConcat(a, b, hit);
      InConcat(a + [c], b, hit);
    }
  }

  lemma InConcat(a: seq<Hit>, b: seq<Hit>, hit: Hit)
    ensures hit in a + b <==> hit in a || hit in b
  {
  }

  /** sort.SliceStable, as an insertion into an already sorted prefix. */
  method Insert(ranked: seq<Hit>, c: Hit) returns (r: seq<Hit>)
    requires Sorted(ranked) && forall hit <- ranked :: hit.chunkId != c.chunkId
    ensures Sorted(r) && forall hit :: hit in r <==> hit in ranked || hit == c
  {
    var i := 0;
    while i < |ranked| && Before(ranked[i], c)
      invariant 0 <= i <= |ranked|
      invariant forall k :: 0 <= k < i ==> Before(ranked[k], c)
    {
      i := i + 1;
    }
    r := ranked[..i] + [c] + ranked[i..];
    assert i < |ranked| ==> Before(c, ranked[i]);
    Inserted(ranked, i, c);
  }

  /** The next key of a map walk: any one that is left. */
  method NextKey(keys: set<int>) returns (id: int)
    requires keys != {}
    ensures id in keys
  {
    assert (forall x :: x !in keys) ==> keys == {};
    id :| id in keys;
  }

  /** The candidates in whatever order the map yields them, sorted. */
  method Rank(candidates: map<int, Hit>) returns (ranked: seq<Hit>)
    requires forall id <- candidates :: candidates[id].chunkId == id
    ensures Sorted(ranked) && forall c :: c in ranked <==> c.chunkId in candidates && candidates[c.chunkId] == c
  {
    ranked := [];
    var remaining := candidates.Keys;
    while remaining != {}
      invariant remaining <= candidates.Keys && Sorted(ranked)
      invariant forall c :: c in ranked <==> c.chunkId in candidates && c.chunkId !in remaining && candidates[c.chunkId] == c
      decreases remaining
    {
      var id := NextKey(remaining);
      remaining := remaining - {id};
      ranked := Insert(ranked, candidates[id]);
    }
  }

  lemma {:induction false} GreedyStop(r: seq<Hit>, used: map<int, nat>, cap: nat)
    ensures Pick(r, Greedy(r, used, cap, 0)) == []
  {
    if |r| > 0 {
      GreedyStop(r[1..], used, cap);
      assert Greedy(r, used, cap, 0)[1..] == Greedy(r[1..], used, cap, 0);
    }
  }

  /** The pass over the ranking that keeps at most `cap` hits of a note. */
  method Diversify(ranked: seq<Hit>, cap: nat, limit: nat) returns (out: seq<Hit>)
    requires limit > 0
    ensures out == Pick(ranked, Greedy(ranked, map[], cap, limit))
  {
    var perNote: map<int, nat> := map[];
    out := [];
    for i := 0 to |ranked|
      invariant |out| < limit
      invariant out + Pick(ranked[i..], Greedy(ranked[i..], perNote, cap, limit - |out|)) == Pick(ranked, Greedy(ranked, map[], cap, limit))
    {
      ghost var rest, g := ranked[i..], Greedy(ranked[i..], perNote, cap, limit - |out|);
      assert rest[0] == ranked[i] && rest[1..] == ranked[i + 1..];
      if Get(perNote, ranked[i].noteId) >= cap {
        assert g[1..] == Greedy(rest[1..], perNote, cap, limit - |out|);
        continue;
      }
      perNote := perNote[ranked[i].noteId := Get(perNote, ranked[i].noteId) + 1];
      assert g[1..] == Greedy(rest[1..], perNote, cap, limit - |out| - 1);
      out := out + [ranked[i]];
      if |out| == limit {
        GreedyStop(rest[1..], perNote, cap);
        break;
      }
    }
  }

  // ------------------------------------------------------- what a vote is worth

  /** The sum of 1/(61 + i) over the positions i of a chunk in a ranking; its first hit
      stands at position `start`. */
  function Reciprocals(hits: seq<Hit>, start: nat, id: int): real {
    if |hits| == 0 then 0.0
    else (if hits[0].chunkId == id then 1.0 / (61 + start) as real else 0.0) + Reciprocals(hits[1..], start + 1, id)
  }

  lemma {:induction false} ReciprocalsConcat(a: seq<Hit>, b: seq<Hit>, start: nat, id: int)
    ensures Reciprocals(a + b, start, id) == Reciprocals(a, start, id) + Reciprocals(b, start + |a|, id)
  {
    if |a| == 0 {
      assert a + b == b;
    } else {
      assert (a + b)[1..] == a[1..] + b;
      ReciprocalsConcat(a[1..], b, start + 1, id);
    }
  }

  lemma {:induction false} VotesAre(hits: seq<Hit>, n: nat, id: int)
    requires n <= |hits|
    ensures Votes(hits, n, id) == Reciprocals(hits[..n], 0, id)
  {
    if n > 0 {
      VotesAre(hits, n - 1, id);
      assert hits[..n] == hits[..n - 1] + [hits[n - 1]];
      ReciprocalsConcat(hits[..n - 1], [hits[n - 1]], 0, id);
    }
  }

  /** A candidate scores what its positions in both rankings are worth. */
  lemma ScoreIs(dense: seq<Hit>, lexical: seq<Hit>, c: Hit)
    requires IsCandidate(dense, lexical, c)
    ensures c.score == Reciprocals(dense, 0, c.chunkId) + Reciprocals(lexical, 0, c.chunkId)
  {
    VotesAre(dense, |dense|, c.chunkId);
    VotesAre(lexical, |lexical|, c.chunkId);
    assert dense[..|dense|] == dense && lexical[..|lexical|] == lexical;
  }

  lemma Smaller(i: nat, j: nat)
    requires i < j
    ensures 0.0 < 1.0 / (61 + j) as real < 1.0 / (61 + i) as real
  {
    var x, y := (61 + i) as real, (61 + j) as real;
    assert 0.0 < x < y;
    Inverses(x, y);
  }

  lemma Inverses(x: real, y: real)
    requires 0.0 < x < y
    ensures 0.0 < 1.0 / y < 1.0 / x
  {
  }

  lemma {:induction false} NoVotes(hits: seq<Hit>, start: nat, id: int)
    requires forall k :: 0 <= k < |hits| ==> hits[k].chunkId != id
    ensures Reciprocals(hits, start, id) == 0.0
  {
    if |hits| > 0 {
      NoVotes(hits[1..], start + 1, id);
    }
  }

  lemma {:induction false} VotesNotNegative(hits: seq<Hit>, start: nat, id: int)
    ensures Reciprocals(hits, start, id) >= 0.0
  {
    if |hits| > 0 {
      VotesNotNegative(hits[1..], start + 1, id);
    }
  }

  /** A chunk that stands at a position is worth that, and no more if it stands there only. */
  lemma VoteAt(hits: seq<Hit>, k: nat, id: int)
    requires k < |hits| && hits[k].chunkId == id
    ensures Reciprocals(hits, 0, id) >= 1.0 / (61 + k) as real
    ensures (forall j :: 0 <= j < |hits| && hits[j].chunkId == id ==> j == k) ==> Reciprocals(hits, 0, id) == 1.0 / (61 + k) as real
  {
    var a, b := hits[..k], hits[k + 1..];
    assert hits == a + ([hits[k]] + b);
    ReciprocalsConcat(a, [hits[k]] + b, 0, id);
    ReciprocalsConcat([hits[k]], b, k, id);
    assert Reciprocals([hits[k]], k, id) == 1.0 / (61 + k) as real;
    VotesNotNegative(a, 0, id);
    VotesNotNegative(b, k + 1, id);
    if forall j :: 0 <= j < |hits| && hits[j].chunkId == id ==> j == k {
      NoVotes(a, 0, id);
      NoVotes(b, k + 1, id);
    }
  }

  // -------------------------------------------------- who is ranked before whom

  predicate StandsBefore(hits: seq<Hit>, a: int, b: int, i: int, j: int) {
    && 0 <= i < j < |hits| && hits[i].chunkId == a && hits[j].chunkId == b
    && forall k :: 0 <= k < |hits| && hits[k].chunkId == b ==> k == j
  }

  /** If the ranking names chunk `b`, it does so once, and chunk `a` before it. */
  ghost predicate Leads(hits: seq<Hit>, a: int, b: int) {
    (forall k :: 0 <= k < |hits| ==> hits[k].chunkId != b) || exists i, j :: StandsBefore(hits, a, b, i, j)
  }

  ghost predicate LeadsBoth(dense: seq<Hit>, lexical: seq<Hit>, x: Hit, y: Hit) {
    Leads(dense, x.chunkId, y.chunkId) && Leads(lexical, x.chunkId, y.chunkId)
  }

  lemma LeadsScores(hits: seq<Hit>, a: int, b: int)
    requires Leads(hits, a, b)
    ensures Reciprocals(hits, 0, a) >= Reciprocals(hits, 0, b)
    ensures Reciprocals(hits, 0, b) > 0.0 ==> Reciprocals(hits, 0, a) > Reciprocals(hits, 0, b)
  {
    if forall k :: 0 <= k < |hits| ==> hits[k].chunkId != b {
      NoVotes(hits, 0, b);
      VotesNotNegative(hits, 0, a);
    } else {
      var i, j :| StandsBefore(hits, a, b, i, j);
      VoteAt(hits, i, a);
      VoteAt(hits, j, b);
      Smaller(i, j);
    }
  }

  /** A chunk that stands before another in every ranking that names the other is
      ranked before it. */
  lemma LeaderIsBefore(dense: seq<Hit>, lexical: seq<Hit>, x: Hit, y: Hit)
    requires IsCandidate(dense, lexical, x) && IsCandidate(dense, lexical, y)
    requires LeadsBoth(dense, lexical, x, y)
    ensures Before(x, y)
  {
    ScoreIs(dense, lexical, x);
    ScoreIs(dense, lexical, y);
    CandidateScored(dense, lexical, y);
    LeadsScores(dense, x.chunkId, y.chunkId);
    LeadsScores(lexical, x.chunkId, y.chunkId);
    hide Reciprocals, IsCandidate, Leads;
  }

  /** What is taken of a ranking behind its head. */
  function Onward(r: seq<Hit>, used: map<int, nat>, cap: nat, limit: nat): (mask: seq<bool>)
    requires |r| > 0
    ensures |mask| == |r| - 1
  {
    var n := r[0].noteId;
    if limit == 0 || Get(used, n) >= cap then Greedy(r[1..], used, cap, limit)
    else Greedy(r[1..], used[n := Get(used, n) + 1], cap, limit - 1)
  }

  lemma GreedyHead(r: seq<Hit>, used: map<int, nat>, cap: nat, limit: nat, note: int)
    requires |r| > 0
    ensures var n, g, on := r[0].noteId, Greedy(r, used, cap, limit), Onward(r, used, cap, limit);
      && g[0] == (limit > 0 && Get(used, n) < cap) && g[1..] == on
      && OfNote(Pick(r, g), note) == OfNote(Pick(r[1..], on), note) + if g[0] && n == note then 1 else 0
  {
    var g, on := Greedy(r, used, cap, limit), Onward(r, used, cap, limit);
    assert g == [limit > 0 && Get(used, r[0].noteId) < cap] + on;
    PickTail(r, g);
  }

  /** So it is in the result too, unless the hits before it fill its note's share. */
  lemma {:induction false} GreedySkips(r: seq<Hit>, used: map<int, nat>, cap: nat, limit: nat, i: nat, j: nat)
    requires i < j < |r| && !Greedy(r, used, cap, limit)[i] && Greedy(r, used, cap, limit)[j]
    ensures OfNote(Pick(r, Greedy(r, used, cap, limit)), r[i].noteId) + Get(used, r[i].noteId) >= cap
  {
    GreedyHead(r, used, cap, limit, r[i].noteId);
    if limit == 0 {
      GreedyNone(r, used, cap, j);
    } else {
      var g := Greedy(r, used, cap, limit);
      var n := r[0].noteId;
      var used' := if g[0] then used[n := Get(used, n) + 1] else used;
      var limit' := if g[0] then limit - 1 else limit;
      assert Onward(r, used, cap, limit) == Greedy(r[1..], used', cap, limit');
      hide Greedy, Onward, Pick, OfNote;
      assert g[1..][j - 1] == g[j] && r[1..][j - 1] == r[j];
      if i > 0 {
        assert g[1..][i - 1] == g[i] && r[1..][i - 1] == r[i];
        GreedySkips(r[1..], used', cap, limit', i - 1, j - 1);
      }
    }
  }

  lemma {:induction false} GreedyNone(r: seq<Hit>, used: map<int, nat>, cap: nat, j: nat)
    requires j < |r|
    ensures !Greedy(r, used, cap, 0)[j]
  {
    if j > 0 {
      GreedyNone(r[1..], used, cap, j - 1);
    }
  }

  // ------------------------------------------------------------ a single ranking

  /** Distinct chunks, none of them 0. */
  predicate Proper(hits: seq<Hit>) {
    (forall k :: 0 <= k < |hits| ==> hits[k].chunkId != 0)
    && forall i, j :: 0 <= i < j < |hits| ==> hits[i].chunkId != hits[j].chunkId
  }

  /** The hits of a ranking, each scored by its position. */
  function Scored(hits: seq<Hit>): (r: seq<Hit>)
    ensures |r| == |hits| && forall k :: 0 <= k < |r| ==> r[k] == hits[k].(score := 1.0 / (61 + k) as real)
  {
    seq(|hits|, k requires 0 <= k < |hits| => hits[k].(score := 1.0 / (61 + k) as real))
  }

  lemma ProperScore(hits: seq<Hit>, k: nat)
    requires Proper(hits) && k < |hits|
    ensures Votes(hits, |hits|, hits[k].chunkId) == 1.0 / (61 + k) as real
  {
    VoteAt(hits, k, hits[k].chunkId);
    VotesAre(hits, |hits|, hits[k].chunkId);
    assert hits[..|hits|] == hits;
  }

  lemma AloneVotes(dense: seq<Hit>, lexical: seq<Hit>, id: int)
    requires dense == [] || lexical == []
    ensures var hits := dense + lexical; Votes(dense, |dense|, id) + Votes(lexical, |lexical|, id) == Votes(hits, |hits|, id)
  {
    assert dense + lexical == if dense == [] then lexical else dense;
  }

  lemma AloneIsScored(dense: seq<Hit>, lexical: seq<Hit>, c: Hit)
    requires (dense == [] || lexical == []) && Proper(dense + lexical) && IsCandidate(dense, lexical, c)
    ensures c in Scored(dense + lexical)
  {
    var hits := dense + lexical;
    AloneVotes(dense, lexical, c.chunkId);
    hide Votes, Proper, Scored;
    var hit :| hit in hits && IsFirst(hits, hit) && c == hit.(score := c.score);
    var k :| 0 <= k < |hits| && hits[k] == hit;
    ProperScore(hits, k);
    assert Scored(hits)[k] == c;
  }

  lemma ScoredIsAlone(dense: seq<Hit>, lexical: seq<Hit>, k: nat)
    requires (dense == [] || lexical == []) && Proper(dense + lexical) && k < |dense + lexical|
    ensures IsCandidate(dense, lexical, Scored(dense + lexical)[k])
  {
    var hits := dense + lexical;
    AloneVotes(dense, lexical, hits[k].chunkId);
    ProperScore(hits, k);
    hide Votes;
    assert hits[k] in hits && IsFirst(hits, hits[k]);
  }

  lemma AloneCandidate(dense: seq<Hit>, lexical: seq<Hit>, c: Hit)
    requires (dense == [] || lexical == []) && Proper(dense + lexical)
    ensures IsCandidate(dense, lexical, c) <==> c in Scored(dense + lexical)
  {
    hide IsCandidate, Proper;
    if IsCandidate(dense, lexical, c) { AloneIsScored(dense, lexical, c); }
    var r := Scored(dense + lexical);
    if c in r {
      var k :| 0 <= k < |r| && r[k] == c;
      ScoredIsAlone(dense, lexical, k);
    }
  }

  lemma ScoredIsSorted(hits: seq<Hit>)
    ensures Sorted(Scored(hits))
  {
    var r := Scored(hits);
    forall i, j | 0 <= i < j < |r| ensures Before(r[i], r[j]) { Smaller(i, j); }
  }

  lemma {:induction false} GreedyTakesAll(r: seq<Hit>, used: map<int, nat>, cap: nat, limit: nat)
    requires forall n :: OfNote(r, n) + Get(used, n) <= cap
    ensures Pick(r, Greedy(r, used, cap, limit)) == r[..if limit < |r| then limit else |r|]
  {
    if |r| > 0 && limit > 0 {
      var n := r[0].noteId;
      assert OfNote(r, n) + Get(used, n) <= cap;
      var used' := used[n := Get(used, n) + 1];
      forall m ensures OfNote(r[1..], m) + Get(used', m) <= cap {
        assert OfNote(r, m) + Get(used, m) <= cap;
      }
      GreedyTail(r, used, cap, limit);
      GreedyTakesAll(r[1..], used', cap, limit - 1);
    } else {
      if |r| > 0 { GreedyStop(r, used, cap); }
    }
  }

  lemma {:induction false} SameNotes(r: seq<Hit>, hits: seq<Hit>, n: int)
    requires |r| == |hits| && forall k :: 0 <= k < |r| ==> r[k].noteId == hits[k].noteId
    ensures OfNote(r, n) == OfNote(hits, n)
  {
    if |r| > 0 {
      SameNotes(r[1..], hits[1..], n);
    }
  }

  /** One ranking of distinct chunks that keeps the share of every note comes out as it is,
      cut to the limit, with the scores of its positions. */
  lemma AloneComesOut(dense: seq<Hit>, lexical: seq<Hit>, cap: nat, limit: nat)
    requires (dense == [] || lexical == []) && Proper(dense + lexical)
    requires forall n :: OfNote(dense + lexical, n) <= cap
    ensures var r := Scored(dense + lexical);
      IsRanking(dense, lexical, r) && Pick(r, Greedy(r, map[], cap, limit)) == r[..if limit < |r| then limit else |r|]
  {
    var hits := dense + lexical;
    var r := Scored(hits);
    ScoredIsSorted(hits);
    forall c ensures c in r <==> IsCandidate(dense, lexical, c) { AloneCandidate(dense, lexical, c); }
    forall n ensures OfNote(r, n) + Get(map[], n) <= cap { SameNotes(r, hits, n); }
    GreedyTakesAll(r, map[], cap, limit);
  }

  // ------------------------------------------------------------------ the fusion

  lemma FusedScores(dense: seq<Hit>, lexical: seq<Hit>, r: seq<Hit>, out: seq<Hit>, cap: nat, limit: nat)
    requires IsRanking(dense, lexical, r) && out == Pick(r, Greedy(r, map[], cap, limit))
    ensures forall hit <- out :: hit.score == Reciprocals(dense, 0, hit.chunkId) + Reciprocals(lexical, 0, hit.chunkId)
  {
    PickKeepsOrder(r, Greedy(r, map[], cap, limit));
    hide Pick, Greedy, IsCandidate, Reciprocals;
    forall hit <- out ensures hit.score == Reciprocals(dense, 0, hit.chunkId) + Reciprocals(lexical, 0, hit.chunkId) {
      ScoreIs(dense, lexical, hit);
    }
  }

  lemma FusedOrder(dense: seq<Hit>, lexical: seq<Hit>, r: seq<Hit>, out: seq<Hit>, cap: nat, limit: nat)
    requires IsRanking(dense, lexical, r) && out == Pick(r, Greedy(r, map[], cap, limit))
    ensures forall i, j :: 0 <= i < |out| && 0 <= j < |out| && LeadsBoth(dense, lexical, out[i], out[j]) ==> i < j
  {
    PickKeepsOrder(r, Greedy(r, map[], cap, limit));
    hide Pick, Greedy, IsCandidate, Leads;
    forall i, j | 0 <= i < |out| && 0 <= j < |out| && LeadsBoth(dense, lexical, out[i], out[j]) ensures i < j {
      assert out[i] in out && out[j] in out;
      LeaderIsBefore(dense, lexical, out[i], out[j]);
    }
  }

  lemma {:induction false} PickedAt(r: seq<Hit>, mask: seq<bool>, hit: Hit) returns (k: nat)
    requires |mask| == |r| && hit in Pick(r, mask)
    ensures k < |r| && mask[k] && r[k] == hit
  {
    if mask[0] && r[0] == hit {
      k := 0;
    } else {
      k := PickedAt(r[1..], mask[1..], hit);
      k := k + 1;
    }
  }

  lemma {:induction false} IsPicked(r: seq<Hit>, mask: seq<bool>, k: nat)
    requires |mask| == |r| && k < |r| && mask[k]
    ensures r[k] in Pick(r, mask)
  {
    if k > 0 {
      IsPicked(r[1..], mask[1..], k - 1);
    }
  }

  /** Who leads a hit of the result is in it too, or its note has its share there. */
  lemma FusedShare(dense: seq<Hit>, lexical: seq<Hit>, r: seq<Hit>, out: seq<Hit>, cap: nat, limit: nat, x: Hit, y: Hit)
    requires IsRanking(dense, lexical, r) && out == Pick(r, Greedy(r, map[], cap, limit))
    requires IsCandidate(dense, lexical, x) && y in out && LeadsBoth(dense, lexical, x, y)
    ensures x in out || OfNote(out, x.noteId) >= cap
  {
    var mask := Greedy(r, map[], cap, limit);
    PickKeepsOrder(r, mask);
    LeaderIsBefore(dense, lexical, x, y);
    var i :| 0 <= i < |r| && r[i] == x;
    hide Pick, Greedy, IsCandidate, LeadsBoth, OfNote;
    var j := PickedAt(r, mask, y);
    assert i != j && (j < i ==> Before(y, x));
    if mask[i] { IsPicked(r, mask, i); } else { GreedySkips(r, map[], cap, limit, i, j); }
  }

  lemma FusedShares(dense: seq<Hit>, lexical: seq<Hit>, r: seq<Hit>, out: seq<Hit>, cap: nat, limit: nat)
    requires IsRanking(dense, lexical, r) && out == Pick(r, Greedy(r, map[], cap, limit))
    ensures forall x, y :: IsCandidate(dense, lexical, x) && y in out && LeadsBoth(dense, lexical, x, y)
              ==> x in out || OfNote(out, x.noteId) >= cap
  {
    hide *;
    forall x, y | IsCandidate(dense, lexical, x) && y in out && LeadsBoth(dense, lexical, x, y)
      ensures x in out || OfNote(out, x.noteId) >= cap
    {
      FusedShare(dense, lexical, r, out, cap, limit, x, y);
    }
  }

  lemma FusedAlone(dense: seq<Hit>, lexical: seq<Hit>, r: seq<Hit>, out: seq<Hit>, cap: nat, limit: nat)
    requires IsRanking(dense, lexical, r) && out == Pick(r, Greedy(r, map[], cap, limit))
    ensures var hits := dense + lexical;
      (dense == [] || lexical == []) && Proper(hits) && (forall note :: OfNote(hits, note) <= cap) ==>
        |out| == (if limit < |hits| then limit else |hits|)
        && forall k :: 0 <= k < |out| ==> out[k] == hits[k].(score := 1.0 / (61 + k) as real)
  {
    var hits := dense + lexical;
    if (dense == [] || lexical == []) && Proper(hits) && (forall note :: OfNote(hits, note) <= cap) {
      AloneComesOut(dense, lexical, cap, limit);
      var scored := Scored(hits);
      hide Pick, Greedy, IsCandidate, Proper, OfNote;
      SortedUnique(r, scored);
    }
  }

  /** The result is the same for every order in which the candidate map is walked:
      the greedy selection of the one ranking there is, and no selection within
      the limits scores more. */
  method FuseByChunkID(dense: seq<Hit>, lexical: seq<Hit>, limit: int, maxPerNote: int) returns (out: seq<Hit>)
    ensures var n, cap := if limit <= 0 then 12 else limit, if maxPerNote <= 0 then 2 else maxPerNote;
      && (exists r :: IsRanking(dense, lexical, r))
      && (forall r :: IsRanking(dense, lexical, r) ==> IsBestSelection(r, out, cap, n) && out == Pick(r, Greedy(r, map[], cap, n)))
    // a hit scores 1/(61 + i) for each position i of its chunk in a ranking
    ensures forall hit <- out :: hit.score == Reciprocals(dense, 0, hit.chunkId) + Reciprocals(lexical, 0, hit.chunkId)
    // whoever stands before another in every ranking that names the other comes first
    ensures forall i, j :: 0 <= i < |out| && 0 <= j < |out| && LeadsBoth(dense, lexical, out[i], out[j]) ==> i < j
    // and is there unless its note has its share
    ensures var cap := if maxPerNote <= 0 then 2 else maxPerNote;
      forall x, y :: IsCandidate(dense, lexical, x) && y in out && LeadsBoth(dense, lexical, x, y) ==> x in out || OfNote(out, x.noteId) >= cap
    // a single ranking of distinct chunks that keeps the cap comes out as it is, up to the limit
    ensures var n, cap, hits := if limit <= 0 then 12 else limit, if maxPerNote <= 0 then 2 else maxPerNote, dense + lexical;
      (dense == [] || lexical == []) && Proper(hits) && (forall note :: OfNote(hits, note) <= cap) ==>
        |out| == (if n < |hits| then n else |hits|)
        && forall k :: 0 <= k < |out| ==> out[k] == hits[k].(score := 1.0 / (61 + k) as real)
  {
    var n, cap := if limit <= 0 then 12 else limit, if maxPerNote <= 0 then 2 else maxPerNote;
    var m0 := Add(map[], dense);
    assert 0 !in m0 by { assert AddedAt(map[], m0, dense, |dense|, 0); }
    var candidates := Add(m0, lexical);
    forall id ensures id in candidates ==> IsCandidate(dense, lexical, candidates[id]) && candidates[id].chunkId == id {
      FusedCandidate(dense, lexical, m0, candidates, id);
    }
    var ranked := Rank(candidates);
    forall c ensures c in ranked <==> IsCandidate(dense, lexical, c) {
      FusedCandidate(dense, lexical, m0, candidates, c.chunkId);
      if IsCandidate(dense, lexical, c) {
        CandidateIsUnique(dense, lexical, c, candidates[c.chunkId]);
      }
    }
    assert IsRanking(dense, lexical, ranked);
    out := Diversify(ranked, cap, n);
    forall r | IsRanking(dense, lexical, r)
      ensures IsBestSelection(r, out, cap, n) && out == Pick(r, Greedy(r, map[], cap, n))
    {
      SortedUnique(r, ranked);
      GreedySelection(dense, lexical, r, cap, n);
    }
    hide *;
    FusedScores(dense, lexical, ranked, out, cap, n);
    FusedOrder(dense, lexical, ranked, out, cap, n);
    FusedShares(dense, lexical, ranked, out, cap, n);
    FusedAlone(dense, lexical, ranked, out, cap, n);
  }
}
