/** Which backups a prune keeps, and what repeated pruning keeps
    (scripts/notes_backup.py). */
module Retention {
  import Text
  import opened Calendar

  /** A backup: when it was taken (in seconds), and its file name. */
  datatype Backup = Backup(time: int, name: nat)

  /** A retention rule: the newest backup of each of the newest `limit` buckets. */
  datatype Rule = Rule(key: Backup -> int, limit: nat)

  const DAY: int := 86400

  /** The order of the sort: by time, then by path. */
  predicate Newer(a: Backup, b: Backup) {
    a.time > b.time || (a.time == b.time && a.name > b.name)
  }

  predicate Sorted(xs: seq<Backup>) {
    forall i, j :: 0 <= i < j < |xs| ==> Newer(xs[i], xs[j])
  }

  /** What one rule keeps of a newest-first list, with some buckets already seen. */
  function Kept(xs: seq<Backup>, rule: Rule, seen: set<int>): set<Backup> {
    if |xs| == 0 then {}
    else
      var b := rule.key(xs[0]);
      if b !in seen && |seen| < rule.limit then {xs[0]} + Kept(xs[1..], rule, seen + {b})
      else Kept(xs[1..], rule, seen)
  }

  function Recent(xs: seq<Backup>, now: int): set<Backup> {
    set x <- xs | now - x.time <= 2 * DAY
  }

  function KeptByAny(xs: seq<Backup>, rules: seq<Rule>): set<Backup> {
    if |rules| == 0 then {} else Kept(xs, rules[0], {}) + KeptByAny(xs, rules[1..])
  }

  /** The backups kept of a newest-first list, newest first. */
  function Retained(xs: seq<Backup>, rules: seq<Rule>, now: int): seq<Backup> {
    Filter(xs, Recent(xs, now) + KeptByAny(xs, rules))
  }

  function Filter(xs: seq<Backup>, keep: set<Backup>): seq<Backup> {
    if |xs| == 0 then [] else (if xs[0] in keep then [xs[0]] else []) + Filter(xs[1..], keep)
  }

  // ------------------------------------------------------ calendar buckets

  /** date(), isocalendar()[:2] and (year, month). An ISO week is named here by
      its number, counted in whole weeks from Monday. */
  const Daily: Rule := Rule((b: Backup) => b.time / DAY, 7)
  const Weekly: Rule := Rule((b: Backup) => (b.time / DAY + 5) / 7, 4)
  const Monthly: Rule := Rule((b: Backup) => DateOf(b.time / DAY).year * 12 + DateOf(b.time / DAY).month, 12)

  const RULES: seq<Rule> := [Daily, Weekly, Monthly]

  // ----------------------------------------------------------------- filters

  lemma {:induction false} FilterIn(xs: seq<Backup>, keep: set<Backup>)
    ensures forall x :: x in Filter(xs, keep) <==> x in xs && x in keep
  {
    if |xs| > 0 {
      FilterIn(xs[1..], keep);
      assert xs == [xs[0]] + xs[1..];
    }
  }

  lemma {:induction false} FilterConcat(xs: seq<Backup>, ys: seq<Backup>, keep: set<Backup>)
    ensures Filter(xs + ys, keep) == Filter(xs, keep) + Filter(ys, keep)
  {
    if |xs| == 0 {
      assert xs + ys == ys;
    } else {
      var head := if xs[0] in keep then [xs[0]] else [];
      assert (xs + ys)[0] == xs[0] && (xs + ys)[1..] == xs[1..] + ys;
      FilterConcat(xs[1..], ys, keep);
      assert Filter(xs + ys, keep) == head + Filter(xs[1..] + ys, keep) && Filter(xs, keep) == head + Filter(xs[1..], keep);
      hide Filter;
      Text.Regroup(head, Filter(xs[1..], keep), Filter(ys, keep));
    }
  }

  lemma {:induction false} FilterTwice(xs: seq<Backup>, first: set<Backup>, second: set<Backup>)
    requires forall x <- xs :: x in second ==> x in first
    ensures Filter(Filter(xs, first), second) == Filter(xs, second)
  {
    if |xs| > 0 {
      FilterTwice(xs[1..], first, second);
      if xs[0] in first {
        assert Filter(xs, first)[1..] == Filter(xs[1..], first);
      } else {
        assert Filter(xs, first) == Filter(xs[1..], first);
      }
    }
  }

  lemma {:induction false} FilterAgree(xs: seq<Backup>, a: set<Backup>, b: set<Backup>)
    requires forall x <- xs :: x in a <==> x in b
    ensures Filter(xs, a) == Filter(xs, b)
  {
    if |xs| > 0 {
      FilterAgree(xs[1..], a, b);
    }
  }

  // ---------------------------------------------------------------- one rule

  lemma {:induction false} KeptIn(xs: seq<Backup>, rule: Rule, seen: set<int>)
    ensures forall x <- Kept(xs, rule, seen) :: x in xs
  {
    if |xs| > 0 {
      var b := rule.key(xs[0]);
      KeptIn(xs[1..], rule, if b !in seen && |seen| < rule.limit then seen + {b} else seen);
      assert forall x <- xs[1..] :: x in xs;
    }
  }

  lemma {:induction false} FullKeepsNothing(xs: seq<Backup>, rule: Rule, seen: set<int>)
    requires |seen| >= rule.limit
    ensures Kept(xs, rule, seen) == {}
  {
    if |xs| > 0 {
      FullKeepsNothing(xs[1..], rule, seen);
    }
  }

  lemma CardinalitySubset(a: set<int>, b: set<int>)
    requires a <= b
    ensures |a| <= |b|
  {
    assert b == a + (b - a);
  }

  /** A rule keeps the same of a list as of that list already pruned, provided
      the pruning kept at least what the rule keeps of it alone. */
  lemma {:induction false} KeptOfPruned(xs: seq<Backup>, keep: set<Backup>, rule: Rule, alone: set<int>, seen: set<int>)
    requires alone <= seen && Kept(xs, rule, alone) <= keep
    ensures Kept(Filter(xs, keep), rule, seen) == Kept(xs, rule, seen)
  {
    if |xs| > 0 {
      CardinalitySubset(alone, seen);
      var x, b := xs[0], rule.key(xs[0]);
      if |seen| >= rule.limit {
        FullKeepsNothing(xs, rule, seen);
        FullKeepsNothing(Filter(xs, keep), rule, seen);
      } else {
        var alone' := if b !in alone && |alone| < rule.limit then alone + {b} else alone;
        var seen' := if b !in seen then seen + {b} else seen;
        assert alone' <= seen';
        KeptOfPruned(xs[1..], keep, rule, alone', seen');
        if x in keep {
          assert Filter(xs, keep)[1..] == Filter(xs[1..], keep);
        } else {
          assert Filter(xs, keep) == Filter(xs[1..], keep);
        }
      }
    }
  }

  function SeenAfter(xs: seq<Backup>, rule: Rule, seen: set<int>): (after: set<int>)
    ensures seen <= after
  {
    if |xs| == 0 then seen
    else
      var b := rule.key(xs[0]);
      SeenAfter(xs[1..], rule, if b !in seen && |seen| < rule.limit then seen + {b} else seen)
  }

  lemma {:induction false} KeptConcat(xs: seq<Backup>, ys: seq<Backup>, rule: Rule, seen: set<int>)
    ensures Kept(xs + ys, rule, seen) == Kept(xs, rule, seen) + Kept(ys, rule, SeenAfter(xs, rule, seen))
  {
    if |xs| == 0 {
      assert xs + ys == ys;
    } else {
      assert (xs + ys)[1..] == xs[1..] + ys;
      var b := rule.key(xs[0]);
      KeptConcat(xs[1..], ys, rule, if b !in seen && |seen| < rule.limit then seen + {b} else seen);
    }
  }

  lemma {:induction false} AnyOfPruned(prior: seq<Backup>, newer: seq<Backup>, keep: set<Backup>, rules: seq<Rule>)
    requires KeptByAny(prior, rules) <= keep
    ensures KeptByAny(newer + Filter(prior, keep), rules) == KeptByAny(newer + prior, rules)
  {
    if |rules| > 0 {
      var rule := rules[0];
      KeptConcat(newer, prior, rule, {});
      KeptConcat(newer, Filter(prior, keep), rule, {});
      KeptOfPruned(prior, keep, rule, {}, SeenAfter(newer, rule, {}));
      AnyOfPruned(prior, newer, keep, rules[1..]);
    }
  }

  lemma {:induction false} AnyOlder(prior: seq<Backup>, newer: seq<Backup>, rules: seq<Rule>)
    ensures forall x <- KeptByAny(newer + prior, rules) :: x in newer || x in KeptByAny(prior, rules)
  {
    if |rules| > 0 {
      AnyOlder(prior, newer, rules[1..]);
      KeptConcat(newer, prior, rules[0], {});
      KeptIn(newer, rules[0], {});
      KeptMonotone(prior, rules[0], {}, SeenAfter(newer, rules[0], {}));
    }
  }

  /** Having seen more buckets, a rule keeps less. */
  lemma {:induction false} KeptMonotone(xs: seq<Backup>, rule: Rule, a: set<int>, b: set<int>)
    requires a <= b
    ensures Kept(xs, rule, b) <= Kept(xs, rule, a)
  {
    if |xs| > 0 {
      CardinalitySubset(a, b);
      var k := rule.key(xs[0]);
      if |b| >= rule.limit {
        FullKeepsNothing(xs, rule, b);
      } else {
        KeptMonotone(xs[1..], rule, if k !in a && |a| < rule.limit then a + {k} else a, if k !in b then b + {k} else b);
      }
    }
  }

  // --------------------------------------------------------------- theorems

  function Wanted(xs: seq<Backup>, rules: seq<Rule>, now: int): set<Backup> {
    Recent(xs, now) + KeptByAny(xs, rules)
  }

  /** Pruning now and again later keeps exactly what one prune later would have
      kept, for any rules and also if the first prune was cut short: whatever it
      removed would be gone by then as well. */
  lemma IncrementalPruning(prior: seq<Backup>, newer: seq<Backup>, keep: set<Backup>, rules: seq<Rule>, t1: int, t2: int)
    requires t1 <= t2 && Sorted(newer + prior) && Wanted(prior, rules, t1) <= keep
    ensures Retained(newer + Filter(prior, keep), rules, t2) == Retained(newer + prior, rules, t2)
  {
    var pruned := Filter(prior, keep);
    AnyOfPruned(prior, newer, keep, rules);
    AnyOlder(prior, newer, rules);
    FilterIn(prior, keep);
    var kept, keptPruned := Wanted(newer + prior, rules, t2), Wanted(newer + pruned, rules, t2);
    Disjoint(newer, prior);
    FilterConcat(newer, prior, kept);
    FilterConcat(newer, pruned, keptPruned);
    FilterAgree(newer, kept, keptPruned);
    FilterAgree(pruned, kept, keptPruned);
    FilterTwice(prior, keep, kept);
  }

  lemma Disjoint(newer: seq<Backup>, prior: seq<Backup>)
    requires Sorted(newer + prior)
    ensures forall x <- prior :: x !in newer
  {
    var all := newer + prior;
    forall i, j | 0 <= i < |newer| && 0 <= j < |prior| ensures newer[i] != prior[j] {
      assert Newer(all[i], all[|newer| + j]);
    }
  }

  lemma PruningIsIdempotent(xs: seq<Backup>, rules: seq<Rule>, now: int)
    requires Sorted(xs)
    ensures Retained(Retained(xs, rules, now), rules, now) == Retained(xs, rules, now)
  {
    assert [] + Retained(xs, rules, now) == Retained(xs, rules, now) && [] + xs == xs;
    IncrementalPruning(xs, [], Wanted(xs, rules, now), rules, now, now);
  }

  // -------------------------------------------------------------------- runs

  /** A pull adds a backup newer than every one before; a prune at some time
      removes some of what is not wanted then, all of it unless cut short. */
  datatype Event = Pulled(b: Backup) | Pruned(now: int, keep: set<Backup>)

  /** The backups ever pulled, newest first. */
  function Ever(events: seq<Event>): seq<Backup> {
    if |events| == 0 then []
    else
      var before := Ever(events[..|events| - 1]);
      match events[|events| - 1] { case Pulled(b) => [b] + before case Pruned(_, _) => before }
  }

  /** The backups on disk, newest first. */
  function Disk(events: seq<Event>): seq<Backup> {
    if |events| == 0 then []
    else
      var before := Disk(events[..|events| - 1]);
      match events[|events| - 1] { case Pulled(b) => [b] + before case Pruned(_, keep) => Filter(before, keep) }
  }

  predicate History(events: seq<Event>, rules: seq<Rule>, until: int) {
    |events| == 0 ||
    (var last := events[|events| - 1];
     var before := events[..|events| - 1];
     match last
     case Pulled(b) => History(before, rules, until) && Sorted([b] + Ever(before))
     case Pruned(now, keep) => now <= until && History(before, rules, now) && Wanted(Disk(before), rules, now) <= keep)
  }

  lemma {:induction false} EverSorted(events: seq<Event>, rules: seq<Rule>, until: int)
    requires History(events, rules, until)
    ensures Sorted(Ever(events)) && forall x <- Disk(events) :: x in Ever(events)
  {
    if |events| > 0 {
      var before := events[..|events| - 1];
      EverSorted(before, rules, if events[|events| - 1].Pruned? then events[|events| - 1].now else until);
      if events[|events| - 1].Pruned? {
        FilterIn(Disk(before), events[|events| - 1].keep);
      }
    }
  }

  /** Whatever was pulled and pruned before, also by prunes cut short, a prune
      now leaves what it would leave of all the backups ever pulled. */
  lemma {:induction false} PruningHistory(events: seq<Event>, newer: seq<Backup>, rules: seq<Rule>, now: int)
    requires History(events, rules, now) && Sorted(newer + Ever(events))
    ensures Retained(newer + Disk(events), rules, now) == Retained(newer + Ever(events), rules, now)
    decreases |events|
  {
    if |events| > 0 {
      var last, before := events[|events| - 1], events[..|events| - 1];
      match last {
        case Pulled(b) =>
          assert newer + ([b] + Ever(before)) == newer + [b] + Ever(before);
          assert newer + ([b] + Disk(before)) == newer + [b] + Disk(before);
          PruningHistory(before, newer + [b], rules, now);
        case Pruned(earlier, keep) =>
          HistoryLater(before, rules, earlier, now);
          PruningHistory(before, newer, rules, now);
          DiskSorted(before, newer, rules, now);
          IncrementalPruning(Disk(before), newer, keep, rules, earlier, now);
      }
    }
  }

  lemma {:induction false} HistoryLater(events: seq<Event>, rules: seq<Rule>, a: int, b: int)
    requires History(events, rules, a) && a <= b
    ensures History(events, rules, b)
    decreases |events|
  {
    if |events| > 0 && events[|events| - 1].Pulled? {
      HistoryLater(events[..|events| - 1], rules, a, b);
    }
  }

  /** The disk is a sub-list of what was ever pulled. */
  predicate Sublist(xs: seq<Backup>, ys: seq<Backup>) {
    if |ys| == 0 then |xs| == 0
    else Sublist(xs, ys[1..]) || (|xs| > 0 && xs[0] == ys[0] && Sublist(xs[1..], ys[1..]))
  }

  lemma {:induction false} FilterSublist(xs: seq<Backup>, ys: seq<Backup>, keep: set<Backup>)
    requires Sublist(xs, ys)
    ensures Sublist(Filter(xs, keep), ys)
    decreases ys
  {
    if |ys| > 0 {
      if Sublist(xs, ys[1..]) {
        FilterSublist(xs, ys[1..], keep);
      } else {
        FilterSublist(xs[1..], ys[1..], keep);
        if xs[0] in keep {
          assert Filter(xs, keep)[1..] == Filter(xs[1..], keep);
        } else {
          assert Filter(xs, keep) == Filter(xs[1..], keep);
        }
      }
    }
  }

  lemma {:induction false} DiskSublist(events: seq<Event>)
    ensures Sublist(Disk(events), Ever(events))
    decreases |events|
  {
    if |events| > 0 {
      var last, before := events[|events| - 1], events[..|events| - 1];
      DiskSublist(before);
      match last {
        case Pulled(b) =>
          assert ([b] + Disk(before))[1..] == Disk(before) && ([b] + Ever(before))[1..] == Ever(before);
        case Pruned(_, keep) => FilterSublist(Disk(before), Ever(before), keep);
      }
    }
  }

  lemma {:induction false} SublistSorted(xs: seq<Backup>, ys: seq<Backup>)
    requires Sublist(xs, ys) && Sorted(ys)
    ensures Sorted(xs) && forall x <- xs :: x in ys
    decreases ys
  {
    if |ys| > 0 {
      if Sublist(xs, ys[1..]) {
        SublistSorted(xs, ys[1..]);
      } else {
        SublistSorted(xs[1..], ys[1..]);
        assert forall x <- xs[1..] :: Newer(ys[0], x);
        assert xs == [xs[0]] + xs[1..];
      }
    }
  }

  lemma DiskSorted(events: seq<Event>, newer: seq<Backup>, rules: seq<Rule>, until: int)
    requires Sorted(newer + Ever(events))
    ensures Sorted(newer + Disk(events))
  {
    DiskSublist(events);
    var all, disk := newer + Ever(events), newer + Disk(events);
    forall i, j | 0 <= i < j < |Ever(events)| ensures Newer(Ever(events)[i], Ever(events)[j]) {
      assert Newer(all[|newer| + i], all[|newer| + j]);
    }
    SublistSorted(Disk(events), Ever(events));
    forall i, j | 0 <= i < j < |disk| ensures Newer(disk[i], disk[j]) {
      if j < |newer| {
        assert Newer(all[i], all[j]);
      } else if i < |newer| {
        assert disk[j] == Disk(events)[j - |newer|] && disk[j] in Disk(events);
        var k :| 0 <= k < |Ever(events)| && Ever(events)[k] == disk[j];
        assert Newer(all[i], all[|newer| + k]);
      }
    }
  }

  /** After any history of pulls and prunes, pruning leaves on disk exactly what
      one prune of all backups ever pulled would keep. */
  lemma DiskAfterPrune(events: seq<Event>, rules: seq<Rule>, now: int)
    requires History(events, rules, now)
    ensures Retained(Disk(events), rules, now) == Retained(Ever(events), rules, now)
  {
    EverSorted(events, rules, now);
    assert [] + Disk(events) == Disk(events) && [] + Ever(events) == Ever(events);
    PruningHistory(events, [], rules, now);
  }

  // ------------------------------------------------------------- the function

  method SortNewestFirst(paths: set<Backup>) returns (dated: seq<Backup>)
    ensures Sorted(dated) && forall b :: b in dated <==> b in paths
  {
    dated := [];
    var rest := paths;
    while rest != {}
      invariant rest <= paths && Sorted(dated) && forall b :: b in dated <==> b in paths && b !in rest
      decreases rest
    {
      var b :| b in rest;
      rest := rest - {b};
      var i := 0;
      while i < |dated| && Newer(dated[i], b)
        invariant 0 <= i <= |dated| && forall k :: 0 <= k < i ==> Newer(dated[k], b)
      {
        i := i + 1;
      }
      assert i < |dated| ==> Newer(b, dated[i]);
      assert dated == dated[..i] + dated[i..];
      dated := dated[..i] + [b] + dated[i..];
    }
  }

  lemma KeptStep(xs: seq<Backup>, i: nat, rule: Rule)
    requires i < |xs|
    ensures var seen := SeenAfter(xs[..i], rule, {});
      var b := rule.key(xs[i]);
      var take := b !in seen && |seen| < rule.limit;
      && SeenAfter(xs[..i + 1], rule, {}) == (if take then seen + {b} else seen)
      && Kept(xs[..i + 1], rule, {}) == Kept(xs[..i], rule, {}) + (if take then {xs[i]} else {})
  {
    assert xs[..i + 1] == xs[..i] + [xs[i]];
    KeptConcat(xs[..i], [xs[i]], rule, {});
    SeenConcat(xs[..i], [xs[i]], rule, {});
  }

  lemma {:induction false} SeenConcat(xs: seq<Backup>, ys: seq<Backup>, rule: Rule, seen: set<int>)
    ensures SeenAfter(xs + ys, rule, seen) == SeenAfter(ys, rule, SeenAfter(xs, rule, seen))
  {
    if |xs| == 0 {
      assert xs + ys == ys;
    } else {
      assert (xs + ys)[1..] == xs[1..] + ys;
      var b := rule.key(xs[0]);
      SeenConcat(xs[1..], ys, rule, if b !in seen && |seen| < rule.limit then seen + {b} else seen);
    }
  }

  method KeepByRule(dated: seq<Backup>, rule: Rule) returns (keep: set<Backup>)
    ensures keep == Kept(dated, rule, {})
  {
    var seen: set<int> := {};
    keep := {};
    for i := 0 to |dated|
      invariant seen == SeenAfter(dated[..i], rule, {}) && keep == Kept(dated[..i], rule, {})
    {
      KeptStep(dated, i, rule);
      var bucket := rule.key(dated[i]);
      if bucket !in seen && |seen| < rule.limit {
        keep := keep + {dated[i]};
        seen := seen + {bucket};
      }
    }
    assert dated[..|dated|] == dated;
  }

  lemma NoRulesLeft(xs: seq<Backup>, rules: seq<Rule>)
    ensures KeptByAny(xs, rules[|rules|..]) == {}
  {
  }

  lemma KeptByAnyStep(xs: seq<Backup>, rules: seq<Rule>, r: nat)
    requires r < |rules|
    ensures KeptByAny(xs, rules[r..]) == Kept(xs, rules[r], {}) + KeptByAny(xs, rules[r + 1..])
    ensures forall b <- Kept(xs, rules[r], {}) :: b in xs
  {
    KeptIn(xs, rules[r], {});
    assert rules[r..][0] == rules[r] && rules[r..][1..] == rules[r + 1..];
  }

  /** retained: of the files in a directory, in any order. */
  method Retain(paths: set<Backup>, now: int) returns (keep: set<Backup>, ghost dated: seq<Backup>)
    ensures Sorted(dated) && forall b :: b in dated <==> b in paths
    ensures forall b :: b in keep <==> b in Retained(dated, RULES, now)
    ensures forall b :: b in keep <==> b in paths && KeptByCalendar(paths, b, now)
  {
    var sorted := SortNewestFirst(paths);
    dated := sorted;
    keep := set b <- sorted | now - b.time <= 2 * DAY;
    assert RULES[0..] == RULES;
    assert keep + KeptByAny(sorted, RULES[0..]) == Wanted(sorted, RULES, now);
    hide KeptByAny, Kept, Wanted, Recent, Sorted;
    for r := 0 to |RULES|
      invariant keep + KeptByAny(sorted, RULES[r..]) == Wanted(sorted, RULES, now)
      invariant forall b <- keep :: b in sorted
    {
      var more := KeepByRule(sorted, RULES[r]);
      KeptByAnyStep(sorted, RULES, r);
      keep := keep + more;
    }
    NoRulesLeft(sorted, RULES);
    FilterIn(sorted, Wanted(sorted, RULES, now));
    hide *;
    forall b ensures b in Retained(sorted, RULES, now) <==> b in paths && KeptByCalendar(paths, b, now) {
      RetainedByCalendar(paths, sorted, now, b);
    }
  }

  /** The pruning loop of pull. */
  method Prune(paths: set<Backup>, now: int) returns (left: set<Backup>, ghost dated: seq<Backup>)
    ensures Sorted(dated) && forall b :: b in dated <==> b in paths
    ensures forall b :: b in left <==> b in Retained(dated, RULES, now)
    ensures forall b :: b in left <==> b in paths && KeptByCalendar(paths, b, now)
  {
    hide KeptByCalendar;
    var keep;
    keep, dated := Retain(paths, now);
    FilterIn(dated, Wanted(dated, RULES, now));
    left := paths;
    var rest := paths;
    while rest != {}
      invariant rest <= paths && forall b :: b in left <==> b in paths && (b in keep || b in rest)
      decreases rest
    {
      var path :| path in rest;
      rest := rest - {path};
      if path !in keep {
        left := left - {path};
      }
    }
  }

  // ------------------------------------------------------- what a rule keeps

  function Buckets(xs: seq<Backup>, rule: Rule): set<int> {
    set x <- xs :: rule.key(x)
  }

  lemma BucketsStep(xs: seq<Backup>, n: nat, rule: Rule)
    requires 0 < n <= |xs|
    ensures Buckets(xs[..n], rule) == Buckets(xs[..n - 1], rule) + {rule.key(xs[n - 1])}
  {
    assert xs[..n] == xs[..n - 1] + [xs[n - 1]];
  }

  predicate Counted(seen: set<int>, all: set<int>, limit: nat) {
    seen <= all && if |all| <= limit then seen == all else |seen| == limit
  }

  lemma CountStep(seen: set<int>, all: set<int>, b: int, limit: nat)
    requires Counted(seen, all, limit)
    ensures Counted(if b !in seen && |seen| < limit then seen + {b} else seen, all + {b}, limit)
  {
    CardinalitySubset(seen, all);
    if b in all { assert all + {b} == all; }
  }

  lemma {:induction false} SeenBuckets(xs: seq<Backup>, n: nat, rule: Rule)
    requires n <= |xs|
    ensures Counted(SeenAfter(xs[..n], rule, {}), Buckets(xs[..n], rule), rule.limit)
  {
    if n > 0 {
      SeenBuckets(xs, n - 1, rule);
      KeptStep(xs, n - 1, rule);
      var b := rule.key(xs[n - 1]);
      BucketsStep(xs, n, rule);
      CountStep(SeenAfter(xs[..n - 1], rule, {}), Buckets(xs[..n - 1], rule), b, rule.limit);
    }
  }

  /** A rule keeps a backup exactly when it is the newest of its bucket and fewer
      than `limit` buckets are newer. */
  lemma {:induction false} RuleKeepsNewest(xs: seq<Backup>, n: nat, i: nat, rule: Rule)
    requires Sorted(xs) && i < n <= |xs|
    ensures xs[i] in Kept(xs[..n], rule, {}) <==>
      (forall j :: 0 <= j < i ==> rule.key(xs[j]) != rule.key(xs[i])) && |Buckets(xs[..i], rule)| < rule.limit
  {
    KeptStep(xs, n - 1, rule);
    if i < n - 1 {
      RuleKeepsNewest(xs, n - 1, i, rule);
      assert Newer(xs[i], xs[n - 1]);
    } else {
      SeenBuckets(xs, i, rule);
      KeptIn(xs[..i], rule, {});
      NotEarlier(xs, i);
      InBuckets(xs, i, rule);
      hide Kept, SeenAfter, Buckets, Sorted;
    }
  }

  lemma NotEarlier(xs: seq<Backup>, i: nat)
    requires Sorted(xs) && i < |xs|
    ensures xs[i] !in xs[..i]
  {
    forall j | 0 <= j < i ensures xs[j] != xs[i] { assert Newer(xs[j], xs[i]); }
  }

  lemma InBuckets(xs: seq<Backup>, i: nat, rule: Rule)
    requires i < |xs|
    ensures rule.key(xs[i]) in Buckets(xs[..i], rule) <==> exists j :: 0 <= j < i && rule.key(xs[j]) == rule.key(xs[i])
  {
    assert forall j :: 0 <= j < i ==> xs[..i][j] == xs[j] && xs[j] in xs[..i];
  }

  // ------------------------------------------------------- what the rules keep

  /** The day a backup was taken. */
  function Day(b: Backup): Date {
    DateOf(b.time / 86_400)
  }

  /** The Monday of its week; 1 January 1970 was a Thursday. */
  function Monday(b: Backup): Date {
    var day := b.time / 86_400;
    DateOf(day - (day - Date(1970, 1, 1).Number() + 3) % 7)
  }

  function Month(b: Backup): (int, int) {
    (Day(b).year, Day(b).month)
  }

  function Of<K>(xs: set<Backup>, bucket: Backup -> K): set<K> {
    set x <- xs :: bucket(x)
  }

  function NewerThan(paths: set<Backup>, b: Backup): set<Backup> {
    set x <- paths | Newer(x, b)
  }

  /** The newest backup of its bucket, with fewer than `few` buckets newer. */
  ghost predicate NewestOfFew<K>(paths: set<Backup>, b: Backup, bucket: Backup -> K, few: nat) {
    && (forall x <- paths :: Newer(x, b) ==> bucket(x) != bucket(b))
    && |Of(NewerThan(paths, b), bucket)| < few
  }

  /** Kept are the backups of the last two days, the last one of each of the last 7 days
      that have any, of the last 4 weeks, and of the last 12 months. */
  ghost predicate KeptByCalendar(paths: set<Backup>, b: Backup, now: int) {
    || now - b.time <= 2 * 24 * 60 * 60
    || NewestOfFew(paths, b, Day, 7)
    || NewestOfFew(paths, b, Monday, 4)
    || NewestOfFew(paths, b, Month, 12)
  }

  /** Two ways to name buckets that tell the same backups apart name as many. */
  lemma {:induction false} SameSize<K, L>(xs: set<Backup>, f: Backup -> K, g: Backup -> L)
    requires forall x, y :: x in xs && y in xs ==> (f(x) == f(y) <==> g(x) == g(y))
    ensures |Of(xs, f)| == |Of(xs, g)|
    decreases xs
  {
    if xs == {} {
      assert Of(xs, f) == {} && Of(xs, g) == {};
    } else {
      var x :| x in xs;
      var rest := xs - {x};
      SameSize(rest, f, g);
      OneMore(xs, x, f);
      OneMore(xs, x, g);
      assert f(x) in Of(rest, f) <==> g(x) in Of(rest, g);
    }
  }

  lemma OneMore<K>(xs: set<Backup>, x: Backup, f: Backup -> K)
    requires x in xs
    ensures |Of(xs, f)| == |Of(xs - {x}, f)| + if f(x) in Of(xs - {x}, f) then 0 else 1
  {
    assert xs == (xs - {x}) + {x};
    assert Of(xs, f) == Of(xs - {x}, f) + {f(x)};
  }

  lemma SameDay(a: Backup, b: Backup)
    ensures Daily.key(a) == Daily.key(b) <==> Day(a) == Day(b)
  {
  }

  lemma MondayNumber(day: int)
    ensures day - (day - Date(1970, 1, 1).Number() + 3) % 7 == 7 * ((day + 5) / 7) - 5
  {
    DaysBeforeYearIs(1970);
    hide DaysBeforeYear;
    assert Date(1970, 1, 1).Number() == DaysBeforeYear(1970) == 719528;
    hide Date.Number;
    assert day - 719528 + 3 == (day + 5) - 7 * 102790;
  }

  lemma SameWeek(a: Backup, b: Backup)
    ensures Weekly.key(a) == Weekly.key(b) <==> Monday(a) == Monday(b)
  {
    MondayNumber(a.time / 86_400);
    MondayNumber(b.time / 86_400);
    hide Date.Number;
  }

  lemma SameMonth(a: Backup, b: Backup)
    ensures Monthly.key(a) == Monthly.key(b) <==> Month(a) == Month(b)
  {
    hide DateOf;
    assert Day(a).Valid() && Day(b).Valid();
  }

  /** A rule keeps the newest of a bucket while few buckets are newer, whatever the names
      of its buckets. */
  lemma RuleKeeps<K>(paths: set<Backup>, dated: seq<Backup>, i: nat, rule: Rule, bucket: Backup -> K)
    requires Sorted(dated) && (forall b :: b in dated <==> b in paths) && i < |dated|
    requires forall x, y :: rule.key(x) == rule.key(y) <==> bucket(x) == bucket(y)
    ensures dated[i] in Kept(dated, rule, {}) <==> NewestOfFew(paths, dated[i], bucket, rule.limit)
  {
    RuleKeepsNewest(dated, |dated|, i, rule);
    assert dated[..|dated|] == dated;
    NewerIs(paths, dated, i);
    var newer := NewerThan(paths, dated[i]);
    SameSize(newer, rule.key, bucket);
    assert Buckets(dated[..i], rule) == Of(newer, rule.key);
    assert forall x <- paths :: Newer(x, dated[i]) <==> x in newer;
    assert (forall j :: 0 <= j < i ==> rule.key(dated[j]) != rule.key(dated[i])) <==> (forall x <- newer :: bucket(x) != bucket(dated[i])) by {
      assert forall j :: 0 <= j < i ==> dated[j] == dated[..i][j] && dated[j] in newer;
      assert forall x <- newer :: exists j :: 0 <= j < i && dated[j] == x;
    }
  }

  /** Newer than an entry of the list are those in front of it. */
  lemma NewerIs(paths: set<Backup>, dated: seq<Backup>, i: nat)
    requires Sorted(dated) && (forall b :: b in dated <==> b in paths) && i < |dated|
    ensures forall x :: x in NewerThan(paths, dated[i]) <==> x in dated[..i]
  {
    forall x ensures x in NewerThan(paths, dated[i]) <==> x in dated[..i] {
      if x in NewerThan(paths, dated[i]) {
        var j :| 0 <= j < |dated| && dated[j] == x;
        assert !Newer(dated[i], x);
        assert j < i;
        assert dated[..i][j] == x;
      }
      if x in dated[..i] {
        var j :| 0 <= j < i && dated[..i][j] == x;
        assert dated[j] == x;
        assert x in dated;
      }
    }
  }

  lemma AnyOfRules(xs: seq<Backup>, x: Backup)
    ensures x in KeptByAny(xs, RULES) <==> x in Kept(xs, Daily, {}) || x in Kept(xs, Weekly, {}) || x in Kept(xs, Monthly, {})
  {
    hide Kept;
    KeptByAnyIs(xs, Daily, [Weekly, Monthly]);
    KeptByAnyIs(xs, Weekly, [Monthly]);
    KeptByAnyIs(xs, Monthly, []);
    assert RULES == [Daily] + [Weekly, Monthly] && [Weekly, Monthly] == [Weekly] + [Monthly] && [Monthly] == [Monthly] + [];
  }

  lemma KeptByAnyIs(xs: seq<Backup>, rule: Rule, rules: seq<Rule>)
    ensures KeptByAny(xs, [rule] + rules) == Kept(xs, rule, {}) + KeptByAny(xs, rules)
  {
    assert ([rule] + rules)[1..] == rules;
  }

  /** What the list kept of a directory is, by the calendar. */
  lemma RetainedByCalendar(paths: set<Backup>, dated: seq<Backup>, now: int, b: Backup)
    requires Sorted(dated) && forall x :: x in dated <==> x in paths
    ensures b in Retained(dated, RULES, now) <==> b in paths && KeptByCalendar(paths, b, now)
  {
    FilterIn(dated, Wanted(dated, RULES, now));
    if b in paths {
      var i :| 0 <= i < |dated| && dated[i] == b;
      AnyOfRules(dated, b);
      forall x, y ensures Daily.key(x) == Daily.key(y) <==> Day(x) == Day(y) { SameDay(x, y); }
      forall x, y ensures Weekly.key(x) == Weekly.key(y) <==> Monday(x) == Monday(y) { SameWeek(x, y); }
      forall x, y ensures Monthly.key(x) == Monthly.key(y) <==> Month(x) == Month(y) { SameMonth(x, y); }
      hide Kept, KeptByAny, Day, Monday, Month, NewestOfFew, DateOf;
      RuleKeeps(paths, dated, i, Daily, Day);
      RuleKeeps(paths, dated, i, Weekly, Monday);
      RuleKeeps(paths, dated, i, Monthly, Month);
    }
  }
}
