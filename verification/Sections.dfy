/** The two decompositions the note editors rewrite the same text through: the
    parts between "---" delimiters and the lines between newlines. */
module Sections {
  import opened Text

  const SEP: string := "---"

  /** What a part before a delimiter looks like: the delimiter found is the
      leftmost, so no dash stands in front of it. */
  predicate Clean(p: string) {
    !Contains(p, SEP) && (p != "" ==> p[|p| - 1] != '-')
  }

  predicate AreParts(parts: seq<string>) {
    && |parts| >= 1
    && (forall i :: 0 <= i < |parts| - 1 ==> Clean(parts[i]))
    && !Contains(parts[|parts| - 1], SEP)
  }

  lemma {:induction false} SplitFirst(p: string, r: string)
    requires Clean(p)
    ensures Split(p + SEP + r, SEP) == [p] + Split(r, SEP)
  {
    var s := p + SEP + r;
    if p == "" {
      assert s == SEP + r && s[|SEP|..] == r;
    } else {
      assert s[1..] == p[1..] + SEP + r && [s[0]] + p[1..] == p;
      SplitFirst(p[1..], r);
      Regroup(p, SEP, r);
      if SEP <= s { SepAcross(p, SEP + r); }
    }
  }

  lemma {:induction false} SplitNone(p: string)
    requires !Contains(p, SEP)
    ensures Split(p, SEP) == [p]
  {
    if p != "" {
      SplitNone(p[1..]);
      assert p == [p[0]] + p[1..];
    }
  }

  lemma SplitHead(s: string, rest: seq<string>)
    requires s != "" && |rest| >= 1 && Join(rest, SEP) == s[1..]
    ensures [s[0]] + rest[0] <= s
    ensures |rest| > 1 && rest[0] == "" && s[0] == '-' ==> SEP <= s
  {
    assert s == [s[0]] + s[1..];
    if |rest| > 1 {
      var tail := Join(rest[1..], SEP);
      Regroup(rest[0], SEP, tail);
      Regroup([s[0]], rest[0], SEP + tail);
      hide Join;
      assert rest[0] == "" ==> s == [s[0]] + SEP + tail;
    }
  }

  lemma PartsHead(rest: seq<string>, head: string)
    requires AreParts(rest) && !Contains(head, SEP) && (|rest| > 1 ==> Clean(head))
    ensures AreParts([head] + rest[1..])
  {
    hide Contains;
    assert forall i :: 1 <= i < |rest| ==> ([head] + rest[1..])[i] == rest[i];
  }

  lemma HeadClean(c: char, p: string)
    requires !Contains(p, SEP) && !(SEP <= [c] + p)
    ensures !Contains([c] + p, SEP)
    ensures Clean(p) && (p != "" || c != '-') ==> Clean([c] + p)
  {
    assert ([c] + p)[1..] == p;
  }

  lemma SplitStep(s: string)
    requires s != "" && !(SEP <= s) && AreParts(Split(s[1..], SEP))
    ensures AreParts(Split(s, SEP))
  {
    var rest := Split(s[1..], SEP);
    var head := [s[0]] + rest[0];
    assert Split(s, SEP) == [head] + rest[1..];
    SplitJoined(s[1..], SEP);
    SplitHead(s, rest);
    assert !(SEP <= head) && !Contains(rest[0], SEP);
    HeadClean(s[0], rest[0]);
    assert |rest| > 1 ==> Clean(rest[0]);
    hide Split, Join, Contains, Clean;
    PartsHead(rest, head);
  }

  /** The parts of a text are exactly the lists of delimiter-free parts that join to it. */
  lemma {:induction false} SplitShape(s: string)
    ensures AreParts(Split(s, SEP)) && Join(Split(s, SEP), SEP) == s
  {
    SplitJoined(s, SEP);
    if SEP <= s {
      SplitShape(s[|SEP|..]);
    } else if s != "" {
      SplitShape(s[1..]);
      SplitStep(s);
    }
  }

  lemma {:induction false} SplitOfJoin(parts: seq<string>)
    requires AreParts(parts)
    ensures Split(Join(parts, SEP), SEP) == parts
  {
    if |parts| == 1 {
      SplitNone(parts[0]);
    } else {
      SplitFirst(parts[0], Join(parts[1..], SEP));
      SplitOfJoin(parts[1..]);
    }
  }

  lemma PartReplaced(parts: seq<string>, k: nat, p: string)
    requires AreParts(parts) && k + 1 < |parts| && Clean(p)
    ensures AreParts(parts[k := p]) && Split(Join(parts[k := p], SEP), SEP) == parts[k := p]
  {
    SplitOfJoin(parts[k := p]);
  }

  /** The text around part `k`. */
  function Before(parts: seq<string>, k: nat): string
    requires k <= |parts|
  {
    if k == 0 then "" else parts[0] + SEP + Before(parts[1..], k - 1)
  }

  lemma {:induction false} JoinAround(parts: seq<string>, k: nat)
    requires k < |parts|
    ensures Join(parts, SEP) == Before(parts, k) + Join(parts[k..], SEP)
  {
    if k == 0 {
      assert parts[0..] == parts;
    } else {
      JoinAround(parts[1..], k - 1);
      assert parts[1..][k - 1..] == parts[k..];
    }
  }

  lemma PartsTail(parts: seq<string>)
    requires AreParts(parts) && |parts| > 1
    ensures Clean(parts[0]) && AreParts(parts[1..])
  {
    assert forall i :: 0 <= i < |parts| - 2 ==> parts[1..][i] == parts[i + 1];
  }

  lemma {:induction false} SplitAround(parts: seq<string>, k: nat, x: string)
    requires AreParts(parts) && k < |parts|
    ensures Split(Before(parts, k) + x, SEP) == parts[..k] + Split(x, SEP)
  {
    if k == 0 {
      assert Before(parts, k) + x == x;
    } else {
      PartsTail(parts);
      var tail := Before(parts[1..], k - 1) + x;
      var front, behind := parts[1..][..k - 1], Split(x, SEP);
      assert Before(parts, k) == parts[0] + SEP + Before(parts[1..], k - 1) && parts[..k] == [parts[0]] + front;
      SplitFirst(parts[0], tail);
      SplitAround(parts[1..], k - 1, x);
      hide *;
      Regroup(parts[0] + SEP, Before(parts[1..], k - 1), x);
      Regroup([parts[0]], front, behind);
    }
  }

  lemma {:induction false} BeforeSame(parts: seq<string>, other: seq<string>, k: nat)
    requires k <= |parts| && k <= |other| && parts[..k] == other[..k]
    ensures Before(parts, k) == Before(other, k)
  {
    if k > 0 {
      assert parts[0] == parts[..k][0] == other[..k][0];
      assert parts[1..][..k - 1] == parts[..k][1..] == other[..k][1..] == other[1..][..k - 1];
      BeforeSame(parts[1..], other[1..], k - 1);
    }
  }

  // ------------------------------------------------------------------ gluing

  /** The lines of a concatenation: the last of the one continues with the first
      of the other. */
  function Glue(x: seq<string>, y: seq<string>): (z: seq<string>)
    requires |x| >= 1 && |y| >= 1
    ensures |z| == |x| + |y| - 1
  {
    x[..|x| - 1] + [x[|x| - 1] + y[0]] + y[1..]
  }

  lemma {:induction false} LinesGlue(a: string, b: string)
    ensures Lines(a + b) == Glue(Lines(a), Lines(b))
  {
    if a == "" {
      assert a + b == b;
      assert "" + Lines(b)[0] == Lines(b)[0];
      assert Glue([""], Lines(b)) == Lines(b);
    } else {
      assert (a + b)[1..] == a[1..] + b && (a + b)[0] == a[0];
      LinesGlue(a[1..], b);
      GlueFront(a[0], Lines(a[1..]), Lines(b));
    }
  }

  lemma GlueFront(c: char, x: seq<string>, y: seq<string>)
    requires |x| >= 1 && |y| >= 1
    ensures Glue([""] + x, y) == [""] + Glue(x, y)
    ensures Glue([[c] + x[0]] + x[1..], y) == [[c] + Glue(x, y)[0]] + Glue(x, y)[1..]
  {
    if |x| == 1 {
      assert [c] + x[0] + y[0] == [c] + (x[0] + y[0]);
    }
  }

  /** strings.Count(s, "\n") */
  function Newlines(s: string): nat {
    if s == "" then 0 else (if s[0] == '\n' then 1 else 0) + Newlines(s[1..])
  }

  lemma {:induction false} LinesCounted(s: string)
    ensures |Lines(s)| == Newlines(s) + 1
  {
    if s != "" {
      LinesCounted(s[1..]);
    }
  }

  // ----------------------------------------------------- delimiters and lines

  /** Where a delimiter can begin around a joint. */
  lemma SepAcross(x: string, y: string)
    requires SEP <= x + y
    ensures SEP <= x || x == "" || (x[|x| - 1] == '-' && y != "" && y[0] == '-')
  {
    var s := x + y;
    assert s[0] == '-' && s[1] == '-' && s[2] == '-';
    assert |x| >= 3 ==> SEP <= x;
    if 0 < |x| < 3 { assert s[|x| - 1] == x[|x| - 1] && s[|x|] == y[0]; }
  }

  /** No delimiter across a joint that is not between dashes. */
  lemma {:induction false} NoSepAcross(x: string, y: string)
    requires !Contains(x, SEP) && !Contains(y, SEP)
    requires x == "" || y == "" || x[|x| - 1] != '-' || y[0] != '-'
    ensures !Contains(x + y, SEP)
  {
    if x == "" {
      assert x + y == y;
    } else {
      assert (x + y)[1..] == x[1..] + y;
      NoSepAcross(x[1..], y);
      if SEP <= x + y { SepAcross(x, y); }
    }
  }

  lemma SepDashes(s: string)
    ensures SEP <= s ==> |s| >= 3 && s[0] == '-' && s[1] == '-' && s[2] == '-'
  {
  }

  lemma {:induction false} NoThreeDashes(s: string)
    requires forall i :: 0 <= i < |s| - 2 ==> s[i] != '-' || s[i + 1] != '-' || s[i + 2] != '-'
    ensures !Contains(s, SEP)
  {
    if s != "" {
      NoThreeDashes(s[1..]);
      SepDashes(s);
    }
  }

  lemma NoDash(s: string)
    requires '-' !in s
    ensures !Contains(s, SEP)
  {
    assert forall i :: 0 <= i < |s| ==> s[i] != '-';
    NoThreeDashes(s);
  }

  lemma {:induction false} JoinHasNoSep(lines: seq<string>)
    requires forall k :: 0 <= k < |lines| ==> !Contains(lines[k], SEP)
    ensures !Contains(Join(lines, NL), SEP)
  {
    if |lines| > 1 {
      JoinHasNoSep(lines[1..]);
      assert !Contains(NL, SEP) by { assert NL[1..] == ""; }
      NoSepAcross(lines[0], NL);
      NoSepAcross(lines[0] + NL, Join(lines[1..], NL));
    }
  }

  lemma {:induction false} JoinEnd(lines: seq<string>)
    requires |lines| >= 1
    ensures var s, last := Join(lines, NL), lines[|lines| - 1];
      if last != "" then s != "" && s[|s| - 1] == last[|last| - 1]
      else if |lines| > 1 then s != "" && s[|s| - 1] == '\n'
      else s == ""
  {
    if |lines| > 1 {
      JoinEnd(lines[1..]);
    }
  }

  /** A section is clean exactly when its lines hold no delimiter and its last
      line does not end in a dash. */
  lemma CleanLines(lines: seq<string>)
    requires |lines| >= 1
    requires forall k :: 0 <= k < |lines| ==> !Contains(lines[k], SEP)
    requires lines[|lines| - 1] != "" ==> lines[|lines| - 1][|lines[|lines| - 1]| - 1] != '-'
    ensures Clean(Join(lines, NL))
  {
    JoinHasNoSep(lines);
    JoinEnd(lines);
  }

  lemma LinesOfClean(p: string)
    requires Clean(p)
    ensures var ls := Lines(p);
      && (forall k :: 0 <= k < |ls| ==> !Contains(ls[k], SEP) && IsLine(ls[k]))
      && (ls[|ls| - 1] != "" ==> ls[|ls| - 1][|ls[|ls| - 1]| - 1] != '-')
  {
    LinesJoined(p);
    JoinEnd(Lines(p));
    forall k | 0 <= k < |Lines(p)| ensures !Contains(Lines(p)[k], SEP) {
      if Contains(Lines(p)[k], SEP) { LineContains(p, k, SEP); }
    }
  }

  predicate PlainLines(lines: seq<string>) {
    forall i :: 0 <= i < |lines| ==> IsLine(lines[i]) && !Contains(lines[i], SEP)
  }

  predicate PlainEnd(lines: seq<string>) {
    lines != [] && lines[|lines| - 1] != "" ==> lines[|lines| - 1][|lines[|lines| - 1]| - 1] != '-'
  }

  /** A list as a whole: its lines are plain, and it does not end in a dash. */
  predicate Sound(lines: seq<string>) {
    PlainLines(lines) && PlainEnd(lines)
  }

  lemma PlainConcat(a: seq<string>, b: seq<string>)
    requires PlainLines(a) && PlainLines(b) && PlainEnd(b) && (b == [] ==> PlainEnd(a))
    ensures Sound(a + b)
  {
    assert b == [] ==> a + b == a;
  }

  lemma SoundJoin(lines: seq<string>)
    requires |lines| >= 1 && Sound(lines)
    ensures Lines(Join(lines, NL)) == lines && Clean(Join(lines, NL))
  {
    LinesOfJoin(lines);
    CleanLines(lines);
  }

  lemma SoundClean(p: string)
    requires Clean(p)
    ensures Sound(Lines(p))
  {
    LinesOfClean(p);
  }
}
