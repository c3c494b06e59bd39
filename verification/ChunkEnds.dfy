/** Chunks of a list of lines and of its end: when leaving out the first lines loses
    nothing, and when it makes no difference at all (search/chunker.go). */
module ChunkEnds {
  import opened Options
  import opened Text
  import opened Trim
  import opened Chunker
  import opened ChunkOrigins

  // ---------------------------------------------------- lines that hold nothing

  /** A line of which nothing is found in the chunks. */
  predicate Void(lines: seq<string>, i: int) {
    0 <= i < |lines| && (KindOf(lines[i]).Blank? || KindOf(lines[i]).Head? || Lone(lines, i))
  }

  lemma LoneIsPlain(lines: seq<string>, i: int)
    ensures Lone(lines, i) ==> KindOf(lines[i]).Plain?
  {
    assert Hashes("---") == 0;
  }

  lemma KeptVoid(lines: seq<string>, n: nat)
    requires Void(lines, n)
    ensures Kept(lines, n + 1) == Kept(lines, n)
  {
    LoneIsPlain(lines, n);
    if KindOf(lines[n]).Blank? { NotBlank(lines[n]); }
    hide KindOf, Ink, Lone, TrimSpace;
    KeptNothing(lines, n);
  }

  lemma KeptSome(lines: seq<string>, n: nat)
    requires n < |lines| && !Void(lines, n)
    ensures Kept(lines, n + 1) != ""
  {
    assert TrimSpace(lines[n]) != "";
    InkSome(lines[n]);
    hide KindOf, Ink, Lone, TrimSpace;
  }

  predicate AllVoid(lines: seq<string>, n: nat) {
    forall i :: 0 <= i < n ==> Void(lines, i)
  }

  lemma AllVoidStep(lines: seq<string>, n: nat)
    ensures AllVoid(lines, n + 1) <==> AllVoid(lines, n) && Void(lines, n)
  {
    hide Void;
  }

  lemma NoneKept(lines: seq<string>)
    ensures Kept(lines, 0) == "" && AllVoid(lines, 0)
  {
  }

  /** Nothing of the first lines is kept exactly when they are void one by one. */
  lemma {:induction false} KeptNoneExactly(lines: seq<string>, n: nat)
    requires n <= |lines|
    ensures Kept(lines, n) == "" <==> AllVoid(lines, n)
  {
    hide *;
    if n == 0 {
      NoneKept(lines);
    } else {
      KeptNoneExactly(lines, n - 1);
      AllVoidStep(lines, n - 1);
      if Void(lines, n - 1) {
        KeptVoid(lines, n - 1);
      } else {
        KeptSome(lines, n - 1);
      }
    }
  }

  lemma BlankIsVoid(lines: seq<string>, i: nat)
    requires i < |lines| && Trim.Blank(lines[i])
    ensures Void(lines, i) && !IsPlain(lines, i)
  {
    NotBlank(lines[i]);
  }

  lemma {:induction false} KeptBlanks(lines: seq<string>, b: nat, d: nat)
    requires b <= d <= |lines| && forall i :: b <= i < d ==> Trim.Blank(lines[i])
    ensures Kept(lines, d) == Kept(lines, b) && (b < d ==> !IsPlain(lines, d - 1))
  {
    hide *;
    if b < d {
      KeptBlanks(lines, b, d - 1);
      BlankIsVoid(lines, d - 1);
      KeptVoid(lines, d - 1);
    }
  }

  lemma VoidEnds(lines: seq<string>, b: nat)
    requires 0 < b && AllVoid(lines, b)
    ensures !(IsPlain(lines, b - 1) && IsPlain(lines, b))
  {
    assert Void(lines, b - 1);
    hide KindOf, TrimSpace;
  }

  // ----------------------------------------------- what the end of a list keeps

  /** What one line adds. */
  function Share(lines: seq<string>, n: nat): string
    requires n < |lines|
  {
    if KindOf(lines[n]).Head? || (KindOf(lines[n]).Plain? && Lone(lines, n)) then "" else Ink(lines[n])
  }

  lemma KeptStep(lines: seq<string>, n: nat)
    requires n < |lines|
    ensures Kept(lines, n + 1) == Kept(lines, n) + Share(lines, n)
  {
    hide KindOf, Ink, Lone;
  }

  lemma LoneBehind(lines: seq<string>, d: nat, i: nat)
    requires d <= |lines| && i < |lines| - d
    ensures Lone(lines, d + i) ==> Lone(lines[d..], i)
    ensures !(IsPlain(lines, d - 1) && IsPlain(lines, d)) ==> (Lone(lines, d + i) <==> Lone(lines[d..], i))
  {
    LoneIsPlain(lines, d + i);
    LoneIsPlain(lines[d..], i);
    hide KindOf, TrimSpace;
    assert lines[d..][i] == lines[d + i];
    assert IsPlain(lines[d..], i + 1) == IsPlain(lines, d + i + 1);
    assert i > 0 ==> IsPlain(lines[d..], i - 1) == IsPlain(lines, d + i - 1);
  }

  lemma ShareBehind(lines: seq<string>, d: nat, i: nat)
    requires d <= |lines| && i < |lines| - d
    ensures |Share(lines, d + i)| >= |Share(lines[d..], i)|
    ensures !(IsPlain(lines, d - 1) && IsPlain(lines, d)) ==> Share(lines, d + i) == Share(lines[d..], i)
  {
    LoneBehind(lines, d, i);
    hide KindOf, Ink, Lone, IsPlain;
    assert lines[d..][i] == lines[d + i];
  }

  lemma KeptNoLines(lines: seq<string>, before: string)
    ensures Kept(lines, 0) == "" && before + Kept(lines, 0) == before
  {
  }

  /** What a note keeps, its end on its own keeps too, or less: its first line may be
      three dashes that stand alone only there. */
  lemma {:induction false} KeptBehind(lines: seq<string>, d: nat, n: nat)
    requires d <= |lines| && n <= |lines| - d
    ensures |Kept(lines, d + n)| >= |Kept(lines, d)| + |Kept(lines[d..], n)|
    ensures !(IsPlain(lines, d - 1) && IsPlain(lines, d)) ==> Kept(lines, d + n) == Kept(lines, d) + Kept(lines[d..], n)
  {
    hide *;
    if n == 0 {
      KeptNoLines(lines[d..], Kept(lines, d));
    } else {
      KeptBehind(lines, d, n - 1);
      KeptStep(lines, d + n - 1);
      KeptStep(lines[d..], n - 1);
      ShareBehind(lines, d, n - 1);
      Regroup(Kept(lines, d), Kept(lines[d..], n - 1), Share(lines[d..], n - 1));
    }
  }

  /** Lines that are the same but for blanks around them. */
  predicate Alike(a: seq<string>, b: seq<string>) {
    |a| == |b| && forall i :: 0 <= i < |a| ==> TrimSpace(a[i]) == TrimSpace(b[i])
  }

  lemma AlikeSize(a: seq<string>, b: seq<string>)
    requires Alike(a, b)
    ensures |a| == |b|
  {
  }

  lemma KindAlike(x: string, y: string)
    requires TrimSpace(x) == TrimSpace(y)
    ensures KindOf(x) == KindOf(y) && Ink(x) == Ink(y)
  {
    InkTrimmed(x);
    InkTrimmed(y);
  }

  lemma PlainAlike(a: seq<string>, b: seq<string>, i: int)
    requires Alike(a, b)
    ensures IsPlain(a, i) == IsPlain(b, i)
  {
    if 0 <= i < |a| { KindAlike(a[i], b[i]); }
  }

  lemma ShareAlike(a: seq<string>, b: seq<string>, i: nat)
    requires Alike(a, b) && i < |a|
    ensures i < |b| && Share(a, i) == Share(b, i)
  {
    KindAlike(a[i], b[i]);
    PlainAlike(a, b, i - 1);
    PlainAlike(a, b, i + 1);
    hide KindOf, Ink, IsPlain, TrimSpace;
  }

  lemma {:induction false} KeptAlike(a: seq<string>, b: seq<string>, n: nat)
    requires Alike(a, b) && n <= |a|
    ensures n <= |b| && Kept(a, n) == Kept(b, n)
  {
    hide *;
    AlikeSize(a, b);
    if n == 0 {
      KeptNoLines(a, "");
      KeptNoLines(b, "");
    } else {
      KeptAlike(a, b, n - 1);
      ShareAlike(a, b, n - 1);
      KeptStep(a, n - 1);
      KeptStep(b, n - 1);
    }
  }

  /** The line is the text behind blanks. */
  predicate Indents(line: string, text: string) {
    |text| <= |line| && line[|line| - |text|..] == text && Trim.Blank(line[..|line| - |text|])
  }

  lemma IndentsBy(x: string, text: string)
    requires Trim.Blank(x)
    ensures Indents(x + text, text)
  {
    assert (x + text)[..|x|] == x;
  }

  lemma IndentsAlike(line: string, text: string)
    requires Indents(line, text)
    ensures TrimSpace(line) == TrimSpace(text)
  {
    var w := line[..|line| - |text|];
    TrimAround(w, text, "");
    assert w + text + "" == line;
  }

  /** `rest` is `lines` behind the first `d`, but for blanks in front of its first. */
  predicate Behind(lines: seq<string>, d: nat, rest: seq<string>) {
    && d <= |lines| && |rest| == |lines| - d
    && (forall i :: 0 < i < |rest| ==> rest[i] == lines[d + i])
    && (rest != [] ==> Indents(lines[d], rest[0]))
  }

  lemma BehindSize(lines: seq<string>, d: nat, rest: seq<string>)
    requires Behind(lines, d, rest)
    ensures d <= |lines| && |rest| == |lines| - d
  {
  }

  lemma BehindAlike(lines: seq<string>, d: nat, rest: seq<string>)
    requires Behind(lines, d, rest)
    ensures Alike(lines[d..], rest)
  {
    if rest != [] { IndentsAlike(lines[d], rest[0]); }
    hide TrimSpace, Indents;
    assert forall i :: 0 <= i < |rest| ==> lines[d..][i] == lines[d + i];
  }

  lemma BehindFirst(lines: seq<string>, d: nat, rest: seq<string>)
    requires Behind(lines, d, rest) && rest != []
    ensures d < |lines| && Indents(lines[d], rest[0])
  {
  }

  lemma BehindNext(lines: seq<string>, d: nat, rest: seq<string>, i: nat)
    requires Behind(lines, d, rest) && 0 < i < |rest|
    ensures d + i < |lines| && lines[d + i] == rest[i]
  {
  }

  lemma SumIs(all: string, lost: string, kept: string)
    requires |all| >= |lost| + |kept|
    ensures all == kept ==> lost == ""
    ensures all == lost + kept && lost == "" ==> all == kept
  {
    assert "" + kept == kept;
  }

  /** The block keeps nothing just when nothing is lost. */
  lemma LosesExactly(lines: seq<string>, b: nat, d: nat, rest: seq<string>)
    requires 0 < b <= d && Behind(lines, d, rest) && forall i :: b <= i < d ==> Trim.Blank(lines[i])
    ensures Kept(rest, |rest|) == Kept(lines, |lines|) <==> AllVoid(lines, b)
  {
    hide *;
    BehindSize(lines, d, rest);
    BehindAlike(lines, d, rest);
    KeptAlike(lines[d..], rest, |rest|);
    KeptBehind(lines, d, |rest|);
    KeptBlanks(lines, b, d);
    KeptNoneExactly(lines, b);
    KeptNoLines(lines, "");
    if AllVoid(lines, b) { VoidEnds(lines, b); }
    SumIs(Kept(lines, |lines|), Kept(lines, b), Kept(rest, |rest|));
  }

  // ------------------------------------------------------- reading side by side

  predicate SameTexts(a: seq<Chunk>, b: seq<Chunk>) {
    |a| == |b| && forall m :: 0 <= m < |a| ==> a[m] == b[m].(headingPath := a[m].headingPath)
  }

  /** The states of reading lines and the end of them that starts at line `d`: they
      differ in headings only. */
  predicate Same(s: State, t: State, d: nat) {
    && SameTexts(s.chunks, t.chunks)
    && |s.origins| == |t.origins| && (forall m :: 0 <= m < |s.origins| ==> s.origins[m] == t.origins[m] + d)
    && s.line == t.line + d && s.start == t.start + d && Indents(s.paragraph, t.paragraph)
  }

  lemma AppendSame(s: State, t: State, d: nat, kind: Kind, text: string, origin: nat)
    requires Same(s, t, d)
    ensures Same(AppendChunk(s, kind, text, origin + d), AppendChunk(t, kind, text, origin), d)
  {
    hide PathOf, SplitLong, Indents;
  }

  lemma FlushSame(s: State, t: State, d: nat)
    requires Same(s, t, d)
    ensures Same(Flush(s), Flush(t), d)
  {
    var text := TrimSpace(s.paragraph);
    IndentsAlike(s.paragraph, t.paragraph);
    var s', t' := s.(paragraph := "", start := s.line), t.(paragraph := "", start := t.line);
    IndentsBy("", "");
    assert "" + "" == "";
    assert Same(s', t', d) && s.start == t.start + d;
    hide Same, TrimSpace, Indents, AppendChunk;
    if text == "" || text == "---" {
      FlushDrops(s, text);
      FlushDrops(t, text);
    } else {
      FlushAppends(s, text);
      FlushAppends(t, text);
      AppendSame(s', t', d, Kind.Paragraph, text, t.start);
    }
  }

  lemma IndentsMore(p: string, q: string, line: string)
    requires Indents(p, q)
    ensures Indents(p + line + NL, q + line + NL)
  {
    var w := p[..|p| - |q|];
    assert p + line + NL == w + (q + line + NL);
    IndentsBy(w, q + line + NL);
  }

  lemma PlainSame(s: State, t: State, d: nat, x: string, y: string)
    requires Same(s, t, d) && KindOf(x).Plain? && KindOf(y).Plain?
    requires x == y || (s.paragraph == "" && t.paragraph == "" && Indents(x, y))
    ensures Same(Step(s, x), Step(t, y), d)
  {
    if x == y {
      IndentsMore(s.paragraph, t.paragraph, x);
    } else {
      IndentsMore(x, y, "");
      assert x + "" + NL == "" + x + NL && y + "" + NL == "" + y + NL;
    }
    hide KindOf, SameTexts, Indents;
  }

  lemma MovedSame(s: State, t: State, d: nat, h: seq<string>, h': seq<string>, line: nat)
    requires Same(s, t, d)
    ensures Same(s.(headings := h, line := line + d, start := line + d), t.(headings := h', line := line, start := line), d)
  {
    hide SameTexts, Indents;
  }

  lemma SameLine(s: State, t: State, d: nat)
    requires Same(s, t, d)
    ensures s.line == t.line + d
  {
  }

  lemma OtherSame(s: State, t: State, d: nat, x: string, y: string)
    requires Same(s, t, d) && TrimSpace(x) == TrimSpace(y) && !KindOf(y).Plain?
    ensures Same(Step(s, x), Step(t, y), d)
  {
    hide *;
    KindAlike(x, y);
    HeadLevel(y);
    FlushSame(s, t, d);
    FlushLine(s);
    FlushLine(t);
    SameLine(s, t, d);
    var f, g := Flush(s), Flush(t);
    if KindOf(y).TaskLine? {
      StepTask(s, x);
      StepTask(t, y);
      AppendSame(f, g, d, Kind.Task, TrimSpace(y), t.line);
      var f', g' := AppendChunk(f, Kind.Task, TrimSpace(y), s.line), AppendChunk(g, Kind.Task, TrimSpace(y), t.line);
      MovedSame(f', g', d, f'.headings, g'.headings, t.line + 1);
    } else if KindOf(y).Head? {
      StepHead(s, x);
      StepHead(t, y);
      MovedSame(f, g, d, Pushed(f.headings, KindOf(y).heading), Pushed(g.headings, KindOf(y).heading), t.line + 1);
    } else {
      StepBlank(s, x);
      StepBlank(t, y);
      MovedSame(f, g, d, f.headings, g.headings, t.line + 1);
    }
  }

  // ------------------------------------- the first lines read, and what follows

  lemma TrimmedSome(s: string)
    requires Trimmed(s) && s != ""
    ensures TrimSpace(s) != ""
  {
    TrimOf("", s, "");
    assert "" + s + "" == s;
  }

  lemma ChunksInk(lines: seq<string>, chunks: seq<Chunk>, origins: seq<nat>)
    requires ChunksOk(lines, chunks, origins) && chunks != []
    ensures InkOf(Texts(chunks)) != ""
  {
    assert ChunkOk(lines, 0, chunks[0], origins[0]) && PieceOk(chunks[0].text, MAX_RUNES);
    hide ChunkOk, KindOf;
    assert Texts(chunks)[0] == chunks[0].text;
    TrimmedSome(chunks[0].text);
    InkSome(chunks[0].text);
  }

  lemma SameSize(lines: seq<string>, chunks: seq<Chunk>, origins: seq<nat>)
    requires ChunksOk(lines, chunks, origins)
    ensures |origins| == |chunks|
  {
  }

  lemma NoChunks(lines: seq<string>, chunks: seq<Chunk>, origins: seq<nat>)
    requires ChunksOk(lines, chunks, origins) && InkOf(Texts(chunks)) == ""
    ensures chunks == [] && origins == []
  {
    hide *;
    if chunks != [] { ChunksInk(lines, chunks, origins); }
    SameSize(lines, chunks, origins);
  }

  /** When the lines so far hold nothing, and no paragraph reaches beyond them, reading
      on is like starting afresh. */
  lemma StartSame(lines: seq<string>, d: nat, s: State)
    requires d <= |lines| && Done(lines, d, s) && Kept(lines, d) == "" && s.line == d && s.start == d && s.paragraph == ""
    ensures Same(s, EMPTY, d)
  {
    hide Kept, ChunksOk;
    NoChunks(lines, s.chunks, s.origins);
    IndentsBy("", "");
    assert "" + "" == "";
  }

  lemma FlushedIs(s: State)
    ensures Flush(s).paragraph == "" && Flush(s).start == s.line && Flush(s).line == s.line
  {
    hide TrimSpace, SplitLong;
  }

  lemma FlushAgain(s: State)
    ensures Flush(Flush(s)) == Flush(s)
  {
    assert TrimSpace("") == "";
    hide TrimSpace, AppendChunk;
    assert Flush(s).paragraph == "" && Flush(s).start == Flush(s).line by { FlushedIs(s); }
  }

  lemma StepFlushed(s: State, x: string)
    requires !KindOf(x).Plain?
    ensures Step(s, x) == Step(Flush(s), x)
  {
    FlushAgain(s);
    FlushedIs(s);
    hide KindOf, Flush, TrimSpace, SplitLong;
  }

  lemma RunBefore(lines: seq<string>, begin: nat, d: nat)
    requires begin < d <= |lines| && AllPlain(lines[begin..d])
    ensures IsPlain(lines, d - 1)
  {
    hide KindOf;
    assert lines[begin..d][d - 1 - begin] == lines[d - 1];
  }

  lemma NothingGathered(lines: seq<string>, d: nat)
    requires d <= |lines|
    ensures Gather(lines[d..d]) == ""
  {
    assert lines[d..d] == [];
  }

  lemma PlainStart(lines: seq<string>, d: nat, s: State)
    requires Reading(lines, d, s) && !IsPlain(lines, d - 1)
    ensures s.start == d && s.line == d && s.paragraph == "" && Done(lines, d, s)
  {
    assert Pending(lines, d, s) && Done(lines, s.start, s);
    hide *;
    PendingIs(lines, d, s);
    if s.start < d { RunBefore(lines, s.start, d); }
    NothingGathered(lines, d);
  }

  lemma FlushedDone(lines: seq<string>, n: nat, s: State)
    requires Flushed(lines, n, s)
    ensures n <= |lines| && s.line == n && s.start == n && s.paragraph == "" && Done(lines, n, s)
  {
    hide Done, Encloses;
  }

  lemma FlushedSame(lines: seq<string>, d: nat)
    requires d <= |lines| && Kept(lines, d) == "" && !IsPlain(lines, d)
    ensures Same(Flush(Read(lines[..d])), EMPTY, d)
  {
    hide *;
    var s := Read(lines[..d]);
    ReadIsReading(lines, d);
    FlushReading(lines, d, s);
    FlushedDone(lines, d, Flush(s));
    StartSame(lines, d, Flush(s));
  }

  lemma EmptyParagraph()
    ensures EMPTY.paragraph == ""
  {
  }

  /** The first line behind the block. */
  lemma FirstSame(lines: seq<string>, d: nat, y: string)
    requires d < |lines| && Kept(lines, d) == "" && !(IsPlain(lines, d - 1) && IsPlain(lines, d)) && Indents(lines[d], y)
    ensures Same(Step(Read(lines[..d]), lines[d]), Step(EMPTY, y), d)
  {
    var s, x := Read(lines[..d]), lines[d];
    assert IsPlain(lines, d) == KindOf(x).Plain?;
    hide *;
    IndentsAlike(x, y);
    KindAlike(x, y);
    if IsPlain(lines, d) {
      ReadIsReading(lines, d);
      PlainStart(lines, d, s);
      StartSame(lines, d, s);
      EmptyParagraph();
      PlainSame(s, EMPTY, d, x, y);
    } else {
      FlushedSame(lines, d);
      StepFlushed(s, x);
      OtherSame(Flush(s), EMPTY, d, x, y);
    }
  }

  lemma NoLinesRead(rest: seq<string>)
    ensures Read(rest[..0]) == EMPTY
  {
    assert rest[..0] == [];
  }

  /** Reading the lines of the note, and those that the second strip leaves. */
  lemma {:induction false} ReadSame(lines: seq<string>, d: nat, rest: seq<string>, n: nat)
    requires Behind(lines, d, rest) && Kept(lines, d) == "" && !(IsPlain(lines, d - 1) && IsPlain(lines, d))
    requires 0 < n <= |rest|
    ensures d + n <= |lines| && Same(Read(lines[..d + n]), Read(rest[..n]), d)
  {
    hide *;
    BehindSize(lines, d, rest);
    ReadSnoc(lines, d + n);
    ReadSnoc(rest, n);
    if n == 1 {
      BehindFirst(lines, d, rest);
      FirstSame(lines, d, rest[0]);
      NoLinesRead(rest);
    } else {
      ReadSame(lines, d, rest, n - 1);
      BehindNext(lines, d, rest, n - 1);
      var x := rest[n - 1];
      if KindOf(x).Plain? {
        PlainSame(Read(lines[..d + n - 1]), Read(rest[..n - 1]), d, x, x);
      } else {
        OtherSame(Read(lines[..d + n - 1]), Read(rest[..n - 1]), d, x, x);
      }
    }
  }

  lemma Whole(lines: seq<string>)
    ensures lines[..|lines|] == lines
  {
  }

  lemma NotPlainAtEnd(lines: seq<string>)
    ensures !IsPlain(lines, |lines|)
  {
  }

  lemma FlushEmpty()
    ensures Flush(EMPTY) == EMPTY
  {
    assert TrimSpace("") == "";
  }

  /** The chunks of both, which differ in headings only. */
  lemma ChunksSame(lines: seq<string>, d: nat, rest: seq<string>)
    requires Behind(lines, d, rest) && Kept(lines, d) == "" && !(IsPlain(lines, d - 1) && IsPlain(lines, d))
    ensures Same(Flush(Read(lines)), Flush(Read(rest)), d)
  {
    hide *;
    BehindSize(lines, d, rest);
    Whole(lines);
    Whole(rest);
    if rest == [] {
      NotPlainAtEnd(lines);
      FlushedSame(lines, d);
      NoLinesRead(rest);
      FlushEmpty();
    } else {
      ReadSame(lines, d, rest, |rest|);
      FlushSame(Read(lines), Read(rest), d);
    }
  }

  // --------------------------------------------------------------- the headings

  /** The heading on line `j` is one that line `n` stands under. */
  predicate InForce(lines: seq<string>, n: nat, j: nat)
    requires n <= |lines|
  {
    j < n && KindOf(lines[j]).Head? && LastUpTo(lines, n, KindOf(lines[j]).heading.level) == j
  }

  /** Line `n` stands under a heading among the first `b` lines. */
  predicate Under(lines: seq<string>, n: nat, b: nat)
    requires n <= |lines|
  {
    exists j: nat :: j < b && InForce(lines, n, j)
  }

  lemma IsUnder(lines: seq<string>, n: nat, b: nat, j: nat)
    requires n <= |lines| && j < b && InForce(lines, n, j)
    ensures Under(lines, n, b)
  {
    hide InForce;
  }

  lemma HeadingAbove(lines: seq<string>, n: nat, b: nat) returns (j: nat)
    requires n <= |lines| && Under(lines, n, b)
    ensures j < b && InForce(lines, n, j) && j < |lines| && KindOf(lines[j]).Head?
  {
    hide KindOf, LastUpTo;
    j :| j < b && InForce(lines, n, j);
  }

  lemma InForceLast(lines: seq<string>, n: nat, j: nat)
    requires n <= |lines| && InForce(lines, n, j)
    ensures LastUpTo(lines, n, KindOf(lines[j]).heading.level) == j
  {
    hide KindOf;
  }

  lemma HeadTitle(line: string)
    ensures KindOf(line).Head? ==> KindOf(line).heading.title != "" && 1 <= KindOf(line).heading.level <= 6
  {
  }

  lemma KindBehind(lines: seq<string>, d: nat, rest: seq<string>, i: nat)
    requires Behind(lines, d, rest) && i < |rest|
    ensures d + i < |lines| && KindOf(lines[d + i]) == KindOf(rest[i])
  {
    BehindAlike(lines, d, rest);
    assert lines[d..][i] == lines[d + i];
    KindAlike(lines[d + i], rest[i]);
  }

  lemma LastStep(lines: seq<string>, n: nat, k: nat)
    requires n < |lines|
    ensures LastUpTo(lines, n + 1, k)
         == if KindOf(lines[n]).Head? && KindOf(lines[n]).heading.level <= k then n else LastUpTo(lines, n, k)
  {
    hide KindOf;
  }

  lemma LastNone(lines: seq<string>, k: nat)
    ensures LastUpTo(lines, 0, k) == -1
  {
  }

  /** The last heading: one behind the first `d` lines, or of them. */
  lemma {:induction false} LastBehind(lines: seq<string>, d: nat, rest: seq<string>, n: nat, k: nat)
    requires Behind(lines, d, rest) && n <= |rest|
    ensures d + n <= |lines|
    ensures var j := LastUpTo(rest, n, k); LastUpTo(lines, d + n, k) == if j >= 0 then d + j else LastUpTo(lines, d, k)
  {
    hide *;
    BehindSize(lines, d, rest);
    if n == 0 {
      LastNone(rest, k);
    } else {
      LastBehind(lines, d, rest, n - 1, k);
      KindBehind(lines, d, rest, n - 1);
      LastStep(lines, d + n - 1, k);
      LastStep(rest, n - 1, k);
    }
  }

  lemma {:induction false} LastIsLast(lines: seq<string>, n: nat, k: nat)
    requires n <= |lines| && LastUpTo(lines, n, k) >= 0
    ensures InForce(lines, n, LastUpTo(lines, n, k))
  {
    hide KindOf;
    if LastUpTo(lines, n, k) != n - 1 { LastIsLast(lines, n - 1, k); }
  }

  /** When the last heading is behind the first `d` lines it is the same; else it is
      one of these, in force, or there is none. */
  lemma LastCases(lines: seq<string>, d: nat, rest: seq<string>, n: nat, k: nat)
    requires Behind(lines, d, rest) && n <= |rest|
    ensures d + n <= |lines|
    ensures var i, j := LastUpTo(lines, d + n, k), LastUpTo(rest, n, k);
      && (j >= 0 ==> i >= 0 && KindOf(lines[i]) == KindOf(rest[j]))
      && (j < 0 && i >= 0 ==> Under(lines, d + n, d))
  {
    hide *;
    LastBehind(lines, d, rest, n, k);
    var i, j := LastUpTo(lines, d + n, k), LastUpTo(rest, n, k);
    if j >= 0 {
      KindBehind(lines, d, rest, j);
    } else if i >= 0 {
      LastIsLast(lines, d + n, k);
      IsUnder(lines, d + n, d, i);
    }
  }

  lemma EntryIs(lines: seq<string>, n: nat, k: nat)
    requires n <= |lines|
    ensures var j := LastUpTo(lines, n, k);
      Entry(lines, n, k) == if j >= 0 && KindOf(lines[j]).heading.level == k then KindOf(lines[j]).heading.title else ""
  {
    hide KindOf;
  }

  lemma EntryBehind(lines: seq<string>, d: nat, rest: seq<string>, n: nat, k: nat)
    requires Behind(lines, d, rest) && n <= |rest|
    ensures d + n <= |lines|
    ensures LastUpTo(rest, n, k) >= 0 || !Under(lines, d + n, d) ==> Entry(rest, n, k) == Entry(lines, d + n, k)
    ensures LastUpTo(rest, n, k) < 0 ==> Entry(rest, n, k) == ""
  {
    hide *;
    LastCases(lines, d, rest, n, k);
    EntryIs(rest, n, k);
    EntryIs(lines, d + n, k);
  }

  lemma DepthIs(lines: seq<string>, n: nat)
    requires n <= |lines|
    ensures var j := LastUpTo(lines, n, 6); Depth(lines, n) == if j >= 0 then KindOf(lines[j]).heading.level else 0
  {
    hide KindOf;
  }

  lemma DepthBehind(lines: seq<string>, d: nat, rest: seq<string>, n: nat)
    requires Behind(lines, d, rest) && n <= |rest|
    ensures d + n <= |lines|
    ensures LastUpTo(rest, n, 6) >= 0 || !Under(lines, d + n, d) ==> Depth(lines, d + n) == Depth(rest, n)
    ensures LastUpTo(rest, n, 6) < 0 ==> Depth(rest, n) == 0
  {
    hide *;
    LastCases(lines, d, rest, n, 6);
    DepthIs(rest, n);
    DepthIs(lines, d + n);
  }

  lemma EnclosingIs(lines: seq<string>, n: nat)
    requires n <= |lines|
    ensures var e := EnclosingAt(lines, n);
      |e| == Depth(lines, n) && forall i :: 0 <= i < |e| ==> e[i] == Entry(lines, n, i + 1)
  {
    hide Depth, Entry;
  }

  lemma SameHeadings(lines: seq<string>, d: nat, rest: seq<string>, n: nat)
    requires Behind(lines, d, rest) && n <= |rest| && d + n <= |lines| && !Under(lines, d + n, d)
    ensures EnclosingAt(lines, d + n) == EnclosingAt(rest, n)
  {
    hide *;
    var a, b := EnclosingAt(lines, d + n), EnclosingAt(rest, n);
    EnclosingIs(lines, d + n);
    EnclosingIs(rest, n);
    DepthBehind(lines, d, rest, n);
    forall i | 0 <= i < |a| ensures a[i] == b[i] {
      EntryBehind(lines, d, rest, n, i + 1);
    }
  }

  lemma {:induction false} LastNoEarlier(lines: seq<string>, n: nat, k: nat, m: nat)
    requires n <= |lines| && k <= m
    ensures LastUpTo(lines, n, k) <= LastUpTo(lines, n, m)
  {
    hide KindOf;
    if n > 0 { LastNoEarlier(lines, n - 1, k, m); }
  }

  /** A heading in force is an entry of the path. */
  lemma InForceEntry(lines: seq<string>, n: nat, j: nat)
    requires n <= |lines| && InForce(lines, n, j)
    ensures var h := KindOf(lines[j]).heading;
      1 <= h.level <= Depth(lines, n) && Entry(lines, n, h.level) == h.title && h.title != ""
  {
    HeadTitle(lines[j]);
    var h := KindOf(lines[j]).heading;
    LastNoEarlier(lines, n, h.level, 6);
    hide KindOf;
    DeeperThanDepth(lines, n, h.level);
  }

  lemma LastEntry(lines: seq<string>, n: nat)
    requires n <= |lines| && Depth(lines, n) > 0
    ensures Entry(lines, n, Depth(lines, n)) != ""
  {
    var j := LastUpTo(lines, n, 6);
    LastIsLast(lines, n, 6);
    InForceEntry(lines, n, j);
    hide KindOf;
  }

  lemma {:induction false} JoinNoShorter(a: seq<string>, b: seq<string>)
    requires |a| == |b| && forall i :: 0 <= i < |a| ==> |a[i]| <= |b[i]|
    ensures |Join(a, " / ")| <= |Join(b, " / ")|
  {
    if |a| > 1 { JoinNoShorter(a[1..], b[1..]); }
  }

  lemma {:induction false} JoinLonger(a: seq<string>, b: seq<string>, at: nat)
    requires |a| == |b| && at < |a| && |a[at]| < |b[at]| && forall i :: 0 <= i < |a| ==> |a[i]| <= |b[i]|
    ensures |Join(a, " / ")| < |Join(b, " / ")|
  {
    if |a| > 1 {
      if at == 0 {
        JoinNoShorter(a[1..], b[1..]);
      } else {
        JoinLonger(a[1..], b[1..], at - 1);
      }
    }
  }

  lemma {:induction false} JoinSome(a: seq<string>)
    requires a != [] && a[|a| - 1] != ""
    ensures Join(a, " / ") != ""
  {
  }

  lemma PathIs(headings: seq<string>)
    ensures PathOf(headings) == Join(headings, " / ") && (headings == [] ==> PathOf(headings) == "")
  {
  }

  lemma InForceBehind(lines: seq<string>, d: nat, rest: seq<string>, n: nat, j: nat)
    requires Behind(lines, d, rest) && n <= |rest| && d + n <= |lines| && j < d && InForce(lines, d + n, j)
    ensures var level := KindOf(lines[j]).heading.level;
      && LastUpTo(rest, n, level) < 0 && 1 <= level <= Depth(lines, d + n) && Entry(lines, d + n, level) != ""
      && (LastUpTo(rest, n, 6) < 0 ==> Depth(rest, n) == 0)
      && (LastUpTo(rest, n, 6) >= 0 ==> Depth(rest, n) == Depth(lines, d + n))
  {
    hide *;
    InForceEntry(lines, d + n, j);
    InForceLast(lines, d + n, j);
    LastBehind(lines, d, rest, n, KindOf(lines[j]).heading.level);
    DepthBehind(lines, d, rest, n);
  }

  lemma LongerEntries(lines: seq<string>, d: nat, rest: seq<string>, n: nat, level: nat)
    requires Behind(lines, d, rest) && n <= |rest| && d + n <= |lines| && 1 <= level <= Depth(lines, d + n) == Depth(rest, n)
    requires Entry(lines, d + n, level) != "" && LastUpTo(rest, n, level) < 0
    ensures |Join(EnclosingAt(rest, n), " / ")| < |Join(EnclosingAt(lines, d + n), " / ")|
  {
    hide *;
    var a, b := EnclosingAt(rest, n), EnclosingAt(lines, d + n);
    EnclosingIs(lines, d + n);
    EnclosingIs(rest, n);
    forall i | 0 <= i < |a| ensures |a[i]| <= |b[i]| { EntryBehind(lines, d, rest, n, i + 1); }
    EntryBehind(lines, d, rest, n, level);
    JoinLonger(a, b, level - 1);
  }

  lemma LongerPath(lines: seq<string>, d: nat, rest: seq<string>, n: nat)
    requires Behind(lines, d, rest) && n <= |rest| && d + n <= |lines| && Under(lines, d + n, d)
    ensures |PathOf(EnclosingAt(rest, n))| < |PathOf(EnclosingAt(lines, d + n))|
  {
    hide *;
    var j := HeadingAbove(lines, d + n, d);
    InForceBehind(lines, d, rest, n, j);
    PathIs(EnclosingAt(lines, d + n));
    PathIs(EnclosingAt(rest, n));
    if LastUpTo(rest, n, 6) < 0 {
      EnclosingIs(lines, d + n);
      EnclosingIs(rest, n);
      LastEntry(lines, d + n);
      JoinSome(EnclosingAt(lines, d + n));
    } else {
      LongerEntries(lines, d, rest, n, KindOf(lines[j]).heading.level);
    }
  }

  // ------------------------------------------------------------ the same chunks

  /** No line behind the first `b` that chunks come from stands under one of their headings. */
  predicate Clear(lines: seq<string>, b: nat) {
    forall n :: b <= n < |lines| && Yields(lines, n) ==> !Under(lines, n, b)
  }

  lemma UnderBlanks(lines: seq<string>, b: nat, d: nat, n: nat)
    requires b <= d <= n <= |lines| && forall i :: b <= i < d ==> Trim.Blank(lines[i])
    ensures Under(lines, n, b) <==> Under(lines, n, d)
  {
    forall j: nat | b <= j < d ensures !InForce(lines, n, j) { NotBlank(lines[j]); }
    hide InForce;
  }

  lemma BlankYieldsNot(lines: seq<string>, i: nat)
    requires i < |lines| && Trim.Blank(lines[i])
    ensures !Yields(lines, i)
  {
    NotBlank(lines[i]);
  }

  /** Blank lines behind the block make no difference. */
  lemma ClearBlanks(lines: seq<string>, b: nat, d: nat)
    requires b <= d <= |lines| && forall i :: b <= i < d ==> Trim.Blank(lines[i])
    ensures Clear(lines, b) <==> Clear(lines, d)
  {
    hide Yields, Under, Trim.Blank;
    forall i | b <= i < d ensures !Yields(lines, i) { BlankYieldsNot(lines, i); }
    forall n | d <= n < |lines| ensures Under(lines, n, b) <==> Under(lines, n, d) { UnderBlanks(lines, b, d, n); }
  }

  /** Chunk `m` of both: they are the same just when its line is clear of the block. */
  lemma ChunkClear(lines: seq<string>, d: nat, rest: seq<string>, a: Chunk, c: Chunk, m: nat, o: nat)
    requires Behind(lines, d, rest) && ChunkOk(lines, m, a, o + d) && ChunkOk(rest, m, c, o) && a == c.(headingPath := a.headingPath)
    ensures d + o < |lines| && (a == c <==> !Under(lines, d + o, d))
  {
    assert a.headingPath == PathOf(EnclosingAt(lines, o + d)) && c.headingPath == PathOf(EnclosingAt(rest, o));
    assert o + d < |lines| && o < |rest| && o + d == d + o;
    hide *;
    if Under(lines, d + o, d) {
      LongerPath(lines, d, rest, o);
    } else {
      SameHeadings(lines, d, rest, o);
    }
  }

  lemma ClearChunks(lines: seq<string>, d: nat, rest: seq<string>, s: State, t: State)
    requires Behind(lines, d, rest) && Same(s, t, d)
    requires ChunksOk(lines, s.chunks, s.origins) && ChunksOk(rest, t.chunks, t.origins) && Begun(lines, |lines|, s.origins)
    ensures s.chunks == t.chunks <==> Clear(lines, d)
  {
    hide Behind, ChunkOk, Under, Yields;
    forall m | 0 <= m < |t.chunks| ensures s.origins[m] < |lines| && (s.chunks[m] == t.chunks[m] <==> !Under(lines, s.origins[m], d)) {
      ChunkClear(lines, d, rest, s.chunks[m], t.chunks[m], m, t.origins[m]);
    }
    if s.chunks == t.chunks {
      forall n | d <= n < |lines| && Yields(lines, n) ensures !Under(lines, n, d) {
        assert n in s.origins;
        var m :| 0 <= m < |s.origins| && s.origins[m] == n;
      }
    }
    if Clear(lines, d) {
      forall m | 0 <= m < |t.chunks| ensures s.chunks[m] == t.chunks[m] {
        assert s.origins[m] in s.origins;
      }
    }
  }

  lemma ChunksEqual(lines: seq<string>, d: nat, rest: seq<string>)
    requires Behind(lines, d, rest) && Kept(lines, d) == "" && !(IsPlain(lines, d - 1) && IsPlain(lines, d))
    ensures ChunksOfLines(lines) == ChunksOfLines(rest) <==> Clear(lines, d)
  {
    var s, t := Flush(Read(lines)), Flush(Read(rest));
    assert ChunksOfLines(lines) == s.chunks && ChunksOfLines(rest) == t.chunks;
    hide *;
    ChunksSame(lines, d, rest);
    OriginsExact(lines);
    OriginsExact(rest);
    ClearChunks(lines, d, rest, s, t);
  }
}
