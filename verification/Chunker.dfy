/** Splitting a note's body into search chunks (search/chunker.go). */
module Chunker {
  import opened Options
  import opened Text
  import opened Trim

  const MAX_RUNES: nat := 1500

  datatype Kind = Paragraph | Task

  datatype Chunk = Chunk(kind: Kind, ord: nat, text: string, headingPath: string)

  // -------------------------------------------------------------- line shapes

  predicate IsBreak(c: char) {
    c in " \t\r\n"
  }

  function DropBreaks(s: string): string {
    if s != "" && IsBreak(s[0]) then DropBreaks(s[1..]) else s
  }

  /** strings.TrimRight(s, "#") */
  function DropHashes(s: string): string {
    if s != "" && s[|s| - 1] == '#' then DropHashes(s[..|s| - 1]) else s
  }

  /** strings.TrimRight(line, "\r\n") */
  function DropReturns(s: string): string {
    if s != "" && s[|s| - 1] in "\r\n" then DropReturns(s[..|s| - 1]) else s
  }

  function Hashes(s: string): (n: nat)
    ensures n <= |s|
  {
    if s != "" && s[0] == '#' then 1 + Hashes(s[1..]) else 0
  }

  datatype Heading = Heading(level: nat, title: string)

  /** A heading of level 1 to 6 with a title. */
  function HeadingOf(trimmed: string): (h: Option<Heading>)
    ensures h.Some? ==> 1 <= h.value.level <= 6
  {
    var level := if Hashes(trimmed) < 6 then Hashes(trimmed) else 6;
    if level == 0 || level >= |trimmed| || trimmed[level] != ' ' then None
    else
      var title := TrimSpace(DropHashes(trimmed[level + 1..]));
      if title == "" then None else Some(Heading(level, title))
  }

  /** The mark is one byte. */
  predicate IsTaskLine(trimmed: string) {
    "- [" <= trimmed && |trimmed| >= 5 && trimmed[3] as int < 0x80 && trimmed[4] == ']'
  }

  datatype LineKind = Blank | Head(heading: Heading) | TaskLine | Plain

  function KindOf(line: string): LineKind {
    var trimmed := TrimSpace(line);
    var h := HeadingOf(trimmed);
    if trimmed == "" then LineKind.Blank
    else if h.Some? then Head(h.value)
    else if IsTaskLine(trimmed) then TaskLine
    else Plain
  }

  // --------------------------------------------------------- splitting a text

  /** Where to cut: behind the last break in the second half, else at the limit. */
  function CutFrom(s: string, i: nat, max: nat): (cut: nat)
    requires i <= max < |s|
    ensures max / 2 < i ==> max / 2 < cut <= max
    ensures i <= max / 2 ==> cut == max
    decreases i
  {
    if i <= max / 2 then max
    else if IsBreak(s[i - 1]) then i
    else CutFrom(s, i - 1, max)
  }

  function Part(s: string): seq<string> {
    if TrimSpace(s) == "" then [] else [TrimSpace(s)]
  }

  lemma {:induction false} DropBreaksForm(s: string) returns (u: string)
    ensures s == u + DropBreaks(s) && Trim.Blank(u)
  {
    u := "";
    if s != "" && IsBreak(s[0]) {
      u := DropBreaksForm(s[1..]);
      u := [s[0]] + u;
      assert s == [s[0]] + s[1..];
    }
  }

  lemma {:induction false} DropBreaksShorter(s: string)
    ensures |DropBreaks(s)| <= |s|
  {
    var u := DropBreaksForm(s);
  }

  function Pieces(s: string, max: nat): seq<string>
    requires max > 0
    decreases |s|
  {
    if |s| <= max then Part(s)
    else
      var cut := CutFrom(s, max, max);
      DropBreaksShorter(s[cut..]);
      Part(s[..cut]) + Pieces(DropBreaks(s[cut..]), max)
  }

  /** splitLongText */
  function SplitLong(text: string, max: nat): seq<string>
    requires max > 0
  {
    Pieces(TrimSpace(text), max)
  }

  // ------------------------------------------------------------------ the ink

  /** The characters that are not white space. */
  function Ink(s: string): string {
    if s == "" then "" else (if IsSpace(s[0]) then "" else [s[0]]) + Ink(s[1..])
  }

  function InkOf(texts: seq<string>): string {
    if texts == [] then "" else Ink(texts[0]) + InkOf(texts[1..])
  }

  lemma {:induction false} InkConcat(a: string, b: string)
    ensures Ink(a + b) == Ink(a) + Ink(b)
  {
    if a == "" {
      assert a + b == b;
    } else {
      assert (a + b)[1..] == a[1..] + b;
      InkConcat(a[1..], b);
    }
  }

  lemma {:induction false} InkBlank(s: string)
    requires Trim.Blank(s)
    ensures Ink(s) == ""
  {
    if s != "" {
      InkBlank(s[1..]);
    }
  }

  lemma InkTrimmed(s: string)
    ensures Ink(TrimSpace(s)) == Ink(s)
  {
    var u, v := TrimForm(s);
    InkConcat(u + TrimSpace(s), v);
    InkConcat(u, TrimSpace(s));
    InkBlank(u);
    InkBlank(v);
  }

  lemma {:induction false} InkOfConcat(a: seq<string>, b: seq<string>)
    ensures InkOf(a + b) == InkOf(a) + InkOf(b)
  {
    if a == [] {
      assert a + b == b;
    } else {
      assert (a + b)[1..] == a[1..] + b;
      InkOfConcat(a[1..], b);
    }
  }

  lemma PartInk(s: string)
    ensures InkOf(Part(s)) == Ink(s)
  {
    InkTrimmed(s);
    assert InkOf([]) == "" && (TrimSpace(s) != "" ==> [TrimSpace(s)][1..] == []);
  }

  /** A piece is trimmed, not empty, and within the limit. */
  predicate PieceOk(p: string, max: nat) {
    0 < |p| <= max && Trimmed(p)
  }

  lemma PartOk(s: string, max: nat)
    requires |s| <= max
    ensures forall p <- Part(s) :: PieceOk(p, max)
  {
    var u, v := TrimForm(s);
  }

  /** Splitting a text loses no ink, and every piece is in order. */
  lemma {:induction false} PiecesKeepInk(s: string, max: nat)
    requires max > 0
    ensures InkOf(Pieces(s, max)) == Ink(s) && forall p <- Pieces(s, max) :: PieceOk(p, max)
    decreases |s|
  {
    if |s| <= max {
      PartInk(s);
      PartOk(s, max);
    } else {
      var cut := CutFrom(s, max, max);
      var front, behind := s[..cut], s[cut..];
      var rest := DropBreaks(behind);
      assert s == front + behind && Pieces(s, max) == Part(front) + Pieces(rest, max);
      PartInk(front);
      PartOk(front, max);
      var u := DropBreaksForm(behind);
      InkBlank(u);
      hide *;
      PiecesKeepInk(rest, max);
      InkOfConcat(Part(front), Pieces(rest, max));
      InkConcat(front, behind);
      InkConcat(u, rest);
      assert "" + Ink(rest) == Ink(rest);
    }
  }

  lemma SplitKeepsInk(text: string, max: nat)
    requires max > 0
    ensures InkOf(SplitLong(text, max)) == Ink(text) && forall p <- SplitLong(text, max) :: PieceOk(p, max)
  {
    PiecesKeepInk(TrimSpace(text), max);
    InkTrimmed(text);
  }

  // ---------------------------------------------------------------- chunking

  /** The chunks so far, with the line each came from; the headings in force; the
      paragraph being collected, and its first line; the number of lines read. */
  datatype State = State(chunks: seq<Chunk>, origins: seq<nat>, headings: seq<string>, paragraph: string, start: nat, line: nat)

  function PathOf(headings: seq<string>): string {
    Join(headings, " / ")
  }

  function Numbered(kind: Kind, parts: seq<string>, path: string, ord: nat): (chunks: seq<Chunk>)
    ensures |chunks| == |parts|
    ensures forall i :: 0 <= i < |parts| ==> chunks[i] == Chunk(kind, ord + i, parts[i], path)
  {
    if parts == [] then [] else [Chunk(kind, ord, parts[0], path)] + Numbered(kind, parts[1..], path, ord + 1)
  }

  function AppendChunk(s: State, kind: Kind, text: string, origin: nat): State {
    var parts := SplitLong(text, MAX_RUNES);
    s.(chunks := s.chunks + Numbered(kind, parts, PathOf(s.headings), |s.chunks|),
       origins := s.origins + seq(|parts|, _ => origin))
  }

  function Flush(s: State): State {
    var text := TrimSpace(s.paragraph);
    var rest := s.(paragraph := "", start := s.line);
    if text == "" || text == "---" then rest else AppendChunk(rest, Kind.Paragraph, text, s.start)
  }

  /** The headings with one more: deeper ones go, missing levels are empty. */
  function Padded(headings: seq<string>, n: nat): (out: seq<string>)
    ensures |out| == n
    ensures forall i :: 0 <= i < n ==> out[i] == if i < |headings| then headings[i] else ""
  {
    if |headings| >= n then headings[..n] else headings + seq(n - |headings|, _ => "")
  }

  function Pushed(headings: seq<string>, h: Heading): seq<string>
    requires h.level >= 1
  {
    Padded(headings, h.level - 1) + [h.title]
  }

  function Step(s: State, line: string): State {
    var kind := KindOf(line);
    var t := if kind.Plain? then s.(paragraph := s.paragraph + line + NL) else Flush(s);
    var u := if kind.Head? && kind.heading.level >= 1 then t.(headings := Pushed(t.headings, kind.heading))
             else if kind.TaskLine? then AppendChunk(t, Kind.Task, TrimSpace(line), s.line)
             else t;
    u.(line := s.line + 1, start := if kind.Plain? then u.start else s.line + 1)
  }

  const EMPTY: State := State([], [], [], "", 0, 0)

  function Read(lines: seq<string>): State {
    if lines == [] then EMPTY else Step(Read(lines[..|lines| - 1]), lines[|lines| - 1])
  }

  function DropAllReturns(lines: seq<string>): (out: seq<string>)
    ensures |out| == |lines| && forall i :: 0 <= i < |lines| ==> out[i] == DropReturns(lines[i])
  {
    if lines == [] then [] else [DropReturns(lines[0])] + DropAllReturns(lines[1..])
  }

  /** The lines of a trimmed body, without their ends. */
  function BodyLines(body: string): seq<string> {
    if body == "" then [] else DropAllReturns(Lines(body))
  }

  /** The chunks of the lines of a body. */
  function ChunksOfLines(lines: seq<string>): seq<Chunk> {
    Flush(Read(lines)).chunks
  }

  // ---------------------------------------------------------- front matter

  const BOM: string := "\U{FEFF}"

  function DropOneReturn(s: string): string {
    if s != "" && s[|s| - 1] == '\r' then s[..|s| - 1] else s
  }

  /** The first of the lines from `j` on that ends the front matter. */
  function ClosingLine(lines: seq<string>, j: nat): (k: nat)
    requires j <= |lines|
    ensures j <= k <= |lines|
    decreases |lines| - j
  {
    if j == |lines| || DropOneReturn(lines[j]) in ["---", "..."] then j else ClosingLine(lines, j + 1)
  }

  function DropLineBreaks(s: string): string {
    if s != "" && s[0] in "\r\n" then DropLineBreaks(s[1..]) else s
  }

  /** stripFrontmatter */
  function WithoutFrontmatter(content: string): string {
    var c := if BOM <= content then content[|BOM|..] else content;
    var lines := Lines(c);
    if |lines| < 2 || DropOneReturn(lines[0]) != "---" then content
    else
      var k := ClosingLine(lines, 1);
      if k == |lines| then content else DropLineBreaks(Join(lines[k + 1..], NL))
  }

  /** The lines of a note's body. */
  function NoteLines(content: string): seq<string> {
    BodyLines(TrimSpace(WithoutFrontmatter(content)))
  }

  /** ChunkContent */
  function Chunks(content: string): seq<Chunk> {
    ChunksOfLines(NoteLines(content))
  }

  // -------------------------------------------- what the chunks are, declaratively

  predicate IsPlain(lines: seq<string>, i: int) {
    0 <= i < |lines| && KindOf(lines[i]).Plain?
  }

  /** A paragraph that is a line of three dashes and nothing else. */
  predicate Lone(lines: seq<string>, i: int) {
    0 <= i < |lines| && TrimSpace(lines[i]) == "---" && !IsPlain(lines, i - 1) && !IsPlain(lines, i + 1)
  }

  /** The ink of the first `n` lines that is to be found in the chunks: all but
      that of headings and lone "---" paragraphs. */
  function Kept(lines: seq<string>, n: nat): string
    requires n <= |lines|
  {
    if n == 0 then ""
    else
      var kind := KindOf(lines[n - 1]);
      Kept(lines, n - 1) + if kind.Head? || (kind.Plain? && Lone(lines, n - 1)) then "" else Ink(lines[n - 1])
  }

  /** The last heading in front of line `n` whose level is at most `k`, or -1. */
  function LastUpTo(lines: seq<string>, n: nat, k: nat): (j: int)
    requires n <= |lines|
    ensures -1 <= j < n && (j >= 0 ==> KindOf(lines[j]).Head? && KindOf(lines[j]).heading.level <= k)
  {
    if n == 0 then -1
    else if KindOf(lines[n - 1]).Head? && KindOf(lines[n - 1]).heading.level <= k then n - 1
    else LastUpTo(lines, n - 1, k)
  }

  /** The heading of level `k` that line `n` stands under, if no later heading of
      a higher rank hides it. */
  function Entry(lines: seq<string>, n: nat, k: nat): string
    requires n <= |lines|
  {
    var j := LastUpTo(lines, n, k);
    if j >= 0 && KindOf(lines[j]).heading.level == k then KindOf(lines[j]).heading.title else ""
  }

  function Depth(lines: seq<string>, n: nat): nat
    requires n <= |lines|
  {
    var j := LastUpTo(lines, n, 6);
    if j >= 0 then KindOf(lines[j]).heading.level else 0
  }

  /** The headings line `n` stands under, outermost first. */
  predicate Encloses(lines: seq<string>, n: nat, headings: seq<string>)
    requires n <= |lines|
  {
    |headings| == Depth(lines, n) && forall i :: 0 <= i < |headings| ==> headings[i] == Entry(lines, n, i + 1)
  }

  lemma {:induction false} DeeperThanDepth(lines: seq<string>, n: nat, k: nat)
    requires n <= |lines| && k <= 6
    ensures LastUpTo(lines, n, 6) >= 0 && KindOf(lines[LastUpTo(lines, n, 6)]).heading.level <= k
        ==> LastUpTo(lines, n, k) == LastUpTo(lines, n, 6)
    ensures LastUpTo(lines, n, 6) == -1 ==> LastUpTo(lines, n, k) == -1
  {
    hide KindOf;
    if n > 0 {
      DeeperThanDepth(lines, n - 1, k);
    }
  }

  /** A heading is pushed onto the enclosing ones. */
  lemma PushedEncloses(lines: seq<string>, n: nat, headings: seq<string>)
    requires n < |lines| && KindOf(lines[n]).Head? && 1 <= KindOf(lines[n]).heading.level <= 6 && Encloses(lines, n, headings)
    ensures Encloses(lines, n + 1, Pushed(headings, KindOf(lines[n]).heading))
  {
    var h := KindOf(lines[n]).heading;
    hide KindOf;
    var out := Pushed(headings, h);
    assert LastUpTo(lines, n + 1, 6) == n;
    forall i | 0 <= i < |out| ensures out[i] == Entry(lines, n + 1, i + 1) {
      PushedEntry(lines, n, headings, i);
    }
  }

  lemma PushedEntry(lines: seq<string>, n: nat, headings: seq<string>, i: nat)
    requires n < |lines| && KindOf(lines[n]).Head? && i < KindOf(lines[n]).heading.level <= 6 && Encloses(lines, n, headings)
    ensures Pushed(headings, KindOf(lines[n]).heading)[i] == Entry(lines, n + 1, i + 1)
  {
    hide KindOf;
    var k := i + 1;
    if k == KindOf(lines[n]).heading.level {
      assert LastUpTo(lines, n + 1, k) == n;
    } else {
      assert LastUpTo(lines, n + 1, k) == LastUpTo(lines, n, k);
      DeeperThanDepth(lines, n, k);
    }
  }

  lemma SameEntry(lines: seq<string>, n: nat, k: nat)
    requires n < |lines| && !KindOf(lines[n]).Head?
    ensures LastUpTo(lines, n + 1, k) == LastUpTo(lines, n, k) && Entry(lines, n + 1, k) == Entry(lines, n, k)
  {
    hide KindOf;
  }

  lemma SameEncloses(lines: seq<string>, n: nat, headings: seq<string>)
    requires n < |lines| && !KindOf(lines[n]).Head? && Encloses(lines, n, headings)
    ensures Encloses(lines, n + 1, headings)
  {
    hide KindOf;
    SameEntry(lines, n, 6);
    forall i | 0 <= i < |headings| ensures headings[i] == Entry(lines, n + 1, i + 1) {
      SameEntry(lines, n, i + 1);
    }
  }

  // ------------------------------------------------------------- paragraphs

  function Gather(lines: seq<string>): string {
    if lines == [] then "" else Gather(lines[..|lines| - 1]) + lines[|lines| - 1] + NL
  }

  lemma BlankParts(a: string, b: string)
    requires Trim.Blank(a + b)
    ensures Trim.Blank(a) && Trim.Blank(b)
  {
    assert forall i :: 0 <= i < |a| ==> (a + b)[i] == a[i];
    assert forall i :: 0 <= i < |b| ==> (a + b)[|a| + i] == b[i];
  }

  lemma NotBlank(s: string)
    ensures TrimSpace(s) == "" <==> Trim.Blank(s)
  {
    var u, v := TrimForm(s);
    if Trim.Blank(s) {
      TrimOf(s, "", "");
      assert s + "" + "" == s;
    }
  }

  /** A text with a line break between ink is not three dashes. */
  lemma BrokenText(a: string, b: string)
    requires !Trim.Blank(a) && !Trim.Blank(b)
    ensures TrimSpace(a + NL + b) != "---" && TrimSpace(a + NL + b) != ""
  {
    var s := a + NL + b;
    NotBlank(s);
    if Trim.Blank(s) { BlankParts(a + NL, b); }
    var u, v := TrimForm(s);
    if TrimSpace(s) == "---" {
      BreakInBlank(a, b, u, v);
    }
  }

  lemma BreakInBlank(a: string, b: string, u: string, v: string)
    requires a + NL + b == u + "---" + v && Trim.Blank(u) && Trim.Blank(v)
    ensures Trim.Blank(a) || Trim.Blank(b)
  {
    var s := a + NL + b;
    assert s[|a|] == '\n';
    assert forall i :: |u| <= i < |u| + 3 ==> s[i] == '-';
    if |a| < |u| {
      assert a == s[..|a|] == u[..|a|];
    } else {
      assert b == s[|a| + 1..] == v[|a| + 1 - |u| - 3..];
    }
  }

  predicate AllPlain(lines: seq<string>) {
    forall i :: 0 <= i < |lines| ==> KindOf(lines[i]).Plain?
  }

  lemma PlainHasInk(line: string)
    requires KindOf(line).Plain?
    ensures TrimSpace(line) != "" && !Trim.Blank(line)
  {
    NotBlank(line);
  }

  lemma GatherHasInk(lines: seq<string>)
    requires AllPlain(lines) && lines != []
    ensures !Trim.Blank(Gather(lines[..|lines| - 1]) + lines[|lines| - 1])
  {
    var front, last := Gather(lines[..|lines| - 1]), lines[|lines| - 1];
    PlainHasInk(last);
    if Trim.Blank(front + last) { BlankParts(front, last); }
  }

  lemma GatherOne(line: string)
    ensures Gather([line]) == line + NL && TrimSpace(Gather([line])) == TrimSpace(line)
  {
    assert [line][..0] == [] && Gather([]) == "";
    assert "" + line == line;
    TrimAround("", line, NL);
    assert "" + line + NL == line + NL;
  }

  lemma GatherMore(lines: seq<string>)
    requires AllPlain(lines) && |lines| >= 2
    ensures TrimSpace(Gather(lines)) != "---" && TrimSpace(Gather(lines)) != ""
  {
    var front, last := lines[..|lines| - 1], lines[|lines| - 1];
    var f, l := front[..|front| - 1], front[|front| - 1];
    assert AllPlain(front);
    PlainHasInk(last);
    GatherHasInk(front);
    var text := (Gather(f) + l) + NL + last;
    assert Gather(lines) == text + NL;
    hide KindOf, TrimSpace, Gather, Trim.Blank;
    BrokenText(Gather(f) + l, last);
    TrimBreak(text);
  }

  lemma TrimBreak(text: string)
    ensures TrimSpace(text + NL) == TrimSpace(text)
  {
    TrimAround("", text, NL);
    assert "" + text + NL == text + NL;
  }

  /** A paragraph is three dashes just when it is one such line. */
  lemma ParagraphText(lines: seq<string>)
    requires AllPlain(lines)
    ensures (TrimSpace(Gather(lines)) == "") <==> lines == []
    ensures (TrimSpace(Gather(lines)) == "---") <==> (|lines| == 1 && TrimSpace(lines[0]) == "---")
  {
    assert TrimSpace("") == "";
    if |lines| == 1 {
      PlainHasInk(lines[0]);
      GatherOne(lines[0]);
      assert lines == [lines[0]];
    } else if lines != [] {
      GatherMore(lines);
    }
  }

  lemma GatherSnoc(lines: seq<string>, begin: nat, n: nat)
    requires begin < n <= |lines| && AllPlain(lines[begin..n])
    ensures Gather(lines[begin..n]) == Gather(lines[begin..n - 1]) + lines[n - 1] + NL
    ensures AllPlain(lines[begin..n - 1]) && KindOf(lines[n - 1]).Plain?
  {
    hide KindOf;
    var run, front := lines[begin..n], lines[begin..n - 1];
    assert run[..|run| - 1] == front && run[|run| - 1] == lines[n - 1];
  }

  lemma KeptPlain(lines: seq<string>, n: nat)
    requires 0 < n <= |lines| && KindOf(lines[n - 1]).Plain? && !Lone(lines, n - 1)
    ensures Kept(lines, n) == Kept(lines, n - 1) + Ink(lines[n - 1])
  {
    hide KindOf, Lone, Ink;
  }

  lemma InkLine(before: string, line: string)
    ensures Ink(before + line + NL) == Ink(before) + Ink(line)
  {
    InkConcat(before, line);
    InkConcat(before + line, NL);
    InkBlank(NL);
  }

  /** No line of the run is dropped. */
  predicate Counts(lines: seq<string>, begin: nat, n: nat) {
    begin <= n <= |lines| && AllPlain(lines[begin..n]) && forall i :: begin <= i < n ==> !Lone(lines, i)
  }

  lemma CountsLess(lines: seq<string>, begin: nat, n: nat)
    requires begin < n && Counts(lines, begin, n)
    ensures Counts(lines, begin, n - 1) && KindOf(lines[n - 1]).Plain? && !Lone(lines, n - 1)
    ensures Gather(lines[begin..n]) == Gather(lines[begin..n - 1]) + lines[n - 1] + NL
  {
    hide KindOf, Lone, Gather, AllPlain;
    GatherSnoc(lines, begin, n);
  }

  lemma GatherInkStep(kept: string, before: string, gathered: string, line: string)
    requires before == kept + Ink(gathered)
    ensures before + Ink(line) == kept + Ink(gathered + line + NL)
  {
    InkLine(gathered, line);
    hide *;
    Regroup(kept, Ink(gathered), Ink(line));
  }

  lemma NoRun(lines: seq<string>, n: nat)
    requires n <= |lines|
    ensures Kept(lines, n) == Kept(lines, n) + Ink(Gather(lines[n..n]))
  {
    assert lines[n..n] == [] && Gather([]) == "" && Ink("") == "";
    hide Kept;
  }

  lemma {:induction false} GatherInk(lines: seq<string>, begin: nat, n: nat)
    requires begin <= n <= |lines| && Counts(lines, begin, n)
    ensures Kept(lines, n) == Kept(lines, begin) + Ink(Gather(lines[begin..n]))
  {
    hide *;
    if n == begin {
      NoRun(lines, n);
    } else {
      CountsLess(lines, begin, n);
      KeptPlain(lines, n);
      GatherInk(lines, begin, n - 1);
      GatherInkStep(Kept(lines, begin), Kept(lines, n - 1), Gather(lines[begin..n - 1]), lines[n - 1]);
    }
  }

  lemma KeptNothing(lines: seq<string>, n: nat)
    requires n < |lines| && (KindOf(lines[n]).Head? || Trim.Blank(lines[n]) || (KindOf(lines[n]).Plain? && Lone(lines, n)))
    ensures Kept(lines, n + 1) == Kept(lines, n)
  {
    if Trim.Blank(lines[n]) { InkBlank(lines[n]); }
    hide KindOf, Lone, Ink;
    assert Kept(lines, n) + "" == Kept(lines, n);
  }

  lemma KeptTask(lines: seq<string>, n: nat)
    requires n < |lines| && KindOf(lines[n]).TaskLine?
    ensures Kept(lines, n + 1) == Kept(lines, n) + Ink(TrimSpace(lines[n]))
  {
    InkTrimmed(lines[n]);
    hide KindOf, Lone, Ink, TrimSpace;
  }

  lemma RunHasNoLone(lines: seq<string>, begin: nat, n: nat, i: nat)
    requires begin <= i < n <= |lines| && AllPlain(lines[begin..n])
    requires n > begin + 1 || TrimSpace(lines[i]) != "---"
    ensures !Lone(lines, i)
  {
    hide KindOf, TrimSpace;
    var run := lines[begin..n];
    if n > begin + 1 {
      if i > begin {
        assert KindOf(run[i - 1 - begin]).Plain? && IsPlain(lines, i - 1);
      } else {
        assert KindOf(run[i + 1 - begin]).Plain? && IsPlain(lines, i + 1);
      }
    }
  }

  /** What a finished paragraph keeps. */
  lemma ParagraphKept(lines: seq<string>, begin: nat, n: nat)
    requires begin <= n <= |lines| && AllPlain(lines[begin..n]) && !IsPlain(lines, begin - 1) && !IsPlain(lines, n)
    ensures var text := TrimSpace(Gather(lines[begin..n]));
      Kept(lines, n) == if text == "---" then Kept(lines, begin) else Kept(lines, begin) + Ink(text)
  {
    var run := lines[begin..n];
    ParagraphText(run);
    InkTrimmed(Gather(run));
    hide TrimSpace, Ink, Kept, KindOf, Gather;
    if |run| == 1 && TrimSpace(run[0]) == "---" {
      assert run[0] == lines[begin] && KindOf(run[0]).Plain?;
      assert Lone(lines, begin);
      KeptNothing(lines, begin);
    } else {
      forall i | begin <= i < n ensures !Lone(lines, i) {
        assert |run| == 1 ==> run[0] == lines[i];
        RunHasNoLone(lines, begin, n, i);
      }
      assert Counts(lines, begin, n);
      hide *;
      GatherInk(lines, begin, n);
    }
  }

  // ------------------------------------------------------ the reading invariant

  function EnclosingAt(lines: seq<string>, n: nat): seq<string>
    requires n <= |lines|
  {
    seq(Depth(lines, n), i requires i >= 0 => Entry(lines, n, i + 1))
  }

  lemma EnclosesIs(lines: seq<string>, n: nat, headings: seq<string>)
    requires n <= |lines| && Encloses(lines, n, headings)
    ensures headings == EnclosingAt(lines, n)
  {
  }

  /** A chunk of the m-th place that comes from line `o`. */
  predicate ChunkOk(lines: seq<string>, m: nat, c: Chunk, o: nat) {
    && c.ord == m && PieceOk(c.text, MAX_RUNES)
    && o < |lines| && c.headingPath == PathOf(EnclosingAt(lines, o))
    && (if c.kind.Task? then KindOf(lines[o]).TaskLine? else IsPlain(lines, o) && !IsPlain(lines, o - 1))
  }

  predicate ChunksOk(lines: seq<string>, chunks: seq<Chunk>, origins: seq<nat>) {
    && |origins| == |chunks|
    && (forall m :: 0 <= m < |chunks| ==> ChunkOk(lines, m, chunks[m], origins[m]))
    && (forall i, j :: 0 <= i < j < |origins| ==> origins[i] <= origins[j])
  }

  function Texts(chunks: seq<Chunk>): seq<string> {
    if chunks == [] then [] else [chunks[0].text] + Texts(chunks[1..])
  }

  lemma {:induction false} TextsConcat(a: seq<Chunk>, b: seq<Chunk>)
    ensures Texts(a + b) == Texts(a) + Texts(b)
  {
    if a == [] {
      assert a + b == b;
    } else {
      assert (a + b)[1..] == a[1..] + b;
      TextsConcat(a[1..], b);
    }
  }

  lemma {:induction false} TextsNumbered(kind: Kind, parts: seq<string>, path: string, ord: nat)
    ensures Texts(Numbered(kind, parts, path, ord)) == parts
  {
    if parts != [] {
      TextsNumbered(kind, parts[1..], path, ord + 1);
      var cs := Numbered(kind, parts, path, ord);
      assert cs[1..] == Numbered(kind, parts[1..], path, ord + 1);
    }
  }

  /** The first `n` lines have been chunked. */
  predicate Done(lines: seq<string>, n: nat, s: State) {
    && n <= |lines| && ChunksOk(lines, s.chunks, s.origins) && (forall o <- s.origins :: o < n)
    && InkOf(Texts(s.chunks)) == Kept(lines, n)
  }

  /** The paragraph being collected is the run of plain lines from `start` on. */
  predicate Pending(lines: seq<string>, n: nat, s: State) {
    && n <= |lines| && s.line == n && s.start <= n
    && AllPlain(lines[s.start..n]) && !IsPlain(lines, s.start - 1) && s.paragraph == Gather(lines[s.start..n])
    && Encloses(lines, n, s.headings) && Encloses(lines, s.start, s.headings)
  }

  predicate Reading(lines: seq<string>, n: nat, s: State) {
    Pending(lines, n, s) && Done(lines, s.start, s)
  }

  lemma AppendedInk(s: State, kind: Kind, text: string, origin: nat)
    ensures InkOf(Texts(AppendChunk(s, kind, text, origin).chunks)) == InkOf(Texts(s.chunks)) + Ink(text)
  {
    var parts := SplitLong(text, MAX_RUNES);
    var more := Numbered(kind, parts, PathOf(s.headings), |s.chunks|);
    SplitKeepsInk(text, MAX_RUNES);
    TextsNumbered(kind, parts, PathOf(s.headings), |s.chunks|);
    TextsConcat(s.chunks, more);
    InkOfConcat(Texts(s.chunks), parts);
  }

  predicate ComesFrom(lines: seq<string>, kind: Kind, o: nat) {
    && o < |lines|
    && (if kind.Task? then KindOf(lines[o]).TaskLine? else IsPlain(lines, o) && !IsPlain(lines, o - 1))
  }

  lemma NewChunkOk(lines: seq<string>, m: nat, kind: Kind, part: string, headings: seq<string>, origin: nat)
    requires ComesFrom(lines, kind, origin) && PieceOk(part, MAX_RUNES) && Encloses(lines, origin, headings)
    ensures ChunkOk(lines, m, Chunk(kind, m, part, PathOf(headings)), origin)
  {
    EnclosesIs(lines, origin, headings);
  }

  lemma AppendedParts(s: State, kind: Kind, parts: seq<string>, origin: nat, m: nat)
    requires |s.origins| == |s.chunks| && m < |s.chunks| + |parts|
    ensures var k := |s.chunks|; var chunks, origins := s.chunks + Numbered(kind, parts, PathOf(s.headings), k), s.origins + seq(|parts|, _ => origin);
      && chunks[m] == (if m < k then s.chunks[m] else Chunk(kind, m, parts[m - k], PathOf(s.headings)))
      && origins[m] == (if m < k then s.origins[m] else origin)
  {
    hide PathOf;
  }

  lemma AppendedOk(lines: seq<string>, s: State, kind: Kind, text: string, origin: nat)
    requires ChunksOk(lines, s.chunks, s.origins) && (forall o <- s.origins :: o <= origin)
    requires ComesFrom(lines, kind, origin) && Encloses(lines, origin, s.headings)
    ensures var t := AppendChunk(s, kind, text, origin);
      ChunksOk(lines, t.chunks, t.origins) && forall o <- t.origins :: o <= origin
  {
    var parts, k := SplitLong(text, MAX_RUNES), |s.chunks|;
    var t := AppendChunk(s, kind, text, origin);
    SplitKeepsInk(text, MAX_RUNES);
    hide KindOf, ComesFrom, PathOf, SplitLong, Encloses, EnclosingAt, PieceOk, ChunkOk, InkOf, Ink;
    forall m | 0 <= m < |t.chunks|
      ensures ChunkOk(lines, m, t.chunks[m], t.origins[m]) && t.origins[m] == if m < k then s.origins[m] else origin
    {
      AppendedParts(s, kind, parts, origin, m);
      if m >= k {
        assert parts[m - k] in parts;
        NewChunkOk(lines, m, kind, parts[m - k], s.headings, origin);
      }
    }
    OriginsOrdered(lines, s, t.origins, k, origin);
    hide AppendChunk, Chunks, ChunksOk;
    OkFrom(lines, t.chunks, t.origins);
  }

  lemma OkFrom(lines: seq<string>, chunks: seq<Chunk>, origins: seq<nat>)
    requires |origins| == |chunks|
    requires forall m :: 0 <= m < |chunks| ==> ChunkOk(lines, m, chunks[m], origins[m])
    requires forall i, j :: 0 <= i < j < |origins| ==> origins[i] <= origins[j]
    ensures ChunksOk(lines, chunks, origins)
  {
    hide ChunkOk;
  }

  lemma OriginsOrdered(lines: seq<string>, s: State, origins: seq<nat>, k: nat, origin: nat)
    requires ChunksOk(lines, s.chunks, s.origins) && (forall o <- s.origins :: o <= origin)
    requires k == |s.chunks| <= |origins| && forall m :: 0 <= m < |origins| ==> origins[m] == if m < k then s.origins[m] else origin
    ensures forall i, j :: 0 <= i < j < |origins| ==> origins[i] <= origins[j]
    ensures forall o <- origins :: o <= origin
  {
    hide ChunkOk;
    assert forall j :: 0 <= j < k ==> s.origins[j] in s.origins;
  }

  /** Nothing is being collected, and the first `n` lines have been chunked. */
  predicate Flushed(lines: seq<string>, n: nat, s: State) {
    && n <= |lines| && s.line == n && s.start == n && s.paragraph == ""
    && Encloses(lines, n, s.headings) && Done(lines, n, s)
  }

  lemma FlushText(lines: seq<string>, n: nat, s: State, text: string)
    requires Reading(lines, n, s) && s.start < n && ComesFrom(lines, Kind.Paragraph, s.start)
    requires Kept(lines, n) == Kept(lines, s.start) + Ink(text)
    ensures Flushed(lines, n, AppendChunk(s.(paragraph := "", start := n), Kind.Paragraph, text, s.start))
  {
    var rest := s.(paragraph := "", start := n);
    AppendedInk(rest, Kind.Paragraph, text, s.start);
    hide KindOf, ComesFrom, Ink, InkOf, Texts, Encloses, SplitLong, ChunksOk, Kept, IsPlain, AllPlain, Gather;
    AppendedOk(lines, rest, Kind.Paragraph, text, s.start);
  }

  /** Nothing to keep: no paragraph, or one that is dropped. */
  lemma FlushNothing(lines: seq<string>, n: nat, s: State)
    requires Reading(lines, n, s) && Kept(lines, n) == Kept(lines, s.start)
    ensures Flushed(lines, n, s.(paragraph := "", start := n))
  {
    hide KindOf, Ink, InkOf, Texts, Encloses, ChunksOk, Kept, Gather, AllPlain;
  }

  lemma FlushDrops(s: State, text: string)
    requires text == TrimSpace(s.paragraph) && (text == "" || text == "---")
    ensures Flush(s) == s.(paragraph := "", start := s.line)
  {
  }

  lemma FlushAppends(s: State, text: string)
    requires text == TrimSpace(s.paragraph) && text != "" && text != "---"
    ensures Flush(s) == AppendChunk(s.(paragraph := "", start := s.line), Kind.Paragraph, text, s.start)
    ensures Flush(s).headings == s.headings
  {
    hide TrimSpace, SplitLong;
  }

  /** What the run in front of line `n` amounts to. */
  lemma RunText(lines: seq<string>, n: nat, s: State, text: string)
    requires Pending(lines, n, s) && !IsPlain(lines, n) && text == TrimSpace(s.paragraph)
    ensures Kept(lines, n) == if text == "---" then Kept(lines, s.start) else Kept(lines, s.start) + Ink(text)
  {
    hide TrimSpace, Encloses, Kept, Gather, AllPlain, Ink, KindOf;
    ParagraphKept(lines, s.start, n);
  }

  lemma RunStart(lines: seq<string>, n: nat, s: State)
    requires Pending(lines, n, s) && TrimSpace(s.paragraph) != ""
    ensures s.line == n && s.start < n && ComesFrom(lines, Kind.Paragraph, s.start)
  {
    hide TrimSpace, Encloses, AllPlain, ComesFrom, KindOf;
    ParagraphText(lines[s.start..n]);
    FirstPlain(lines, s.start, n);
  }

  lemma NoInk(lines: seq<string>, k: nat)
    requires k <= |lines|
    ensures Kept(lines, k) + Ink("") == Kept(lines, k)
  {
    hide Kept;
  }

  /** Flushing the paragraph in front of a line that does not continue it. */
  lemma FlushReading(lines: seq<string>, n: nat, s: State)
    requires Reading(lines, n, s) && !IsPlain(lines, n)
    ensures Flushed(lines, n, Flush(s)) && Flush(s).headings == s.headings
  {
    var text := TrimSpace(s.paragraph);
    assert Pending(lines, n, s) && s.line == n && s.start <= n;
    hide *;
    RunText(lines, n, s, text);
    NoInk(lines, s.start);
    if text == "" || text == "---" {
      FlushDrops(s, text);
      FlushNothing(lines, n, s);
    } else {
      RunStart(lines, n, s);
      FlushAppends(s, text);
      FlushText(lines, n, s, text);
    }
  }

  lemma FirstPlain(lines: seq<string>, begin: nat, n: nat)
    requires begin <= n <= |lines| && AllPlain(lines[begin..n]) && !IsPlain(lines, begin - 1) && lines[begin..n] != []
    ensures begin < n && ComesFrom(lines, Kind.Paragraph, begin)
  {
    hide KindOf;
    assert lines[begin..n][0] == lines[begin];
  }

  lemma RunGrows(lines: seq<string>, begin: nat, n: nat)
    requires begin <= n && IsPlain(lines, n) && AllPlain(lines[begin..n])
    ensures AllPlain(lines[begin..n + 1]) && Gather(lines[begin..n + 1]) == Gather(lines[begin..n]) + lines[n] + NL
  {
    var run, next := lines[begin..n], lines[begin..n + 1];
    hide KindOf;
    assert next == run + [lines[n]] && next[..|next| - 1] == run;
  }

  /** A plain line continues the paragraph. */
  lemma PlainReading(lines: seq<string>, n: nat, s: State)
    requires Reading(lines, n, s) && IsPlain(lines, n)
    ensures Reading(lines, n + 1, Step(s, lines[n]))
  {
    RunGrows(lines, s.start, n);
    assert KindOf(lines[n]).Plain?;
    hide KindOf, TrimSpace, Done, AllPlain, Gather, Flush;
    SameEncloses(lines, n, s.headings);
    hide Encloses;
    assert Step(s, lines[n]) == s.(paragraph := s.paragraph + lines[n] + NL, line := n + 1);
  }

  lemma StepHead(s: State, line: string)
    requires KindOf(line).Head? && KindOf(line).heading.level >= 1 && Flush(s).line == s.line
    ensures Step(s, line) == Flush(s).(headings := Pushed(Flush(s).headings, KindOf(line).heading), line := s.line + 1, start := s.line + 1)
  {
    hide KindOf, Flush, Pushed;
  }

  lemma StepTask(s: State, line: string)
    requires KindOf(line).TaskLine? && Flush(s).line == s.line
    ensures Step(s, line) == AppendChunk(Flush(s), Kind.Task, TrimSpace(line), s.line).(line := s.line + 1, start := s.line + 1)
  {
    hide KindOf, Flush, TrimSpace, SplitLong;
  }

  lemma StepBlank(s: State, line: string)
    requires KindOf(line).Blank? && Flush(s).line == s.line
    ensures Step(s, line) == Flush(s).(line := s.line + 1, start := s.line + 1)
  {
    hide KindOf, Flush;
  }

  /** Any other line ends it. */
  lemma OtherReading(lines: seq<string>, n: nat, s: State)
    requires Reading(lines, n, s) && n < |lines| && !IsPlain(lines, n)
    ensures Reading(lines, n + 1, Step(s, lines[n]))
  {
    assert s.line == n && !KindOf(lines[n]).Plain?;
    hide *;
    FlushReading(lines, n, s);
    FlushLine(s);
    FlushedReading(lines, n, s);
  }

  lemma FlushedReading(lines: seq<string>, n: nat, s: State)
    requires n < |lines| && Flushed(lines, n, Flush(s)) && Flush(s).line == s.line == n && !KindOf(lines[n]).Plain?
    ensures Reading(lines, n + 1, Step(s, lines[n]))
  {
    hide *;
    var line := lines[n];
    if KindOf(line).Head? {
      HeadRead(lines, n, Flush(s));
      StepHead(s, line);
    } else if KindOf(line).TaskLine? {
      TaskRead(lines, n, Flush(s));
      StepTask(s, line);
    } else {
      BlankRead(lines, n, Flush(s));
      StepBlank(s, line);
    }
  }

  lemma FlushLine(s: State)
    ensures Flush(s).line == s.line
  {
  }

  lemma StartsAfter(lines: seq<string>, n: nat, s: State)
    requires n < |lines| && !IsPlain(lines, n) && s.line == n + 1 && s.start == n + 1 && s.paragraph == ""
    requires Encloses(lines, n + 1, s.headings) && Done(lines, n + 1, s)
    ensures Reading(lines, n + 1, s)
  {
    assert lines[n + 1..n + 1] == [];
    assert AllPlain([]) && Gather([]) == "";
    hide Done, Encloses, AllPlain, Gather, IsPlain;
  }

  lemma DoneMore(lines: seq<string>, n: nat, s: State, t: State)
    requires n < |lines| && Done(lines, n, s) && t.chunks == s.chunks && t.origins == s.origins
    requires Kept(lines, n + 1) == Kept(lines, n)
    ensures Done(lines, n + 1, t)
  {
    hide ChunksOk, InkOf, Texts, Kept;
  }

  lemma HeadLevel(line: string)
    ensures KindOf(line).Head? ==> 1 <= KindOf(line).heading.level <= 6
  {
  }

  lemma HeadRead(lines: seq<string>, n: nat, t: State)
    requires n < |lines| && Flushed(lines, n, t) && KindOf(lines[n]).Head?
    ensures KindOf(lines[n]).heading.level >= 1
    ensures Reading(lines, n + 1, t.(headings := Pushed(t.headings, KindOf(lines[n]).heading), line := n + 1, start := n + 1))
  {
    HeadLevel(lines[n]);
    assert Encloses(lines, n, t.headings) && Done(lines, n, t) && t.paragraph == "" && !IsPlain(lines, n);
    var u := t.(headings := Pushed(t.headings, KindOf(lines[n]).heading), line := n + 1, start := n + 1);
    hide *;
    KeptNothing(lines, n);
    PushedEncloses(lines, n, t.headings);
    DoneMore(lines, n, t, u);
    StartsAfter(lines, n, u);
  }

  lemma TaskRead(lines: seq<string>, n: nat, t: State)
    requires n < |lines| && Flushed(lines, n, t) && KindOf(lines[n]).TaskLine?
    ensures Reading(lines, n + 1, AppendChunk(t, Kind.Task, TrimSpace(lines[n]), n).(line := n + 1, start := n + 1))
  {
    var text := TrimSpace(lines[n]);
    var u := AppendChunk(t, Kind.Task, text, n);
    assert u.headings == t.headings && u.paragraph == "" && Encloses(lines, n, t.headings) && !IsPlain(lines, n);
    hide KindOf, TrimSpace, Encloses, Done, IsPlain;
    TaskDone(lines, n, t, text);
    DoneLine(lines, n + 1, u);
    hide *;
    SameEncloses(lines, n, t.headings);
    StartsAfter(lines, n, u.(line := n + 1, start := n + 1));
  }

  lemma DoneLine(lines: seq<string>, n: nat, s: State)
    requires Done(lines, n, s)
    ensures Done(lines, n, s.(line := n, start := n))
  {
    hide ChunksOk, InkOf, Texts, Kept;
  }

  lemma TaskDone(lines: seq<string>, n: nat, t: State, text: string)
    requires n < |lines| && Done(lines, n, t) && Encloses(lines, n, t.headings)
    requires KindOf(lines[n]).TaskLine? && text == TrimSpace(lines[n])
    ensures Done(lines, n + 1, AppendChunk(t, Kind.Task, text, n))
  {
    KeptTask(lines, n);
    AppendedInk(t, Kind.Task, text, n);
    assert ComesFrom(lines, Kind.Task, n);
    hide KindOf, ChunksOk, InkOf, Texts, TrimSpace, Ink, AppendChunk, ComesFrom, Encloses, Kept;
    AppendedOk(lines, t, Kind.Task, text, n);
  }

  lemma BlankRead(lines: seq<string>, n: nat, t: State)
    requires n < |lines| && Flushed(lines, n, t) && KindOf(lines[n]).Blank?
    ensures Reading(lines, n + 1, t.(line := n + 1, start := n + 1))
  {
    NotBlank(lines[n]);
    assert Trim.Blank(lines[n]) && Encloses(lines, n, t.headings) && Done(lines, n, t) && t.paragraph == "" && !IsPlain(lines, n);
    hide *;
    KeptNothing(lines, n);
    SameEncloses(lines, n, t.headings);
    DoneMore(lines, n, t, t.(line := n + 1, start := n + 1));
    StartsAfter(lines, n, t.(line := n + 1, start := n + 1));
  }

  lemma ReadSnoc(lines: seq<string>, n: nat)
    requires 0 < n <= |lines|
    ensures Read(lines[..n]) == Step(Read(lines[..n - 1]), lines[n - 1])
  {
    hide Step;
    assert lines[..n][..n - 1] == lines[..n - 1];
  }

  lemma NothingRead(lines: seq<string>)
    ensures Reading(lines, 0, Read(lines[..0]))
  {
    assert lines[0..0] == [] && lines[..0] == [];
  }

  lemma {:induction false} ReadIsReading(lines: seq<string>, n: nat)
    requires n <= |lines|
    ensures Reading(lines, n, Read(lines[..n]))
  {
    hide *;
    if n == 0 {
      NothingRead(lines);
    } else {
      ReadIsReading(lines, n - 1);
      ReadSnoc(lines, n);
      if IsPlain(lines, n - 1) {
        PlainReading(lines, n - 1, Read(lines[..n - 1]));
      } else {
        OtherReading(lines, n - 1, Read(lines[..n - 1]));
      }
    }
  }

  // -------------------------------------------------------------- the theorem

  /** The chunks of a body: numbered in order, each not empty, trimmed and within
      the limit; each with the path of the headings that enclose the line it comes
      from; and together they hold exactly the ink of the body's lines, but for
      headings and lone "---" paragraphs, in order. */
  lemma ChunkTheorem(lines: seq<string>) returns (origins: seq<nat>)
    ensures ChunksOk(lines, ChunksOfLines(lines), origins)
    ensures InkOf(Texts(ChunksOfLines(lines))) == Kept(lines, |lines|)
  {
    ReadIsReading(lines, |lines|);
    assert lines[..|lines|] == lines;
    hide Reading, KindOf;
    FlushReading(lines, |lines|, Read(lines));
    origins := Flush(Read(lines)).origins;
  }

  lemma {:induction false} InkOfJoin(lines: seq<string>)
    ensures Ink(Join(lines, NL)) == InkOf(lines)
  {
    if |lines| == 1 {
      assert InkOf(lines[1..]) == "";
    } else if |lines| > 1 {
      InkOfJoin(lines[1..]);
      InkConcat(lines[0] + NL, Join(lines[1..], NL));
      InkConcat(lines[0], NL);
      InkBlank(NL);
    }
  }

  lemma {:induction false} InkOfReturns(s: string)
    ensures Ink(DropReturns(s)) == Ink(s)
  {
    if DropReturns(s) != s {
      var last := [s[|s| - 1]];
      assert s == s[..|s| - 1] + last;
      InkConcat(s[..|s| - 1], last);
      InkBlank(last);
      InkOfReturns(s[..|s| - 1]);
    }
  }

  lemma {:induction false} InkOfAllReturns(lines: seq<string>)
    ensures InkOf(DropAllReturns(lines)) == InkOf(lines)
  {
    if lines != [] {
      InkOfReturns(lines[0]);
      InkOfAllReturns(lines[1..]);
      var rest := DropAllReturns(lines[1..]);
      assert DropAllReturns(lines) == [DropReturns(lines[0])] + rest && ([DropReturns(lines[0])] + rest)[1..] == rest;
    }
  }

  /** The lines of a body hold its ink. */
  lemma NoteLinesInk(content: string)
    ensures InkOf(NoteLines(content)) == Ink(WithoutFrontmatter(content))
  {
    var body := TrimSpace(WithoutFrontmatter(content));
    InkTrimmed(WithoutFrontmatter(content));
    hide WithoutFrontmatter, TrimSpace, DropAllReturns;
    if body != "" {
      LinesJoined(body);
      InkOfJoin(Lines(body));
      InkOfAllReturns(Lines(body));
    }
  }

  /** The same for a content: the ink behind its front matter is that of its lines, and
      its chunks hold it but for headings and lone "---" paragraphs, under the enclosing
      headings. */
  lemma NoteTheorem(content: string) returns (origins: seq<nat>)
    ensures var lines := NoteLines(content);
      && InkOf(lines) == Ink(WithoutFrontmatter(content))
      && ChunksOk(lines, Chunks(content), origins)
      && InkOf(Texts(Chunks(content))) == Kept(lines, |lines|)
  {
    NoteLinesInk(content);
    hide NoteLines, ChunksOfLines, WithoutFrontmatter, ChunksOk, Texts, Kept;
    origins := ChunkTheorem(NoteLines(content));
  }

  /** The chunks of a note are numbered from 0 on. */
  lemma ChunksNumbered(content: string)
    ensures forall m :: 0 <= m < |Chunks(content)| ==> Chunks(content)[m].ord == m
  {
    var origins := NoteTheorem(content);
    hide Chunks, NoteLines, WithoutFrontmatter, KindOf, PathOf, PieceOk, EnclosingAt, IsPlain;
    forall m | 0 <= m < |Chunks(content)| ensures Chunks(content)[m].ord == m {
      assert ChunkOk(NoteLines(content), m, Chunks(content)[m], origins[m]);
    }
  }

  // -------------------------------------------------------------- the methods

  method FindCut(runes: string, max: nat) returns (cut: nat)
    requires 0 < max < |runes|
    ensures cut == CutFrom(runes, max, max)
  {
    cut := max;
    var i := max;
    while i > max / 2
      invariant max / 2 <= i <= max && CutFrom(runes, i, max) == CutFrom(runes, max, max)
    {
      if IsBreak(runes[i - 1]) {
        return i;
      }
      i := i - 1;
    }
  }

  method AppendPart(parts: seq<string>, s: string) returns (out: seq<string>)
    ensures out == parts + Part(s)
  {
    var part := TrimSpace(s);
    out := parts;
    if part != "" { out := parts + [part]; }
  }

  /** splitLongText computes `SplitLong`. */
  method SplitLongText(text: string, maxRunes: nat) returns (parts: seq<string>)
    requires maxRunes > 0
    ensures parts == SplitLong(text, maxRunes)
  {
    parts := [];
    var runes := TrimSpace(text);
    ghost var whole := runes;
    hide TrimSpace, Part;
    while |runes| > maxRunes
      invariant parts + Pieces(runes, maxRunes) == Pieces(whole, maxRunes)
      decreases |runes|
    {
      ghost var before := runes;
      var cut := FindCut(runes, maxRunes);
      parts := AppendPart(parts, runes[..cut]);
      runes := runes[cut..];
      ghost var behind := runes;
      while |runes| > 0 && IsBreak(runes[0])
        invariant DropBreaks(runes) == DropBreaks(behind) && |runes| <= |behind|
      {
        runes := runes[1..];
      }
      assert runes == DropBreaks(behind);
      assert Pieces(before, maxRunes) == Part(before[..cut]) + Pieces(runes, maxRunes);
    }
    parts := AppendPart(parts, runes);
  }

  lemma ExtendedBy(chunks: seq<Chunk>, all: seq<Chunk>, i: nat)
    requires i < |all|
    ensures chunks + all[..i] + [all[i]] == chunks + all[..i + 1]
  {
  }

  method AppendChunks(chunks: seq<Chunk>, headings: seq<string>, kind: Kind, text: string) returns (out: seq<Chunk>)
    ensures out == chunks + Numbered(kind, SplitLong(text, MAX_RUNES), PathOf(headings), |chunks|)
  {
    var parts := SplitLongText(text, MAX_RUNES);
    var path := PathOf(headings);
    ghost var all := Numbered(kind, parts, path, |chunks|);
    hide *;
    out := chunks;
    for i := 0 to |parts|
      invariant out == chunks + all[..i]
    {
      var chunk := Chunk(kind, |out|, parts[i], path);
      assert all[i] == chunk;
      ExtendedBy(chunks, all, i);
      out := out + [chunk];
    }
    assert all[..|parts|] == all;
  }

  method FlushParagraph(chunks: seq<Chunk>, headings: seq<string>, paragraph: string, ghost s: State) returns (out: seq<Chunk>)
    requires chunks == s.chunks && headings == s.headings && paragraph == s.paragraph
    ensures out == Flush(s).chunks
  {
    var text := TrimSpace(paragraph);
    if text == "" || text == "---" { return chunks; }
    out := AppendChunks(chunks, headings, Kind.Paragraph, text);
  }

  method PushHeading(headings: seq<string>, h: Heading) returns (out: seq<string>)
    requires h.level >= 1
    ensures out == Pushed(headings, h)
  {
    out := headings;
    if |out| >= h.level { out := out[..h.level - 1]; }
    ghost var cut := out;
    while |out| < h.level - 1
      invariant |out| <= h.level - 1 && |cut| <= |out| && out[..|cut|] == cut && forall i :: |cut| <= i < |out| ==> out[i] == ""
    {
      out := out + [""];
    }
    assert out == Padded(headings, h.level - 1);
    out := out + [h.title];
  }

  /** The loop over the lines computes `ChunksOfLines`. */
  method ChunkLines(lines: seq<string>) returns (chunks: seq<Chunk>)
    ensures chunks == ChunksOfLines(lines)
  {
    chunks := [];
    var headings: seq<string> := [];
    var paragraph := "";
    for i := 0 to |lines|
      invariant var s := Read(lines[..i]); chunks == s.chunks && headings == s.headings && paragraph == s.paragraph
    {
      ghost var s := Read(lines[..i]);
      ReadSnoc(lines, i + 1);
      HeadLevel(lines[i]);
      var kind := KindOf(lines[i]);
      hide KindOf, TrimSpace, SplitLong, Pushed;
      if kind.Plain? {
        paragraph := paragraph + lines[i] + NL;
        continue;
      }
      chunks := FlushParagraph(chunks, headings, paragraph, s);
      paragraph := "";
      if kind.Head? {
        headings := PushHeading(headings, kind.heading);
      } else if kind.TaskLine? {
        chunks := AppendChunks(chunks, headings, Kind.Task, TrimSpace(lines[i]));
      }
    }
    assert lines[..|lines|] == lines;
    chunks := FlushParagraph(chunks, headings, paragraph, Read(lines));
  }

  /** ChunkContent computes `Chunks`. */
  method ChunkContent(content: string) returns (chunks: seq<Chunk>)
    ensures chunks == Chunks(content)
  {
    var body := TrimSpace(WithoutFrontmatter(content));
    if body == "" {
      return [];
    }
    chunks := ChunkLines(BodyLines(body));
  }
}
