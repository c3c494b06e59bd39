/** What it does to the index that front matter is stripped twice: once for the body
    of a note, and once more when the body is chunked (search/document.go,
    search/chunker.go, search/indexer.go). */
module FrontMatter {
  import opened Options
  import opened Text
  import opened Trim
  import opened Chunker
  import opened ChunkOrigins
  import opened ChunkEnds
  import opened IndexTables
  import Sections

  // ------------------------------------------------------------------ the block

  function WithoutBom(content: string): string {
    if BOM <= content then content[|BOM|..] else content
  }

  /** The lines that stripFrontmatter takes off a text: those up to the closing line,
      if the first is three dashes and there is one; else none. */
  function Block(content: string): nat {
    var lines := Lines(WithoutBom(content));
    if |lines| < 2 || DropOneReturn(lines[0]) != "---" then 0
    else
      var k := ClosingLine(lines, 1);
      if k == |lines| then 0 else k + 1
  }

  lemma BlockIs(content: string)
    ensures var lines, b := Lines(WithoutBom(content)), Block(content);
      && b <= |lines| && (b > 0 ==> b >= 2)
      && WithoutFrontmatter(content) == if b == 0 then content else DropLineBreaks(Join(lines[b..], NL))
  {
    hide DropOneReturn, DropLineBreaks, Join, Split;
  }

  // ----------------------------------------------- what the second strip leaves

  lemma BlankLines(u: string)
    requires Trim.Blank(u)
    ensures forall i :: 0 <= i < |Lines(u)| ==> Trim.Blank(Lines(u)[i])
  {
    LinesJoined(u);
    forall i | 0 <= i < |Lines(u)| ensures Trim.Blank(Lines(u)[i]) {
      var a, b := PartWithin(Lines(u), NL, i);
      assert forall j :: 0 <= j < |Lines(u)[i]| ==> u[|a| + j] == Lines(u)[i][j];
    }
  }

  lemma {:induction false} DropReturnsStarts(s: string)
    ensures DropReturns(s) <= s
  {
    if DropReturns(s) != s { DropReturnsStarts(s[..|s| - 1]); }
  }

  /** Only what ends the line is dropped. */
  lemma {:induction false} DropReturnsBehind(w: string, s: string)
    requires s != "" && !IsSpace(s[0])
    ensures DropReturns(w + s) == w + DropReturns(s)
    decreases |s|
  {
    var all := w + s;
    assert all[|all| - 1] == s[|s| - 1] && all[..|all| - 1] == w + s[..|s| - 1];
    if s[|s| - 1] in "\r\n" { DropReturnsBehind(w, s[..|s| - 1]); }
  }

  lemma DropReturnsBlank(s: string)
    requires Trim.Blank(s)
    ensures Trim.Blank(DropReturns(s))
  {
    DropReturnsStarts(s);
  }

  lemma {:induction false} DropLineBreaksForm(s: string) returns (u: string)
    ensures s == u + DropLineBreaks(s) && Trim.Blank(u)
  {
    u := "";
    if s != "" && s[0] in "\r\n" {
      u := DropLineBreaksForm(s[1..]);
      u := [s[0]] + u;
      assert s == [s[0]] + s[1..];
    }
  }

  lemma TrimBroken(s: string)
    ensures TrimSpace(DropLineBreaks(s)) == TrimSpace(s)
  {
    var u := DropLineBreaksForm(s);
    TrimAround(u, DropLineBreaks(s), "");
    assert u + DropLineBreaks(s) + "" == s;
  }

  lemma FirstOfTrimmed(core: string)
    requires core != "" && !IsSpace(core[0])
    ensures Lines(core)[0] != "" && !IsSpace(Lines(core)[0][0])
  {
    assert !(NL <= core);
  }

  lemma TrimLinesShape(t: string, u: string, core: string)
    requires t == u + core && Trim.Blank(u) && core != "" && !IsSpace(core[0])
    ensures var ls, e, x := Lines(t), |Lines(u)| - 1, Lines(u)[|Lines(u)| - 1];
      && e < |ls| && |Lines(core)| == |ls| - e && Trim.Blank(x) && ls[e] == x + Lines(core)[0]
      && (forall i :: 0 <= i < e ==> Trim.Blank(ls[i]))
      && forall i :: 0 < i < |Lines(core)| ==> Lines(core)[i] == ls[e + i]
  {
    BlankLines(u);
    Sections.LinesGlue(u, core);
    hide Split, Trim.Blank;
  }

  lemma LastBlank(a: string, b: string)
    requires Trim.Blank(b)
    ensures b == "" || IsSpace((a + b)[|a + b| - 1])
  {
    assert b != "" ==> (a + b)[|a + b| - 1] == b[|b| - 1];
  }

  lemma TrimCore(t: string) returns (u: string)
    requires t != "" && !IsSpace(t[|t| - 1])
    ensures t == u + TrimSpace(t) && Trim.Blank(u) && TrimSpace(t) != "" && !IsSpace(TrimSpace(t)[0])
  {
    var v;
    u, v := TrimForm(t);
    var core := TrimSpace(t);
    LastBlank(u + core, v);
    LastBlank("", u);
    hide TrimSpace, IsSpace;
    assert u + core + "" == u + core && u + "" == u && "" + u == u;
  }

  /** Without the ends of lines they are the same but for the blanks. */
  lemma ReturnsBehind(ls: seq<string>, e: nat, x: string, cl: seq<string>)
    requires e < |ls| && |cl| == |ls| - e && Trim.Blank(x) && ls[e] == x + cl[0] && cl[0] != "" && !IsSpace(cl[0][0])
    requires forall i :: 0 <= i < e ==> Trim.Blank(ls[i])
    requires forall i :: 0 < i < |cl| ==> cl[i] == ls[e + i]
    ensures var all := DropAllReturns(ls);
      Behind(all, e, DropAllReturns(cl)) && forall i :: 0 <= i < e ==> Trim.Blank(all[i])
  {
    hide DropReturns, Trim.Blank, IsSpace, Indents;
    forall i | 0 <= i < e ensures Trim.Blank(DropAllReturns(ls)[i]) { DropReturnsBlank(ls[i]); }
    DropReturnsBehind(x, cl[0]);
    IndentsBy(x, DropReturns(cl[0]));
  }

  /** The lines of a trimmed end of a text. */
  lemma TrimLines(t: string) returns (d: nat)
    requires t != "" && !IsSpace(t[|t| - 1])
    ensures var all := DropAllReturns(Lines(t));
      Behind(all, d, BodyLines(TrimSpace(t))) && forall i :: 0 <= i < d ==> Trim.Blank(all[i])
  {
    var u := TrimCore(t);
    var core := TrimSpace(t);
    hide TrimSpace, IsSpace, Trim.Blank, Split, DropAllReturns, Behind;
    TrimLinesShape(t, u, core);
    FirstOfTrimmed(core);
    d := |Lines(u)| - 1;
    ReturnsBehind(Lines(t), d, Lines(u)[d], Lines(core));
  }

  lemma BomLines(body: string)
    ensures var all, ls := Lines(body), Lines(WithoutBom(body));
      |all| == |ls| && forall i :: 0 < i < |ls| ==> all[i] == ls[i]
  {
    if BOM <= body {
      var c := WithoutBom(body);
      assert body == BOM + c;
      LinesOfLine(BOM);
      Sections.LinesGlue(BOM, c);
    }
  }

  /** The end of a text from a line on. */
  lemma {:induction false} EndFrom(ls: seq<string>, b: nat)
    requires b < |ls|
    ensures var s, t := Join(ls, NL), Join(ls[b..], NL); |t| <= |s| && s[|s| - |t|..] == t
  {
    if b == 0 {
      assert ls[0..] == ls;
    } else {
      EndFrom(ls[1..], b - 1);
      assert ls[1..][b - 1..] == ls[b..];
      var s, s', t := Join(ls, NL), Join(ls[1..], NL), Join(ls[b..], NL);
      assert s == (ls[0] + NL) + s';
      assert s[|s| - |s'|..] == s';
      assert s[|s| - |t|..] == s'[|s'| - |t|..];
    }
  }

  lemma {:induction false} ReturnsFrom(ls: seq<string>, b: nat)
    requires b <= |ls|
    ensures DropAllReturns(ls[b..]) == DropAllReturns(ls)[b..]
  {
    hide DropReturns;
  }

  lemma NothingLeft(lines: seq<string>, b: nat)
    requires b == |lines|
    ensures BodyLines(TrimSpace("")) == [] && Behind(lines, b, [])
  {
  }

  lemma LinesFrom(body: string, b: nat)
    requires b < |Lines(body)|
    ensures Lines(Join(Lines(body)[b..], NL)) == Lines(body)[b..]
  {
    LinesAreLines(body);
    LinesOfJoin(Lines(body)[b..]);
  }

  lemma EndOfBody(body: string, b: nat)
    requires Trimmed(body) && body != "" && 0 < b < |Lines(body)|
    ensures var t := Join(Lines(body)[b..], NL); t != "" && !IsSpace(t[|t| - 1])
  {
    LinesJoined(body);
    EndFrom(Lines(body), b);
    var ls, t := Lines(body), Join(Lines(body)[b..], NL);
    Sections.JoinEnd(ls);
    Sections.JoinEnd(ls[b..]);
    hide Split, Join;
    assert ls[b..][|ls[b..]| - 1] == ls[|ls| - 1];
    assert IsSpace('\n');
  }

  lemma BehindFrom(lines: seq<string>, b: nat, e: nat, rest: seq<string>) returns (d: nat)
    requires b <= |lines| && Behind(lines[b..], e, rest) && forall i :: 0 <= i < e ==> Trim.Blank(lines[b..][i])
    ensures d == b + e && Behind(lines, d, rest) && forall i :: b <= i < d ==> Trim.Blank(lines[i])
  {
    hide Indents, Trim.Blank;
    d := b + e;
    assert rest != [] ==> lines[b..][e] == lines[d];
    forall i | 0 < i < |rest| ensures rest[i] == lines[d + i] { assert lines[b..][e + i] == lines[d + i]; }
    forall i | b <= i < d ensures Trim.Blank(lines[i]) { assert lines[b..][i - b] == lines[i]; }
  }

  /** What is left of a trimmed text when the block is taken off, line by line. */
  lemma SecondStrip(body: string) returns (d: nat)
    requires Trimmed(body) && Block(body) > 0
    ensures var lines, b := BodyLines(body), Block(body);
      b <= d && Behind(lines, d, NoteLines(body)) && forall i :: b <= i < d ==> Trim.Blank(lines[i])
  {
    var b, all, ls := Block(body), Lines(body), Lines(WithoutBom(body));
    BlockIs(body);
    BomLines(body);
    assert body != "";
    hide Block, Split, WithoutFrontmatter, Behind, TrimSpace, DropAllReturns;
    assert ls[b..] == all[b..];
    var t := Join(ls[b..], NL);
    TrimBroken(t);
    ReturnsFrom(all, b);
    if b == |all| {
      NothingLeft(BodyLines(body), b);
      d := b;
    } else {
      EndOfBody(body, b);
      var e := TrimLines(t);
      LinesFrom(body, b);
      d := BehindFrom(BodyLines(body), b, e, NoteLines(body));
    }
  }

  // -------------------------------------------------------------------- the ink

  /** Taken off once, the front matter is gone: the body is what chunks are made of. */
  lemma StrippedOnce(content: string)
    requires Block(Body(content)) == 0
    ensures Chunks(Body(content)) == Chunks(content) && Derived(content) == RowsOf(Chunks(content))
  {
    var body := Body(content);
    BlockIs(body);
    TrimTwice(WithoutFrontmatter(content));
    hide Block, WithoutFrontmatter, TrimSpace, BodyLines, ChunksOfLines, RowsOf;
    assert NoteLines(body) == NoteLines(content);
  }

  lemma BodyTrimmed(content: string)
    ensures Trimmed(Body(content)) && BodyLines(Body(content)) == NoteLines(content)
  {
    var u, v := TrimForm(WithoutFrontmatter(content));
  }

  /** The chunks behind the rows of a note hold what the chunks of its content hold
      exactly when the lines that a second strip takes off its body hold nothing. */
  lemma InkExactly(content: string)
    ensures var lines := NoteLines(content);
      InkOf(Texts(Chunks(Body(content)))) == Kept(lines, |lines|) <==> AllVoid(lines, Block(Body(content)))
  {
    var body := Body(content);
    var origins := NoteTheorem(body);
    BodyTrimmed(content);
    hide *;
    if Block(body) == 0 {
      StrippedOnce(content);
      var _ := NoteTheorem(content);
      NoneKept(NoteLines(content));
    } else {
      var d := SecondStrip(body);
      LosesExactly(NoteLines(content), Block(body), d, NoteLines(body));
    }
  }

  // ------------------------------------------------------------------- the rows

  lemma SameKey(a: seq<Chunk>, b: seq<Chunk>, m: nat)
    requires m < |a| && RowsOf(a) == RowsOf(b)
    requires (forall i :: 0 <= i < |a| ==> a[i].ord == i) && forall i :: 0 <= i < |b| ==> b[i].ord == i
    ensures m < |b| && a[m] == b[m]
  {
    RowsOfChunks(a);
    RowsOfChunks(b);
    var k := Key(a[m].kind, m);
    hide RowsOf;
    assert k in RowsOf(a) && RowIs(a, k, RowsOf(a)[k]) && RowIs(b, k, RowsOf(b)[k]);
  }

  /** Rows are those of one list of chunks only. */
  lemma RowsTell(a: seq<Chunk>, b: seq<Chunk>)
    requires (forall i :: 0 <= i < |a| ==> a[i].ord == i) && forall i :: 0 <= i < |b| ==> b[i].ord == i
    ensures RowsOf(a) == RowsOf(b) <==> a == b
  {
    hide RowsOf;
    if RowsOf(a) == RowsOf(b) {
      if |a| > |b| { SameKey(a, b, |b|); }
      if |b| > |a| { SameKey(b, a, |a|); }
      forall m | 0 <= m < |a| ensures a[m] == b[m] { SameKey(a, b, m); }
    }
  }

  lemma SameInk(content: string)
    requires Chunks(Body(content)) == Chunks(content)
    ensures AllVoid(NoteLines(content), Block(Body(content)))
  {
    hide *;
    InkExactly(content);
    var _ := NoteTheorem(content);
  }

  lemma RowsAre(content: string)
    ensures Derived(content) == RowsOf(Chunks(Body(content)))
    ensures Chunks(Body(content)) == ChunksOfLines(NoteLines(Body(content))) && Chunks(content) == ChunksOfLines(NoteLines(content))
  {
    hide Body, NoteLines, ChunksOfLines, RowsOf;
  }

  lemma NothingUnder(lines: seq<string>)
    ensures AllVoid(lines, 0) && Clear(lines, 0)
  {
  }

  lemma ChunksWhenVoid(content: string)
    requires var body := Body(content); Block(body) > 0 && AllVoid(NoteLines(content), Block(body))
    ensures ChunksOfLines(NoteLines(content)) == ChunksOfLines(NoteLines(Body(content))) <==> Clear(NoteLines(content), Block(Body(content)))
  {
    hide *;
    var lines, b, body := NoteLines(content), Block(Body(content)), Body(content);
    BodyTrimmed(content);
    var d := SecondStrip(body);
    BehindSize(lines, d, NoteLines(body));
    KeptNoneExactly(lines, b);
    KeptBlanks(lines, b, d);
    VoidEnds(lines, b);
    ClearBlanks(lines, b, d);
    ChunksEqual(lines, d, NoteLines(body));
  }

  /** The rows of a note are the chunks of its content exactly when the lines that a
      second strip takes off its body hold no text that chunks would, and no heading
      that a later chunk stands under. */
  lemma RowsExactly(content: string)
    ensures var lines, b := NoteLines(content), Block(Body(content));
      Derived(content) == RowsOf(Chunks(content)) <==> AllVoid(lines, b) && Clear(lines, b)
  {
    var lines, b, rest := NoteLines(content), Block(Body(content)), NoteLines(Body(content));
    hide *;
    ChunksNumbered(content);
    ChunksNumbered(Body(content));
    RowsTell(Chunks(Body(content)), Chunks(content));
    RowsAre(content);
    if b == 0 {
      StrippedOnce(content);
      NothingUnder(lines);
    } else {
      if Chunks(Body(content)) == Chunks(content) { SameInk(content); }
      if AllVoid(lines, b) { ChunksWhenVoid(content); }
    }
  }

  // --------------------------------------------------------------------- a note

  const LOSING_LINES: seq<string> := ["---", "x", "---", "y"]

  const LOSING_BODY: string := "---" + NL + "x" + NL + "---" + NL + "y"

  /** A note without front matter, whose body looks as if it had some. */
  const LOSING: string := NL + LOSING_BODY

  lemma JoinFour(a: string, b: string, c: string, d: string)
    ensures Join([a, b, c, d], NL) == a + NL + b + NL + c + NL + d
  {
    JoinCons(a, [b, c, d], NL);
    JoinCons(b, [c, d], NL);
    JoinCons(c, [d], NL);
    assert [a] + [b, c, d] == [a, b, c, d] && [b] + [c, d] == [b, c, d] && [c] + [d] == [c, d] && Join([d], NL) == d;
    hide Join;
    assert a + NL + (b + NL + (c + NL + d)) == a + NL + b + NL + c + NL + d;
  }

  lemma LosingLines()
    ensures Lines(LOSING) == [""] + LOSING_LINES && Lines(LOSING_BODY) == LOSING_LINES
  {
    assert forall k :: 0 <= k < 4 ==> IsLine(LOSING_LINES[k]);
    hide Split, Join;
    JoinFour("---", "x", "---", "y");
    LinesOfJoin(LOSING_LINES);
    LinesConcat("", LOSING_BODY);
    LinesOfLine("");
    assert "" + NL + LOSING_BODY == LOSING;
  }

  lemma LosingStrip()
    ensures WithoutFrontmatter(LOSING) == LOSING
  {
    LosingLines();
    assert LOSING[0] != BOM[0] && WithoutBom(LOSING) == LOSING;
    BlockIs(LOSING);
    hide Split, WithoutFrontmatter;
    assert Lines(LOSING)[0] == "" && DropOneReturn("") != "---";
  }

  lemma LosingTrim()
    ensures TrimSpace(LOSING) == LOSING_BODY
  {
    var body := LOSING_BODY;
    assert Trim.Blank(NL) && body[0] == '-' && body[|body| - 1] == 'y';
    hide TrimSpace;
    TrimOf(NL, body, "");
    assert NL + body + "" == LOSING;
  }

  lemma LosingReturns()
    ensures DropAllReturns(LOSING_LINES) == LOSING_LINES
  {
    var ls := LOSING_LINES;
    assert DropReturns("---") == "---" && DropReturns("x") == "x" && DropReturns("y") == "y";
    assert forall i :: 0 <= i < 4 ==> DropReturns(ls[i]) == ls[i];
    hide DropReturns;
  }

  lemma LosingBody()
    ensures Body(LOSING) == LOSING_BODY && NoteLines(LOSING) == LOSING_LINES
  {
    LosingStrip();
    LosingTrim();
    LosingLines();
    LosingReturns();
    hide Split, TrimSpace, WithoutFrontmatter, DropAllReturns;
    assert LOSING_BODY != "";
  }

  lemma LosingBlock()
    ensures Block(LOSING_BODY) == 3
  {
    LosingLines();
    var body := LOSING_BODY;
    assert body[0] != BOM[0] && WithoutBom(body) == body;
    hide Split;
    var ls := Lines(body);
    assert DropOneReturn(ls[1]) == "x" && DropOneReturn(ls[2]) == "---";
    assert ClosingLine(ls, 2) == 2 && ClosingLine(ls, 1) == 2;
  }

  lemma TextNotVoid(lines: seq<string>)
    requires lines == LOSING_LINES
    ensures !AllVoid(lines, 3)
  {
    TrimOf("", "x", "");
    assert "" + "x" + "" == "x";
    assert Hashes("x") == 0;
    assert lines[1] == "x" && KindOf("x").Plain?;
    hide KindOf, TrimSpace;
    assert !Void(lines, 1);
  }

  lemma LosingRest()
    ensures NoteLines(LOSING_BODY) == ["y"]
  {
    LosingBlock();
    LosingLines();
    BlockIs(LOSING_BODY);
    assert WithoutBom(LOSING_BODY) == LOSING_BODY by { assert LOSING_BODY[0] != BOM[0]; }
    assert LOSING_LINES[3..] == ["y"] && Join(["y"], NL) == "y" && DropLineBreaks("y") == "y";
    TrimOf("", "y", "");
    assert "" + "y" + "" == "y";
    LinesOfLine("y");
    hide Split, WithoutFrontmatter, TrimSpace;
    assert DropReturns("y") == "y" && DropAllReturns(["y"]) == ["y"];
  }

  lemma PlainText(s: string)
    requires s in {"---", "x", "y"}
    ensures KindOf(s).Plain? && Ink(s) == s
  {
    TrimOf("", s, "");
    assert "" + s + "" == s;
    assert Hashes(s) == 0;
    assert Ink("-") == "-" && Ink("--") == "--";
  }

  /** A text line keeps its ink, and so do its neighbours. */
  lemma NoneAlone(lines: seq<string>, i: nat)
    requires i < |lines| && lines[i] in {"---", "x", "y"}
    requires lines[i] == "---" ==> i + 1 < |lines| && lines[i + 1] in {"x", "y"}
    ensures Kept(lines, i + 1) == Kept(lines, i) + lines[i]
  {
    PlainText(lines[i]);
    if lines[i] == "---" {
      PlainText(lines[i + 1]);
    } else {
      LoneIsNot(lines, i);
    }
    hide KindOf, Ink, TrimSpace;
    KeptStep(lines, i);
  }

  lemma LosingKept()
    ensures Kept(["y"], 1) == "y" && |LOSING_LINES| == 4 && Kept(LOSING_LINES, 4) == "---x---y"
  {
    hide KindOf, Ink, Lone;
    NoneAlone(["y"], 0);
    KeptNoLines(["y"], "");
    NoneAlone(LOSING_LINES, 0);
    NoneAlone(LOSING_LINES, 1);
    NoneAlone(LOSING_LINES, 2);
    NoneAlone(LOSING_LINES, 3);
    KeptNoLines(LOSING_LINES, "");
    hide Kept;
  }

  lemma LoneIsNot(lines: seq<string>, i: nat)
    requires i < |lines| && lines[i] in {"x", "y"}
    ensures !Lone(lines, i)
  {
    TrimOf("", lines[i], "");
    assert "" + lines[i] + "" == lines[i];
    hide KindOf, TrimSpace;
  }

  /** A current note has the chunks of its content as rows exactly then. */
  lemma CurrentExactly(n: Note)
    requires NoteOk(n) && !Stale(n)
    ensures var lines, b := NoteLines(n.content), Block(Body(n.content));
      n.rows == RowsOf(Chunks(n.content)) <==> AllVoid(lines, b) && Clear(lines, b)
  {
    RowsExactly(n.content);
    hide Derived, Body, Block, NoteLines, AllVoid, Clear, Chunks, RowsOf;
  }

  lemma RowsDerived(n: Note)
    requires NoteOk(n) && !Stale(n)
    ensures n.rows == Derived(n.content)
  {
    hide Derived;
  }

  /** The chunks behind the rows of this note hold "y" only, marked current as it may
      be, so that the backfill does not select it; those of its content also hold "x". */
  lemma TextCanBeLost(n: Note)
    requires n.content == LOSING && NoteOk(n) && !Stale(n)
    ensures n.rows != RowsOf(Chunks(n.content)) && n.rows == RowsOf(Chunks(Body(n.content)))
    ensures InkOf(Texts(Chunks(Body(n.content)))) == "y" && InkOf(Texts(Chunks(n.content))) == "---x---y"
  {
    RowsAre(LOSING);
    hide *;
    LosingBody();
    LosingBlock();
    LosingRest();
    LosingKept();
    TextNotVoid(NoteLines(LOSING));
    CurrentExactly(n);
    RowsDerived(n);
    var _ := NoteTheorem(LOSING);
    var _ := NoteTheorem(LOSING_BODY);
  }
}
