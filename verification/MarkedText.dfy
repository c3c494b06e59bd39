/** Notes whose marker lines are all markers, as every writer leaves them, and
    what rewriting a part of such a note does to them. */
module MarkedText {
  import opened Text
  import opened NoteMarkers
  import opened Sections

  /** The lines that mention the marker prefix, in order. */
  function Marked(content: string): seq<string> {
    Matching(Lines(content), PREFIX)
  }

  ghost predicate IsMarker(line: string) {
    exists op, dest, text :: line == Marker(op, dest, text)
  }

  ghost predicate WellMarked(content: string) {
    forall line <- Marked(content) :: IsMarker(line)
  }

  predicate Bare(line: string) {
    !Contains(line, PREFIX)
  }

  // ---------------------------------------------------- markers and prefixes

  lemma {:induction false} MatchingIn(lines: seq<string>, key: string)
    ensures forall line :: line in Matching(lines, key) <==> line in lines && Contains(line, key)
  {
    if |lines| > 0 {
      MatchingIn(lines[1..], key);
    }
  }

  lemma KeyHasPrefix(line: string, op: string)
    requires Contains(line, KeyPrefix(op))
    ensures Contains(line, PREFIX)
  {
    assert KeyPrefix(op) == PREFIX + (Digest(op) + ":");
    ContainsPart(line, PREFIX, Digest(op) + ":");
  }

  lemma {:induction false} MatchingTwice(lines: seq<string>, op: string)
    ensures Matching(Matching(lines, PREFIX), KeyPrefix(op)) == Matching(lines, KeyPrefix(op))
  {
    if |lines| > 0 {
      MatchingTwice(lines[1..], op);
      var m := Matching(lines, PREFIX);
      if Contains(lines[0], PREFIX) {
        assert m == [lines[0]] + Matching(lines[1..], PREFIX) && m[1..] == Matching(lines[1..], PREFIX);
      } else {
        if Contains(lines[0], KeyPrefix(op)) { KeyHasPrefix(lines[0], op); }
        assert m == Matching(lines[1..], PREFIX);
        assert Matching(lines, KeyPrefix(op)) == Matching(lines[1..], KeyPrefix(op));
      }
    }
  }

  /** The same marker lines in order are the same marker lines of every operation. */
  lemma SameMarkedSameHits(a: string, b: string, op: string)
    requires Marked(a) == Marked(b)
    ensures Hits(a, op) == Hits(b, op)
  {
    MatchingTwice(Lines(a), op);
    MatchingTwice(Lines(b), op);
  }

  /** A marker holds no bracket and no delimiter, and opens with "<". */
  lemma MarkerShape(line: string)
    requires IsMarker(line)
    ensures line != "" && line[0] == '<' && '[' !in line && !Contains(line, SEP)
  {
    var op, dest, text :| line == Marker(op, dest, text);
    var a, b := Digest(op), Digest(Payload(dest, text));
    DigestIsHex(op);
    DigestIsHex(Payload(dest, text));
    MarkerPieces(a, b);
  }

  lemma MarkerPieces(a: string, b: string)
    requires IsHex(a) && IsHex(b)
    ensures var line := PREFIX + a + ":" + b + " -->"; line[0] == '<' && '[' !in line && !Contains(line, SEP)
  {
    HexIsPlain(a);
    HexIsPlain(b);
    PrefixHasNoBracket();
    PrefixHasNoSep();
    EndHasNoSep();
    var colon := ":";
    NoDash(colon);
    InPieces(PREFIX, a, colon, b, " -->");
  }

  lemma InPieces(p: string, a: string, colon: string, b: string, end: string)
    requires !Contains(p, SEP) && !Contains(colon, SEP) && !Contains(end, SEP) && '-' !in a && '-' !in b
    requires p != "" && p[|p| - 1] != '-' && colon != "" && colon[0] != '-' && colon[|colon| - 1] != '-' && end != "" && end[0] != '-'
    requires '[' !in p && '[' !in a && '[' !in colon && '[' !in b && '[' !in end
    ensures var line := p + a + colon + b + end; !Contains(line, SEP) && '[' !in line && line[0] == p[0]
  {
    NoDash(a);
    NoDash(b);
    NoSepAcross(p, a);
    NoSepAcross(p + a, colon);
    NoSepAcross(p + a + colon, b);
    NoSepAcross(p + a + colon + b, end);
  }

  lemma PrefixHasNoBracket()
    ensures '[' !in PREFIX
  {
  }

  lemma PrefixHasNoSep()
    ensures !Contains(PREFIX, SEP) && PREFIX[|PREFIX| - 1] == ':' && PREFIX[0] == '<'
  {
    PrefixPieces();
    NoThreeDashes("<!--");
    NoDash(" notes");
    NoThreeDashes("-");
    NoDash("bot:append:");
    NoSepInTwoPairs("<!--", " notes", "-", "bot:append:");
  }

  lemma PrefixPieces()
    ensures PREFIX == "<!--" + " notes" + ("-" + "bot:append:")
    ensures PREFIX[|PREFIX| - 1] == ':' && PREFIX[0] == '<'
  {
  }

  lemma NoSepInTwoPairs(a: string, b: string, c: string, d: string)
    requires !Contains(a, SEP) && !Contains(b, SEP) && !Contains(c, SEP) && !Contains(d, SEP)
    requires b != "" && b[0] != '-' && b[|b| - 1] != '-' && d != "" && d[0] != '-'
    ensures !Contains(a + b + (c + d), SEP)
  {
    NoSepAcross(c, d);
    NoSepAcross(a, b);
    NoSepAcross(a + b, c + d);
  }

  lemma EndHasNoSep()
    ensures !Contains(" -->", SEP) && " -->"[0] == ' ' && '[' !in " -->"
  {
    NoThreeDashes(" -->");
  }

  lemma HexIsPlain(s: string)
    requires IsHex(s)
    ensures '[' !in s && '-' !in s
  {
    HexHasNo(s, '[');
    HexHasNo(s, '-');
  }

  /** No marker prefix reaches across a delimiter. */
  lemma {:induction false} NoPrefixAcross(u: string, v: string)
    requires Bare(u) && Bare(v)
    ensures Bare(u + SEP + v)
  {
    var s := u + SEP + v;
    if PREFIX <= s { PrefixAcross(u, v); }
    if u == "" {
      assert s == SEP + v && s[1..] == "--" + v && s[1..][1..] == "-" + v && s[1..][1..][1..] == v;
      assert PREFIX[0] == '<' && ("--" + v)[0] == '-' && ("-" + v)[0] == '-' && s[0] == '-';
      assert !Contains("-" + v, PREFIX);
      assert !Contains("--" + v, PREFIX);
    } else {
      assert s[1..] == u[1..] + SEP + v;
      NoPrefixAcross(u[1..], v);
    }
  }

  /** Three dashes in a row come after the whole prefix. */
  lemma PrefixAcross(u: string, v: string)
    requires PREFIX <= u + SEP + v
    ensures PREFIX <= u
  {
    var s := u + SEP + v;
    assert s[|u|] == '-' && s[|u| + 1] == '-' && s[|u| + 2] == '-';
    assert forall k :: 0 <= k < |PREFIX| ==> s[k] == PREFIX[k];
    assert |u| >= |PREFIX|;
  }

  // ------------------------------------------------------------------ gluing

  lemma MatchingOfGlue(x: seq<string>, y: seq<string>, key: string)
    requires |x| >= 1 && |y| >= 1
    requires !Contains(x[|x| - 1], key) && !Contains(y[0], key) && !Contains(x[|x| - 1] + y[0], key)
    ensures Matching(Glue(x, y), key) == Matching(x, key) + Matching(y, key)
  {
    var a, b := x[..|x| - 1], y[1..];
    assert Glue(x, y) == a + [x[|x| - 1] + y[0]] + b;
    assert a + [x[|x| - 1]] + [] == x && [] + [y[0]] + b == y;
    assert a + [] == a && [] + b == b;
    hide *;
    SkipLine(a, x[|x| - 1], [], key);
    SkipLine([], y[0], b, key);
    SkipLine(a, x[|x| - 1] + y[0], b, key);
    MatchingConcat(a, b, key);
  }

  lemma SkipLine(a: seq<string>, line: string, b: seq<string>, key: string)
    requires !Contains(line, key)
    ensures Matching(a + [line] + b, key) == Matching(a + b, key)
  {
    MatchingConcat(a + [line], b, key);
    MatchingConcat(a, [line], key);
    MatchingConcat(a, b, key);
    MatchingNone([line], key);
  }

  function Last(s: string): string {
    var ls := Lines(s); ls[|ls| - 1]
  }

  function First(s: string): string {
    Lines(s)[0]
  }

  /** The lines around a delimiter. */
  lemma LinesAround(a: string, b: string)
    ensures Lines(a + SEP + b) == Glue(Glue(Lines(a), [SEP]), Lines(b))
    ensures Glue(Lines(a), [SEP]) == Lines(a)[..|Lines(a)| - 1] + [Last(a) + SEP]
  {
    LinesOfLine(SEP);
    LinesGlue(a, SEP);
    LinesGlue(a + SEP, b);
  }

  lemma MatchingAround(a: string, b: string, key: string)
    requires !Contains(SEP, key) && !Contains(Last(a), key) && !Contains(First(b), key)
    requires !Contains(Last(a) + SEP, key) && !Contains(Last(a) + SEP + First(b), key)
    ensures Matching(Lines(a + SEP + b), key) == Matching(Lines(a), key) + Matching(Lines(b), key)
  {
    LinesAround(a, b);
    MatchingOfGlue(Lines(a), [SEP], key);
    MatchingNone([SEP], key);
    MatchingOfGlue(Glue(Lines(a), [SEP]), Lines(b), key);
  }

  lemma FirstAround(a: string, b: string)
    ensures First(a + SEP + b) == if |Lines(a)| == 1 then First(a) + SEP + First(b) else First(a)
  {
    LinesAround(a, b);
  }

  lemma BareParts(u: string, v: string)
    requires Bare(u) && Bare(v)
    ensures Bare(SEP) && Bare(u + SEP) && Bare(u + SEP + v)
  {
    EmptyIsBare();
    NoPrefixAcross("", "");
    NoPrefixAcross(u, "");
    NoPrefixAcross(u, v);
    assert "" + SEP + "" == SEP && u + SEP + "" == u + SEP;
  }

  lemma EmptyIsBare()
    ensures Bare("")
  {
    assert |PREFIX| > 0;
  }

  /** Around a delimiter the marker lines are those of either side. */
  lemma MarkedAround(a: string, b: string)
    requires Bare(Last(a)) && Bare(First(b))
    ensures Marked(a + SEP + b) == Marked(a) + Marked(b)
  {
    BareParts(Last(a), First(b));
    MatchingAround(a, b, PREFIX);
  }

  /** In a well-marked note no marker shares a line with a delimiter. */
  lemma PiecesBare(a: string, b: string)
    requires WellMarked(a + SEP + b)
    ensures Bare(Last(a)) && Bare(First(b))
  {
    var c := a + SEP + b;
    LinesAround(a, b);
    var line := Last(a) + SEP + First(b);
    assert Lines(c)[|Lines(a)| - 1] == line;
    ContainsIn(Last(a), SEP, First(b));
    MatchingIn(Lines(c), PREFIX);
    if Contains(line, PREFIX) {
      assert line in Marked(c);
      MarkerShape(line);
    }
    if Contains(Last(a), PREFIX) { ContainsWithin(line, "", Last(a), SEP + First(b), PREFIX); }
    if Contains(First(b), PREFIX) { ContainsWithin(line, Last(a) + SEP, First(b), "", PREFIX); }
  }

  lemma InnerBare(a: string, x: string, b: string)
    requires WellMarked(a + SEP + (x + SEP + b))
    ensures Bare(Last(a)) && Bare(First(x)) && Bare(Last(x)) && Bare(First(b)) && Bare(First(x + SEP + b))
  {
    PiecesBare(a, x + SEP + b);
    assert a + SEP + (x + SEP + b) == (a + SEP + x) + SEP + b;
    PiecesBare(a + SEP + x, b);
    LinesAround(a, x);
    assert |Lines(x)| == 1 ==> Last(a + SEP + x) == Last(a) + SEP + Last(x);
    assert |Lines(x)| > 1 ==> Last(a + SEP + x) == Last(x);
    if Contains(Last(x), PREFIX) { ContainsWithin(Last(a + SEP + x), if |Lines(x)| == 1 then Last(a) + SEP else "", Last(x), "", PREFIX); }
    FirstBare(x, b);
  }

  /** The marker lines of a text between two delimiters. */
  lemma MarkedBetween(a: string, x: string, b: string)
    requires Bare(Last(a)) && Bare(First(x)) && Bare(Last(x)) && Bare(First(b))
    ensures Marked(a + SEP + (x + SEP + b)) == Marked(a) + (Marked(x) + Marked(b))
  {
    MarkedAround(x, b);
    FirstAround(x, b);
    if |Lines(x)| == 1 { BareParts(First(x), First(b)); }
    MarkedAround(a, x + SEP + b);
  }

  /** Rewriting the text between two delimiters keeps the note's marker lines if it
      keeps those of the text itself and puts none beside a delimiter. */
  lemma RewriteKeepsMarked(a: string, x: string, y: string, b: string)
    requires WellMarked(a + SEP + (x + SEP + b))
    requires Marked(y) == Marked(x) && Bare(First(y)) && Bare(Last(y))
    ensures Marked(a + SEP + (y + SEP + b)) == Marked(a + SEP + (x + SEP + b))
  {
    InnerBare(a, x, b);
    MarkedBetween(a, x, b);
    MarkedBetween(a, y, b);
  }

  lemma FirstBare(x: string, b: string)
    requires Bare(First(x + SEP + b))
    ensures Bare(First(x))
  {
    LinesAround(x, b);
    if |Lines(x)| == 1 {
      assert First(x + SEP + b) == First(x) + SEP + First(b);
      if Contains(First(x), PREFIX) { ContainsWithin(First(x + SEP + b), "", First(x), SEP + First(b), PREFIX); }
    }
  }

  // --------------------------------------------------------------- appending

  lemma BareText(text: string)
    requires Bare(text)
    ensures Marked(text) == [] && WellMarked(text)
  {
    var ls := Lines(text);
    forall k | 0 <= k < |ls| ensures Bare(ls[k]) {
      if Contains(ls[k], PREFIX) { LineContains(text, k, PREFIX); }
    }
    MatchingNone(ls, PREFIX);
  }

  /** Appending an unkeyed text leaves the marker lines as they are. */
  lemma PlainAppendMarked(content: string, text: string)
    requires Bare(text)
    ensures Marked(AppendBlock(content, text)) == Marked(content)
  {
    PrefixHasNoSep();
    AppendBlockMatching(content, text, PREFIX);
    BareText(text);
  }

  /** Nor does the newline in front of it. */
  lemma EndedMarked(content: string)
    ensures Marked(Ended(content)) == Marked(content)
  {
    if NeedsNewline(content) {
      assert content + NL == content + NL + "";
      LinesConcat(content, "");
      MatchingConcat(Lines(content), [""], PREFIX);
      assert !Contains("", PREFIX);
    }
  }

  lemma LastLineMatching(text: string, line: string, key: string)
    requires IsLine(line) && Contains(line, key)
    ensures Matching(Lines(text + NL + line), key) == Matching(Lines(text), key) + [line]
  {
    LinesConcat(text, line);
    LinesOfLine(line);
    MatchingConcat(Lines(text), [line], key);
    assert Matching([line], key) == [line];
  }

  /** A keyed append adds its marker behind the others. */
  lemma KeyedAppendMarked(content: string, op: string, dest: string, text: string)
    requires Bare(text)
    ensures Marked(AppendBlock(content, KeyedBlock(op, dest, text))) == Marked(content) + [Marker(op, dest, text)]
    ensures WellMarked(content) ==> WellMarked(AppendBlock(content, KeyedBlock(op, dest, text)))
  {
    var marker := Marker(op, dest, text);
    assert IsMarker(marker);
    PrefixHasNoSep();
    AppendBlockMatching(content, KeyedBlock(op, dest, text), PREFIX);
    BareText(text);
    MarkerIsLine(op, dest, text);
    MarkerHasPrefix(op, dest, text);
    hide Marker, AppendBlock, Contains, IsMarker;
    LastLineMatching(text, marker, PREFIX);
  }

  lemma MarkerHasPrefix(op: string, dest: string, text: string)
    ensures Contains(Marker(op, dest, text), PREFIX)
  {
    MarkerKey(op, dest, text, op);
    KeyHasPrefix(Marker(op, dest, text), op);
  }
}
