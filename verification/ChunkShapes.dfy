/** The shapes the chunker goes by, spelled out: headings, task lines, where a long text
    is cut and how long is long, the heading path, and front matter
    (search/chunker.go, search/document.go). */
module ChunkShapes {
  import opened Options
  import opened Text
  import opened Trim
  import opened Chunker
  import Sections

  // ------------------------------------------------------------------- lines

  lemma TrimmedStays(s: string)
    requires Trimmed(s)
    ensures TrimSpace(s) == s
  {
    TrimOf("", s, "");
    assert "" + s + "" == s;
  }

  lemma {:induction false} HashesCounted(n: nat, rest: string)
    requires n <= 6 && (rest != "" ==> rest[0] != '#')
    ensures Hashes("######"[..n] + rest) == n
  {
    var s := "######"[..n] + rest;
    if n > 0 {
      assert s[1..] == "######"[..n - 1] + rest;
      HashesCounted(n - 1, rest);
    } else {
      assert s == rest;
    }
  }

  /** One to six hashes, a blank and a title make a heading of that level. */
  lemma HeadingLine(level: nat, title: string)
    requires 1 <= level <= 6 && Trimmed(title) && title != "" && title[|title| - 1] != '#'
    ensures KindOf("######"[..level] + " " + title) == Head(Heading(level, title))
  {
    var hashes := "######"[..level];
    var line := hashes + " " + title;
    HashesCounted(level, " " + title);
    assert line == hashes + (" " + title) && line[level] == ' ' && line[level + 1..] == title;
    assert line[0] == '#' && line[|line| - 1] == title[|title| - 1];
    hide Hashes;
    TrimmedStays(line);
    TrimmedStays(title);
    HeadingIs(line, level, title);
  }

  lemma HeadingIs(line: string, level: nat, title: string)
    requires TrimSpace(line) == line && Hashes(line) == level && 1 <= level <= 6 && level < |line| && line[level] == ' '
    requires line[level + 1..] == title == TrimSpace(title) && title != "" && title[|title| - 1] != '#'
    ensures KindOf(line) == Head(Heading(level, title))
  {
    hide TrimSpace, Hashes;
  }

  lemma {:induction false} HashesAre(s: string, n: nat)
    requires n <= Hashes(s)
    ensures forall i :: 0 <= i < n ==> s[i] == '#'
  {
    if n > 0 {
      HashesAre(s[1..], n - 1);
      assert forall i :: 1 <= i < n ==> s[i] == s[1..][i - 1];
    }
  }

  /** Nothing else does. */
  lemma HeadingShape(line: string)
    requires KindOf(line).Head?
    ensures var t, level := TrimSpace(line), KindOf(line).heading.level;
      1 <= level <= 6 && level < |t| && t[..level] == "######"[..level] && t[level] == ' '
  {
    var t := TrimSpace(line);
    HashesAre(t, KindOf(line).heading.level);
  }

  /** A dash, a blank, and one character in brackets make a task line. */
  lemma TaskShape(line: string)
    ensures var t := TrimSpace(line);
      KindOf(line).TaskLine? <==> |t| >= 5 && t[0] == '-' && t[1] == ' ' && t[2] == '[' && t[3] as int < 128 && t[4] == ']'
  {
    var t := TrimSpace(line);
    if |t| >= 3 { assert "- [" <= t <==> t[0] == '-' && t[1] == ' ' && t[2] == '['; }
    if KindOf(line).Head? { HeadingShape(line); }
  }

  // ----------------------------------------------------------------- long texts

  /** The last break among these positions. */
  predicate BreakAt(s: string, i: int) {
    0 < i <= |s| && (s[i - 1] == ' ' || s[i - 1] == '\t' || s[i - 1] == '\r' || s[i - 1] == '\n')
  }

  lemma {:induction false} CutIsLast(s: string, i: nat, max: nat)
    requires i <= max < |s|
    ensures var cut := CutFrom(s, i, max);
      if exists k :: max / 2 < k <= i && BreakAt(s, k)
      then max / 2 < cut <= i && BreakAt(s, cut) && forall k :: cut < k <= i ==> !BreakAt(s, k)
      else cut == max
  {
    if i > max / 2 && !IsBreak(s[i - 1]) {
      CutIsLast(s, i - 1, max);
      assert !BreakAt(s, i);
    } else if i > max / 2 {
      assert BreakAt(s, i);
    }
  }

  /** A text is cut behind the last blank, tab or line break of the second half of what
      fits, and in the middle of a word only when there is none. */
  lemma CutAt(s: string, max: nat)
    requires max < |s|
    ensures var cut := CutFrom(s, max, max);
      if exists k :: max / 2 < k <= max && BreakAt(s, k)
      then max / 2 < cut <= max && BreakAt(s, cut) && forall k :: cut < k <= max ==> !BreakAt(s, k)
      else cut == max
  {
    CutIsLast(s, max, max);
  }

  /** Chunks hold at most 1500 characters, and a text of no more is not cut. */
  lemma LimitOfChunks(content: string, text: string)
    ensures forall c <- Chunks(content) :: 0 < |c.text| <= 1500
    ensures 0 < |TrimSpace(text)| <= 1500 ==> SplitLong(text, MAX_RUNES) == [TrimSpace(text)]
  {
    var origins := NoteTheorem(content);
    var lines, chunks := NoteLines(content), Chunks(content);
    hide Chunks, NoteLines, KindOf, PathOf, EnclosingAt, IsPlain, TrimSpace;
    forall c <- chunks ensures 0 < |c.text| <= 1500 {
      var m :| 0 <= m < |chunks| && chunks[m] == c;
      assert ChunkOk(lines, m, chunks[m], origins[m]);
    }
    if 0 < |TrimSpace(text)| <= 1500 { Uncut(text); }
  }

  lemma Uncut(text: string)
    requires 0 < |TrimSpace(text)| <= 1500
    ensures SplitLong(text, MAX_RUNES) == [TrimSpace(text)]
  {
    var u, v := TrimForm(text);
    TrimmedStays(TrimSpace(text));
    hide TrimSpace;
  }

  // ---------------------------------------------------------------------- paths

  /** The headings of a path stand side by side, outermost first. */
  lemma {:induction false} PathGrows(headings: seq<string>, title: string)
    ensures PathOf([title]) == title
    ensures headings != [] ==> PathOf(headings + [title]) == PathOf(headings) + " / " + title
  {
    if |headings| > 1 {
      PathGrows(headings[1..], title);
      assert (headings + [title])[1..] == headings[1..] + [title];
      Regroup(headings[0] + " / ", Join(headings[1..], " / "), " / ");
      Regroup(headings[0] + " / ", Join(headings[1..], " / ") + " / ", title);
    }
  }

  // --------------------------------------------------------------- front matter

  lemma {:induction false} ClosesAt(lines: seq<string>, j: nat, k: nat)
    requires j <= k < |lines|
    requires forall i :: j <= i < k ==> DropOneReturn(lines[i]) != "---" && DropOneReturn(lines[i]) != "..."
    requires lines[k] == "---" || lines[k] == "..."
    ensures ClosingLine(lines, j) == k
    decreases k - j
  {
    if j < k {
      ClosesAt(lines, j + 1, k);
    }
  }

  /** Front matter between a line of three dashes at the start and the next line of three
      dashes or three dots is taken off, and the line breaks behind it. */
  lemma FrontMatterTaken(front: seq<string>, close: string, body: seq<string>)
    requires close == "---" || close == "..."
    requires forall i :: 0 <= i < |front| ==>
      IsLine(front[i]) && DropOneReturn(front[i]) != "---" && DropOneReturn(front[i]) != "..."
    requires forall i :: 0 <= i < |body| ==> IsLine(body[i])
    ensures WithoutFrontmatter(Join(["---"] + front + [close] + body, "\n")) == DropLineBreaks(Join(body, "\n"))
  {
    var lines := ["---"] + front + [close] + body;
    var content, k := Join(lines, "\n"), |front| + 1;
    forall i | 0 <= i < |lines| ensures IsLine(lines[i]) {
      if 0 < i < k { assert lines[i] == front[i - 1]; } else if i > k { assert lines[i] == body[i - k - 1]; }
    }
    LinesOfJoin(lines);
    forall i | 1 <= i < k ensures DropOneReturn(lines[i]) != "---" && DropOneReturn(lines[i]) != "..." {
      assert lines[i] == front[i - 1];
    }
    ClosesAt(lines, 1, k);
    assert lines[k + 1..] == body && lines[0] == "---";
    assert content == "---" + NL + Join(lines[1..], "\n");
    assert content[0] == '-';
    hide ClosingLine, DropLineBreaks, Join, Split;
    TakenOff(content, lines, k);
  }

  lemma TakenOff(content: string, lines: seq<string>, k: nat)
    requires content != "" && content[0] == '-' && Lines(content) == lines && |lines| >= 2 && lines[0] == "---"
    requires ClosingLine(lines, 1) == k < |lines|
    ensures WithoutFrontmatter(content) == DropLineBreaks(Join(lines[k + 1..], "\n"))
  {
    hide ClosingLine, DropLineBreaks, Join, Split;
    assert BOM[0] == '\U{FEFF}' && DropOneReturn("---") == "---";
  }

  /** A content that does not start so is left as it is. */
  lemma NoFrontMatter(content: string)
    requires content == "" || content[0] != '-'
    requires content == "" || content[0] != '\U{FEFF}'
    ensures WithoutFrontmatter(content) == content
  {
  }
}
