/** Which lines of a body the chunks come from (search/chunker.go). */
module ChunkOrigins {
  import opened Options
  import opened Text
  import opened Trim
  import opened Chunker

  /** A line that chunks come from: a task, or the first of a paragraph that is kept. */
  predicate Yields(lines: seq<string>, i: int) {
    0 <= i < |lines| && (KindOf(lines[i]).TaskLine? || (IsPlain(lines, i) && !IsPlain(lines, i - 1) && !Lone(lines, i)))
  }

  /** The lines in front of the paragraph being collected have been chunked. */
  predicate Begun(lines: seq<string>, n: nat, origins: seq<nat>) {
    forall i :: 0 <= i < n ==> (i in origins <==> Yields(lines, i))
  }

  lemma InkSome(text: string)
    requires TrimSpace(text) != ""
    ensures Ink(text) != ""
  {
    InkTrimmed(text);
    var t := TrimSpace(text);
    var u, v := TrimForm(text);
    assert Ink(t) == [t[0]] + Ink(t[1..]);
  }

  lemma SplitsSome(text: string)
    requires TrimSpace(text) != ""
    ensures SplitLong(text, MAX_RUNES) != []
  {
    SplitKeepsInk(text, MAX_RUNES);
    InkSome(text);
  }

  lemma AppendedOrigins(s: State, kind: Kind, text: string, origin: nat)
    requires TrimSpace(text) != ""
    ensures forall o: nat :: o in AppendChunk(s, kind, text, origin).origins <==> o in s.origins || o == origin
  {
    SplitsSome(text);
    var more := seq(|SplitLong(text, MAX_RUNES)|, _ => origin);
    hide SplitLong, TrimSpace;
    assert more[0] == origin && origin in more;
    assert AppendChunk(s, kind, text, origin).origins == s.origins + more;
  }

  /** In a run of plain lines only the first begins chunks, if the run is kept. */
  lemma RunYields(lines: seq<string>, begin: nat, n: nat, i: nat)
    requires begin <= i < n <= |lines| && AllPlain(lines[begin..n]) && !IsPlain(lines, begin - 1) && !IsPlain(lines, n)
    ensures Yields(lines, i) <==> i == begin && TrimSpace(Gather(lines[begin..n])) != "---"
  {
    var run := lines[begin..n];
    ParagraphText(run);
    hide KindOf, TrimSpace, Gather;
    assert run[i - begin] == lines[i] && KindOf(run[i - begin]).Plain? && IsPlain(lines, i);
    if i > begin {
      assert run[i - 1 - begin] == lines[i - 1] && IsPlain(lines, i - 1);
    } else if n > begin + 1 {
      assert run[1] == lines[i + 1] && IsPlain(lines, i + 1);
    } else {
      assert run == [lines[begin]];
    }
  }

  lemma PendingIs(lines: seq<string>, n: nat, s: State)
    requires Pending(lines, n, s)
    ensures s.start <= n <= |lines| && s.line == n && s.paragraph == Gather(lines[s.start..n])
    ensures AllPlain(lines[s.start..n]) && !IsPlain(lines, s.start - 1)
  {
    hide Gather, AllPlain, IsPlain, Encloses;
  }

  lemma PendingYields(lines: seq<string>, n: nat, s: State)
    requires Pending(lines, n, s) && !IsPlain(lines, n)
    ensures var text := TrimSpace(s.paragraph);
      forall i :: s.start <= i < n ==> (Yields(lines, i) <==> i == s.start && text != "" && text != "---")
  {
    hide *;
    PendingIs(lines, n, s);
    ParagraphText(lines[s.start..n]);
    forall i | s.start <= i < n ensures Yields(lines, i) <==> i == s.start && TrimSpace(s.paragraph) != "---" {
      RunYields(lines, s.start, n, i);
    }
  }

  lemma TrimTwice(s: string)
    ensures TrimSpace(TrimSpace(s)) == TrimSpace(s)
  {
    var u, v := TrimForm(s);
    TrimAround(u, TrimSpace(s), v);
  }

  lemma FlushBegun(lines: seq<string>, n: nat, s: State)
    requires Reading(lines, n, s) && !IsPlain(lines, n) && Begun(lines, s.start, s.origins)
    ensures Begun(lines, n, Flush(s).origins)
  {
    var text := TrimSpace(s.paragraph);
    assert Pending(lines, n, s) && s.start <= n && (forall o <- s.origins :: o < s.start);
    hide Reading, Pending, Done, KindOf, Yields, IsPlain, TrimSpace, Flush;
    PendingYields(lines, n, s);
    if text == "" || text == "---" {
      FlushDrops(s, text);
    } else {
      FlushAppends(s, text);
      TrimTwice(s.paragraph);
      AppendedOrigins(s.(paragraph := "", start := s.line), Kind.Paragraph, text, s.start);
      RunStart(lines, n, s);
    }
  }

  lemma NotPlainBegun(lines: seq<string>, n: nat, s: State)
    requires Reading(lines, n, s) && n < |lines| && !IsPlain(lines, n) && Begun(lines, s.start, s.origins)
    ensures var t := Step(s, lines[n]); t.start == n + 1 && Begun(lines, n + 1, t.origins)
  {
    FlushBegun(lines, n, s);
    FlushReading(lines, n, s);
    FlushLine(s);
    HeadLevel(lines[n]);
    var line, f := lines[n], Flush(s);
    assert s.line == n && (forall o <- f.origins :: o < n) && !Lone(lines, n);
    if KindOf(line).TaskLine? {
      StepTask(s, line);
      TrimTwice(line);
      AppendedOrigins(f, Kind.Task, TrimSpace(line), n);
    } else if KindOf(line).Head? {
      StepHead(s, line);
    } else {
      StepBlank(s, line);
    }
  }

  lemma PlainBegun(lines: seq<string>, n: nat, s: State)
    requires IsPlain(lines, n)
    ensures var t := Step(s, lines[n]); t.start == s.start && t.origins == s.origins
  {
  }

  lemma NothingBegun(lines: seq<string>)
    ensures var s := Read(lines[..0]); Begun(lines, s.start, s.origins)
  {
    assert lines[..0] == [];
  }

  lemma {:induction false} ReadBegun(lines: seq<string>, n: nat)
    requires n <= |lines|
    ensures var s := Read(lines[..n]); Begun(lines, s.start, s.origins)
  {
    hide *;
    if n == 0 {
      NothingBegun(lines);
    } else {
      ReadBegun(lines, n - 1);
      ReadIsReading(lines, n - 1);
      ReadSnoc(lines, n);
      if IsPlain(lines, n - 1) {
        PlainBegun(lines, n - 1, Read(lines[..n - 1]));
      } else {
        NotPlainBegun(lines, n - 1, Read(lines[..n - 1]));
      }
    }
  }

  /** Chunks come from exactly those lines. */
  lemma OriginsExact(lines: seq<string>)
    ensures var s := Flush(Read(lines)); ChunksOk(lines, s.chunks, s.origins) && Begun(lines, |lines|, s.origins)
  {
    var n := |lines|;
    assert lines[..n] == lines;
    assert !IsPlain(lines, n);
    ReadIsReading(lines, n);
    ReadBegun(lines, n);
    FlushReading(lines, n, Read(lines));
    FlushBegun(lines, n, Read(lines));
    hide Reading, Begun, ChunksOk, Encloses;
  }
}
