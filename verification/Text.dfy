/** The string operations the note editors are written in. A string is a
    sequence of code points. */
module Text {

  const NL: string := "\n"

  /** strings.Contains */
  predicate Contains(s: string, sub: string) {
    sub <= s || (s != "" && Contains(s[1..], sub))
  }

  /** strings.Index: the first occurrence, or -1. */
  function Index(s: string, sub: string): (k: int)
    ensures -1 <= k <= |s| && (k >= 0 ==> k + |sub| <= |s|)
  {
    if sub <= s then 0
    else if s == "" then -1
    else
      var k := Index(s[1..], sub);
      if k < 0 then -1 else k + 1
  }

  /** strings.Split for a non-empty separator: leftmost, non-overlapping. */
  function Split(s: string, sep: string): (parts: seq<string>)
    requires sep != ""
    ensures |parts| >= 1
  {
    if sep <= s then [""] + Split(s[|sep|..], sep)
    else if s == "" then [""]
    else
      var rest := Split(s[1..], sep);
      [[s[0]] + rest[0]] + rest[1..]
  }

  /** strings.Join */
  function Join(parts: seq<string>, sep: string): string {
    if |parts| == 0 then ""
    else if |parts| == 1 then parts[0]
    else parts[0] + sep + Join(parts[1..], sep)
  }

  /** strings.ReplaceAll for a non-empty text: leftmost, non-overlapping. */
  function ReplaceAll(s: string, sub: string, repl: string): string
    requires sub != ""
  {
    if sub <= s then repl + ReplaceAll(s[|sub|..], sub, repl)
    else if s == "" then ""
    else [s[0]] + ReplaceAll(s[1..], sub, repl)
  }

  function Lines(s: string): (lines: seq<string>)
    ensures |lines| >= 1
  {
    Split(s, NL)
  }

  predicate IsLine(s: string) {
    forall i :: 0 <= i < |s| ==> s[i] != '\n'
  }

  // ---------------------------------------------------------------- Contains

  lemma {:induction false} ContainsIn(u: string, sub: string, v: string)
    ensures Contains(u + sub + v, sub)
  {
    if u == "" {
      assert u + sub + v == sub + v;
    } else {
      assert (u + sub + v)[1..] == u[1..] + sub + v;
      ContainsIn(u[1..], sub, v);
    }
  }

  lemma {:induction false} ContainsSplits(s: string, sub: string) returns (u: string, v: string)
    requires Contains(s, sub)
    ensures s == u + sub + v
  {
    if sub <= s {
      u, v := "", s[|sub|..];
    } else {
      var u', v' := ContainsSplits(s[1..], sub);
      u, v := [s[0]] + u', v';
      assert s == [s[0]] + s[1..];
    }
  }

  lemma ContainsWithin(s: string, u: string, t: string, v: string, sub: string)
    requires s == u + t + v && Contains(t, sub)
    ensures Contains(s, sub)
  {
    var a, b := ContainsSplits(t, sub);
    assert s == (u + a) + sub + (b + v);
    ContainsIn(u + a, sub, b + v);
  }

  lemma ContainsPart(s: string, a: string, b: string)
    requires Contains(s, a + b)
    ensures Contains(s, a) && Contains(s, b)
  {
    var u, v := ContainsSplits(s, a + b);
    assert s == u + a + (b + v) && s == (u + a) + b + v;
    ContainsIn(u, a, b + v);
    ContainsIn(u + a, b, v);
  }

  lemma {:induction false} IndexContains(s: string, sub: string)
    ensures Index(s, sub) >= 0 <==> Contains(s, sub)
    ensures Index(s, sub) >= 0 ==> Index(s, sub) + |sub| <= |s| && s[Index(s, sub)..][..|sub|] == sub
    ensures Index(s, sub) >= -1
  {
    if sub <= s {
    } else if s == "" {
    } else {
      IndexContains(s[1..], sub);
      var k := Index(s[1..], sub);
      if k >= 0 {
        assert s[1..][k..] == s[k + 1..];
      }
    }
  }

  // ------------------------------------------------------------------- Lines

  lemma {:induction false} LinesJoined(s: string)
    ensures Join(Lines(s), NL) == s
    ensures forall k :: 0 <= k < |Lines(s)| ==> IsLine(Lines(s)[k])
  {
    SplitJoined(s, NL);
    LinesAreLines(s);
  }

  lemma {:induction false} LinesAreLines(s: string)
    ensures forall k :: 0 <= k < |Lines(s)| ==> IsLine(Lines(s)[k])
  {
    if s != "" {
      LinesAreLines(s[1..]);
      var rest := Lines(s[1..]);
      assert NL <= s <==> s[0] == '\n';
      assert Lines(s) == if s[0] == '\n' then [""] + rest else [[s[0]] + rest[0]] + rest[1..];
      forall k | 0 <= k < |Lines(s)| ensures IsLine(Lines(s)[k]) {
        assert k > 0 ==> Lines(s)[k] == if s[0] == '\n' then rest[k - 1] else rest[k];
      }
    }
  }

  lemma JoinCons(x: string, rest: seq<string>, sep: string)
    requires |rest| >= 1
    ensures Join([x] + rest, sep) == x + sep + Join(rest, sep)
  {
    assert ([x] + rest)[1..] == rest;
  }

  /** A character in front of the first part is one in front of the whole. */
  lemma JoinHead(c: char, rest: seq<string>, sep: string)
    requires |rest| >= 1
    ensures Join([[c] + rest[0]] + rest[1..], sep) == [c] + Join(rest, sep)
  {
    if |rest| > 1 {
      JoinCons([c] + rest[0], rest[1..], sep);
      assert rest == [rest[0]] + rest[1..];
      assert [c] + rest[0] + sep + Join(rest[1..], sep) == [c] + (rest[0] + sep + Join(rest[1..], sep));
    }
  }

  lemma {:induction false} SplitJoined(s: string, sep: string)
    requires sep != ""
    ensures Join(Split(s, sep), sep) == s
  {
    if sep <= s {
      SplitJoined(s[|sep|..], sep);
      JoinCons("", Split(s[|sep|..], sep), sep);
    } else if s != "" {
      SplitJoined(s[1..], sep);
      JoinHead(s[0], Split(s[1..], sep), sep);
    }
  }

  /** A newline between two texts is a line boundary. */
  lemma {:induction false} LinesConcat(a: string, b: string)
    ensures Lines(a + NL + b) == Lines(a) + Lines(b)
  {
    if a == "" {
      assert a + NL + b == NL + b;
      assert (NL + b)[1..] == b;
    } else {
      assert (a + NL + b)[1..] == a[1..] + NL + b;
      LinesConcat(a[1..], b);
    }
  }

  lemma {:induction false} LinesOfLine(s: string)
    requires IsLine(s)
    ensures Lines(s) == [s]
  {
    if s != "" {
      LinesOfLine(s[1..]);
      assert s == [s[0]] + s[1..];
    }
  }

  lemma {:induction false} LinesOfJoin(ls: seq<string>)
    requires |ls| >= 1 && forall k :: 0 <= k < |ls| ==> IsLine(ls[k])
    ensures Lines(Join(ls, NL)) == ls
  {
    LinesOfLine(ls[0]);
    if |ls| > 1 {
      LinesOfJoin(ls[1..]);
      LinesConcat(ls[0], Join(ls[1..], NL));
      assert Join(ls, NL) == ls[0] + NL + Join(ls[1..], NL);
    }
  }

  /** A line of a text is a substring of it. */
  lemma {:induction false} PartWithin(parts: seq<string>, sep: string, k: nat) returns (u: string, v: string)
    requires k < |parts|
    ensures Join(parts, sep) == u + parts[k] + v
  {
    if |parts| == 1 {
      u, v := "", "";
    } else if k == 0 {
      u, v := "", sep + Join(parts[1..], sep);
    } else {
      var u', v' := PartWithin(parts[1..], sep, k - 1);
      u, v := parts[0] + sep + u', v';
    }
  }

  lemma LineContains(s: string, k: nat, sub: string)
    requires k < |Lines(s)| && Contains(Lines(s)[k], sub)
    ensures Contains(s, sub)
  {
    LinesJoined(s);
    var u, v := PartWithin(Lines(s), NL, k);
    ContainsWithin(s, u, Lines(s)[k], v, sub);
  }

  lemma Regroup<T>(a: seq<T>, b: seq<T>, c: seq<T>)
    ensures a + b + c == a + (b + c)
  {
  }
}
