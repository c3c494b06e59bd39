/** What masking is for: which secrets the masked output can never show
    (internal/applog/applog.go). */
module Masking {
  import opened Text
  import opened MaskWriter

  function Replaced(x: string, s: string): string
    requires s != ""
  {
    ReplaceAll(x, s, MASKED)
  }

  /** A secret that no mask can be part of. */
  predicate Solid(s: string) {
    s != "" && s[0] != '*' && s[|s| - 1] != '*' && !Contains(s, MASKED)
  }

  /** A secret that no line break splits. */
  predicate InOneLine(s: string) {
    forall i :: 0 <= i < |s| - 1 ==> s[i] != '\n'
  }

  // -------------------------------------------------------------- one secret

  lemma StartsMasked(rest: string, t: string)
    requires t != "" && t <= MASKED + rest
    ensures t[|t| - 1] == '*' || Contains(t, MASKED)
  {
    assert |t| > 3 ==> MASKED <= t;
    assert |t| <= 3 ==> t[|t| - 1] == MASKED[|t| - 1];
  }

  /** What the output starts with, short of a mask, the text starts with. */
  lemma {:induction false} PrefixKept(x: string, s: string, t: string)
    requires s != "" && t <= Replaced(x, s) && (t == "" || t[|t| - 1] != '*') && !Contains(t, MASKED)
    ensures t <= x
  {
    if t != "" && x != "" {
      if s <= x {
        StartsMasked(Replaced(x[|s|..], s), t);
      } else {
        assert Replaced(x, s) == [x[0]] + Replaced(x[1..], s);
        PrefixKept(x[1..], s, t[1..]);
        assert x == [x[0]] + x[1..] && t == [x[0]] + t[1..];
      }
    }
  }

  lemma NotAtMask(rest: string, t: string)
    requires t != "" && t[0] != '*' && Contains(MASKED + rest, t)
    ensures Contains(rest, t)
  {
    var r := MASKED + rest;
    assert r[1..][1..][1..] == rest;
    assert r[0] == '*' && r[1..][0] == '*' && r[1..][1..][0] == '*';
    assert Contains(r, t) ==> Contains(r[1..], t);
    assert Contains(r[1..], t) ==> Contains(r[1..][1..], t);
  }

  lemma ContainsTail(x: string, n: nat, t: string)
    requires n <= |x| && Contains(x[n..], t)
    ensures Contains(x, t)
  {
    assert x == x[..n] + x[n..] + "";
    ContainsWithin(x, x[..n], x[n..], "", t);
  }

  /** Masking brings no other secret about. */
  lemma {:induction false} NothingNew(x: string, s: string, t: string)
    requires s != "" && Solid(t) && Contains(Replaced(x, s), t)
    ensures Contains(x, t)
  {
    if x != "" {
      if s <= x {
        assert Replaced(x, s) == MASKED + Replaced(x[|s|..], s);
        NotAtMask(Replaced(x[|s|..], s), t);
        NothingNew(x[|s|..], s, t);
        ContainsTail(x, |s|, t);
      } else {
        var r := Replaced(x, s);
        assert r[1..] == Replaced(x[1..], s);
        if t <= r {
          PrefixKept(x, s, t);
        } else {
          NothingNew(x[1..], s, t);
        }
      }
    }
  }

  lemma {:induction false} MaskedAway(x: string, s: string)
    requires Solid(s)
    ensures !Contains(Replaced(x, s), s)
  {
    if s <= x {
      MaskedAway(x[|s|..], s);
      assert Replaced(x, s) == MASKED + Replaced(x[|s|..], s);
      if Contains(Replaced(x, s), s) { NotAtMask(Replaced(x[|s|..], s), s); }
    } else if x != "" {
      MaskedAway(x[1..], s);
      assert Replaced(x, s)[1..] == Replaced(x[1..], s);
      if s <= Replaced(x, s) { PrefixKept(x, s, s); }
    }
  }

  // -------------------------------------------------------------- all secrets

  predicate AllSolid(secrets: seq<string>) {
    forall i :: 0 <= i < |secrets| ==> Solid(secrets[i])
  }

  lemma {:induction false} StaysAway(x: string, secrets: seq<string>, t: string)
    requires NonEmpty(secrets) && Solid(t) && !Contains(x, t)
    ensures !Contains(MaskLine(x, secrets), t)
    decreases |secrets|
  {
    if secrets != [] {
      hide Solid, Contains;
      var y := Replaced(x, secrets[0]);
      if Contains(y, t) { NothingNew(x, secrets[0], t); }
      StaysAway(y, secrets[1..], t);
    }
  }

  /** A masked line shows no secret. */
  lemma {:induction false} LineShowsNone(x: string, secrets: seq<string>, k: nat)
    requires NonEmpty(secrets) && AllSolid(secrets) && k < |secrets|
    ensures !Contains(MaskLine(x, secrets), secrets[k])
    decreases |secrets|
  {
    hide Solid, Contains;
    var y := Replaced(x, secrets[0]);
    if k == 0 {
      MaskedAway(x, secrets[0]);
      StaysAway(y, secrets[1..], secrets[0]);
    } else {
      LineShowsNone(y, secrets[1..], k - 1);
    }
  }

  // -------------------------------------------------------------- whole outputs

  /** How a masked line ends: with its line break, or with a mask that took it. */
  predicate Closed(x: string) {
    x != "" && (x[|x| - 1] == '\n' || (|x| >= 3 && x[|x| - 3..] == MASKED))
  }

  lemma {:induction false} NoneIn(x: string, s: string)
    requires s != "" && !Contains(x, s)
    ensures Replaced(x, s) == x
  {
    if x != "" {
      NoneIn(x[1..], s);
      assert x == [x[0]] + x[1..];
    }
  }

  lemma {:induction false} TooShort(x: string, s: string)
    requires |x| < |s|
    ensures !Contains(x, s)
  {
    if x != "" { TooShort(x[1..], s); }
  }

  lemma EndedTail(x: string, n: nat)
    requires Closed(x) && n <= |x| && (n == |x| || x[|x| - 1] == '\n' || |x| - n >= 3)
    ensures n == |x| || Closed(x[n..])
  {
    var y := x[n..];
    assert y != "" ==> y[|y| - 1] == x[|x| - 1];
    assert |y| >= 3 ==> y[|y| - 3..] == x[|x| - 3..];
  }

  lemma EndedBehind(u: string, y: string)
    requires Closed(y)
    ensures Closed(u + y)
  {
    var x := u + y;
    assert x[|x| - 1] == y[|y| - 1];
    assert |y| >= 3 ==> x[|x| - 3..] == y[|y| - 3..];
  }

  lemma AmongStars(x: string, s: string)
    requires Contains(x, s) && s != "" && forall i :: 0 <= i < |x| ==> x[i] == '*'
    ensures s[0] == '*'
  {
    var u, v := ContainsSplits(x, s);
    assert x[|u|] == (u + s + v)[|u|] == s[0];
  }

  lemma MaskIsMask(s: string)
    requires Solid(s)
    ensures Replaced(MASKED, s) == MASKED
  {
    if Contains(MASKED, s) { AmongStars(MASKED, s); }
    NoneIn(MASKED, s);
  }

  /** An occurrence cannot reach into the mask at the end. */
  lemma BeforeMask(x: string, s: string)
    requires Solid(s) && s <= x && |x| >= 3 && x[|x| - 3..] == MASKED
    ensures |x| - |s| >= 3
  {
    assert x[|s| - 1] == s[|s| - 1];
    if |x| - |s| < 3 { assert x[|s| - 1] == x[|x| - 3..][|s| - 1 - (|x| - 3)]; }
  }

  lemma {:induction false} EndKept(x: string, s: string)
    requires Solid(s) && Closed(x)
    ensures Closed(Replaced(x, s))
  {
    hide Contains;
    if s <= x {
      var rest := x[|s|..];
      if x[|x| - 1] != '\n' { BeforeMask(x, s); }
      EndedTail(x, |s|);
      if rest == "" {
        assert Replaced(rest, s) == "" && Replaced(x, s) == MASKED + "";
      } else {
        EndKept(rest, s);
        EndedBehind(MASKED, Replaced(rest, s));
      }
    } else if x == MASKED {
      MaskIsMask(s);
    } else if |x| == 1 {
      assert x[1..] == "" && Replaced("", s) == "";
    } else {
      EndedTail(x, 1);
      EndKept(x[1..], s);
      EndedBehind([x[0]], Replaced(x[1..], s));
    }
  }

  lemma {:induction false} LineEndKept(x: string, secrets: seq<string>)
    requires NonEmpty(secrets) && AllSolid(secrets) && Closed(x)
    ensures Closed(MaskLine(x, secrets))
    decreases |secrets|
  {
    if secrets != [] {
      hide Solid, Closed;
      EndKept(x, secrets[0]);
      LineEndKept(Replaced(x, secrets[0]), secrets[1..]);
    }
  }

  lemma OccursIn(x: string, n: nat, t: string)
    requires n + |t| <= |x| && forall i :: 0 <= i < |t| ==> x[n + i] == t[i]
    ensures Contains(x, t)
  {
    assert x == x[..n] + t + x[n + |t|..];
    ContainsIn(x[..n], t, x[n + |t|..]);
  }

  /** What reaches across the end of a masked line holds a line break or a mask. */
  lemma AcrossEnd(m: string, x: string, t: string, at: nat)
    requires Closed(m) && at < |m| < at + |t| <= |m + x|
    requires forall i :: 0 <= i < |t| ==> (m + x)[at + i] == t[i]
    ensures !InOneLine(t) || t[0] == '*' || Contains(t, MASKED)
  {
    var k := |m| - 1 - at;
    assert t[k] == (m + x)[at + k];
    if m[|m| - 1] != '\n' {
      var mask := m[|m| - 3..];
      assert mask[0] == '*' && mask[1] == '*' && mask[2] == '*';
      if k <= 2 {
        assert t[0] == (m + x)[at + 0] == mask[2 - k];
      } else {
        forall i | 0 <= i < 3 ensures t[k - 2 + i] == MASKED[i] {
          assert t[k - 2 + i] == (m + x)[at + (k - 2 + i)] == mask[i];
        }
        OccursIn(t, k - 2, MASKED);
      }
    }
  }

  /** An occurrence in two texts is in the one, in the other, or across. */
  lemma InOneOfTwo(m: string, x: string, t: string, at: nat)
    requires at + |t| <= |m + x| && t != "" && forall i :: 0 <= i < |t| ==> (m + x)[at + i] == t[i]
    ensures Contains(m, t) || Contains(x, t) || at < |m| < at + |t|
  {
    hide Contains;
    if at + |t| <= |m| {
      OccursIn(m, at, t);
    } else if at >= |m| {
      forall i | 0 <= i < |t| ensures x[at - |m| + i] == t[i] { assert (m + x)[at + i] == t[i]; }
      OccursIn(x, at - |m|, t);
    }
  }

  lemma OccursAt(s: string, t: string) returns (at: nat)
    requires Contains(s, t)
    ensures at + |t| <= |s| && forall i :: 0 <= i < |t| ==> s[at + i] == t[i]
  {
    var u, v := ContainsSplits(s, t);
    hide Contains;
    at := |u|;
  }

  /** No secret across the end of a masked line. */
  lemma NotAcrossEnd(m: string, x: string, t: string)
    requires Solid(t) && InOneLine(t) && Closed(m) && !Contains(m, t) && !Contains(x, t)
    ensures !Contains(m + x, t)
  {
    if Contains(m + x, t) {
      var at := OccursAt(m + x, t);
      hide Contains, Closed, InOneLine;
      InOneOfTwo(m, x, t, at);
      AcrossEnd(m, x, t, at);
    }
  }

  lemma LineEnds(text: string, i: nat)
    requires i < |text| && Index(text, NL) == i
    ensures Closed(text[..i + 1])
  {
    IndexContains(text, NL);
    assert text[i..][..1][0] == text[i];
  }

  /** The masked complete lines of a text show no secret. */
  lemma {:induction false} OutputShowsNone(text: string, secrets: seq<string>, k: nat)
    requires NonEmpty(secrets) && AllSolid(secrets) && k < |secrets| && InOneLine(secrets[k])
    ensures !Contains(Masked(text, secrets), secrets[k])
    decreases |text|
  {
    var i := Index(text, NL);
    if i >= 0 {
      Unfold(text, i, secrets);
      LineEnds(text, i);
      assert Solid(secrets[k]);
      hide *;
      LineEndKept(text[..i + 1], secrets);
      LineShowsNone(text[..i + 1], secrets, k);
      OutputShowsNone(text[i + 1..], secrets, k);
      NotAcrossEnd(MaskLine(text[..i + 1], secrets), Masked(text[i + 1..], secrets), secrets[k]);
    } else {
      TooShort("", secrets[k]);
    }
  }

  // ------------------------------------------------------- exactly those secrets

  /** Text in front of the first occurrence stays. */
  lemma {:induction false} SkipTo(u: string, y: string, s: string)
    requires s != "" && forall p :: 0 <= p < |u| ==> !(s <= (u + y)[p..])
    ensures Replaced(u + y, s) == u + Replaced(y, s)
  {
    if u == "" {
      assert u + y == y;
    } else {
      var x := u + y;
      assert x[0..] == x && x[1..] == u[1..] + y;
      forall p | 0 <= p < |u| - 1 ensures !(s <= (u[1..] + y)[p..]) {
        assert x[p + 1..] == (u[1..] + y)[p..];
      }
      SkipTo(u[1..], y, s);
      assert u == [u[0]] + u[1..];
      Regroup([u[0]], u[1..], Replaced(y, s));
    }
  }

  /** A text that a secret breaks into a start, itself and less than itself. */
  lemma Exposed(u: string, s: string, w: string)
    requires s != "" && !Contains(w, s) && forall p :: 0 <= p < |u| ==> !(s <= (u + (s + w))[p..])
    ensures Replaced(u + (s + w), s) == u + (MASKED + w)
  {
    SkipTo(u, s + w, s);
    assert (s + w)[|s|..] == w;
    NoneIn(w, s);
  }

  lemma FirstLineMasked(x: string, rest: string, s: string)
    requires s != "" && IsLine(x)
    ensures Masked(x + NL + rest, [s]) == Replaced(x + NL, s) + Masked(rest, [s])
  {
    BreakAt(x);
    var text := x + NL + rest;
    IndexOfPrefix(x + NL, rest);
    assert text[..|x| + 1] == x + NL && text[|x| + 1..] == rest;
    Unfold(text, |x|, [s]);
    assert MaskLine(x + NL, [s]) == MaskLine(Replaced(x + NL, s), []);
  }

  lemma OneLineMasked(x: string, s: string)
    requires s != "" && IsLine(x)
    ensures Masked(x + NL, [s]) == Replaced(x + NL, s)
  {
    FirstLineMasked(x, "", s);
    assert x + NL + "" == x + NL;
  }

  lemma {:induction false} BreakAt(x: string)
    requires IsLine(x)
    ensures Index(x + NL, NL) == |x|
  {
    if x != "" {
      assert (x + NL)[1..] == x[1..] + NL && (x + NL)[0] == x[0];
      BreakAt(x[1..]);
    }
  }

  /** Around one more copy of the secret, which is masked, these texts show it. */
  ghost predicate Exposes(s: string, u: string, w: string) {
    && IsLine(u) && IsLine(w) && !Contains(w + NL, s) && Contains(u + MASKED + w, s)
    && forall p :: 0 <= p < |u| ==> !(s <= (u + (s + (w + NL)))[p..])
  }

  lemma StarInFront(s: string)
    requires s != "" && IsLine(s) && s[0] == '*'
    ensures Exposes(s, "", s[1..])
  {
    var w := s[1..];
    assert (w + NL)[|s| - 1] == '\n' && s[|s| - 1] != '\n';
    NotInSameLength(w + NL, s);
    assert "" + MASKED + w == "**" + s + "";
    ContainsIn("**", s, "");
  }

  lemma NotInSameLength(x: string, s: string)
    requires |x| == |s| && x != s
    ensures !Contains(x, s)
  {
    if x != "" { TooShort(x[1..], s); }
  }

  lemma StarBehind(s: string)
    requires |s| >= 2 && IsLine(s) && s[0] != '*' && s[|s| - 1] == '*'
    ensures Exposes(s, s[..|s| - 1], "")
  {
    var u, n := s[..|s| - 1], |s| - 1;
    var all := u + (s + ("" + NL));
    TooShort("" + NL, s);
    assert u + MASKED + "" == "" + s + "**";
    ContainsIn("", s, "**");
    forall p | 0 <= p < |u| ensures !(s <= all[p..]) {
      // the star the secret ends in would stand where a copy of its first character is
      assert all[p..][n] == all[p + n] == s[p];
      assert all[p..][0] == s[p];
    }
  }

  /** The first mask in a text. */
  lemma {:induction false} FirstMask(s: string) returns (k: nat)
    requires Contains(s, MASKED)
    ensures k + 3 <= |s| && s[k..k + 3] == MASKED && forall p :: 0 <= p < k ==> !(MASKED <= s[p..])
  {
    if MASKED <= s {
      k := 0;
    } else {
      k := FirstMask(s[1..]);
      forall p | 0 <= p < k + 1 ensures !(MASKED <= s[p..]) {
        if p > 0 { assert s[p..] == s[1..][p - 1..]; } else { assert s[0..] == s; }
      }
      assert s[1..][k..k + 3] == s[k + 1..k + 4];
      k := k + 1;
    }
  }

  /** A copy of the text that starts earlier has its mask earlier. */
  lemma EarlierMask(s: string, v: string, k: nat, p: nat)
    requires p < k && k + 3 <= |s| && s[k..k + 3] == MASKED && s <= (s[..k] + (s + v))[p..]
    ensures MASKED <= s[p..]
  {
    var all := s[..k] + (s + v);
    forall i | 0 <= i < 3 ensures s[p + i] == MASKED[i] {
      assert all[p..][k + i] == all[p + k + i] == s[p + i];
      assert s[k + i] == s[k..k + 3][i];
    }
  }

  lemma MaskInside(s: string) returns (u: string, w: string)
    requires IsLine(s) && s != "" && s[0] != '*' && Contains(s, MASKED)
    ensures Exposes(s, u, w)
  {
    var k := FirstMask(s);
    u, w := s[..k], s[k + 3..];
    assert s[k..k + 3][0] == '*';
    var all := u + (s + (w + NL));
    TooShort(w + NL, s);
    assert u + MASKED + w == "" + s + "";
    ContainsIn("", s, "");
    forall p | 0 <= p < |u| ensures !(s <= all[p..]) {
      if s <= all[p..] { EarlierMask(s, w + NL, k, p); }
    }
  }

  // ------------------------------------------------ secrets with line breaks

  /** A secret that ends in its only line break is masked on the first line. */
  lemma TwoLines(u: string, b: string, w: string)
    requires IsLine(u) && IsLine(b) && IsLine(w) && |w| < |b|
    ensures Masked(u + (b + NL) + (w + NL), [b + NL]) == u + MASKED + (w + NL)
  {
    var s := b + NL;
    assert u + s + (w + NL) == (u + b) + NL + (w + NL) && u + (s + "") == (u + b) + NL;
    FirstLineMasked(u + b, w + NL, s);
    OneLineMasked(w, s);
    TooShort(w + NL, s);
    NoneIn(w + NL, s);
    forall p | 0 <= p < |u| ensures !(s <= (u + (s + ""))[p..]) {
      assert (u + (s + ""))[p..][|b|] != '\n' && s[|b|] == '\n';
    }
    TooShort("", s);
    Exposed(u, s, "");
  }

  lemma MaskBeforeBreak(b: string, k: nat)
    requires k + 3 <= |b + NL| && (b + NL)[k..k + 3] == MASKED
    ensures k + 3 <= |b| && b[..k] + MASKED + (b[k + 3..] + NL) == b + NL
  {
    var s := b + NL;
    assert s[k + 2] == s[k..k + 3][2] == '*' && s[|b|] == '\n';
    forall i | 0 <= i < 3 ensures b[k + i] == MASKED[i] { assert b[k + i] == s[k..k + 3][i]; }
    assert b == b[..k] + MASKED + b[k + 3..];
  }

  lemma ShownWithBreak(b: string) returns (text: string)
    requires IsLine(b) && !Solid(b + NL)
    ensures Contains(Masked(text, [b + NL]), b + NL)
  {
    var s, u, w := b + NL, "", "";
    if s[0] == '*' {
      w := b[1..];
      assert u + MASKED + (w + NL) == "**" + s + "";
      ContainsIn("**", s, "");
    } else {
      var k := FirstMask(s);
      MaskBeforeBreak(b, k);
      u, w := b[..k], b[k + 3..];
      assert u + MASKED + (w + NL) == "" + s + "";
      ContainsIn("", s, "");
    }
    text := u + s + (w + NL);
    TwoLines(u, b, w);
  }

  lemma {:induction false} FirstBreak(text: string)
    requires Index(text, NL) >= 0
    ensures Index(text, NL) < |text| && IsLine(text[..Index(text, NL)]) && text[Index(text, NL)] == '\n'
  {
    if !(NL <= text) {
      FirstBreak(text[1..]);
      assert text[0] != '\n';
      assert text[..Index(text, NL)] == [text[0]] + text[1..][..Index(text, NL) - 1];
    }
  }

  lemma BrokenOff(line: string, s: string)
    requires line != "" && IsLine(line[..|line| - 1]) && !InOneLine(s)
    ensures !Contains(line, s)
  {
    if Contains(line, s) {
      var u, v := ContainsSplits(line, s);
      var j :| 0 <= j < |s| - 1 && s[j] == '\n';
      BreakWithin(line, u, s, v, j);
    }
  }

  lemma BreakWithin(line: string, u: string, s: string, v: string, j: nat)
    requires line == u + s + v && j < |s| - 1 && s[j] == '\n'
    ensures line != "" && !IsLine(line[..|line| - 1])
  {
    assert line[..|line| - 1][|u| + j] == s[j];
  }

  /** A secret that a line break splits is masked nowhere. */
  lemma {:induction false} Unmasked(text: string, s: string)
    requires !InOneLine(s) && (text == "" || text[|text| - 1] == '\n')
    ensures Masked(text, [s]) == text
  {
    if text != "" {
      if Index(text, NL) < 0 { NoBreakLeft(text); }
      var i := Index(text, NL);
      FirstBreak(text);
      var line, rest := text[..i + 1], text[i + 1..];
      assert line[..|line| - 1] == text[..i] && line == text[..i] + NL && text == line + rest;
      assert rest != "" ==> rest[|rest| - 1] == text[|text| - 1];
      BrokenOff(line, s);
      NoneIn(line, s);
      FirstLineMasked(text[..i], rest, s);
      Unmasked(rest, s);
    }
  }

  lemma SplitSecretShown(s: string)
    requires !InOneLine(s)
    ensures Contains(Masked(s + NL, [s]), s)
  {
    Unmasked(s + NL, s);
    assert s + NL == "" + s + NL;
    ContainsIn("", s, NL);
  }

  /** A text that shows a secret of one line which is not solid. */
  lemma Shown(s: string) returns (text: string)
    requires s != "" && IsLine(s) && !Solid(s)
    ensures Contains(Masked(text, [s]), s)
  {
    var u, w := "", s[1..];
    if s[0] == '*' {
      StarInFront(s);
    } else if s[|s| - 1] == '*' {
      u, w := s[..|s| - 1], "";
      StarBehind(s);
    } else {
      u, w := MaskInside(s);
    }
    text := u + (s + w) + NL;
    ExposedLine(s, u, w);
  }

  lemma Ends(u: string, s: string, w: string)
    ensures u + (s + w) + NL == u + (s + (w + NL))
  {
    Regroup(u, s + w, NL);
    Regroup(s, w, NL);
  }

  lemma ExposedLine(s: string, u: string, w: string)
    requires s != "" && IsLine(s) && Exposes(s, u, w)
    ensures Contains(Masked(u + (s + w) + NL, [s]), s)
  {
    assert IsLine(u + (s + w));
    hide Contains, Masked, ReplaceAll, IsLine;
    OneLineMasked(u + (s + w), s);
    Exposed(u, s, w + NL);
    Ends(u, s, w);
    Ends(u, MASKED, w);
    Regroup(u, MASKED, w);
    assert "" + (u + MASKED + w) == u + MASKED + w;
    ContainsWithin(u + (MASKED + (w + NL)), "", u + MASKED + w, NL, s);
  }

  /** No text shows the secret in its masked lines. */
  ghost predicate NeverShown(s: string)
    requires s != ""
  {
    forall text :: !Contains(Masked(text, [s]), s)
  }

  /** The masked complete lines of a text never show a secret exactly when no mask can
      be part of it (it neither starts nor ends with an asterisk, and does not hold a
      mask) and no line break splits it. */
  lemma NeverShownExactly(s: string)
    requires s != ""
    ensures NeverShown(s) <==> Solid(s) && InOneLine(s)
  {
    var last := s[|s| - 1];
    if !InOneLine(s) {
      SplitSecretShown(s);
      assert Contains(Masked(s + NL, [s]), s);
    } else if Solid(s) {
      forall text ensures !Contains(Masked(text, [s]), s) {
        OutputShowsNone(text, [s], 0);
      }
    } else if last == '\n' {
      assert s == s[..|s| - 1] + NL;
      var text := ShownWithBreak(s[..|s| - 1]);
      assert Contains(Masked(text, [s]), s);
    } else {
      var text := Shown(s);
      assert Contains(Masked(text, [s]), s);
    }
  }
}
