/** When setting a status brings the marker prefix about: only by taking a
    completion tag out of the line (core/features/tasks.go). */
module StatusPrefix {
  import opened Options
  import opened Text
  import opened NoteMarkers
  import opened MarkedText
  import opened TaskLines
  import Calendar
  import Rating
  import Trim

  // ------------------------------------------------------------- bare texts

  /** A key does not reach across a character it does not hold. */
  lemma {:induction false} NotAcross(u: string, b: char, v: string, key: string)
    requires !Contains(u, key) && !Contains(v, key) && b !in key && key != ""
    ensures !Contains(u + [b] + v, key)
  {
    var s := u + [b] + v;
    if key <= s { NotOver(u, b, v, key); }
    if u == "" {
      assert s[1..] == v;
    } else {
      assert s[1..] == u[1..] + [b] + v;
      NotAcross(u[1..], b, v, key);
    }
  }

  lemma NotOver(u: string, b: char, v: string, key: string)
    requires key <= u + [b] + v && b !in key
    ensures key <= u
  {
    assert (u + [b] + v)[|u|] == b;
    assert forall k :: 0 <= k < |key| ==> (u + [b] + v)[k] == key[k] && key[k] in key;
    assert |u| >= |key|;
  }

  lemma BlankBehind(s: string, blanks: string, k: nat)
    requires Trim.Blank(blanks) && k < |s + blanks|
    ensures k < |s| || Trim.IsSpace((s + blanks)[k])
  {
  }

  lemma InsideStart(s: string, blanks: string, u: string, key: string, v: string)
    requires s + blanks == u + key + v && |u| + |key| <= |s|
    ensures Contains(s, key)
  {
    hide Contains;
    forall k | 0 <= k < |key| ensures s[|u| + k] == key[k] {
      assert (s + blanks)[|u| + k] == (u + key + v)[|u| + k];
    }
    ContainsAt(s, |u|, key);
  }

  /** Nor into blanks, when it does not end in one. */
  lemma NotIntoBlanks(s: string, blanks: string, key: string)
    requires !Contains(s, key) && Trim.Blank(blanks) && key != "" && !Trim.IsSpace(key[|key| - 1])
    ensures !Contains(s + blanks, key)
  {
    if Contains(s + blanks, key) {
      var u, v := ContainsSplits(s + blanks, key);
      hide Contains, Trim.Blank, Trim.IsSpace;
      var k := |u| + |key| - 1;
      assert (u + key + v)[k] == key[|key| - 1];
      BlankBehind(s, blanks, k);
      InsideStart(s, blanks, u, key, v);
    }
  }

  lemma PrefixEnds()
    ensures PREFIX != "" && !Trim.IsSpace(PREFIX[|PREFIX| - 1]) && '[' !in PREFIX && ']' !in PREFIX
  {
  }

  lemma BarePart(s: string, u: string, t: string, v: string)
    requires s == u + t + v && Bare(s)
    ensures Bare(t)
  {
    if Contains(t, PREFIX) { ContainsWithin(s, u, t, v, PREFIX); }
  }

  lemma BareBlanks(s: string, blanks: string)
    requires Bare(s) && Trim.Blank(blanks)
    ensures Bare(s + blanks)
  {
    PrefixEnds();
    hide Contains;
    NotIntoBlanks(s, blanks, PREFIX);
  }

  lemma TailPieces(s: string, today: string)
    ensures s + CompletedOn(today) == (s + "  ") + ['['] + ("completion:: " + today + "]")
  {
  }

  lemma BareTail(s: string, today: string)
    requires Bare(s) && '<' !in today
    ensures Bare(s + CompletedOn(today))
  {
    var rest := "completion:: " + today + "]";
    assert '<' !in rest;
    Rating.NoOpening(rest);
    PrefixEnds();
    TailPieces(s, today);
    hide Contains, CompletedOn;
    BareBlanks(s, "  ");
    NotAcross(s + "  ", '[', rest, PREFIX);
  }

  // ------------------------------------------- texts with other marks in their boxes

  predicate MarkAt(s: string, i: int) {
    0 < i < |s| - 1 && s[i - 1] == '[' && IsMark(s[i]) && s[i + 1] == ']'
  }

  /** Texts that differ at most in the marks of checkboxes. */
  ghost predicate Alike(s: string, t: string) {
    |s| == |t| && forall i :: 0 <= i < |s| && s[i] != t[i] ==> MarkAt(s, i) && MarkAt(t, i)
  }

  /** Wherever the text occurs, character j is not the mark of a checkbox. */
  predicate NoMark(sub: string, j: nat)
    requires j < |sub|
  {
    !IsMark(sub[j]) || (j > 0 && sub[j - 1] != '[') || (j + 1 < |sub| && sub[j + 1] != ']')
  }

  predicate Rigid(sub: string) {
    sub != "" && forall j :: 0 <= j < |sub| ==> NoMark(sub, j)
  }

  predicate OccursAt(s: string, k: int, sub: string) {
    0 <= k && k + |sub| <= |s| && s[k..k + |sub|] == sub
  }

  lemma AlikeRefl(s: string)
    ensures Alike(s, s)
  {
  }

  lemma AlikeTrans(s: string, t: string, u: string)
    requires Alike(s, t) && Alike(t, u)
    ensures Alike(s, u)
  {
    forall i | 0 <= i < |s| && s[i] != u[i] ensures MarkAt(s, i) && MarkAt(u, i) {
      if s[i] != t[i] {
        assert MarkAt(t, i) && t[i - 1] == u[i - 1] && t[i + 1] == u[i + 1];
      } else {
        assert MarkAt(t, i) && t[i - 1] == s[i - 1] && t[i + 1] == s[i + 1];
      }
    }
  }

  /** Where a rigid text occurs there is no mark. */
  lemma NoMarkIn(s: string, k: int, sub: string, j: nat)
    requires Rigid(sub) && OccursAt(s, k, sub) && j < |sub|
    ensures sub[j] == s[k + j] && !MarkAt(s, k + j)
  {
    assert forall m :: 0 <= m < |sub| ==> sub[m] == s[k..k + |sub|][m] == s[k + m];
    assert NoMark(sub, j);
  }

  lemma OccursAlike(s: string, t: string, k: int, sub: string)
    requires Alike(s, t) && Rigid(sub) && OccursAt(s, k, sub)
    ensures OccursAt(t, k, sub)
  {
    forall j | 0 <= j < |sub| ensures sub[j] == t[k + j] {
      NoMarkIn(s, k, sub, j);
    }
    assert t[k..k + |sub|] == sub;
  }

  /** A text is found where it first occurs. */
  lemma {:induction false} SameIndex(s: string, t: string, sub: string)
    requires |s| == |t| && sub != "" && forall k :: OccursAt(s, k, sub) <==> OccursAt(t, k, sub)
    ensures Index(s, sub) == Index(t, sub)
  {
    FoundAtFront(s, sub);
    FoundAtFront(t, sub);
    if s != "" && !(sub <= s) {
      forall k ensures OccursAt(s[1..], k, sub) <==> OccursAt(t[1..], k, sub) {
        OccursBehind(s, k, sub);
        OccursBehind(t, k, sub);
      }
      SameIndex(s[1..], t[1..], sub);
    }
  }

  lemma FoundAtFront(s: string, sub: string)
    ensures sub <= s <==> OccursAt(s, 0, sub)
  {
  }

  lemma OccursBehind(s: string, k: int, sub: string)
    requires s != ""
    ensures OccursAt(s[1..], k, sub) <==> 0 <= k && OccursAt(s, k + 1, sub)
  {
    if 0 <= k && k + 1 + |sub| <= |s| {
      assert s[1..][k..k + |sub|] == s[k + 1..k + 1 + |sub|];
    }
  }

  lemma AlikeSymm(s: string, t: string)
    requires Alike(s, t)
    ensures Alike(t, s)
  {
  }

  lemma AlikeIndex(s: string, t: string, sub: string)
    requires Alike(s, t) && Rigid(sub)
    ensures Index(s, sub) == Index(t, sub)
  {
    AlikeSymm(s, t);
    forall k ensures OccursAt(s, k, sub) <==> OccursAt(t, k, sub) {
      if OccursAt(s, k, sub) { OccursAlike(s, t, k, sub); }
      if OccursAt(t, k, sub) { OccursAlike(t, s, k, sub); }
    }
    SameIndex(s, t, sub);
  }

  lemma AllRigid()
    ensures Rigid(PREFIX) && Rigid(TAG)
  {
    PrefixHasNoBracket();
    assert forall j :: 0 <= j < |TAG| ==> !IsMark(TAG[j]);
    assert forall j :: 0 <= j < |PREFIX| ==> PREFIX[j] != '[' && PREFIX[j] != ']';
  }

  lemma AlikeBare(s: string, t: string)
    requires Alike(s, t)
    ensures Bare(s) <==> Bare(t)
  {
    AllRigid();
    AlikeIndex(s, t, PREFIX);
    hide Contains, Index, Rigid, Alike;
    IndexContains(s, PREFIX);
    IndexContains(t, PREFIX);
  }

  // ------------------------------------------------------------ removing the tag

  /** Where the tag ends, counted from the start of the line; the start of the tag
      itself when it is not closed. */
  function TagEnd(s: string, i: nat): int
    requires i <= |s|
  {
    Index(s[i..], "]") + i + 1
  }

  lemma AlikeTagEnd(s: string, t: string, i: nat)
    requires Alike(s, t) && i <= |s|
    ensures TagEnd(s, i) == TagEnd(t, i)
  {
    forall k ensures OccursAt(s[i..], k, "]") <==> OccursAt(t[i..], k, "]") {
      if 0 <= k < |s| - i {
        assert s[i..][k..k + 1] == [s[i + k]] && t[i..][k..k + 1] == [t[i + k]];
      }
    }
    SameIndex(s[i..], t[i..], "]");
  }

  lemma TagEndIs(s: string, i: nat)
    requires i < |s| && s[i] == '['
    ensures i <= TagEnd(s, i) <= |s| && !MarkAt(s, TagEnd(s, i))
  {
    IndexContains(s[i..], "]");
    var k := Index(s[i..], "]");
    if k >= 0 {
      assert s[i..][k..][..1] == "]";
      assert s[i..][k] == s[i + k];
    }
  }

  /** Trailing spaces are no marks, so the same number is dropped. */
  lemma {:induction false} AlikeDrop(s: string, t: string, n: nat)
    requires Alike(s, t) && n < |s| && s[n] != ']'
    ensures var p := |DropSpaces(s[..n])|;
      p <= n && s[p] != ']' && DropSpaces(s[..n]) == s[..p] && DropSpaces(t[..n]) == t[..p]
    decreases n
  {
    if n > 0 {
      assert s[..n][n - 1] == s[n - 1] && t[..n][n - 1] == t[n - 1];
      assert s[n - 1] == t[n - 1];
      assert s[..n][..n - 1] == s[..n - 1] && t[..n][..n - 1] == t[..n - 1];
      if s[n - 1] == ' ' { AlikeDrop(s, t, n - 1); }
    }
  }

  /** What remains when a stretch is cut out that neither begins behind a bracket
      nor ends in front of a mark. */
  lemma AlikeCut(s: string, t: string, p: nat, e: nat)
    requires Alike(s, t) && p <= e <= |s| && p < |s|
    requires s[p] != ']' && !MarkAt(s, e)
    ensures Alike(s[..p] + s[e..], t[..p] + t[e..])
  {
    var u, v := s[..p] + s[e..], t[..p] + t[e..];
    forall i | 0 <= i < |u| && u[i] != v[i] ensures MarkAt(u, i) && MarkAt(v, i) {
      var at := if i < p then i else i - p + e;
      assert u[i] == s[at] && v[i] == t[at];
      assert MarkAt(s, at) && MarkAt(t, at);
      if i < p {
        assert i + 1 < p;
        assert u[i + 1] == s[at + 1] && v[i + 1] == t[at + 1] && u[i - 1] == s[at - 1] && v[i - 1] == t[at - 1];
      } else {
        assert at > e;
        assert u[i + 1] == s[at + 1] && v[i + 1] == t[at + 1] && u[i - 1] == s[at - 1] && v[i - 1] == t[at - 1];
      }
    }
  }

  lemma AlikeDropTag(s: string, t: string)
    requires Alike(s, t)
    ensures Alike(DropTag(s), DropTag(t))
  {
    hide *;
    AllRigid();
    AlikeIndex(s, t, TAG);
    var i := Index(s, TAG);
    SameLength(s, t);
    DropTagParts(s);
    DropTagParts(t);
    if i >= 0 {
      TagAt(s, i);
      AlikeTagEnd(s, t, i);
      TagEndIs(s, i);
      AlikeDrop(s, t, i);
      AlikeCut(s, t, |DropSpaces(s[..i])|, TagEnd(s, i));
    }
  }

  lemma SameLength(s: string, t: string)
    requires Alike(s, t)
    ensures |s| == |t|
  {
  }

  lemma DropTagParts(s: string)
    ensures var i := Index(s, TAG);
      if i < 0 then DropTag(s) == s
      else i <= |s| && 0 <= TagEnd(s, i) <= |s| && DropTag(s) == DropSpaces(s[..i]) + s[TagEnd(s, i)..]
  {
    hide DropSpaces;
    var i := Index(s, TAG);
    if i >= 0 {
      IndexContains(s[i..], "]");
    }
  }

  lemma TagAt(s: string, i: nat)
    requires Index(s, TAG) == i
    ensures i < |s| && s[i] == '['
  {
    IndexContains(s, TAG);
    assert s[i..][..|TAG|][0] == s[i];
  }

  // ------------------------------------------------------------ setting a status

  lemma AlikeBoxes(u: string, a: char, b: char, v: string)
    requires IsMark(a) && IsMark(b)
    ensures Alike(u + Box(a) + v, u + Box(b) + v)
  {
    var s, t := u + Box(a) + v, u + Box(b) + v;
    forall k | 0 <= k < |s| && s[k] != t[k] ensures MarkAt(s, k) && MarkAt(t, k) {
      assert k == |u| + 3;
    }
  }

  lemma ReplaceParts(s: string, was: string, repl: string) returns (u: string, v: string)
    requires was != "" && Contains(s, was)
    ensures s == u + was + v && Replace(s, was, repl) == u + repl + v
  {
    u, v := IndexFirst(s, was);
    hide Index, Contains;
    assert s[..|u|] == u && s[|u| + |was|..] == v;
  }

  lemma AlikeReplace(s: string, a: char, b: char)
    requires IsMark(a) && IsMark(b)
    ensures Alike(s, Replace(s, Box(a), Box(b)))
  {
    IndexContains(s, Box(a));
    hide Alike, Index, Contains;
    if Contains(s, Box(a)) {
      var u, v := ReplaceParts(s, Box(a), Box(b));
      AlikeBoxes(u, a, b, v);
    } else {
      AlikeRefl(s);
    }
  }

  lemma AlikeSwap(s: string, a: char, b: char, c: char)
    requires IsMark(a) && IsMark(b) && IsMark(c)
    ensures Alike(s, Swap(s, a, b, c))
  {
    hide Alike, Replace, Box;
    AlikeReplace(s, a, c);
    AlikeReplace(Replace(s, Box(a), Box(c)), b, c);
    AlikeTrans(s, Replace(s, Box(a), Box(c)), Swap(s, a, b, c));
  }

  /** A line and the same with other marks are bare together, also without their tags. */
  lemma AlikeBareToo(s: string, t: string)
    requires Alike(s, t)
    ensures (Bare(s) <==> Bare(t)) && (Bare(DropTag(s)) <==> Bare(DropTag(t)))
  {
    hide Alike, DropTag, Bare;
    AlikeBare(s, t);
    AlikeDropTag(s, t);
    AlikeBare(DropTag(s), DropTag(t));
  }

  /** Spaces dropped at the end, and a new tag there, bring no prefix about. */
  lemma TailBare(s: string, today: string)
    requires '<' !in today
    ensures Bare(DropSpaces(s) + CompletedOn(today)) <==> Bare(s)
  {
    var v := DropSpacesForm(s);
    var front := DropSpaces(s);
    hide Contains, CompletedOn, DropSpaces;
    if Bare(s) {
      assert s == "" + front + v;
      BarePart(s, "", front, v);
      BareTail(front, today);
    }
    if Bare(front + CompletedOn(today)) {
      assert front + CompletedOn(today) == "" + front + CompletedOn(today);
      BarePart(front + CompletedOn(today), "", front, CompletedOn(today));
      assert Trim.Blank(v);
      BareBlanks(front, v);
    }
  }

  /** Whether the line keeps clear of the prefix: its tag stays, or taking the tag
      out brings no prefix about. */
  predicate StaysClear(line: string, state: Status) {
    (state == Completed && !Has(line, '?') && !Has(line, ' ')) || Bare(DropTag(line))
  }

  lemma ReplaceBare(s: string, a: char, b: char)
    requires IsMark(a) && IsMark(b)
    ensures var t := Replace(s, Box(a), Box(b)); (Bare(t) <==> Bare(s)) && (Bare(DropTag(t)) <==> Bare(DropTag(s)))
  {
    hide DropTag, Replace, Bare, Box, Alike;
    AlikeReplace(s, a, b);
    AlikeBareToo(s, Replace(s, Box(a), Box(b)));
  }

  lemma SwapBare(s: string, a: char, b: char, c: char)
    requires IsMark(a) && IsMark(b) && IsMark(c)
    ensures var t := Swap(s, a, b, c); (Bare(t) <==> Bare(s)) && (Bare(DropTag(t)) <==> Bare(DropTag(s)))
  {
    hide DropTag, Swap, Bare, Alike;
    AlikeSwap(s, a, b, c);
    AlikeBareToo(s, Swap(s, a, b, c));
  }

  lemma PendingBare(line: string, today: string)
    requires SetLine(line, Pending, today).Some?
    ensures Bare(SetLine(line, Pending, today).value) <==> Bare(DropTag(line))
  {
    hide DropTag, Swap, Replace, Bare, Has, Box;
    SwapBare(line, 'x', 'X', '?');
    ReplaceBare(line, '-', '?');
    ReplaceBare(line, ' ', '?');
  }

  lemma CompletedBare(line: string, today: string)
    requires Bare(line) && '<' !in today && SetLine(line, Completed, today).Some?
    ensures Bare(SetLine(line, Completed, today).value) <==> (!Has(line, '?') && !Has(line, ' ')) || Bare(DropTag(line))
  {
    hide DropTag, Swap, Replace, Bare, Has, Box, DropSpaces, CompletedOn;
    if Has(line, '?') || Has(line, ' ') {
      SwapBare(DropTag(line), '?', ' ', 'x');
      TailBare(Swap(DropTag(line), '?', ' ', 'x'), today);
    } else {
      ReplaceBare(line, '-', 'x');
      TailBare(Replace(line, Box('-'), Box('x')), today);
    }
  }

  lemma RejectedBare(line: string, today: string)
    requires SetLine(line, Rejected, today).Some?
    ensures Bare(SetLine(line, Rejected, today).value) <==> Bare(DropTag(line))
  {
    hide DropTag, Swap, Replace, Bare, Has, Box;
    SwapBare(line, '?', ' ', '-');
    SwapBare(line, 'x', 'X', '-');
  }

  /** Setting a status on a bare line leaves it bare exactly then. */
  lemma SetLineBare(line: string, state: Status, today: string)
    requires Bare(line) && Calendar.IsIsoDate(today) && SetLine(line, state, today).Some?
    ensures Bare(SetLine(line, state, today).value) <==> StaysClear(line, state)
  {
    IsoDatePlain(today);
    hide SetLine, DropTag, Bare, Has;
    match state
    case Pending => PendingBare(line, today);
    case Completed => CompletedBare(line, today);
    case Rejected => RejectedBare(line, today);
  }
}
