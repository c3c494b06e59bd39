/** The task line of a note: its checkbox, its text and its completion tag, and
    what setting a status does to the line (core/features/tasks.go). */
module TaskLines {
  import opened Options
  import opened Text
  import opened Trim
  import opened Sections
  import Calendar

  datatype Status = Pending | Completed | Rejected

  const TAG: string := "[completion::"

  predicate IsMark(c: char) {
    c in "? xX-"
  }

  function Box(c: char): string {
    "- [" + [c] + "]"
  }

  function StatusOf(c: char): Status
    requires IsMark(c)
  {
    if c == 'x' || c == 'X' then Completed else if c == '-' then Rejected else Pending
  }

  /** The mark a status is set with. */
  function MarkOf(state: Status): char {
    match state
    case Pending => '?'
    case Completed => 'x'
    case Rejected => '-'
  }

  // ----------------------------------------------------------------- parsing

  /** The checkbox a trimmed line starts with. */
  function LeadingMark(s: string): (mark: Option<char>)
    ensures mark.Some? ==> IsMark(mark.value) && Box(mark.value) <= s
  {
    if Box('?') <= s then Some('?')
    else if Box(' ') <= s then Some(' ')
    else if Box('x') <= s then Some('x')
    else if Box('X') <= s then Some('X')
    else if Box('-') <= s then Some('-')
    else None
  }

  /** The text behind the checkbox, up to a completion tag. */
  function TaskText(after: string): string {
    var text := TrimSpace(after);
    var i := Index(text, TAG);
    if i >= 0 then TrimSpace(text[..i]) else text
  }

  /** A task line's text and status; None for any other line. */
  function ParseLine(line: string): Option<(string, Status)> {
    var s := TrimSpace(line);
    var mark := LeadingMark(s);
    if mark.None? then None else Some((TaskText(s[5..]), StatusOf(mark.value)))
  }

  // ---------------------------------------------------------- setting a status

  /** strings.TrimRight(s, " ") */
  function DropSpaces(s: string): string {
    if s != "" && s[|s| - 1] == ' ' then DropSpaces(s[..|s| - 1]) else s
  }

  /** strings.Replace(s, old, new, 1) */
  function Replace(s: string, was: string, repl: string): string {
    var i := Index(s, was);
    if i < 0 then s else s[..i] + repl + s[i + |was|..]
  }

  /** Without the first completion tag and the spaces in front of it. */
  function DropTag(line: string): string {
    var i := Index(line, TAG);
    if i < 0 then line else DropSpaces(line[..i]) + line[Index(line[i..], "]") + i + 1..]
  }

  function CompletedOn(today: string): string {
    "  [completion:: " + today + "]"
  }

  /** One box replaced, then another. */
  function Swap(line: string, a: char, b: char, repl: char): string {
    Replace(Replace(line, Box(a), Box(repl)), Box(b), Box(repl))
  }

  predicate Has(line: string, c: char) {
    Contains(line, Box(c))
  }

  /** The line with its status set; None is the source's error. */
  function SetLine(line: string, state: Status, today: string): Option<string> {
    match state
    case Pending =>
      if Has(line, 'x') || Has(line, 'X') then Some(DropTag(Swap(line, 'x', 'X', '?')))
      else if Has(line, '-') then Some(DropTag(Replace(line, Box('-'), Box('?'))))
      else if Has(line, ' ') then Some(DropTag(Replace(line, Box(' '), Box('?'))))
      else None
    case Completed =>
      if Has(line, '?') || Has(line, ' ') then Some(DropSpaces(Swap(DropTag(line), '?', ' ', 'x')) + CompletedOn(today))
      else if Has(line, '-') then Some(DropSpaces(Replace(line, Box('-'), Box('x'))) + CompletedOn(today))
      else None
    case Rejected =>
      if Has(line, '?') || Has(line, ' ') then Some(DropTag(Swap(line, '?', ' ', '-')))
      else if Has(line, 'x') || Has(line, 'X') then Some(DropTag(Swap(line, 'x', 'X', '-')))
      else None
  }

  // ------------------------------------------------------------ regular lines

  predicate BoxAt(s: string, i: int) {
    0 <= i && i + 5 <= |s| && s[i] == '-' && s[i + 1] == ' ' && s[i + 2] == '[' && IsMark(s[i + 3]) && s[i + 4] == ']'
  }

  /** A line's only checkbox, with what is in front of it and behind it. */
  ghost predicate OneBox(x: string, c: char, r: string) {
    IsMark(c) && forall i :: BoxAt(x + Box(c) + r, i) ==> i == |x|
  }

  /** A single closed completion tag at the end of the line. */
  datatype Tail = Tail(text: string, date: string, blanks: string)

  function Tagged(t: Tail): string {
    t.text + TAG + t.date + "]" + t.blanks
  }

  ghost predicate TailOk(front: string, t: Tail) {
    !Contains(front + t.text, TAG) && ']' !in t.date && !Contains(t.date, SEP) && Blank(t.blanks)
  }

  /** Behind the checkbox there is no completion tag, or one that ends the line;
      in front of it there is none. */
  ghost predicate AtMostTrailingTag(x: string, c: char, r: string) {
    !Contains(x + Box(c) + r, TAG) || exists t :: r == Tagged(t) && TailOk(x + Box(c), t)
  }

  /** A line with one checkbox and at most a trailing completion tag. */
  ghost predicate Regular(line: string, x: string, c: char, r: string) {
    line == x + Box(c) + r && OneBox(x, c, r) && AtMostTrailingTag(x, c, r)
  }

  // ------------------------------------------------------------- occurrences

  lemma {:induction false} IndexFirst(s: string, sub: string) returns (a: string, b: string)
    requires Contains(s, sub) && sub != ""
    ensures s == a + sub + b && Index(s, sub) == |a| && !Contains(a, sub)
  {
    if sub <= s {
      a, b := "", s[|sub|..];
    } else {
      var a', b' := IndexFirst(s[1..], sub);
      a, b := [s[0]] + a', b';
      assert a[1..] == a';
      Regroup([s[0]], a', sub);
      Regroup([s[0]], a' + sub, b');
      assert s == [s[0]] + s[1..];
      assert a <= s;
    }
  }

  lemma ContainsAt(s: string, k: nat, sub: string)
    requires k + |sub| <= |s| && s[k..k + |sub|] == sub
    ensures Contains(s, sub)
  {
    assert s == s[..k] + sub + s[k + |sub|..];
    ContainsIn(s[..k], sub, s[k + |sub|..]);
  }

  /** The tag found is the first: it opens with its only bracket. */
  lemma {:induction false} TagFirst(p: string, q: string)
    requires !Contains(p, TAG)
    ensures Index(p + TAG + q, TAG) == |p|
  {
    var s := p + TAG + q;
    if p == "" {
      assert s == TAG + q;
    } else {
      assert s[1..] == p[1..] + TAG + q;
      TagFirst(p[1..], q);
      if TAG <= s { TagAcross(p, q); }
    }
  }

  lemma TagAcross(p: string, q: string)
    requires TAG <= p + TAG + q
    ensures p == "" || TAG <= p
  {
    var s := p + TAG + q;
    assert s[|p|] == '[';
    assert forall k :: 0 < k < |TAG| ==> s[k] != '[';
    assert |p| >= |TAG| || |p| == 0;
  }

  lemma BoxFound(s: string, c: char) returns (i: nat)
    requires Has(s, c) && IsMark(c)
    ensures Index(s, Box(c)) == i && BoxAt(s, i) && s[i + 3] == c && s == s[..i] + Box(c) + s[i + 5..]
  {
    var a, b := IndexFirst(s, Box(c));
    i := |a|;
    assert s[i + 3] == c;
  }

  /** On a line with one checkbox, that one is found and no other is. */
  lemma OnlyBox(x: string, c: char, r: string, e: char)
    requires OneBox(x, c, r) && IsMark(e)
    ensures Has(x + Box(c) + r, e) <==> e == c
    ensures Index(x + Box(c) + r, Box(e)) == if e == c then |x| else -1
  {
    var s := x + Box(c) + r;
    IndexContains(s, Box(e));
    if e == c { ContainsIn(x, Box(c), r); }
    if Has(s, e) {
      var i := BoxFound(s, e);
      assert s[|x| + 3] == c;
    }
  }

  /** Another mark in the box makes no second checkbox. */
  lemma MarkedAnew(x: string, c: char, d: char, r: string)
    requires OneBox(x, c, r) && IsMark(d)
    ensures OneBox(x, d, r)
  {
    var s, n := x + Box(c) + r, x + Box(d) + r;
    forall i | BoxAt(n, i) ensures i == |x| {
      assert n[|x|] == '-' && n[|x| + 1] == ' ' && n[|x| + 2] == '[' && n[|x| + 4] == ']';
      assert forall k :: 0 <= k < |n| && k != |x| + 3 ==> n[k] == s[k];
      if i != |x| { assert BoxAt(s, i); }
    }
  }

  lemma ReplaceBox(x: string, c: char, d: char, r: string)
    requires OneBox(x, c, r)
    ensures Replace(x + Box(c) + r, Box(c), Box(d)) == x + Box(d) + r
  {
    OnlyBox(x, c, r, c);
    var s := x + Box(c) + r;
    assert s[..|x|] == x && s[|x| + 5..] == r;
  }

  lemma SwapBox(x: string, c: char, r: string, a: char, b: char, d: char)
    requires OneBox(x, c, r) && IsMark(a) && IsMark(b) && IsMark(d) && (c == a || c == b) && d != b
    ensures Swap(x + Box(c) + r, a, b, d) == x + Box(d) + r
  {
    OnlyBox(x, c, r, a);
    if c == a {
      ReplaceBox(x, c, d, r);
      MarkedAnew(x, c, d, r);
      OnlyBox(x, d, r, b);
    } else {
      ReplaceBox(x, c, d, r);
    }
  }

  // ------------------------------------------------------ removing the tag

  lemma {:induction false} DropSpacesForm(s: string) returns (v: string)
    ensures s == DropSpaces(s) + v && forall i :: 0 <= i < |v| ==> v[i] == ' '
  {
    if s != "" && s[|s| - 1] == ' ' {
      v := DropSpacesForm(s[..|s| - 1]);
      v := v + " ";
      assert s == s[..|s| - 1] + " ";
    } else {
      v := "";
    }
  }

  /** Dropping spaces stops at a text that does not end in one. */
  lemma {:induction false} DropSpacesBehind(front: string, s: string)
    requires front != "" && front[|front| - 1] != ' '
    ensures DropSpaces(front + s) == front + DropSpaces(s)
  {
    if s == "" {
      assert front + s == front;
    } else if s[|s| - 1] == ' ' {
      assert (front + s)[..|front + s| - 1] == front + s[..|s| - 1];
      DropSpacesBehind(front, s[..|s| - 1]);
    }
  }

  lemma TaggedForm(front: string, t: Tail)
    ensures front + Tagged(t) == (front + t.text) + TAG + (t.date + "]" + t.blanks)
  {
    Regroup(front, t.text + TAG, t.date + "]" + t.blanks);
    Regroup(front, t.text, TAG);
    Regroup(t.text + TAG, t.date, "]");
    Regroup(t.text + TAG, t.date + "]", t.blanks);
  }

  lemma Halves(p: string, m: string, q: string, q': string, blanks: string)
    requires q == q' + blanks
    ensures (p + m + q)[..|p|] == p && (p + m + q)[|p|..] == m + q && (p + m + q)[|p| + |m| + |q'|..] == blanks
  {
  }

  lemma DropAt(line: string, i: nat, e: int)
    requires i <= |line| && Index(line, TAG) == i && e == Index(line[i..], "]") + i + 1
    ensures 0 <= e <= |line| && DropTag(line) == DropSpaces(line[..i]) + line[e..]
  {
    hide Index, DropSpaces;
  }

  lemma DropPieces(line: string, p: string, m: string, q: string, q': string, blanks: string)
    requires line == p + m + q && q == q' + blanks
    requires Index(line, TAG) == |p| && Index(m + q, "]") + 1 == |m| + |q'|
    ensures DropTag(line) == DropSpaces(p) + blanks
  {
    hide Index, DropSpaces, DropTag;
    Halves(p, m, q, q', blanks);
    DropAt(line, |p|, |p| + |m| + |q'|);
  }

  lemma DropTagged(front: string, t: Tail)
    requires TailOk(front, t)
    ensures DropTag(front + Tagged(t)) == DropSpaces(front + t.text) + t.blanks
  {
    TagFirst(front + t.text, t.date + "]" + t.blanks);
    ClosingBracket(t);
    hide *;
    TaggedForm(front, t);
    DropPieces(front + Tagged(t), front + t.text, TAG, t.date + "]" + t.blanks, t.date + "]", t.blanks);
  }

  lemma ClosingBracket(t: Tail)
    requires ']' !in t.date
    ensures Index(TAG + (t.date + "]" + t.blanks), "]") == |TAG| + |t.date|
  {
    var s := TAG + (t.date + "]" + t.blanks);
    assert forall i :: 0 <= i < |TAG| ==> TAG[i] != ']';
    assert forall i :: 0 <= i < |TAG| ==> s[i] == TAG[i];
    assert forall i :: 0 <= i < |t.date| ==> s[|TAG| + i] == t.date[i];
    IndexOfChar(s, ']', |TAG| + |t.date|);
  }

  lemma {:induction false} IndexOfChar(s: string, c: char, k: nat)
    requires k < |s| && s[k] == c && forall i :: 0 <= i < k ==> s[i] != c
    ensures Index(s, [c]) == k
  {
    if k > 0 {
      IndexOfChar(s[1..], c, k - 1);
    }
  }

  /** No tag reaches into the mark of a checkbox. */
  lemma NoTagAnew(x: string, c: char, d: char, m: string)
    requires IsMark(c) && IsMark(d) && !Contains(x + Box(c) + m, TAG)
    ensures !Contains(x + Box(d) + m, TAG)
  {
    var s, n := x + Box(c) + m, x + Box(d) + m;
    if Contains(n, TAG) {
      var a, b := IndexFirst(n, TAG);
      var p := |x| + 3;
      assert n[p] == d && forall k :: 0 <= k < |n| && k != p ==> n[k] == s[k];
      TagHasNoMark(n, a, b, p);
      assert s == s[..|a|] + TAG + s[|a| + |TAG|..];
      ContainsIn(s[..|a|], TAG, s[|a| + |TAG|..]);
    }
  }

  lemma TagHasNoMark(n: string, a: string, b: string, p: nat)
    requires n == a + TAG + b && p < |n| && IsMark(n[p])
    ensures p < |a| || p >= |a| + |TAG|
  {
    assert forall k :: 0 <= k < |TAG| ==> !IsMark(TAG[k]);
    assert forall k :: |a| <= k < |a| + |TAG| ==> n[k] == TAG[k - |a|];
  }

  lemma TailOkAnew(x: string, c: char, d: char, t: Tail)
    requires IsMark(c) && IsMark(d) && TailOk(x + Box(c), t)
    ensures TailOk(x + Box(d), t)
  {
    NoTagAnew(x, c, d, t.text);
  }

  lemma NoTagBehind(front: string, r: string)
    requires !Contains(front + r, TAG)
    ensures !Contains(r, TAG) && DropTag(r) == r && DropTag(front + r) == front + r
  {
    IndexContains(front + r, TAG);
    IndexContains(r, TAG);
    if Contains(r, TAG) { ContainsWithin(front + r, front, r, "", TAG); }
  }

  lemma DropTaggedAlone(front: string, t: Tail)
    requires TailOk(front, t)
    ensures DropTag(Tagged(t)) == DropSpaces(t.text) + t.blanks && !Contains(t.text, TAG)
  {
    NoTagBehind(front, t.text);
    assert "" + t.text == t.text && "" + Tagged(t) == Tagged(t);
    DropTagged("", t);
  }

  /** Removing the tag of a line is removing it behind the checkbox. */
  lemma DropTagBehind(x: string, c: char, r: string)
    requires IsMark(c) && AtMostTrailingTag(x, c, r)
    ensures DropTag(x + Box(c) + r) == x + Box(c) + DropTag(r)
  {
    var front := x + Box(c);
    if !Contains(front + r, TAG) {
      NoTagBehind(front, r);
    } else {
      var t :| r == Tagged(t) && TailOk(front, t);
      hide DropTag, DropSpaces, Tagged, TailOk;
      DropTagged(front, t);
      DropTaggedAlone(front, t);
      DropSpacesBehind(front, t.text);
      Regroup(front, DropSpaces(t.text), t.blanks);
    }
  }

  /** A line that has lost its tag has no new checkbox. */
  lemma OneBoxWithoutTag(x: string, c: char, r: string)
    requires OneBox(x, c, r) && AtMostTrailingTag(x, c, r)
    ensures OneBox(x, c, DropTag(r))
  {
    var front := x + Box(c);
    if Contains(front + r, TAG) {
      var t :| r == Tagged(t) && TailOk(front, t);
      DropTaggedAlone(front, t);
      var v := DropSpacesForm(t.text);
      StartsWithText(t);
      hide DropTag, DropSpaces, TailOk, Tagged;
      OneBoxBefore(x, c, r, DropSpaces(t.text), t.blanks);
    } else {
      NoTagBehind(front, r);
    }
  }

  lemma StartsWithText(t: Tail)
    ensures t.text <= Tagged(t)
  {
  }

  lemma OneBoxBefore(x: string, c: char, r: string, m: string, blanks: string)
    requires OneBox(x, c, r) && m <= r && Blank(blanks)
    ensures OneBox(x, c, m + blanks)
  {
    var s, n := x + Box(c) + r, x + Box(c) + (m + blanks);
    var k := |x| + 5 + |m|;
    assert forall i :: 0 <= i < k ==> n[i] == s[i];
    assert forall i :: k <= i < |n| ==> n[i] == blanks[i - k];
    forall i | BoxAt(n, i) ensures i == |x| {
      assert i + 4 < k;
      assert BoxAt(s, i);
    }
  }

  // -------------------------------------------------- the line that results

  lemma AtMostAnew(x: string, c: char, d: char, r: string)
    requires IsMark(c) && IsMark(d) && AtMostTrailingTag(x, c, r)
    ensures AtMostTrailingTag(x, d, r)
  {
    if !Contains(x + Box(c) + r, TAG) {
      NoTagAnew(x, c, d, r);
    } else {
      var t :| r == Tagged(t) && TailOk(x + Box(c), t);
      TailOkAnew(x, c, d, t);
    }
  }

  /** A status that the line already has is refused, except that "- [ ]" becomes "- [?]". */
  predicate Refused(c: char, state: Status) {
    match state
    case Pending => c == '?'
    case Completed => c == 'x' || c == 'X'
    case Rejected => c == '-'
  }

  /** What stands behind the checkbox afterwards. */
  function NewRest(c: char, r: string, state: Status, today: string): string {
    if state == Completed then DropSpaces(if c == '-' then r else DropTag(r)) + CompletedOn(today) else DropTag(r)
  }

  lemma OnlyMark(x: string, c: char, r: string)
    requires OneBox(x, c, r)
    ensures var s := x + Box(c) + r;
      && (Has(s, '?') <==> c == '?') && (Has(s, ' ') <==> c == ' ') && (Has(s, 'x') <==> c == 'x')
      && (Has(s, 'X') <==> c == 'X') && (Has(s, '-') <==> c == '-')
  {
    hide Has, Box, OneBox;
    OnlyBox(x, c, r, '?');
    OnlyBox(x, c, r, ' ');
    OnlyBox(x, c, r, 'x');
    OnlyBox(x, c, r, 'X');
    OnlyBox(x, c, r, '-');
  }

  lemma SetUntagged(x: string, c: char, r: string, state: Status, today: string)
    requires OneBox(x, c, r) && AtMostTrailingTag(x, c, r) && state != Completed
    ensures SetLine(x + Box(c) + r, state, today)
         == if Refused(c, state) then None else Some(x + Box(MarkOf(state)) + DropTag(r))
  {
    var d := MarkOf(state);
    assert IsMark(c) && IsMark(d);
    AtMostAnew(x, c, d, r);
    OnlyMark(x, c, r);
    hide DropTag, Has, AtMostTrailingTag, Swap, Replace, OneBox, Box;
    DropTagBehind(x, d, r);
    if c == 'x' || c == 'X' {
      SwapBox(x, c, r, 'x', 'X', d);
    } else if state == Rejected && c != '-' {
      SwapBox(x, c, r, '?', ' ', d);
    } else if c != d {
      ReplaceBox(x, c, d, r);
    }
  }

  lemma SetCompleted(x: string, c: char, r: string, today: string)
    requires OneBox(x, c, r) && AtMostTrailingTag(x, c, r)
    ensures SetLine(x + Box(c) + r, Completed, today)
         == if Refused(c, Completed) then None else Some(x + Box('x') + NewRest(c, r, Completed, today))
  {
    var kept := if c == '-' then r else DropTag(r);
    assert IsMark(c);
    OnlyMark(x, c, r);
    DropTagBehind(x, c, r);
    OneBoxWithoutTag(x, c, r);
    DropSpacesBehind(x + Box('x'), kept);
    hide DropTag, DropSpaces, Has, AtMostTrailingTag, Swap, Replace, OneBox, CompletedOn;
    Regroup(x + Box('x'), DropSpaces(kept), CompletedOn(today));
    if c == '?' || c == ' ' {
      SwapBox(x, c, DropTag(r), '?', ' ', 'x');
    } else if c == '-' {
      ReplaceBox(x, c, 'x', r);
    }
  }

  /** Setting the status of a regular line fails exactly when it has that status
      already, and otherwise changes the mark and what stands behind it. */
  lemma SetRegular(line: string, x: string, c: char, r: string, state: Status, today: string)
    requires Regular(line, x, c, r)
    ensures SetLine(line, state, today)
         == if Refused(c, state) then None else Some(x + Box(MarkOf(state)) + NewRest(c, r, state, today))
  {
    if state == Completed {
      SetCompleted(x, c, r, today);
    } else {
      SetUntagged(x, c, r, state, today);
    }
  }

  // -------------------------------------------------------- parsing it again

  /** The text of a task up to its tag. */
  function Cut(r: string): string {
    var i := Index(r, TAG);
    if i >= 0 then r[..i] else r
  }

  lemma InBlanks(u: string, t: string, v: string, k: nat)
    requires Blank(u) && Blank(v) && k < |u + t + v|
    ensures |u| <= k < |u| + |t| || IsSpace((u + t + v)[k])
  {
    var s := u + t + v;
    assert s[k] == if k < |u| then u[k] else if k < |u| + |t| then t[k - |u|] else v[k - |u| - |t|];
  }

  lemma Inside(u: string, t: string, v: string, i: nat, sub: string)
    requires |u| <= i && i + |sub| <= |u + t| && (u + t + v)[i..i + |sub|] == sub
    ensures t[i - |u|..i - |u| + |sub|] == sub
  {
    var s, k := u + t + v, i - |u|;
    forall j | 0 <= j < |sub| ensures t[k + j] == sub[j] {
      assert s[i + j] == s[i..i + |sub|][j];
    }
  }

  /** A tag holds no blank, so it does not reach into blanks around a text. */
  lemma TagInside(u: string, t: string, v: string)
    requires Blank(u) && Blank(v) && Contains(u + t + v, TAG)
    ensures Contains(t, TAG)
  {
    var s := u + t + v;
    var a, b := IndexFirst(s, TAG);
    assert s[|a|] == '[' && s[|a| + 12] == ':';
    InBlanks(u, t, v, |a|);
    InBlanks(u, t, v, |a| + 12);
    hide Contains, Index, Blank;
    Inside(u, t, v, |a|, TAG);
    ContainsAt(t, |a| - |u|, TAG);
  }

  lemma TagBehindBlanks(u: string, a: string)
    requires Blank(u) && !Contains(a, TAG)
    ensures !Contains(u + a, TAG)
  {
    if Contains(u + a, TAG) {
      assert u + a + "" == u + a;
      TagInside(u, a, "");
    }
  }

  lemma TrimBehind(s: string, v: string)
    requires Blank(v)
    ensures TrimSpace(s + v) == TrimSpace(s)
  {
    TrimAround("", s, v);
    assert "" + s + v == s + v;
  }

  lemma TrimBefore(u: string, s: string)
    requires Blank(u)
    ensures TrimSpace(u + s) == TrimSpace(s)
  {
    TrimAround(u, s, "");
    assert u + s + "" == u + s;
  }

  lemma CutAtTag(a: string, b: string)
    requires !Contains(a, TAG)
    ensures Cut(a + TAG + b) == a
  {
    TagFirst(a, b);
  }

  lemma CutNone(r: string)
    requires !Contains(r, TAG)
    ensures Cut(r) == r && Index(r, TAG) == -1
  {
    IndexContains(r, TAG);
  }

  lemma Nest(u: string, a: string, m: string, b: string, v: string)
    ensures u + (a + m + b) + v == (u + a) + m + (b + v)
    ensures (a + m + b)[..|a|] == a
  {
  }

  lemma CutInBlanks(u: string, a: string, b: string, v: string)
    requires Blank(u) && Blank(v) && !Contains(a, TAG)
    ensures TrimSpace(Cut(u + (a + TAG + b) + v)) == TrimSpace(a)
  {
    TagBehindBlanks(u, a);
    CutAtTag(u + a, b + v);
    TrimBefore(u, a);
    hide *;
    Nest(u, a, TAG, b, v);
  }

  /** Cutting and trimming commute. */
  lemma CutOfTrimmed(r: string)
    ensures TaskText(r) == TrimSpace(Cut(r))
  {
    var u, v := TrimForm(r);
    var t := TrimSpace(r);
    if Contains(t, TAG) {
      var a, b := IndexFirst(t, TAG);
      CutInBlanks(u, a, b, v);
      hide TrimSpace, Index, Contains, Cut, Blank, Trimmed;
      Nest("", a, TAG, b, "");
    } else {
      if Contains(r, TAG) { TagInside(u, t, v); }
      CutNone(r);
      CutNone(t);
    }
  }

  lemma LeadingBox(c: char, rest: string)
    requires IsMark(c)
    ensures LeadingMark(Box(c) + rest) == Some(c) && (Box(c) + rest)[5..] == rest
  {
    var s := Box(c) + rest;
    assert s[3] == c;
    assert forall e: char :: Box(e)[3] == e;
  }

  /** A line that starts with a checkbox is a task. */
  lemma ParseBox(ws: string, c: char, r: string)
    requires Blank(ws) && IsMark(c)
    ensures ParseLine(ws + Box(c) + r) == Some((TrimSpace(Cut(r)), StatusOf(c)))
  {
    var v := TrimRightForm(r);
    var core := Box(c) + TrimRight(r);
    assert ws + Box(c) + r == ws + core + v;
    assert Trimmed(core);
    TrimOf(ws, core, v);
    LeadingBox(c, TrimRight(r));
    TrimAround("", TrimRight(r), v);
    assert "" + TrimRight(r) + v == r;
    TextOfTrimmed(r);
  }

  lemma TextOfTrimmed(r: string)
    ensures TaskText(TrimRight(r)) == TrimSpace(Cut(r))
  {
    hide TrimSpace, TrimRight, TrimLeft, Index, Cut, Blank;
    assert TrimSpace(TrimRight(r)) == TrimSpace(r) by {
      var v := TrimRightForm(r);
      TrimBehind(TrimRight(r), v);
    }
    CutOfTrimmed(r);
  }

  /** Every task line starts with its checkbox, behind blanks. */
  lemma TaskLineForm(line: string) returns (ws: string, c: char, r: string)
    requires ParseLine(line).Some?
    ensures line == ws + Box(c) + r && Blank(ws) && IsMark(c)
    ensures ParseLine(line) == Some((TrimSpace(Cut(r)), StatusOf(c)))
  {
    var u, v := TrimForm(line);
    var s := TrimSpace(line);
    ws, c, r := u, LeadingMark(s).value, s[5..] + v;
    assert s == Box(c) + s[5..];
    assert line == ws + Box(c) + r;
    ParseBox(ws, c, r);
  }

  // --------------------------------------------------- the text stays the same

  lemma DropSpacesText(s: string)
    ensures TrimSpace(DropSpaces(s)) == TrimSpace(s)
  {
    var v := DropSpacesForm(s);
    hide TrimSpace, DropSpaces;
    TrimBehind(DropSpaces(s), v);
  }

  lemma NoTagInStart(s: string, m: string, blanks: string)
    requires !Contains(s, TAG) && m <= s && Blank(blanks)
    ensures !Contains(m + blanks, TAG)
  {
    if Contains(m + blanks, TAG) {
      assert "" + m + blanks == m + blanks;
      TagInside("", m, blanks);
      assert s == "" + m + s[|m|..];
      ContainsWithin(s, "", m, s[|m|..], TAG);
    }
  }

  lemma CutTagged(t: Tail, more: string)
    requires !Contains(t.text, TAG)
    ensures Cut(Tagged(t) + more) == t.text
  {
    var q := t.date + "]" + t.blanks;
    CutAtTag(t.text, q + more);
    hide Cut, Contains;
    TaggedForm("", t);
    assert "" + Tagged(t) == Tagged(t) && "" + t.text == t.text;
    hide Tagged;
    Regroup(t.text + TAG, q, more);
  }

  /** Removing the tag leaves the text. */
  lemma DropTagText(front: string, r: string)
    requires !Contains(front + r, TAG) || exists t :: r == Tagged(t) && TailOk(front, t)
    ensures TrimSpace(Cut(DropTag(r))) == TrimSpace(Cut(r))
  {
    if !Contains(front + r, TAG) {
      NoTagBehind(front, r);
    } else {
      var t :| r == Tagged(t) && TailOk(front, t);
      DropTaggedAlone(front, t);
      var d := DropSpaces(t.text);
      var v := DropSpacesForm(t.text);
      NoTagInStart(t.text, d, t.blanks);
      CutNone(d + t.blanks);
      CutTagged(t, "");
      assert r + "" == r;
      hide TrimSpace, Cut, DropTag, Tagged, DropSpaces, Contains;
      TrimBehind(d, t.blanks);
      DropSpacesText(t.text);
    }
  }

  lemma CompletedForm(today: string)
    ensures CompletedOn(today) == "  " + TAG + (" " + today + "]")
  {
  }

  lemma CutAdded(d: string, blanks: string, today: string)
    requires !Contains(d + blanks, TAG) && blanks == "  "
    ensures Cut(d + CompletedOn(today)) == d + blanks
  {
    var z := " " + today + "]";
    CutAtTag(d + blanks, z);
    CompletedForm(today);
    hide *;
    Regroup(d, blanks, TAG);
    Regroup(d, blanks + TAG, z);
  }

  /** A new tag behind the line does not change its text. */
  lemma AddTagText(r: string, today: string)
    requires !Contains(r, TAG)
    ensures TrimSpace(Cut(DropSpaces(r) + CompletedOn(today))) == TrimSpace(Cut(r))
  {
    var d, blanks := DropSpaces(r), "  ";
    var v := DropSpacesForm(r);
    NoTagInStart(r, d, blanks);
    CutNone(r);
    TrimBehind(d, blanks);
    DropSpacesText(r);
    CutAdded(d, blanks, today);
  }

  lemma AddSecondTagText(t: Tail, today: string)
    requires !Contains(t.text, TAG)
    ensures Cut(DropSpaces(Tagged(t)) + CompletedOn(today)) == t.text == Cut(Tagged(t))
  {
    var less := t.(blanks := DropSpaces(t.blanks));
    DropSpacesBehind(t.text + TAG + t.date + "]", t.blanks);
    assert DropSpaces(Tagged(t)) == Tagged(less);
    CutTagged(less, CompletedOn(today));
    CutTagged(t, "");
    assert Tagged(t) + "" == Tagged(t);
  }

  /** Whatever status is set, the text of the task stays. */
  lemma NewRestText(x: string, c: char, r: string, state: Status, today: string)
    requires IsMark(c) && AtMostTrailingTag(x, c, r)
    ensures TrimSpace(Cut(NewRest(c, r, state, today))) == TrimSpace(Cut(r))
  {
    var front := x + Box(c);
    DropTagText(front, r);
    if state == Completed {
      if !Contains(front + r, TAG) {
        NoTagBehind(front, r);
        AddTagText(r, today);
      } else {
        var t :| r == Tagged(t) && TailOk(front, t);
        DropTaggedAlone(front, t);
        var v := DropSpacesForm(t.text);
        NoTagInStart(t.text, DropSpaces(t.text), t.blanks);
        hide TrimSpace, Cut, DropSpaces, DropTag, Contains, CompletedOn, Tagged, TailOk;
        if c == '-' {
          AddSecondTagText(t, today);
        } else {
          AddTagText(DropTag(r), today);
        }
      }
    }
  }

  // ----------------------------------------- a task beside the closing delimiter

  lemma DropSpacesAround(y: string, v: string) returns (v': string)
    requires SEP <= v
    ensures DropSpaces(y + v) == y + v' && SEP <= v'
  {
    var w := v[3..];
    assert v == SEP + w;
    DropSpacesBehind(y + SEP, w);
    Regroup(y, SEP, w);
    Regroup(y, SEP, DropSpaces(w));
    v' := SEP + DropSpaces(w);
  }

  /** A delimiter in a tagged text is in front of the tag. */
  lemma SepInText(y: string, v: string, t: Tail)
    requires SEP <= v && y + v == Tagged(t) && !Contains(t.date, SEP) && Blank(t.blanks)
    ensures y + SEP <= t.text
  {
    var s, k, m := Tagged(t), |y|, |t.text|;
    assert s[k] == v[0] && s[k + 1] == v[1] && s[k + 2] == v[2];
    TaggedAt(t, k);
    TaggedAt(t, k + 1);
    TaggedAt(t, k + 2);
    assert v[..3] == SEP;
    var j := k - m - |TAG|;
    if 0 <= j && j + 3 <= |t.date| {
      assert t.date[j..j + 3] == SEP;
      ContainsAt(t.date, j, SEP);
    }
    assert k + 3 <= m;
    assert t.text == s[..m] && y + SEP == s[..k + 3];
  }

  lemma TaggedChar(t: Tail, k: nat)
    requires k < |Tagged(t)|
    ensures var m := |t.text|;
      Tagged(t)[k] == if k < m then t.text[k]
                      else if k < m + 13 then TAG[k - m]
                      else if k < m + 13 + |t.date| then t.date[k - m - 13]
                      else if k == m + 13 + |t.date| then ']'
                      else t.blanks[k - m - 14 - |t.date|]
  {
  }

  /** A dash of a tagged text is in the text or in the date. */
  lemma TaggedAt(t: Tail, k: nat)
    requires k < |Tagged(t)| && Tagged(t)[k] == '-' && Blank(t.blanks)
    ensures k < |t.text| || (|t.text| + |TAG| <= k < |t.text| + |TAG| + |t.date| && t.date[k - |t.text| - |TAG|] == '-')
  {
    TaggedChar(t, k);
    assert forall i :: 0 <= i < |TAG| ==> TAG[i] != '-';
    assert forall i :: 0 <= i < |t.blanks| ==> t.blanks[i] != '-';
  }

  lemma DropTagAround(front: string, y: string, v: string) returns (v': string)
    requires SEP <= v
    requires !Contains(front + (y + v), TAG) || exists t :: y + v == Tagged(t) && TailOk(front, t)
    ensures DropTag(y + v) == y + v' && SEP <= v'
  {
    if !Contains(front + (y + v), TAG) {
      NoTagBehind(front, y + v);
      v' := v;
    } else {
      var t :| y + v == Tagged(t) && TailOk(front, t);
      DropTaggedAlone(front, t);
      SepInText(y, v, t);
      var m := t.text[|y|..];
      assert t.text == y + m;
      var d := DropSpacesAround(y, m);
      v' := d + t.blanks;
      Regroup(y, d, t.blanks);
    }
  }

  /** Beside the closing delimiter, the delimiter and what stands in front of it stay. */
  lemma NewRestAround(x: string, c: char, y: string, v: string, state: Status, today: string) returns (v': string)
    requires IsMark(c) && AtMostTrailingTag(x, c, y + v) && SEP <= v
    ensures NewRest(c, y + v, state, today) == y + v' && SEP <= v'
  {
    var kept := DropTagAround(x + Box(c), y, v);
    v' := kept;
    if state == Completed {
      var d := DropSpacesAround(y, if c == '-' then v else kept);
      v' := d + CompletedOn(today);
      Regroup(y, d, CompletedOn(today));
    }
  }

  // ------------------------------------------------------ what the line is made of

  lemma {:induction false} DropSpacesStarts(s: string)
    ensures DropSpaces(s) <= s
  {
    var v := DropSpacesForm(s);
  }

  lemma StartInTwo(s: string, d: string, blanks: string) returns (m: string, b: string)
    requires s <= d + blanks && Blank(blanks)
    ensures s == m + b && m <= d && b <= blanks && Blank(b)
  {
    if |s| <= |d| {
      m, b := s, "";
      assert s == (d + blanks)[..|s|] == d[..|s|];
    } else {
      m, b := d, s[|d|..];
      assert s == (d + blanks)[..|s|];
      assert b == blanks[..|b|];
    }
  }

  lemma DropTagPieces(front: string, r: string) returns (m: string, blanks: string)
    requires !Contains(front + r, TAG) || exists t :: r == Tagged(t) && TailOk(front, t)
    ensures DropTag(r) == m + blanks && m <= r && Blank(blanks) && forall c <- blanks :: c in r
  {
    if !Contains(front + r, TAG) {
      NoTagBehind(front, r);
      m, blanks := r, "";
    } else {
      var t :| r == Tagged(t) && TailOk(front, t);
      hide *;
      m, blanks := DropTaggedPieces(front, t);
    }
  }

  lemma BlanksInTail(t: Tail, c: char)
    requires c in t.blanks
    ensures c in Tagged(t)
  {
    var k :| 0 <= k < |t.blanks| && t.blanks[k] == c;
    assert Tagged(t)[|t.text| + |TAG| + |t.date| + 1 + k] == c;
  }

  lemma DropTaggedPieces(front: string, t: Tail) returns (m: string, blanks: string)
    requires TailOk(front, t)
    ensures DropTag(Tagged(t)) == m + blanks && m <= Tagged(t) && Blank(blanks) && forall c <- blanks :: c in Tagged(t)
  {
    DropTaggedAlone(front, t);
    DropSpacesStarts(t.text);
    StartsWithText(t);
    hide DropTag, DropSpaces, Tagged, Contains;
    m, blanks := DropSpaces(t.text), t.blanks;
    forall c <- blanks ensures c in Tagged(t) { BlanksInTail(t, c); }
  }

  lemma DropSpacesPieces(r: string, m: string, blanks: string) returns (m': string, b': string)
    requires m <= r && Blank(blanks)
    ensures DropSpaces(m + blanks) == m' + b' && m' <= r && b' <= blanks && Blank(b')
  {
    DropSpacesStarts(m + blanks);
    hide DropSpaces;
    m', b' := StartInTwo(DropSpaces(m + blanks), m, blanks);
  }

  lemma InStart(b: string, blanks: string, r: string)
    requires b <= blanks && forall c <- blanks :: c in r
    ensures forall c <- b :: c in r
  {
  }

  /** Behind the checkbox stands a start of what stood there, then blanks, then
      the new tag if there is one. */
  lemma NewRestPieces(x: string, c: char, r: string, state: Status, today: string) returns (m: string, blanks: string, tail: string)
    requires AtMostTrailingTag(x, c, r)
    ensures NewRest(c, r, state, today) == m + blanks + tail
    ensures m <= r && Blank(blanks) && (forall c <- blanks :: c in r)
    ensures tail == if state == Completed then CompletedOn(today) else ""
  {
    m, blanks := DropTagPieces(x + Box(c), r);
    tail := "";
    if state == Completed {
      tail := CompletedOn(today);
      hide DropTag, DropSpaces, CompletedOn, AtMostTrailingTag;
      if c == '-' {
        DropSpacesStarts(r);
        m, blanks := DropSpaces(r), "";
      } else {
        var m', b' := DropSpacesPieces(r, m, blanks);
        InStart(b', blanks, r);
        m, blanks := m', b';
      }
      assert m + blanks == DropSpaces(if c == '-' then r else DropTag(r));
    }
  }

  lemma CompletedHasNoSep(today: string)
    requires !Contains(today, SEP)
    ensures !Contains(CompletedOn(today), SEP)
  {
    var a := "  [completion:: ";
    NoDash(a);
    NoDash("]");
    NoSepAcross(a, today);
    NoSepAcross(a + today, "]");
  }

  lemma StartHasNoSep(m: string, r: string)
    requires m <= r && !Contains(r, SEP)
    ensures !Contains(m, SEP)
  {
    assert r == "" + m + r[|m|..];
    if Contains(m, SEP) { ContainsWithin(r, "", m, r[|m|..], SEP); }
  }

  lemma NewRestHasNoSep(x: string, c: char, r: string, state: Status, today: string)
    requires AtMostTrailingTag(x, c, r) && !Contains(r, SEP) && !Contains(today, SEP)
    ensures !Contains(NewRest(c, r, state, today), SEP)
  {
    var m, blanks, tail := NewRestPieces(x, c, r, state, today);
    StartHasNoSep(m, r);
    assert '-' !in blanks;
    NoDash(blanks);
    CompletedHasNoSep(today);
    NoDash("");
    assert tail == "" || tail[0] == ' ';
    hide NewRest, CompletedOn, Contains, AtMostTrailingTag;
    NoSepAcross(m, blanks);
    NoSepAcross(m + blanks, tail);
  }

  lemma CompletedIsLine(today: string)
    requires IsLine(today)
    ensures IsLine(CompletedOn(today))
  {
    var a, b := "  [completion:: ", "]";
    assert IsLine(a) && IsLine(b);
    assert IsLine(a + today);
  }

  lemma OfLineIsLine(s: string, r: string)
    requires IsLine(r) && forall c <- s :: c in r
    ensures IsLine(s)
  {
    forall i | 0 <= i < |s| ensures s[i] != '\n' { assert s[i] in s; }
  }

  lemma NewRestIsLine(x: string, c: char, r: string, state: Status, today: string)
    requires AtMostTrailingTag(x, c, r) && IsLine(r) && IsLine(today)
    ensures IsLine(NewRest(c, r, state, today))
  {
    var m, blanks, tail := NewRestPieces(x, c, r, state, today);
    assert IsLine(m);
    CompletedIsLine(today);
    hide NewRest, CompletedOn, AtMostTrailingTag;
    OfLineIsLine(blanks, r);
    assert IsLine(tail);
    assert IsLine(m + blanks + tail);
  }

  lemma BoxedHasNoSep(ws: string, c: char, r: string)
    requires IsMark(c) && Blank(ws) && !Contains(r, SEP)
    ensures !Contains(ws + Box(c) + r, SEP)
  {
    NoDash(ws);
    BoxHasNoSep(c);
    NoSepAcross(ws, Box(c));
    NoSepAcross(ws + Box(c), r);
  }

  lemma BoxHasNoSep(c: char)
    requires IsMark(c)
    ensures !Contains(Box(c), SEP)
  {
    var s := Box(c);
    assert s[1] == ' ' && s[2] == '[' && s[4] == ']';
    NoThreeDashes(s);
  }

  lemma BoxedParts(ws: string, c: char, r: string)
    requires !Contains(ws + Box(c) + r, SEP) && IsLine(ws + Box(c) + r)
    ensures !Contains(r, SEP) && IsLine(r) && IsLine(ws)
  {
    var s := ws + Box(c) + r;
    assert s == (ws + Box(c)) + r + "";
    if Contains(r, SEP) { ContainsWithin(s, ws + Box(c), r, "", SEP); }
    assert forall i :: 0 <= i < |r| ==> r[i] == s[|ws| + 5 + i];
    assert forall i :: 0 <= i < |ws| ==> ws[i] == s[i];
  }

  predicate Numeric(s: string) {
    s != "" && forall c <- s :: '0' <= c <= '9'
  }

  lemma NumericDate(y: string, m: string, d: string)
    requires Numeric(y) && Numeric(m) && Numeric(d)
    ensures var s := y + "-" + m + "-" + d; !Contains(s, SEP) && IsLine(s) && '<' !in s && ']' !in s
  {
    NoDash(y);
    NoDash(m);
    NoDash(d);
    NoThreeDashes("-");
    assert y[|y| - 1] in y && m[0] in m && m[|m| - 1] in m && d[0] in d;
    NoSepAcross(y, "-");
    NoSepAcross(y + "-", m);
    NoSepAcross(y + "-" + m, "-");
    NoSepAcross(y + "-" + m + "-", d);
    var s := y + "-" + m + "-" + d;
    assert forall c <- s :: c in y || c == '-' || c in m || c in d;
    assert forall i :: 0 <= i < |s| ==> s[i] in s;
  }

  /** A date holds no delimiter, bracket or line break. */
  lemma IsoDatePlain(s: string)
    requires Calendar.IsIsoDate(s)
    ensures !Contains(s, SEP) && IsLine(s) && '<' !in s && ']' !in s
  {
    var d: Calendar.Date :| d.Valid() && 0 <= d.year <= 9999 && Calendar.IsoDate(d) == s;
    Calendar.DigitsPlain(d.year, 4);
    Calendar.DigitsPlain(d.month, 2);
    Calendar.DigitsPlain(d.day, 2);
    NumericDate(Calendar.Digits(d.year, 4), Calendar.Digits(d.month, 2), Calendar.Digits(d.day, 2));
  }
}
