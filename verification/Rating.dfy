/** The day's rating in a note's front matter (core/features/rating.go). */
module Rating {
  import opened Options
  import opened Text
  import opened Trim
  import opened Sections
  import opened MarkedText
  import opened NoteMarkers

  const KEY: string := "Оценка:"

  function RatingLine(r: int): string {
    KEY + " " + Itoa(r)
  }

  predicate IsRating(line: string) {
    KEY <= TrimSpace(line)
  }

  /** A line taken for the start of the note's body. */
  predicate IsBody(line: string) {
    "- [" <= TrimSpace(line)
  }

  /** The number of lines in front of the body. */
  function FrontLength(lines: seq<string>): (k: nat)
    ensures k <= |lines| && (k < |lines| ==> IsBody(lines[k]))
    ensures forall i :: 0 <= i < k ==> !IsBody(lines[i])
  {
    if lines == [] || IsBody(lines[0]) then 0 else 1 + FrontLength(lines[1..])
  }

  /** Where the front matter ends in the part between the first two delimiters. */
  function FrontEnd(parts: seq<string>): (k: nat)
    requires |parts| >= 3
    ensures k <= |Lines(parts[1])|
  {
    if |parts| >= 4 then FrontLength(Lines(parts[1])) else |Lines(parts[1])|
  }

  function Front(parts: seq<string>): (front: seq<string>)
    requires |parts| >= 3
    ensures |front| >= 1
  {
    if FrontEnd(parts) == 0 then [""] else Lines(parts[1])[..FrontEnd(parts)]
  }

  function Body(parts: seq<string>): seq<string>
    requires |parts| >= 3
  {
    Lines(parts[1])[FrontEnd(parts)..]
  }

  /** A part between the delimiters that holds tasks as well is front matter up to the first
      line that starts with a dash, a blank and a bracket; one without a section behind it
      is front matter as a whole. */
  lemma FrontStopsAtTasks(parts: seq<string>, i: nat)
    requires |parts| >= 3 && i <= |Lines(parts[1])|
    requires forall k :: 0 <= k < i ==> !("- [" <= TrimSpace(Lines(parts[1])[k]))
    requires i < |Lines(parts[1])| ==> |parts| >= 4 && "- [" <= TrimSpace(Lines(parts[1])[i])
    ensures Front(parts) == if i == 0 then [""] else Lines(parts[1])[..i]
    ensures Body(parts) == Lines(parts[1])[i..]
  {
  }

  predicate Rates(lines: seq<string>) {
    exists i :: 0 <= i < |lines| && IsRating(lines[i])
  }

  function Replaced(lines: seq<string>, line: string): (out: seq<string>)
    ensures |out| == |lines|
    ensures forall i :: 0 <= i < |lines| ==> out[i] == if IsRating(lines[i]) then line else lines[i]
  {
    if lines == [] then []
    else [if IsRating(lines[0]) then line else lines[0]] + Replaced(lines[1..], line)
  }

  /** The front matter's lines with the rating line set. */
  function Rerated(lines: seq<string>, line: string): (out: seq<string>)
    requires |lines| >= 1
    ensures |out| >= 1
  {
    if Rates(lines) then Replaced(lines, line)
    else if lines[|lines| - 1] == "" then lines[..|lines| - 1] + [line, ""]
    else lines + [line]
  }

  function NewFront(parts: seq<string>, r: int): string
    requires |parts| >= 3
  {
    Join(Rerated(Front(parts), RatingLine(r)) + Body(parts), NL)
  }

  /** UpdateRatingImpl; None is its refusal. */
  function Updated(content: string, r: int): Option<string> {
    var parts := Split(content, SEP);
    if |parts| < 3 then None else Some(Join(parts[1 := NewFront(parts, r)], SEP))
  }

  // ------------------------------------------------------------------ reading

  /** The value on a rating line; None when it is empty or not a number. */
  function LineValue(line: string): Option<Int64> {
    var text := TrimSpace(line[Index(line, ":") + 1..]);
    if text == "" then None else Atoi(text)
  }

  /** The value of the first rating line. */
  function FirstRating(lines: seq<string>): Option<Int64> {
    if lines == [] then None
    else if IsRating(lines[0]) then LineValue(lines[0])
    else FirstRating(lines[1..])
  }

  /** GetRatingImpl */
  function Rated(content: string): Option<Int64> {
    var parts := Split(content, SEP);
    if |parts| < 3 then None else FirstRating(Front(parts))
  }

  // -------------------------------------------------------------- rating lines

  lemma RatingLineShape(r: Int64)
    ensures IsRating(RatingLine(r)) && !IsBody(RatingLine(r)) && LineValue(RatingLine(r)) == Some(r)
    ensures Bare(RatingLine(r)) && Sound([RatingLine(r)])
  {
    RatingLineText(r);
    RatingLineValue(r);
    var line := RatingLine(r);
    hide RatingLine, LineValue;
    assert line[0] == KEY[0];
    TrimOf("", line, "");
    assert "" + line + "" == line;
    NoOpening(line);
  }

  lemma RatingLineText(r: Int64)
    ensures var line := RatingLine(r);
      && KEY <= line && IsLine(line) && !Contains(line, SEP) && Trimmed(line) && line[|line| - 1] != '-' && '<' !in line
  {
    var line, text := RatingLine(r), Itoa(r);
    NumberShape(r);
    KeyShape();
    hide Itoa;
    assert line[|line| - 1] == text[|text| - 1];
    NoSepAcross(KEY + " ", text);
  }

  lemma RatingLineValue(r: Int64)
    ensures LineValue(RatingLine(r)) == Some(r)
  {
    var line, text := RatingLine(r), Itoa(r);
    NumberShape(r);
    hide Itoa;
    ColonAt(line);
    assert line[7..] == " " + text + "";
    TrimOf(" ", text, "");
    AtoiOfItoa(r);
  }

  lemma NumberShape(r: int)
    ensures var s := Itoa(r); s != "" && IsDigit(s[|s| - 1]) && s[0] != ' ' && IsLine(s) && !Contains(s, SEP) && Trimmed(s) && '<' !in s
  {
    var d := Decimal(if r < 0 then -r else r);
    assert IsDigit(d[0]) && IsDigit(d[|d| - 1]);
    assert forall i :: 0 <= i < |d| ==> IsDigit(d[i]);
    NoDash(d);
    NoThreeDashes("-");
    NoSepAcross("-", d);
  }

  lemma KeyShape()
    ensures KEY + " " == "Оценка: " && IsLine(KEY + " ") && !Contains(KEY + " ", SEP) && '<' !in KEY + " "
  {
    NoDash(KEY + " ");
  }

  lemma ColonAt(line: string)
    requires KEY <= line
    ensures Index(line, ":") == 6
  {
    assert forall i :: 0 <= i < 6 ==> line[i] != ':';
    IndexAt(line, ':', 6);
  }

  lemma {:induction false} IndexAt(s: string, c: char, k: nat)
    requires k < |s| && s[k] == c && forall i :: 0 <= i < k ==> s[i] != c
    ensures Index(s, [c]) == k
  {
    if k > 0 {
      IndexAt(s[1..], c, k - 1);
    }
  }

  lemma {:induction false} NoOpening(s: string)
    requires '<' !in s
    ensures Bare(s)
  {
    if s != "" {
      NoOpening(s[1..]);
      assert PREFIX[0] == '<';
    } else {
      assert |PREFIX| > 0;
    }
  }

  // ------------------------------------------------------- setting the rating

  lemma Added(lines: seq<string>, line: string) returns (front: seq<string>, tail: seq<string>)
    requires |lines| >= 1 && !Rates(lines)
    ensures lines == front + tail && Rerated(lines, line) == front + [line] + tail
    ensures (front, tail) == if lines[|lines| - 1] == "" then (lines[..|lines| - 1], [""]) else (lines, [])
  {
    var last := |lines| - 1;
    if lines[last] == "" {
      front, tail := lines[..last], [""];
    } else {
      front, tail := lines, [];
    }
  }

  predicate NoBody(lines: seq<string>) {
    forall i :: 0 <= i < |lines| ==> !IsBody(lines[i])
  }

  lemma LineReplaced(lines: seq<string>, out: seq<string>, line: string)
    requires |out| == |lines| && forall i :: 0 <= i < |out| ==> out[i] == lines[i] || out[i] == line
    requires Sound([line]) && !IsBody(line)
    ensures PlainLines(lines) ==> PlainLines(out)
    ensures PlainEnd(lines) ==> PlainEnd(out)
    ensures NoBody(lines) ==> NoBody(out)
  {
    assert line == [line][0];
  }

  lemma LineAdded(front: seq<string>, line: string, tail: seq<string>)
    requires Sound([line]) && !IsBody(line) && tail in {[], [""]}
    ensures PlainLines(front + tail) ==> PlainLines(front + [line] + tail)
    ensures PlainEnd(front + [line] + tail)
    ensures NoBody(front + tail) ==> NoBody(front + [line] + tail)
  {
    var x, y := front + tail, front + [line] + tail;
    assert line == [line][0];
    assert forall i :: 0 <= i < |front| ==> y[i] == x[i];
    if tail != [] { assert y[|front| + 1] == "" && x[|front|] == ""; }
  }

  lemma ReratedSound(lines: seq<string>, line: string)
    requires |lines| >= 1 && Sound([line]) && !IsBody(line)
    ensures PlainLines(lines) ==> PlainLines(Rerated(lines, line))
    ensures PlainEnd(lines) ==> PlainEnd(Rerated(lines, line))
    ensures NoBody(lines) ==> NoBody(Rerated(lines, line))
  {
    if Rates(lines) {
      LineReplaced(lines, Replaced(lines, line), line);
    } else {
      var front, tail := Added(lines, line);
      LineAdded(front, line, tail);
    }
  }

  lemma {:induction false} FirstOfReplaced(lines: seq<string>, line: string)
    requires Rates(lines) && IsRating(line)
    ensures FirstRating(Replaced(lines, line)) == LineValue(line)
  {
    var i :| 0 <= i < |lines| && IsRating(lines[i]);
    if !IsRating(lines[0]) {
      assert lines[1..][i - 1] == lines[i];
      FirstOfReplaced(lines[1..], line);
    }
  }

  lemma {:induction false} FirstOfAdded(front: seq<string>, line: string, tail: seq<string>)
    requires !Rates(front) && IsRating(line)
    ensures FirstRating(front + [line] + tail) == LineValue(line)
  {
    hide IsRating;
    if front != [] {
      assert (front + [line] + tail)[1..] == front[1..] + [line] + tail;
      NotRated(front, [front[0]], front[1..]);
      hide LineValue;
      FirstOfAdded(front[1..], line, tail);
    }
  }

  /** The value of the rating line that was set is the one read. */
  lemma ReratedRates(lines: seq<string>, line: string)
    requires |lines| >= 1 && IsRating(line)
    ensures FirstRating(Rerated(lines, line)) == LineValue(line)
  {
    if Rates(lines) {
      FirstOfReplaced(lines, line);
    } else {
      var front, tail := Added(lines, line);
      NotRated(lines, front, tail);
      FirstOfAdded(front, line, tail);
    }
  }

  lemma NotRated(lines: seq<string>, a: seq<string>, b: seq<string>)
    requires lines == a + b && !Rates(lines)
    ensures !Rates(a) && !Rates(b)
  {
    assert forall i :: 0 <= i < |a| ==> a[i] == lines[i];
    assert forall i :: 0 <= i < |b| ==> b[i] == lines[|a| + i];
  }

  lemma {:induction false} ReplacedConcat(a: seq<string>, b: seq<string>, line: string)
    ensures Replaced(a + b, line) == Replaced(a, line) + Replaced(b, line)
  {
  }

  lemma ReplacedNone(a: seq<string>, line: string)
    requires !Rates(a)
    ensures Replaced(a, line) == a
  {
  }

  lemma ReplacedOne(x: string, line: string)
    ensures Replaced([x], line) == [if IsRating(x) then line else x]
  {
    hide IsRating;
  }

  lemma RatesOneMore(a: seq<string>, x: string)
    ensures Rates(a + [x]) <==> Rates(a) || IsRating(x)
  {
    hide IsRating;
    assert forall i :: 0 <= i < |a| ==> (a + [x])[i] == a[i];
    assert (a + [x])[|a|] == x;
  }

  lemma ReplacedAdded(front: seq<string>, line: string, tail: seq<string>, next: string)
    requires !Rates(front) && !Rates(tail) && IsRating(line)
    ensures Replaced(front + [line] + tail, next) == front + [next] + tail
  {
    hide IsRating;
    ReplacedConcat(front + [line], tail, next);
    ReplacedConcat(front, [line], next);
    ReplacedNone(front, next);
    ReplacedNone(tail, next);
    ReplacedOne(line, next);
    hide Replaced;
  }

  lemma RatesAdded(front: seq<string>, line: string, tail: seq<string>)
    requires IsRating(line)
    ensures Rates(front + [line] + tail)
  {
    hide IsRating;
    assert (front + [line] + tail)[|front|] == line;
  }

  lemma {:induction false} ReplacedAgain(lines: seq<string>, line: string, next: string)
    requires IsRating(line)
    ensures Replaced(Replaced(lines, line), next) == Replaced(lines, next)
  {
    if lines != [] {
      ReplacedAgain(lines[1..], line, next);
      assert Replaced(lines, line)[1..] == Replaced(lines[1..], line);
    }
  }

  lemma RatesReplaced(lines: seq<string>, line: string)
    requires Rates(lines) && IsRating(line)
    ensures Rates(Replaced(lines, line))
  {
    hide IsRating;
    var i :| 0 <= i < |lines| && IsRating(lines[i]);
    assert IsRating(Replaced(lines, line)[i]);
  }

  lemma ReratedIsReplaced(lines: seq<string>, line: string)
    requires Rates(lines)
    ensures |lines| >= 1 && Rerated(lines, line) == Replaced(lines, line)
  {
    hide IsRating;
  }

  /** The last rating line set wins. */
  lemma ReratedTwice(lines: seq<string>, line: string, next: string)
    requires |lines| >= 1 && IsRating(line)
    ensures Rerated(Rerated(lines, line), next) == Rerated(lines, next)
  {
    hide *;
    if Rates(lines) {
      ReplacedAgain(lines, line, next);
      RatesReplaced(lines, line);
      ReratedIsReplaced(lines, line);
      ReratedIsReplaced(lines, next);
    } else {
      var front, tail := Added(lines, line);
      var front', tail' := Added(lines, next);
      NotRated(lines, front, tail);
      RatesAdded(front, line, tail);
      ReplacedAdded(front, line, tail, next);
    }
    ReratedIsReplaced(Rerated(lines, line), next);
  }

  lemma {:induction false} FrontLengthIs(front: seq<string>, body: seq<string>)
    requires forall i :: 0 <= i < |front| ==> !IsBody(front[i])
    requires body == [] || IsBody(body[0])
    ensures FrontLength(front + body) == |front|
  {
    if front == [] {
      assert front + body == body;
    } else {
      assert (front + body)[1..] == front[1..] + body;
      FrontLengthIs(front[1..], body);
    }
  }

  lemma FrontSound(parts: seq<string>)
    requires AreParts(parts) && |parts| >= 3
    ensures PlainLines(Front(parts)) && PlainLines(Body(parts)) && PlainEnd(Body(parts)) && (Body(parts) == [] ==> PlainEnd(Front(parts)))
    ensures |parts| >= 4 ==> NoBody(Front(parts))
  {
    EmptyLine();
    LinesOfClean(parts[1]);
    SoundCut(Lines(parts[1]), FrontEnd(parts));
  }

  lemma EmptyLine()
    ensures PlainLines([""]) && PlainEnd([""]) && NoBody([""]) && !IsRating("")
  {
    assert TrimSpace("") == "";
  }

  lemma SoundCut(lines: seq<string>, k: nat)
    requires k <= |lines| && Sound(lines)
    ensures PlainLines(lines[..k]) && PlainLines(lines[k..]) && PlainEnd(lines[k..]) && (k == |lines| ==> PlainEnd(lines[..k]))
  {
    assert k == |lines| ==> lines[..k] == lines;
  }

  /** The rewritten part has these lines, and is split off as before. */
  lemma NewFrontShape(parts: seq<string>, r: Int64)
    requires AreParts(parts) && |parts| >= 3
    ensures Lines(NewFront(parts, r)) == Rerated(Front(parts), RatingLine(r)) + Body(parts)
    ensures Clean(NewFront(parts, r))
    ensures |parts| >= 4 ==> NoBody(Rerated(Front(parts), RatingLine(r)))
  {
    var up, body := Rerated(Front(parts), RatingLine(r)), Body(parts);
    FrontSound(parts);
    RatingLineShape(r);
    ReratedSound(Front(parts), RatingLine(r));
    PlainConcat(up, body);
    SoundJoin(up + body);
  }

  /** The parts of the updated note: only the front matter's is another. */
  lemma UpdatedParts(content: string, r: Int64)
    requires Updated(content, r).Some?
    ensures var parts := Split(content, SEP); Split(Updated(content, r).value, SEP) == parts[1 := NewFront(parts, r)]
  {
    var parts := Split(content, SEP);
    SplitShape(content);
    NewFrontShape(parts, r);
    PartReplaced(parts, 1, NewFront(parts, r));
  }

  lemma UpdatedFront(content: string, r: Int64)
    requires Updated(content, r).Some?
    ensures var parts, parts' := Split(content, SEP), Split(Updated(content, r).value, SEP);
      |parts'| == |parts| && Front(parts') == Rerated(Front(parts), RatingLine(r)) && Body(parts') == Body(parts)
  {
    var parts := Split(content, SEP);
    SplitShape(content);
    UpdatedParts(content, r);
    NewFrontShape(parts, r);
    var up, body := Rerated(Front(parts), RatingLine(r)), Body(parts);
    if |parts| >= 4 {
      FrontLengthIs(up, body);
    }
    assert (up + body)[..|up|] == up && (up + body)[|up|..] == body;
  }

  // ------------------------------------------------------------- the theorems

  /** A rating is accepted exactly when the note has two delimiters, and is then
      the rating read back. */
  lemma RatingReadBack(content: string, r: Int64)
    ensures Updated(content, r).Some? <==> |Split(content, SEP)| >= 3
    ensures Updated(content, r).Some? ==> Rated(Updated(content, r).value) == Some(r)
  {
    if Updated(content, r).Some? {
      UpdatedFront(content, r);
      RatingLineShape(r);
      ReratedRates(Front(Split(content, SEP)), RatingLine(r));
    }
  }

  /** Rating twice is rating once, with the later value. */
  lemma LastRatingWins(content: string, r: Int64, s: Int64)
    requires Updated(content, r).Some?
    ensures Updated(Updated(content, r).value, s) == Updated(content, s)
  {
    UpdatedParts(content, r);
    UpdatedFront(content, r);
    var parts := Split(content, SEP);
    RatingLineShape(r);
    ReratedTwice(Front(parts), RatingLine(r), RatingLine(s));
    assert parts[1 := NewFront(parts, r)][1 := NewFront(parts, s)] == parts[1 := NewFront(parts, s)];
  }

  ghost predicate RatingsFree(lines: seq<string>, key: string) {
    forall i :: 0 <= i < |lines| && IsRating(lines[i]) ==> !Contains(lines[i], key)
  }

  lemma {:induction false} ReplacedKeeps(lines: seq<string>, line: string, key: string)
    requires RatingsFree(lines, key) && !Contains(line, key)
    ensures Matching(Replaced(lines, line), key) == Matching(lines, key)
  {
    if lines != [] {
      ReplacedKeeps(lines[1..], line, key);
      assert Replaced(lines, line)[1..] == Replaced(lines[1..], line);
    }
  }

  lemma ReratedKeeps(lines: seq<string>, line: string, key: string)
    requires |lines| >= 1 && RatingsFree(lines, key) && !Contains(line, key)
    ensures Matching(Rerated(lines, line), key) == Matching(lines, key)
  {
    if Rates(lines) {
      ReplacedKeeps(lines, line, key);
    } else {
      var front, tail := Added(lines, line);
      SkipLine(front, line, tail, key);
    }
  }

  /** A marker is no rating line. */
  lemma MarkersAreNotRatings(line: string)
    requires IsMarker(line)
    ensures !IsRating(line)
  {
    MarkerShape(line);
    TrimKeepsStart(line);
    assert KEY[0] != '<';
  }

  lemma TrimKeepsStart(line: string)
    requires line != "" && !IsSpace(line[0])
    ensures TrimSpace(line) != "" && TrimSpace(line)[0] == line[0]
  {
    var v := TrimRightForm(line);
  }

  lemma FrontRatingsBare(parts: seq<string>, a: string, b: string)
    requires |parts| >= 3 && WellMarked(a + SEP + (parts[1] + SEP + b))
    ensures RatingsFree(Front(parts), PREFIX)
  {
    var x := parts[1];
    InnerBare(a, x, b);
    MarkedBetween(a, x, b);
    EmptyLine();
    MatchingIn(Lines(x), PREFIX);
    forall i | 0 <= i < |Front(parts)| && IsRating(Front(parts)[i]) ensures Bare(Front(parts)[i]) {
      var line := Front(parts)[i];
      assert line in Lines(x);
      if !Bare(line) {
        assert line in Marked(x) && line in Marked(a) + (Marked(x) + Marked(b));
        MarkersAreNotRatings(line);
      }
    }
  }

  lemma FrontMatching(parts: seq<string>, key: string)
    requires |parts| >= 3 && !Contains("", key)
    ensures Matching(Front(parts), key) + Matching(Body(parts), key) == Matching(Lines(parts[1]), key)
  {
    MatchingConcat(Front(parts), Body(parts), key);
    if FrontEnd(parts) == 0 {
      MatchingNone([""], key);
    } else {
      assert Front(parts) + Body(parts) == Lines(parts[1]);
    }
  }

  lemma FrontEnds(parts: seq<string>)
    requires |parts| >= 3
    ensures Front(parts)[0] == First(parts[1]) || Front(parts)[0] == ""
    ensures var front, body := Front(parts), Body(parts);
      Last(parts[1]) == if body == [] then front[|front| - 1] else body[|body| - 1]
  {
  }

  lemma ReratedEnds(lines: seq<string>, line: string)
    requires |lines| >= 1
    ensures var out := Rerated(lines, line);
      && (out[0] == line || out[0] == lines[0])
      && (out[|out| - 1] == line || out[|out| - 1] == lines[|lines| - 1])
  {
    if !Rates(lines) {
      var front, tail := Added(lines, line);
    }
  }

  /** The new front matter begins and ends like the old one, or with the rating. */
  lemma NewFrontEnds(parts: seq<string>, r: Int64)
    requires AreParts(parts) && |parts| >= 3
    ensures var y := NewFront(parts, r); First(y) == RatingLine(r) || First(y) == First(parts[1]) || First(y) == ""
    ensures var y := NewFront(parts, r); Last(y) == RatingLine(r) || Last(y) == Last(parts[1])
  {
    hide Rerated, RatingLine, Front, Body, Split, AreParts, Join, NewFront;
    NewFrontShape(parts, r);
    FrontEnds(parts);
    ReratedEnds(Front(parts), RatingLine(r));
    Ends(Rerated(Front(parts), RatingLine(r)), Body(parts));
  }

  lemma Ends(up: seq<string>, body: seq<string>)
    requires |up| >= 1
    ensures (up + body)[0] == up[0]
    ensures (up + body)[|up + body| - 1] == if body == [] then up[|up| - 1] else body[|body| - 1]
  {
  }

  lemma NewFrontMatching(parts: seq<string>, r: Int64, key: string)
    requires AreParts(parts) && |parts| >= 3 && RatingsFree(Front(parts), key)
    requires !Contains(RatingLine(r), key) && !Contains("", key)
    ensures Matching(Lines(NewFront(parts, r)), key) == Matching(Lines(parts[1]), key)
  {
    NewFrontShape(parts, r);
    ReratedKeeps(Front(parts), RatingLine(r), key);
    MatchingConcat(Rerated(Front(parts), RatingLine(r)), Body(parts), key);
    FrontMatching(parts, key);
  }

  /** The rewritten front matter has the markers of the old one. */
  lemma NewFrontMarked(parts: seq<string>, r: Int64, a: string, b: string)
    requires AreParts(parts) && |parts| >= 3 && WellMarked(a + SEP + (parts[1] + SEP + b))
    ensures Marked(NewFront(parts, r)) == Marked(parts[1])
    ensures Bare(First(NewFront(parts, r))) && Bare(Last(NewFront(parts, r)))
  {
    FrontRatingsBare(parts, a, b);
    InnerBare(a, parts[1], b);
    RatingLineShape(r);
    EmptyIsBare();
    NewFrontMatching(parts, r, PREFIX);
    NewFrontEnds(parts, r);
  }

  /** Every marker line of a well-marked note survives a rating, in order. */
  lemma RatingKeepsMarkers(content: string, r: Int64)
    requires WellMarked(content) && Updated(content, r).Some?
    ensures Marked(Updated(content, r).value) == Marked(content)
  {
    var parts := Split(content, SEP);
    SplitShape(content);
    var a, b := parts[0], Join(parts[2..], SEP);
    var y := NewFront(parts, r);
    assert content == a + SEP + (parts[1] + SEP + b) by {
      JoinCons(parts[1], parts[2..], SEP);
      assert parts[1..] == [parts[1]] + parts[2..];
    }
    assert Updated(content, r).value == a + SEP + (y + SEP + b) by {
      JoinCons(y, parts[2..], SEP);
      assert parts[1 := y][1..] == [y] + parts[2..];
    }
    NewFrontMarked(parts, r, a, b);
    RewriteKeepsMarked(a, parts[1], y, b);
  }

  // -------------------------------------------------------------- the methods

  /** The lines in front of the first body line, and the others. */
  method CutFront(lines: seq<string>) returns (front: seq<string>, body: seq<string>)
    ensures front == lines[..FrontLength(lines)] && body == lines[FrontLength(lines)..]
  {
    var inFront := true;
    front, body := [], [];
    ghost var k := FrontLength(lines);
    for i := 0 to |lines|
      invariant inFront <==> i <= k
      invariant front == lines[..if i <= k then i else k]
      invariant body == if i <= k then [] else lines[k..i]
    {
      if inFront && IsBody(lines[i]) { inFront := false; }
      if inFront {
        front := front + [lines[i]];
      } else {
        body := body + [lines[i]];
      }
    }
    assert lines[k..|lines|] == lines[k..];
  }

  method Rerate(lines: seq<string>, line: string) returns (out: seq<string>)
    requires |lines| >= 1
    ensures out == Rerated(lines, line)
  {
    assert !Rates([]) && Replaced([], line) == [];
    hide IsRating, Rates, Replaced;
    var found := false;
    out := [];
    for i := 0 to |lines|
      invariant found <==> Rates(lines[..i])
      invariant out == Replaced(lines[..i], line)
    {
      assert lines[..i + 1] == lines[..i] + [lines[i]];
      ReplacedConcat(lines[..i], [lines[i]], line);
      ReplacedOne(lines[i], line);
      RatesOneMore(lines[..i], lines[i]);
      if IsRating(lines[i]) {
        found := true;
        out := out + [line];
      } else {
        out := out + [lines[i]];
      }
    }
    assert lines[..|lines|] == lines;
    if !found {
      ReplacedNone(lines, line);
      if out[|out| - 1] == "" {
        out := out[..|out| - 1] + [line, ""];
      } else {
        out := out + [line];
      }
    }
  }

  lemma {:induction false} JoinConcat(a: seq<string>, b: seq<string>)
    requires |a| >= 1 && |b| >= 1
    ensures Join(a + b, NL) == Join(a, NL) + NL + Join(b, NL)
  {
    if |a| == 1 {
      JoinCons(a[0], b, NL);
      assert a + b == [a[0]] + b;
    } else {
      JoinConcat(a[1..], b);
      assert (a + b)[1..] == a[1..] + b;
    }
  }

  lemma CutLines(part: string, k: nat)
    requires k <= |Lines(part)|
    ensures Lines(Join(Lines(part)[..k], NL)) == if k == 0 then [""] else Lines(part)[..k]
  {
    LinesAreLines(part);
    if k > 0 { LinesOfJoin(Lines(part)[..k]); }
  }

  /** A body never starts with an empty line. */
  lemma BodyStart(body: seq<string>)
    requires |body| >= 1 && IsBody(body[0]) && IsLine(body[0])
    ensures !(NL <= Join(body, NL))
  {
    var u, v := TrimForm(body[0]);
    assert body[0] != "";
    assert Join(body, NL)[0] == body[0][0];
  }

  /** Undoes the cut: the body goes back behind the front matter. */
  method Suffix(body: seq<string>) returns (suffix: string)
    requires body != [] ==> IsBody(body[0]) && IsLine(body[0])
    ensures suffix == if body == [] then "" else NL + Join(body, NL)
  {
    suffix := "";
    if |body| > 0 {
      suffix := Join(body, NL);
      BodyStart(body);
      if !(NL <= suffix) { suffix := NL + suffix; }
    }
  }

  method FrontMatter(parts: seq<string>) returns (frontmatter: string, suffix: string)
    requires |parts| >= 3
    ensures Lines(frontmatter) == Front(parts)
    ensures suffix == if Body(parts) == [] then "" else NL + Join(Body(parts), NL)
  {
    frontmatter, suffix := parts[1], "";
    if |parts| >= 4 {
      var front, body := CutFront(Lines(frontmatter));
      CutLines(parts[1], FrontEnd(parts));
      LinesAreLines(parts[1]);
      frontmatter := Join(front, NL);
      suffix := Suffix(body);
    }
  }

  /** UpdateRatingImpl computes `Updated`. */
  method UpdateRating(content: string, rating: Int64) returns (updated: Option<string>)
    ensures updated == Updated(content, rating)
  {
    var parts := Split(content, SEP);
    if |parts| < 3 { return None; }
    var frontmatter, suffix := FrontMatter(parts);
    var lines := Rerate(Lines(frontmatter), RatingLine(rating));
    var part := Join(lines, NL) + suffix;
    assert part == NewFront(parts, rating) by {
      if Body(parts) == [] { assert lines + Body(parts) == lines; } else { JoinConcat(lines, Body(parts)); }
    }
    updated := Some(Join(parts[1 := part], SEP));
  }

  lemma {:induction false} FirstRatingSkips(lines: seq<string>, k: nat)
    requires k <= |lines| && forall i :: 0 <= i < k ==> !IsRating(lines[i])
    ensures FirstRating(lines) == FirstRating(lines[k..])
  {
    if k > 0 {
      FirstRatingSkips(lines[1..], k - 1);
      assert lines[1..][k - 1..] == lines[k..];
    }
  }

  method FrontLines(parts: seq<string>) returns (front: seq<string>)
    requires |parts| >= 3
    ensures front == Front(parts)
  {
    var frontmatter := parts[1];
    if |parts| >= 4 {
      var lines := Lines(frontmatter);
      var clean: seq<string> := [];
      var i := 0;
      while i < |lines| && !IsBody(lines[i])
        invariant 0 <= i <= FrontLength(lines) && clean == lines[..i]
      {
        clean := clean + [lines[i]];
        i := i + 1;
      }
      CutLines(frontmatter, i);
      frontmatter := Join(clean, NL);
    }
    front := Lines(frontmatter);
  }

  /** GetRatingImpl computes `Rated`. */
  method GetRating(content: string) returns (rating: Option<Int64>)
    ensures rating == Rated(content)
  {
    var parts := Split(content, SEP);
    if |parts| < 3 { return None; }
    var lines := FrontLines(parts);
    hide Split, Front, IsRating, LineValue;
    for i := 0 to |lines|
      invariant forall j :: 0 <= j < i ==> !IsRating(lines[j])
    {
      if !IsRating(lines[i]) { continue; }
      FirstRatingSkips(lines, i);
      return LineValue(lines[i]);
    }
    FirstRatingSkips(lines, |lines|);
    rating := None;
  }
}
