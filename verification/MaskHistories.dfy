/** Which secrets the mask writer can never show, over whole histories of writes and
    syncs (internal/applog/applog.go). */
module MaskHistories {
  import opened Text
  import opened MaskWriter
  import opened Masking

  // ---------------------------------------------------------- orderly histories

  /** The output of an orderly history shows no secret. */
  lemma OrderlyShowsNone(secrets: seq<string>, events: seq<Event>, states: seq<Sink>, k: nat)
    requires NonEmpty(secrets) && IsHistory(secrets, events, states) && Orderly(events)
    requires AllSolid(secrets) && k < |secrets| && InOneLine(secrets[k])
    ensures !Contains(states[|events|].out, secrets[k])
  {
    OrderlyIsMasked(secrets, events, states);
    hide Solid, Contains, Masked, IsHistory;
    OutputShowsNone(Bytes(events), secrets, k);
  }

  ghost predicate HiddenIn(s: string, events: seq<Event>, states: seq<Sink>)
    requires s != ""
  {
    IsHistory([s], events, states) ==> !Contains(states[|events|].out, s)
  }

  /** No history shows the secret, or none that is orderly. */
  ghost predicate Hidden(s: string, orderly: bool)
    requires s != ""
  {
    forall events, states :: (orderly ==> Orderly(events)) ==> HiddenIn(s, events, states)
  }

  /** One successful write. */
  lemma OneWrite(s: string, text: string)
    requires s != ""
    ensures var events := [Wrote(text, true)];
      var states := [Sink("", ""), Sink(Masked(text, [s]), Rest(text))];
      Orderly(events) && IsHistory([s], events, states)
  {
    var events, a, b := [Wrote(text, true)], Sink("", ""), Sink(Masked(text, [s]), Rest(text));
    NoneLeft(text, [s]);
    assert "" + text == text && "" + Masked(text, [s]) == Masked(text, [s]);
    RestAgain(text);
    assert Masked(Rest(text), [s]) == "";
    hide Masked, Rest;
    assert b.out == a.out + Masked(text, [s]) + "" && Masked(text, [s]) + "" == Masked(text, [s]);
    assert Shows(a.out, b.out, Masked(text, [s]), "");
  }

  lemma RestAgain(text: string)
    ensures Rest(Rest(text)) == Rest(text)
  {
    NoneLeft(text, []);
  }

  /** What a text shows, a history of one write shows. */
  lemma HiddenWrites(s: string, orderly: bool)
    requires s != "" && Hidden(s, orderly)
    ensures NeverShown(s)
  {
    forall text ensures !Contains(Masked(text, [s]), s) {
      OneWrite(s, text);
      var events, states := [Wrote(text, true)], [Sink("", ""), Sink(Masked(text, [s]), Rest(text))];
      hide Contains, Masked, IsHistory, Orderly;
      assert HiddenIn(s, events, states);
    }
  }

  /** As long as nothing fails and every Sync comes between lines, these conditions
      are exact. */
  lemma HiddenOrderlyExactly(s: string)
    requires s != ""
    ensures Hidden(s, true) <==> Solid(s) && InOneLine(s)
  {
    hide Solid, InOneLine, Contains, IsHistory, Orderly;
    NeverShownExactly(s);
    if Hidden(s, true) { HiddenWrites(s, true); }
    if Solid(s) && InOneLine(s) {
      forall events, states | Orderly(events) ensures HiddenIn(s, events, states) {
        if IsHistory([s], events, states) { OrderlyShowsNone([s], events, states, 0); }
      }
    }
  }

  // ------------------------------------------------------- syncs within a line

  lemma {:induction false} OneChar(x: string, c: char)
    ensures Contains(x, [c]) <==> c in x
  {
    if x != "" {
      OneChar(x[1..], c);
      assert x == [x[0]] + x[1..] && ([c] <= x <==> x[0] == c);
    }
  }

  lemma PieceShowsNone(c: char, text: string)
    requires Solid([c])
    ensures c !in Masked(text, [[c]]) && c !in Tail(text, [[c]])
  {
    OutputShowsNone(text, [[c]], 0);
    LineShowsNone(text, [[c]], 0);
    OneChar(Masked(text, [[c]]), c);
    OneChar(MaskLine(text, [[c]]), c);
  }

  lemma StepShowsNone(c: char, a: Sink, e: Event, b: Sink)
    requires Solid([c]) && Happens([[c]], a, e, b) && c !in a.out
    ensures c !in b.out
  {
    match e
    case Wrote(p, _) =>
      PieceShowsNone(c, a.buf + p);
      var done, begun :| b.out == a.out + done + begun && done + Masked(b.buf, [[c]]) == Masked(a.buf + p, [[c]])
                         && begun <= Masked(b.buf, [[c]]);
      hide Masked, Rest;
      assert forall x <- done :: x in Masked(a.buf + p, [[c]]);
      assert forall x <- begun :: x in Masked(b.buf, [[c]]);
    case Synced(_) =>
      PieceShowsNone(c, a.buf);
  }

  lemma {:induction false} OneCharHidden(c: char, events: seq<Event>, states: seq<Sink>)
    requires Solid([c]) && IsHistory([[c]], events, states)
    ensures c !in states[|events|].out
  {
    if events != [] {
      var n := |events| - 1;
      Shorter([[c]], events, states);
      OneCharHidden(c, events[..n], states[..n + 1]);
      assert states[..n + 1][n] == states[n];
      hide Happens;
      StepShowsNone(c, states[n], events[n], states[n + 1]);
    }
  }

  /** Its first character written and synced, then the others. */
  function Parted(s: string): seq<Event>
    requires s != ""
  {
    [Wrote(s[..1], true), Synced(true), Wrote(s[1..], true), Synced(true)]
  }

  lemma PieceStays(x: string, s: string)
    requires |x| < |s|
    ensures MaskLine(x, [s]) == x && Tail(x, [s]) == x
  {
    TooShort(x, s);
    NoneIn(x, s);
    assert MaskLine(x, [s]) == MaskLine(Replaced(x, s), []);
  }

  lemma EndedPiece(x: string, s: string)
    requires 0 < |x| < |s| && InOneLine(x) && x[|x| - 1] == '\n'
    ensures Masked(x, [s]) == x && Rest(x) == ""
  {
    hide *;
    AtItsEnd(x);
    NothingLeft(x);
    OneLineMasked(x[..|x| - 1], s);
    PieceStaysMasked(x, s);
  }

  lemma AtItsEnd(x: string)
    requires x != "" && InOneLine(x) && x[|x| - 1] == '\n'
    ensures x == x[..|x| - 1] + NL && IsLine(x[..|x| - 1]) && AtLineEnd(x)
  {
  }

  lemma OpenPiece(x: string, s: string)
    requires 0 < |x| < |s| && InOneLine(x) && x[|x| - 1] != '\n'
    ensures Masked(x, [s]) == "" && Rest(x) == x && Tail(x, [s]) == x
  {
    assert IsLine(x);
    hide Masked, Rest, InOneLine, IsLine, MaskLine;
    PieceStays(x, s);
    LineLeft(x, [s]);
  }

  lemma NoTail(s: string)
    requires s != ""
    ensures Tail("", [s]) == "" && Masked("", [s]) == "" && Rest("") == ""
  {
  }

  /** What a piece without a line break but for its end adds to the output. */
  lemma PieceAdds(x: string, s: string)
    requires 0 < |x| < |s| && InOneLine(x)
    ensures Masked(x, [s]) + Tail(Rest(x), [s]) == x && Masked(Rest(x), [s]) == "" && Rest(Rest(x)) == Rest(x)
  {
    hide *;
    NoTail(s);
    if x[|x| - 1] == '\n' {
      EndedPiece(x, s);
      assert x + "" == x;
    } else {
      OpenPiece(x, s);
      assert "" + x == x;
    }
  }

  /** Such a piece, written and synced, is there as it was. */
  lemma WriteAndSync(s: string, x: string, a: Sink) returns (b: Sink)
    requires 0 < |x| < |s| && InOneLine(x) && a.buf == ""
    ensures WriteStep([s], a, x, true, b) && SyncStep([s], b, true, Sink(a.out + x, ""))
  {
    PieceAdds(x, s);
    b := Sink(a.out + Masked(x, [s]), Rest(x));
    hide Masked, Rest, Tail, InOneLine;
    assert a.buf + x == x;
    Regroup(a.out, Masked(x, [s]), Tail(Rest(x), [s]));
    ShowsAll(a.out, Masked(x, [s]), Masked(Rest(x), [s]));
  }

  lemma PieceStaysMasked(x: string, s: string)
    requires |x| < |s|
    ensures Replaced(x, s) == x
  {
    TooShort(x, s);
    NoneIn(x, s);
  }

  lemma {:induction false} LineLeft(x: string, secrets: seq<string>)
    requires IsLine(x) && NonEmpty(secrets)
    ensures Masked(x, secrets) == "" && Rest(x) == x
  {
    IndexContains(x, NL);
    if Contains(x, NL) { OneChar(x, '\n'); }
  }

  lemma ShowsAll(out: string, done: string, left: string)
    requires left == ""
    ensures Shows(out, out + done, done, left)
  {
    assert out + done == out + done + "" && done + "" == done;
  }

  /** A Sync within a line shows any one-line secret of two characters and more. */
  lemma SyncShows(s: string) returns (states: seq<Sink>)
    requires |s| >= 2 && InOneLine(s)
    ensures IsHistory([s], Parted(s), states) && states[4].out == s
  {
    var start, mid := Sink("", ""), Sink("" + s[..1], "");
    assert InOneLine(s[..1]) && InOneLine(s[1..]);
    hide *;
    var a := WriteAndSync(s, s[..1], start);
    var b := WriteAndSync(s, s[1..], mid);
    states := [start, a, mid, b, Sink(mid.out + s[1..], "")];
    FourSteps(s, states);
    assert "" + s[..1] + s[1..] == s;
  }

  lemma FourSteps(s: string, states: seq<Sink>)
    requires s != "" && |states| == 5 && states[0] == Sink("", "")
    requires WriteStep([s], states[0], s[..1], true, states[1]) && SyncStep([s], states[1], true, states[2])
    requires WriteStep([s], states[2], s[1..], true, states[3]) && SyncStep([s], states[3], true, states[4])
    ensures IsHistory([s], Parted(s), states)
  {
    hide WriteStep, SyncStep;
    var events := Parted(s);
    forall k | 0 <= k < 4 ensures Happens([s], states[k], events[k], states[k + 1]) {
      assert k == 0 || k == 1 || k == 2 || k == 3;
    }
  }

  /** Whatever is written, synced and fails: only a secret of one character is never
      shown, if it is not the mask's. */
  lemma HiddenAlwaysExactly(s: string)
    requires s != ""
    ensures Hidden(s, false) <==> |s| == 1 && Solid(s)
  {
    NeverShownExactly(s);
    if Hidden(s, false) {
      HiddenWrites(s, false);
      if |s| >= 2 {
        var states := SyncShows(s);
        assert HiddenIn(s, Parted(s), states);
        assert s == "" + s + "";
        ContainsIn("", s, "");
      }
    }
    if |s| == 1 && Solid(s) {
      hide Solid, IsHistory;
      assert s == [s[0]];
      forall events: seq<Event>, states: seq<Sink> ensures HiddenIn(s, events, states) {
        if IsHistory([s], events, states) {
          OneCharHidden(s[0], events, states);
          OneChar(states[|events|].out, s[0]);
        }
      }
    }
  }
}
