/** The log writer that masks secrets line by line (internal/applog/applog.go). */
module MaskWriter {
  import opened Text

  const MASKED: string := "***"

  predicate NonEmpty(secrets: seq<string>) {
    forall i :: 0 <= i < |secrets| ==> secrets[i] != ""
  }

  /** maskLine: one secret after the other. */
  function MaskLine(line: string, secrets: seq<string>): string
    requires NonEmpty(secrets)
    decreases |secrets|
  {
    if secrets == [] then line else MaskLine(ReplaceAll(line, secrets[0], MASKED), secrets[1..])
  }

  /** The masked complete lines of a text, and what is left of it. */
  function Masked(s: string, secrets: seq<string>): string
    requires NonEmpty(secrets)
  {
    var i := Index(s, NL);
    if i < 0 then "" else MaskLine(s[..i + 1], secrets) + Masked(s[i + 1..], secrets)
  }

  function Rest(s: string): string {
    var i := Index(s, NL);
    if i < 0 then s else Rest(s[i + 1..])
  }

  function Concat(parts: seq<string>): string {
    if parts == [] then "" else Concat(parts[..|parts| - 1]) + parts[|parts| - 1]
  }

  /** The writer's output and buffer after a series of writes. */
  function Written(parts: seq<string>, secrets: seq<string>): (string, string)
    requires NonEmpty(secrets)
  {
    if parts == [] then ("", "")
    else
      var (out, buf) := Written(parts[..|parts| - 1], secrets);
      var all := buf + parts[|parts| - 1];
      (out + Masked(all, secrets), Rest(all))
  }

  lemma {:induction false} IndexOfPrefix(a: string, b: string)
    requires Index(a, NL) >= 0
    ensures Index(a + b, NL) == Index(a, NL)
  {
    if !(NL <= a) {
      assert (a + b)[1..] == a[1..] + b && (a + b)[0] == a[0];
      IndexOfPrefix(a[1..], b);
    }
  }

  lemma Unfold(s: string, i: nat, secrets: seq<string>)
    requires NonEmpty(secrets) && i < |s| && Index(s, NL) == i
    ensures Masked(s, secrets) == MaskLine(s[..i + 1], secrets) + Masked(s[i + 1..], secrets)
    ensures Rest(s) == Rest(s[i + 1..])
  {
    hide MaskLine;
  }

  lemma Cut(a: string, b: string, i: nat)
    requires i < |a|
    ensures (a + b)[..i + 1] == a[..i + 1] && (a + b)[i + 1..] == a[i + 1..] + b
  {
  }

  /** What follows a text continues its unfinished line. */
  lemma {:induction false} Continued(a: string, b: string, secrets: seq<string>)
    requires NonEmpty(secrets)
    ensures Masked(a + b, secrets) == Masked(a, secrets) + Masked(Rest(a) + b, secrets)
    ensures Rest(a + b) == Rest(Rest(a) + b)
    decreases |a|
  {
    var i := Index(a, NL);
    if i < 0 {
      assert Masked(a, secrets) == "" && Rest(a) == a;
    } else {
      var tail := a[i + 1..];
      IndexOfPrefix(a, b);
      Cut(a, b, i);
      Unfold(a + b, i, secrets);
      Unfold(a, i, secrets);
      Continued(tail, b, secrets);
      Regroup(MaskLine(a[..i + 1], secrets), Masked(tail, secrets), Masked(Rest(tail) + b, secrets));
      hide *;
    }
  }

  lemma {:induction false} NoneLeft(s: string, secrets: seq<string>)
    requires NonEmpty(secrets)
    ensures Index(Rest(s), NL) < 0
  {
    if Index(s, NL) >= 0 {
      NoneLeft(s[Index(s, NL) + 1..], secrets);
    }
  }

  /** However the same bytes are cut into writes, the output is the masked complete
      lines of all of them, and the buffer holds the unfinished line. */
  lemma {:induction false} CutsDoNotMatter(parts: seq<string>, secrets: seq<string>)
    requires NonEmpty(secrets)
    ensures Written(parts, secrets) == (Masked(Concat(parts), secrets), Rest(Concat(parts)))
    ensures IsLine(Rest(Concat(parts)))
  {
    var all := Concat(parts);
    NoneLeft(all, secrets);
    NoBreakLeft(Rest(all));
    if parts != [] {
      var front, last := parts[..|parts| - 1], parts[|parts| - 1];
      CutsDoNotMatter(front, secrets);
      Continued(Concat(front), last, secrets);
    }
  }

  lemma {:induction false} NoBreakLeft(s: string)
    requires Index(s, NL) < 0
    ensures IsLine(s)
  {
    if s != "" {
      NoBreakLeft(s[1..]);
      assert NL <= s <==> s[0] == '\n';
    }
  }

  /** The output came `done` nearer to showing `before` in full, what is left to show
      is `after`, and of that a start may have been shown already. */
  ghost predicate Shows(out: string, out': string, before: string, after: string) {
    exists done, begun :: out' == out + done + begun && done + after == before && begun <= after
  }

  /** One more line shown in full, with what came before it. */
  lemma ShowsLine(out: string, done: string, line: string, later: string, begun: string)
    requires begun <= line
    ensures Shows(out, out + done + begun, done + (line + later), line + later)
  {
    assert begun <= line + later;
  }

  // ---------------------------------------------------------------- histories

  /** What was written to the writer below, and what is buffered. */
  datatype Sink = Sink(out: string, buf: string)

  /** One Write: all that was shown in full is gone from the buffer, and nothing else. */
  ghost predicate WriteStep(secrets: seq<string>, a: Sink, p: string, ok: bool, b: Sink)
    requires NonEmpty(secrets)
  {
    && Shows(a.out, b.out, Masked(a.buf + p, secrets), Masked(b.buf, secrets)) && Rest(b.buf) == Rest(a.buf + p)
    && (ok ==> b == Sink(a.out + Masked(a.buf + p, secrets), Rest(a.buf + p)))
  }

  function Tail(buf: string, secrets: seq<string>): string
    requires NonEmpty(secrets)
  {
    if buf == "" then "" else MaskLine(buf, secrets)
  }

  /** One Sync: the unfinished line goes, masked as it is, or stays. */
  ghost predicate SyncStep(secrets: seq<string>, a: Sink, ok: bool, b: Sink)
    requires NonEmpty(secrets)
  {
    && (ok ==> b.buf == "")
    && if b.buf == "" then b.out == a.out + Tail(a.buf, secrets)
       else !ok && b.buf == a.buf && exists begun :: begun <= Tail(a.buf, secrets) && b.out == a.out + begun
  }

  datatype Event = Wrote(p: string, ok: bool) | Synced(ok: bool)

  ghost predicate Happens(secrets: seq<string>, a: Sink, e: Event, b: Sink)
    requires NonEmpty(secrets)
  {
    match e
    case Wrote(p, ok) => WriteStep(secrets, a, p, ok, b)
    case Synced(ok) => SyncStep(secrets, a, ok, b)
  }

  ghost predicate IsHistory(secrets: seq<string>, events: seq<Event>, states: seq<Sink>)
    requires NonEmpty(secrets)
  {
    && |states| == |events| + 1 && states[0] == Sink("", "")
    && forall k :: 0 <= k < |events| ==> Happens(secrets, states[k], events[k], states[k + 1])
  }

  function Bytes(events: seq<Event>): string {
    if events == [] then ""
    else
      var e := events[|events| - 1];
      Bytes(events[..|events| - 1]) + if e.Wrote? then e.p else ""
  }

  predicate AtLineEnd(s: string) {
    s == "" || s[|s| - 1] == '\n'
  }

  /** Nothing fails, and every Sync comes between lines. */
  predicate Orderly(events: seq<Event>) {
    forall k :: 0 <= k < |events| ==> events[k].ok && (events[k].Synced? ==> AtLineEnd(Bytes(events[..k])))
  }

  lemma {:induction false} NothingLeft(s: string)
    requires AtLineEnd(s)
    ensures Rest(s) == ""
  {
    var i := Index(s, NL);
    if i < 0 {
      NoBreakLeft(s);
    } else {
      assert s[i + 1..] != "" ==> s[i + 1..][|s[i + 1..]| - 1] == s[|s| - 1];
      NothingLeft(s[i + 1..]);
    }
  }

  lemma Shorter(secrets: seq<string>, events: seq<Event>, states: seq<Sink>)
    requires NonEmpty(secrets) && IsHistory(secrets, events, states) && events != []
    ensures IsHistory(secrets, events[..|events| - 1], states[..|events|])
    ensures Happens(secrets, states[|events| - 1], events[|events| - 1], states[|events|])
    ensures Orderly(events) ==> Orderly(events[..|events| - 1])
  {
    var front := events[..|events| - 1];
    hide Happens, Bytes;
    assert forall k :: 0 <= k < |front| ==> front[k] == events[k] && front[..k] == events[..k];
  }

  /** In an orderly history the output is the masked complete lines of all bytes, and
      the buffer holds the unfinished one: neither cuts nor syncs matter. */
  lemma {:induction false} OrderlyIsMasked(secrets: seq<string>, events: seq<Event>, states: seq<Sink>)
    requires NonEmpty(secrets) && IsHistory(secrets, events, states) && Orderly(events)
    ensures states[|events|] == Sink(Masked(Bytes(events), secrets), Rest(Bytes(events)))
  {
    if events != [] {
      var n := |events| - 1;
      var front, e, a, b := events[..n], events[n], states[n], states[n + 1];
      Shorter(secrets, events, states);
      OrderlyIsMasked(secrets, front, states[..n + 1]);
      assert a == states[..n + 1][n];
      if e.Wrote? {
        Continued(Bytes(front), e.p, secrets);
      } else {
        NothingLeft(Bytes(front));
        assert Bytes(front) + "" == Bytes(front) && a.out + "" == a.out;
      }
    }
  }

  class Writer {
    const secrets: seq<string>
    const syncs: bool
    var buf: string
    var out: string
    /** What of the output the writer below has synced. */
    var synced: string

    /** nonEmpty drops empty secrets; not every writer below supports syncing. */
    constructor (given: seq<string>, syncs: bool)
      ensures NonEmpty(secrets) && buf == "" && out == "" && this.syncs == syncs
      ensures forall s :: s in secrets <==> s in given && s != ""
    {
      var kept := KeepNonEmpty(given);
      secrets, buf, out, synced, this.syncs := kept, "", "", "", syncs;
    }

    /** The writer below; when it fails it may have written a start of the text. */
    method Put(s: string) returns (ok: bool)
      modifies this`out
      ensures ok ==> out == old(out) + s
      ensures !ok ==> exists begun :: begun <= s && out == old(out) + begun
    {
      ok := *;
      var n := |s|;
      if !ok { n :| 0 <= n <= |s|; }
      assert s[..|s|] == s;
      out := out + s[..n];
    }

    /** After a failure the buffer still starts with the line that failed: all that
        was written in full is gone from it, and nothing else. */
    method Write(p: string) returns (ok: bool)
      requires NonEmpty(secrets)
      modifies this`out, this`buf
      ensures WriteStep(secrets, Sink(old(out), old(buf)), p, ok, Sink(out, buf))
    {
      buf := buf + p;
      ghost var done := "";
      assert out + "" == out && "" + Masked(buf, secrets) == Masked(buf, secrets);
      while true
        invariant out == old(out) + done && done + Masked(buf, secrets) == Masked(old(buf) + p, secrets)
        invariant Rest(buf) == Rest(old(buf) + p)
        decreases |buf|
      {
        var i := Index(buf, NL);
        if i < 0 {
          assert Masked(buf, secrets) == "" && Rest(buf) == buf && done + "" == done && out + "" == out;
          return true;
        }
        Unfold(buf, i, secrets);
        ghost var line, later := MaskLine(buf[..i + 1], secrets), Masked(buf[i + 1..], secrets);
        ok := Put(MaskLine(buf[..i + 1], secrets));
        if !ok {
          ghost var begun :| begun <= line && out == old(out) + done + begun;
          ShowsLine(old(out), done, line, later, begun);
          return;
        }
        Regroup(old(out), done, line);
        Regroup(done, line, later);
        done := done + line;
        buf := buf[i + 1..];
      }
    }

    /** The writer below syncs what it has, or fails. */
    method SyncBelow() returns (ok: bool)
      modifies this`synced
      ensures synced == if ok then out else old(synced)
    {
      ok := *;
      if ok { synced := out; }
    }

    /** Sync writes the unfinished line, masked as it is, and passes the sync on when
        the writer below supports it. */
    method Sync() returns (ok: bool)
      requires NonEmpty(secrets)
      modifies this`out, this`buf, this`synced
      ensures SyncStep(secrets, Sink(old(out), old(buf)), ok, Sink(out, buf))
      ensures synced == if ok && syncs then out else old(synced)
    {
      assert out + "" == out;
      if |buf| > 0 {
        ok := Put(MaskLine(buf, secrets));
        if !ok { return; }
        buf := "";
      }
      ok := true;
      if syncs { ok := SyncBelow(); }
    }
  }

  method KeepNonEmpty(given: seq<string>) returns (kept: seq<string>)
    ensures NonEmpty(kept) && forall s :: s in kept <==> s in given && s != ""
  {
    kept := [];
    for i := 0 to |given|
      invariant NonEmpty(kept) && forall s :: s in kept <==> s in given[..i] && s != ""
    {
      if given[i] != "" { kept := kept + [given[i]]; }
    }
  }
}
