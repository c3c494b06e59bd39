/** The marker line that commits a keyed append, and how appending changes the
    markers a note holds (core/append_once.go, core/append_path_once.go). */
module NoteMarkers {
  import opened Text

  const PREFIX: string := "<!-- notes-bot:append:"

  // ------------------------------------------------------------------ digest

  function HexDigit(n: nat): char
    requires n < 16
  {
    "0123456789abcdef"[n]
  }

  function Hex(n: nat, digits: nat): string {
    if digits == 0 then "" else Hex(n / 16, digits - 1) + [HexDigit(n % 16)]
  }

  /** Stands for hex(SHA-256): only hexadecimal digits, and no two strings
      share a digest. (It is longer than 64 digits, which nothing uses.) */
  function Digest(s: string): string {
    if s == "" then "" else Hex(s[0] as int, 6) + Digest(s[1..])
  }

  predicate IsHex(s: string) {
    forall i :: 0 <= i < |s| ==> s[i] in "0123456789abcdef"
  }

  ghost function Capacity(digits: nat): nat {
    if digits == 0 then 1 else 16 * Capacity(digits - 1)
  }

  lemma {:induction false} HexShape(n: nat, digits: nat)
    ensures |Hex(n, digits)| == digits && IsHex(Hex(n, digits))
  {
    if digits > 0 {
      HexShape(n / 16, digits - 1);
    }
  }

  lemma {:induction false} HexInjective(n: nat, m: nat, digits: nat)
    requires n < Capacity(digits) && m < Capacity(digits)
    requires Hex(n, digits) == Hex(m, digits)
    ensures n == m
  {
    if digits > 0 {
      HexShape(n / 16, digits - 1);
      HexShape(m / 16, digits - 1);
      var a, b := Hex(n, digits), Hex(m, digits);
      assert a[..digits - 1] == Hex(n / 16, digits - 1) && b[..digits - 1] == Hex(m / 16, digits - 1);
      assert a[digits - 1] == HexDigit(n % 16) && b[digits - 1] == HexDigit(m % 16);
      assert n % 16 == m % 16;
      HexInjective(n / 16, m / 16, digits - 1);
    }
  }

  lemma {:induction false} DigestIsHex(s: string)
    ensures IsHex(Digest(s))
  {
    if s != "" {
      HexShape(s[0] as int, 6);
      DigestIsHex(s[1..]);
    }
  }

  lemma CapacityOfSix()
    ensures Capacity(6) == 0x100_0000
  {
    assert Capacity(2) == 256;
    assert Capacity(4) == 0x1_0000;
  }

  lemma {:induction false} DigestInjective(s: string, t: string)
    requires Digest(s) == Digest(t)
    ensures s == t
  {
    if s != "" { HexShape(s[0] as int, 6); }
    if t != "" { HexShape(t[0] as int, 6); }
    if s != "" && t != "" {
      CapacityOfSix();
      assert Digest(s)[..6] == Hex(s[0] as int, 6) && Digest(t)[..6] == Hex(t[0] as int, 6);
      assert Digest(s)[6..] == Digest(s[1..]) && Digest(t)[6..] == Digest(t[1..]);
      HexInjective(s[0] as int, t[0] as int, 6);
      DigestInjective(s[1..], t[1..]);
      assert s == [s[0]] + s[1..] && t == [t[0]] + t[1..];
    }
  }

  // ----------------------------------------------------------------- markers

  function KeyPrefix(op: string): string {
    PREFIX + Digest(op) + ":"
  }

  function Payload(dest: string, text: string): string {
    dest + "\0" + text
  }

  function Marker(op: string, dest: string, text: string): string {
    KeyPrefix(op) + Digest(Payload(dest, text)) + " -->"
  }

  /** The lines of a list that mention a key. */
  function Matching(lines: seq<string>, key: string): seq<string> {
    if |lines| == 0 then []
    else (if Contains(lines[0], key) then [lines[0]] else []) + Matching(lines[1..], key)
  }

  /** The marker lines of operation `op` in a note. */
  function Hits(content: string, op: string): seq<string> {
    Matching(Lines(content), KeyPrefix(op))
  }

  lemma {:induction false} FirstColon(a: string, x: string, b: string, y: string)
    requires IsHex(a) && IsHex(b)
    requires a + ":" + x <= b + ":" + y || b + ":" + y <= a + ":" + x
    ensures a == b
  {
    var s, t := a + ":" + x, b + ":" + y;
    assert s[|a|] == ':' && t[|b|] == ':';
    assert forall i :: 0 <= i < |a| ==> s[i] == a[i];
    assert forall i :: 0 <= i < |b| ==> t[i] == b[i];
  }

  /** The prefix opens the marker, and holds no newline. */
  lemma PrefixShape()
    ensures PREFIX == "<" + PREFIX[1..] && '<' !in PREFIX[1..] && '\n' !in PREFIX
  {
  }

  lemma HexHasNo(s: string, c: char)
    requires IsHex(s) && c !in "0123456789abcdef"
    ensures c !in s
  {
  }

  /** What follows the opening of a marker holds no newline and no other opening. */
  lemma MarkerOpens(op: string, dest: string, text: string) returns (rest: string)
    ensures Marker(op, dest, text) == "<" + rest && '<' !in rest && '\n' !in rest
  {
    var a, b := Digest(op), Digest(Payload(dest, text));
    PrefixShape();
    forall c | c in {'<', '\n'} ensures c !in a && c !in b {
      DigestIsHex(op);
      DigestIsHex(Payload(dest, text));
      HexHasNo(a, c);
      HexHasNo(b, c);
    }
    rest := PREFIX[1..] + (a + (":" + (b + " -->")));
  }

  lemma MarkerIsLine(op: string, dest: string, text: string)
    ensures IsLine(Marker(op, dest, text))
  {
    var rest := MarkerOpens(op, dest, text);
    assert '\n' !in "<" + rest;
  }

  lemma OneOpening(rest: string, u: string, v: string)
    requires "<" + rest == u + v && '<' !in rest && v != "" && v[0] == '<'
    ensures u == ""
  {
    assert (u + v)[|u|] == v[0];
    assert forall i :: 0 < i <= |rest| ==> ("<" + rest)[i] == rest[i - 1];
  }

  /** A marker mentions its own operation's key and nobody else's. */
  lemma MarkerKey(op: string, dest: string, text: string, other: string)
    ensures Contains(Marker(op, dest, text), KeyPrefix(other)) <==> op == other
  {
    var tail := Digest(Payload(dest, text)) + " -->";
    var rest := MarkerOpens(op, dest, text);
    assert Marker(op, dest, text) == KeyPrefix(op) + tail;
    if op == other {
      StartContains(KeyPrefix(op), tail);
    } else if Contains(Marker(op, dest, text), KeyPrefix(other)) {
      var u, v := ContainsSplits(Marker(op, dest, text), KeyPrefix(other));
      KeyAtFront(op, tail, other, u, v, rest);
    }
  }

  lemma StartContains(s: string, tail: string)
    ensures Contains(s + tail, s)
  {
    ContainsIn("", s, tail);
    assert "" + s + tail == s + tail;
  }

  lemma KeyAtFront(op: string, tail: string, other: string, u: string, v: string, rest: string)
    requires KeyPrefix(op) + tail == u + KeyPrefix(other) + v == "<" + rest && '<' !in rest
    ensures op == other
  {
    var a, b := Digest(op), Digest(other);
    assert u + KeyPrefix(other) + v == u + (KeyPrefix(other) + v);
    OneOpening(rest, u, KeyPrefix(other) + v);
    assert KeyPrefix(op) + tail == PREFIX + (a + ":" + tail);
    assert u + KeyPrefix(other) + v == PREFIX + (b + ":" + v);
    SameTail(PREFIX, a + ":" + tail, b + ":" + v);
    DigestIsHex(op);
    DigestIsHex(other);
    FirstColon(a, tail, b, v);
    DigestInjective(op, other);
  }

  lemma SameTail(p: string, x: string, y: string)
    requires p + x == p + y
    ensures x == y
  {
    assert (p + x)[|p|..] == x && (p + y)[|p|..] == y;
  }

  /** Dates and paths hold no NUL, so a marker fixes destination and text. */
  lemma MarkerInjective(op: string, dest: string, text: string, dest': string, text': string)
    requires '\0' !in dest && '\0' !in dest'
    requires Marker(op, dest, text) == Marker(op, dest', text')
    ensures dest == dest' && text == text'
  {
    var k := KeyPrefix(op);
    var a, b := Digest(Payload(dest, text)), Digest(Payload(dest', text'));
    assert Marker(op, dest, text)[|k|..] == a + " -->" && Marker(op, dest', text')[|k|..] == b + " -->";
    assert |a| == |b|;
    assert a == (a + " -->")[..|a|] == b;
    DigestInjective(Payload(dest, text), Payload(dest', text'));
    var s, t := Payload(dest, text), Payload(dest', text');
    assert s[|dest|] == '\0' && t[|dest'|] == '\0';
    assert |dest| == |dest'|;
    assert dest == s[..|dest|] == dest';
    assert text == s[|dest| + 1..] == text';
  }

  // --------------------------------------------------------------- appending

  predicate NeedsNewline(content: string) {
    content != "" && content[|content| - 1] != '\n'
  }

  /** Content after appending a block: the block starts on a fresh line and
      ends with a newline. */
  function AppendBlock(content: string, block: string): string {
    content + (if NeedsNewline(content) then NL else "") + block + NL
  }

  /** What an append leaves that stops after its newline. */
  function Ended(content: string): string {
    if NeedsNewline(content) then content + NL else content
  }

  /** Repeated, it leaves what one append would. */
  lemma AppendAfterEnded(content: string, block: string)
    ensures AppendBlock(Ended(content), block) == AppendBlock(content, block)
  {
    assert Ended(content) + "" == Ended(content) && content + "" == content;
  }

  function KeyedBlock(op: string, dest: string, text: string): string {
    text + NL + Marker(op, dest, text)
  }

  /** The lines that stay in front of an appended block. */
  function BaseLines(content: string): seq<string> {
    var ls := Lines(content);
    if ls[|ls| - 1] == "" then ls[..|ls| - 1] else ls
  }

  lemma {:induction false} LastLineEmpty(s: string)
    ensures var ls := Lines(s); ls[|ls| - 1] == "" <==> s == "" || s[|s| - 1] == '\n'
  {
    if s != "" && s[|s| - 1] == '\n' {
      var c := s[..|s| - 1];
      assert s == c + NL + "";
      LinesConcat(c, "");
    } else if s != "" {
      LastLineEmptyOnlyAtEnd(s);
    }
  }

  lemma {:induction false} LastLineEmptyOnlyAtEnd(s: string)
    requires s != "" && s[|s| - 1] != '\n'
    ensures var ls := Lines(s); ls[|ls| - 1] != ""
  {
    if |s| > 1 {
      assert s[1..][|s| - 2] == s[|s| - 1];
      LastLineEmptyOnlyAtEnd(s[1..]);
    } else {
      LinesOfLine(s);
    }
  }

  lemma AppendLines(content: string, block: string)
    ensures Lines(AppendBlock(content, block)) == BaseLines(content) + Lines(block) + [""]
  {
    LastLineEmpty(content);
    var ls := Lines(content);
    LinesConcat(block, "");
    assert block + NL + "" == block + NL;
    assert Lines("") == [""];
    if content == "" {
      assert AppendBlock(content, block) == block + NL;
      assert ls[..|ls| - 1] == [];
    } else if content[|content| - 1] == '\n' {
      var c := content[..|content| - 1];
      assert content == c + NL + "";
      LinesConcat(c, "");
      assert ls[..|ls| - 1] == Lines(c);
      assert AppendBlock(content, block) == c + NL + (block + NL);
      LinesConcat(c, block + NL);
    } else {
      assert AppendBlock(content, block) == content + NL + (block + NL);
      LinesConcat(content, block + NL);
    }
  }

  lemma {:induction false} MatchingConcat(a: seq<string>, b: seq<string>, key: string)
    ensures Matching(a + b, key) == Matching(a, key) + Matching(b, key)
  {
    if |a| == 0 {
      assert a + b == b;
    } else {
      assert (a + b)[1..] == a[1..] + b;
      MatchingConcat(a[1..], b, key);
    }
  }

  lemma {:induction false} MatchingNone(lines: seq<string>, key: string)
    requires forall k :: 0 <= k < |lines| ==> !Contains(lines[k], key)
    ensures Matching(lines, key) == []
  {
    if |lines| > 0 {
      MatchingNone(lines[1..], key);
    }
  }

  lemma NoMarkersInText(text: string, op: string)
    requires !Contains(text, PREFIX)
    ensures Hits(text, op) == []
  {
    var ls := Lines(text);
    forall k | 0 <= k < |ls| ensures !Contains(ls[k], KeyPrefix(op)) {
      if Contains(ls[k], KeyPrefix(op)) {
        assert KeyPrefix(op) == PREFIX + (Digest(op) + ":");
        ContainsPart(ls[k], PREFIX, Digest(op) + ":");
        LineContains(text, k, PREFIX);
      }
    }
    MatchingNone(ls, KeyPrefix(op));
  }

  lemma BaseLinesMatching(content: string, key: string)
    requires key != ""
    ensures Matching(BaseLines(content), key) == Matching(Lines(content), key)
  {
    var ls := Lines(content);
    if ls[|ls| - 1] == "" {
      assert ls == ls[..|ls| - 1] + [""];
      MatchingConcat(ls[..|ls| - 1], [""], key);
      assert Matching([""], key) == [];
    }
  }

  /** An appended block adds the lines it holds itself that mention a key. */
  lemma AppendBlockMatching(content: string, block: string, key: string)
    requires key != ""
    ensures Matching(Lines(AppendBlock(content, block)), key) == Matching(Lines(content), key) + Matching(Lines(block), key)
  {
    AppendLines(content, block);
    BaseLinesMatching(content, key);
    MatchingConcat(BaseLines(content) + Lines(block), [""], key);
    MatchingConcat(BaseLines(content), Lines(block), key);
    assert Matching([""], key) == [];
  }

  lemma AppendBlockHits(content: string, block: string, op: string)
    ensures Hits(AppendBlock(content, block), op) == Hits(content, op) + Hits(block, op)
  {
    AppendBlockMatching(content, block, KeyPrefix(op));
  }

  /** An unkeyed text adds no marker. */
  lemma PlainAppendHits(content: string, text: string, op: string)
    requires !Contains(text, PREFIX)
    ensures Hits(AppendBlock(content, text), op) == Hits(content, op)
  {
    AppendBlockHits(content, text, op);
    NoMarkersInText(text, op);
  }

  /** A keyed append adds one marker, of its own operation. */
  lemma KeyedAppendHits(content: string, op: string, dest: string, text: string, other: string)
    requires !Contains(text, PREFIX)
    ensures Hits(AppendBlock(content, KeyedBlock(op, dest, text)), other)
         == Hits(content, other) + (if op == other then [Marker(op, dest, text)] else [])
  {
    var m := Marker(op, dest, text);
    AppendBlockHits(content, KeyedBlock(op, dest, text), other);
    NoMarkersInText(text, other);
    MarkerKey(op, dest, text, other);
    MarkerIsLine(op, dest, text);
    LinesConcat(text, m);
    LinesOfLine(m);
    MatchingConcat(Lines(text), [m], KeyPrefix(other));
  }
}
