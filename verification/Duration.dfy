/** Durations typed by a user, and their labels (internal/duration/duration.go). */
module Duration {
  import opened Options
  import opened Text
  import opened Trim

  const MAX: int := 0x7FFF_FFFF_FFFF_FFFF
  const SPACE: string := " "

  // From the largest unit to the smallest, as suggestions are written.
  const UNITS: string := "Mwdhm"

  predicate IsUnit(c: char) {
    c == 'm' || c == 'h' || c == 'd' || c == 'w' || c == 'M'
  }

  function Weight(unit: char): nat {
    match unit
    case 'm' => 1
    case 'h' => 60
    case 'd' => 1440
    case 'w' => 10080
    case 'M' => 43200
    case _ => 0
  }

  /** The value at which a unit overflows into the next one. */
  function Limit(unit: char): nat {
    match unit
    case 'm' => 60
    case 'h' => 24
    case _ => 7
  }

  /** Go's int arithmetic. */
  function Wrap(n: int): Int64 {
    (n + 0x8000_0000_0000_0000) % 0x1_0000_0000_0000_0000 - 0x8000_0000_0000_0000
  }

  type Vals = map<char, int>

  function Get(vals: Vals, unit: char): int {
    if unit in vals then vals[unit] else 0
  }

  function Total(vals: Vals): int {
    Get(vals, 'm') + Get(vals, 'h') * 60 + Get(vals, 'd') * 1440 + Get(vals, 'w') * 10080 + Get(vals, 'M') * 43200
  }

  datatype Problem =
    | Unreadable
    | NotPositive
    | NoNumber
    | NoUnit
    | UnknownUnit(unit: char)
    | Repeated(unit: char)
    | Overflow(value: int, unit: char, suggestion: string)
  {
    predicate OfFormat() {
      Unreadable? || NoNumber? || NoUnit? || UnknownUnit? || Repeated?
    }
  }

  datatype Parsed = Minutes(n: int) | Refused(problem: Problem)

  // --------------------------------------------------------------- the reading

  /** How many digits a text begins with. */
  function DigitRun(s: string): (k: nat)
    ensures k <= |s| && AllDigits(s[..k]) && (k < |s| ==> !IsDigit(s[k]))
  {
    if s == "" || !IsDigit(s[0]) then 0 else 1 + DigitRun(s[1..])
  }

  /** strconv.Atoi with its error dropped: a number out of range reads as the largest. */
  function AtoiOrMax(digits: string): int {
    match Atoi(digits)
    case Some(n) => n
    case None => MAX
  }

  datatype Scanned = Read(vals: Vals) | Bad(problem: Problem)

  function Scan(s: string, vals: Vals): (r: Scanned)
    ensures r.Bad? ==> r.problem.OfFormat()
    decreases |s|
  {
    var k := DigitRun(s);
    if s == "" then Read(vals)
    else if k == 0 then Bad(NoNumber)
    else if k == |s| then Bad(NoUnit)
    else if !IsUnit(s[k]) then Bad(UnknownUnit(s[k]))
    else if s[k] in vals then Bad(Repeated(s[k]))
    else Scan(s[k + 1..], vals[s[k] := AtoiOrMax(s[..k])])
  }

  function Carry(vals: Vals, from: char, to: char): Vals {
    vals[to := Wrap(Get(vals, to) + Get(vals, from) / Limit(from))][from := Get(vals, from) % Limit(from)]
  }

  /** The overflowing unit carried into the higher ones. */
  function Carried(vals: Vals, unit: char): Vals {
    var a := if unit == 'm' then Carry(vals, 'm', 'h') else vals;
    var b := if unit == 'h' || (unit == 'm' && Get(a, 'h') >= 24) then Carry(a, 'h', 'd') else a;
    if unit == 'd' || Get(b, 'd') >= 7 then Carry(b, 'd', 'w') else b
  }

  function Rendered(vals: Vals, units: string): string {
    if units == "" then ""
    else
      (if Get(vals, units[0]) > 0 then Decimal(Get(vals, units[0])) + [units[0]] else "") + Rendered(vals, units[1..])
  }

  function Suggestion(vals: Vals, unit: char): string {
    var s := Rendered(Carried(vals, unit), UNITS);
    if s == "" then "0m" else s
  }

  function Overflows(vals: Vals, unit: char): Parsed {
    Refused(Overflow(Get(vals, unit), unit, Suggestion(vals, unit)))
  }

  function Judged(vals: Vals): Parsed {
    if Get(vals, 'm') >= 60 then Overflows(vals, 'm')
    else if Get(vals, 'h') >= 24 then Overflows(vals, 'h')
    else if Get(vals, 'd') >= 7 then Overflows(vals, 'd')
    else if Wrap(Total(vals)) <= 0 then Refused(NotPositive)
    else Minutes(Wrap(Total(vals)))
  }

  function ParsedUnits(s: string): Parsed {
    match Scan(ReplaceAll(s, SPACE, ""), map[])
    case Bad(problem) => Refused(problem)
    case Read(vals) => if vals == map[] then Refused(Unreadable) else Judged(vals)
  }

  function ParsedText(text: string): Parsed {
    var s := TrimSpace(text);
    if s == "" then Refused(Unreadable)
    else
      match Atoi(s)
      case Some(n) => if n <= 0 then Refused(NotPositive) else Minutes(n)
      case None => ParsedUnits(s)
  }

  // --------------------------------------------------------------- the methods

  method Parse(text: string) returns (r: Parsed)
    ensures r == ParsedText(text)
  {
    var s := TrimSpace(text);
    if s == "" { return Refused(Unreadable); }
    var bare := Atoi(s);
    if bare.Some? {
      return if bare.value <= 0 then Refused(NotPositive) else Minutes(bare.value);
    }
    var scanned := ReadUnits(ReplaceAll(s, SPACE, ""));
    match scanned
    case Bad(problem) => r := Refused(problem);
    case Read(vals) =>
      if vals == map[] { return Refused(Unreadable); }
      r := Judge(vals);
  }

  /** The loop over the tokens, which fills a map from unit to value. */
  method ReadUnits(s: string) returns (r: Scanned)
    ensures r == Scan(s, map[])
  {
    hide AtoiOrMax, DigitRun, IsUnit;
    var vals: Vals := map[];
    var i := 0;
    while i < |s|
      invariant i <= |s| && Scan(s[i..], vals) == Scan(s, map[])
    {
      var j := DigitsEnd(s, i);
      ScanStep(s, i, j, vals);
      if j == i { return Bad(NoNumber); }
      if j >= |s| { return Bad(NoUnit); }
      var n, unit := AtoiOrMax(s[i..j]), s[j];
      if !IsUnit(unit) { return Bad(UnknownUnit(unit)); }
      if unit in vals { return Bad(Repeated(unit)); }
      vals := vals[unit := n];
      i := j + 1;
    }
    r := Read(vals);
  }

  /** Each unit must be below the next one. */
  method Judge(vals: Vals) returns (r: Parsed)
    ensures r == Judged(vals)
  {
    if 'm' in vals && vals['m'] >= 60 {
      var text := Suggest(vals, 'm');
      return Refused(Overflow(vals['m'], 'm', text));
    }
    if 'h' in vals && vals['h'] >= 24 {
      var text := Suggest(vals, 'h');
      return Refused(Overflow(vals['h'], 'h', text));
    }
    if 'd' in vals && vals['d'] >= 7 {
      var text := Suggest(vals, 'd');
      return Refused(Overflow(vals['d'], 'd', text));
    }
    var total := Wrap(Total(vals));
    return if total <= 0 then Refused(NotPositive) else Minutes(total);
  }

  /** The end of a run of digits. */
  method DigitsEnd(s: string, i: nat) returns (j: nat)
    requires i <= |s|
    ensures j == i + DigitRun(s[i..])
  {
    j := i;
    while j < |s| && IsDigit(s[j])
      invariant i <= j <= |s| && j + DigitRun(s[j..]) == i + DigitRun(s[i..])
    {
      assert s[j..][1..] == s[j + 1..];
      j := j + 1;
    }
  }

  lemma ScanStep(s: string, i: nat, j: nat, vals: Vals)
    requires i < |s| && j == i + DigitRun(s[i..])
    ensures i <= j <= |s| && AllDigits(s[i..j])
    ensures Scan(s[i..], vals) ==
            if j == i then Bad(NoNumber)
            else if j == |s| then Bad(NoUnit)
            else if !IsUnit(s[j]) then Bad(UnknownUnit(s[j]))
            else if s[j] in vals then Bad(Repeated(s[j]))
            else Scan(s[j + 1..], vals[s[j] := AtoiOrMax(s[i..j])])
  {
    assert s[i..][..j - i] == s[i..j];
    if j < |s| {
      assert s[i..][j - i + 1..] == s[j + 1..] && s[i..][j - i] == s[j];
    }
  }

  /** Carries the overflowing unit and writes the positive values, largest unit first. */
  method Suggest(vals: Vals, unit: char) returns (s: string)
    ensures s == Suggestion(vals, unit)
  {
    var nv := vals;
    if unit == 'm' { nv := Carry(nv, 'm', 'h'); }
    if unit == 'h' || (unit == 'm' && Get(nv, 'h') >= 24) { nv := Carry(nv, 'h', 'd'); }
    if unit == 'd' || Get(nv, 'd') >= 7 { nv := Carry(nv, 'd', 'w'); }
    s := Render(nv);
    if s == "" { s := "0m"; }
  }

  method Render(nv: Vals) returns (s: string)
    ensures s == Rendered(nv, UNITS)
  {
    hide Decimal;
    s := "";
    for k := 0 to |UNITS|
      invariant s + Rendered(nv, UNITS[k..]) == Rendered(nv, UNITS)
    {
      var v := Get(nv, UNITS[k]);
      var piece := if v > 0 then Decimal(v) + [UNITS[k]] else "";
      Regroup(s, piece, Rendered(nv, UNITS[k + 1..]));
      assert UNITS[k..][1..] == UNITS[k + 1..];
      s := s + piece;
    }
    assert s + "" == s;
  }

  // ------------------------------------------------------- what a text spells

  datatype Token = Token(digits: string, unit: char) {
    predicate Legible() {
      digits != "" && AllDigits(digits) && IsUnit(unit)
    }
  }

  /** Every token is a number and a unit, no unit comes twice, and none is taken. */
  predicate Legible(ts: seq<Token>, taken: Vals) {
    && (forall i :: 0 <= i < |ts| ==> ts[i].Legible() && ts[i].unit !in taken)
    && (forall i, j :: 0 <= i < j < |ts| ==> ts[i].unit != ts[j].unit)
  }

  function Spell(ts: seq<Token>): string {
    if ts == [] then "" else ts[0].digits + [ts[0].unit] + Spell(ts[1..])
  }

  /** The minutes a series of tokens stands for. */
  function Meant(ts: seq<Token>): nat
    requires forall i :: 0 <= i < |ts| ==> AllDigits(ts[i].digits)
  {
    if ts == [] then 0 else Value(ts[0].digits) * Weight(ts[0].unit) + Meant(ts[1..])
  }

  /** What a user typed: tokens, with blanks around them and spaces anywhere. */
  predicate Spells(text: string, ts: seq<Token>) {
    ts != [] && Legible(ts, map[]) && ReplaceAll(TrimSpace(text), SPACE, "") == Spell(ts)
  }

  function ValsOf(ts: seq<Token>, vals: Vals): Vals {
    if ts == [] then vals else ValsOf(ts[1..], vals[ts[0].unit := AtoiOrMax(ts[0].digits)])
  }

  lemma {:induction false} DigitRunOf(digits: string, c: char, rest: string)
    requires AllDigits(digits) && !IsDigit(c)
    ensures DigitRun(digits + [c] + rest) == |digits|
  {
    if digits != "" {
      assert (digits + [c] + rest)[1..] == digits[1..] + [c] + rest;
      DigitRunOf(digits[1..], c, rest);
    } else {
      assert digits + [c] + rest == [c] + rest;
    }
  }

  lemma LegibleTail(ts: seq<Token>, taken: Vals)
    requires ts != [] && Legible(ts, taken)
    ensures Legible(ts[1..], taken[ts[0].unit := AtoiOrMax(ts[0].digits)])
  {
  }

  lemma LegibleCons(t: Token, rest: seq<Token>, taken: Vals)
    requires t.Legible() && t.unit !in taken && Legible(rest, taken[t.unit := AtoiOrMax(t.digits)])
    ensures Legible([t] + rest, taken)
  {
    var ts := [t] + rest;
    assert forall i :: 1 <= i < |ts| ==> ts[i] == rest[i - 1];
    hide AtoiOrMax;
  }

  /** The scan reads what tokens spell. */
  lemma {:induction false} ScanReads(ts: seq<Token>, vals: Vals)
    requires Legible(ts, vals)
    ensures Scan(Spell(ts), vals) == Read(ValsOf(ts, vals))
    decreases |ts|
  {
    if ts != [] {
      var t, s := ts[0], Spell(ts);
      assert t.Legible();
      var k := |t.digits|;
      DigitRunOf(t.digits, t.unit, Spell(ts[1..]));
      assert s[..k] == t.digits && s[k] == t.unit && s[k + 1..] == Spell(ts[1..]);
      LegibleTail(ts, vals);
      ScanReads(ts[1..], vals[t.unit := AtoiOrMax(t.digits)]);
    }
  }

  lemma SpellCons(t: Token, rest: seq<Token>)
    ensures Spell([t] + rest) == t.digits + [t.unit] + Spell(rest)
  {
    assert ([t] + rest)[1..] == rest;
  }

  lemma ScanBegins(s: string, vals: Vals) returns (t: Token, tail: string)
    requires s != "" && Scan(s, vals).Read?
    ensures s == t.digits + [t.unit] + tail && |tail| < |s|
    ensures t.Legible() && t.unit !in vals && Scan(tail, vals[t.unit := AtoiOrMax(t.digits)]).Read?
  {
    var k := DigitRun(s);
    t, tail := Token(s[..k], s[k]), s[k + 1..];
  }

  /** And what it reads, tokens spell. */
  lemma {:induction false} ScanSpelled(s: string, vals: Vals) returns (ts: seq<Token>)
    requires Scan(s, vals).Read?
    ensures Legible(ts, vals) && Spell(ts) == s
    decreases |s|
  {
    if s == "" {
      ts := [];
    } else {
      hide *;
      var t, tail := ScanBegins(s, vals);
      var rest := ScanSpelled(tail, vals[t.unit := AtoiOrMax(t.digits)]);
      LegibleCons(t, rest, vals);
      SpellCons(t, rest);
      ts := [t] + rest;
    }
  }

  // ------------------------------------------------- trimming and bare numbers

  predicate Spaceless(s: string) {
    forall i :: 0 <= i < |s| ==> s[i] != ' '
  }

  lemma {:induction false} SpellEnds(ts: seq<Token>)
    requires ts != [] && Legible(ts, map[])
    ensures var s := Spell(ts); s != "" && IsDigit(s[0]) && IsUnit(s[|s| - 1])
  {
    var t := ts[0];
    assert t.Legible();
    if |ts| > 1 {
      SpellEnds(ts[1..]);
    } else {
      assert Spell(ts[1..]) == "";
    }
  }

  lemma {:induction false} SpellSpaceless(ts: seq<Token>)
    requires Legible(ts, map[])
    ensures Spaceless(Spell(ts))
  {
    if ts != [] {
      assert ts[0].Legible();
      SpellSpaceless(ts[1..]);
    }
  }

  lemma {:induction false} NoSpaces(s: string)
    requires Spaceless(s)
    ensures ReplaceAll(s, SPACE, "") == s
  {
    if s != "" {
      assert s == [s[0]] + s[1..] && (SPACE <= s <==> s[0] == ' ');
      NoSpaces(s[1..]);
    }
  }

  lemma {:induction false} LastStays(s: string)
    requires s != "" && s[|s| - 1] != ' '
    ensures var t := ReplaceAll(s, SPACE, ""); t != "" && t[|t| - 1] == s[|s| - 1]
  {
    if |s| > 1 {
      LastStays(s[1..]);
      assert SPACE <= s <==> s[0] == ' ';
    } else {
      assert ReplaceAll(s[1..], SPACE, "") == "";
    }
  }

  lemma LetterIsNoNumber(s: string)
    requires s != "" && !IsDigit(s[|s| - 1])
    ensures Atoi(s) == None
  {
    if |s| > 1 {
      assert s[1..][|s| - 2] == s[|s| - 1];
    }
  }

  lemma SpelledIsNotBare(text: string, ts: seq<Token>)
    requires Spells(text, ts)
    ensures TrimSpace(text) != "" && Atoi(TrimSpace(text)) == None
  {
    var s := TrimSpace(text);
    var u, v := TrimForm(text);
    SpellEnds(ts);
    assert s != "";
    LastStays(s);
    LetterIsNoNumber(s);
  }

  lemma TrimOwn(s: string)
    requires s != "" && IsDigit(s[0]) && IsUnit(s[|s| - 1])
    ensures TrimSpace(s) == s
  {
    TrimOf("", s, "");
    hide TrimSpace;
    assert "" + s + "" == s;
  }

  lemma SpellsItself(ts: seq<Token>)
    requires ts != [] && Legible(ts, map[])
    ensures Spells(Spell(ts), ts)
  {
    SpellEnds(ts);
    SpellSpaceless(ts);
    NoSpaces(Spell(ts));
    hide Spell, Legible, TrimSpace, ReplaceAll, Spaceless;
    TrimOwn(Spell(ts));
  }

  /** A text that tokens spell is judged by their values. */
  lemma SpelledIsJudged(text: string, ts: seq<Token>)
    requires Spells(text, ts)
    ensures ParsedText(text) == Judged(ValsOf(ts, map[]))
  {
    SpelledIsNotBare(text, ts);
    ScanReads(ts, map[]);
    KeepsKeys(ts, map[]);
    assert ts[0].unit in ValsOf(ts, map[]);
  }

  lemma {:induction false} KeepsKeys(ts: seq<Token>, vals: Vals)
    ensures forall u :: u in vals || (exists i :: 0 <= i < |ts| && ts[i].unit == u) ==> u in ValsOf(ts, vals)
    decreases |ts|
  {
    if ts != [] {
      KeepsKeys(ts[1..], vals[ts[0].unit := AtoiOrMax(ts[0].digits)]);
      forall u | exists i :: 0 <= i < |ts| && ts[i].unit == u ensures u in ValsOf(ts, vals) {
        var i :| 0 <= i < |ts| && ts[i].unit == u;
        if i > 0 { assert ts[1..][i - 1].unit == u; }
      }
    }
  }

  /** The format errors are for exactly the texts that are neither a number nor spelled. */
  lemma FormatErrors(text: string)
    ensures var r := ParsedText(text);
      r.Refused? && r.problem.OfFormat() <==> Atoi(TrimSpace(text)) == None && !exists ts :: Spells(text, ts)
  {
    var s := TrimSpace(text);
    if ts :| Spells(text, ts) {
      SpelledIsJudged(text, ts);
    } else if s != "" && Atoi(s) == None && Scan(ReplaceAll(s, SPACE, ""), map[]).Read? {
      var ts := ScanSpelled(ReplaceAll(s, SPACE, ""), map[]);
      ScanReads(ts, map[]);
      assert !Spells(text, ts);
    }
  }

  // ------------------------------------------------------------------- totals

  lemma AddedValue(vals: Vals, unit: char, n: int)
    requires unit !in vals && IsUnit(unit)
    ensures Total(vals[unit := n]) == Total(vals) + n * Weight(unit)
  {
  }

  lemma SmallNumber(digits: string)
    requires digits != "" && AllDigits(digits) && Value(digits) <= MAX
    ensures AtoiOrMax(digits) == Value(digits)
  {
    assert IsDigit(digits[0]);
  }

  lemma WeightBounds(n: nat, unit: char)
    requires IsUnit(unit)
    ensures n <= n * Weight(unit)
  {
  }

  /** Values read without clamping add up to what is meant. */
  lemma {:induction false} ReadTotal(ts: seq<Token>, vals: Vals)
    requires Legible(ts, vals) && Meant(ts) <= MAX
    ensures Total(ValsOf(ts, vals)) == Total(vals) + Meant(ts)
    ensures forall u <- ValsOf(ts, vals) :: u in vals || ValsOf(ts, vals)[u] >= 0
    ensures forall u <- vals :: u in ValsOf(ts, vals) && ValsOf(ts, vals)[u] == vals[u]
    decreases |ts|
  {
    if ts != [] {
      var t := ts[0];
      assert t.Legible();
      var n := Value(t.digits);
      WeightBounds(n, t.unit);
      SmallNumber(t.digits);
      AddedValue(vals, t.unit, n);
      LegibleTail(ts, vals);
      ReadTotal(ts[1..], vals[t.unit := n]);
    }
  }

  predicate InRange(vals: Vals) {
    Get(vals, 'm') < 60 && Get(vals, 'h') < 24 && Get(vals, 'd') < 7
  }

  predicate Natural(vals: Vals) {
    forall u <- vals :: vals[u] >= 0
  }

  lemma TwoValues(vals: Vals, a: char, x: int, b: char, y: int)
    requires IsUnit(a) && IsUnit(b) && a != b
    ensures Total(vals[b := y][a := x])
         == Total(vals) + (x - Get(vals, a)) * Weight(a) + (y - Get(vals, b)) * Weight(b)
  {
    OneValue(vals, b, y);
    OneValue(vals[b := y], a, x);
    hide Total;
  }

  lemma OneValue(vals: Vals, a: char, x: int)
    requires IsUnit(a)
    ensures Total(vals[a := x]) == Total(vals) + (x - Get(vals, a)) * Weight(a)
  {
  }

  lemma CarryFits(vals: Vals, from: char, to: char)
    requires Natural(vals) && Total(vals) <= MAX
    requires (from == 'm' && to == 'h') || (from == 'h' && to == 'd') || (from == 'd' && to == 'w')
    ensures var n, m, l := Get(vals, from), Get(vals, to), Limit(from);
            n == n / l * l + n % l && 0 <= n % l < l && n / l >= 0 && m >= 0 && Wrap(m + n / l) == m + n / l
  {
    var n, m, l := Get(vals, from), Get(vals, to), Limit(from);
    assert n == n / l * l + n % l;
    assert 0 <= n / l <= n && m >= 0;
    assert m + n <= Total(vals);
  }

  lemma CarryBalances(n: int, q: int, r: int, limit: int, weight: int)
    requires n == q * limit + r
    ensures (r - n) * weight + q * (limit * weight) == 0
  {
  }

  lemma CarryTotal(vals: Vals, from: char, to: char)
    requires Natural(vals) && Total(vals) <= MAX
    requires (from == 'm' && to == 'h') || (from == 'h' && to == 'd') || (from == 'd' && to == 'w')
    ensures Total(Carry(vals, from, to)) == Total(vals)
  {
    var n, m := Get(vals, from), Get(vals, to);
    var q, r := n / Limit(from), n % Limit(from);
    CarryFits(vals, from, to);
    assert Weight(to) == Limit(from) * Weight(from);
    TwoValues(vals, from, r, to, m + q);
    CarryBalances(n, q, r, Limit(from), Weight(from));
    hide Total, Wrap;
  }

  lemma CarryKeeps(vals: Vals, from: char, to: char)
    requires Natural(vals) && Total(vals) <= MAX
    requires (from == 'm' && to == 'h') || (from == 'h' && to == 'd') || (from == 'd' && to == 'w')
    ensures Natural(Carry(vals, from, to)) && Total(Carry(vals, from, to)) == Total(vals)
    ensures 0 <= Get(Carry(vals, from, to), from) < Limit(from)
    ensures forall u :: u != from && u != to ==> Get(Carry(vals, from, to), u) == Get(vals, u)
  {
    CarryTotal(vals, from, to);
    CarryFits(vals, from, to);
    hide Total, Wrap, Limit;
  }

  /** Carrying keeps the total and leaves every unit in its range. */
  lemma CarriedInRange(vals: Vals, unit: char)
    requires Natural(vals) && Total(vals) <= MAX
    requires unit == 'm' || (unit == 'h' && Get(vals, 'm') < 60)
          || (unit == 'd' && Get(vals, 'm') < 60 && Get(vals, 'h') < 24)
    ensures var c := Carried(vals, unit); Natural(c) && Total(c) == Total(vals) && InRange(c)
  {
    var a := if unit == 'm' then Carry(vals, 'm', 'h') else vals;
    CarryKeeps(vals, 'm', 'h');
    var b := if unit == 'h' || (unit == 'm' && Get(a, 'h') >= 24) then Carry(a, 'h', 'd') else a;
    CarryKeeps(a, 'h', 'd');
    CarryKeeps(b, 'd', 'w');
    hide Total, Carry, Natural;
  }

  function TokensOf(vals: Vals, units: string): seq<Token> {
    if units == "" then []
    else
      (if Get(vals, units[0]) > 0 then [Token(Decimal(Get(vals, units[0])), units[0])] else [])
      + TokensOf(vals, units[1..])
  }

  /** Units in a text, each once, and none of them taken. */
  predicate Listed(units: string, taken: Vals) {
    && (forall i :: 0 <= i < |units| ==> IsUnit(units[i]) && units[i] !in taken)
    && (forall i, j :: 0 <= i < j < |units| ==> units[i] != units[j])
  }

  lemma {:induction false} RenderedIsSpelled(vals: Vals, units: string)
    ensures Rendered(vals, units) == Spell(TokensOf(vals, units))
    ensures forall t <- TokensOf(vals, units) :: t.unit in units
  {
    if units != "" {
      var n, rest := Get(vals, units[0]), TokensOf(vals, units[1..]);
      RenderedIsSpelled(vals, units[1..]);
      if n > 0 {
        var t := Token(Decimal(n), units[0]);
        assert TokensOf(vals, units) == [t] + rest && ([t] + rest)[1..] == rest;
      } else {
        assert TokensOf(vals, units) == rest;
        assert Rendered(vals, units) == Rendered(vals, units[1..]);
      }
    }
  }

  lemma {:induction false} TokensAreLegible(vals: Vals, units: string, taken: Vals)
    requires Listed(units, taken)
    ensures Legible(TokensOf(vals, units), taken)
  {
    if units != "" {
      var n := Get(vals, units[0]);
      var t := Token(Decimal(if n > 0 then n else 0), units[0]);
      assert IsUnit(t.unit) && t.unit !in taken && t.Legible();
      hide Decimal, Get, Token.Legible, Legible, Listed, TokensOf;
      TokensHead(vals, units);
      ListedTail(units, taken, AtoiOrMax(t.digits));
      if n > 0 {
        TokensAreLegible(vals, units[1..], taken[t.unit := AtoiOrMax(t.digits)]);
        LegibleCons(t, TokensOf(vals, units[1..]), taken);
      } else {
        TokensAreLegible(vals, units[1..], taken);
      }
    }
  }

  /** Reading the rendered values gives them back. */
  lemma {:induction false} RenderedReadsBack(vals: Vals, units: string, given: Vals, u: char)
    requires Listed(units, given)
    requires forall i :: 0 <= i < |units| ==> Get(vals, units[i]) <= MAX
    ensures Get(ValsOf(TokensOf(vals, units), given), u)
         == if u in units && Get(vals, u) > 0 then Get(vals, u) else Get(given, u)
    decreases |units|
  {
    if units != "" {
      var c, n := units[0], Get(vals, units[0]);
      var given' := if n > 0 then given[c := n] else given;
      FirstToken(vals, units, given);
      assert units == [c] + units[1..];
      assert Get(given', u) == if u == c && n > 0 then n else Get(given, u);
      ListedTail(units, given, n);
      RenderedReadsBack(vals, units[1..], given', u);
      hide *;
    }
  }

  lemma ListedTail(units: string, given: Vals, n: int)
    requires units != "" && Listed(units, given)
    ensures Listed(units[1..], given) && Listed(units[1..], given[units[0] := n]) && units[0] !in units[1..]
  {
  }

  lemma ValsOfCons(t: Token, rest: seq<Token>, given: Vals)
    ensures ValsOf([t] + rest, given) == ValsOf(rest, given[t.unit := AtoiOrMax(t.digits)])
  {
    hide AtoiOrMax;
    assert ([t] + rest)[1..] == rest;
  }

  lemma TokensHead(vals: Vals, units: string)
    requires units != ""
    ensures var n, rest := Get(vals, units[0]), TokensOf(vals, units[1..]);
            TokensOf(vals, units) == if n > 0 then [Token(Decimal(n), units[0])] + rest else rest
  {
    hide Decimal, Get;
    var rest := TokensOf(vals, units[1..]);
    assert [] + rest == rest;
  }

  lemma FirstToken(vals: Vals, units: string, given: Vals)
    requires units != "" && Get(vals, units[0]) <= MAX
    ensures var n := Get(vals, units[0]);
            ValsOf(TokensOf(vals, units), given)
            == ValsOf(TokensOf(vals, units[1..]), if n > 0 then given[units[0] := n] else given)
  {
    hide *;
    var n, rest := Get(vals, units[0]), TokensOf(vals, units[1..]);
    TokensHead(vals, units);
    if n > 0 {
      ValueOfDecimal(n);
      SmallNumber(Decimal(n));
      ValsOfCons(Token(Decimal(n), units[0]), rest, given);
    }
  }

  // ------------------------------------------------------------ main results

  /** A spelled duration whose meaning fits an int is refused exactly when a unit
      overflows or it is zero, and is otherwise that many minutes. */
  lemma SpelledMeans(text: string, ts: seq<Token>)
    requires Spells(text, ts) && Meant(ts) <= MAX
    ensures var vals := ValsOf(ts, map[]);
      && Natural(vals) && Total(vals) == Meant(ts)
      && (InRange(vals) ==> ParsedText(text) == if Meant(ts) == 0 then Refused(NotPositive) else Minutes(Meant(ts)))
      && (!InRange(vals) ==> ParsedText(text).Refused? && ParsedText(text).problem.Overflow?)
  {
    hide ParsedText, Suggestion;
    SpelledIsJudged(text, ts);
    ReadTotal(ts, map[]);
  }

  /** So an accepted duration is what was meant exactly when that fits an int. */
  lemma AcceptedMeans(text: string, ts: seq<Token>)
    requires Spells(text, ts) && ParsedText(text).Minutes?
    ensures ParsedText(text).n == Meant(ts) <==> Meant(ts) <= MAX
  {
    if Meant(ts) <= MAX {
      SpelledMeans(text, ts);
    } else {
      SpelledIsJudged(text, ts);
    }
  }

  /** Values in range, rendered, parse to their total. */
  lemma RenderedParses(vals: Vals)
    requires Natural(vals) && InRange(vals) && 0 < Total(vals) <= MAX
    ensures Rendered(vals, UNITS) != ""
    ensures ParsedText(Rendered(vals, UNITS)) == Minutes(Total(vals))
  {
    hide *;
    var ts := TokensOf(vals, UNITS);
    RenderedIsSpelled(vals, UNITS);
    AllUnits();
    TokensAreLegible(vals, UNITS, map[]);
    SameTotal(vals, ValsOf(ts, map[]));
    JudgedInRange(ts);
    LegibleParses(ts);
  }

  lemma AllUnits()
    ensures Listed(UNITS, map[])
  {
  }

  lemma JudgedInRange(ts: seq<Token>)
    requires var read := ValsOf(ts, map[]); InRange(read) && 0 < Total(read) <= MAX
    ensures ts != [] && Judged(ValsOf(ts, map[])) == Minutes(Total(ValsOf(ts, map[])))
  {
    assert Total(map[]) == 0;
    hide Total;
  }

  lemma LegibleParses(ts: seq<Token>)
    requires ts != [] && Legible(ts, map[])
    ensures Spell(ts) != "" && ParsedText(Spell(ts)) == Judged(ValsOf(ts, map[]))
  {
    hide ParsedText, Judged, ValsOf;
    SpellsItself(ts);
    SpelledIsJudged(Spell(ts), ts);
    SpellEnds(ts);
  }

  lemma OneReadsBack(vals: Vals, u: char)
    requires Natural(vals) && Total(vals) <= MAX && IsUnit(u)
    ensures Get(ValsOf(TokensOf(vals, UNITS), map[]), u) == Get(vals, u)
  {
    assert UNITS == ['M', 'w', 'd', 'h', 'm'];
    hide ValsOf, TokensOf;
    RenderedReadsBack(vals, UNITS, map[], u);
  }

  lemma SameTotal(vals: Vals, read: Vals)
    requires Natural(vals) && Total(vals) <= MAX && read == ValsOf(TokensOf(vals, UNITS), map[])
    ensures Total(read) == Total(vals) && (InRange(vals) ==> InRange(read))
  {
    OneReadsBack(vals, 'M');
    OneReadsBack(vals, 'w');
    OneReadsBack(vals, 'd');
    OneReadsBack(vals, 'h');
    OneReadsBack(vals, 'm');
    hide ValsOf, TokensOf;
  }

  /** Whenever a unit overflows, the suggested text parses to exactly the minutes
      that were typed if and only if these fit an int. */
  lemma SuggestionParses(text: string, ts: seq<Token>)
    requires Spells(text, ts) && ParsedText(text).Refused? && ParsedText(text).problem.Overflow?
    ensures ParsedText(ParsedText(text).problem.suggestion) == Minutes(Meant(ts)) <==> Meant(ts) <= MAX
  {
    if Meant(ts) <= MAX {
      var vals, unit := ValsOf(ts, map[]), ParsedText(text).problem.unit;
      SpelledMeans(text, ts);
      SpelledIsJudged(text, ts);
      CarriedInRange(vals, unit);
      RenderedParses(Carried(vals, unit));
    } else {
      ParsedFits(ParsedText(text).problem.suggestion);
    }
  }

  lemma ParsedFits(text: string)
    ensures ParsedText(text).Minutes? ==> 0 < ParsedText(text).n <= MAX
  {
    hide Scan, ReplaceAll, TrimSpace, Suggestion, Total, Atoi;
  }

  // Both conditions do fail: on months whose minutes wrap around to a positive
  // number, and on minutes beyond an int, which read as the largest.
  const WRAPPING_MONTHS: nat := 427007964669203
  const CLAMPED_MINUTES: nat := MAX + 1

  lemma OneToken(n: nat, unit: char)
    requires IsUnit(unit)
    ensures var ts := [Token(Decimal(n), unit)];
      && Spells(Decimal(n) + [unit], ts) && Meant(ts) == n * Weight(unit)
      && ValsOf(ts, map[]) == map[unit := AtoiOrMax(Decimal(n))]
  {
    var ts := [Token(Decimal(n), unit)];
    ValueOfDecimal(n);
    assert ts[1..] == [] && Spell(ts) == Decimal(n) + [unit] + "";
    assert Decimal(n) + [unit] + "" == Decimal(n) + [unit];
    assert Meant(ts[1..]) == 0 && ValsOf(ts[1..], map[unit := AtoiOrMax(Decimal(n))]) == map[unit := AtoiOrMax(Decimal(n))];
    hide Decimal, Value, AtoiOrMax, Weight;
    SpellsItself(ts);
  }

  lemma WrappedTotal()
    ensures Judged(map['M' := WRAPPING_MONTHS]) == Minutes(17984)
  {
    var vals: Vals := map['M' := WRAPPING_MONTHS];
    assert Total(vals) == 0x1_0000_0000_0000_0000 + 17984;
    hide Total, Suggestion;
  }

  /** Months whose minutes are beyond an int are accepted as 17984 minutes. */
  lemma AcceptedCanWrap()
    ensures var text, ts := Decimal(WRAPPING_MONTHS) + "M", [Token(Decimal(WRAPPING_MONTHS), 'M')];
      Spells(text, ts) && ParsedText(text) == Minutes(17984) && Meant(ts) > MAX
  {
    assert Weight('M') == 43200;
    hide *;
    var digits := Decimal(WRAPPING_MONTHS);
    OneToken(WRAPPING_MONTHS, 'M');
    ValueOfDecimal(WRAPPING_MONTHS);
    SmallNumber(digits);
    WrappedTotal();
    SpelledIsJudged(digits + "M", [Token(digits, 'M')]);
  }

  /** Minutes beyond an int are refused with a suggestion that is not what was typed. */
  lemma OverflowCanClamp()
    ensures var text, ts := Decimal(CLAMPED_MINUTES) + "m", [Token(Decimal(CLAMPED_MINUTES), 'm')];
      && Spells(text, ts) && Meant(ts) > MAX
      && ParsedText(text).Refused? && ParsedText(text).problem.Overflow?
      && ParsedText(ParsedText(text).problem.suggestion) != Minutes(Meant(ts))
  {
    var digits := Decimal(CLAMPED_MINUTES);
    var text, ts := digits + "m", [Token(digits, 'm')];
    OneToken(CLAMPED_MINUTES, 'm');
    ValueOfDecimal(CLAMPED_MINUTES);
    LargeNumber(digits);
    hide Decimal, Value, AtoiOrMax, ParsedText, Spells, ValsOf, Suggestion;
    SpelledIsJudged(text, ts);
    SuggestionParses(text, ts);
  }

  lemma LargeNumber(digits: string)
    requires digits != "" && AllDigits(digits) && Value(digits) > MAX
    ensures AtoiOrMax(digits) == MAX
  {
    assert IsDigit(digits[0]);
  }

  // ------------------------------------------------------------ plain readings

  lemma ItoaTrimmed(n: int)
    ensures Trimmed(Itoa(n)) && Itoa(n) != ""
  {
    var s := Itoa(n);
    assert s[|s| - 1] in "0123456789-";
  }

  /** A bare number is minutes, with blanks around it or not; 0 and less is refused. */
  lemma BareNumber(u: string, n: int, v: string)
    requires InInt64(n) && Blank(u) && Blank(v)
    ensures ParsedText(u + Itoa(n) + v) == if n > 0 then Minutes(n) else Refused(NotPositive)
  {
    ItoaTrimmed(n);
    TrimOf(u, Itoa(n), v);
    AtoiOfItoa(n);
    hide Itoa, Atoi, TrimSpace, ParsedUnits;
  }

  lemma InRangeAlone(n: nat, unit: char)
    requires IsUnit(unit) && n > 0
    requires (unit == 'm' ==> n < 60) && (unit == 'h' ==> n < 24) && (unit == 'd' ==> n < 7)
    ensures InRange(map[unit := n]) && n * Weight(unit) > 0
  {
  }

  lemma OneUnitParses(n: nat, unit: char)
    requires IsUnit(unit) && 0 < n && n * Weight(unit) <= MAX && n <= MAX
    requires (unit == 'm' ==> n < 60) && (unit == 'h' ==> n < 24) && (unit == 'd' ==> n < 7)
    ensures ParsedText(Decimal(n) + [unit]) == Minutes(n * Weight(unit))
  {
    hide ParsedText, Decimal, Value, Weight, Spells, ValsOf, Meant, InRange, Natural, Total;
    var digits, ts := Decimal(n), [Token(Decimal(n), unit)];
    OneToken(n, unit);
    ValueOfDecimal(n);
    SmallNumber(digits);
    InRangeAlone(n, unit);
    hide *;
    SpelledMeans(digits + [unit], ts);
  }

  /** A number with one unit: minutes, hours, days, weeks, and months of 30 days. */
  lemma OneUnit(n: nat)
    requires 0 < n <= MAX
    ensures n < 60 ==> ParsedText(Decimal(n) + "m") == Minutes(n)
    ensures n < 24 ==> ParsedText(Decimal(n) + "h") == Minutes(n * 60)
    ensures n < 7 ==> ParsedText(Decimal(n) + "d") == Minutes(n * 24 * 60)
    ensures n * 7 * 24 * 60 <= MAX ==> ParsedText(Decimal(n) + "w") == Minutes(n * 7 * 24 * 60)
    ensures n * 30 * 24 * 60 <= MAX ==> ParsedText(Decimal(n) + "M") == Minutes(n * 30 * 24 * 60)
  {
    hide ParsedText, Decimal;
    if n < 60 { OneUnitParses(n, 'm'); }
    if n < 24 { OneUnitParses(n, 'h'); }
    if n < 7 { OneUnitParses(n, 'd'); }
    if n * 10080 <= MAX { OneUnitParses(n, 'w'); }
    if n * 43200 <= MAX { OneUnitParses(n, 'M'); }
  }

  // ------------------------------------------------------------------- labels

  function Name(unit: char): string {
    match unit
    case 'M' => "мес."
    case 'w' => "нед."
    case 'd' => "д."
    case 'h' => "ч."
    case _ => "мин."
  }

  const BIG: string := "Mwdh"

  datatype Part = Part(count: int, unit: char) {
    function Text(): string {
      Itoa(count) + SPACE + Name(unit)
    }
  }

  /** The parts for some units, and the minutes left over. */
  function Parts(n: int, units: string): (seq<Part>, int) {
    if units == "" then ([], n)
    else if n >= Weight(units[0]) > 0 then
      var (rest, left) := Parts(n % Weight(units[0]), units[1..]);
      ([Part(n / Weight(units[0]), units[0])] + rest, left)
    else Parts(n, units[1..])
  }

  function LabelParts(n: int): seq<Part> {
    var (parts, left) := Parts(n, BIG);
    if left > 0 || parts == [] then parts + [Part(left, 'm')] else parts
  }

  function Texts(parts: seq<Part>): seq<string> {
    if parts == [] then [] else Texts(parts[..|parts| - 1]) + [parts[|parts| - 1].Text()]
  }

  function Label(n: int): string {
    Join(Texts(LabelParts(n)), SPACE)
  }

  function Sum(parts: seq<Part>): int {
    if parts == [] then 0 else parts[0].count * Weight(parts[0].unit) + Sum(parts[1..])
  }

  function Prepend(ps: seq<Part>, more: (seq<Part>, int)): (seq<Part>, int) {
    (ps + more.0, more.1)
  }

  lemma PartsStep(ps: seq<Part>, n: int, units: string)
    requires units != "" && Weight(units[0]) > 0
    ensures var w := Weight(units[0]);
            Prepend(ps, Parts(n, units))
            == if n >= w then Prepend(ps + [Part(n / w, units[0])], Parts(n % w, units[1..]))
               else Prepend(ps, Parts(n, units[1..]))
  {
    var w := Weight(units[0]);
    if n >= w {
      Regroup(ps, [Part(n / w, units[0])], Parts(n % w, units[1..]).0);
    }
  }

  lemma TextsMore(ps: seq<Part>, p: Part)
    ensures Texts(ps + [p]) == Texts(ps) + [p.Text()]
  {
    assert (ps + [p])[..|ps|] == ps;
  }

  method MinutesToLabel(minutes: int) returns (text: string)
    ensures text == Label(minutes)
  {
    var n, parts := minutes, [];
    ghost var ps: seq<Part> := [];
    assert BIG[0..] == BIG && [] + Parts(n, BIG).0 == Parts(n, BIG).0;
    for k := 0 to |BIG|
      invariant parts == Texts(ps) && |parts| == |ps|
      invariant Prepend(ps, Parts(n, BIG[k..])) == Parts(minutes, BIG)
    {
      var unit := BIG[k];
      PartsStep(ps, n, BIG[k..]);
      assert BIG[k..][1..] == BIG[k + 1..];
      if n >= Weight(unit) {
        TextsMore(ps, Part(n / Weight(unit), unit));
        ps := ps + [Part(n / Weight(unit), unit)];
        parts := parts + [Itoa(n / Weight(unit)) + SPACE + Name(unit)];
        n := n % Weight(unit);
      }
    }
    assert ps + [] == ps;
    if n > 0 || |parts| == 0 {
      TextsMore(ps, Part(n, 'm'));
      parts := parts + [Itoa(n) + SPACE + Name('m')];
    }
    text := Join(parts, SPACE);
  }

  // ------------------------------------------------------- reading labels back

  function WeightOf(name: string): nat {
    if name == Name('M') then Weight('M')
    else if name == Name('w') then Weight('w')
    else if name == Name('d') then Weight('d')
    else if name == Name('h') then Weight('h')
    else 1
  }

  /** The minutes a label's words stand for. */
  function ReadWords(words: seq<string>): int {
    if |words| < 2 then 0
    else Atoi(words[0]).GetOr(0) * WeightOf(words[1]) + ReadWords(words[2..])
  }

  function Words(parts: seq<Part>): seq<string> {
    if parts == [] then [] else [Itoa(parts[0].count), Name(parts[0].unit)] + Words(parts[1..])
  }

  predicate Sensible(parts: seq<Part>) {
    forall p <- parts :: IsUnit(p.unit) && InInt64(p.count)
  }

  lemma {:induction false} SplitWord(w: string, rest: string)
    requires Spaceless(w)
    ensures Split(w + SPACE + rest, SPACE) == [w] + Split(rest, SPACE)
  {
    var s := w + SPACE + rest;
    if w == "" {
      assert s == SPACE + rest && s[1..] == rest;
    } else {
      assert s[1..] == w[1..] + SPACE + rest && s[0] == w[0];
      assert !(SPACE <= s) by { assert s[0] != SPACE[0]; }
      SplitWord(w[1..], rest);
      assert w == [w[0]] + w[1..];
    }
  }

  lemma {:induction false} SplitLastWord(w: string)
    requires Spaceless(w)
    ensures Split(w, SPACE) == [w]
  {
    if w != "" {
      assert !(SPACE <= w) by { assert w[0] != SPACE[0]; }
      SplitLastWord(w[1..]);
      assert w == [w[0]] + w[1..];
    }
  }

  lemma ItoaSpaceless(n: int)
    ensures Spaceless(Itoa(n))
  {
  }

  lemma {:induction false} TextsHead(parts: seq<Part>)
    requires parts != []
    ensures Texts(parts) == [parts[0].Text()] + Texts(parts[1..])
  {
    if |parts| > 1 {
      TextsHead(parts[..|parts| - 1]);
      assert parts[1..][..|parts| - 2] == parts[..|parts| - 1][1..];
    } else {
      assert Texts(parts[..0]) == [] && Texts(parts[1..]) == [];
    }
  }

  lemma PieceSplits(count: string, name: string, more: string)
    requires Spaceless(count) && Spaceless(name)
    ensures Split(count + SPACE + name + SPACE + more, SPACE) == [count, name] + Split(more, SPACE)
  {
    hide Split;
    SplitWord(name, more);
    SplitWord(count, name + SPACE + more);
    Regroup(count + SPACE, name + SPACE, more);
    Regroup(count + SPACE, name, SPACE);
    assert [count] + ([name] + Split(more, SPACE)) == [count, name] + Split(more, SPACE);
  }

  lemma {:induction false} SplitLabel(parts: seq<Part>)
    requires parts != []
    ensures Split(Join(Texts(parts), SPACE), SPACE) == Words(parts)
  {
    var count, name := Itoa(parts[0].count), Name(parts[0].unit);
    ItoaSpaceless(parts[0].count);
    assert Spaceless(name);
    JoinedParts(parts);
    if |parts| == 1 {
      SplitWord(count, name);
      SplitLastWord(name);
      assert Words(parts[1..]) == [];
    } else {
      PieceSplits(count, name, Join(Texts(parts[1..]), SPACE));
      hide Itoa, Name, Split, Join, Texts;
      SplitLabel(parts[1..]);
    }
  }

  lemma JoinedParts(parts: seq<Part>)
    requires parts != []
    ensures var text := Itoa(parts[0].count) + SPACE + Name(parts[0].unit);
            Join(Texts(parts), SPACE)
            == if |parts| == 1 then text else text + SPACE + Join(Texts(parts[1..]), SPACE)
  {
    hide Itoa, Name;
    TextsHead(parts);
    if |parts| > 1 {
      TextsHead(parts[1..]);
      JoinCons(parts[0].Text(), Texts(parts[1..]), SPACE);
    }
  }

  lemma NameReads(unit: char)
    requires IsUnit(unit)
    ensures WeightOf(Name(unit)) == Weight(unit)
  {
    assert Name('M')[0] != Name('m')[0] || Name('M')[1] != Name('m')[1];
  }

  lemma {:induction false} WordsRead(parts: seq<Part>)
    requires Sensible(parts)
    ensures ReadWords(Words(parts)) == Sum(parts)
  {
    if parts != [] {
      assert parts[0] in parts && forall p <- parts[1..] :: p in parts;
      AtoiOfItoa(parts[0].count);
      NameReads(parts[0].unit);
      WordsRead(parts[1..]);
      hide Atoi, Itoa, Name, WeightOf, Weight;
      assert Words(parts)[2..] == Words(parts[1..]);
    }
  }

  lemma {:induction false} SumMore(parts: seq<Part>, p: Part)
    ensures Sum(parts + [p]) == Sum(parts) + p.count * Weight(p.unit)
  {
    if parts == [] {
      assert [] + [p] == [p] && Sum([p][1..]) == 0;
    } else {
      assert (parts + [p])[1..] == parts[1..] + [p];
      SumMore(parts[1..], p);
    }
  }

  /** From some unit down: the parts and what is left make up the minutes. */
  lemma {:induction false} PartsAddUp(n: int, k: nat)
    requires k <= |BIG| && (k > 0 ==> n < Weight(BIG[k - 1]))
    ensures var (parts, left) := Parts(n, BIG[k..]);
      && Sum(parts) + left == n && left < 60 && (n >= 0 ==> left >= 0) && (n < 0 ==> parts == [])
      && (forall p <- parts :: IsUnit(p.unit) && 0 < p.count && p.count * Weight(p.unit) <= n)
    decreases |BIG| - k
  {
    if k < |BIG| {
      var w := Weight(BIG[k]);
      assert BIG[k..][1..] == BIG[k + 1..];
      if n >= w {
        assert n == n / w * w + n % w;
        PartsAddUp(n % w, k + 1);
      } else {
        PartsAddUp(n, k + 1);
      }
    }
  }

  /** A label's parts add up to the minutes, and are sensible. */
  lemma LabelAddsUp(n: int)
    requires InInt64(n)
    ensures Sum(LabelParts(n)) == n && Sensible(LabelParts(n)) && LabelParts(n) != []
  {
    var (parts, left) := Parts(n, BIG);
    assert BIG[0..] == BIG;
    PartsAddUp(n, 0);
    SumMore(parts, Part(left, 'm'));
    forall p <- LabelParts(n) ensures IsUnit(p.unit) && InInt64(p.count) {
      if p in parts { WeightBounds(p.count, p.unit); }
    }
  }

  /** A label loses nothing: its words read back to the minutes. */
  lemma LabelReadsBack(n: int)
    requires InInt64(n)
    ensures ReadWords(Split(Label(n), SPACE)) == n
  {
    LabelAddsUp(n);
    SplitLabel(LabelParts(n));
    WordsRead(LabelParts(n));
  }

  // ------------------------------------------------------------ labels in words

  /** A part of a label, left out when it is nothing. */
  function Piece(count: int, word: string): seq<string> {
    if count > 0 then [Itoa(count) + " " + word] else []
  }

  lemma PartsOf(n: int, unit: char, units: string)
    requires n >= 0 && Weight(unit) > 0
    ensures var w := Weight(unit); var (rest, left) := Parts(n % w, units);
      Parts(n, [unit] + units) == ((if n / w > 0 then [Part(n / w, unit)] else []) + rest, left)
  {
    var w := Weight(unit);
    assert ([unit] + units)[1..] == units;
    if n < w {
      assert n % w == n && n / w == 0;
      assert [] + Parts(n, units).0 == Parts(n, units).0;
    } else {
      assert n / w > 0;
    }
  }

  lemma PieceTexts(count: int, unit: char, rest: seq<Part>)
    ensures Texts((if count > 0 then [Part(count, unit)] else []) + rest) == Piece(count, Name(unit)) + Texts(rest)
  {
    var all := [Part(count, unit)] + rest;
    TextsHead(all);
    assert all[1..] == rest && [] + rest == rest && [] + Texts(rest) == Texts(rest);
  }

  /** The texts of the parts for some units and of the minutes left over, if any are. */
  function Rest(n: int, units: string): seq<string> {
    var (parts, left) := Parts(n, units);
    Texts(parts + if left > 0 then [Part(left, 'm')] else [])
  }

  lemma RestOf(n: int, unit: char, units: string)
    requires n >= 0 && Weight(unit) > 0
    ensures Rest(n, [unit] + units) == Piece(n / Weight(unit), Name(unit)) + Rest(n % Weight(unit), units)
  {
    var w := Weight(unit);
    var (rest, left) := Parts(n % w, units);
    var tail := if left > 0 then [Part(left, 'm')] else [];
    var head := if n / w > 0 then [Part(n / w, unit)] else [];
    PartsOf(n, unit, units);
    hide Parts, Weight, Texts, Piece;
    Regroup(head, rest, tail);
    PieceTexts(n / w, unit, rest + tail);
  }

  lemma RestOfMinutes(n: int)
    requires n >= 0
    ensures Rest(n, "") == Piece(n, Name('m'))
  {
    PieceTexts(n, 'm', []);
    assert Texts([]) == [];
  }

  lemma LabelIsRest(n: int)
    requires n > 0
    ensures Label(n) == Join(Rest(n, "Mwdh"), " ")
  {
    var (parts, left) := Parts(n, BIG);
    hide Texts, Join;
    assert parts + [] == parts;
    if parts == [] { PartsLeft(n, BIG); }
  }

  lemma {:induction false} PartsLeft(n: int, units: string)
    ensures var (parts, left) := Parts(n, units); parts == [] ==> left == n
  {
    if units != "" {
      PartsLeft(n, units[1..]);
    }
  }

  lemma Names()
    ensures Name('M') == "мес." && Name('w') == "нед." && Name('d') == "д." && Name('h') == "ч." && Name('m') == "мин."
    ensures Weight('M') == 43200 && Weight('w') == 10080 && Weight('d') == 1440 && Weight('h') == 60
  {
  }

  lemma RestIs(n: int)
    requires n >= 0
    ensures var r1 := n % 43200; var r2 := r1 % 10080; var r3 := r2 % 1440;
      Rest(n, "Mwdh") == Piece(n / 43200, "мес.") + (Piece(r1 / 10080, "нед.") + (Piece(r2 / 1440, "д.")
                           + (Piece(r3 / 60, "ч.") + Piece(r3 % 60, "мин."))))
  {
    var r1 := n % 43200;
    var r2 := r1 % 10080;
    var r3 := r2 % 1440;
    Names();
    assert "Mwdh" == ['M'] + "wdh" && "wdh" == ['w'] + "dh" && "dh" == ['d'] + "h" && "h" == ['h'] + "";
    hide *;
    RestOf(n, 'M', "wdh");
    RestOf(r1, 'w', "dh");
    RestOf(r2, 'd', "h");
    RestOf(r3, 'h', "");
    RestOfMinutes(r3 % 60);
  }

  /** A label says how many months, weeks, days, hours and minutes there are, each as many
      as the rest holds, in words, from the largest on, and leaves out what is nothing. */
  lemma LabelSays(n: int) returns (months: int, weeks: int, days: int, hours: int, minutes: int)
    requires n > 0
    ensures months >= 0 && 0 <= weeks && 0 <= days < 7 && 0 <= hours < 24 && 0 <= minutes < 60
    ensures ((weeks * 7 + days) * 24 + hours) * 60 + minutes < 30 * 24 * 60
    ensures n == months * 30 * 24 * 60 + ((weeks * 7 + days) * 24 + hours) * 60 + minutes
    ensures Label(n) == Join(Piece(months, "мес.") + (Piece(weeks, "нед.") + (Piece(days, "д.") + (Piece(hours, "ч.") + Piece(minutes, "мин.")))), " ")
  {
    months := n / 43200;
    var r1 := n % 43200;
    weeks := r1 / 10080;
    var r2 := r1 % 10080;
    days := r2 / 1440;
    var r3 := r2 % 1440;
    hours, minutes := r3 / 60, r3 % 60;
    hide *;
    LabelIsRest(n);
    RestIs(n);
  }

  /** No time at all, and less, are minutes too. */
  lemma LabelOfNothing(n: int)
    requires n <= 0
    ensures Label(n) == Itoa(n) + " мин."
  {
    assert Parts(n, BIG) == ([], n) by { NothingBig(n, BIG); }
    TextsHead([Part(n, 'm')]);
    assert [Part(n, 'm')][1..] == [] && Texts([]) == [];
    hide Itoa;
    assert Itoa(n) + SPACE + "мин." == Itoa(n) + " мин.";
  }

  lemma {:induction false} NothingBig(n: int, units: string)
    requires n <= 0
    ensures Parts(n, units) == ([], n)
  {
    if units != "" {
      NothingBig(n, units[1..]);
    }
  }
}
