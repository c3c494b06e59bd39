/** strings.TrimSpace and strconv's decimal numbers. */
module Trim {
  import opened Options
  import opened Text

  /** unicode.IsSpace */
  predicate IsSpace(c: char) {
    var n := c as int;
    || 9 <= n <= 13 || n == 0x20 || n == 0x85 || n == 0xA0 || n == 0x1680 || 0x2000 <= n <= 0x200A
    || n == 0x2028 || n == 0x2029 || n == 0x202F || n == 0x205F || n == 0x3000
  }

  predicate Blank(s: string) {
    forall i :: 0 <= i < |s| ==> IsSpace(s[i])
  }

  predicate Trimmed(s: string) {
    s != "" ==> !IsSpace(s[0]) && !IsSpace(s[|s| - 1])
  }

  function TrimLeft(s: string): string {
    if s != "" && IsSpace(s[0]) then TrimLeft(s[1..]) else s
  }

  function TrimRight(s: string): string {
    if s != "" && IsSpace(s[|s| - 1]) then TrimRight(s[..|s| - 1]) else s
  }

  function TrimSpace(s: string): string {
    TrimRight(TrimLeft(s))
  }

  lemma {:induction false} TrimLeftForm(s: string) returns (u: string)
    ensures s == u + TrimLeft(s) && Blank(u) && (TrimLeft(s) != "" ==> !IsSpace(TrimLeft(s)[0]))
  {
    if s != "" && IsSpace(s[0]) {
      var rest := TrimLeftForm(s[1..]);
      u := [s[0]] + rest;
      assert s == [s[0]] + s[1..] && TrimLeft(s) == TrimLeft(s[1..]);
      hide TrimLeft, IsSpace;
      Regroup([s[0]], rest, TrimLeft(s[1..]));
    } else {
      u := "";
    }
  }

  lemma {:induction false} TrimRightForm(s: string) returns (v: string)
    ensures s == TrimRight(s) + v && Blank(v)
    ensures TrimRight(s) != "" ==> !IsSpace(TrimRight(s)[|TrimRight(s)| - 1]) && TrimRight(s)[0] == s[0]
  {
    if s != "" && IsSpace(s[|s| - 1]) {
      v := TrimRightForm(s[..|s| - 1]);
      v := v + [s[|s| - 1]];
      assert s == s[..|s| - 1] + [s[|s| - 1]];
    } else {
      v := "";
    }
  }

  /** Trimming takes blanks off both ends, and all of them. */
  lemma TrimForm(s: string) returns (u: string, v: string)
    ensures s == u + TrimSpace(s) + v && Blank(u) && Blank(v) && Trimmed(TrimSpace(s))
  {
    u := TrimLeftForm(s);
    v := TrimRightForm(TrimLeft(s));
    Regroup(u, TrimSpace(s), v);
  }

  lemma {:induction false} TrimLeftOf(u: string, core: string)
    requires Blank(u) && (core == "" || !IsSpace(core[0]))
    ensures TrimLeft(u + core) == core
  {
    if u == "" {
      assert u + core == core;
    } else {
      assert (u + core)[1..] == u[1..] + core;
      TrimLeftOf(u[1..], core);
    }
  }

  lemma {:induction false} TrimRightOf(core: string, v: string)
    requires Blank(v) && (core == "" || !IsSpace(core[|core| - 1]))
    ensures TrimRight(core + v) == core
  {
    if v == "" {
      assert core + v == core;
    } else {
      assert (core + v)[..|core + v| - 1] == core + v[..|v| - 1];
      TrimRightOf(core, v[..|v| - 1]);
    }
  }

  lemma TrimOf(u: string, core: string, v: string)
    requires Blank(u) && Blank(v) && Trimmed(core)
    ensures TrimSpace(u + core + v) == core
  {
    if core == "" {
      assert u + core + v == (u + v) + "";
      TrimLeftOf(u + v, "");
    } else {
      Regroup(u, core, v);
      TrimLeftOf(u, core + v);
      TrimRightOf(core, v);
    }
  }

  /** Blanks around a text make no difference. */
  lemma TrimAround(u: string, s: string, v: string)
    requires Blank(u) && Blank(v)
    ensures TrimSpace(u + s + v) == TrimSpace(s)
  {
    var u', v' := TrimForm(s);
    var core := TrimSpace(s);
    assert u + s + v == (u + u') + core + (v' + v);
    TrimOf(u + u', core, v' + v);
  }

  // ----------------------------------------------------------------- numbers

  /** Go's int */
  type Int64 = n: int | -0x8000_0000_0000_0000 <= n <= 0x7FFF_FFFF_FFFF_FFFF

  predicate IsDigit(c: char) {
    '0' <= c <= '9'
  }

  predicate AllDigits(s: string) {
    forall i :: 0 <= i < |s| ==> IsDigit(s[i])
  }

  function Digit(c: char): nat
    requires IsDigit(c)
  {
    c as int - '0' as int
  }

  function Decimal(n: nat): (s: string)
    ensures s != "" && AllDigits(s)
  {
    (if n < 10 then "" else Decimal(n / 10)) + [('0' as int + n % 10) as char]
  }

  /** strconv.Itoa */
  function Itoa(n: int): string {
    if n < 0 then "-" + Decimal(-n) else Decimal(n)
  }

  function Value(digits: string): nat
    requires AllDigits(digits)
  {
    if digits == "" then 0
    else 10 * Value(digits[..|digits| - 1]) + Digit(digits[|digits| - 1])
  }

  predicate InInt64(n: int) {
    -0x8000_0000_0000_0000 <= n <= 0x7FFF_FFFF_FFFF_FFFF
  }

  function Signed(negative: bool, body: string): Option<Int64> {
    if body == "" || !AllDigits(body) then None
    else
      var size: int := Value(body);
      var n := if negative then -size else size;
      if InInt64(n) then Some(n) else None
  }

  /** strconv.Atoi; None is its error. */
  function Atoi(s: string): Option<Int64> {
    if s != "" && s[0] == '-' then Signed(true, s[1..])
    else if s != "" && s[0] == '+' then Signed(false, s[1..])
    else Signed(false, s)
  }

  lemma {:induction false} ValueOfDecimal(n: nat)
    ensures Value(Decimal(n)) == n
  {
    var d := Decimal(n);
    var front := if n < 10 then "" else Decimal(n / 10);
    assert d[..|d| - 1] == front && d[|d| - 1] == ('0' as int + n % 10) as char;
    if n >= 10 {
      ValueOfDecimal(n / 10);
    }
  }

  lemma SignedDecimal(negative: bool, n: int)
    requires n >= 0 && InInt64(if negative then -n else n)
    ensures Signed(negative, Decimal(n)) == Some(if negative then -n else n)
  {
    ValueOfDecimal(n);
  }

  lemma DashInFront(s: string)
    requires AllDigits(s) && s != ""
    ensures Atoi("-" + s) == Signed(true, s) && Atoi(s) == Signed(false, s)
  {
    assert ("-" + s)[1..] == s && IsDigit(s[0]);
  }

  lemma AtoiOfItoa(n: Int64)
    ensures Atoi(Itoa(n)) == Some(n)
  {
    var m: int := n;
    var size := if m < 0 then -m else m;
    SignedDecimal(m < 0, size);
    DashInFront(Decimal(size));
  }
}
