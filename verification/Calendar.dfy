/** The proleptic Gregorian calendar, as day numbers counted from 1 January of
    year 0, and the normalising date constructor of Go's time package. */
module Calendar {

  datatype Date = Date(year: int, month: int, day: int) {
    predicate Valid() {
      1 <= month <= 12 && 1 <= day <= DaysInMonth(year, month)
    }

    /** The day number of this date. */
    function Number(): int
      requires 1 <= month <= 12
    {
      DaysBeforeYear(year) + DaysBeforeMonth(year, month) + day - 1
    }
  }

  predicate IsLeap(y: int) {
    y % 4 == 0 && (y % 100 != 0 || y % 400 == 0)
  }

  function DaysInMonth(y: int, m: int): int
    requires 1 <= m <= 12
  {
    if m == 2 then (if IsLeap(y) then 29 else 28)
    else if m in {4, 6, 9, 11} then 30
    else 31
  }

  function DaysInYear(y: int): int {
    if IsLeap(y) then 366 else 365
  }

  function DaysBeforeYear(y: int): int
    decreases if y < 0 then -y else y
  {
    if y == 0 then 0
    else if y > 0 then DaysBeforeYear(y - 1) + DaysInYear(y - 1)
    else DaysBeforeYear(y + 1) - DaysInYear(y)
  }

  function DaysBeforeMonth(y: int, m: int): int
    requires 1 <= m <= 13
  {
    if m == 1 then 0 else DaysBeforeMonth(y, m - 1) + DaysInMonth(y, m - 1)
  }

  lemma Divides(y: int)
    ensures y % 400 == 0 ==> y % 100 == 0
    ensures y % 100 == 0 ==> y % 4 == 0
  {
    if y % 400 == 0 { Hundreds(4 * (y / 400)); }
    if y % 100 == 0 { Fours(25 * (y / 100)); }
  }

  lemma Hundreds(k: int)
    ensures 100 * k % 100 == 0
  {
  }

  lemma Fours(k: int)
    ensures 4 * k % 4 == 0
  {
  }

  /** Thirty days have April, June, September and November; February has 29 in the years
      divisible by 4 but not by 100 unless by 400, and else 28; all others have 31. */
  lemma MonthLengths(y: int)
    ensures [DaysInMonth(y, 1), DaysInMonth(y, 3), DaysInMonth(y, 5), DaysInMonth(y, 7), DaysInMonth(y, 8), DaysInMonth(y, 10),
             DaysInMonth(y, 12)] == [31, 31, 31, 31, 31, 31, 31]
    ensures [DaysInMonth(y, 4), DaysInMonth(y, 6), DaysInMonth(y, 9), DaysInMonth(y, 11)] == [30, 30, 30, 30]
    ensures DaysInMonth(y, 2) == if y % 400 == 0 || (y % 4 == 0 && y % 100 != 0) then 29 else 28
  {
    Divides(y);
  }

  /** The leap days before a year are its fourth part, less the hundredth, plus the four
      hundredth. */
  lemma {:induction false} DaysBeforeYearIs(y: int)
    ensures DaysBeforeYear(y) == 365 * y + (y + 3) / 4 - (y + 99) / 100 + (y + 399) / 400
    decreases if y < 0 then -y else y
  {
    if y > 0 {
      DaysBeforeYearIs(y - 1);
      LeapDay(y - 1);
    } else if y < 0 {
      DaysBeforeYearIs(y + 1);
      LeapDay(y);
    }
  }

  lemma Fourths(y: int)
    ensures (y + 4) / 4 == (y + 3) / 4 + if y % 4 == 0 then 1 else 0
  {
  }

  lemma Hundredths(y: int)
    ensures (y + 100) / 100 == (y + 99) / 100 + if y % 100 == 0 then 1 else 0
  {
  }

  lemma FourHundredths(y: int)
    ensures (y + 400) / 400 == (y + 399) / 400 + if y % 400 == 0 then 1 else 0
  {
  }

  lemma LeapDay(y: int)
    ensures (y + 4) / 4 - (y + 100) / 100 + (y + 400) / 400
         == (y + 3) / 4 - (y + 99) / 100 + (y + 399) / 400 + if IsLeap(y) then 1 else 0
  {
    Fourths(y);
    Hundredths(y);
    FourHundredths(y);
    Divides(y);
  }

  lemma YearStep(y: int)
    ensures DaysBeforeYear(y + 1) == DaysBeforeYear(y) + DaysInYear(y)
  {
  }

  lemma MonthsOfYear(y: int)
    ensures DaysBeforeMonth(y, 13) == DaysInYear(y)
  {
    assert DaysBeforeMonth(y, 2) == 31;
    assert DaysBeforeMonth(y, 3) == DaysInYear(y) - 306;
    assert DaysBeforeMonth(y, 5) == DaysInYear(y) - 245;
    assert DaysBeforeMonth(y, 7) == DaysInYear(y) - 184;
    assert DaysBeforeMonth(y, 9) == DaysInYear(y) - 122;
    assert DaysBeforeMonth(y, 11) == DaysInYear(y) - 61;
  }

  lemma {:induction false} MonthsGrow(y: int, m: int, n: int)
    requires 1 <= m < n <= 13
    ensures DaysBeforeMonth(y, m) + DaysInMonth(y, m) <= DaysBeforeMonth(y, n)
  {
    if m < n - 1 {
      MonthsGrow(y, m, n - 1);
    }
  }

  lemma {:induction false} YearsGrow(y: int, z: int)
    requires y < z
    ensures DaysBeforeYear(y) + DaysInYear(y) <= DaysBeforeYear(z)
    decreases z - y
  {
    YearStep(y);
    if y + 1 < z {
      YearsGrow(y + 1, z);
    }
  }

  predicate Before(a: Date, b: Date) {
    a.year < b.year || (a.year == b.year && (a.month < b.month || (a.month == b.month && a.day < b.day)))
  }

  lemma InYear(d: Date)
    requires d.Valid()
    ensures DaysBeforeYear(d.year) <= d.Number() < DaysBeforeYear(d.year + 1)
  {
    YearStep(d.year);
    MonthsOfYear(d.year);
    MonthsGrow(d.year, d.month, 13);
    if d.month > 1 {
      MonthsGrow(d.year, 1, d.month);
    }
  }

  /** Day numbers order dates as calendars do. */
  lemma NumberOrder(a: Date, b: Date)
    requires a.Valid() && b.Valid()
    ensures Before(a, b) <==> a.Number() < b.Number()
    ensures a.Number() == b.Number() ==> a == b
  {
    InYear(a);
    InYear(b);
    if a.year != b.year {
      if a.year + 1 < b.year { YearsGrow(a.year + 1, b.year); }
      if b.year + 1 < a.year { YearsGrow(b.year + 1, a.year); }
    } else if a.month < b.month {
      MonthsGrow(a.year, a.month, b.month);
    } else if b.month < a.month {
      MonthsGrow(a.year, b.month, a.month);
    }
  }

  function YearFrom(n: int, y: int): (r: int)
    requires DaysBeforeYear(y) <= n
    ensures DaysBeforeYear(r) <= n < DaysBeforeYear(r + 1)
    decreases n - DaysBeforeYear(y)
  {
    YearStep(y);
    if n < DaysBeforeYear(y + 1) then y else YearFrom(n, y + 1)
  }

  function MonthFrom(y: int, n: int, m: int): (r: int)
    requires 1 <= m <= 12 && DaysBeforeMonth(y, m) <= n < DaysBeforeMonth(y, 13)
    ensures 1 <= r <= 12 && DaysBeforeMonth(y, r) <= n < DaysBeforeMonth(y, r + 1)
    decreases 12 - m
  {
    if n < DaysBeforeMonth(y, m + 1) then m else MonthFrom(y, n, m + 1)
  }

  lemma {:induction false} YearGuess(y: int)
    ensures DaysBeforeYear(y) <= if y >= 0 then 366 * y else 365 * y
    decreases if y < 0 then -y else y
  {
    if y > 0 {
      YearGuess(y - 1);
    } else if y < 0 {
      YearGuess(y + 1);
    }
  }

  /** The date of a day number. */
  function DateOf(n: int): (d: Date)
    ensures d.Valid() && d.Number() == n
  {
    var guess := if n >= 0 then n / 366 else n / 365;
    YearGuess(guess);
    var y := YearFrom(n, guess);
    YearStep(y);
    MonthsOfYear(y);
    var rest := n - DaysBeforeYear(y);
    var m := MonthFrom(y, rest, 1);
    Date(y, m, rest - DaysBeforeMonth(y, m) + 1)
  }

  lemma DateOfNumber(d: Date)
    requires d.Valid()
    ensures DateOf(d.Number()) == d
  {
    NumberOrder(d, DateOf(d.Number()));
  }

  /** The day number time.Date computes: months and days out of range carry. */
  function GoDay(year: int, month: int, day: int): int {
    Date(year + (month - 1) / 12, (month - 1) % 12 + 1, 1).Number() + day - 1
  }

  lemma GoDayOfDate(d: Date)
    requires 1 <= d.month <= 12
    ensures GoDay(d.year, d.month, d.day) == d.Number()
  {
  }

  /** Day zero of a month is the last day of the month before. */
  lemma LastDayOfMonth(y: int, m: int)
    requires 1 <= m <= 12
    ensures DateOf(GoDay(y, m + 1, 0)).day == DaysInMonth(y, m)
  {
    var last := Date(y, m, DaysInMonth(y, m));
    if m == 12 {
      EndOfYear(y);
    } else {
      assert m / 12 == 0 && m % 12 == m;
      hide DaysBeforeYear, DaysInMonth;
      assert DaysBeforeMonth(y, m + 1) == DaysBeforeMonth(y, m) + DaysInMonth(y, m);
      assert GoDay(y, m + 1, 0) == last.Number();
    }
    DateOfNumber(last);
  }

  lemma EndOfYear(y: int)
    ensures GoDay(y, 13, 0) == Date(y, 12, 31).Number()
  {
    YearStep(y);
    MonthsOfYear(y);
    hide DaysInYear;
    assert DaysBeforeMonth(y, 13) == DaysBeforeMonth(y, 12) + 31;
    assert GoDay(y, 13, 0) == DaysBeforeYear(y + 1) - 1;
  }

  // -------------------------------------------------------------- note dates

  const MONTHS: seq<string> := ["Jan", "Feb", "Mar", "Apr", "May", "Jun", "Jul", "Aug", "Sep", "Oct", "Nov", "Dec"]

  function Digits(n: nat, width: nat): string {
    if width == 0 then "" else Digits(n / 10, width - 1) + ["0123456789"[n % 10]]
  }

  /** Format("02-Jan-2006") */
  function FormatDate(d: Date): string
    requires 0 <= d.year && 1 <= d.month <= 12 && 0 <= d.day
  {
    Digits(d.day, 2) + "-" + MONTHS[d.month - 1] + "-" + Digits(d.year, 4)
  }

  /** A date in the canonical DD-Mmm-YYYY form that note names use. */
  ghost predicate IsNoteDate(s: string) {
    exists d: Date :: d.Valid() && 0 <= d.year <= 9999 && FormatDate(d) == s
  }

  lemma {:induction false} DigitsPlain(n: nat, width: nat)
    ensures |Digits(n, width)| == width && forall c <- Digits(n, width) :: '0' <= c <= '9'
  {
    if width > 0 {
      DigitsPlain(n / 10, width - 1);
    }
  }

  lemma NoteDatePlain(s: string)
    requires IsNoteDate(s)
    ensures '\0' !in s
  {
    var d: Date :| d.Valid() && 0 <= d.year <= 9999 && FormatDate(d) == s;
    DigitsPlain(d.day, 2);
    DigitsPlain(d.year, 4);
    assert forall k :: 0 <= k < 12 ==> '\0' !in MONTHS[k];
  }

  /** What figures say. */
  function Read(s: string): int {
    if s == "" then 0 else 10 * Read(s[..|s| - 1]) + (s[|s| - 1] as int - '0' as int)
  }

  predicate Figures(s: string) {
    forall k :: 0 <= k < |s| ==> '0' <= s[k] <= '9'
  }

  /** A day as written in a note's name: two figures, a month by name, four figures. */
  predicate Written(s: string, d: Date) {
    && |s| == 11 && s[2] == '-' && s[6] == '-' && Figures(s[..2]) && Figures(s[7..])
    && d.day == Read(s[..2]) && d.year == Read(s[7..]) && 1 <= d.month <= 12
    && s[3..6] == ["Jan", "Feb", "Mar", "Apr", "May", "Jun", "Jul", "Aug", "Sep", "Oct", "Nov", "Dec"][d.month - 1]
  }

  function Ten(width: nat): nat {
    if width == 0 then 1 else 10 * Ten(width - 1)
  }

  lemma LastFigure(k: nat)
    requires k < 10
    ensures var c := "0123456789"[k]; '0' <= c <= '9' && c as int - '0' as int == k
  {
  }

  lemma {:induction false} DigitsRead(n: nat, width: nat)
    requires n < Ten(width)
    ensures var s := Digits(n, width); |s| == width && Figures(s) && Read(s) == n
  {
    if width > 0 {
      DigitsRead(n / 10, width - 1);
      var s, last := Digits(n, width), n % 10;
      assert s == Digits(n / 10, width - 1) + ["0123456789"[last]];
      LastFigure(last);
      hide Digits, Ten;
      assert s[..width - 1] == Digits(n / 10, width - 1);
    }
  }

  lemma Figure(c: char)
    requires '0' <= c <= '9'
    ensures "0123456789"[c as int - '0' as int] == c
  {
  }

  lemma {:induction false} ReadDigits(s: string)
    requires Figures(s)
    ensures 0 <= Read(s) < Ten(|s|) && Digits(Read(s), |s|) == s
  {
    if s != "" {
      var init, c := s[..|s| - 1], s[|s| - 1];
      ReadDigits(init);
      Figure(c);
      var n := Read(s);
      assert n / 10 == Read(init) && n % 10 == c as int - '0' as int;
      assert Digits(n, |s|) == Digits(n / 10, |init|) + ["0123456789"[n % 10]];
      hide Digits, Read, Figures;
      assert s == init + [c];
    }
  }

  lemma Parts(day: string, month: string, year: string)
    requires |day| == 2 && |month| == 3 && |year| == 4
    ensures var s := day + "-" + month + "-" + year;
      |s| == 11 && s[..2] == day && s[2] == '-' && s[3..6] == month && s[6] == '-' && s[7..] == year
  {
  }

  lemma FormatIsWritten(d: Date)
    requires d.Valid() && 0 <= d.year <= 9999
    ensures Written(FormatDate(d), d)
  {
    assert Ten(2) == 100 && Ten(4) == 10000;
    DigitsRead(d.day, 2);
    DigitsRead(d.year, 4);
    MonthNames(d.month);
    hide Digits, Read, Figures, Ten;
    Parts(Digits(d.day, 2), MONTHS[d.month - 1], Digits(d.year, 4));
  }

  lemma MonthNames(m: int)
    requires 1 <= m <= 12
    ensures |MONTHS[m - 1]| == 3
    ensures MONTHS[m - 1] == ["Jan", "Feb", "Mar", "Apr", "May", "Jun", "Jul", "Aug", "Sep", "Oct", "Nov", "Dec"][m - 1]
  {
  }

  lemma WrittenIsFormat(s: string, d: Date)
    requires d.Valid() && Written(s, d)
    ensures 0 <= d.year <= 9999 && FormatDate(d) == s
  {
    assert Ten(4) == 10000;
    ReadDigits(s[..2]);
    ReadDigits(s[7..]);
    MonthNames(d.month);
    hide Digits, Read, Figures, Ten;
    assert s == s[..2] + "-" + s[3..6] + "-" + s[7..];
  }

  /** A text names a note exactly when it is a day that exists, so written. */
  lemma NoteDates(s: string)
    ensures IsNoteDate(s) <==> exists d: Date :: d.Valid() && Written(s, d)
  {
    hide Written, FormatDate;
    if IsNoteDate(s) {
      var d: Date :| d.Valid() && 0 <= d.year <= 9999 && FormatDate(d) == s;
      FormatIsWritten(d);
    }
    if d: Date :| d.Valid() && Written(s, d) {
      WrittenIsFormat(s, d);
    }
  }

  /** Go's layout 2006-01-02. */
  function IsoDate(d: Date): string
    requires d.Valid() && 0 <= d.year <= 9999
  {
    Digits(d.year, 4) + "-" + Digits(d.month, 2) + "-" + Digits(d.day, 2)
  }

  ghost predicate IsIsoDate(s: string) {
    exists d: Date :: d.Valid() && 0 <= d.year <= 9999 && IsoDate(d) == s
  }
}
