/** Reminder schedules (notifications/scheduler.go): the next fire time.
    Instants are nanoseconds from midnight of day 0; the zone is a fixed offset. */
module Scheduler {
  import opened Calendar
  import opened Options

  datatype Kind = Once | Daily | Weekly | Monthly | Yearly | CustomDays | Unknown

  /** Schedule parameters; an absent one takes the default of its use. */
  datatype Params = Params(hour: Option<int>, minute: Option<int>, days: Option<seq<int>>,
                           dayOfMonth: Option<int>, month: Option<int>, day: Option<int>,
                           intervalDays: Option<int>)
  {
    predicate ValidClock() {
      0 <= hour.GetOr(9) < 24 && 0 <= minute.GetOr(0) < 60
    }
  }

  const MINUTE: int := 60_000_000_000
  const HOUR: int := 60 * MINUTE
  const DAY: int := 24 * HOUR

  /** The wall-clock instant of the schedule on a day. */
  function At(p: Params, day: int): int {
    day * DAY + p.hour.GetOr(9) * HOUR + p.minute.GetOr(0) * MINUTE
  }

  /** Monday is 0; day 0 was a Saturday. */
  function Weekday(day: int): int {
    (day + 5) % 7
  }

  /** The days a schedule names. */
  predicate Matches(kind: Kind, p: Params, day: int) {
    match kind
    case Daily => true
    case Weekly => Weekday(day) in p.days.GetOr([0])
    case Monthly => DateOf(day).day == p.dayOfMonth.GetOr(1)
    case Yearly => DateOf(day).month == p.month.GetOr(1) && DateOf(day).day == p.day.GetOr(1)
    case _ => false
  }

  /** `next` is the least occurrence strictly after `after`; there is none at
      all after it when `next` is absent. */
  ghost predicate IsNext(kind: Kind, p: Params, after: int, next: Option<int>) {
    match next
    case Some(t) =>
      after < t
      && (exists day :: Matches(kind, p, day) && t == At(p, day))
      && (forall day :: Matches(kind, p, day) && after < At(p, day) ==> t <= At(p, day))
    case None =>
      forall day :: Matches(kind, p, day) ==> At(p, day) <= after
  }

  /** Whether the schedule names any day of any year. */
  predicate Satisfiable(kind: Kind, p: Params) {
    match kind
    case Daily => true
    case Weekly => exists w :: 0 <= w < 7 && w in p.days.GetOr([0])
    case Monthly => 1 <= p.dayOfMonth.GetOr(1) <= 31
    case Yearly =>
      var m := p.month.GetOr(1);
      // 29 February exists, in leap years
      1 <= m <= 12 && 1 <= p.day.GetOr(1) <= DaysInMonth(4, m)
    case _ => false
  }

  lemma AtOrder(p: Params, a: int, b: int)
    requires p.ValidClock()
    ensures a < b <==> At(p, a) < At(p, b)
    ensures At(p, a) / DAY == a
  {
    var clock := p.hour.GetOr(9) * HOUR + p.minute.GetOr(0) * MINUTE;
    assert 0 <= clock < DAY;
  }

  // ---------------------------------------------------------------- safeDate

  /** nil for a day the month does not have. */
  function SafeDate(year: int, month: int, day: int, p: Params): (t: Option<int>)
    ensures t.Some? <==> Date(year, month, day).Valid()
    ensures t.Some? ==> t.value == At(p, Date(year, month, day).Number())
  {
    var daysInMonth := DateOf(GoDay(year, month + 1, 0)).day;
    if 1 <= month <= 12 then
      LastDayOfMonth(year, month);
      if day > daysInMonth || day < 1 then None
      else
        GoDayOfDate(Date(year, month, day));
        Some(At(p, GoDay(year, month, day)))
    else None
  }

  // ------------------------------------------------------------ scan bounds

  /** Of any two months in a row, one has 31 days. */
  lemma LongMonthSoon(y: int, m: int)
    requires 1 <= m <= 12
    ensures DaysInMonth(y, m) == 31 || (m < 12 && DaysInMonth(y, m + 1) == 31)
  {
  }

  /** Leap years are at most eight years apart, also across a century. */
  lemma LeapSoon(y: int) returns (i: int)
    ensures 1 <= i <= 8 && IsLeap(y + i)
  {
    i := 4 - y % 4;
    if !IsLeap(y + i) {
      assert (y + i) % 100 == 0;
      i := i + 4;
    }
  }

  lemma YearlyDate(p: Params, y: int) returns (i: int)
    requires Satisfiable(Yearly, p)
    ensures 1 <= i <= 8 && Date(y + i, p.month.GetOr(1), p.day.GetOr(1)).Valid()
  {
    i := LeapSoon(y);
  }

  lemma YearlyMatches(p: Params, day: int)
    requires Matches(Yearly, p, day)
    ensures Satisfiable(Yearly, p)
    ensures var d := Date(DateOf(day).year, p.month.GetOr(1), p.day.GetOr(1));
            d.Valid() && d.Number() == day
  {
    assert DaysInMonth(DateOf(day).year, p.month.GetOr(1)) <= DaysInMonth(4, p.month.GetOr(1));
  }

  // ---------------------------------------------------------- scan progress

  /** No occurrence after `after` falls before day `hi`. */
  ghost predicate Scanned(kind: Kind, p: Params, after: int, hi: int) {
    p.ValidClock() ==> forall d :: Matches(kind, p, d) && d < hi ==> At(p, d) <= after
  }

  lemma ScanStart(kind: Kind, p: Params, after: int, hi: int)
    requires hi <= after / DAY
    ensures Scanned(kind, p, after, hi)
  {
    if p.ValidClock() {
      forall d | Matches(kind, p, d) && d < hi ensures At(p, d) <= after {
        AtOrder(p, d, after / DAY);
      }
    }
  }

  lemma ScanFound(kind: Kind, p: Params, after: int, hi: int, day: int)
    requires Scanned(kind, p, after, hi) && Matches(kind, p, day) && after < At(p, day)
    requires forall d :: hi <= d < day ==> !Matches(kind, p, d)
    ensures p.ValidClock() ==> IsNext(kind, p, after, Some(At(p, day)))
  {
    if p.ValidClock() {
      forall d | Matches(kind, p, d) && after < At(p, d) ensures At(p, day) <= At(p, d) {
        AtOrder(p, d, day);
        assert !(d < hi);
      }
    }
  }

  lemma AtLater(p: Params, after: int, day: int)
    requires p.ValidClock() && after / DAY < day
    ensures At(p, day) > after
  {
    AtOrder(p, after / DAY, day);
  }

  function NextMonth(y: int, m: int): (d: Date)
    requires 1 <= m <= 12
    ensures d.Valid()
  {
    if m < 12 then Date(y, m + 1, 1) else Date(y + 1, 1, 1)
  }

  /** The days of a month and no others lie between its first day and the next month's. */
  lemma DaysOfMonth(y: int, m: int, d: Date)
    requires 1 <= m <= 12 && d.Valid()
    requires Date(y, m, 1).Number() <= d.Number() < NextMonth(y, m).Number()
    ensures d.year == y && d.month == m
  {
    NumberOrder(d, Date(y, m, 1));
    NumberOrder(d, NextMonth(y, m));
  }

  lemma MonthScanned(p: Params, after: int, y: int, m: int)
    requires 1 <= m <= 12 && Scanned(Monthly, p, after, Date(y, m, 1).Number())
    requires var d := Date(y, m, p.dayOfMonth.GetOr(1)); d.Valid() ==> At(p, d.Number()) <= after
    ensures Scanned(Monthly, p, after, NextMonth(y, m).Number())
  {
    forall d | Date(y, m, 1).Number() <= d < NextMonth(y, m).Number() && Matches(Monthly, p, d)
      ensures At(p, d) <= after
    {
      DaysOfMonth(y, m, DateOf(d));
      assert DateOf(d) == Date(y, m, p.dayOfMonth.GetOr(1));
    }
  }

  lemma MonthFound(p: Params, after: int, y: int, m: int)
    requires 1 <= m <= 12 && Scanned(Monthly, p, after, Date(y, m, 1).Number())
    requires var d := Date(y, m, p.dayOfMonth.GetOr(1)); d.Valid() && after < At(p, d.Number())
    ensures var d := Date(y, m, p.dayOfMonth.GetOr(1));
            p.ValidClock() ==> IsNext(Monthly, p, after, Some(At(p, d.Number()))) && Satisfiable(Monthly, p)
  {
    var found := Date(y, m, p.dayOfMonth.GetOr(1));
    NumberOrder(found, NextMonth(y, m));
    DateOfNumber(found);
    forall d | Date(y, m, 1).Number() <= d < found.Number() ensures !Matches(Monthly, p, d) {
      DaysOfMonth(y, m, DateOf(d));
      NumberOrder(DateOf(d), found);
    }
    ScanFound(Monthly, p, after, Date(y, m, 1).Number(), found.Number());
  }

  /** The months scanned from today's include one that has the day. */
  lemma MonthlySoon(p: Params, after: int, today: Date) returns (d: Date)
    requires p.ValidClock() && Satisfiable(Monthly, p) && today == DateOf(after / DAY)
    ensures d.Valid() && d.day == p.dayOfMonth.GetOr(1) && after < At(p, d.Number())
    ensures today.year * 12 + today.month < d.year * 12 + d.month <= today.year * 12 + today.month + 2
  {
    var y := if today.month < 12 then today.year else today.year + 1;
    var m := if today.month < 12 then today.month + 1 else 1;
    LongMonthSoon(y, m);
    d := Date(y, if DaysInMonth(y, m) == 31 then m else m + 1, p.dayOfMonth.GetOr(1));
    NumberOrder(today, d);
    AtLater(p, after, d.Number());
  }

  lemma YearScanned(p: Params, after: int, y: int)
    requires Scanned(Yearly, p, after, Date(y, 1, 1).Number())
    requires var d := Date(y, p.month.GetOr(1), p.day.GetOr(1)); d.Valid() ==> At(p, d.Number()) <= after
    ensures Scanned(Yearly, p, after, Date(y + 1, 1, 1).Number())
  {
    forall d | Date(y, 1, 1).Number() <= d < Date(y + 1, 1, 1).Number() && Matches(Yearly, p, d)
      ensures At(p, d) <= after
    {
      NumberOrder(DateOf(d), Date(y, 1, 1));
      NumberOrder(DateOf(d), Date(y + 1, 1, 1));
      assert DateOf(d) == Date(y, p.month.GetOr(1), p.day.GetOr(1));
    }
  }

  lemma YearFound(p: Params, after: int, y: int)
    requires Scanned(Yearly, p, after, Date(y, 1, 1).Number())
    requires var d := Date(y, p.month.GetOr(1), p.day.GetOr(1)); d.Valid() && after < At(p, d.Number())
    ensures var d := Date(y, p.month.GetOr(1), p.day.GetOr(1));
            p.ValidClock() ==> IsNext(Yearly, p, after, Some(At(p, d.Number()))) && Satisfiable(Yearly, p)
  {
    var found := Date(y, p.month.GetOr(1), p.day.GetOr(1));
    DateOfNumber(found);
    YearlyMatches(p, found.Number());
    forall d | Date(y, 1, 1).Number() <= d < found.Number() ensures !Matches(Yearly, p, d) {
      NumberOrder(DateOf(d), Date(y, 1, 1));
      NumberOrder(DateOf(d), found);
    }
    ScanFound(Yearly, p, after, Date(y, 1, 1).Number(), found.Number());
  }

  // ------------------------------------------------ occurrences on the calendar

  /** 1 January 1970 was a Thursday, and the weekdays take turns. */
  lemma WeekdayAnchor()
    ensures Weekday(Date(1970, 1, 1).Number()) == 3
  {
    DaysBeforeYearIs(1970);
    hide DaysBeforeYear;
    assert Date(1970, 1, 1).Number() == DaysBeforeYear(1970) == 719528;
  }

  lemma WeekdaysTakeTurns(day: int)
    ensures Weekday(day + 1) == (Weekday(day) + 1) % 7
  {
  }

  /** A weekday counted from that Thursday, Monday being 0. */
  function DayOfWeek(d: Date): int
    requires 1 <= d.month <= 12
  {
    (d.Number() - Date(1970, 1, 1).Number() + 3) % 7
  }

  lemma WeekdayByAnchor(d: Date)
    requires 1 <= d.month <= 12
    ensures Weekday(d.Number()) == DayOfWeek(d)
  {
    WeekdayAnchor();
    hide Date.Number;
    SameRemainder(d.Number() + 5, Date(1970, 1, 1).Number() + 5);
  }

  lemma SameRemainder(a: int, b: int)
    requires b % 7 == 3
    ensures a % 7 == (a - b + 3) % 7
  {
    var q := b / 7;
    assert a - b + 3 == a - 7 * q;
  }

  /** The dates a schedule names: each day; its weekdays, Mondays if it gives none; its day
      of the month, the first if it gives none; its day of the year. */
  predicate OnDate(kind: Kind, p: Params, d: Date)
    requires 1 <= d.month <= 12
  {
    match kind
    case Daily => true
    case Weekly => if p.days.Some? then DayOfWeek(d) in p.days.value else DayOfWeek(d) == 0
    case Monthly => d.day == if p.dayOfMonth.Some? then p.dayOfMonth.value else 1
    case Yearly => d.month == (if p.month.Some? then p.month.value else 1) && d.day == (if p.day.Some? then p.day.value else 1)
    case _ => false
  }

  /** The instant in UTC of the schedule's clock time, nine o'clock if it gives none, on a
      date of a calendar `tz` hours east. */
  function InstantOn(p: Params, d: Date, tz: int): int
    requires 1 <= d.month <= 12
  {
    var hour := if p.hour.Some? then p.hour.value else 9;
    var minute := if p.minute.Some? then p.minute.value else 0;
    (((d.Number() * 24 + hour - tz) * 60) + minute) * 60_000_000_000
  }

  ghost predicate OccursOn(kind: Kind, p: Params, tz: int, t: int, d: Date) {
    d.Valid() && OnDate(kind, p, d) && t == InstantOn(p, d, tz)
  }

  /** The schedule fires at this instant of some date that exists. */
  ghost predicate Occurs(kind: Kind, p: Params, tz: int, t: int) {
    exists d: Date :: OccursOn(kind, p, tz, t, d)
  }

  /** The first occurrence after an instant, or none when there is not a single one. */
  ghost predicate IsFirstAfter(kind: Kind, p: Params, tz: int, after: int, next: Option<int>) {
    match next
    case Some(t) => after < t && Occurs(kind, p, tz, t) && forall u :: Occurs(kind, p, tz, u) && after < u ==> t <= u
    case None => forall u :: !Occurs(kind, p, tz, u)
  }

  lemma InstantIs(p: Params, d: Date, tz: int)
    requires 1 <= d.month <= 12
    ensures InstantOn(p, d, tz) == At(p, d.Number()) - tz * HOUR
  {
    hide Date.Number;
  }

  lemma OnDateMatches(kind: Kind, p: Params, d: Date)
    requires d.Valid()
    ensures OnDate(kind, p, d) <==> Matches(kind, p, d.Number())
  {
    WeekdayByAnchor(d);
    DateOfNumber(d);
    hide Date.Number, Weekday, DayOfWeek, DateOf;
  }

  lemma OccursMatches(kind: Kind, p: Params, tz: int, t: int)
    requires Occurs(kind, p, tz, t)
    ensures exists day :: Matches(kind, p, day) && t + tz * HOUR == At(p, day)
  {
    var d: Date :| OccursOn(kind, p, tz, t, d);
    OnDateMatches(kind, p, d);
    InstantIs(p, d, tz);
    hide Date.Number, OnDate, Matches, At, InstantOn;
    assert Matches(kind, p, d.Number());
  }

  lemma MatchesOccurs(kind: Kind, p: Params, tz: int, day: int)
    requires Matches(kind, p, day)
    ensures Occurs(kind, p, tz, At(p, day) - tz * HOUR)
  {
    var d := DateOf(day);
    assert d.Valid() && d.Number() == day;
    OnDateMatches(kind, p, d);
    InstantIs(p, d, tz);
    hide Date.Number, OnDate, Matches, At, InstantOn, DateOf;
    assert OccursOn(kind, p, tz, At(p, day) - tz * HOUR, d);
  }

  lemma NextIsFirst(kind: Kind, p: Params, tz: int, after: int, next: Option<int>)
    requires p.ValidClock() && IsNext(kind, p, after + tz * HOUR, if next.Some? then Some(next.value + tz * HOUR) else None)
    requires next.Some? <==> Satisfiable(kind, p)
    ensures IsFirstAfter(kind, p, tz, after, next)
  {
    hide Matches, At, Occurs, Satisfiable;
    if next.Some? {
      var day :| Matches(kind, p, day) && next.value + tz * HOUR == At(p, day);
      MatchesOccurs(kind, p, tz, day);
      forall u | Occurs(kind, p, tz, u) && after < u ensures next.value <= u {
        OccursMatches(kind, p, tz, u);
      }
    } else {
      forall u ensures !Occurs(kind, p, tz, u) {
        if Occurs(kind, p, tz, u) {
          OccursMatches(kind, p, tz, u);
          var day :| Matches(kind, p, day) && u + tz * HOUR == At(p, day);
          MatchesSatisfiable(kind, p, day);
        }
      }
    }
  }

  lemma MatchesSatisfiable(kind: Kind, p: Params, day: int)
    requires Matches(kind, p, day)
    ensures Satisfiable(kind, p)
  {
    if kind.Yearly? {
      YearlyMatches(p, day);
    } else if kind.Weekly? {
      assert 0 <= Weekday(day) < 7;
    } else if kind.Monthly? {
      MonthDay(DateOf(day));
    }
  }

  lemma MonthDay(d: Date)
    requires d.Valid()
    ensures 1 <= d.day <= 31
  {
  }

  // ---------------------------------------------------------- ComputeNextFire

  /** Today's clock time, or tomorrow's once today's has passed. */
  method Upcoming(p: Params, after: int) returns (candidate: int, ghost day: int)
    ensures candidate == At(p, day)
    ensures day == if At(p, after / DAY) > after then after / DAY else after / DAY + 1
    ensures p.ValidClock() ==> candidate > after
    ensures forall kind :: Scanned(kind, p, after, day)
  {
    candidate := At(p, after / DAY);
    day := after / DAY;
    forall kind: Kind ensures Scanned(kind, p, after, day) { ScanStart(kind, p, after, day); }
    if !(candidate > after) {
      candidate := candidate + DAY;
      day := day + 1;
    }
    if p.ValidClock() { AtOrder(p, after / DAY, day); }
  }

  /** Weekdays are looked for on the local clock, which runs as if in a zone of its own. */
  method NextWeekly(p: Params, after: int) returns (next: Option<int>)
    ensures p.ValidClock() ==> IsNext(Weekly, p, after, next) && IsFirstAfter(Weekly, p, 0, after, next)
    ensures p.ValidClock() ==> (next.Some? <==> Satisfiable(Weekly, p))
  {
    hide IsFirstAfter, Satisfiable;
    var candidate, first := Upcoming(p, after);
    var days := p.days.GetOr([0]);
    ghost var day := first;
    for i := 0 to 7
      invariant day == first + i && candidate == At(p, day)
      invariant p.ValidClock() ==> candidate > after
      invariant Scanned(Weekly, p, after, first)
      invariant p.ValidClock() ==> forall d :: first <= d < day ==> !Matches(Weekly, p, d)
    {
      var wd := Weekday(candidate / DAY);
      if p.ValidClock() { AtOrder(p, day, day); }
      if wd in days {
        if p.ValidClock() {
          ScanFound(Weekly, p, after, first, day);
          MatchesSatisfiable(Weekly, p, day);
          NextIsFirst(Weekly, p, 0, after, Some(candidate));
        }
        return Some(candidate);
      }
      candidate, day := candidate + DAY, day + 1;
    }
    if p.ValidClock() {
      NoWeekday(p, first);
      NextIsFirst(Weekly, p, 0, after, None);
    }
    return None;
  }

  lemma NoWeekday(p: Params, first: int)
    requires forall d :: first <= d < first + 7 ==> !Matches(Weekly, p, d)
    ensures !Satisfiable(Weekly, p) && forall d :: !Matches(Weekly, p, d)
  {
    forall w | 0 <= w < 7 ensures w !in p.days.GetOr([0]) {
      var d := first + (w - Weekday(first)) % 7;
      assert Weekday(d) == w;
      assert !Matches(Weekly, p, d);
    }
  }

  /** A day is not before the start of its month and of its year. */
  lemma StartsBefore(day: int)
    ensures var d := DateOf(day);
      1 <= d.month <= 12 && Date(d.year, d.month, 1).Number() <= day && Date(d.year, 1, 1).Number() <= day
  {
    var d := DateOf(day);
    NumberOrder(Date(d.year, d.month, 1), d);
    NumberOrder(Date(d.year, 1, 1), d);
  }

  /** One month of the scan: its occurrence, or the next month is reached. */
  ghost predicate MonthDone(p: Params, after: int, y: int, m: int, t: Option<int>)
    requires 1 <= m <= 12
  {
    if t.Some? && t.value > after then p.ValidClock() ==> IsNext(Monthly, p, after, t) && Satisfiable(Monthly, p)
    else Scanned(Monthly, p, after, (if m < 12 then Date(y, m + 1, 1) else Date(y + 1, 1, 1)).Number())
  }

  lemma MonthStep(p: Params, after: int, y: int, m: int)
    requires 1 <= m <= 12 && Scanned(Monthly, p, after, Date(y, m, 1).Number())
    ensures MonthDone(p, after, y, m, SafeDate(y, m, p.dayOfMonth.GetOr(1), p))
  {
    var t := SafeDate(y, m, p.dayOfMonth.GetOr(1), p);
    hide SafeDate, IsNext, Scanned, Satisfiable, At, Date.Number, Date.Valid;
    if t.Some? && t.value > after { MonthFound(p, after, y, m); } else { MonthScanned(p, after, y, m); }
  }

  method NextMonthly(p: Params, after: int) returns (next: Option<int>)
    ensures p.ValidClock() ==> IsNext(Monthly, p, after, next)
    ensures p.ValidClock() ==> (next.Some? <==> Satisfiable(Monthly, p))
  {
    hide SafeDate, IsNext, Scanned, Satisfiable, At, DateOf, Date.Number;
    var today := DateOf(after / DAY);
    var dayOfMonth := p.dayOfMonth.GetOr(1);
    var year, month := today.year, today.month;
    StartsBefore(after / DAY);
    ScanStart(Monthly, p, after, Date(year, month, 1).Number());
    for i := 0 to 12
      invariant 1 <= month <= 12 && year * 12 + month == today.year * 12 + today.month + i
      invariant Scanned(Monthly, p, after, Date(year, month, 1).Number())
    {
      var t := SafeDate(year, month, dayOfMonth, p);
      MonthStep(p, after, year, month);
      if t.Some? && t.value > after {
        return t;
      }
      month := month + 1;
      if month > 12 {
        month, year := 1, year + 1;
      }
    }
    MonthlyExhausted(p, after, today, Date(year, month, 1));
    return None;
  }

  lemma MonthlyExhausted(p: Params, after: int, today: Date, hi: Date)
    requires today == DateOf(after / DAY) && hi.Valid() && Scanned(Monthly, p, after, hi.Number())
    requires hi.year * 12 + hi.month == today.year * 12 + today.month + 12
    ensures p.ValidClock() ==> IsNext(Monthly, p, after, None) && !Satisfiable(Monthly, p)
  {
    if p.ValidClock() {
      if Satisfiable(Monthly, p) {
        var d := MonthlySoon(p, after, today);
        MonthlyInScan(p, after, hi, d);
      }
      assert forall d :: !Matches(Monthly, p, d);
    }
  }

  lemma MonthlyInScan(p: Params, after: int, hi: Date, d: Date)
    requires p.ValidClock() && hi.Valid() && Scanned(Monthly, p, after, hi.Number())
    requires d.Valid() && d.day == p.dayOfMonth.GetOr(1) && d.year * 12 + d.month < hi.year * 12 + hi.month
    ensures At(p, d.Number()) <= after
  {
    NumberOrder(d, hi);
    DateOfNumber(d);
    assert Matches(Monthly, p, d.Number());
  }

  method NextYearly(p: Params, after: int) returns (next: Option<int>)
    ensures p.ValidClock() ==> IsNext(Yearly, p, after, next)
    ensures p.ValidClock() ==> (next.Some? <==> Satisfiable(Yearly, p))
  {
    var today := DateOf(after / DAY);
    var month, day := p.month.GetOr(1), p.day.GetOr(1);
    StartsBefore(after / DAY);
    hide IsNext, Scanned, Satisfiable, At, DateOf, Date.Number;
    ScanStart(Yearly, p, after, Date(today.year, 1, 1).Number());
    for i := 0 to 100
      invariant Scanned(Yearly, p, after, Date(today.year + i, 1, 1).Number())
    {
      var t := SafeDate(today.year + i, month, day, p);
      if t.Some? && t.value > after {
        YearFound(p, after, today.year + i);
        return t;
      }
      YearScanned(p, after, today.year + i);
    }
    YearlyExhausted(p, after, today);
    return None;
  }

  lemma YearlyExhausted(p: Params, after: int, today: Date)
    requires today == DateOf(after / DAY)
    requires Scanned(Yearly, p, after, Date(today.year + 100, 1, 1).Number())
    ensures p.ValidClock() ==> IsNext(Yearly, p, after, None) && !Satisfiable(Yearly, p)
  {
    if p.ValidClock() {
      if Satisfiable(Yearly, p) {
        var i := YearlyDate(p, today.year);
        YearlyInScan(p, after, today, today.year + i);
      }
      forall d ensures !Matches(Yearly, p, d) {
        if Matches(Yearly, p, d) { YearlyMatches(p, d); }
      }
    }
  }

  lemma YearlyInScan(p: Params, after: int, today: Date, y: int)
    requires p.ValidClock() && today == DateOf(after / DAY) && today.year < y < today.year + 100
    requires Date(y, p.month.GetOr(1), p.day.GetOr(1)).Valid()
    ensures !Scanned(Yearly, p, after, Date(today.year + 100, 1, 1).Number())
  {
    var d := Date(y, p.month.GetOr(1), p.day.GetOr(1));
    NumberOrder(today, d);
    NumberOrder(d, Date(today.year + 100, 1, 1));
    AtLater(p, after, d.Number());
    DateOfNumber(d);
    assert Matches(Yearly, p, d.Number());
  }

  /** An interval schedule fires at today's clock time while that is ahead, and
      otherwise that many days later, which is in the future exactly when the
      interval is positive. */
  ghost predicate IsInterval(p: Params, after: int, next: int) {
    var today, n := after / DAY, p.intervalDays.GetOr(1);
    && next == At(p, if At(p, today) > after then today else today + n)
    && (p.ValidClock() ==> (next > after <==> At(p, today) > after || n >= 1))
  }

  method NextDaily(p: Params, after: int) returns (next: Option<int>)
    ensures p.ValidClock() ==> IsNext(Daily, p, after, next) && next.Some? && Satisfiable(Daily, p)
  {
    var candidate, day := Upcoming(p, after);
    next := Some(candidate);
    if p.ValidClock() { ScanFound(Daily, p, after, day, day); }
  }

  method NextInterval(p: Params, after: int) returns (next: Option<int>)
    ensures next.Some? && IsInterval(p, after, next.value)
  {
    var candidate := At(p, after / DAY);
    if !(candidate > after) {
      candidate := candidate + p.intervalDays.GetOr(1) * DAY;
    }
    next := Some(candidate);
    if p.ValidClock() { AtOrder(p, after / DAY, after / DAY + p.intervalDays.GetOr(1)); }
  }

  /** The next fire time after `afterUtc` in the zone `tz` hours east. */
  method ComputeNextFire(kind: Kind, p: Params, afterUtc: int, tz: int) returns (next: Option<int>)
    ensures kind in {Once, Unknown} ==> next == None
    // calendar schedules: the successor of afterUtc among the occurrences, and
    // nothing exactly when the schedule names no day that ever exists
    ensures kind in {Daily, Weekly, Monthly, Yearly} && p.ValidClock() ==>
      && IsNext(kind, p, afterUtc + tz * HOUR, if next.Some? then Some(next.value + tz * HOUR) else None)
      && (next.Some? <==> Satisfiable(kind, p))
    // as the calendar has it: the first instant of a date so named
    ensures kind in {Daily, Weekly, Monthly, Yearly} && p.ValidClock() ==> IsFirstAfter(kind, p, tz, afterUtc, next)
    // interval schedules: today's clock time when still ahead, else that many days on
    ensures kind == CustomDays ==> next.Some? && IsInterval(p, afterUtc + tz * HOUR, next.value + tz * HOUR)
  {
    hide IsNext, Satisfiable, IsInterval, IsFirstAfter;
    var after := afterUtc + tz * HOUR;
    var local: Option<int> := None;
    match kind {
      case Once => return None;
      case Daily => local := NextDaily(p, after);
      case Weekly => local := NextWeekly(p, after);
      case Monthly => local := NextMonthly(p, after);
      case Yearly => local := NextYearly(p, after);
      case CustomDays => local := NextInterval(p, after);
      case Unknown => return None;
    }
    next := if local.None? then None else Some(local.value - tz * HOUR);
    if kind in {Daily, Weekly, Monthly, Yearly} && p.ValidClock() {
      NextIsFirst(kind, p, tz, afterUtc, next);
    }
  }
}
