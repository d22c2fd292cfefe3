/**
 Billing periods of an organization (api/db/organization_usage_client.py,
 `_calculate_current_period`), over the proleptic Gregorian calendar in UTC.
 */
module BillingPeriod {
  import opened Wrappers
  import opened Time

  // ---------- Calendar ----------

  datatype DateTime = DateTime(year: int, month: int, day: int, time: int) {
    /** `time` is microseconds since midnight. */
    predicate Valid() {
      1 <= month <= 12 && 1 <= day <= DaysInMonth(year, month) && 0 <= time < DAY
    }
  }

  predicate IsLeap(year: int) {
    year % 4 == 0 && (year % 100 != 0 || year % 400 == 0)
  }

  function DaysInMonth(year: int, month: int): int {
    if month == 2 then (if IsLeap(year) then 29 else 28)
    else if month == 4 || month == 6 || month == 9 || month == 11 then 30
    else 31
  }

  /** Days before 1 January of a year. */
  function DaysBeforeYear(year: int): int {
    var y := year - 1;
    365 * y + y / 4 - y / 100 + y / 400
  }

  function DaysBeforeMonth(year: int, month: int): int
    requires 1 <= month <= 13
    decreases month
  {
    if month == 1 then 0 else DaysBeforeMonth(year, month - 1) + DaysInMonth(year, month - 1)
  }

  function Ordinal(d: DateTime): int
    requires d.Valid()
  {
    DaysBeforeYear(d.year) + DaysBeforeMonth(d.year, d.month) + d.day
  }

  /** Microseconds on the time line. */
  function Instant(d: DateTime): int
    requires d.Valid()
  {
    Ordinal(d) * DAY + d.time
  }

  /** Lexicographic order of dates. */
  predicate Earlier(a: DateTime, b: DateTime) {
    || a.year < b.year
    || (a.year == b.year && a.month < b.month)
    || (a.year == b.year && a.month == b.month && a.day < b.day)
    || (a.year == b.year && a.month == b.month && a.day == b.day && a.time < b.time)
  }

  lemma {:induction false} MonthsAccumulate(year: int, m: int, n: int)
    requires 1 <= m < n <= 13
    ensures DaysBeforeMonth(year, m) + DaysInMonth(year, m) <= DaysBeforeMonth(year, n)
    decreases n
  {
    if m < n - 1 {
      MonthsAccumulate(year, m, n - 1);
    }
  }

  lemma QuotientStep(y: int, k: int)
    requires k in {4, 100, 400}
    ensures (y + 1) / k == y / k + if (y + 1) % k == 0 then 1 else 0
  {
  }

  lemma MonthsOfYear(year: int)
    ensures DaysBeforeMonth(year, 13) == if IsLeap(year) then 366 else 365
  {
    assert DaysBeforeMonth(year, 4) == DaysInMonth(year, 1) + DaysInMonth(year, 2) + DaysInMonth(year, 3);
    assert DaysBeforeMonth(year, 7) == DaysBeforeMonth(year, 4) + 91;
    assert DaysBeforeMonth(year, 10) == DaysBeforeMonth(year, 7) + 92;
    assert DaysBeforeMonth(year, 13) == DaysBeforeMonth(year, 10) + 92;
  }

  lemma LeapYearsCounted(year: int)
    ensures DaysBeforeYear(year + 1) - DaysBeforeYear(year) == if IsLeap(year) then 366 else 365
  {
    QuotientStep(year - 1, 4);
    QuotientStep(year - 1, 100);
    QuotientStep(year - 1, 400);
    CenturiesAreFourthYears(year);
  }

  lemma CenturiesAreFourthYears(year: int)
    ensures year % 100 == 0 ==> year % 4 == 0
    ensures year % 400 == 0 ==> year % 100 == 0
  {
    if year % 100 == 0 {
      MultipleOf(year, 4, 25 * (year / 100));
    }
    if year % 400 == 0 {
      MultipleOf(year, 100, 4 * (year / 400));
    }
  }

  lemma MultipleOf(n: int, k: int, q: int)
    requires k in {4, 100} && n == k * q
    ensures n % k == 0
  {
  }

  lemma YearLength(year: int)
    ensures DaysBeforeYear(year + 1) == DaysBeforeYear(year) + DaysBeforeMonth(year, 13)
    ensures DaysBeforeMonth(year, 13) > 0
  {
    LeapYearsCounted(year);
    MonthsOfYear(year);
  }

  lemma {:induction false} YearsAccumulate(y: int, z: int)
    requires y < z
    ensures DaysBeforeYear(y) + DaysBeforeMonth(y, 13) <= DaysBeforeYear(z)
    decreases z - y
  {
    YearLength(y);
    if y + 1 < z {
      YearLength(y + 1);
      YearsAccumulate(y + 1, z);
    }
  }

  /** Dates and instants are ordered alike, so the calendar may be read lexicographically. */
  lemma InstantOrder(a: DateTime, b: DateTime)
    requires a.Valid() && b.Valid()
    ensures Earlier(a, b) <==> Instant(a) < Instant(b)
    ensures a == b <==> Instant(a) == Instant(b)
  {
    if Earlier(a, b) {
      EarlierIsSmaller(a, b);
    } else if Earlier(b, a) {
      EarlierIsSmaller(b, a);
    }
  }

  lemma OrdinalWithinYear(d: DateTime)
    requires d.Valid()
    ensures DaysBeforeYear(d.year) < Ordinal(d) <= DaysBeforeYear(d.year) + DaysBeforeMonth(d.year, 13)
  {
    MonthsAccumulate(d.year, d.month, 13);
    if d.month > 1 {
      MonthsAccumulate(d.year, 1, d.month);
    }
  }

  lemma EarlierDayIsSmaller(a: DateTime, b: DateTime)
    requires a.Valid() && b.Valid() && Earlier(a.(time := 0), b.(time := 0))
    ensures Ordinal(a) < Ordinal(b)
  {
    if a.year < b.year {
      OrdinalWithinYear(a);
      OrdinalWithinYear(b);
      YearsAccumulate(a.year, b.year);
    } else if a.month < b.month {
      MonthsAccumulate(a.year, a.month, b.month);
    }
  }

  lemma LaterDayIsLater(m: int, s: int, n: int, t: int)
    requires m < n && s < DAY && 0 <= t
    ensures m * DAY + s < n * DAY + t
  {
    assert (n - m) * DAY >= DAY;
  }

  lemma EarlierIsSmaller(a: DateTime, b: DateTime)
    requires a.Valid() && b.Valid() && Earlier(a, b)
    ensures Instant(a) < Instant(b)
  {
    if Earlier(a.(time := 0), b.(time := 0)) {
      EarlierDayIsSmaller(a, b);
      LaterDayIsLater(Ordinal(a), a.time, Ordinal(b), b.time);
    } else {
      assert Ordinal(a) == Ordinal(b) && a.time < b.time;
    }
  }

  lemma NextDay(p: DateTime) returns (d: DateTime)
    requires p.Valid() && p.time == 0
    ensures d.Valid() && d.time == 0 && Ordinal(d) == Ordinal(p) + 1
  {
    if p.day < DaysInMonth(p.year, p.month) {
      d := p.(day := p.day + 1);
    } else if p.month < 12 {
      d := DateTime(p.year, p.month + 1, 1, 0);
    } else {
      YearLength(p.year);
      d := DateTime(p.year + 1, 1, 1, 0);
    }
  }

  lemma PreviousDay(s: DateTime) returns (d: DateTime)
    requires s.Valid() && s.time == 0
    ensures d.Valid() && d.time == 0 && Ordinal(d) == Ordinal(s) - 1
  {
    if s.day > 1 {
      d := s.(day := s.day - 1);
    } else if s.month > 1 {
      d := DateTime(s.year, s.month - 1, DaysInMonth(s.year, s.month - 1), 0);
    } else {
      YearLength(s.year - 1);
      d := DateTime(s.year - 1, 12, 31, 0);
    }
  }

  /** Every instant is a calendar date and time. */
  lemma {:induction false} EveryInstantHasADate(t: int) returns (d: DateTime)
    ensures d.Valid() && Instant(d) == t
  {
    var date := EveryDayHasADate(t / DAY);
    d := date.(time := t % DAY);
    assert Ordinal(d) == Ordinal(date);
  }

  lemma {:induction false} EveryDayHasADate(n: int) returns (d: DateTime)
    ensures d.Valid() && d.time == 0 && Ordinal(d) == n
    decreases if n >= 1 then n else 2 - n
  {
    if n == 1 {
      d := DateTime(1, 1, 1, 0);
    } else if n > 1 {
      var p := EveryDayHasADate(n - 1);
      d := NextDay(p);
    } else {
      var s := EveryDayHasADate(n + 1);
      d := PreviousDay(s);
    }
  }

  // ---------- Relative deltas and replacement ----------

  /** Adding years clamps the day to the length of the target month. */
  function AddYears(d: DateTime, n: int): DateTime {
    d.(year := d.year + n, day := Min(d.day, DaysInMonth(d.year + n, d.month)))
  }

  function PlusMonth(d: DateTime): DateTime {
    var (y, m) := if d.month == 12 then (d.year + 1, 1) else (d.year, d.month + 1);
    DateTime(y, m, Min(d.day, DaysInMonth(y, m)), d.time)
  }

  function MinusMonth(d: DateTime): DateTime {
    var (y, m) := if d.month == 1 then (d.year - 1, 12) else (d.year, d.month - 1);
    DateTime(y, m, Min(d.day, DaysInMonth(y, m)), d.time)
  }

  /** `replace(day=..., hour=0, ...)`, which rejects days the month does not have. */
  function AtMidnight(d: DateTime, day: int): Option<DateTime> {
    if 1 <= day <= DaysInMonth(d.year, d.month) then Some(DateTime(d.year, d.month, day, 0)) else None
  }

  // ---------- The current period ----------

  datatype Settings =
    | Monthly(resetDay: int)
    | CalendarYear
    | Annual(start: DateTime)

  datatype Period = Period(start: int, end: int)

  function UntilJustBefore(start: DateTime, next: DateTime): Period
    requires start.Valid() && next.Valid()
  {
    Period(Instant(start), Instant(next) - SECOND)
  }

  function MonthlyStart(resetDay: int, now: DateTime): Option<DateTime> {
    if now.day >= resetDay then AtMidnight(now, resetDay) else AtMidnight(MinusMonth(now), resetDay)
  }

  function YearsSince(start: DateTime, now: DateTime): int {
    if now.month < start.month || (now.month == start.month && now.day < start.day)
    then now.year - start.year - 1
    else now.year - start.year
  }

  /** None when the reset day does not exist in the month it is applied to. */
  function CurrentPeriod(settings: Settings, now: DateTime): Option<Period>
    requires now.Valid() && (settings.Annual? ==> settings.start.Valid())
  {
    match settings
    case Monthly(resetDay) =>
      (match MonthlyStart(resetDay, now)
       case None => None
       case Some(start) => Some(UntilJustBefore(start, PlusMonth(start))))
    case CalendarYear =>
      var start := DateTime(now.year, 1, 1, 0);
      Some(UntilJustBefore(start, AddYears(start, 1)))
    case Annual(first) =>
      var start := AddYears(first, YearsSince(first, now));
      Some(UntilJustBefore(start, AddYears(start, 1)))
  }

  // ---------- Tiling ----------

  ghost predicate Contains(p: Period, t: int) {
    p.start <= t < p.end + SECOND
  }

  /** The settings under which the periods partition time: the reset days every month has, any
      calendar year, and anniversaries at midnight that every year has. */
  predicate Regular(settings: Settings) {
    match settings
    case Monthly(resetDay) => 1 <= resetDay <= 28
    case CalendarYear => true
    case Annual(start) => start.Valid() && start.time == 0 && !(start.month == 2 && start.day == 29)
  }

  /** The first instant of the period after the one starting at `start`. */
  function NextStart(settings: Settings, start: DateTime): DateTime {
    if settings.Monthly? then PlusMonth(start) else AddYears(start, 1)
  }

  /** A possible period start under regular settings. */
  predicate IsBoundary(settings: Settings, d: DateTime)
    requires Regular(settings)
  {
    && d.Valid()
    && d.time == 0
    && match settings
       case Monthly(resetDay) => d.day == resetDay
       case CalendarYear => d.month == 1 && d.day == 1
       case Annual(start) => d.month == start.month && d.day == start.day
  }

  function StartOf(settings: Settings, now: DateTime): DateTime
    requires Regular(settings) && now.Valid()
    ensures IsBoundary(settings, StartOf(settings, now))
  {
    match settings
    case Monthly(resetDay) => MonthlyStart(resetDay, now).value
    case CalendarYear => DateTime(now.year, 1, 1, 0)
    case Annual(first) => AddYears(first, YearsSince(first, now))
  }

  /** Lexicographically: the start is the only boundary with `now` between it and its successor. */
  lemma StartBrackets(settings: Settings, now: DateTime, b: DateTime)
    requires Regular(settings) && now.Valid() && IsBoundary(settings, b)
    ensures IsBoundary(settings, NextStart(settings, b))
    ensures b == StartOf(settings, now) <==> !Earlier(now, b) && Earlier(now, NextStart(settings, b))
  {
  }

  lemma PeriodIsFromStart(settings: Settings, now: DateTime)
    requires Regular(settings) && now.Valid()
    ensures var b := StartOf(settings, now);
            && NextStart(settings, b).Valid()
            && CurrentPeriod(settings, now) == Some(UntilJustBefore(b, NextStart(settings, b)))
  {
    StartBrackets(settings, now, StartOf(settings, now));
  }

  /** Under regular settings every instant lies in its own period, and the period is the same for
      every instant it contains. */
  lemma PeriodsPartitionTime(settings: Settings, now: DateTime, other: DateTime)
    requires Regular(settings) && now.Valid() && other.Valid()
    ensures CurrentPeriod(settings, now).Some? && CurrentPeriod(settings, other).Some?
    ensures Contains(CurrentPeriod(settings, now).value, Instant(now))
    ensures Contains(CurrentPeriod(settings, now).value, Instant(other)) <==>
            CurrentPeriod(settings, other) == CurrentPeriod(settings, now)
  {
    var b, c := StartOf(settings, now), StartOf(settings, other);
    PeriodIsFromStart(settings, now);
    PeriodIsFromStart(settings, other);
    StartBrackets(settings, now, b);
    StartBrackets(settings, other, b);
    StartBrackets(settings, other, c);
    InstantOrder(now, b);
    InstantOrder(now, NextStart(settings, b));
    InstantOrder(other, b);
    InstantOrder(other, NextStart(settings, b));
    InstantOrder(b, c);
  }

  /** Under regular settings the next period starts exactly one second after the end. */
  lemma PeriodsAreAdjacent(settings: Settings, now: DateTime) returns (next: DateTime)
    requires Regular(settings) && now.Valid()
    ensures CurrentPeriod(settings, now).Some?
    ensures next.Valid() && Instant(next) == CurrentPeriod(settings, now).value.end + SECOND
    ensures CurrentPeriod(settings, next).Some? && CurrentPeriod(settings, next).value.start == Instant(next)
  {
    var b := StartOf(settings, now);
    PeriodIsFromStart(settings, now);
    next := NextStart(settings, b);
    StartBrackets(settings, now, b);
    StartBrackets(settings, next, next);
    PeriodIsFromStart(settings, next);
    InstantOrder(next, NextStart(settings, next));
    InstantOrder(next, next);
  }

  // ---------- How long the periods are ----------

  predicate IsLeapYear(year: int) {
    year % 400 == 0 || (year % 4 == 0 && year % 100 != 0)
  }

  /** Thirty days hath September, April, June and November. */
  function MonthLength(year: int, month: int): int {
    if month in {4, 6, 9, 11} then 30
    else if month == 2 then (if IsLeapYear(year) then 29 else 28)
    else 31
  }

  /** The dates are those of the Gregorian calendar. */
  lemma DatesAreGregorian(d: DateTime)
    ensures d.Valid() <==>
            && 1 <= d.month <= 12 && 1 <= d.day <= MonthLength(d.year, d.month)
            && 0 <= d.time < 86_400_000_000
  {
    MonthLengths(d.year, d.month);
  }

  lemma MonthLengths(year: int, month: int)
    ensures DaysInMonth(year, month) == MonthLength(year, month)
  {
    LeapYearsAgree(year);
  }

  lemma LeapYearsAgree(year: int)
    ensures IsLeapYear(year) <==> IsLeap(year)
  {
    CenturiesAreFourthYears(year);
  }

  lemma MonthApart(b: DateTime)
    requires b.Valid() && b.day <= 28
    ensures PlusMonth(b).Valid()
    ensures Instant(PlusMonth(b)) == Instant(b) + MonthLength(b.year, b.month) * 86_400_000_000
  {
    MonthLengths(b.year, b.month);
    if b.month == 12 {
      YearLength(b.year);
    }
  }

  lemma {:induction false} MonthsBeforeInOtherYear(y: int, z: int, m: int)
    requires 1 <= m <= 12
    ensures DaysBeforeMonth(z, m) - DaysBeforeMonth(y, m) ==
            if m <= 2 then 0 else MonthLength(z, 2) - MonthLength(y, 2)
    decreases m
  {
    if m > 1 {
      MonthsBeforeInOtherYear(y, z, m - 1);
      if m == 3 {
        MonthLengths(y, 2);
        MonthLengths(z, 2);
      }
      assert DaysBeforeMonth(y, m) == DaysBeforeMonth(y, m - 1) + DaysInMonth(y, m - 1);
      assert DaysBeforeMonth(z, m) == DaysBeforeMonth(z, m - 1) + DaysInMonth(z, m - 1);
    }
  }

  /** Days in the year from a date to its anniversary. */
  function YearSpan(b: DateTime): int {
    if IsLeapYear(if b.month <= 2 then b.year else b.year + 1) then 366 else 365
  }

  lemma OrdinalsAYearApart(b: DateTime)
    requires b.Valid() && !(b.month == 2 && b.day == 29)
    ensures AddYears(b, 1) == b.(year := b.year + 1) && AddYears(b, 1).Valid()
    ensures Ordinal(AddYears(b, 1)) == Ordinal(b) + YearSpan(b)
  {
    var n := DaysBeforeYear(b.year + 1) - DaysBeforeYear(b.year);
    LeapYearsCounted(b.year);
    LeapYearsAgree(b.year);
    MonthsBeforeInOtherYear(b.year, b.year + 1, b.month);
    assert n == if IsLeapYear(b.year) then 366 else 365;
  }

  lemma YearApart(b: DateTime)
    requires b.Valid() && !(b.month == 2 && b.day == 29)
    ensures AddYears(b, 1).Valid()
    ensures Instant(AddYears(b, 1)) == Instant(b) + YearSpan(b) * 86_400_000_000
  {
    OrdinalsAYearApart(b);
    var o, n := Ordinal(b), YearSpan(b);
    assert (o + n) * DAY == o * DAY + n * 86_400_000_000;
  }

  /** A monthly period starts at midnight on the reset day and ends one second short of as many days later
      as the month it starts in has. */
  lemma MonthlyPeriodsLastTheirMonth(resetDay: int, now: DateTime) returns (b: DateTime)
    requires 1 <= resetDay <= 28 && now.Valid()
    ensures b.Valid() && b.day == resetDay && b.time == 0
    ensures now.day >= resetDay ==> b.year == now.year && b.month == now.month
    ensures CurrentPeriod(Monthly(resetDay), now) ==
            Some(Period(Instant(b), Instant(b) + MonthLength(b.year, b.month) * 86_400_000_000 - 1_000_000))
    ensures Instant(b) <= Instant(now) < Instant(b) + MonthLength(b.year, b.month) * 86_400_000_000
  {
    b := StartOf(Monthly(resetDay), now);
    PeriodIsFromStart(Monthly(resetDay), now);
    PeriodsPartitionTime(Monthly(resetDay), now, now);
    MonthApart(b);
  }

  /** A calendar year runs from its 1 January for 365 or, in leap years, 366 days less one second. */
  lemma CalendarYearsLastAYear(now: DateTime) returns (b: DateTime)
    requires now.Valid()
    ensures b == DateTime(now.year, 1, 1, 0) && b.Valid()
    ensures var days := if IsLeapYear(now.year) then 366 else 365;
            CurrentPeriod(CalendarYear, now) == Some(Period(Instant(b), Instant(b) + days * 86_400_000_000 - 1_000_000))
  {
    b := StartOf(CalendarYear, now);
    PeriodIsFromStart(CalendarYear, now);
    YearApart(b);
  }

  /** An annual period starts on an anniversary and lasts 366 days exactly if it contains a 29 February. */
  lemma AnnualPeriodsLastAYear(start: DateTime, now: DateTime) returns (b: DateTime)
    requires Regular(Annual(start)) && now.Valid()
    ensures b.Valid() && b.month == start.month && b.day == start.day && b.time == 0
    ensures var days := if IsLeapYear(if b.month <= 2 then b.year else b.year + 1) then 366 else 365;
            && CurrentPeriod(Annual(start), now) ==
               Some(Period(Instant(b), Instant(b) + days * 86_400_000_000 - 1_000_000))
            && Instant(b) <= Instant(now) < Instant(b) + days * 86_400_000_000
  {
    b := StartOf(Annual(start), now);
    PeriodIsFromStart(Annual(start), now);
    PeriodsPartitionTime(Annual(start), now, now);
    YearApart(b);
  }

  // ---------- Irregular settings ----------

  /** The monthly calculation raises exactly when the reset day is no day of the month it is put into:
      below 1, or past the end of the previous month while this month has not reached it. */
  lemma MonthlyRaisesExactly(resetDay: int, now: DateTime)
    requires now.Valid()
    ensures CurrentPeriod(Monthly(resetDay), now).None? <==>
            || resetDay < 1
            || (now.day < resetDay
                && resetDay > MonthLength(if now.month == 1 then now.year - 1 else now.year,
                                          if now.month == 1 then 12 else now.month - 1))
  {
    MonthLengths(now.year, now.month);
    MonthLengths(MinusMonth(now).year, MinusMonth(now).month);
  }

  /** The instants an annual setting leaves outside their own period: before the anniversary's time
      on its day, and from that time on 28 February when the anniversary is 29 February. */
  predicate AnnualGap(start: DateTime, now: DateTime) {
    || (now.month == start.month && now.day == start.day && now.time < start.time)
    || (start.month == 2 && start.day == 29 && now.month == 2 && now.day == 28 && now.time >= start.time)
  }

  lemma AnnualBrackets(start: DateTime, now: DateTime)
    requires start.Valid() && now.Valid()
    ensures var b := AddYears(start, YearsSince(start, now));
            && b.Valid() && AddYears(b, 1).Valid()
            && (!Earlier(now, b) && Earlier(now, AddYears(b, 1)) <==> !AnnualGap(start, now))
  {
  }

  /** For any anniversary the computed period contains `now` exactly outside the gaps. */
  lemma AnnualCoversOutsideGaps(start: DateTime, now: DateTime)
    requires start.Valid() && now.Valid()
    ensures CurrentPeriod(Annual(start), now).Some?
    ensures Contains(CurrentPeriod(Annual(start), now).value, Instant(now)) <==> !AnnualGap(start, now)
  {
    var b := AddYears(start, YearsSince(start, now));
    AnnualBrackets(start, now);
    InstantOrder(now, b);
    InstantOrder(now, AddYears(b, 1));
  }

  /** `now` is billed in a period that contains it. */
  ghost predicate Covered(settings: Settings, now: DateTime)
    requires now.Valid() && (settings.Annual? ==> settings.start.Valid())
  {
    CurrentPeriod(settings, now).Some? && Contains(CurrentPeriod(settings, now).value, Instant(now))
  }

  ghost predicate CoversAllTime(settings: Settings)
    requires settings.Annual? ==> settings.start.Valid()
  {
    forall now: DateTime :: now.Valid() ==> Covered(settings, now)
  }

  /** An instant left uncovered by irregular settings. */
  lemma IrregularLeavesAGap(settings: Settings) returns (now: DateTime)
    requires !Regular(settings) && (settings.Annual? ==> settings.start.Valid())
    ensures now.Valid() && !Covered(settings, now)
  {
    match settings
    case Monthly(resetDay) =>
      // 28 February 2023 falls after the clamped end of the period of a late reset day.
      now := DateTime(2023, 2, 28, 0);
      if 29 <= resetDay <= 31 {
        InstantOrder(now, PlusMonth(DateTime(2023, 1, resetDay, 0)));
      }
    case Annual(start) =>
      now := if start.time > 0 then start.(time := 0) else DateTime(2023, 2, 28, 0);
      AnnualCoversOutsideGaps(start, now);
  }

  /** The periods cover all time exactly under regular settings: the bound 1..28 on the reset day,
      and a midnight anniversary other than 29 February, are both needed and enough. */
  lemma CoversAllTimeIffRegular(settings: Settings)
    requires settings.Annual? ==> settings.start.Valid()
    ensures CoversAllTime(settings) <==> Regular(settings)
  {
    if Regular(settings) {
      forall now: DateTime | now.Valid() ensures Covered(settings, now) {
        PeriodsPartitionTime(settings, now, now);
      }
    } else {
      var now := IrregularLeavesAGap(settings);
      assert !Covered(settings, now);
    }
  }
}
