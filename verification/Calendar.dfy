/** Spending windows on a plain civil calendar: local time in milliseconds since 1970-01-01 00:00. */
module Calendar {

  const DAY: nat := 86400000

  predicate Leap(year: nat) { year % 4 == 0 && (year % 100 != 0 || year % 400 == 0) }

  /** Months are counted from January 1970. */
  function DaysInMonth(k: nat): (d: nat)
    ensures 28 <= d <= 31
  {
    match k % 12
    case 1 => if Leap(1970 + k / 12) then 29 else 28
    case 3 => 30
    case 5 => 30
    case 8 => 30
    case 10 => 30
    case _ => 31
  }

  /** The day number of the first of month `k`. */
  function MonthStart(k: nat): nat { if k == 0 then 0 else MonthStart(k - 1) + DaysInMonth(k - 1) }

  function MonthFrom(day: nat, k: nat): (m: nat)
    requires MonthStart(k) <= day
    ensures MonthStart(m) <= day < MonthStart(m + 1)
    decreases day - MonthStart(k)
  {
    if day < MonthStart(k + 1) then k else MonthFrom(day, k + 1)
  }

  /** The month that contains a day. */
  function MonthOf(day: nat): (m: nat)
    ensures MonthStart(m) <= day < MonthStart(m + 1)
  {
    MonthFrom(day, 0)
  }

  lemma {:induction false} MonthStartMonotone(j: nat, k: nat)
    requires j < k
    ensures MonthStart(j) < MonthStart(k)
  {
    if j < k - 1 { MonthStartMonotone(j, k - 1); }
  }

  lemma MonthUnique(day: nat, k: nat)
    requires MonthStart(k) <= day < MonthStart(k + 1)
    ensures MonthOf(day) == k
  {
    var m := MonthOf(day);
    if m < k { if m + 1 < k { MonthStartMonotone(m + 1, k); } }
    if k < m { if k + 1 < m { MonthStartMonotone(k + 1, m); } }
  }

  // ----- The Date getters and the constructor ---------------------------------------------------

  function DayOf(t: nat): nat { t / DAY }

  function GetFullYear(t: nat): nat { 1970 + MonthOf(DayOf(t)) / 12 }

  function GetMonth(t: nat): nat { MonthOf(DayOf(t)) % 12 }

  function GetDate(t: nat): nat { DayOf(t) - MonthStart(MonthOf(DayOf(t))) + 1 }

  /** 0 is Sunday; 1970-01-01 was a Thursday. */
  function GetDay(t: nat): nat { (DayOf(t) + 4) % 7 }

  /** Midnight of the given day; month 12 is January of the next year, and days run over. */
  function NewDate(year: nat, month: nat, date: int): int
    requires year >= 1970
  {
    (MonthStart(12 * (year - 1970) + month) + date - 1) * DAY
  }

  // ----- The windows ------------------------------------------------------------------------------

  datatype Period = Daily | Weekly | Monthly

  function PeriodStart(p: Period, now: nat): int {
    match p
    case Daily => NewDate(GetFullYear(now), GetMonth(now), GetDate(now))
    case Weekly =>
      var day := GetDay(now);
      var diff := if day == 0 then -6 else 1 - day;
      NewDate(GetFullYear(now), GetMonth(now), GetDate(now) + diff)
    case Monthly => NewDate(GetFullYear(now), GetMonth(now), 1)
  }

  function PeriodReset(p: Period, now: nat): int {
    match p
    case Daily => NewDate(GetFullYear(now), GetMonth(now), GetDate(now) + 1)
    case Weekly =>
      var day := GetDay(now);
      var daysUntilMonday := if day == 0 then 1 else 8 - day;
      NewDate(GetFullYear(now), GetMonth(now), GetDate(now) + daysUntilMonday)
    case Monthly => NewDate(GetFullYear(now), GetMonth(now) + 1, 1)
  }

  /** Math.ceil of the seconds left. */
  function SecondsUntilReset(p: Period, now: nat): int { (PeriodReset(p, now) - now + 999) / 1000 }

  /** Taking a date apart and together again, shifted by days. */
  lemma DateRoundTrip(t: nat, shift: int)
    ensures NewDate(GetFullYear(t), GetMonth(t), GetDate(t) + shift) == (DayOf(t) + shift) * DAY
  {
    var k := MonthOf(DayOf(t));
    assert 12 * (k / 12) + k % 12 == k;
  }

  lemma MonthRoundTrip(t: nat)
    ensures PeriodStart(Monthly, t) == MonthStart(MonthOf(DayOf(t))) * DAY
    ensures PeriodReset(Monthly, t) == MonthStart(MonthOf(DayOf(t)) + 1) * DAY
  {
    var k := MonthOf(DayOf(t));
    assert 12 * (k / 12) + k % 12 == k;
  }

  // ----- Windows as days, defined without the getters ---------------------------------------------

  /** The Monday on or before a day (Thursdays are the days divisible by 7). */
  function Monday(day: nat): int { day - (day + 3) % 7 }

  function StartDay(p: Period, day: nat): int {
    match p
    case Daily => day
    case Weekly => Monday(day)
    case Monthly => MonthStart(MonthOf(day))
  }

  function ResetDay(p: Period, day: nat): int {
    match p
    case Daily => day + 1
    case Weekly => Monday(day) + 7
    case Monthly => MonthStart(MonthOf(day) + 1)
  }

  lemma WeeklyDays(t: nat)
    ensures PeriodStart(Weekly, t) == Monday(DayOf(t)) * DAY
    ensures PeriodReset(Weekly, t) == (Monday(DayOf(t)) + 7) * DAY
  {
    var diff := MondayShift(DayOf(t));
    assert PeriodStart(Weekly, t) == NewDate(GetFullYear(t), GetMonth(t), GetDate(t) + diff);
    assert PeriodReset(Weekly, t) == NewDate(GetFullYear(t), GetMonth(t), GetDate(t) + (diff + 7));
    DateRoundTrip(t, diff);
    DateRoundTrip(t, diff + 7);
  }

  /** How the service gets to a Monday. */
  lemma MondayShift(day: nat) returns (diff: int)
    ensures var weekday := (day + 4) % 7;
      diff == (if weekday == 0 then -6 else 1 - weekday) && diff + 7 == (if weekday == 0 then 1 else 8 - weekday)
    ensures Monday(day) == day + diff
  {
    var weekday := (day + 4) % 7;
    diff := if weekday == 0 then -6 else 1 - weekday;
  }

  /** What the service computes from the date fields is the window of the day. */
  lemma WindowsAreDays(p: Period, t: nat)
    ensures PeriodStart(p, t) == StartDay(p, DayOf(t)) * DAY
    ensures PeriodReset(p, t) == ResetDay(p, DayOf(t)) * DAY
  {
    match p
    case Daily => DateRoundTrip(t, 0); DateRoundTrip(t, 1);
    case Weekly => WeeklyDays(t);
    case Monthly => MonthRoundTrip(t);
  }

  lemma DaysTile(p: Period, day: nat)
    ensures StartDay(p, day) <= day < ResetDay(p, day)
  {}

  lemma SameWindow(p: Period, day: nat, other: nat)
    requires StartDay(p, day) <= other < ResetDay(p, day)
    ensures StartDay(p, other) == StartDay(p, day) && ResetDay(p, other) == ResetDay(p, day)
  {
    if p == Monthly { MonthUnique(other, MonthOf(day)); }
  }

  /** The windows tile time: every instant lies in its own window, every instant of a window has the
      same one, and the reset is the start of the next. */
  lemma WindowsTile(p: Period, now: nat, t: nat)
    ensures PeriodStart(p, now) <= now < PeriodReset(p, now)
    ensures PeriodStart(p, now) <= t < PeriodReset(p, now) ==>
      PeriodStart(p, t) == PeriodStart(p, now) && PeriodReset(p, t) == PeriodReset(p, now)
    ensures t == PeriodReset(p, now) ==> PeriodStart(p, t) == t
  {
    WindowsAreDays(p, now);
    WindowsAreDays(p, t);
    DaysTile(p, DayOf(now));
    if PeriodStart(p, now) <= t < PeriodReset(p, now) {
      SameWindow(p, DayOf(now), DayOf(t));
    }
    if t == PeriodReset(p, now) {
      assert DayOf(t) == ResetDay(p, DayOf(now));
      ResetStarts(p, DayOf(now), DayOf(t));
    }
  }

  lemma ResetStarts(p: Period, day: nat, next: nat)
    requires next == ResetDay(p, day)
    ensures StartDay(p, next) == next
  {
    if p == Monthly { MonthUnique(next, MonthOf(day) + 1); }
  }

  lemma MondayIsMonday(day: nat, start: nat)
    requires start == Monday(day)
    ensures (start + 4) % 7 == 1 && start % 7 == 4
  {}

  /** Weekly windows run from one Monday to the next; day 4, the fifth of January 1970, is a Monday. */
  lemma {:induction false} WeeksStartOnMonday(now: nat, t: nat)
    requires t == PeriodStart(Weekly, now)
    ensures GetDay(t) == 1 && DayOf(t) % 7 == 4 && PeriodReset(Weekly, now) == t + 7 * DAY
  {
    WindowsAreDays(Weekly, now);
    assert DayOf(t) == Monday(DayOf(now));
    MondayIsMonday(DayOf(now), DayOf(t));
  }

  /** Monthly windows start on the first of the month of `now`. */
  lemma MonthsStartOnTheFirst(now: nat, t: nat)
    requires t == PeriodStart(Monthly, now)
    ensures GetDate(t) == 1 && GetMonth(t) == GetMonth(now) && GetFullYear(t) == GetFullYear(now)
  {
    WindowsAreDays(Monthly, now);
    assert DayOf(t) == MonthStart(MonthOf(DayOf(now)));
    MonthUnique(DayOf(t), MonthOf(DayOf(now)));
  }

  /** The TTL is at least a second, covers the rest of the window, and overshoots it by less than one. */
  lemma TtlCoversWindow(p: Period, now: nat)
    ensures SecondsUntilReset(p, now) >= 1
    ensures PeriodReset(p, now) <= now + 1000 * SecondsUntilReset(p, now) < PeriodReset(p, now) + 1000
  {
    WindowsTile(p, now, now);
  }
}

/** The Gregorian calendar, counted without a list of months. */
module Gregorian {
  import opened Calendar

  /** How many of the years up to and including `year` are leap years. */
  function LeapYears(year: nat): nat { year / 4 - year / 100 + year / 400 }

  /** From March on, five months have 153 days, and the leap day comes last. */
  function FromMarch(months: nat): nat { (153 * months + 2) / 5 }

  /** The day number of the first of a month, 0 for January; 719468 days lie between 1 March of the year 0 and
      1 January 1970. */
  function FirstOf(year: nat, month: nat): int
    requires year > 0
  {
    var day := if month >= 2 then 365 * year + LeapYears(year) + FromMarch(month - 2)
               else 365 * (year - 1) + LeapYears(year - 1) + FromMarch(month + 10);
    day - 719468
  }

  lemma LeapStep(year: nat)
    requires year > 0
    ensures LeapYears(year) == LeapYears(year - 1) + if Leap(year) then 1 else 0
  {
    assert year / 4 == (year - 1) / 4 + if year % 4 == 0 then 1 else 0;
    assert year / 100 == (year - 1) / 100 + if year % 100 == 0 then 1 else 0;
    assert year / 400 == (year - 1) / 400 + if year % 400 == 0 then 1 else 0;
    assert year % 400 == 0 ==> year % 100 == 0;
    assert year % 100 == 0 ==> year % 4 == 0;
  }

  lemma ThirtyOrMore(months: nat)
    requires months < 11
    ensures FromMarch(months + 1) == FromMarch(months) + if months in {1, 3, 6, 8} then 30 else 31
  {}

  lemma Fields(year: nat, month: nat)
    requires year >= 1970 && month < 12
    ensures var k := 12 * (year - 1970) + month; k % 12 == month && k / 12 == year - 1970
  {}

  lemma NextFirst(year: nat, month: nat, k: nat)
    requires year >= 1970 && month < 12 && k == 12 * (year - 1970) + month
    ensures (if month == 11 then FirstOf(year + 1, 0) else FirstOf(year, month + 1)) == FirstOf(year, month) + DaysInMonth(k)
  {
    Fields(year, month);
    if month == 1 {
      LeapStep(year);
    } else {
      ThirtyOrMore(if month >= 2 then month - 2 else month + 10);
    }
  }

  lemma NextStart(year: nat, month: nat, k: nat)
    requires year >= 1970 && month < 12 && k == 12 * (year - 1970) + month && MonthStart(k) == FirstOf(year, month)
    ensures MonthStart(k + 1) == if month == 11 then FirstOf(year + 1, 0) else FirstOf(year, month + 1)
  {
    NextFirst(year, month, k);
  }

  /** Every month starts where the Gregorian calendar puts it. */
  lemma {:induction false} MonthsAreGregorian(year: nat, month: nat, k: nat)
    requires year >= 1970 && month < 12 && k == 12 * (year - 1970) + month
    ensures MonthStart(k) == FirstOf(year, month)
    decreases k
  {
    if k > 0 {
      var y, m := if month > 0 then year else year - 1, if month > 0 then month - 1 else 11;
      MonthsAreGregorian(y, m, k - 1);
      NextStart(y, m, k - 1);
    }
  }
}
