/** The date arithmetic of travelbot/policy.ts over `Date.UTC` (section 21.4.1 of ECMA-262). */
module Calendar {
  import opened Common

  const MS_PER_DAY: int := 86_400_000

  // ---------- The Gregorian calendar ----------

  /** A date as people write it: `month` and `day` count from 1. */
  datatype Civil = Civil(year: int, month: int, day: int)

  predicate Leap(year: int) {
    year % 4 == 0 && (year % 100 != 0 || year % 400 == 0)
  }

  /** Days before month `month` (counted from 0) of a common year. */
  function CumulativeDays(month: int): int
    requires 0 <= month <= 12
  {
    [0, 31, 59, 90, 120, 151, 181, 212, 243, 273, 304, 334, 365][month]
  }

  function DaysBefore(year: int, month: int): int
    requires 0 <= month <= 12
  {
    CumulativeDays(month) + if Leap(year) && month >= 2 then 1 else 0
  }

  function DaysInMonth(year: int, month: int): int
    requires 0 <= month < 12
  {
    DaysBefore(year, month + 1) - DaysBefore(year, month)
  }

  predicate Real(c: Civil) {
    1 <= c.month <= 12 && 1 <= c.day <= DaysInMonth(c.year, c.month - 1)
  }

  predicate Earlier(a: Civil, b: Civil) {
    a.year < b.year || (a.year == b.year && (a.month < b.month || (a.month == b.month && a.day < b.day)))
  }

  // ---------- ECMAScript's day numbers ----------

  function DayFromYear(year: int): int {
    365 * (year - 1970) + (year - 1969) / 4 - (year - 1901) / 100 + (year - 1601) / 400
  }

  /** MakeDay: months outside 0..11 carry into the year, days outside the month into other months. */
  function MakeDay(year: int, month: int, day: int): int {
    DayFromYear(year + month / 12) + DaysBefore(year + month / 12, month % 12) + day - 1
  }

  lemma FourthYears(year: int)
    ensures (year - 1968) / 4 == (year - 1969) / 4 + if year % 4 == 0 then 1 else 0
  {
  }

  lemma HundredthYears(year: int)
    ensures (year - 1900) / 100 == (year - 1901) / 100 + if year % 100 == 0 then 1 else 0
  {
  }

  lemma FourHundredthYears(year: int)
    ensures (year - 1600) / 400 == (year - 1601) / 400 + if year % 400 == 0 then 1 else 0
  {
  }

  lemma CenturiesAreFourthYears(year: int)
    ensures year % 400 == 0 ==> year % 100 == 0
    ensures year % 100 == 0 ==> year % 4 == 0
  {
    assert year == 400 * (year / 400) + year % 400 && year == 100 * (year / 100) + year % 100;
    if year % 400 == 0 { assert year == 100 * (4 * (year / 400)); }
    if year % 100 == 0 { assert year == 4 * (25 * (year / 100)); }
  }

  lemma NextYear(year: int)
    ensures DayFromYear(year + 1) == DayFromYear(year) + DaysBefore(year, 12)
  {
    FourthYears(year);
    HundredthYears(year);
    FourHundredthYears(year);
    CenturiesAreFourthYears(year);
  }

  function Distance(n: int, year: int): nat {
    if n < DayFromYear(year) then DayFromYear(year) - n
    else if n >= DayFromYear(year + 1) then n - DayFromYear(year + 1) + 1
    else 0
  }

  /** YearFromTime: the year whose days include day `n`, searched from `year`. */
  function YearFrom(n: int, year: int): (r: int)
    ensures DayFromYear(r) <= n < DayFromYear(r + 1)
    decreases Distance(n, year)
  {
    NextYear(year);
    NextYear(year - 1);
    NextYear(year + 1);
    if n < DayFromYear(year) then YearFrom(n, year - 1)
    else if n >= DayFromYear(year + 1) then YearFrom(n, year + 1)
    else year
  }

  function YearOf(n: int): (r: int)
    ensures DayFromYear(r) <= n < DayFromYear(r + 1)
  {
    YearFrom(n, 1970)
  }

  function MonthFrom(year: int, dayOfYear: int, month: int): (r: int)
    requires 0 <= month < 12 && DaysBefore(year, month) <= dayOfYear < DaysBefore(year, 12)
    ensures 0 <= r < 12 && DaysBefore(year, r) <= dayOfYear < DaysBefore(year, r + 1)
    decreases 12 - month
  {
    if dayOfYear < DaysBefore(year, month + 1) then month else MonthFrom(year, dayOfYear, month + 1)
  }

  /** The calendar date of day `n`, as `getUTCFullYear`, `getUTCMonth` and `getUTCDate` read it. */
  function CivilOf(n: int): (c: Civil)
    ensures Real(c)
    ensures DayFromYear(c.year) + DaysBefore(c.year, c.month - 1) + c.day - 1 == n
    ensures c.year == YearOf(n)
  {
    var year := YearOf(n);
    NextYear(year);
    var month := MonthFrom(year, n - DayFromYear(year), 0);
    Civil(year, month + 1, n - DayFromYear(year) - DaysBefore(year, month) + 1)
  }

  function DayNumber(c: Civil): int
    requires 1 <= c.month <= 12
  {
    DayFromYear(c.year) + DaysBefore(c.year, c.month - 1) + c.day - 1
  }

  lemma {:induction false} YearsGrow(a: int, b: int)
    requires a <= b
    ensures DayFromYear(a) <= DayFromYear(b)
    ensures a < b ==> DayFromYear(a) + 365 <= DayFromYear(b)
    decreases b - a
  {
    if a < b {
      NextYear(b - 1);
      YearsGrow(a, b - 1);
    }
  }

  lemma MonthsGrow(year: int, a: int, b: int)
    requires 0 <= a <= b <= 12
    ensures DaysBefore(year, a) <= DaysBefore(year, b)
  {
  }

  /** Day numbers order real dates as the calendar does. */
  lemma DayNumbersOrder(a: Civil, b: Civil)
    requires Real(a) && Real(b)
    ensures Earlier(a, b) <==> DayNumber(a) < DayNumber(b)
    ensures a == b <==> DayNumber(a) == DayNumber(b)
  {
    if Earlier(a, b) { EarlierIsLess(a, b); }
    if Earlier(b, a) { EarlierIsLess(b, a); }
  }

  lemma EarlierIsLess(a: Civil, b: Civil)
    requires Real(a) && Real(b) && Earlier(a, b)
    ensures DayNumber(a) < DayNumber(b)
  {
    hide DayFromYear, DaysBefore;
    WithinYear(a);
    WithinYear(b);
    if a.year < b.year {
      NextYear(a.year);
      YearsGrow(a.year + 1, b.year);
    } else if a.month < b.month {
      MonthsGrow(a.year, a.month, b.month - 1);
    }
  }

  /** A real date lies in its month, and its month in its year. */
  lemma WithinYear(c: Civil)
    requires Real(c)
    ensures 1 <= c.month <= 12 && 1 <= c.day
    ensures DaysBefore(c.year, c.month - 1) + c.day <= DaysBefore(c.year, c.month)
    ensures 0 <= DaysBefore(c.year, c.month - 1) && DaysBefore(c.year, c.month) <= DaysBefore(c.year, 12)
  {
    MonthsGrow(c.year, c.month, 12);
    MonthsGrow(c.year, 0, c.month - 1);
  }

  lemma MonthRange(c: Civil)
    requires Real(c)
    ensures 1 <= c.month <= 12
  {
  }

  /** Decoding is the inverse of `MakeDay` on real dates. */
  lemma DecodesBack(c: Civil)
    requires Real(c)
    ensures MakeDay(c.year, c.month - 1, c.day) == DayNumber(c)
    ensures CivilOf(DayNumber(c)) == c
  {
    hide DayFromYear, DaysBefore, DaysInMonth, CivilOf, Real;
    var month := c.month - 1;
    MonthRange(c);
    assert month / 12 == 0 && month % 12 == month;
    DayNumbersOrder(CivilOf(DayNumber(c)), c);
  }

  lemma AroundTheEpoch()
    ensures Real(Civil(1969, 12, 31)) && DayNumber(Civil(1969, 12, 31)) == -1
    ensures Real(Civil(1970, 1, 1)) && DayNumber(Civil(1970, 1, 1)) == 0
    ensures Real(Civil(1970, 1, 2)) && DayNumber(Civil(1970, 1, 2)) == 1
  {
  }

  lemma TodayIs(now: Instant, c: Civil)
    requires Real(c) && DayNumber(c) == DayOf(now)
    ensures Today(now) == c
  {
    hide DayFromYear, DaysBefore, DaysInMonth, CivilOf, Real;
    DecodesBack(c);
  }

  /** Day 0 is 1 January 1970, and time runs in both directions from its midnight. */
  lemma EpochDay()
    ensures Today(-1) == Civil(1969, 12, 31) && Today(0) == Civil(1970, 1, 1)
    ensures Today(86_399_999) == Civil(1970, 1, 1) && Today(86_400_000) == Civil(1970, 1, 2)
  {
    hide DayFromYear, DaysBefore, DaysInMonth, CivilOf, Real, DayNumber, Today, YearOf, YearFrom;
    AroundTheEpoch();
    TodayIs(-1, Civil(1969, 12, 31));
    TodayIs(0, Civil(1970, 1, 1));
    TodayIs(86_399_999, Civil(1970, 1, 1));
    TodayIs(86_400_000, Civil(1970, 1, 2));
  }

  // ---------- The calendar test ----------

  /** `Date.UTC` in days: years 0 to 99 stand for 1900 to 1999. */
  function UtcDay(year: int, month: int, day: int): int {
    MakeDay(if 0 <= year <= 99 then 1900 + year else year, month, day)
  }

  /** `isCalendarDate`: the fields survive the round trip through `Date.UTC`. */
  predicate IsCalendarDate(c: Civil) {
    CivilOf(UtcDay(c.year, c.month - 1, c.day)) == c
  }

  /** A day on or after the first of a year decodes to that year or a later one. */
  lemma DecodesNoEarlier(n: int, year: int)
    requires DayFromYear(year) <= n
    ensures CivilOf(n).year >= year
  {
    hide DayFromYear, DaysBefore, YearOf, CivilOf;
    var r := CivilOf(n).year;
    if r < year { YearsGrow(r + 1, year); }
  }

  /** The test accepts exactly the real Gregorian dates of every four-digit year from 100 on; the years
      before that are read as 1900 to 1999, so none of their dates passes. */
  lemma CalendarTestExact(c: Civil)
    requires 0 <= c.year
    ensures IsCalendarDate(c) <==> Real(c) && c.year >= 100
  {
    hide DayFromYear, DaysBefore, YearOf, CivilOf;
    if Real(c) {
      if c.year >= 100 {
        DecodesBack(c);
      } else {
        var month := c.month - 1;
        assert month / 12 == 0 && month % 12 == month;
        MonthsGrow(1900 + c.year, 0, month);
        FirstMonth(1900 + c.year);
        DecodesNoEarlier(UtcDay(c.year, month, c.day), 1900 + c.year);
      }
    }
  }

  lemma FirstMonth(year: int)
    ensures DaysBefore(year, 0) == 0
  {
  }

  /** A real date that the test turns away. */
  lemma YearNinetyNineRejected()
    ensures Real(Civil(99, 1, 1)) && !IsCalendarDate(Civil(99, 1, 1))
  {
    hide IsCalendarDate;
    CalendarTestExact(Civil(99, 1, 1));
  }

  // ---------- Departures ----------

  /** A departure date as the intent schema admits it: a month, or a day. */
  datatype Departure = InMonth(year: nat, month: nat) | OnDay(date: Civil)

  function DayOf(now: Instant): int { now / MS_PER_DAY }

  function Today(now: Instant): Civil { CivilOf(DayOf(now)) }

  /** Whether `applyTravelIntentProposal` keeps a departure date. */
  predicate DepartureAccepted(d: Departure, now: Instant) {
    match d
    case InMonth(year, month) =>
      1 <= month <= 12 && year * 12 + month - 1 >= Today(now).year * 12 + Today(now).month - 1
    case OnDay(date) =>
      var today := UtcDay(Today(now).year, Today(now).month - 1, Today(now).day);
      IsCalendarDate(date) && UtcDay(date.year, date.month - 1, date.day) > today
  }

  /** Accepted departures are exactly the real days strictly after today, and the months not before the
      current one, in calendar terms (for a clock past the year 99). */
  lemma AcceptedExactly(d: Departure, now: Instant)
    requires Today(now).year >= 100
    requires d.OnDay? ==> 0 <= d.date.year
    ensures DepartureAccepted(d, now) <==>
      match d
      case InMonth(year, month) =>
        && 1 <= month <= 12
        && (year > Today(now).year || (year == Today(now).year && month >= Today(now).month))
      case OnDay(date) => Real(date) && date.year >= 100 && Earlier(Today(now), date)
  {
    hide DayFromYear, DaysBefore, YearOf, CivilOf, IsCalendarDate;
    var today := Today(now);
    assert Real(today);
    if d.OnDay? {
      CalendarTestExact(d.date);
      if Real(d.date) && d.date.year >= 100 {
        DecodesBack(today);
        DecodesBack(d.date);
        DayNumbersOrder(today, d.date);
      }
    }
  }

  // ---------- Year inference ----------

  function InferredYear(monthIndex: int, now: Instant): int {
    Today(now).year + if monthIndex < Today(now).month - 1 then 1 else 0
  }

  /** The year given to a day and month without one: a candidate that is not after `now` moves on. */
  function YearFor(monthIndex: int, day: int, now: Instant): int {
    var year := InferredYear(monthIndex, now);
    if UtcDay(year, monthIndex, day) * MS_PER_DAY <= now then year + 1 else year
  }

  /** `c` begins after `now`. */
  predicate Ahead(c: Civil, now: Instant)
    requires 1 <= c.month <= 12
  {
    DayNumber(c) * MS_PER_DAY > now
  }

  ghost predicate EarliestAhead(year: int, month: int, day: int, now: Instant) {
    && Real(Civil(year, month, day)) && Ahead(Civil(year, month, day), now)
    && forall y :: Real(Civil(y, month, day)) && Ahead(Civil(y, month, day), now) ==> year <= y
  }

  lemma AheadIffAfterToday(c: Civil, now: Instant)
    requires Real(c)
    ensures Ahead(c, now) <==> Earlier(Today(now), c)
  {
    hide DayFromYear, DaysBefore, YearOf, CivilOf;
    DayNumbersOrder(Today(now), c);
    assert DayNumber(Today(now)) == DayOf(now);
  }

  lemma UtcDayOfReal(c: Civil)
    requires Real(c) && c.year >= 100
    ensures UtcDay(c.year, c.month - 1, c.day) == DayNumber(c)
  {
    hide DayFromYear, DaysBefore;
    DecodesBack(c);
  }

  /** The inferred year makes the day the earliest future occurrence of its month and day, whenever it
      makes it a day at all. */
  lemma InferenceExact(month: int, day: int, now: Instant)
    requires 1 <= month <= 12 && Today(now).year >= 100
    ensures var year := YearFor(month - 1, day, now);
      EarliestAhead(year, month, day, now) <==> Real(Civil(year, month, day))
  {
    hide DayFromYear, DaysBefore, YearOf, CivilOf, UtcDay, Real, DayNumber, Ahead;
    var inferred, year := InferredYear(month - 1, now), YearFor(month - 1, day, now);
    if Real(Civil(year, month, day)) {
      AheadIffAfterToday(Civil(year, month, day), now);
      UtcDayOfReal(Civil(year, month, day));
      assert Ahead(Civil(year, month, day), now) by { AheadMeans(Civil(year, month, day), now); }
      forall y | y < year && Real(Civil(y, month, day)) ensures !Ahead(Civil(y, month, day), now) {
        AheadIffAfterToday(Civil(y, month, day), now);
        if y == inferred {
          UtcDayOfReal(Civil(y, month, day));
          AheadMeans(Civil(y, month, day), now);
        }
      }
    }
  }

  lemma AheadMeans(c: Civil, now: Instant)
    requires 1 <= c.month <= 12
    ensures Ahead(c, now) <==> DayNumber(c) * MS_PER_DAY > now
  {
  }

  /** On which days the 29 February that comes next is the one of the year a reader would guess: this year's
      until it begins, next year's from March on. */
  predicate LeapDayAhead(today: Civil) {
    if today.month > 2 then Leap(today.year + 1) else Leap(today.year) && !(today.month == 2 && today.day == 29)
  }

  lemma LeapDayYear(now: Instant)
    requires Today(now).year >= 100
    ensures YearFor(1, 29, now)
         == Today(now).year + if Today(now).month > 2 || (Today(now).month == 2 && Today(now).day == 29) then 1 else 0
  {
    hide DayFromYear, YearOf, CivilOf, DayNumber, Ahead, UtcDay, DaysBefore;
    var today, year := Today(now), InferredYear(1, now);
    var candidate := if Leap(year) then Civil(year, 2, 29) else Civil(year, 3, 1);
    LeapCandidate(year);
    AheadIffAfterToday(candidate, now);
    AheadMeans(candidate, now);
    assert today.month == 2 && today.day == 29 ==> Leap(today.year) by { RealLeapDay(today); }
    if today.month == 2 && today.day > 29 { RealLeapDay(today); }
  }

  lemma RealLeapDay(c: Civil)
    requires Real(c)
    ensures c.month == 2 ==> c.day <= 29 && (c.day == 29 ==> Leap(c.year))
  {
  }

  /** `Date.UTC` reads 29 February of a common year as 1 March. */
  lemma LeapCandidate(year: int)
    requires year >= 100
    ensures var candidate := if Leap(year) then Civil(year, 2, 29) else Civil(year, 3, 1);
      Real(candidate) && UtcDay(year, 1, 29) == DayNumber(candidate)
  {
    hide DayFromYear;
  }

  lemma LeapDayNextYear(year: int)
    requires Leap(year)
    ensures !Leap(year + 1)
  {
  }

  /** Every day that all years have gets its earliest future occurrence; 29 February gets it exactly when the
      clock stands in March or later before a leap year, or in a leap year before that very day. */
  lemma EarliestFutureOccurrence(month: int, day: int, now: Instant)
    requires Today(now).year >= 100 && Real(Civil(2000, month, day))
    ensures EarliestAhead(YearFor(month - 1, day, now), month, day, now)
       <==> (month == 2 && day == 29 ==> LeapDayAhead(Today(now)))
  {
    var year, today := YearFor(month - 1, day, now), Today(now);
    hide YearFor, EarliestAhead, CivilOf, DayFromYear;
    InferenceExact(month, day, now);
    LeapDayOnly(year, month, day);
    if month == 2 && day == 29 {
      LeapDayYear(now);
      if today.month == 2 && today.day == 29 {
        TodayIsReal(now);
        RealLeapDay(today);
        LeapDayNextYear(today.year);
      }
    }
  }

  lemma TodayIsReal(now: Instant)
    ensures Real(Today(now))
  {
  }

  lemma NoonOf(c: Civil)
    requires Real(c)
    ensures Today(DayNumber(c) * MS_PER_DAY + MS_PER_DAY / 2) == c
  {
    hide DayNumber, CivilOf;
    assert DayOf(DayNumber(c) * MS_PER_DAY + MS_PER_DAY / 2) == DayNumber(c);
    DecodesBack(c);
  }

  /** On 15 January 2026, and at noon on 29 February 2028, "29 February" is given a year without one. */
  lemma LeapDayMissed()
    ensures var now := DayNumber(Civil(2026, 1, 15)) * MS_PER_DAY + MS_PER_DAY / 2;
      YearFor(1, 29, now) == 2026 && !EarliestAhead(2026, 2, 29, now)
    ensures var now := DayNumber(Civil(2028, 2, 29)) * MS_PER_DAY + MS_PER_DAY / 2;
      YearFor(1, 29, now) == 2029 && !EarliestAhead(2029, 2, 29, now)
  {
    hide DayNumber, Today, YearFor, EarliestAhead;
    NoonOf(Civil(2026, 1, 15));
    NoonOf(Civil(2028, 2, 29));
    var january := DayNumber(Civil(2026, 1, 15)) * MS_PER_DAY + MS_PER_DAY / 2;
    var february := DayNumber(Civil(2028, 2, 29)) * MS_PER_DAY + MS_PER_DAY / 2;
    LeapDayYear(january);
    EarliestFutureOccurrence(2, 29, january);
    LeapDayYear(february);
    EarliestFutureOccurrence(2, 29, february);
  }

  lemma LeapDayOnly(year: int, month: int, day: int)
    requires Real(Civil(2000, month, day))
    ensures Real(Civil(year, month, day)) <==> (month == 2 && day == 29 ==> Leap(year))
  {
  }

  // ---------- Relative dates ----------

  /** "tomorrow", "this month" and "next month" as the extraction reads them. */
  function Tomorrow(now: Instant): (c: Civil)
    ensures Real(c)
  {
    CivilOf(UtcDay(Today(now).year, Today(now).month - 1, Today(now).day + 1))
  }

  function NextMonth(now: Instant): (c: Civil)
    ensures Real(c)
  {
    CivilOf(UtcDay(Today(now).year, Today(now).month, 1))
  }

  lemma TomorrowFollows(now: Instant)
    requires Today(now).year >= 100
    ensures DayNumber(Tomorrow(now)) == DayOf(now) + 1
    ensures Earlier(Today(now), Tomorrow(now)) && Tomorrow(now).year >= 100
  {
    hide DayFromYear, YearOf, CivilOf, DaysBefore;
    UtcDayOfReal(Today(now));
    DayNumbersOrder(Today(now), Tomorrow(now));
  }

  lemma NextMonthFollows(now: Instant)
    requires Today(now).year >= 100
    ensures NextMonth(now) == (if Today(now).month == 12 then Civil(Today(now).year + 1, 1, 1)
                               else Civil(Today(now).year, Today(now).month + 1, 1))
  {
    hide DayFromYear, YearOf, CivilOf;
    var today := Today(now);
    var first := if today.month == 12 then Civil(today.year + 1, 1, 1) else Civil(today.year, today.month + 1, 1);
    assert Real(first);
    assert UtcDay(today.year, today.month, 1) == DayNumber(first);
    DecodesBack(first);
  }

  /** They name the day after today and the month after this one, across month and year ends, and the
      departure check never turns them away. */
  lemma RelativeDatesAccepted(now: Instant)
    requires Today(now).year >= 100
    ensures DayNumber(Tomorrow(now)) == DayOf(now) + 1 && DepartureAccepted(OnDay(Tomorrow(now)), now)
    ensures NextMonth(now) == (if Today(now).month == 12 then Civil(Today(now).year + 1, 1, 1)
                               else Civil(Today(now).year, Today(now).month + 1, 1))
    ensures DepartureAccepted(InMonth(NextMonth(now).year, NextMonth(now).month), now)
    ensures DepartureAccepted(InMonth(Today(now).year, Today(now).month), now)
  {
    hide DayFromYear, YearOf, CivilOf, DaysBefore, DepartureAccepted, Tomorrow, NextMonth, DayNumber;
    TomorrowFollows(now);
    NextMonthFollows(now);
    AcceptedExactly(OnDay(Tomorrow(now)), now);
    AcceptedExactly(InMonth(NextMonth(now).year, NextMonth(now).month), now);
    AcceptedExactly(InMonth(Today(now).year, Today(now).month), now);
  }
}
