/** Calendar arithmetic on day numbers. A date is the number of days since
    1970-01-01 in the proleptic Gregorian calendar; the time-of-day and time
    zone of JavaScript `Date` values are not modelled. */
module Calendar {

  /** Days since 1970-01-01. */
  type Day = int

  /** A weekday as `Date.prototype.getDay` numbers it: 0 is Sunday, 6 is Saturday. */
  type Weekday = w: int | 0 <= w < 7

  /** A calendar date given by its fields (month 1..12). */
  datatype CivilDate = CivilDate(year: int, month: int, day: int)

  /** The day number of a normalised calendar date (month 1..12, day 1..31),
      by counting 400-year eras from 0000-03-01. */
  function DaysFromCivil(y: int, m: int, d: int): Day
    requires 1 <= m <= 12
  {
    var y1 := if m <= 2 then y - 1 else y;
    var era := y1 / 400;
    var yoe := y1 % 400;
    var mp := if m > 2 then m - 3 else m + 9;
    var doy := (153 * mp + 2) / 5 + d - 1;
    var doe := yoe * 365 + yoe / 4 - yoe / 100 + doy;
    era * 146097 + doe - 719468
  }

  /** The date `d` days after the last day before month `m` of year `y`,
      where an out-of-range month carries into the year, the way the
      `Date` constructor normalises its fields. */
  function Normalised(y: int, m: int, d: int): Day
  {
    var mi := m - 1;
    DaysFromCivil(y + mi / 12, mi % 12 + 1, 1) + d - 1
  }

  /** The `Date` constructor reads a year 0..99 as 1900..1999. */
  function JsYear(y: int): int
  {
    if 0 <= y <= 99 then 1900 + y else y
  }

  /** `new Date(y, m - 1, d)`, as a day number. */
  function MakeDate(y: int, m: int, d: int): Day
  {
    Normalised(JsYear(y), m, d)
  }

  function DayOf(c: CivilDate): Day
  {
    Normalised(c.year, c.month, c.day)
  }

  /** `getDay()` of a day number: 1970-01-01 was a Thursday. */
  function WeekdayOf(n: Day): Weekday
  {
    (n + 4) % 7
  }

  /** Offset from a weekday back to the Monday that starts its week (weeks run
      Monday to Sunday): -6 on Sunday, otherwise 1 - weekday. */
  function MondayOffset(w: Weekday): (o: int)
    ensures -6 <= o <= 0
  {
    if w == 0 then -6 else 1 - w
  }

  /** The offset always lands on a Monday of the same week. */
  lemma MondayOffsetLandsOnMonday(n: Day)
    ensures var o := MondayOffset(WeekdayOf(n)); -6 <= o <= 0 && WeekdayOf(n + o) == 1
  {
  }

  /** The Monday of the week of `today` (weeks run Monday to Sunday). */
  function WeekMonday(today: Day): (m: Day)
    ensures today - 6 <= m <= today && WeekdayOf(m) == 1
  {
    MondayOffsetLandsOnMonday(today);
    today + MondayOffset(WeekdayOf(today))
  }

  /** Moving `u` days on moves the weekday `u` places round the week. */
  lemma WeekdayShift(n: Day, u: int)
    ensures WeekdayOf(n + u) == (WeekdayOf(n) + u) % 7
  {
    var q := (n + 4) / 7;
    assert n + 4 == 7 * q + WeekdayOf(n);
    assert n + u + 4 == 7 * q + (WeekdayOf(n) + u);
  }

  lemma WeekdayPeriodic(n: Day, k: int)
    ensures WeekdayOf(n + 7 * k) == WeekdayOf(n)
  {
  }

  /** Thirteenth month is January of the next year, as the `Date`
      constructor normalises it. */
  lemma NormalisedCarriesMonths(y: int, m: int, d: int)
    ensures Normalised(y, m + 12, d) == Normalised(y + 1, m, d)
  {
  }

  /** Day 0 of a month is the last day of the month before. */
  lemma NormalisedCarriesDays(y: int, m: int, d: int)
    ensures Normalised(y, m, d + 1) == Normalised(y, m, d) + 1
  {
  }

  /** Fixed points of the day count. `DaysFromCivil` is not proved equal
      to the real calendar in general: these known dates (the epoch,
      1 March 2000, 15 January 2024 a Monday, and the two-digit year rule),
      with the lemmas they call, are the only link between the model's day
      numbers and the calendar. */
  lemma KnownDays()
    ensures DaysFromCivil(1970, 1, 1) == 0
    ensures DaysFromCivil(2000, 3, 1) == 11017
    ensures MakeDate(2024, 1, 15) == 19737 && WeekdayOf(19737) == 1
    ensures MakeDate(24, 1, 15) == MakeDate(1924, 1, 15)
  {
    EpochIsDayZero();
    MarchFirst2000();
    January15th2024();
    TwoDigitYear();
  }

  lemma EpochIsDayZero()
    ensures DaysFromCivil(1970, 1, 1) == 0
  {
    assert (153 * 10 + 2) / 5 == 306;
    assert 369 * 365 + 369 / 4 - 369 / 100 + 306 == 135080;
  }

  lemma MarchFirst2000()
    ensures DaysFromCivil(2000, 3, 1) == 11017
  {
    assert (153 * 0 + 2) / 5 == 0;
    assert 5 * 146097 - 719468 == 11017;
  }

  lemma January15th2024()
    ensures MakeDate(2024, 1, 15) == 19737 && WeekdayOf(19737) == 1
  {
    assert JsYear(2024) == 2024;
    assert Normalised(2024, 1, 15) == DaysFromCivil(2024, 1, 1) + 14;
    assert (153 * 10 + 2) / 5 == 306;
    assert 23 * 365 + 23 / 4 - 23 / 100 + 306 == 8706;
    assert 5 * 146097 + 8706 - 719468 == 19723;
  }

  lemma TwoDigitYear()
    ensures MakeDate(24, 1, 15) == MakeDate(1924, 1, 15)
  {
    assert JsYear(24) == 1924;
  }

  /** Month 2024 of year 15 (read as 1915) carries 168 years and 7 months:
      it is 1 August 2083. */
  lemma SurplusMonthsCarry()
    ensures MakeDate(15, 2024, 1) == DayOf(CivilDate(2083, 8, 1)) == 41485
  {
    assert JsYear(15) == 1915;
    assert 2023 / 12 == 168 && 2023 % 12 == 7;
    assert Normalised(1915, 2024, 1) == DaysFromCivil(2083, 8, 1);
    assert DaysFromCivil(2083, 8, 1) == 41485;
  }

  /** The Sunday that starts the week of `n`; weeks of `isThisWeek` start
      on Sunday. */
  function SundayOf(n: Day): (s: Day)
    ensures s <= n < s + 7 && WeekdayOf(s) == 0
  {
    var w: int := WeekdayOf(n);
    WeekdayShift(n, -w);
    n - w
  }

  /** `isThisWeek(date)`: the date lies in today's Sunday-to-Saturday week. */
  predicate IsThisWeek(d: Day, today: Day) {
    SundayOf(d) == SundayOf(today)
  }

  /** This week is the seven days from the Sunday on or before today. */
  lemma {:induction false} ThisWeekIsSevenDays(d: Day, today: Day)
    ensures IsThisWeek(d, today) <==> SundayOf(today) <= d < SundayOf(today) + 7
  {
    var s := SundayOf(today);
    if s <= d < s + 7 {
      WeekdayShift(s, d - s);
      assert SundayOf(d) == d - (d - s);
    }
  }
}
