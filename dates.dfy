/**
 * Calendar values as the picker handles them: a day is a (year, 0-based month, day of month)
 * snapshot, a month a (year, 0-based month) snapshot. A java.util.Calendar is represented by the
 * day it denotes; setting its year, month and day-of-month fields is lenient, so out-of-range
 * fields carry over into other months and years, by as many as needed, which `Lenient` and `LenientDay` model.
 */
module Dates {

  /** A day of the (proleptic) Gregorian calendar; `month` is 0-based (0 = January). */
  datatype DateSnapshot = DateSnapshot(year: int, month: int, day: int)

  /** A month of the Gregorian calendar; `month` is 0-based. */
  datatype MonthSnapshot = MonthSnapshot(year: int, month: int)

  /** The first day of a month, and the smallest day of month. */
  const DAY_MIN: int := 1

  predicate IsLeapYear(year: int)
  {
    year % 4 == 0 && (year % 100 != 0 || year % 400 == 0)
  }

  function DaysInMonth(year: int, month: int): (n: int)
    requires 0 <= month < 12
    ensures 28 <= n <= 31
  {
    if month == 1 then (if IsLeapYear(year) then 29 else 28)
    else if month == 3 || month == 5 || month == 8 || month == 10 then 30
    else 31
  }

  predicate IsValidMonth(m: MonthSnapshot)
  {
    0 <= m.month < 12
  }

  predicate IsValidDate(d: DateSnapshot)
  {
    0 <= d.month < 12 && DAY_MIN <= d.day <= DaysInMonth(d.year, d.month)
  }

  /** A month that a calendar can denote. */
  type Month = m: MonthSnapshot | IsValidMonth(m) witness MonthSnapshot(1970, 0)

  /** A day that a calendar can denote; every snapshot taken of a calendar is one. */
  type Date = d: DateSnapshot | IsValidDate(d) witness DateSnapshot(1970, 0, 1)

  /** `snapshotMonth()`: the month a day lies in; that month's day field `d.day` is `d` again. */
  function MonthOf(d: Date): (m: Month)
    ensures LenientDay(m, d.day) == d
  {
    MonthSnapshot(d.year, d.month)
  }

  /** The first day of a month. */
  function MonthStart(m: Month): Date
  {
    DateSnapshot(m.year, m.month, DAY_MIN)
  }

  /** Months counted from January of year 0; consecutive months have consecutive indices. */
  function MonthIndex(m: MonthSnapshot): int
  {
    12 * m.year + m.month
  }

  /**
   * Setting a calendar's MONTH field to any integer: months outside 0..11 carry into the year
   * (floor division, as a lenient Gregorian calendar does).
   */
  function NormalizeMonth(year: int, month: int): (m: Month)
    ensures MonthIndex(m) == 12 * year + month
    ensures 0 <= month < 12 ==> m == MonthSnapshot(year, month)
  {
    MonthSnapshot(year + month / 12, month % 12)
  }

  /** The month after `m`, carrying December into January of the next year. */
  function IncrementMonth(m: Month): (r: Month)
    ensures MonthIndex(r) == MonthIndex(m) + 1
  {
    if m.month == 11 then MonthSnapshot(m.year + 1, 0) else MonthSnapshot(m.year, m.month + 1)
  }

  /** The month before `m`, carrying January into December of the previous year. */
  function DecrementMonth(m: Month): (r: Month)
    ensures MonthIndex(r) == MonthIndex(m) - 1
  {
    if m.month == 0 then MonthSnapshot(m.year - 1, 11) else MonthSnapshot(m.year, m.month - 1)
  }

  lemma IncrementDecrement(m: Month)
    ensures DecrementMonth(IncrementMonth(m)) == m
    ensures IncrementMonth(DecrementMonth(m)) == m
  {
  }

  /** Chronological order of days. */
  predicate Before(a: DateSnapshot, b: DateSnapshot)
  {
    a.year < b.year
    || (a.year == b.year && (a.month < b.month || (a.month == b.month && a.day < b.day)))
  }

  /** The day after `d`. */
  function NextDay(d: Date): (r: Date)
    ensures Before(d, r)
  {
    if d.day < DaysInMonth(d.year, d.month) then DateSnapshot(d.year, d.month, d.day + 1)
    else MonthStart(IncrementMonth(MonthOf(d)))
  }

  /** The day `k` days after `d`. */
  function AddDays(d: Date, k: nat): (r: Date)
    ensures k > 0 ==> Before(d, r)
  {
    if k == 0 then d else NextDay(AddDays(d, k - 1))
  }

  /**
   * `MonthSnapshot.asCalendar(day)`: the calendar of month `m` with its DAY_OF_MONTH field set to
   * `day`. Any integer is accepted: days past the end of the month run into the following months,
   * days below 1 into the preceding ones.
   */
  function LenientDay(m: Month, day: int): (d: Date)
    ensures DAY_MIN <= day <= DaysInMonth(m.year, m.month) ==> d == DateSnapshot(m.year, m.month, day)
    decreases if day < DAY_MIN then 32 - day else day
  {
    if day < DAY_MIN then
      var previous := DecrementMonth(m);
      LenientDay(previous, day + DaysInMonth(previous.year, previous.month))
    else if day <= DaysInMonth(m.year, m.month) then
      DateSnapshot(m.year, m.month, day)
    else
      LenientDay(IncrementMonth(m), day - DaysInMonth(m.year, m.month))
  }

  /** A calendar whose YEAR, MONTH and DAY_OF_MONTH fields are set to the given integers. */
  function Lenient(year: int, month: int, day: int): (d: Date)
    ensures IsValidDate(DateSnapshot(year, month, day)) ==> d == DateSnapshot(year, month, day)
    ensures 0 <= month < 12 ==> d == LenientDay(MonthSnapshot(year, month), day)
  {
    LenientDay(NormalizeMonth(year, month), day)
  }

  /** Raising the day field by one moves the denoted day one day forward, for every integer day. */
  lemma {:induction false} LenientDayNext(m: Month, day: int)
    ensures LenientDay(m, day + 1) == NextDay(LenientDay(m, day))
    decreases if day < DAY_MIN then 32 - day else day
  {
    if day < DAY_MIN {
      var previous := DecrementMonth(m);
      var dim := DaysInMonth(previous.year, previous.month);
      if day + 1 < DAY_MIN {
        LenientDayNext(previous, day + dim);
      } else {
        IncrementDecrement(m);
        assert LenientDay(m, day) == DateSnapshot(previous.year, previous.month, dim);
      }
    } else if day < DaysInMonth(m.year, m.month) {
    } else if day == DaysInMonth(m.year, m.month) {
      assert LenientDay(IncrementMonth(m), 1) == MonthStart(IncrementMonth(m));
    } else {
      LenientDayNext(IncrementMonth(m), day - DaysInMonth(m.year, m.month));
    }
  }

  /** Day field `1 + k` of a month denotes the day `k` days after the month's first day. */
  lemma {:induction false} LenientDayCountsFromFirst(m: Month, k: nat)
    ensures LenientDay(m, DAY_MIN + k) == AddDays(MonthStart(m), k)
  {
    if k > 0 {
      LenientDayCountsFromFirst(m, k - 1);
      LenientDayNext(m, DAY_MIN + k - 1);
    }
  }
}
