/**
 * Calendar values: the date and time parts of .NET's DateTime, their order, and
 * `AddYears`, which the age calculation and the default residence end date use.
 */
module Calendar {

  /** A calendar date (the `.Date` part of a DateTime). */
  datatype Date = Date(year: int, month: int, day: int)

  /** A DateTime: its calendar date and the time of day in ticks. */
  datatype DateTime = DateTime(date: Date, time: nat)

  /** `DateTime.MinValue`, the default of a non-nullable DateTime column. */
  const MinValue: DateTime := DateTime(Date(1, 1, 1), 0)

  /** `a < b` on dates. */
  predicate DateBefore(a: Date, b: Date) {
    a.year < b.year
    || (a.year == b.year && (a.month < b.month || (a.month == b.month && a.day < b.day)))
  }

  /** `a <= b` on dates. */
  predicate DateAtOrBefore(a: Date, b: Date) {
    !DateBefore(b, a)
  }

  /** `a < b` on DateTime values. */
  predicate Before(a: DateTime, b: DateTime) {
    DateBefore(a.date, b.date) || (a.date == b.date && a.time < b.time)
  }

  /** `a <= b` on DateTime values. */
  predicate AtOrBefore(a: DateTime, b: DateTime) {
    !Before(b, a)
  }

  predicate IsLeapYear(y: int) {
    y % 4 == 0 && (y % 100 != 0 || y % 400 == 0)
  }

  function DaysInMonth(year: int, month: int): int {
    if month == 2 then (if IsLeapYear(year) then 29 else 28)
    else if month == 4 || month == 6 || month == 9 || month == 11 then 30
    else 31
  }

  predicate ValidDate(d: Date) {
    1 <= d.month <= 12 && 1 <= d.day <= DaysInMonth(d.year, d.month)
  }

  /**
   * `d.AddYears(n)`: the same month and day n years later, except that
   * 29 February becomes 28 February when the target year is not a leap year.
   */
  function AddYears(d: Date, n: int): (r: Date)
    ensures r.year == d.year + n && r.month == d.month
    ensures ValidDate(d) ==> ValidDate(r)
    ensures ValidDate(d) && !(d.month == 2 && d.day == 29) ==> r.day == d.day
    ensures d.month == 2 && d.day == 29 ==> r.day == (if IsLeapYear(d.year + n) then 29 else 28)
  {
    Date(d.year + n, d.month,
         if d.month == 2 && d.day == 29 && !IsLeapYear(d.year + n) then 28 else d.day)
  }

  /** `t.AddYears(n)`: the time of day is kept. */
  function AddYearsTo(t: DateTime, n: int): DateTime {
    DateTime(AddYears(t.date, n), t.time)
  }

  /** The order on DateTime values is a total order. */
  lemma BeforeIsStrictTotalOrder(a: DateTime, b: DateTime, c: DateTime)
    ensures !Before(a, a)
    ensures Before(a, b) && Before(b, c) ==> Before(a, c)
    ensures a != b ==> Before(a, b) || Before(b, a)
  {
  }
}
