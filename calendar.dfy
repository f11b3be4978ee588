/**
  UTC calendar arithmetic as the projection engine uses it: the fields that
  `getUTCFullYear`, `getUTCMonth` and `getUTCDate` read, the chronological
  order of two instants, and the two setters with which an insurance policy's
  coverage end is computed (`setUTCMonth` with a month past December, and
  `setUTCDate` with day 0).
 */
module Calendar {

  /** A UTC instant split into the parts JavaScript's UTC accessors return:
      `month` is 0-based (0 = January) like `getUTCMonth`, `day` is 1-based
      like `getUTCDate`, and `ms` is the time of day in milliseconds. */
  datatype Date = Date(year: int, month: int, day: int, ms: int)

  const MsPerDay: int := 86_400_000

  /** Gregorian leap years. */
  predicate IsLeapYear(y: int) {
    (y % 4 == 0 && y % 100 != 0) || y % 400 == 0
  }

  /** Length of month `m` (0-based) of year `y`. */
  function DaysInMonth(y: int, m: int): int
    requires 0 <= m < 12
  {
    if m == 1 then (if IsLeapYear(y) then 29 else 28)
    else if m == 3 || m == 5 || m == 8 || m == 10 then 30
    else 31
  }

  /** The dates a JavaScript `Date` object can hold. */
  predicate Valid(d: Date) {
    0 <= d.month < 12 && 1 <= d.day <= DaysInMonth(d.year, d.month) && 0 <= d.ms < MsPerDay
  }

  /** `a <= b` on two instants: chronological order, which for valid dates is
      the lexicographic order of (year, month, day, time of day). */
  predicate NotAfter(a: Date, b: Date) {
    a.year < b.year ||
    (a.year == b.year &&
      (a.month < b.month ||
      (a.month == b.month &&
        (a.day < b.day ||
        (a.day == b.day && a.ms <= b.ms)))))
  }

  lemma NotAfterTransitive(a: Date, b: Date, c: Date)
    requires NotAfter(a, b) && NotAfter(b, c)
    ensures NotAfter(a, c)
  {}

  lemma NotAfterTotal(a: Date, b: Date)
    ensures NotAfter(a, b) || NotAfter(b, a)
  {}

  /** The calendar day after `d` (same time of day). */
  function NextDay(d: Date): (r: Date)
    requires 0 <= d.month < 12
  {
    if d.day < DaysInMonth(d.year, d.month) then Date(d.year, d.month, d.day + 1, d.ms)
    else if d.month == 11 then Date(d.year + 1, 0, 1, d.ms)
    else Date(d.year, d.month + 1, 1, d.ms)
  }

  /** `d.setUTCMonth(d.getUTCMonth() + n)`: move `n` calendar months (any sign),
      carrying whole years into the year, keeping day and time; a day past the
      end of the target month rolls over into the month after it. */
  function AddMonths(d: Date, n: int): (r: Date)
    ensures 0 <= r.month < 12
  {
    var t := d.month + n;
    var y := d.year + t / 12;
    var m := t % 12;
    var dim := DaysInMonth(y, m);
    if d.day <= dim then Date(y, m, d.day, d.ms)
    else if m == 11 then Date(y + 1, 0, d.day - dim, d.ms)
    else Date(y, m + 1, d.day - dim, d.ms)
  }

  /** `d.setUTCDate(d.getUTCDate() - 1)`: one calendar day back; day 0 is the
      last day of the previous month (of the previous year in January). */
  function PrevDay(d: Date): (r: Date)
    requires 0 <= d.month < 12
    ensures 0 <= r.month < 12
  {
    if d.day > 1 then Date(d.year, d.month, d.day - 1, d.ms)
    else if d.month == 0 then Date(d.year - 1, 11, 31, d.ms)
    else Date(d.year, d.month - 1, DaysInMonth(d.year, d.month - 1), d.ms)
  }

  /** Moving by whole months keeps the time of day and a valid date valid;
      when the day exists in the target month, the result is exactly `n`
      months later on the same day. */
  lemma AddMonthsMoves(d: Date, n: int)
    ensures AddMonths(d, n).ms == d.ms
    ensures 1 <= d.day ==> 1 <= AddMonths(d, n).day
    ensures Valid(d) ==> Valid(AddMonths(d, n))
    ensures
      var t := d.month + n;
      var r := AddMonths(d, n);
      d.day <= DaysInMonth(d.year + t / 12, t % 12) ==>
        12 * r.year + r.month == 12 * d.year + d.month + n && r.day == d.day
  {}

  /** `PrevDay` steps back exactly one day: it is strictly earlier, and on a
      valid date the day after it is the date it started from. */
  lemma PrevDayIsDayBefore(d: Date)
    requires 0 <= d.month < 12
    ensures NotAfter(PrevDay(d), d) && PrevDay(d) != d
    ensures Valid(d) ==> Valid(PrevDay(d)) && NextDay(PrevDay(d)) == d
  {}

  /** Last day of a term of `months` months beginning on `start`: `months`
      months later, one day back. */
  function CoverageEnd(start: Date, months: int): (r: Date)
  {
    PrevDay(AddMonths(start, months))
  }

  /** The year of `CoverageEnd(start, months)` as integer arithmetic: the year
      `months` months after `start`, minus one when that lands on a January 1st. */
  function CoverageEndYear(start: Date, months: int): int
  {
    var t := start.month + months;
    start.year + t / 12 - (if t % 12 == 0 && start.day == 1 then 1 else 0)
  }

  /** The calendar computation and the closed form agree on every real date. */
  lemma CoverageEndYearIsClosedForm(start: Date, months: int)
    requires 0 <= start.month < 12 && 1 <= start.day <= 31
    ensures CoverageEnd(start, months).year == CoverageEndYear(start, months)
  {
    var t := start.month + months;
    var y := start.year + t / 12;
    var m := t % 12;
    var a := AddMonths(start, months);
    if start.day > DaysInMonth(y, m) {
      // the day rolled over, so the month was not December and `a` is not a 1st
      assert m != 11;
      assert a == Date(y, m + 1, start.day - DaysInMonth(y, m), start.ms);
    } else {
      assert a == Date(y, m, start.day, start.ms);
    }
  }

  /** A term of at least one month ends no earlier than the year it starts in. */
  lemma CoverageEndsInOrAfterStartYear(start: Date, months: int)
    requires 0 <= start.month < 12 && 1 <= start.day <= 31
    requires months >= 1
    ensures CoverageEnd(start, months).year >= start.year
  {
    CoverageEndYearIsClosedForm(start, months);
  }

  /** A term of `12 * k` months that starts on January 1st covers exactly the
      `k` calendar years from the start year on. */
  lemma CoverageOfWholeYears(start: Date, k: int)
    requires start.month == 0 && start.day == 1
    ensures CoverageEnd(start, 12 * k).year == start.year + k - 1
  {
    CoverageEndYearIsClosedForm(start, 12 * k);
  }
}
