/** Calendar dates of the proleptic Gregorian calendar, as the core uses them:
    ordering (`isBefore`), clamping (`coerceAtMost`), month ends and the
    one-day steps `minusDays(1)` / `plusDays(1)`. */
module Dates {

  datatype Date = Date(year: int, month: int, day: int)

  predicate IsLeapYear(y: int) {
    (y % 4 == 0 && y % 100 != 0) || y % 400 == 0
  }

  /** The number of days of month `m` of year `y`. */
  function MonthLength(y: int, m: int): (n: int)
    requires 1 <= m <= 12
    ensures 28 <= n <= 31
    ensures m == 2 ==> (n == 29 <==> IsLeapYear(y))
    ensures m != 2 ==> (n == 30 <==> m in {4, 6, 9, 11})
  {
    if m == 2 then (if IsLeapYear(y) then 29 else 28)
    else if m == 4 || m == 6 || m == 9 || m == 11 then 30
    else 31
  }

  ghost predicate Valid(d: Date) {
    1 <= d.month <= 12 && 1 <= d.day <= MonthLength(d.year, d.month)
  }

  /** `a.isBefore(b)`: strictly earlier in the calendar. */
  predicate Before(a: Date, b: Date) {
    a.year < b.year
    || (a.year == b.year && (a.month < b.month || (a.month == b.month && a.day < b.day)))
  }

  /** `a.coerceAtMost(b)`: the earlier of the two dates. */
  function Min(a: Date, b: Date): (r: Date)
    ensures r == a || r == b
    ensures !Before(a, r) && !Before(b, r)
  {
    if Before(b, a) then b else a
  }

  /** The last day of a month. */
  function EndOfMonth(y: int, m: int): (d: Date)
    requires 1 <= m <= 12
    ensures Valid(d) && d.year == y && d.month == m
    ensures forall x :: Valid(x) && x.year == y && x.month == m ==> !Before(d, x)
  {
    Date(y, m, MonthLength(y, m))
  }

  /** `minusDays(1)` */
  function PrevDay(d: Date): Date
    requires Valid(d)
  {
    if d.day > 1 then Date(d.year, d.month, d.day - 1)
    else if d.month > 1 then Date(d.year, d.month - 1, MonthLength(d.year, d.month - 1))
    else Date(d.year - 1, 12, 31)
  }

  /** `plusDays(1)` */
  function NextDay(d: Date): Date
    requires Valid(d)
  {
    if d.day < MonthLength(d.year, d.month) then Date(d.year, d.month, d.day + 1)
    else if d.month < 12 then Date(d.year, d.month + 1, 1)
    else Date(d.year + 1, 1, 1)
  }

  /** `minusDays(1)` gives the immediate predecessor: a valid date that is
      earlier, with no valid date strictly between the two. */
  lemma PrevDayIsPredecessor(d: Date)
    requires Valid(d)
    ensures Valid(PrevDay(d)) && Before(PrevDay(d), d)
    ensures forall x :: Valid(x) && Before(x, d) ==> !Before(PrevDay(d), x)
  {
  }

  /** `plusDays(1)` gives the immediate successor. */
  lemma NextDayIsSuccessor(d: Date)
    requires Valid(d)
    ensures Valid(NextDay(d)) && Before(d, NextDay(d))
    ensures forall x :: Valid(x) && Before(d, x) ==> !Before(x, NextDay(d))
  {
  }

  /** The two steps undo each other. */
  lemma StepsRoundTrip(d: Date)
    requires Valid(d)
    ensures Valid(PrevDay(d)) && NextDay(PrevDay(d)) == d
    ensures Valid(NextDay(d)) && PrevDay(NextDay(d)) == d
  {
  }

  /** `isBefore` is a strict total order. */
  lemma BeforeIsStrictTotalOrder(a: Date, b: Date, c: Date)
    ensures !Before(a, a)
    ensures Before(a, b) ==> !Before(b, a)
    ensures Before(a, b) && Before(b, c) ==> Before(a, c)
    ensures a != b ==> Before(a, b) || Before(b, a)
  {
  }
}
