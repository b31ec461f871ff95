/** Resolution of a period label and a year into the report's date range:
    the first day of the period's first month up to the last day of its last
    month, but never past today. */
module DateRangeResolver {
  import opened Common
  import opened Dates
  import opened Model

  /** The English month names the `MMMM` pattern field reads. */
  const MonthNames: seq<string> := [
    "January", "February", "March", "April", "May", "June",
    "July", "August", "September", "October", "November", "December"]

  /** The number of a month name, as `MMMM` parses it (case-sensitive);
      anything else is no month. */
  function MonthNumber(name: string): (r: Option<int>)
    ensures r.Some? ==> 1 <= r.value <= 12 && MonthNames[r.value - 1] == name
  {
    if name == "January" then Some(1)
    else if name == "February" then Some(2)
    else if name == "March" then Some(3)
    else if name == "April" then Some(4)
    else if name == "May" then Some(5)
    else if name == "June" then Some(6)
    else if name == "July" then Some(7)
    else if name == "August" then Some(8)
    else if name == "September" then Some(9)
    else if name == "October" then Some(10)
    else if name == "November" then Some(11)
    else if name == "December" then Some(12)
    else None
  }

  /** The first and last month of a period. The fixed labels name their
      months directly (Q4 stops at November); any other label is read as
      the name of a single month. */
  function PeriodMonths(period: string): (Option<int>, Option<int>) {
    if period == "Q1" then (Some(1), Some(3))
    else if period == "Q2" then (Some(4), Some(6))
    else if period == "Q3" then (Some(7), Some(9))
    else if period == "Q4" then (Some(10), Some(11))
    else if period == "H1" then (Some(1), Some(6))
    else if period == "H2" then (Some(7), Some(12))
    else if period == "All Year" then (Some(1), Some(12))
    else (MonthNumber(period), MonthNumber(period))
  }

  /** The years the `yyyy` field reads back from the year's decimal text:
      exactly four digits in strict parsing. */
  predicate ParsableYear(year: int) { 1000 <= year <= 9999 }

  /** `resolve(period, year)` on day `today`. */
  function Resolve(period: string, year: int, today: Date): Result<DateRangeBoundaries> {
    var (sm, em) := PeriodMonths(period);
    if !ParsableYear(year) || sm.None? || em.None? then Err(DateTimeParse)
    else Ok(DateRangeBoundaries(Date(year, sm.value, 1), Min(EndOfMonth(year, em.value), today), period, year))
  }

  /** No two months share a name. */
  lemma MonthNamesDistinct()
    ensures Distinct(MonthNames)
  {
    forall i, j | 0 <= i < j < 12 ensures MonthNames[i] != MonthNames[j] {
      MonthNamesRoundTrip(i + 1);
      MonthNamesRoundTrip(j + 1);
    }
  }

  /** Every month name is read back as its own number. */
  lemma MonthNamesRoundTrip(m: int)
    requires 1 <= m <= 12
    ensures MonthNumber(MonthNames[m - 1]) == Some(m)
  {
  }

  /** A month name stands for that month alone. */
  lemma MonthPeriod(m: int)
    requires 1 <= m <= 12
    ensures PeriodMonths(MonthNames[m - 1]) == (Some(m), Some(m))
  {
    MonthNamesRoundTrip(m);
  }

  /** Resolution succeeds exactly when the year has four digits and the
      label is a fixed period or a month name; then the range starts on the
      first day of the first month, ends on the earlier of the last month's
      end and today, and echoes the label and year. */
  lemma ResolveCorrect(period: string, year: int, today: Date)
    ensures var r := Resolve(period, year, today);
            var (first, last) := PeriodMonths(period);
            && (r.Ok? <==> ParsableYear(year) && first.Some? && last.Some?)
            && (r.Ok? ==>
                  var sm, em := first.value, last.value;
                  r.value.startDate == Date(year, sm, 1)
                  && Valid(r.value.startDate)
                  && r.value.endDate == Min(EndOfMonth(year, em), today)
                  && !Before(today, r.value.endDate)
                  && !Before(EndOfMonth(year, em), r.value.endDate)
                  && (!Before(today, EndOfMonth(year, em)) ==> r.value.endDate == EndOfMonth(year, em))
                  && (Valid(today) ==> Valid(r.value.endDate))
                  && r.value.period == period && r.value.year == year)
  {
  }

  /** Every label names months in range, the first no later than the last,
      and a label names months exactly when it is a fixed period or a month
      name. */
  lemma PeriodMonthsCorrect(period: string)
    ensures var (first, last) := PeriodMonths(period);
            && (first.Some? <==> last.Some?)
            && (first.Some? <==> period in ["Q1", "Q2", "Q3", "Q4", "H1", "H2", "All Year"] || period in MonthNames)
            && (first.Some? ==> 1 <= first.value <= last.value <= 12)
  {
    if period in MonthNames {
      var m :| 0 <= m < 12 && MonthNames[m] == period;
      MonthNamesRoundTrip(m + 1);
    }
  }

  /** Q1 2023, once it is over. */
  lemma ResolveQ1Of2023(today: Date)
    requires !Before(today, Date(2023, 3, 31))
    ensures Resolve("Q1", 2023, today) == Ok(DateRangeBoundaries(Date(2023, 1, 1), Date(2023, 3, 31), "Q1", 2023))
  {
  }

  /** Q4 2023 stops at the end of November, even once December is over. */
  lemma ResolveQ4Of2023(today: Date)
    requires !Before(today, Date(2023, 12, 31))
    ensures Resolve("Q4", 2023, today) == Ok(DateRangeBoundaries(Date(2023, 10, 1), Date(2023, 11, 30), "Q4", 2023))
  {
  }

  /** H2 2022, once it is over. */
  lemma ResolveH2Of2022(today: Date)
    requires !Before(today, Date(2022, 12, 31))
    ensures Resolve("H2", 2022, today) == Ok(DateRangeBoundaries(Date(2022, 7, 1), Date(2022, 12, 31), "H2", 2022))
  {
  }

  /** The whole of 2020, once it is over. */
  lemma ResolveAllYear2020(today: Date)
    requires !Before(today, Date(2020, 12, 31))
    ensures Resolve("All Year", 2020, today) == Ok(DateRangeBoundaries(Date(2020, 1, 1), Date(2020, 12, 31), "All Year", 2020))
  {
  }

  /** March 2021, once it is over. */
  lemma ResolveMarch2021(today: Date)
    requires !Before(today, Date(2021, 3, 31))
    ensures Resolve("March", 2021, today) == Ok(DateRangeBoundaries(Date(2021, 3, 1), Date(2021, 3, 31), "March", 2021))
  {
    MonthPeriod(3);
  }

  /** February of the leap year 2024 ends on the 29th. */
  lemma ResolveFebruary2024(today: Date)
    requires !Before(today, Date(2024, 2, 29))
    ensures Resolve("February", 2024, today) == Ok(DateRangeBoundaries(Date(2024, 2, 1), Date(2024, 2, 29), "February", 2024))
  {
    MonthPeriod(2);
  }

  /** A year that has not begun yet: the range starts on its first of
      January but ends today, so it ends before it starts. */
  lemma ResolveFutureYear(year: int, today: Date)
    requires ParsableYear(year) && Valid(today) && today.year < year
    ensures Resolve("All Year", year, today).Ok?
    ensures var r := Resolve("All Year", year, today).value;
            r.startDate == Date(year, 1, 1) && r.endDate == today && Before(r.endDate, r.startDate)
            && r.period == "All Year" && r.year == year
  {
  }
}
