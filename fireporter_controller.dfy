/** The period and year choices the main window offers: every month and
    every fixed period for a past year, and for the current year only the
    months so far and the periods already over. */
module FireporterController {
  import opened Common
  import opened Dates
  import opened DateRangeResolver

  const FixedPeriods: seq<string> := ["Q1", "Q2", "Q3", "H1", "H2", "All Year"]

  /** The choices for a past year. */
  function FullYearPeriods(): seq<string> {
    MonthNames + FixedPeriods
  }

  /** `getFullYearPeriods`. */
  method GetFullYearPeriods() returns (options: seq<string>)
    ensures options == FullYearPeriods()
  {
    options := [];
    options := options + MonthNames;
    options := options + ["Q1", "Q2", "Q3", "H1", "H2", "All Year"];
  }

  /** The twelve months in calendar order, then Q1, Q2, Q3, H1, H2 and the
      whole year: eighteen distinct choices, Q4 not among them. */
  lemma FullYearPeriodsShape()
    ensures var p := FullYearPeriods();
            |p| == 18 && p[..12] == MonthNames && p[12..] == ["Q1", "Q2", "Q3", "H1", "H2", "All Year"]
            && "Q4" !in p && Distinct(p)
  {
    var p := FullYearPeriods();
    assert p[..12] == MonthNames;
    assert p[12..] == FixedPeriods;
    MonthNamesDistinct();
    NoMonthIsFixed();
    FixedPeriodsDistinct();
    DistinctConcat(MonthNames, FixedPeriods);
    assert "Q4" !in MonthNames by {
      forall x | x in MonthNames ensures x != "Q4" {
        assert |x| >= 3;
      }
    }
  }

  lemma FixedPeriodsDistinct()
    ensures Distinct(FixedPeriods) && "Q4" !in FixedPeriods
  {
  }

  /** The choices for the current year in month `currentMonth`. */
  function CurrentYearPeriods(currentMonth: int): seq<string>
    requires 1 <= currentMonth <= 12
  {
    MonthNames[..currentMonth]
      + (if currentMonth > 4 then ["Q1"] else [])
      + (if currentMonth > 8 then ["Q2"] else [])
      + (if currentMonth > 9 then ["Q3"] else [])
      + (if currentMonth > 6 then ["H1"] else [])
      + ["All Year"]
  }

  /** `getCurrentYearPeriods`. */
  method GetCurrentYearPeriods(currentMonth: int) returns (options: seq<string>)
    requires 1 <= currentMonth <= 12
    ensures options == CurrentYearPeriods(currentMonth)
  {
    options := [];
    options := options + MonthNames[..currentMonth];
    if currentMonth > 4 { options := options + ["Q1"]; }
    if currentMonth > 8 { options := options + ["Q2"]; }
    if currentMonth > 9 { options := options + ["Q3"]; }
    if currentMonth > 6 { options := options + ["H1"]; }
    options := options + ["All Year"];
  }

  /** The fixed periods the current-year list offers after its months. */
  function CurrentYearExtras(currentMonth: int): seq<string> {
    (if currentMonth > 4 then ["Q1"] else [])
      + (if currentMonth > 8 then ["Q2"] else [])
      + (if currentMonth > 9 then ["Q3"] else [])
      + (if currentMonth > 6 then ["H1"] else [])
  }

  /** The current-year list opens with the months so far, in order, and
      closes with the whole year. */
  lemma CurrentYearPeriodsLayout(currentMonth: int)
    requires 1 <= currentMonth <= 12
    ensures var p := CurrentYearPeriods(currentMonth);
            p == MonthNames[..currentMonth] + CurrentYearExtras(currentMonth) + ["All Year"]
            && p[..currentMonth] == MonthNames[..currentMonth]
            && p[|p| - 1] == "All Year"
  {
  }

  /** Q1 is offered from May, H1 from July, Q2 from September and Q3 from
      October, in that order; Q4 and H2 never are. */
  lemma CurrentYearExtrasShape(currentMonth: int)
    ensures var e := CurrentYearExtras(currentMonth);
            |e| == (if currentMonth > 4 then 1 else 0) + (if currentMonth > 8 then 1 else 0)
                   + (if currentMonth > 9 then 1 else 0) + (if currentMonth > 6 then 1 else 0)
            && ("Q1" in e <==> currentMonth > 4)
            && ("Q2" in e <==> currentMonth > 8)
            && ("Q3" in e <==> currentMonth > 9)
            && ("H1" in e <==> currentMonth > 6)
            && "Q4" !in e && "H2" !in e && "All Year" !in e
            && (forall x :: x in e ==> x in FixedPeriods)
            && Distinct(e)
  {
    var e := CurrentYearExtras(currentMonth);
    if currentMonth > 9 {
      assert e == ["Q1", "Q2", "Q3", "H1"];
    } else if currentMonth > 8 {
      assert e == ["Q1", "Q2", "H1"];
    } else if currentMonth > 6 {
      assert e == ["Q1", "H1"];
    } else if currentMonth > 4 {
      assert e == ["Q1"];
    } else {
      assert e == [];
    }
  }

  /** No fixed period is named like a month. */
  lemma NoMonthIsFixed()
    ensures forall x, y :: x in MonthNames && y in FixedPeriods ==> x != y
  {
    forall x, y | x in MonthNames && y in FixedPeriods ensures x != y {
      if y == "All Year" {
        assert y[0] == 'A' && y[1] == 'l';
      } else {
        assert |y| == 2;
      }
    }
  }

  lemma DistinctConcat(a: seq<string>, b: seq<string>)
    requires Distinct(a) && Distinct(b)
    requires forall x, y :: x in a && y in b ==> x != y
    ensures Distinct(a + b)
  {
    var p := a + b;
    forall i, j | 0 <= i < j < |p| ensures p[i] != p[j] {
      if j < |a| {
        assert p[i] == a[i] && p[j] == a[j];
      } else if i >= |a| {
        assert p[i] == b[i - |a|] && p[j] == b[j - |a|];
      } else {
        assert p[i] in a && p[j] in b;
      }
    }
  }

  /** No label is offered twice in the current-year list. */
  lemma CurrentYearPeriodsDistinct(currentMonth: int)
    requires 1 <= currentMonth <= 12
    ensures Distinct(CurrentYearPeriods(currentMonth))
  {
    var months, tail := MonthNames[..currentMonth], CurrentYearExtras(currentMonth) + ["All Year"];
    CurrentYearPeriodsLayout(currentMonth);
    MonthPrefix(currentMonth);
    ExtrasTail(currentMonth);
    NoMonthIsFixed();
    DistinctConcat(months, tail);
    assert months + tail == CurrentYearPeriods(currentMonth);
  }

  /** The first `k` months are distinct months. */
  lemma MonthPrefix(k: int)
    requires 0 <= k <= 12
    ensures Distinct(MonthNames[..k]) && forall x :: x in MonthNames[..k] ==> x in MonthNames
  {
    var months := MonthNames[..k];
    MonthNamesDistinct();
    forall i, j | 0 <= i < j < |months| ensures months[i] != months[j] {
      assert months[i] == MonthNames[i] && months[j] == MonthNames[j];
    }
  }

  /** What follows the months in the current-year list: distinct fixed
      periods. */
  lemma ExtrasTail(currentMonth: int)
    ensures var tail := CurrentYearExtras(currentMonth) + ["All Year"];
            Distinct(tail) && forall y :: y in tail ==> y in FixedPeriods
  {
    var extras := CurrentYearExtras(currentMonth);
    CurrentYearExtrasShape(currentMonth);
    DistinctConcat(extras, ["All Year"]);
  }

  /** `updatePeriodOptions`: a year before the current one gets the full
      list, any other the current-year list. */
  function PeriodOptions(selectedYear: int, currentYear: int, currentMonth: int): seq<string>
    requires 1 <= currentMonth <= 12
  {
    if selectedYear < currentYear then FullYearPeriods() else CurrentYearPeriods(currentMonth)
  }

  /** `setupYearComboBox`: last year and this year. */
  function YearOptions(currentYear: int): (years: seq<int>)
    ensures |years| == 2 && years[0] + 1 == years[1] == currentYear
  {
    [currentYear - 1, currentYear]
  }

  /** Every label on offer is one the date-range resolver maps to months,
      so for a four-digit year every choice resolves. */
  lemma EveryOfferedPeriodResolves(selectedYear: int, currentYear: int, currentMonth: int, today: Date)
    requires 1 <= currentMonth <= 12 && ParsableYear(selectedYear)
    ensures forall p :: p in PeriodOptions(selectedYear, currentYear, currentMonth) ==> Resolve(p, selectedYear, today).Ok?
  {
    forall p | p in PeriodOptions(selectedYear, currentYear, currentMonth)
      ensures Resolve(p, selectedYear, today).Ok?
    {
      assert p in MonthNames || p in FixedPeriods by {
        if selectedYear >= currentYear {
          CurrentYearPeriodsLayout(currentMonth);
          CurrentYearExtrasShape(currentMonth);
        }
      }
      PeriodMonthsCorrect(p);
    }
  }
}
