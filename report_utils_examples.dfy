/** Worked examples of the report's text formats: amounts in three
    currencies, dates with one- and two-digit days, times, and the period
    headings of a quarter, a month and a whole year. */
module ReportUtilsExamples {
  import opened Common
  import opened Dates
  import opened Text
  import M = Model
  import opened ReportUtils

  /** `formatCurrency` of a non-negative amount whose whole and fraction
      texts are given. */
  lemma CurrencyText(symbol: string, amount: int, decimalPlaces: int, whole: string, fraction: string, expected: string)
    requires amount >= 0
    requires WholeText(amount, FractionDigits(decimalPlaces)) == whole
    requires FractionText(amount, FractionDigits(decimalPlaces)) == fraction
    requires symbol + " " + whole + fraction == expected
    ensures FormatCurrency(symbol, amount, decimalPlaces) == expected
  {
    assert symbol + " " + "" + whole + fraction == symbol + " " + whole + fraction;
  }

  /** Two decimal places. */
  lemma FormatDollars()
    ensures FormatCurrency("$", 123450, 2) == "$ 1,234.50"
  {
    DollarsParts();
    DollarsText();
    CurrencyText("$", 123450, 2, "1,234", ".50", "$ 1,234.50");
  }

  lemma DollarsParts()
    ensures WholeText(123450, 2) == "1,234" && FractionText(123450, 2) == ".50"
  {
    assert Pow10(2) == 100;
    assert WholePart(123450, 2) == 1234 && FractionPart(123450, 2) == 50;
    Digits1234();
    Group1234();
    Digits50();
    assert ZeroPad(50, 2) == "50";
  }

  lemma Digits1234()
    ensures NatToString(1234) == "1234"
  {
    NatToStringStep(12);
    NatToStringStep(123);
    NatToStringStep(1234);
    assert [DigitChar(1)] + [DigitChar(2)] + [DigitChar(3)] + [DigitChar(4)] == "1234";
  }

  lemma Group1234()
    ensures GroupThousands("1234") == "1,234"
  {
    assert "1234"[..1] == "1" && "1234"[1..] == "234";
  }

  lemma Digits50()
    ensures NatToString(50) == "50"
  {
    NatToStringStep(50);
    assert [DigitChar(5)] + [DigitChar(0)] == "50";
  }

  /** No decimal places: no point. */
  lemma FormatRupiah()
    ensures FormatCurrency("Rp", 1000000, 0) == "Rp 1,000,000"
  {
    RupiahParts();
    RupiahText();
    CurrencyText("Rp", 1000000, 0, "1,000,000", "", "Rp 1,000,000");
  }

  lemma RupiahParts()
    ensures WholeText(1000000, 0) == "1,000,000" && FractionText(1000000, 0) == ""
  {
    assert WholePart(1000000, 0) == 1000000;
    MillionDigits();
    MillionGrouped();
  }

  lemma ThousandGrouped()
    ensures GroupThousands("1000") == "1,000"
  {
    assert "1000"[..1] == "1" && "1000"[1..] == "000";
  }

  lemma MillionGrouped()
    ensures GroupThousands("1000000") == "1,000,000"
  {
    assert "1000000"[..4] == "1000" && "1000000"[4..] == "000";
    ThousandGrouped();
    assert GroupThousands("1000000") == GroupThousands("1000") + "," + "000";
  }

  lemma MillionDigits()
    ensures NatToString(1000000) == "1000000"
  {
    assert NatToString(1) == "1";
    assert NatToString(10) == NatToString(1) + "0";
    assert NatToString(100) == NatToString(10) + "0";
    assert NatToString(1000) == NatToString(100) + "0";
    assert NatToString(10000) == NatToString(1000) + "0";
    assert NatToString(100000) == NatToString(10000) + "0";
  }

  /** Three decimal places, the last one a padding zero. */
  lemma FormatCents()
    ensures FormatCurrency("¢", 56780, 3) == "¢ 56.780"
  {
    CentsParts();
    CentsText();
    CurrencyText("¢", 56780, 3, "56", ".780", "¢ 56.780");
  }

  lemma CentsParts()
    ensures WholeText(56780, 3) == "56" && FractionText(56780, 3) == ".780"
  {
    assert Pow10(3) == 1000;
    assert WholePart(56780, 3) == 56 && FractionPart(56780, 3) == 780;
    assert NatToString(56) == "56" by {
      assert NatToString(5) == "5";
    }
    assert ZeroPad(780, 3) == "780" by {
      assert NatToString(78) == NatToString(7) + "8";
      assert NatToString(780) == NatToString(78) + "0";
    }
  }

  /** Three decimal places, all of them significant, and two groups. */
  lemma FormatPounds()
    ensures FormatCurrency("£", 1234567891, 3) == "£ 1,234,567.891"
  {
    PoundsParts();
    PoundsText();
    CurrencyText("£", 1234567891, 3, "1,234,567", ".891", "£ 1,234,567.891");
  }

  lemma PoundsParts()
    ensures WholeText(1234567891, 3) == "1,234,567" && FractionText(1234567891, 3) == ".891"
  {
    assert Pow10(3) == 1000;
    assert WholePart(1234567891, 3) == 1234567 && FractionPart(1234567891, 3) == 891;
    Digits1234567();
    Group1234567();
    assert ZeroPad(891, 3) == "891" by {
      NatToStringStep(89);
      NatToStringStep(891);
      assert [DigitChar(8)] + [DigitChar(9)] + [DigitChar(1)] == "891";
    }
  }

  lemma Digits1234567()
    ensures NatToString(1234567) == "1234567"
  {
    Digits1234();
    NatToStringStep(12345);
    NatToStringStep(123456);
    NatToStringStep(1234567);
    assert "1234" + [DigitChar(5)] + [DigitChar(6)] + [DigitChar(7)] == "1234567";
  }

  lemma Group1234567()
    ensures GroupThousands("1234567") == "1,234,567"
  {
    assert "1234567"[..4] == "1234" && "1234567"[4..] == "567";
    Group1234();
    assert GroupThousands("1234567") == GroupThousands("1234") + "," + "567";
  }

  lemma PoundsText()
    ensures "£" + " " + "1,234,567" + ".891" == "£ 1,234,567.891"
  {
    var s := "£" + " ";
    assert s == "£ ";
    s := s + "1,234,567";
    assert s == "£ 1,234,567";
    s := s + ".891";
    assert s == "£ 1,234,567.891";
  }

  lemma Digits2023()
    ensures NatToString(2023) == "2023"
  {
    NatToStringStep(20);
    NatToStringStep(202);
    NatToStringStep(2023);
    assert [DigitChar(2)] + [DigitChar(0)] + [DigitChar(2)] + [DigitChar(3)] == "2023";
  }

  lemma Digits2021()
    ensures NatToString(2021) == "2021"
  {
    NatToStringStep(20);
    NatToStringStep(202);
    NatToStringStep(2021);
    assert [DigitChar(2)] + [DigitChar(0)] + [DigitChar(2)] + [DigitChar(1)] == "2021";
  }

  lemma Digits2020()
    ensures NatToString(2020) == "2020"
  {
    NatToStringStep(20);
    NatToStringStep(202);
    NatToStringStep(2020);
    assert [DigitChar(2)] + [DigitChar(0)] + [DigitChar(2)] + [DigitChar(0)] == "2020";
  }

  lemma Year2023()
    ensures YearText(2023) == "2023"
  {
    Digits2023();
    YearDigits(2023);
  }

  lemma Year2021()
    ensures YearText(2021) == "2021"
  {
    Digits2021();
    YearDigits(2021);
  }

  /** A two-digit day. */
  lemma FormatDate18June2023()
    ensures FormatDate(Some(Date(2023, 6, 18))) == "18 Jun 2023"
  {
    NatToStringStep(18);
    assert [DigitChar(1)] + [DigitChar(8)] == "18";
    Year2023();
    DateText(Date(2023, 6, 18), "18", "Jun", "2023");
    assert "18" + " " + "Jun" + " " + "2023" == "18 Jun 2023";
  }

  /** `formatDate` of a date with a one-digit day. */
  lemma OneDigitDate(d: Date, month: string, year: string, expected: string)
    requires Valid(d) && d.day < 10 && MonthAbbreviations[d.month - 1] == month && YearText(d.year) == year
    requires [DigitChar(d.day)] + " " + month + " " + year == expected
    ensures FormatDate(Some(d)) == expected
  {
    OneDigit(d.day);
  }

  /** A one-digit day, without padding. */
  lemma FormatDate5January2021()
    ensures FormatDate(Some(Date(2021, 1, 5))) == "5 Jan 2021"
  {
    Year2021();
    Text5January2021();
    OneDigitDate(Date(2021, 1, 5), "Jan", "2021", "5 Jan 2021");
  }

  /** Hours and minutes are padded to two digits; seconds never show. */
  lemma FormatTimeExamples()
    ensures FormatTime(Some(Time(20, 15, 0))) == "20:15"
    ensures FormatTime(Some(Time(0, 0, 0))) == "00:00"
    ensures FormatTime(Some(Time(23, 59, 59))) == "23:59"
    ensures FormatTime(Some(Time(5, 7, 9))) == "05:07"
    ensures FormatTime(None) == ""
  {
    TimeText(Time(20, 15, 0), "20:15");
    TimeText(Time(0, 0, 0), "00:00");
    TimeText(Time(23, 59, 59), "23:59");
    TimeText(Time(5, 7, 9), "05:07");
  }

  /** `formatTime` of a time whose four digits spell `expected`. */
  lemma TimeText(t: Time, expected: string)
    requires ValidTime(t)
    requires [DigitChar(t.hour / 10), DigitChar(t.hour % 10), ':', DigitChar(t.minute / 10), DigitChar(t.minute % 10)] == expected
    ensures FormatTime(Some(t)) == expected
  {
    TwoDigits(t.hour);
    TwoDigits(t.minute);
  }

  lemma FormatDate1January2023()
    ensures FormatDate(Some(Date(2023, 1, 1))) == "1 Jan 2023"
  {
    Year2023();
    Text1January2023();
    OneDigitDate(Date(2023, 1, 1), "Jan", "2023", "1 Jan 2023");
  }

  lemma FormatDate31March2023()
    ensures FormatDate(Some(Date(2023, 3, 31))) == "31 Mar 2023"
  {
    NatToStringStep(31);
    assert [DigitChar(3)] + [DigitChar(1)] == "31";
    Year2023();
    DateText(Date(2023, 3, 31), "31", "Mar", "2023");
    assert "31" + " " + "Mar" + " " + "2023" == "31 Mar 2023";
  }

  /** A quarter shows its dates. */
  lemma GetPeriodQ1Of2023(today: Date)
    ensures GetPeriod(M.DateRangeBoundaries(Date(2023, 1, 1), Date(2023, 3, 31), "Q1", 2023), today)
            == "Q1 2023 (1 Jan 2023—31 Mar 2023)"
  {
    FormatDate1January2023();
    FormatDate31March2023();
    Digits2023();
    PeriodText(M.DateRangeBoundaries(Date(2023, 1, 1), Date(2023, 3, 31), "Q1", 2023), today,
               "2023", "1 Jan 2023", "31 Mar 2023");
    Q1Heading();
  }

  lemma Q1Heading()
    ensures "Q1" + " " + "2023" + " (" + "1 Jan 2023" + "—" + "31 Mar 2023" + ")" == "Q1 2023 (1 Jan 2023—31 Mar 2023)"
  {
    var h := "Q1" + " " + "2023";
    assert h == "Q1 2023";
    var h1 := h + " (" + "1 Jan 2023";
    assert h1 == "Q1 2023 (1 Jan 2023";
    var h2 := h1 + "—" + "31 Mar 2023" + ")";
    assert h2 == "Q1 2023 (1 Jan 2023—31 Mar 2023)";
  }

  /** A month does not, unless it ends today. */
  lemma GetPeriodMay2021(today: Date)
    requires today != Date(2021, 5, 31)
    ensures GetPeriod(M.DateRangeBoundaries(Date(2021, 5, 1), Date(2021, 5, 31), "May", 2021), today) == "May 2021"
  {
    Digits2021();
  }

  /** Nor does the whole year, unless it ends today. */
  lemma GetPeriodAllYear2020(today: Date)
    requires today != Date(2020, 12, 31)
    ensures GetPeriod(M.DateRangeBoundaries(Date(2020, 1, 1), Date(2020, 12, 31), "All Year", 2020), today) == "All Year 2020"
  {
    Digits2020();
  }

  lemma Text5January2021()
    ensures [DigitChar(5)] + " " + "Jan" + " " + "2021" == "5 Jan 2021"
  {
    var s := [DigitChar(5)] + " ";
    assert s == "5 ";
    s := s + "Jan";
    assert s == "5 Jan";
    s := s + " ";
    assert s == "5 Jan ";
    s := s + "2021";
    assert s == "5 Jan 2021";
  }

  lemma Text1January2023()
    ensures [DigitChar(1)] + " " + "Jan" + " " + "2023" == "1 Jan 2023"
  {
    var s := [DigitChar(1)] + " ";
    assert s == "1 ";
    s := s + "Jan";
    assert s == "1 Jan";
    s := s + " ";
    assert s == "1 Jan ";
    s := s + "2023";
    assert s == "1 Jan 2023";
  }

  lemma DollarsText()
    ensures "$" + " " + "1,234" + ".50" == "$ 1,234.50"
  {
    var s := "$" + " ";
    assert s == "$ ";
    s := s + "1,234";
    assert s == "$ 1,234";
    s := s + ".50";
    assert s == "$ 1,234.50";
  }

  lemma RupiahText()
    ensures "Rp" + " " + "1,000,000" + "" == "Rp 1,000,000"
  {
    var s := "Rp" + " ";
    assert s == "Rp ";
    s := s + "1,000,000";
    assert s == "Rp 1,000,000";
    assert s + "" == s;
  }

  lemma CentsText()
    ensures "¢" + " " + "56" + ".780" == "¢ 56.780"
  {
    var s := "¢" + " ";
    assert s == "¢ ";
    s := s + "56";
    assert s == "¢ 56";
    s := s + ".780";
    assert s == "¢ 56.780";
  }
}
