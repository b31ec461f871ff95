/** The text formats of the report: money with a currency symbol, dates as
    `d MMM yyyy`, times as `HH:mm`, and the period heading. */
module ReportUtils {
  import opened Common
  import opened Dates
  import opened Text
  import opened Model

  function Pow10(k: nat): (p: nat)
    ensures p >= 1
  {
    if k == 0 then 1 else 10 * Pow10(k - 1)
  }

  // ---------------------------------------------------------------- money

  /** The `DecimalFormat` pattern `formatCurrency` builds: grouped integer
      digits, then a point and `decimalPlaces` zeros when that is positive. */
  function CurrencyPattern(decimalPlaces: int): string {
    "#,##0" + (if decimalPlaces > 0 then "." + Repeat('0', decimalPlaces) else "")
  }

  /** The pattern-building loop. */
  method BuildCurrencyPattern(decimalPlaces: int) returns (pattern: string)
    ensures pattern == CurrencyPattern(decimalPlaces)
  {
    pattern := "#,##0";
    if decimalPlaces > 0 {
      pattern := pattern + ".";
      var i := 0;
      while i < decimalPlaces
        invariant 0 <= i <= decimalPlaces
        invariant pattern == "#,##0" + "." + Repeat('0', i)
      {
        pattern := pattern + "0";
        i := i + 1;
      }
    }
  }

  /** The number of fraction digits the pattern fixes: the zeros after its
      point, none when it has no point. */
  lemma CurrencyPatternFraction(decimalPlaces: int)
    ensures var p := CurrencyPattern(decimalPlaces);
            p[..5] == "#,##0"
            && ('.' in p <==> decimalPlaces > 0)
            && (decimalPlaces > 0 ==> p[5] == '.' && |p| == 6 + decimalPlaces
                                      && forall i :: 6 <= i < |p| ==> p[i] == '0')
            && (decimalPlaces <= 0 ==> |p| == 5)
  {
  }

  /** The fraction digits the pattern of `decimalPlaces` shows. */
  function FractionDigits(decimalPlaces: int): nat {
    if decimalPlaces > 0 then decimalPlaces else 0
  }

  /** Digits with a comma before every group of three, counted from the
      right (the `#,##0` grouping). */
  function GroupThousands(digits: string): (g: string)
    decreases |digits|
  {
    if |digits| <= 3 then digits
    else GroupThousands(digits[..|digits| - 3]) + "," + digits[|digits| - 3..]
  }

  /** The text with its commas taken out. */
  function Ungroup(g: string): (s: string) {
    if g == [] then [] else Ungroup(g[..|g| - 1]) + (if g[|g| - 1] == ',' then [] else [g[|g| - 1]])
  }

  lemma {:induction false} UngroupAppend(a: string, b: string)
    ensures Ungroup(a + b) == Ungroup(a) + Ungroup(b)
    decreases |b|
  {
    if b == [] {
      assert a + b == a;
    } else {
      assert (a + b)[..|a + b| - 1] == a + b[..|b| - 1];
      UngroupAppend(a, b[..|b| - 1]);
    }
  }

  lemma {:induction false} UngroupDigits(d: string)
    requires AllDigits(d)
    ensures Ungroup(d) == d
  {
    if d != [] {
      UngroupDigits(d[..|d| - 1]);
    }
  }

  /** Grouping only inserts commas. */
  lemma {:induction false} GroupThousandsUngroup(digits: string)
    requires AllDigits(digits)
    ensures Ungroup(GroupThousands(digits)) == digits
    decreases |digits|
  {
    if |digits| <= 3 {
      UngroupDigits(digits);
    } else {
      var head, tail := digits[..|digits| - 3], digits[|digits| - 3..];
      GroupThousandsUngroup(head);
      var gh := GroupThousands(head);
      assert GroupThousands(digits) == (gh + ",") + tail;
      UngroupJoin(gh, head, tail);
      assert head + tail == digits;
    }
  }

  /** A comma between a grouped head and a last group of digits. */
  lemma UngroupJoin(gh: string, head: string, tail: string)
    requires Ungroup(gh) == head && AllDigits(tail)
    ensures Ungroup((gh + ",") + tail) == head + tail
  {
    assert Ungroup(",") == [] by { assert ","[..0] == []; }
    UngroupAppend(gh + ",", tail);
    UngroupAppend(gh, ",");
    UngroupDigits(tail);
    assert head + [] == head;
  }

  /** Grouping puts a comma exactly at every fourth position counted from
      the right end, one per full group of three after the first. */
  lemma {:induction false} GroupThousandsCommas(digits: string)
    requires AllDigits(digits)
    ensures var g := GroupThousands(digits);
            (digits != [] ==> |g| == |digits| + (|digits| - 1) / 3)
            && (forall i :: 0 <= i < |g| ==> (g[i] == ',' <==> (|g| - i) % 4 == 0))
    decreases |digits|
  {
    var g := GroupThousands(digits);
    if |digits| > 3 {
      var head, tail := digits[..|digits| - 3], digits[|digits| - 3..];
      GroupThousandsCommas(head);
      var gh := GroupThousands(head);
      assert g == (gh + ",") + tail;
      CommasJoin(gh, tail);
    }
  }

  /** A comma and a last group of three digits keep the commas every
      fourth position from the right. */
  lemma CommasJoin(gh: string, tail: string)
    requires forall i :: 0 <= i < |gh| ==> (gh[i] == ',' <==> (|gh| - i) % 4 == 0)
    requires |tail| == 3 && AllDigits(tail)
    ensures var g := (gh + ",") + tail;
            forall i :: 0 <= i < |g| ==> (g[i] == ',' <==> (|g| - i) % 4 == 0)
  {
    var g := (gh + ",") + tail;
    forall i | 0 <= i < |g| ensures g[i] == ',' <==> (|g| - i) % 4 == 0 {
      if i < |gh| {
        assert g[i] == gh[i];
      } else if i > |gh| {
        assert g[i] == tail[i - |gh| - 1] && IsDigit(tail[i - |gh| - 1]);
      }
    }
  }

  function Magnitude(amount: int): nat {
    if amount < 0 then -amount else amount
  }

  /** The whole units of `m` smallest units, `k` fraction digits each. */
  function WholePart(m: nat, k: nat): nat {
    DivNonNegative(m, Pow10(k));
    m / Pow10(k)
  }

  lemma DivNonNegative(m: int, p: int)
    requires m >= 0 && p > 0
    ensures m / p >= 0
  {
  }

  function FractionPart(m: nat, k: nat): (f: nat)
    ensures f < Pow10(k)
  {
    m % Pow10(k)
  }

  lemma SplitMagnitude(m: nat, k: nat)
    ensures WholePart(m, k) * Pow10(k) + FractionPart(m, k) == m
  {
  }

  /** The fraction digits: a point and the remainder padded to exactly `k`
      digits, nothing when `k` is zero. */
  function FractionText(m: nat, k: nat): string {
    if k > 0 then "." + ZeroPad(FractionPart(m, k), k) else ""
  }

  /** The grouped whole units of an amount. */
  function WholeText(amount: int, k: nat): string {
    GroupThousands(NatToString(WholePart(Magnitude(amount), k)))
  }

  /** `formatCurrency(symbol, amount, decimalPlaces)` with the amount given
      as a whole number of the smallest unit the pattern shows (hundredths
      for two decimal places, whole units for none). */
  function FormatCurrency(symbol: string, amount: int, decimalPlaces: int): string {
    var k := FractionDigits(decimalPlaces);
    symbol + " " + (if amount < 0 then "-" else "") + WholeText(amount, k) + FractionText(Magnitude(amount), k)
  }

  lemma {:induction false} NatToStringFits(n: nat, w: nat)
    requires w >= 1 && n < Pow10(w)
    ensures |NatToString(n)| <= w
    decreases n
  {
    if n >= 10 {
      NatToStringFits(n / 10, w - 1);
    }
  }

  /** The fraction text is a point and exactly `k` digits, which read back
      to the remainder; it is empty when `k` is zero. */
  lemma FractionTextCorrect(m: nat, k: nat)
    ensures var t := FractionText(m, k);
            (k == 0 ==> t == "")
            && (k > 0 ==> |t| == k + 1 && t[0] == '.' && AllDigits(t[1..]) && DigitsValue(t[1..]) == FractionPart(m, k))
  {
    if k > 0 {
      NatToStringFits(FractionPart(m, k), k);
      ZeroPadValue(FractionPart(m, k), k);
      assert FractionText(m, k)[1..] == ZeroPad(FractionPart(m, k), k);
    }
  }

  /** The whole text is digits grouped by commas, and removing the commas
      gives the decimal digits of the whole units. */
  lemma WholeTextCorrect(amount: int, k: nat)
    ensures var whole := WholeText(amount, k);
            (forall i :: 0 <= i < |whole| ==> (whole[i] == ',' <==> (|whole| - i) % 4 == 0))
            && AllDigits(Ungroup(whole))
            && DigitsValue(Ungroup(whole)) == WholePart(Magnitude(amount), k)
  {
    var w := WholePart(Magnitude(amount), k);
    GroupThousandsUngroup(NatToString(w));
    GroupThousandsCommas(NatToString(w));
    NatToStringRoundTrip(w);
  }

  /** The text is the symbol, a space, a minus sign exactly for negative
      amounts, the grouped whole part, and then a point and exactly
      `decimalPlaces` digits when that is positive; the whole and fraction
      digits read back to the amount. */
  lemma FormatCurrencyParts(symbol: string, amount: int, decimalPlaces: int)
    ensures var k := FractionDigits(decimalPlaces);
            var whole := WholeText(amount, k);
            var fraction := FractionText(Magnitude(amount), k);
            && FormatCurrency(symbol, amount, decimalPlaces)
               == symbol + " " + (if amount < 0 then "-" else "") + whole + fraction
            && (decimalPlaces <= 0 ==> fraction == "")
            && (decimalPlaces > 0 ==> |fraction| == decimalPlaces + 1 && fraction[0] == '.' && AllDigits(fraction[1..]))
            && AllDigits(Ungroup(whole))
            && DigitsValue(Ungroup(whole)) * Pow10(k) + (if k > 0 then DigitsValue(fraction[1..]) else 0) == Magnitude(amount)
  {
    var k := FractionDigits(decimalPlaces);
    WholeTextCorrect(amount, k);
    FractionTextCorrect(Magnitude(amount), k);
    SplitMagnitude(Magnitude(amount), k);
  }

  // ---------------------------------------------------------------- dates and times

  const MonthAbbreviations: seq<string> :=
    ["Jan", "Feb", "Mar", "Apr", "May", "Jun", "Jul", "Aug", "Sep", "Oct", "Nov", "Dec"]

  /** The `yyyy` field: the year of the era, padded to four digits, with a
      plus sign once it needs more than four. */
  function YearText(year: int): string {
    var yearOfEra: nat := if year >= 1 then year else 1 - year;
    if yearOfEra > 9999 then "+" + NatToString(yearOfEra) else ZeroPad(yearOfEra, 4)
  }

  /** `formatDate`: empty for no date, otherwise `d MMM yyyy` with English
      month abbreviations. */
  function FormatDate(date: Option<Date>): string
    requires date.Some? ==> Valid(date.value)
  {
    match date
    case None => ""
    case Some(d) => NatToString(d.day) + " " + MonthAbbreviations[d.month - 1] + " " + YearText(d.year)
  }

  /** A date of a four-digit year prints as its day without leading zero
      (one or two digits), a space, the three letters of its month, a space
      and the four year digits; each part reads back to that field. */
  lemma FormatDateParts(d: Date)
    requires Valid(d) && 1000 <= d.year <= 9999
    ensures var t := FormatDate(Some(d));
            var n := |NatToString(d.day)|;
            && 1 <= n <= 2 && |t| == n + 9
            && AllDigits(t[..n]) && t[0] != '0' && DigitsValue(t[..n]) == d.day
            && t[n] == ' ' && t[n + 1..n + 4] == MonthAbbreviations[d.month - 1] && t[n + 4] == ' '
            && AllDigits(t[n + 5..]) && DigitsValue(t[n + 5..]) == d.year
  {
    var day, year := NatToString(d.day), ZeroPad(d.year, 4);
    NatToStringFits(d.day, 2);
    NatToStringRoundTrip(d.day);
    ZeroPadValue(d.year, 4);
    NatToStringFits(d.year, 4);
    DateText(d, day, MonthAbbreviations[d.month - 1], year);
    DateTextLayout(day, MonthAbbreviations[d.month - 1], year);
  }

  /** `formatDate` of a date whose three fields print as given. */
  lemma DateText(d: Date, day: string, month: string, year: string)
    requires Valid(d) && NatToString(d.day) == day && MonthAbbreviations[d.month - 1] == month
    requires YearText(d.year) == year
    ensures FormatDate(Some(d)) == day + " " + month + " " + year
  {
  }

  /** Where the fields of a `d MMM yyyy` text sit. */
  lemma DateTextLayout(day: string, month: string, year: string)
    requires |month| == 3
    ensures var t := day + " " + month + " " + year;
            var n := |day|;
            |t| == n + 5 + |year| && t[..n] == day && t[n] == ' ' && t[n + 1..n + 4] == month
            && t[n + 4] == ' ' && t[n + 5..] == year
  {
  }

  lemma {:induction false} NatToStringLong(n: nat, w: nat)
    requires n >= Pow10(w)
    ensures |NatToString(n)| >= w + 1
    decreases w
  {
    if w > 0 {
      NatToStringLong(n / 10, w - 1);
    }
  }

  lemma YearDigits(y: nat)
    requires 1000 <= y <= 9999
    ensures YearText(y) == NatToString(y)
  {
    NatToStringFits(y, 4);
    NatToStringLong(y, 3);
  }

  lemma OneDigit(n: nat)
    requires n < 10
    ensures NatToString(n) == [DigitChar(n)]
  {
  }

  /** The digits of a number past ten: those of its tenth, then its last. */
  lemma NatToStringStep(n: nat)
    requires n >= 10
    ensures NatToString(n) == NatToString(n / 10) + [DigitChar(n % 10)]
  {
  }

  datatype Time = Time(hour: int, minute: int, second: int)

  ghost predicate ValidTime(t: Time) {
    0 <= t.hour < 24 && 0 <= t.minute < 60 && 0 <= t.second < 60
  }

  /** `formatTime`: empty for no time, otherwise `HH:mm`. */
  function FormatTime(time: Option<Time>): string
    requires time.Some? ==> ValidTime(time.value)
  {
    match time
    case None => ""
    case Some(t) => ZeroPad(t.hour, 2) + ":" + ZeroPad(t.minute, 2)
  }

  /** A time prints as two hour digits, a colon and two minute digits,
      which read back to the hour and the minute; the seconds are dropped. */
  lemma FormatTimeParts(t: Time)
    requires ValidTime(t)
    ensures var s := FormatTime(Some(t));
            |s| == 5 && s[2] == ':'
            && AllDigits(s[..2]) && DigitsValue(s[..2]) == t.hour
            && AllDigits(s[3..]) && DigitsValue(s[3..]) == t.minute
            && forall sec :: 0 <= sec < 60 ==> FormatTime(Some(Time(t.hour, t.minute, sec))) == s
  {
    NatToStringFits(t.hour, 2);
    NatToStringFits(t.minute, 2);
    ZeroPadValue(t.hour, 2);
    ZeroPadValue(t.minute, 2);
    var s := FormatTime(Some(t));
    assert s[..2] == ZeroPad(t.hour, 2);
    assert s[3..] == ZeroPad(t.minute, 2);
  }

  lemma TwoDigits(n: nat)
    requires n < 100
    ensures ZeroPad(n, 2) == [DigitChar(n / 10), DigitChar(n % 10)]
  {
    if n >= 10 {
      assert NatToString(n) == NatToString(n / 10) + [DigitChar(n % 10)];
    } else {
      assert Repeat('0', 1) == "0";
    }
  }

  // ---------------------------------------------------------------- period heading

  /** The periods whose heading always shows the dates. */
  predicate ShowsRange(period: string) {
    period == "Q1" || period == "Q2" || period == "Q3" || period == "H1" || period == "H2"
  }

  /** `getPeriod` on day `today`: the label and year, followed by the two
      dates in brackets when the range ends today or the label is a
      quarter or half other than Q4. */
  function GetPeriod(range: DateRangeBoundaries, today: Date): string
    requires Valid(range.startDate) && Valid(range.endDate)
  {
    var head := range.period + " " + IntToString(range.year);
    if range.endDate == today || ShowsRange(range.period) then
      head + " (" + FormatDate(Some(range.startDate)) + "—" + FormatDate(Some(range.endDate)) + ")"
    else head
  }

  /** The heading always starts with the label and the year; it closes
      with a bracket exactly when it shows the range. */
  lemma GetPeriodShape(range: DateRangeBoundaries, today: Date)
    requires Valid(range.startDate) && Valid(range.endDate)
    ensures var h := GetPeriod(range, today);
            var head := range.period + " " + IntToString(range.year);
            |h| >= |head| && h[..|head|] == head
            && (h[|h| - 1] == ')' <==> range.endDate == today || ShowsRange(range.period))
  {
    var y := IntToString(range.year);
    var head := range.period + " " + y;
    LastDigit(range.year);
    assert head[|head| - 1] == y[|y| - 1];
    HeadingLayout(head, FormatDate(Some(range.startDate)), FormatDate(Some(range.endDate)),
                  range.endDate == today || ShowsRange(range.period), GetPeriod(range, today));
  }

  /** The decimal text of an integer ends with a digit. */
  lemma LastDigit(n: int)
    ensures var y := IntToString(n); IsDigit(y[|y| - 1])
  {
    var m: nat := if n < 0 then -n else n;
    var y := IntToString(n);
    assert y[|y| - 1] == NatToString(m)[|NatToString(m)| - 1];
  }

  /** A heading is its head, followed by the bracketed dates exactly when
      they show. */
  lemma HeadingLayout(head: string, start: string, end: string, shows: bool, h: string)
    requires h == if shows then head + " (" + start + "—" + end + ")" else head
    requires head != [] && IsDigit(head[|head| - 1])
    ensures |h| >= |head| && h[..|head|] == head && (h[|h| - 1] == ')' <==> shows)
  {
  }

  /** `getPeriod` of a range whose heading shows its dates. */
  lemma PeriodText(range: DateRangeBoundaries, today: Date, year: string, start: string, end: string)
    requires Valid(range.startDate) && Valid(range.endDate)
    requires range.endDate == today || ShowsRange(range.period)
    requires IntToString(range.year) == year
    requires FormatDate(Some(range.startDate)) == start && FormatDate(Some(range.endDate)) == end
    ensures GetPeriod(range, today) == range.period + " " + year + " (" + start + "—" + end + ")"
  {
  }

}
