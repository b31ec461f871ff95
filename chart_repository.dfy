/** The balance-chart series: the series of one currency keyed by account
    label, and all series merged into one ordered key-to-total map. */
module ChartRepository {
  import opened Common
  import opened Dates
  import opened Dto
  import opened Model
  import opened Ktor

  // ----------------------------------------------------------------- getCharts

  /** The entries of one series, in order; the first key that does not parse
      as a date aborts with a parse failure. */
  function SeriesEntries(points: seq<ChartPoint>): (r: Result<seq<ChartEntry>>)
    ensures r.Ok? <==> forall i :: 0 <= i < |points| ==> points[i].date.Some?
    ensures r.Err? ==> r.error == DateTimeParse
    ensures r.Ok? ==> |r.value| == |points|
                      && forall i :: 0 <= i < |points| ==> r.value[i] == ChartEntry(points[i].date.value, points[i].value)
  {
    if points == [] then Ok([])
    else
      match SeriesEntries(points[..|points| - 1])
      case Err(e) => Err(e)
      case Ok(es) =>
        var last := points[|points| - 1];
        if last.date.None? then Err(DateTimeParse) else Ok(es + [ChartEntry(last.date.value, last.value)])
  }

  /** The series of currency `code`, keyed by label, a later series
      replacing an earlier one with the same label. Every series is converted,
      whatever its currency, so a bad key anywhere aborts. */
  function ChartsOf(charts: seq<ChartDto>, code: string): Result<map<string, seq<ChartEntry>>> {
    if charts == [] then Ok(map[])
    else
      match ChartsOf(charts[..|charts| - 1], code)
      case Err(e) => Err(e)
      case Ok(m) =>
        var last := charts[|charts| - 1];
        match SeriesEntries(last.entries)
        case Err(e) => Err(e)
        case Ok(es) => Ok(if last.currencyCode == code then m[last.seriesLabel := es] else m)
  }

  /** What `getCharts` returns. */
  function Charts(server: Server, range: DateRangeBoundaries, code: string): Result<map<string, seq<ChartEntry>>> {
    match SafeRequest(server.charts(range.startDate, range.endDate))
    case Err(e) => Err(e)
    case Ok(fetched) =>
      match ChartsOf(fetched, code)
      case Err(e) => Err(e)
      case Ok(m) => if |m| == 0 then Err(UnusedCurrency) else Ok(m)
  }

  /** The inner loop of `getCharts`: one series' entries. */
  method ConvertEntries(points: seq<ChartPoint>) returns (r: Result<seq<ChartEntry>>)
    ensures r == SeriesEntries(points)
  {
    var entries: seq<ChartEntry> := [];
    for k := 0 to |points|
      invariant SeriesEntries(points[..k]) == Ok(entries)
    {
      assert points[..k + 1][..k] == points[..k];
      var entry := points[k];
      if entry.date.None? {
        SeriesEntriesAbort(points, k);
        return Err(DateTimeParse);
      }
      entries := entries + [ChartEntry(entry.date.value, entry.value)];
    }
    assert points[..|points|] == points;
    r := Ok(entries);
  }

  /** A series whose entries up to `k` convert but whose entry `k` does not
      fails as a whole. */
  lemma {:induction false} SeriesEntriesAbort(points: seq<ChartPoint>, k: int)
    requires 0 <= k < |points| && points[k].date.None?
    requires SeriesEntries(points[..k]).Ok?
    ensures SeriesEntries(points) == Err(DateTimeParse)
  {
    assert points[..k + 1][..k] == points[..k];
    assert SeriesEntries(points[..k + 1]).Err?;
  }

  /** `getCharts`. */
  method GetCharts(server: Server, range: DateRangeBoundaries, code: string) returns (r: Result<map<string, seq<ChartEntry>>>)
    ensures r == Charts(server, range, code)
  {
    var response := SafeRequest(server.charts(range.startDate, range.endDate));
    if response.Err? {
      return Err(response.error);
    }
    var fetchedCharts := response.value;
    var charts: map<string, seq<ChartEntry>> := map[];
    for i := 0 to |fetchedCharts|
      invariant ChartsOf(fetchedCharts[..i], code) == Ok(charts)
    {
      assert fetchedCharts[..i + 1][..i] == fetchedCharts[..i];
      var chart := fetchedCharts[i];
      var entries := ConvertEntries(chart.entries);
      if entries.Err? {
        ChartsOfAbort(fetchedCharts, i, code);
        return Err(entries.error);
      }
      if chart.currencyCode == code {
        charts := charts[chart.seriesLabel := entries.value];
      }
    }
    assert fetchedCharts[..|fetchedCharts|] == fetchedCharts;
    if |charts| == 0 {
      return Err(UnusedCurrency);
    }
    r := Ok(charts);
  }

  lemma {:induction false} ChartsOfAbort(charts: seq<ChartDto>, i: int, code: string)
    requires 0 <= i < |charts| && SeriesEntries(charts[i].entries).Err?
    requires ChartsOf(charts[..i], code).Ok?
    ensures ChartsOf(charts, code) == Err(SeriesEntries(charts[i].entries).error)
  {
    assert charts[..i + 1][..i] == charts[..i];
    ChartsOfFails(charts, i + 1, code);
  }

  /** Once a prefix fails, the whole list fails with the same error. */
  lemma {:induction false} ChartsOfFails(charts: seq<ChartDto>, n: int, code: string)
    requires 0 <= n <= |charts| && ChartsOf(charts[..n], code).Err?
    ensures ChartsOf(charts, code) == ChartsOf(charts[..n], code)
    decreases |charts| - n
  {
    if n < |charts| {
      assert charts[..n + 1][..n] == charts[..n];
      ChartsOfFails(charts, n + 1, code);
    } else {
      assert charts[..n] == charts;
    }
  }

  /** The index of the last series of currency `code` labelled `seriesLabel`, or -1. */
  function LastSeries(charts: seq<ChartDto>, code: string, seriesLabel: string): (r: int)
    ensures -1 <= r < |charts|
    ensures r >= 0 ==> charts[r].currencyCode == code && charts[r].seriesLabel == seriesLabel
    ensures forall j :: r < j < |charts| ==> !(charts[j].currencyCode == code && charts[j].seriesLabel == seriesLabel)
  {
    if charts == [] then -1
    else if charts[|charts| - 1].currencyCode == code && charts[|charts| - 1].seriesLabel == seriesLabel then |charts| - 1
    else LastSeries(charts[..|charts| - 1], code, seriesLabel)
  }

  /** Conversion fails, with a parse failure, exactly when some series of
      any currency has an unparsable key. */
  lemma {:induction false} ChartsOfOkIff(charts: seq<ChartDto>, code: string)
    ensures ChartsOf(charts, code).Ok? <==> forall i :: 0 <= i < |charts| ==> SeriesEntries(charts[i].entries).Ok?
    ensures ChartsOf(charts, code).Err? ==> ChartsOf(charts, code).error == DateTimeParse
  {
    if charts != [] {
      var init, last := charts[..|charts| - 1], charts[|charts| - 1];
      ChartsOfOkIff(init, code);
      assert charts == init + [last];
      AllSeriesParseSplit(init, last);
    }
  }

  /** Every series of `init + [last]` parses exactly when every series of
      `init` does and `last` does too. */
  lemma AllSeriesParseSplit(init: seq<ChartDto>, last: ChartDto)
    ensures var charts := init + [last];
            (forall i :: 0 <= i < |charts| ==> SeriesEntries(charts[i].entries).Ok?)
            <==> (forall i :: 0 <= i < |init| ==> SeriesEntries(init[i].entries).Ok?)
                 && SeriesEntries(last.entries).Ok?
  {
    var charts := init + [last];
    assert forall i :: 0 <= i < |init| ==> init[i] == charts[i];
    assert charts[|init|] == last;
  }

  /** When conversion succeeds, a label is present exactly when a series of
      the currency carries it, and maps to the entries of the last such
      series. */
  lemma {:induction false} ChartsOfKeepsLastSeries(charts: seq<ChartDto>, code: string, seriesLabel: string)
    requires ChartsOf(charts, code).Ok?
    ensures var m, last := ChartsOf(charts, code).value, LastSeries(charts, code, seriesLabel);
            (seriesLabel in m <==> last >= 0)
            && (seriesLabel in m ==> SeriesEntries(charts[last].entries).Ok?
                                      && m[seriesLabel] == SeriesEntries(charts[last].entries).value)
  {
    if charts != [] {
      var init := charts[..|charts| - 1];
      assert ChartsOf(init, code).Ok?;
      ChartsOfKeepsLastSeries(init, code, seriesLabel);
    }
  }

  /** `getCharts` reports an unused currency exactly when the answer
      arrived, every series converted, and no series is in that currency. */
  lemma ChartsUnusedIff(server: Server, range: DateRangeBoundaries, code: string)
    ensures Charts(server, range, code) == Err(UnusedCurrency) <==>
            var resp := SafeRequest(server.charts(range.startDate, range.endDate));
            resp.Ok?
            && (forall i :: 0 <= i < |resp.value| ==> SeriesEntries(resp.value[i].entries).Ok?)
            && (forall i :: 0 <= i < |resp.value| ==> resp.value[i].currencyCode != code)
  {
    var resp := SafeRequest(server.charts(range.startDate, range.endDate));
    if resp.Ok? {
      var cs := resp.value;
      ChartsOfOkIff(cs, code);
      if ChartsOf(cs, code).Ok? {
        var m := ChartsOf(cs, code).value;
        if exists i :: 0 <= i < |cs| && cs[i].currencyCode == code {
          var i :| 0 <= i < |cs| && cs[i].currencyCode == code;
          ChartsOfKeepsLastSeries(cs, code, cs[i].seriesLabel);
          assert LastSeries(cs, code, cs[i].seriesLabel) >= i;
          assert cs[i].seriesLabel in m;
          assert |m| != 0;
        }
        if |m| != 0 {
          var seriesLabel :| seriesLabel in m;
          ChartsOfKeepsLastSeries(cs, code, seriesLabel);
          var last := LastSeries(cs, code, seriesLabel);
          assert cs[last].currencyCode == code;
        }
      }
    } else {
      assert Charts(server, range, code) == Err(resp.error);
      assert resp.error != UnusedCurrency;
    }
  }

  // ------------------------------------------------------------ getMergedChart

  /** An insertion-ordered map: `keys` in first-insertion order, `sums` the
      values. Overwriting a key keeps its place. */
  datatype Merged = Merged(keys: seq<string>, sums: map<string, int>)

  /** Every point of every series, series by series. */
  function AllPoints(charts: seq<ChartDto>): seq<ChartPoint> {
    if charts == [] then [] else AllPoints(charts[..|charts| - 1]) + charts[|charts| - 1].entries
  }

  function MergeStep(m: Merged, p: ChartPoint): Merged {
    if p.key in m.sums then Merged(m.keys, m.sums[p.key := m.sums[p.key] + p.value])
    else Merged(m.keys + [p.key], m.sums[p.key := p.value])
  }

  function MergePoints(m: Merged, points: seq<ChartPoint>): Merged {
    if points == [] then m else MergeStep(MergePoints(m, points[..|points| - 1]), points[|points| - 1])
  }

  /** What `getMergedChart` returns. */
  function MergedChart(server: Server, range: DateRangeBoundaries): Result<Merged> {
    match SafeRequest(server.charts(range.startDate, range.endDate))
    case Err(e) => Err(e)
    case Ok(fetched) => Ok(MergePoints(Merged([], map[]), AllPoints(fetched)))
  }

  lemma {:induction false} MergePointsAppend(m: Merged, a: seq<ChartPoint>, b: seq<ChartPoint>)
    ensures MergePoints(m, a + b) == MergePoints(MergePoints(m, a), b)
    decreases |b|
  {
    if b == [] {
      assert a + b == a;
    } else {
      assert (a + b)[..|a + b| - 1] == a + b[..|b| - 1];
      MergePointsAppend(m, a, b[..|b| - 1]);
    }
  }

  /** The body of the inner loop of `getMergedChart`. */
  method MergeEntry(merged: Merged, chartEntry: ChartPoint) returns (updated: Merged)
    ensures updated == MergeStep(merged, chartEntry)
  {
    var current := if chartEntry.key in merged.sums then merged.sums[chartEntry.key] else 0;
    if chartEntry.key in merged.sums {
      updated := Merged(merged.keys, merged.sums[chartEntry.key := current + chartEntry.value]);
    } else {
      updated := Merged(merged.keys + [chartEntry.key], merged.sums[chartEntry.key := current + chartEntry.value]);
    }
  }

  /** `getMergedChart`. */
  method GetMergedChart(server: Server, range: DateRangeBoundaries) returns (r: Result<Merged>)
    ensures r == MergedChart(server, range)
  {
    var response := SafeRequest(server.charts(range.startDate, range.endDate));
    if response.Err? {
      return Err(response.error);
    }
    var fetchedCharts := response.value;
    var mergedChart := Merged([], map[]);
    for i := 0 to |fetchedCharts|
      invariant mergedChart == MergePoints(Merged([], map[]), AllPoints(fetchedCharts[..i]))
    {
      assert fetchedCharts[..i + 1][..i] == fetchedCharts[..i];
      var entries := fetchedCharts[i].entries;
      ghost var before := AllPoints(fetchedCharts[..i]);
      MergePointsAppend(Merged([], map[]), before, entries);
      ghost var start := mergedChart;
      for k := 0 to |entries|
        invariant mergedChart == MergePoints(start, entries[..k])
      {
        assert entries[..k + 1][..k] == entries[..k];
        mergedChart := MergeEntry(mergedChart, entries[k]);
      }
      assert entries[..|entries|] == entries;
    }
    assert fetchedCharts[..|fetchedCharts|] == fetchedCharts;
    r := Ok(mergedChart);
  }

  /** The total of the values of the points with key `k`. */
  function KeyTotal(points: seq<ChartPoint>, k: string): int {
    if points == [] then 0
    else KeyTotal(points[..|points| - 1], k) + (if points[|points| - 1].key == k then points[|points| - 1].value else 0)
  }

  /** The merged chart holds each key once, in `keys` exactly when in
      `sums`, and its keys are exactly the keys of the points. */
  lemma {:induction false} MergedKeys(points: seq<ChartPoint>)
    ensures var m := MergePoints(Merged([], map[]), points);
            Distinct(m.keys)
            && (forall k :: k in m.keys <==> k in m.sums)
            && (forall k :: k in m.sums <==> exists p :: 0 <= p < |points| && points[p].key == k)
  {
    if points != [] {
      var init, x := points[..|points| - 1], points[|points| - 1];
      MergedKeys(init);
      var m := MergePoints(Merged([], map[]), init);
      var n := MergeStep(m, x);
      assert n == MergePoints(Merged([], map[]), points);
      forall k ensures k in n.sums <==> exists p :: 0 <= p < |points| && points[p].key == k {
        if exists p :: 0 <= p < |init| && init[p].key == k {
          var p :| 0 <= p < |init| && init[p].key == k;
          assert points[p] == init[p];
        }
        if exists p :: 0 <= p < |points| && points[p].key == k {
          var p :| 0 <= p < |points| && points[p].key == k;
          if p < |init| { assert init[p] == points[p]; }
        }
      }
      if x.key !in m.sums {
        forall i, j | 0 <= i < j < |n.keys| ensures n.keys[i] != n.keys[j] {
          if j == |m.keys| { assert m.keys[i] in m.keys; }
        }
      }
    }
  }

  /** Each key maps to the total of its values across all series. */
  lemma {:induction false} MergedSums(points: seq<ChartPoint>, k: string)
    ensures var m := MergePoints(Merged([], map[]), points);
            k in m.sums ==> m.sums[k] == KeyTotal(points, k)
  {
    if points != [] {
      var init := points[..|points| - 1];
      MergedSums(init, k);
      MergedKeys(init);
      if k !in MergePoints(Merged([], map[]), init).sums {
        KeyTotalAbsent(init, k);
      }
    }
  }

  lemma {:induction false} KeyTotalAbsent(points: seq<ChartPoint>, k: string)
    requires forall p :: 0 <= p < |points| ==> points[p].key != k
    ensures KeyTotal(points, k) == 0
  {
    if points != [] {
      KeyTotalAbsent(points[..|points| - 1], k);
    }
  }

  /** Some occurrence of key `a` in `points` comes before every occurrence
      of key `b`. */
  ghost predicate SeenBefore(points: seq<ChartPoint>, a: string, b: string) {
    exists p :: 0 <= p < |points| && points[p].key == a && forall q :: 0 <= q <= p ==> points[q].key != b
  }

  /** The keys are in the order they were first seen: some occurrence of an
      earlier key precedes every occurrence of a later one. */
  lemma {:induction false} MergedOrder(points: seq<ChartPoint>)
    ensures var m := MergePoints(Merged([], map[]), points);
            forall i, j :: 0 <= i < j < |m.keys| ==> SeenBefore(points, m.keys[i], m.keys[j])
  {
    if points != [] {
      var init, x := points[..|points| - 1], points[|points| - 1];
      MergedOrder(init);
      MergedKeys(init);
      var m := MergePoints(Merged([], map[]), init);
      var n := MergeStep(m, x);
      assert n == MergePoints(Merged([], map[]), points);
      assert init + [x] == points;
      forall i, j | 0 <= i < j < |n.keys| ensures SeenBefore(points, n.keys[i], n.keys[j]) {
        if j < |m.keys| {
          assert n.keys[i] == m.keys[i] && n.keys[j] == m.keys[j];
          SeenBeforeExtend(init, x, m.keys[i], m.keys[j]);
        } else {
          assert x.key !in m.sums && n.keys[j] == x.key && n.keys[i] == m.keys[i];
          assert m.keys[i] in m.keys;
          SeenBeforeNew(init, x, m.keys[i]);
        }
      }
    }
  }

  /** An order already seen survives one more point. */
  lemma SeenBeforeExtend(init: seq<ChartPoint>, x: ChartPoint, a: string, b: string)
    requires SeenBefore(init, a, b)
    ensures SeenBefore(init + [x], a, b)
  {
    var points := init + [x];
    var p :| 0 <= p < |init| && init[p].key == a && forall q :: 0 <= q <= p ==> init[q].key != b;
    assert points[p] == init[p];
    forall q | 0 <= q <= p ensures points[q].key != b {
      assert points[q] == init[q];
    }
  }

  /** A key seen in `init` comes before a key seen only in the new point. */
  lemma SeenBeforeNew(init: seq<ChartPoint>, x: ChartPoint, a: string)
    requires exists p :: 0 <= p < |init| && init[p].key == a
    requires forall p :: 0 <= p < |init| ==> init[p].key != x.key
    ensures SeenBefore(init + [x], a, x.key)
  {
    var points := init + [x];
    var p :| 0 <= p < |init| && init[p].key == a;
    assert points[p] == init[p];
    forall q | 0 <= q <= p ensures points[q].key != x.key {
      assert points[q] == init[q];
    }
  }
}
