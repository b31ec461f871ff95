/** Income and expense insights: per-account, per-category and per-tag
    totals, each group sorted by amount. */
module InsightRepository {
  import opened Common
  import opened Text
  import opened Sorting
  import opened Dto
  import opened Model
  import opened Ktor

  /** The path segment of an insight type: the enum name in lower case. */
  function TypeSegment(t: InsightType): string {
    match t
    case Income => "income"
    case Expense => "expense"
  }

  function ToInsightItem(d: InsightItemDto): (i: InsightItem)
    ensures i.id == d.id && i.name == d.name && i.difference == d.difference
            && i.currencyId == d.currencyId && i.currencyCode == d.currencyCode
  {
    InsightItem(d.id, d.name, d.difference, d.currencyId, d.currencyCode)
  }

  function ToInsightItems(ds: seq<InsightItemDto>): (r: seq<InsightItem>)
    ensures |r| == |ds| && forall i :: 0 <= i < |ds| ==> r[i] == ToInsightItem(ds[i])
  {
    if ds == [] then [] else ToInsightItems(ds[..|ds| - 1]) + [ToInsightItem(ds[|ds| - 1])]
  }

  /** The label of a group: "Account" for the account filters, otherwise
      the filter title-cased. */
  function GroupingLabel(filter: string): string {
    if filter == "revenue" || filter == "expense" then "Account" else TitleCase(filter)
  }

  /** Sort keys: ascending by difference, and descending as ascending by its
      negation. */
  function ByDifference(i: InsightItem): seq<int> { [i.difference] }

  function ByDifferenceDescending(i: InsightItem): seq<int> { [-i.difference] }

  function SortedItems(t: InsightType, items: seq<InsightItem>): seq<InsightItem> {
    match t
    case Income => SortByKey(items, ByDifferenceDescending)
    case Expense => SortByKey(items, ByDifference)
  }

  /** What `getInsightGroup` returns. */
  function InsightGroupOf(server: Server, t: InsightType, filter: string, range: DateRangeBoundaries): Result<InsightGroup> {
    match SafeRequest(server.insight(TypeSegment(t), filter, range.startDate, range.endDate))
    case Err(e) => Err(e)
    case Ok(fetched) => Ok(InsightGroup(t, GroupingLabel(filter), SortedItems(t, ToInsightItems(fetched))))
  }

  /** Income items run from the largest difference down, the sort is a
      permutation, and items with equal differences keep their order. */
  lemma IncomeItemsSorted(items: seq<InsightItem>)
    ensures var sorted := SortedItems(Income, items);
            multiset(sorted) == multiset(items)
            && (forall i, j :: 0 <= i < j < |sorted| ==> sorted[i].difference >= sorted[j].difference)
            && (forall k :: WithKey(sorted, ByDifference, k) == WithKey(items, ByDifference, k))
  {
    var sorted := SortByKey(items, ByDifferenceDescending);
    SortByKeyCorrect(items, ByDifferenceDescending);
    forall i, j | 0 <= i < j < |sorted| ensures sorted[i].difference >= sorted[j].difference {
      assert !LexLt(ByDifferenceDescending(sorted[j]), ByDifferenceDescending(sorted[i]));
    }
    IncomeItemsStable(items);
  }

  /** Sorting income items keeps the order of items with equal differences. */
  lemma IncomeItemsStable(items: seq<InsightItem>)
    ensures forall k :: WithKey(SortedItems(Income, items), ByDifference, k) == WithKey(items, ByDifference, k)
  {
    var sorted := SortByKey(items, ByDifferenceDescending);
    SortByKeyCorrect(items, ByDifferenceDescending);
    forall k ensures WithKey(sorted, ByDifference, k) == WithKey(items, ByDifference, k) {
      if |k| == 1 {
        ClassByNegation(sorted, items, k[0]);
        assert [k[0]] == k;
      } else {
        NoItemHasKey(sorted, k);
        NoItemHasKey(items, k);
      }
    }
  }

  /** Two lists that agree on the items of negated difference `-d` agree on
      the items of difference `d`. */
  lemma ClassByNegation(s: seq<InsightItem>, t: seq<InsightItem>, d: int)
    requires WithKey(s, ByDifferenceDescending, [-d]) == WithKey(t, ByDifferenceDescending, [-d])
    ensures WithKey(s, ByDifference, [d]) == WithKey(t, ByDifference, [d])
  {
    NegatedKeyClass(s, d);
    NegatedKeyClass(t, d);
  }

  /** Expense items run from the smallest difference up, the sort is a
      permutation, and items with equal differences keep their order. */
  lemma ExpenseItemsSorted(items: seq<InsightItem>)
    ensures var sorted := SortedItems(Expense, items);
            multiset(sorted) == multiset(items)
            && (forall i, j :: 0 <= i < j < |sorted| ==> sorted[i].difference <= sorted[j].difference)
            && (forall k :: WithKey(sorted, ByDifference, k) == WithKey(items, ByDifference, k))
  {
    var sorted := SortByKey(items, ByDifference);
    SortByKeyCorrect(items, ByDifference);
    forall i, j | 0 <= i < j < |sorted| ensures sorted[i].difference <= sorted[j].difference {
      assert !LexLt(ByDifference(sorted[j]), ByDifference(sorted[i]));
    }
  }

  /** Sorting keeps the number of items. */
  lemma SortedItemsLength(t: InsightType, items: seq<InsightItem>)
    ensures |SortedItems(t, items)| == |items|
  {
    if t == Income {
      IncomeItemsSorted(items);
    } else {
      ExpenseItemsSorted(items);
    }
    assert |multiset(SortedItems(t, items))| == |multiset(items)|;
  }

  /** A fetched group carries its type and label, and has items exactly
      when the server listed some. */
  lemma InsightGroupHeader(server: Server, t: InsightType, filter: string, range: DateRangeBoundaries)
    requires InsightGroupOf(server, t, filter, range).Ok?
    ensures var g := InsightGroupOf(server, t, filter, range).value;
            var fetched := SafeRequest(server.insight(TypeSegment(t), filter, range.startDate, range.endDate)).value;
            g.insightType == t
            && g.groupingLabel == (if filter == "revenue" || filter == "expense" then "Account" else TitleCase(filter))
            && (g.insights == [] <==> fetched == [])
  {
    var fetched := SafeRequest(server.insight(TypeSegment(t), filter, range.startDate, range.endDate)).value;
    SortedItemsLength(t, ToInsightItems(fetched));
  }

  /** The items of a fetched group are the fetched items converted, in some
      order: income from the largest difference down, expense from the
      smallest up, items with equal differences in the order they came. */
  lemma InsightGroupItems(server: Server, t: InsightType, filter: string, range: DateRangeBoundaries, g: InsightGroup)
    requires InsightGroupOf(server, t, filter, range) == Ok(g)
    ensures var items := ToInsightItems(SafeRequest(server.insight(TypeSegment(t), filter, range.startDate, range.endDate)).value);
            multiset(g.insights) == multiset(items)
            && (t == Income ==> forall i, j :: 0 <= i < j < |g.insights| ==> g.insights[i].difference >= g.insights[j].difference)
            && (t == Expense ==> forall i, j :: 0 <= i < j < |g.insights| ==> g.insights[i].difference <= g.insights[j].difference)
            && (forall k :: WithKey(g.insights, ByDifference, k) == WithKey(items, ByDifference, k))
  {
    var items := ToInsightItems(SafeRequest(server.insight(TypeSegment(t), filter, range.startDate, range.endDate)).value);
    if t == Income {
      IncomeItemsSorted(items);
    } else {
      ExpenseItemsSorted(items);
    }
  }

  /** The labels of the category and tag groups. */
  lemma CategoryAndTagLabels()
    ensures GroupingLabel("category") == "Category" && GroupingLabel("tag") == "Tag"
  {
    assert TitleCase("category") == ['C'] + "ategory";
    assert TitleCase("tag") == ['T'] + "ag";
  }

  /** The items whose difference is `d` are those whose negated difference is `-d`. */
  lemma {:induction false} NegatedKeyClass(s: seq<InsightItem>, d: int)
    ensures WithKey(s, ByDifferenceDescending, [-d]) == WithKey(s, ByDifference, [d])
  {
    if s != [] {
      NegatedKeyClass(s[..|s| - 1], d);
    }
  }

  /** No item has a key of length other than one. */
  lemma {:induction false} NoItemHasKey(s: seq<InsightItem>, k: seq<int>)
    requires |k| != 1
    ensures WithKey(s, ByDifference, k) == []
  {
    if s != [] {
      NoItemHasKey(s[..|s| - 1], k);
    }
  }

  /** The account filter of an insight type. */
  function AccountFilter(t: InsightType): string {
    match t
    case Income => "revenue"
    case Expense => "expense"
  }

  function KeepNonEmpty(groups: seq<InsightGroup>, g: InsightGroup): seq<InsightGroup> {
    if g.insights != [] then groups + [g] else groups
  }

  /** What `getInsights` returns: the account, category and tag groups,
      fetched in that order, each kept only when it has items. */
  function Insights(server: Server, t: InsightType, range: DateRangeBoundaries): Result<seq<InsightGroup>> {
    match InsightGroupOf(server, t, AccountFilter(t), range)
    case Err(e) => Err(e)
    case Ok(byAccount) =>
      match InsightGroupOf(server, t, "category", range)
      case Err(e) => Err(e)
      case Ok(byCategory) =>
        match InsightGroupOf(server, t, "tag", range)
        case Err(e) => Err(e)
        case Ok(byTag) => Ok(KeepNonEmpty(KeepNonEmpty(KeepNonEmpty([], byAccount), byCategory), byTag))
  }

  /** `getInsights`. */
  method GetInsights(server: Server, t: InsightType, range: DateRangeBoundaries) returns (r: Result<seq<InsightGroup>>)
    ensures r == Insights(server, t, range)
  {
    var accountFilter := if t == Income then "revenue" else "expense";
    var insights: seq<InsightGroup> := [];
    var insightByAccount := InsightGroupOf(server, t, accountFilter, range);
    if insightByAccount.Err? {
      return Err(insightByAccount.error);
    }
    if insightByAccount.value.insights != [] {
      insights := insights + [insightByAccount.value];
    }
    var insightByCategory := InsightGroupOf(server, t, "category", range);
    if insightByCategory.Err? {
      return Err(insightByCategory.error);
    }
    if insightByCategory.value.insights != [] {
      insights := insights + [insightByCategory.value];
    }
    var insightByTag := InsightGroupOf(server, t, "tag", range);
    if insightByTag.Err? {
      return Err(insightByTag.error);
    }
    if insightByTag.value.insights != [] {
      insights := insights + [insightByTag.value];
    }
    r := Ok(insights);
  }

  /** The position of a group label in the fixed order account, category, tag. */
  function LabelRank(groupingLabel: string): int {
    if groupingLabel == "Account" then 0 else if groupingLabel == "Category" then 1 else if groupingLabel == "Tag" then 2 else 3
  }

  /** Keeping the non-empty ones of an account, a category and a tag group
      of one type gives at most three non-empty groups of that type, in that
      order, each present exactly when it has items. */
  lemma KeptGroupsShape(t: InsightType, a: InsightGroup, c: InsightGroup, g: InsightGroup, gs: seq<InsightGroup>)
    requires gs == KeepNonEmpty(KeepNonEmpty(KeepNonEmpty([], a), c), g)
    requires a.groupingLabel == "Account" && c.groupingLabel == "Category" && g.groupingLabel == "Tag"
    requires a.insightType == t && c.insightType == t && g.insightType == t
    ensures |gs| <= 3
            && (forall i :: 0 <= i < |gs| ==> gs[i].insights != [] && gs[i].insightType == t)
            && (forall i, j :: 0 <= i < j < |gs| ==> LabelRank(gs[i].groupingLabel) < LabelRank(gs[j].groupingLabel))
            && ((exists i :: 0 <= i < |gs| && gs[i].groupingLabel == "Account") <==> a.insights != [])
            && ((exists i :: 0 <= i < |gs| && gs[i].groupingLabel == "Category") <==> c.insights != [])
            && ((exists i :: 0 <= i < |gs| && gs[i].groupingLabel == "Tag") <==> g.insights != [])
  {
    assert forall x :: x in gs ==> x == a || x == c || x == g;
    assert a.insights != [] ==> gs[0] == a;
    assert c.insights != [] ==> gs[if a.insights != [] then 1 else 0] == c;
    assert g.insights != [] ==> gs[|gs| - 1] == g;
  }

  /** An answer of `getInsights` is the three fetched groups with the empty
      ones dropped. */
  lemma InsightsKept(server: Server, t: InsightType, range: DateRangeBoundaries)
    requires Insights(server, t, range).Ok?
    ensures InsightGroupOf(server, t, AccountFilter(t), range).Ok?
    ensures InsightGroupOf(server, t, "category", range).Ok?
    ensures InsightGroupOf(server, t, "tag", range).Ok?
    ensures Insights(server, t, range).value
            == KeepNonEmpty(KeepNonEmpty(KeepNonEmpty([], InsightGroupOf(server, t, AccountFilter(t), range).value),
                                         InsightGroupOf(server, t, "category", range).value),
                            InsightGroupOf(server, t, "tag", range).value)
  {
  }

  /** The groups `getInsights` returns: at most three, none empty, all of
      the requested type, in the order account, category, tag. */
  lemma InsightsShape(server: Server, t: InsightType, range: DateRangeBoundaries, gs: seq<InsightGroup>)
    requires Insights(server, t, range) == Ok(gs)
    ensures |gs| <= 3
            && (forall i :: 0 <= i < |gs| ==> gs[i].insights != [] && gs[i].insightType == t)
            && (forall i, j :: 0 <= i < j < |gs| ==> LabelRank(gs[i].groupingLabel) < LabelRank(gs[j].groupingLabel))
  {
    InsightsKept(server, t, range);
    InsightGroupHeader(server, t, AccountFilter(t), range);
    InsightGroupHeader(server, t, "category", range);
    InsightGroupHeader(server, t, "tag", range);
    CategoryAndTagLabels();
    var a := InsightGroupOf(server, t, AccountFilter(t), range).value;
    var c := InsightGroupOf(server, t, "category", range).value;
    var g := InsightGroupOf(server, t, "tag", range).value;
    KeptGroupsShape(t, a, c, g, gs);
  }

  /** Each of the account, category and tag groups is in the answer of
      `getInsights` exactly when the server listed totals for it. */
  lemma InsightsPresence(server: Server, t: InsightType, range: DateRangeBoundaries, gs: seq<InsightGroup>)
    requires Insights(server, t, range) == Ok(gs)
    ensures ((exists i :: 0 <= i < |gs| && gs[i].groupingLabel == "Account")
                <==> SafeRequest(server.insight(TypeSegment(t), AccountFilter(t), range.startDate, range.endDate)).value != [])
            && ((exists i :: 0 <= i < |gs| && gs[i].groupingLabel == "Category")
                <==> SafeRequest(server.insight(TypeSegment(t), "category", range.startDate, range.endDate)).value != [])
            && ((exists i :: 0 <= i < |gs| && gs[i].groupingLabel == "Tag")
                <==> SafeRequest(server.insight(TypeSegment(t), "tag", range.startDate, range.endDate)).value != [])
  {
    InsightsKept(server, t, range);
    InsightGroupHeader(server, t, AccountFilter(t), range);
    InsightGroupHeader(server, t, "category", range);
    InsightGroupHeader(server, t, "tag", range);
    CategoryAndTagLabels();
    var a := InsightGroupOf(server, t, AccountFilter(t), range).value;
    var c := InsightGroupOf(server, t, "category", range).value;
    var g := InsightGroupOf(server, t, "tag", range).value;
    KeptGroupsShape(t, a, c, g, gs);
  }
}
