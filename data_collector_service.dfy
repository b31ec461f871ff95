/** The orchestrator of one report run. `getData` checks the date range,
    collects the asset accounts, fixes the main currency from the first of
    them, and then fills the remaining parts of the report one after the
    other; the first failure ends the run and no report is built. */
module DataCollectorService {
  import opened Common
  import opened Dates
  import opened Dto
  import opened Model
  import opened Ktor
  import Accounts = AccountRepository
  import Summary = SummaryRepository
  import Charts = ChartRepository
  import Insight = InsightRepository
  import Transactions = TransactionRepository
  import Currencies = CurrencyRepository

  // ---------------------------------------------------------------- the range check

  /** The range is empty or runs backwards. */
  predicate IllegalRange(range: DateRangeBoundaries) {
    range.startDate == range.endDate || Before(range.endDate, range.startDate)
  }

  /** `checkDateRange`: an illegal-date-range failure for an empty or
      backwards range. */
  function CheckDateRange(range: DateRangeBoundaries): (r: Result<()>)
    ensures r.Ok? <==> Before(range.startDate, range.endDate)
    ensures r.Err? ==> r.error == IllegalDateRange
  {
    BeforeIsStrictTotalOrder(range.startDate, range.endDate, range.startDate);
    if IllegalRange(range) then Err(IllegalDateRange) else Ok(())
  }

  // ---------------------------------------------------------------- accounts and currency

  /** `collectAccounts`: the asset accounts, or an inactive-account failure
      when none of them was opened before the range starts or ends. */
  function CollectedAccounts(fetched: Result<seq<Account>>, range: DateRangeBoundaries): (r: Result<seq<Account>>)
    ensures r.Ok? <==> fetched.Ok? && Accounts.AnyActive(range, fetched.value)
    ensures r.Ok? ==> r.value == fetched.value && r.value != []
    ensures fetched.Err? ==> r == fetched
    ensures fetched.Ok? && !Accounts.AnyActive(range, fetched.value) ==> r == Err(InactiveAccount)
  {
    match fetched
    case Err(e) => Err(e)
    case Ok(accounts) =>
      if Accounts.AnyActive(range, accounts) then
        ActiveListNonEmpty(range, accounts);
        Ok(accounts)
      else Err(InactiveAccount)
  }

  /** An account list that passes the activity check is not empty. */
  lemma ActiveListNonEmpty(range: DateRangeBoundaries, accounts: seq<Account>)
    requires Accounts.AnyActive(range, accounts)
    ensures accounts != []
  {
    var i :| 0 <= i < |accounts| &&
      (Accounts.OpenedBefore(accounts[i], range.startDate) || Accounts.OpenedBefore(accounts[i], range.endDate));
  }

  /** The report's currency record built from a fetched currency. */
  function CurrencyOf(d: CurrencyDto): (c: Currency)
    ensures c.code == d.attributes.code && c.id == d.id && c.symbol == d.attributes.symbol
    ensures c.decimalPlaces == d.attributes.decimalPlaces && c.name == d.attributes.name
  {
    Currency(d.attributes.code, d.id, d.attributes.symbol, d.attributes.decimalPlaces, d.attributes.name)
  }

  /** `setMainCurrency`: the currency of the first account, as `fetch`
      validates it; `first()` on an empty list is a no-such-element failure. */
  function MainCurrency(fetch: string -> Result<CurrencyDto>, accounts: seq<Account>): (r: Result<Currency>)
    ensures accounts == [] ==> r == Err(NoSuchElement)
    ensures accounts != [] ==> var f := fetch(accounts[0].currencyCode);
              (r.Ok? <==> f.Ok?) && (r.Ok? ==> r.value == CurrencyOf(f.value)) && (r.Err? ==> r.error == f.error)
  {
    if accounts == [] then Err(NoSuchElement)
    else
      match fetch(accounts[0].currencyCode)
      case Err(e) => Err(e)
      case Ok(d) => Ok(CurrencyOf(d))
  }

  // ---------------------------------------------------------------- the balance update

  /** One account after the update of `collectData`: its initial balance is
      the balance at the start of the range, dated at the start, and its
      current balance the balance at the end. */
  function WithBalances(a: Account, start: Date, initialBalances: map<string, int>, endingBalances: map<string, int>)
    : (b: Account)
    ensures b.initialBalance == GetOrZero(initialBalances, a.id)
    ensures b.initialBalanceDate == Some(start)
    ensures b.currentBalance == GetOrZero(endingBalances, a.id)
    ensures b.(initialBalance := a.initialBalance, initialBalanceDate := a.initialBalanceDate,
               currentBalance := a.currentBalance) == a
  {
    a.(initialBalance := GetOrZero(initialBalances, a.id), initialBalanceDate := Some(start),
       currentBalance := GetOrZero(endingBalances, a.id))
  }

  /** Every account updated in place, in listing order. */
  function UpdatedAccounts(accounts: seq<Account>, start: Date, initialBalances: map<string, int>,
                           endingBalances: map<string, int>): (r: seq<Account>)
    ensures |r| == |accounts|
    ensures forall i :: 0 <= i < |accounts| ==> r[i] == WithBalances(accounts[i], start, initialBalances, endingBalances)
  {
    seq(|accounts|, i requires 0 <= i < |accounts| => WithBalances(accounts[i], start, initialBalances, endingBalances))
  }

  /** Running the update twice is running it once: it never reads the
      fields it writes. */
  lemma UpdateIdempotent(accounts: seq<Account>, start: Date, initialBalances: map<string, int>,
                         endingBalances: map<string, int>)
    ensures var once := UpdatedAccounts(accounts, start, initialBalances, endingBalances);
            UpdatedAccounts(once, start, initialBalances, endingBalances) == once
  {
    var once := UpdatedAccounts(accounts, start, initialBalances, endingBalances);
    var twice := UpdatedAccounts(once, start, initialBalances, endingBalances);
    forall i | 0 <= i < |accounts|
      ensures twice[i] == once[i]
    {
      assert once[i].id == accounts[i].id;
    }
  }

  /** The update keeps which accounts there are: the same ids, names,
      currencies and opening data, at the same positions. */
  lemma UpdateKeepsIdentity(accounts: seq<Account>, start: Date, initialBalances: map<string, int>,
                            endingBalances: map<string, int>, i: int)
    requires 0 <= i < |accounts|
    ensures var b := UpdatedAccounts(accounts, start, initialBalances, endingBalances)[i];
            b.id == accounts[i].id && b.name == accounts[i].name && b.currencyCode == accounts[i].currencyCode
            && b.openingBalance == accounts[i].openingBalance && b.openingBalanceDate == accounts[i].openingBalanceDate
  {
    var b := UpdatedAccounts(accounts, start, initialBalances, endingBalances)[i];
    assert b.(initialBalance := accounts[i].initialBalance, initialBalanceDate := accounts[i].initialBalanceDate,
              currentBalance := accounts[i].currentBalance) == accounts[i];
  }

  // ---------------------------------------------------------------- collecting the rest

  /** What `collectData` stores, in the order it fetches it. */
  datatype Collected = Collected(
    chart: map<string, seq<ChartEntry>>,
    generalOverview: GeneralOverview,
    initialBalances: map<string, int>,
    endingBalances: map<string, int>,
    accounts: seq<Account>,
    transactionJournals: seq<TransactionJournal>,
    incomeInsight: seq<InsightGroup>,
    expenseInsight: seq<InsightGroup>,
    downloadedAttachments: seq<Attachment>,
    apiSysInfo: SystemInfoResponse)

  /** The journals handed to the attachment download. */
  function WithAttachments(journals: seq<TransactionJournal>): (r: seq<TransactionJournal>)
    ensures forall j :: j in r <==> j in journals && j.hasAttachments
    ensures |r| <= |journals|
  {
    if journals == [] then []
    else WithAttachments(journals[..|journals| - 1])
         + (if journals[|journals| - 1].hasAttachments then [journals[|journals| - 1]] else [])
  }

  /** The attachments of the report: none unless they were asked for, and
      otherwise the download of the journals that have any. */
  function Downloaded(download: seq<TransactionJournal> -> Result<seq<Attachment>>, withAttachment: bool,
                      journals: seq<TransactionJournal>): (r: Result<seq<Attachment>>)
    ensures !withAttachment ==> r == Ok([])
    ensures withAttachment ==> r == download(WithAttachments(journals))
  {
    if withAttachment then download(WithAttachments(journals)) else Ok([])
  }

  /** `getFullOverview(dateRange)[code]!!`. */
  function Overview(overviews: map<string, GeneralOverview>, code: string): (r: Result<GeneralOverview>)
    ensures r.Ok? <==> code in overviews
    ensures r.Ok? ==> r.value == overviews[code]
    ensures r.Err? ==> r.error == MissingOverview
  {
    if code in overviews then Ok(overviews[code]) else Err(MissingOverview)
  }

  /** What the service's repositories answer to the requests of one run
      over one range: the currency and chart requests depend on a currency
      code, the journal walk on the balances at the start. */
  datatype Answers = Answers(
    assetAccounts: Result<seq<Account>>,
    currency: string -> Result<CurrencyDto>,
    charts: string -> Result<map<string, seq<ChartEntry>>>,
    overviews: Result<map<string, GeneralOverview>>,
    initialBalances: Result<map<string, int>>,
    endingBalances: Result<map<string, int>>,
    journals: map<string, int> -> Result<seq<TransactionJournal>>,
    incomeInsight: Result<seq<InsightGroup>>,
    expenseInsight: Result<seq<InsightGroup>>,
    about: Result<SystemInfoResponse>)

  /** What the repositories of this model answer for `range` when they talk
      to `server`. With `corrected` false these are the repositories as
      written: a repeated journal id is reconciled again, and a currency
      answered with 404 is a client error. With `corrected` true both are
      as intended: the repeat is skipped, and the 404 is an invalid
      currency code. A range start is always a calendar date (a
      `LocalDate`), so the overview's parse failure stands for a case that
      cannot arise. */
  ghost function AnswersOf(server: Server, range: DateRangeBoundaries, corrected: bool): Answers {
    Answers(
      Accounts.AssetAccounts(server, range),
      code => if corrected then Currencies.FetchCurrency(server, code)
              else Currencies.FetchCurrencyAsWritten(server, code),
      code => Charts.Charts(server, range, code),
      if Valid(range.startDate) then Summary.FullOverview(server, range) else Err(DateTimeParse),
      Summary.AssetBalanceAtDate(server, range.startDate, ByAccount, StartOfDay),
      Summary.AssetBalanceAtDate(server, range.endDate, ByAccount, EndOfDay),
      initialBalances => Transactions.ReconciledJournals(server, corrected, range, initialBalances),
      Insight.Insights(server, Income, range),
      Insight.Insights(server, Expense, range),
      SafeRequest(server.about))
  }

  /** The first half of `collectData`: the charts, the overview of the main
      currency, and the balances at both ends of the range. */
  datatype Figures = Figures(
    chart: map<string, seq<ChartEntry>>,
    generalOverview: GeneralOverview,
    initialBalances: map<string, int>,
    endingBalances: map<string, int>)

  function CollectedFigures(a: Answers, code: string): Result<Figures> {
    match a.charts(code)
    case Err(e) => Err(e)
    case Ok(chart) =>
    match a.overviews
    case Err(e) => Err(e)
    case Ok(overviews) =>
    match Overview(overviews, code)
    case Err(e) => Err(e)
    case Ok(overview) =>
    match a.initialBalances
    case Err(e) => Err(e)
    case Ok(initialBalances) =>
    match a.endingBalances
    case Err(e) => Err(e)
    case Ok(endingBalances) => Ok(Figures(chart, overview, initialBalances, endingBalances))
  }

  /** The second half of `collectData`: the journals, the two insights,
      the attachments and the server's version. */
  datatype Activity = Activity(
    transactionJournals: seq<TransactionJournal>,
    incomeInsight: seq<InsightGroup>,
    expenseInsight: seq<InsightGroup>,
    downloadedAttachments: seq<Attachment>,
    apiSysInfo: SystemInfoResponse)

  function CollectedActivity(a: Answers, download: seq<TransactionJournal> -> Result<seq<Attachment>>,
                             initialBalances: map<string, int>, withAttachment: bool): Result<Activity>
  {
    match a.journals(initialBalances)
    case Err(e) => Err(e)
    case Ok(journals) =>
    match a.incomeInsight
    case Err(e) => Err(e)
    case Ok(incomeInsight) =>
    match a.expenseInsight
    case Err(e) => Err(e)
    case Ok(expenseInsight) =>
    match Downloaded(download, withAttachment, journals)
    case Err(e) => Err(e)
    case Ok(attachments) =>
    match a.about
    case Err(e) => Err(e)
    case Ok(about) => Ok(Activity(journals, incomeInsight, expenseInsight, attachments, about))
  }

  /** `collectData` for the accounts of the run and its main currency. */
  function CollectedData(a: Answers, download: seq<TransactionJournal> -> Result<seq<Attachment>>,
                         range: DateRangeBoundaries, code: string, accounts: seq<Account>, withAttachment: bool)
    : Result<Collected>
  {
    match CollectedFigures(a, code)
    case Err(e) => Err(e)
    case Ok(f) =>
    match CollectedActivity(a, download, f.initialBalances, withAttachment)
    case Err(e) => Err(e)
    case Ok(t) =>
      Ok(Collected(f.chart, f.generalOverview, f.initialBalances, f.endingBalances,
                   UpdatedAccounts(accounts, range.startDate, f.initialBalances, f.endingBalances),
                   t.transactionJournals, t.incomeInsight, t.expenseInsight, t.downloadedAttachments, t.apiSysInfo))
  }

  /** The report of a run, or its first failure. */
  function Report(a: Answers, download: seq<TransactionJournal> -> Result<seq<Attachment>>,
                  range: DateRangeBoundaries, theme: string, withAttachment: bool): Result<ReportData>
  {
    match CheckDateRange(range)
    case Err(e) => Err(e)
    case Ok(_) =>
    match CollectedAccounts(a.assetAccounts, range)
    case Err(e) => Err(e)
    case Ok(accounts) =>
    match MainCurrency(a.currency, accounts)
    case Err(e) => Err(e)
    case Ok(currency) =>
    match CollectedData(a, download, range, currency.code, accounts, withAttachment)
    case Err(e) => Err(e)
    case Ok(c) =>
      Ok(ReportData(range, theme, currency, c.accounts, c.chart, c.generalOverview, c.incomeInsight,
                    c.expenseInsight, c.transactionJournals, c.downloadedAttachments, c.apiSysInfo.data))
  }

  // ---------------------------------------------------------------- the service

  /** The service with its collected parts. Its repositories are injected:
      `repositories(range)` is what they answer for a run over `range`.
      The parts are `lateinit` in the service, each set by the step that
      fetches it before anything reads it; here they start out as
      placeholders. */
  class Collector {
    const repositories: DateRangeBoundaries -> Answers
    const download: seq<TransactionJournal> -> Result<seq<Attachment>>
    var mainCurrency: Currency
    var accounts: seq<Account>
    var chart: map<string, seq<ChartEntry>>
    var generalOverview: GeneralOverview
    var initialBalances: map<string, int>
    var endingBalances: map<string, int>
    var incomeInsight: seq<InsightGroup>
    var expenseInsight: seq<InsightGroup>
    var transactionJournals: seq<TransactionJournal>
    var downloadedAttachments: seq<Attachment>
    var apiSysInfo: SystemInfoResponse

    constructor (repositories: DateRangeBoundaries -> Answers,
                 download: seq<TransactionJournal> -> Result<seq<Attachment>>)
      ensures this.repositories == repositories && this.download == download
    {
      this.repositories := repositories;
      this.download := download;
      mainCurrency := Currency("", "", "", None, "");
      accounts := [];
      chart := map[];
      generalOverview := GeneralOverview(0, 0, 0, 0, 0, 0, "", "", "", 0);
      initialBalances := map[];
      endingBalances := map[];
      incomeInsight := [];
      expenseInsight := [];
      transactionJournals := [];
      downloadedAttachments := [];
      apiSysInfo := SystemInfoResponse(SystemInfoDto("", ""));
    }

    /** `collectAccounts`. */
    method CollectAccounts(range: DateRangeBoundaries) returns (r: Result<()>)
      modifies this
      ensures var c := CollectedAccounts(repositories(range).assetAccounts, range);
              (r.Ok? <==> c.Ok?) && (r.Err? ==> r.error == c.error) && (r.Ok? ==> accounts == c.value)
    {
      var fetched := repositories(range).assetAccounts;
      if fetched.Err? {
        return Err(fetched.error);
      }
      accounts := fetched.value;
      var active := Accounts.HasActiveAccountInRange(range, accounts);
      if !active {
        return Err(InactiveAccount);
      }
      r := Ok(());
    }

    /** `setMainCurrency`. */
    method SetMainCurrency(range: DateRangeBoundaries) returns (r: Result<()>)
      modifies this
      ensures var c := MainCurrency(repositories(range).currency, old(accounts));
              (r.Ok? <==> c.Ok?) && (r.Err? ==> r.error == c.error) && (r.Ok? ==> mainCurrency == c.value)
      ensures accounts == old(accounts)
    {
      if accounts == [] {
        return Err(NoSuchElement);
      }
      var fetchedCurrency := repositories(range).currency(accounts[0].currencyCode);
      if fetchedCurrency.Err? {
        return Err(fetchedCurrency.error);
      }
      var d := fetchedCurrency.value;
      mainCurrency := Currency(d.attributes.code, d.id, d.attributes.symbol, d.attributes.decimalPlaces, d.attributes.name);
      r := Ok(());
    }

    /** The account loop of `collectData`: each account's balances are set
        from the two balance maps; nothing else changes. */
    method UpdateAccounts(start: Date)
      modifies this
      ensures accounts == UpdatedAccounts(old(accounts), start, initialBalances, endingBalances)
      ensures initialBalances == old(initialBalances) && endingBalances == old(endingBalances)
      ensures mainCurrency == old(mainCurrency) && chart == old(chart) && generalOverview == old(generalOverview)
      ensures transactionJournals == old(transactionJournals) && downloadedAttachments == old(downloadedAttachments)
      ensures incomeInsight == old(incomeInsight) && expenseInsight == old(expenseInsight)
      ensures apiSysInfo == old(apiSysInfo)
    {
      ghost var original := accounts;
      for i := 0 to |accounts|
        invariant |accounts| == |original|
        invariant forall k :: 0 <= k < i ==>
                    accounts[k] == WithBalances(original[k], start, initialBalances, endingBalances)
        invariant forall k :: i <= k < |accounts| ==> accounts[k] == original[k]
        invariant initialBalances == old(initialBalances) && endingBalances == old(endingBalances)
        invariant mainCurrency == old(mainCurrency) && chart == old(chart) && generalOverview == old(generalOverview)
        invariant transactionJournals == old(transactionJournals) && downloadedAttachments == old(downloadedAttachments)
        invariant incomeInsight == old(incomeInsight) && expenseInsight == old(expenseInsight)
        invariant apiSysInfo == old(apiSysInfo)
      {
        var account := accounts[i];
        account := account.(initialBalance := GetOrZero(initialBalances, account.id));
        account := account.(initialBalanceDate := Some(start));
        account := account.(currentBalance := GetOrZero(endingBalances, account.id));
        accounts := accounts[i := account];
      }
    }

    /** The first half of `collectData`, up to and including the account
        loop. */
    method CollectFigures(range: DateRangeBoundaries) returns (r: Result<()>)
      modifies this
      ensures var f := CollectedFigures(repositories(range), old(mainCurrency).code);
              (r.Ok? <==> f.Ok?) && (r.Err? ==> r.error == f.error)
              && (r.Ok? ==> Figures(chart, generalOverview, initialBalances, endingBalances) == f.value
                            && accounts == UpdatedAccounts(old(accounts), range.startDate, initialBalances, endingBalances))
      ensures mainCurrency == old(mainCurrency)
    {
      var a := repositories(range);
      var charts := a.charts(mainCurrency.code);
      if charts.Err? {
        return Err(charts.error);
      }
      chart := charts.value;
      var overviews := a.overviews;
      if overviews.Err? {
        return Err(overviews.error);
      }
      if mainCurrency.code !in overviews.value {
        return Err(MissingOverview);
      }
      generalOverview := overviews.value[mainCurrency.code];
      var initial := a.initialBalances;
      if initial.Err? {
        return Err(initial.error);
      }
      initialBalances := initial.value;
      var ending := a.endingBalances;
      if ending.Err? {
        return Err(ending.error);
      }
      endingBalances := ending.value;
      UpdateAccounts(range.startDate);
      r := Ok(());
    }

    /** The second half of `collectData`. */
    method CollectActivity(range: DateRangeBoundaries, withAttachment: bool) returns (r: Result<()>)
      modifies this
      ensures var t := CollectedActivity(repositories(range), download, old(initialBalances), withAttachment);
              (r.Ok? <==> t.Ok?) && (r.Err? ==> r.error == t.error)
              && (r.Ok? ==> Activity(transactionJournals, incomeInsight, expenseInsight, downloadedAttachments,
                                     apiSysInfo) == t.value)
      ensures mainCurrency == old(mainCurrency) && accounts == old(accounts) && chart == old(chart)
      ensures generalOverview == old(generalOverview)
      ensures initialBalances == old(initialBalances) && endingBalances == old(endingBalances)
    {
      var a := repositories(range);
      ghost var t := CollectedActivity(a, download, initialBalances, withAttachment);
      var journals := a.journals(initialBalances);
      if journals.Err? {
        return Err(journals.error);
      }
      transactionJournals := journals.value;
      var income := a.incomeInsight;
      if income.Err? {
        return Err(income.error);
      }
      incomeInsight := income.value;
      var expense := a.expenseInsight;
      if expense.Err? {
        return Err(expense.error);
      }
      expenseInsight := expense.value;
      var attachments := Downloaded(download, withAttachment, transactionJournals);
      if attachments.Err? {
        assert t == Err(attachments.error);
        return Err(attachments.error);
      }
      downloadedAttachments := attachments.value;
      var about := a.about;
      if about.Err? {
        assert t == Err(about.error);
        return Err(about.error);
      }
      apiSysInfo := about.value;
      assert t == Ok(Activity(journals.value, income.value, expense.value, attachments.value, about.value));
      r := Ok(());
    }

    /** `getData`: the four steps in order, then the report of what they
        collected. */
    method GetData(range: DateRangeBoundaries, theme: string, withAttachment: bool) returns (r: Result<ReportData>)
      modifies this
      ensures r == Report(repositories(range), download, range, theme, withAttachment)
    {
      var checked := CheckDateRange(range);
      if checked.Err? {
        return Err(checked.error);
      }
      var collected := CollectAccounts(range);
      if collected.Err? {
        return Err(collected.error);
      }
      var currency := SetMainCurrency(range);
      if currency.Err? {
        return Err(currency.error);
      }
      var figures := CollectFigures(range);
      if figures.Err? {
        return Err(figures.error);
      }
      var activity := CollectActivity(range, withAttachment);
      if activity.Err? {
        return Err(activity.error);
      }
      r := Ok(ReportData(range, theme, mainCurrency, accounts, chart, generalOverview, incomeInsight,
                         expenseInsight, transactionJournals, downloadedAttachments, apiSysInfo.data));
    }
  }

  // ---------------------------------------------------------------- properties of a run

  /** An empty or backwards range fails before anything is fetched. */
  lemma IllegalRangeFailsFirst(a: Answers, download: seq<TransactionJournal> -> Result<seq<Attachment>>,
                               range: DateRangeBoundaries, theme: string, withAttachment: bool)
    ensures Report(a, download, range, theme, withAttachment).Ok? ==> Before(range.startDate, range.endDate)
    ensures !Before(range.startDate, range.endDate) ==>
              Report(a, download, range, theme, withAttachment) == Err(IllegalDateRange)
  {
  }

  /** A legal range whose accounts were all opened too late fails with the
      inactive-account failure, whatever the later requests would answer. */
  lemma InactiveAccountsFail(a: Answers, download: seq<TransactionJournal> -> Result<seq<Attachment>>,
                             range: DateRangeBoundaries, theme: string, withAttachment: bool)
    requires Before(range.startDate, range.endDate)
    requires a.assetAccounts.Ok? && !Accounts.AnyActive(range, a.assetAccounts.value)
    ensures Report(a, download, range, theme, withAttachment) == Err(InactiveAccount)
  {
  }

  /** A report echoes its range and theme, holds the asset accounts in
      their order, with at least one of them active, and is in the currency
      of the first of them, with the overview of that currency. */
  lemma ReportShape(a: Answers, download: seq<TransactionJournal> -> Result<seq<Attachment>>,
                    range: DateRangeBoundaries, theme: string, withAttachment: bool, rd: ReportData)
    requires Report(a, download, range, theme, withAttachment) == Ok(rd)
    ensures rd.dateRange == range && rd.theme == theme && Before(range.startDate, range.endDate)
    ensures a.assetAccounts.Ok? && a.assetAccounts.value != [] && Accounts.AnyActive(range, a.assetAccounts.value)
    ensures a.currency(a.assetAccounts.value[0].currencyCode).Ok?
            && rd.currency == CurrencyOf(a.currency(a.assetAccounts.value[0].currencyCode).value)
    ensures |rd.accounts| == |a.assetAccounts.value|
            && forall i :: 0 <= i < |rd.accounts| ==> rd.accounts[i].id == a.assetAccounts.value[i].id
    ensures a.overviews.Ok? && rd.currency.code in a.overviews.value
            && rd.generalOverview == a.overviews.value[rd.currency.code]
  {
    var accounts := a.assetAccounts.value;
    var currency := MainCurrency(a.currency, accounts).value;
    var f := CollectedFigures(a, currency.code).value;
    forall i | 0 <= i < |rd.accounts|
      ensures rd.accounts[i].id == accounts[i].id
    {
      UpdateKeepsIdentity(accounts, range.startDate, f.initialBalances, f.endingBalances, i);
    }
  }

  /** The balances of each report account are the balances at the start and
      at the end of the range, found by the account's id, and the journals
      are those of the walk from the balances at the start. */
  lemma ReportBalances(a: Answers, download: seq<TransactionJournal> -> Result<seq<Attachment>>,
                       range: DateRangeBoundaries, theme: string, withAttachment: bool, rd: ReportData, i: int)
    requires Report(a, download, range, theme, withAttachment) == Ok(rd)
    requires 0 <= i < |rd.accounts|
    ensures a.initialBalances.Ok? && a.endingBalances.Ok?
    ensures rd.accounts[i].initialBalance == GetOrZero(a.initialBalances.value, rd.accounts[i].id)
    ensures rd.accounts[i].currentBalance == GetOrZero(a.endingBalances.value, rd.accounts[i].id)
    ensures rd.accounts[i].initialBalanceDate == Some(range.startDate)
    ensures a.journals(a.initialBalances.value) == Ok(rd.transactionJournals)
  {
    var accounts := a.assetAccounts.value;
    var currency := MainCurrency(a.currency, accounts).value;
    var f := CollectedFigures(a, currency.code).value;
    assert rd.accounts[i] == WithBalances(accounts[i], range.startDate, f.initialBalances, f.endingBalances);
  }

  /** Without attachments asked for, the report has none; with them, it has
      what the download of the journals that have any returned. */
  lemma ReportAttachments(a: Answers, download: seq<TransactionJournal> -> Result<seq<Attachment>>,
                          range: DateRangeBoundaries, theme: string, withAttachment: bool, rd: ReportData)
    requires Report(a, download, range, theme, withAttachment) == Ok(rd)
    ensures !withAttachment ==> rd.downloadedAttachments == []
    ensures withAttachment ==> download(WithAttachments(rd.transactionJournals)) == Ok(rd.downloadedAttachments)
  {
    var accounts := a.assetAccounts.value;
    var currency := MainCurrency(a.currency, accounts).value;
    var f := CollectedFigures(a, currency.code).value;
    var t := CollectedActivity(a, download, f.initialBalances, withAttachment).value;
  }

  /** An overview without an entry for the main currency fails the run
      once the charts are in. */
  lemma MissingOverviewFails(a: Answers, code: string)
    requires a.charts(code).Ok? && a.overviews.Ok? && code !in a.overviews.value
    ensures CollectedFigures(a, code) == Err(MissingOverview)
  {
  }
}
