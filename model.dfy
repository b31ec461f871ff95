/** The report's own records, built from the decoded API answers. */
module Model {
  import opened Common
  import opened Dates
  import opened Dto

  datatype DateRangeBoundaries = DateRangeBoundaries(
    startDate: Date, endDate: Date, period: string, year: int)

  /** The range `DateRangeBoundaries(start, end)` that the repositories build
      for their own sub-requests; only its two dates are ever read. */
  function Span(start: Date, end: Date): DateRangeBoundaries {
    DateRangeBoundaries(start, end, "", 0)
  }

  datatype GroupBy = ByAccount | ByCurrencyCode

  datatype TimeOfDayBoundary = StartOfDay | EndOfDay

  datatype Account = Account(
    id: string,
    name: string,
    accountType: string,
    currencyCode: string,
    currencySymbol: string,
    currencyDecimalPlaces: int,
    currentBalance: int,
    currentBalanceDate: Option<string>,
    accountNumber: Option<string>,
    iban: Option<string>,
    openingBalance: int,
    openingBalanceDate: Option<Date>,
    initialBalance: int,
    initialBalanceDate: Option<Date>)

  datatype Attachment = Attachment(
    attachmentType: string,
    id: string,
    createdAt: string,
    updatedAt: string,
    attachableId: string,
    attachableType: string,
    md5: Option<string>,
    hash: Option<string>,
    filename: string,
    downloadUrl: string,
    uploadUrl: string,
    title: Option<string>,
    notes: Option<string>,
    mime: string,
    size: int,
    file: Option<string>,
    imageFiles: seq<string>,
    elementId: Option<string>,
    parentId: Option<string>,
    parentDescription: string)

  datatype TransactionJournal = TransactionJournal(
    journalId: string,
    journalType: string,
    epochSeconds: int,
    date: Date,
    order: int,
    currencyCode: string,
    currencySymbol: string,
    currencyDecimalPlaces: int,
    amount: int,
    description: string,
    sourceId: string,
    sourceName: string,
    sourceType: string,
    destinationId: string,
    destinationName: string,
    destinationType: string,
    budgetId: Option<string>,
    budgetName: Option<string>,
    categoryId: Option<string>,
    categoryName: Option<string>,
    billId: Option<string>,
    billName: Option<string>,
    tags: seq<string>,
    hasAttachments: bool,
    attachments: seq<Attachment>,
    balanceLeft: Option<int>,
    sourceBalanceLeft: Option<int>,
    destinationBalanceLeft: Option<int>,
    elementId: Option<string>,
    firstAttachmentElementId: Option<string>)

  datatype GeneralOverview = GeneralOverview(
    initialBalance: int,
    endingBalance: int,
    income: int,
    expense: int,
    netFlow: int,
    openingBalance: int,
    currencyId: string,
    currencyCode: string,
    currencySymbol: string,
    currencyDecimalPlaces: int)

  datatype Currency = Currency(
    code: string, id: string, symbol: string, decimalPlaces: Option<int>, name: string)

  datatype ChartEntry = ChartEntry(labelDate: Date, value: int)

  datatype InsightType = Income | Expense

  datatype InsightItem = InsightItem(
    id: string, name: string, difference: int, currencyId: string, currencyCode: string)

  datatype InsightGroup = InsightGroup(
    insightType: InsightType, groupingLabel: string, insights: seq<InsightItem>)

  datatype ReportData = ReportData(
    dateRange: DateRangeBoundaries,
    theme: string,
    currency: Currency,
    accounts: seq<Account>,
    chart: map<string, seq<ChartEntry>>,
    generalOverview: GeneralOverview,
    incomeInsight: seq<InsightGroup>,
    expenseInsight: seq<InsightGroup>,
    transactionJournals: seq<TransactionJournal>,
    downloadedAttachments: seq<Attachment>,
    apiSysInfo: SystemInfoDto)
}
