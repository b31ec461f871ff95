/** The decoded answers of the finance server's REST API, as the core reads
    them. Date-time texts that the core parses are given here already parsed
    (`epochSeconds`, a calendar `Date`); amounts are integers at one fixed
    decimal scale. */
module Dto {
  import opened Common
  import opened Dates

  datatype AccountAttributes = AccountAttributes(
    name: string,
    accountType: string,
    currencyCode: Option<string>,
    currencySymbol: Option<string>,
    currencyDecimalPlaces: Option<int>,
    currentBalance: int,
    currentBalanceDate: string,
    accountNumber: Option<string>,
    iban: Option<string>,
    openingBalance: Option<int>,
    openingBalanceDate: Option<Date>)

  datatype AccountDto = AccountDto(id: string, attributes: AccountAttributes)

  /** One page of `GET /accounts`; `totalPages` is absent when `meta` or its
      `pagination` is missing. */
  datatype AccountPage = AccountPage(data: seq<AccountDto>, totalPages: Option<int>)

  /** One leg of a transaction. `date` is the RFC 3339 text the server sent;
      `epochSeconds` and `localDate` are that text already parsed. */
  datatype TransactionJournalDto = TransactionJournalDto(
    journalId: string,
    journalType: string,
    date: string,
    epochSeconds: int,
    localDate: Date,
    order: int,
    currencyCode: string,
    currencySymbol: string,
    currencyDecimalPlaces: int,
    foreignCurrencyCode: Option<string>,
    amount: int,
    description: string,
    sourceId: string,
    sourceName: string,
    sourceType: string,
    destinationId: string,
    destinationName: string,
    destinationType: string,
    budgetId: Option<string>,
    budgetName: Option<string>,
    categoryId: Option<string>,
    categoryName: Option<string>,
    billId: Option<string>,
    billName: Option<string>,
    tags: seq<string>,
    hasAttachments: bool)

  datatype TransactionDto = TransactionDto(id: string, journals: seq<TransactionJournalDto>)

  datatype TransactionPage = TransactionPage(data: seq<TransactionDto>, totalPages: int)

  datatype AttachmentDto = AttachmentDto(
    attachmentType: string,
    id: string,
    createdAt: string,
    updatedAt: string,
    attachableId: string,
    attachableType: string,
    md5: Option<string>,
    hash: Option<string>,
    filename: string,
    downloadUrl: string,
    uploadUrl: string,
    title: Option<string>,
    notes: Option<string>,
    mime: string,
    size: int)

  datatype AttachmentPage = AttachmentPage(data: seq<AttachmentDto>, totalPages: int)

  /** One entry of a chart series: the JSON key, the date it parses to
      with the pattern `yyyy-MM-dd'T'HH:mm:ssXXX` (absent when it does not
      parse), and the value. */
  datatype ChartPoint = ChartPoint(key: string, date: Option<Date>, value: int)

  datatype ChartDto = ChartDto(seriesLabel: string, currencyCode: string, entries: seq<ChartPoint>)

  datatype InsightItemDto = InsightItemDto(
    id: string, name: string, difference: int, currencyId: string, currencyCode: string)

  datatype CurrencyAttributes = CurrencyAttributes(
    enabled: bool, name: string, code: string, symbol: string, decimalPlaces: Option<int>)

  datatype CurrencyDto = CurrencyDto(id: string, attributes: CurrencyAttributes)

  datatype CurrencyResponse = CurrencyResponse(data: Option<CurrencyDto>)

  /** One entry of `GET /summary/basic`, keyed like `earned-in-USD`. */
  datatype BasicSummaryDto = BasicSummaryDto(
    monetaryValue: Option<int>,
    currencyId: Option<string>,
    currencyCode: Option<string>,
    currencySymbol: Option<string>,
    currencyDecimalPlaces: Option<int>)

  datatype SystemInfoDto = SystemInfoDto(version: string, apiVersion: string)

  datatype SystemInfoResponse = SystemInfoResponse(data: SystemInfoDto)
}
