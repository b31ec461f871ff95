# fireporter core, modelled in Dafny

fireporter builds a PDF financial report from a Firefly III server. For a
chosen period it collects the asset accounts, the main currency, the charts,
an overview per currency, the balances at both ends of the period, every
transaction journal reconciled against running per-account balances, the
income and expense insights, and the attachments. This project models that
data-gathering core and proves what each step promises.

What the model covers, module by module:

- `Ktor` models the HTTP boundary. A `Server` is a bundle of endpoint
  functions that answer each request with a status, a reason phrase, a
  decoded body and the body text. `SafeRequest` classifies the status by the
  classes of section 15 of RFC 9110.
- `Pagination` models page-by-page draining, stopping at the first failing
  page. Every fetch loop is proved against it: accounts, attachments and
  transactions, including the transaction loop's one request too many.
- `AccountRepository`, `AttachmentRepository`, `ChartRepository`,
  `CurrencyRepository` and `InsightRepository` cover record mapping with
  defaults, the activity check, per-currency chart selection and the merged
  chart, currency validation, and insight grouping and sorting.
- `SummaryRepository` is the double-entry cash-flow engine. It covers
  balances at the start and end of a day, opening balances over a half-open
  window, and the per-currency overview with its reconciliation identity.
- `TransactionRepository` holds the journal reconciler in both versions: the
  per-account walk and the older single running total. It covers
  foreign-currency legs, running balances, element ids, and attachments
  moved out of each transaction's pool. Each walk takes a `dedupe` flag.
  With `dedupe` false it is the code as written, where a repeated journal
  id is reconciled again. With `dedupe` true a repeat is skipped, as
  intended (see Findings).
- `DataCollectorService` is the orchestrator. It is a `Collector` class
  whose methods fill the service's parts in the order `getData` runs them,
  and it is proved against the report that function `Report` defines. The
  repositories are injected. `AnswersOf(server, range, corrected)` wires in
  this model's repositories: as written when `corrected` is false, and with
  both Findings corrected when it is true.
- `DateRangeResolver`, `ReportUtils`, `FireporterController` and `Misc` are
  the pure helpers:
  - resolving a period label to its dates;
  - formatting currency, dates, times and period headings, with the unit
    tests' examples as lemmas in `ReportUtilsExamples`;
  - the period and year option lists;
  - the pretty-printer, and the properties lookup.
- `Common`, `Dates`, `Text`, `Sorting`, `Dto` and `Model` hold shared
  definitions:
  - results and errors;
  - Gregorian dates;
  - decimal text and `toInt`;
  - Kotlin's stable `sortedBy`;
  - the decoded records and the report entities.

Money is an `int` at one fixed scale, because BigDecimal sums are exact.
Dates are `(year, month, day)` triples, and "today" is a parameter wherever
the source reads the clock. Every network call is a function of the
injected `Server`. The exceptions the model covers each become an `Err`
of the `Error` datatype, so those error paths are part of each contract.
"## Left out" names the failures it does not cover: parsing amount texts,
decoding the summary answer, and the locale.

## Model

| member | source | states |
|---|---|---|
| AccountRepository.TotalPages | src/main/kotlin/com/fadlan/fireporter/repository/AccountRepository.kt:41 | the page count is the one page 1 announces, and 1 when the answer carries no pagination block |
| AccountRepository.FetchedAccountsDrainsAllPages | src/main/kotlin/com/fadlan/fireporter/repository/AccountRepository.kt:38-50 | when page 1 is answered, the listing equals pages 1 to max(1, totalPages) asked for in ascending order with their records concatenated |
| AccountRepository.FetchAccounts | src/main/kotlin/com/fadlan/fireporter/repository/AccountRepository.kt:38-50 | the loop returns the drained listing (or the first failing page's error); the pages requested are exactly 1, 2, 3, … and on success there are max(1, totalPages) of them |
| AccountRepository.ToAccount | src/main/kotlin/com/fadlan/fireporter/repository/AccountRepository.kt:57-73 | identity, name, type, current balance and its date, account number and IBAN are copied; an absent currency code or symbol becomes "", absent decimal places 2, an absent opening balance 0; the initial balance starts at 0 with no date |
| AccountRepository.AccountsOfRecords | src/main/kotlin/com/fadlan/fireporter/repository/AccountRepository.kt:55-75 | one report account per record, in record order |
| AccountRepository.GetAssetAccounts | src/main/kotlin/com/fadlan/fireporter/repository/AccountRepository.kt:52-78 | the loop returns the asset accounts listed as of the range's end date, one per record in listing order, or the listing's error |
| AccountRepository.HasActiveAccountInRange | src/main/kotlin/com/fadlan/fireporter/repository/AccountRepository.kt:80-96 | the scan answers true exactly when some account has an opening date strictly before the range's start or strictly before its end |
| AccountRepository.ActiveMeansOpenedBeforeEnd | src/main/kotlin/com/fadlan/fireporter/repository/AccountRepository.kt:88 | for a range that starts before it ends, the test is equivalent to "some account opened strictly before the end date" |
| AttachmentRepository.FetchedAttachmentsDrainsAllPages | src/main/kotlin/com/fadlan/fireporter/repository/AttachmentRepository.kt:35-47 | when page 1 is answered, the listing equals pages 1 to max(1, totalPages) drained in order, and is page 1's records alone when at most one page is announced |
| AttachmentRepository.FetchAttachments | src/main/kotlin/com/fadlan/fireporter/repository/AttachmentRepository.kt:35-47 | the loop returns the drained listing (or the first failing page's error); the pages requested are 1, 2, 3, … and on success there are max(1, totalPages) of them |
| AttachmentRepository.ToAttachment | src/main/kotlin/com/fadlan/fireporter/repository/AttachmentRepository.kt:56-74 | every listed field of the record is copied; the attachment has no file and no page images, and no element id, parent or parent description yet |
| AttachmentRepository.AttachmentsOfRecords | src/main/kotlin/com/fadlan/fireporter/repository/AttachmentRepository.kt:55-75 | one report attachment per record, in record order |
| AttachmentRepository.GetAttachmentsByTransactionId | src/main/kotlin/com/fadlan/fireporter/repository/AttachmentRepository.kt:49-78 | the loop returns one report attachment per listed record of the transaction in listing order, or the listing's error |
| ChartRepository.SeriesEntries | src/main/kotlin/com/fadlan/fireporter/repository/ChartRepository.kt:49-56 | one series converts exactly when every key parses as a date; a failure is a date-time parse error; on success the entries are the points' dates and values, one per point in order |
| ChartRepository.ConvertEntries | src/main/kotlin/com/fadlan/fireporter/repository/ChartRepository.kt:49-56 | the inner loop of getCharts returns the converted series, stopping at the first key that does not parse |
| ChartRepository.GetCharts | src/main/kotlin/com/fadlan/fireporter/repository/ChartRepository.kt:43-62 | the loop returns the series of the given currency keyed by label (a later series replacing an earlier one with the same label), the request's error, the first parse error, or UnusedCurrency when no series is kept |
| ChartRepository.SeriesEntriesAbort | src/main/kotlin/com/fadlan/fireporter/repository/ChartRepository.kt:50-51 | a series whose entry k does not parse fails as a whole with a parse error, once the entries before k have converted |
| ChartRepository.ChartsOfAbort | src/main/kotlin/com/fadlan/fireporter/repository/ChartRepository.kt:48-51 | the first series that does not convert makes the whole conversion fail with its error |
| ChartRepository.ChartsOfFails | src/main/kotlin/com/fadlan/fireporter/repository/ChartRepository.kt:48-58 | once some prefix of the series fails, the whole list fails with that same error |
| ChartRepository.LastSeries | src/main/kotlin/com/fadlan/fireporter/repository/ChartRepository.kt:57 | picks the last series of the currency with the given label, or -1 when there is none; no later series has that currency and label |
| ChartRepository.ChartsOfOkIff | src/main/kotlin/com/fadlan/fireporter/repository/ChartRepository.kt:48-58 | conversion succeeds exactly when every series, whatever its currency, parses; otherwise the error is a parse error |
| ChartRepository.ChartsOfKeepsLastSeries | src/main/kotlin/com/fadlan/fireporter/repository/ChartRepository.kt:57 | after a successful conversion a label is present exactly when some series of the currency has it, and it maps to the entries of the last such series |
| ChartRepository.ChartsUnusedIff | src/main/kotlin/com/fadlan/fireporter/repository/ChartRepository.kt:60 | getCharts fails with UnusedCurrency exactly when the answer arrived, every series parsed and no series is in the requested currency |
| ChartRepository.MergePointsAppend | src/main/kotlin/com/fadlan/fireporter/repository/ChartRepository.kt:68-73 | merging a + b is merging a and then b into the result |
| ChartRepository.MergeEntry | src/main/kotlin/com/fadlan/fireporter/repository/ChartRepository.kt:71 | one step adds the point's value to the key's running total, starting from zero; a new key goes to the end of the key order and a known key keeps its place |
| ChartRepository.GetMergedChart | src/main/kotlin/com/fadlan/fireporter/repository/ChartRepository.kt:64-76 | the two nested loops return all points of all series merged into one insertion-ordered map, or the request's error |
| ChartRepository.MergedKeys | src/main/kotlin/com/fadlan/fireporter/repository/ChartRepository.kt:66-73 | the merged keys have no repeats; a key is listed exactly when it has a total, and exactly when some point carries it |
| ChartRepository.MergedSums | src/main/kotlin/com/fadlan/fireporter/repository/ChartRepository.kt:71 | each key's total is the sum of the values of all points with that key, across all series |
| ChartRepository.MergedOrder | src/main/kotlin/com/fadlan/fireporter/repository/ChartRepository.kt:66 | the keys are in first-seen order: some occurrence of an earlier key comes before every occurrence of a later one |
| CurrencyRepository.AsWrittenNotFoundIsClientError | src/main/kotlin/com/fadlan/fireporter/repository/CurrencyRepository.kt:19-29 | as written, a 404 answer for an unknown currency code ends as a client error carrying 404, never as the invalid-currency error the 404 check was meant to raise |
| CurrencyRepository.FetchCurrencyAsWritten | src/main/kotlin/com/fadlan/fireporter/repository/CurrencyRepository.kt:18-35 | as written, every failing status, a 404 included, is the request's own error; a successful answer without a record, or whose currency is disabled, is an invalid currency code; it succeeds exactly for an enabled record and returns it unchanged |
| CurrencyRepository.FetchCurrency | src/main/kotlin/com/fadlan/fireporter/repository/CurrencyRepository.kt:18-35 | the corrected fetch: a 404 is an invalid currency code; another failing status is the request's own error; a successful answer without a record, or whose currency is disabled, is an invalid currency code; it succeeds exactly for an enabled record and returns it unchanged |
| CurrencyRepository.CorrectedDiffersOnlyOnNotFound | src/main/kotlin/com/fadlan/fireporter/repository/CurrencyRepository.kt:29 | the corrected fetch agrees with the code as written on every answer except a 404, where they differ |
| Ktor.SafeRequest | src/main/kotlin/com/fadlan/fireporter/network/Ktor.kt:30-41 | a 2xx answer yields its body and nothing else succeeds; 4xx is a client error and 5xx a server error, each carrying the status and the body text; any other status is an unexpected response |
| Ktor.StatusBranchesPartition | src/main/kotlin/com/fadlan/fireporter/network/Ktor.kt:35-40 | every status falls in exactly one of the four branches |
| Ktor.StatusErrorTextParts | src/main/kotlin/com/fadlan/fireporter/network/Ktor.kt:24-28 | the text of a status exception is the kind, " error ", the status's decimal text (which reads back as the status), ": ", then the message or, when there is none, the reason phrase |
| Common.GetOrZero | src/test/kotlin/com/fadlan/fireporter/utils/MiscTest.kt:12-25 | the map's entry for a present key, and zero for an absent one |
| SummaryRepository.ApplyFlowsAppend | src/main/kotlin/com/fadlan/fireporter/repository/SummaryRepository.kt:104-121 | applying the flows of two journal lists one after the other is the same as applying their concatenation |
| SummaryRepository.AddJournalFlow | src/main/kotlin/com/fadlan/fireporter/repository/SummaryRepository.kt:106-119 | one journal: by account the amount leaves the source and enters the destination; by currency a withdrawal lowers and a deposit raises the journal's currency; any other type leaves the map alone |
| SummaryRepository.AddJournalFlows | src/main/kotlin/com/fadlan/fireporter/repository/SummaryRepository.kt:105-120 | the inner loop applies one transaction's journals in order |
| SummaryRepository.AddTransactionFlows | src/main/kotlin/com/fadlan/fireporter/repository/SummaryRepository.kt:104-121 | the outer loop yields the cash-flow map of all journals of all transactions, every listed journal counted |
| SummaryRepository.CalculateCashFlow | src/main/kotlin/com/fadlan/fireporter/repository/SummaryRepository.kt:100-124 | returns the cash-flow map of the range's transactions under the chosen grouping, or the fetch's error |
| SummaryRepository.AccountFlowsSumToZero | src/main/kotlin/com/fadlan/fireporter/repository/SummaryRepository.kt:107-109 | grouped by account the flows total zero over any repeat-free list of accounts that names every source and destination |
| SummaryRepository.AccountFlowKeys | src/main/kotlin/com/fadlan/fireporter/repository/SummaryRepository.kt:108-109 | grouped by account, only accounts some journal names as source or destination have a flow |
| SummaryRepository.CurrencyFlowIsNetFlow | src/main/kotlin/com/fadlan/fireporter/repository/SummaryRepository.kt:110-118 | grouped by currency, each currency's flow is its withdrawals out and deposits in, over the journals in that currency |
| SummaryRepository.NetFlowAppend | src/main/kotlin/com/fadlan/fireporter/repository/SummaryRepository.kt:104-121 | the net flow of a concatenation is the sum of the net flows of the parts |
| SummaryRepository.RepeatedJournalCountsTwice | src/main/kotlin/com/fadlan/fireporter/repository/SummaryRepository.kt:104-121 | journals are not de-duplicated here: a journal listed twice moves its currency's flow twice |
| SummaryRepository.AddAccountBalance | src/main/kotlin/com/fadlan/fireporter/repository/SummaryRepository.kt:134-145 | one account: its current balance is added under its key; at the start of the day that key's flow is taken off; by currency, an account opened that very day also has its opening balance taken off |
| SummaryRepository.AddAccountBalances | src/main/kotlin/com/fadlan/fireporter/repository/SummaryRepository.kt:133-146 | the account loop applies every account in order |
| SummaryRepository.GetAssetBalanceAtDate | src/main/kotlin/com/fadlan/fireporter/repository/SummaryRepository.kt:126-149 | lists all accounts when grouping by account and asset accounts when grouping by currency, takes the one-day cash flow, and returns the balance map, or the first error |
| SummaryRepository.TakenFlowCountsAccounts | src/main/kotlin/com/fadlan/fireporter/repository/SummaryRepository.kt:140 | the flow is taken off once per account under the key, that is, key-count times |
| SummaryRepository.BalanceClosedForm | src/main/kotlin/com/fadlan/fireporter/repository/SummaryRepository.kt:133-146 | a key's balance is the total current balance of its accounts, less the key's same-day flow once per account at the start of the day, and less, by currency, the opening balances of its accounts opened that day |
| SummaryRepository.BalancesLastAccount | src/main/kotlin/com/fadlan/fireporter/repository/SummaryRepository.kt:139-145 | what the last account changes at a key, in the balance and in each of the three totals of the closed form |
| SummaryRepository.BalanceStepAt | src/main/kotlin/com/fadlan/fireporter/repository/SummaryRepository.kt:139-145 | what one account changes at a key: nothing unless the key is its own |
| SummaryRepository.AccountStartIsEndLessFlow | src/main/kotlin/com/fadlan/fireporter/repository/SummaryRepository.kt:140 | without repeated account ids, an account's start-of-day balance is its end-of-day balance less its flow for that day |
| SummaryRepository.KeyCountOfDistinctId | src/main/kotlin/com/fadlan/fireporter/repository/SummaryRepository.kt:135 | without repeated account ids, exactly one account falls under its own id |
| SummaryRepository.GetOpeningBalanceByCurrency | src/main/kotlin/com/fadlan/fireporter/repository/SummaryRepository.kt:151-170 | returns the opening balances, by currency ("UNKNOWN" when it has none), of the asset accounts opened on or after the start and strictly before the end, or the listing's error |
| SummaryRepository.OpeningBalancesClosedForm | src/main/kotlin/com/fadlan/fireporter/repository/SummaryRepository.kt:156-167 | each currency's entry is the total opening balance of its accounts opened within the range, and a currency has an entry exactly when one of its accounts was opened within the range |
| SummaryRepository.SummaryValue | src/main/kotlin/com/fadlan/fireporter/repository/SummaryRepository.kt:185-186 | the monetary value of a summary entry, and zero when the entry or its value is absent |
| SummaryRepository.GetFullOverview | src/main/kotlin/com/fadlan/fireporter/repository/SummaryRepository.kt:172-203 | returns one overview per currency with a cash flow, built from the summary, the balances at the start of the day before the range, the cash flows and the opening balances, or the first error |
| SummaryRepository.BuildOverviews | src/main/kotlin/com/fadlan/fireporter/repository/SummaryRepository.kt:178-200 | the currency loop builds exactly one overview per currency key of the cash-flow map |
| SummaryRepository.OverviewReconciles | src/main/kotlin/com/fadlan/fireporter/repository/SummaryRepository.kt:180-199 | exactly the currencies with a cash flow have an overview; ending = initial + flow + opening; net flow = income + expense; absent earned or spent figures count as zero; initial + income + expense + opening equals ending exactly when the server's earned plus spent equals the computed flow |
| TransactionRepository.Codes | src/main/kotlin/com/fadlan/fireporter/repository/TransactionRepository.kt:58 | the character codes of a date text, one per character, by which String.compareTo orders the texts |
| TransactionRepository.SortedByFirstJournalDateCorrect | src/main/kotlin/com/fadlan/fireporter/repository/TransactionRepository.kt:58 | the sort fails, with NoSuchElement, exactly when there are two or more transactions and one has no journal; otherwise the result is ordered by first-journal date text, is a permutation of the listing, and keeps transactions with equal dates in listing order |
| TransactionRepository.FetchedPagesAskOneTooMany | src/main/kotlin/com/fadlan/fireporter/repository/TransactionRepository.kt:47-56 | the loop condition `currentPage <= totalPages` drains pages 1 to totalPages + 1, one request more than the page count announced |
| TransactionRepository.FetchTransactions | src/main/kotlin/com/fadlan/fireporter/repository/TransactionRepository.kt:46-60 | the loop returns the drained listing sorted by first-journal date text, or the first error; the pages requested are 1, 2, 3, … and, once every page is answered, there are totalPages + 1 of them |
| TransactionRepository.Place | src/main/kotlin/com/fadlan/fireporter/repository/TransactionRepository.kt:111-114 | a placed attachment's element id is "<journal element id>-<attachment id>", its parent is the journal's element id and its parent description the journal's description; its identity is kept |
| TransactionRepository.Matching | src/main/kotlin/com/fadlan/fireporter/repository/TransactionRepository.kt:111 | the attachments picked for a journal all come from the pool and name that journal |
| TransactionRepository.MovedPlacesMatching | src/main/kotlin/com/fadlan/fireporter/repository/TransactionRepository.kt:108-120 | the attachments moved to a journal are, in pool order, the pool's attachments naming it, each placed under it |
| TransactionRepository.KeptIsComplement | src/main/kotlin/com/fadlan/fireporter/repository/TransactionRepository.kt:118 | the attachments left in the pool are exactly those naming another journal, and moved plus kept account for the whole pool |
| TransactionRepository.PlacedIdNotBlank | src/main/kotlin/com/fadlan/fireporter/repository/TransactionRepository.kt:117 | a placed attachment's element id is never blank, so the first matching attachment fixes the journal's first attachment element id |
| TransactionRepository.TakeAttachments | src/main/kotlin/com/fadlan/fireporter/repository/TransactionRepository.kt:186-198 | the iterator walk returns the placed attachments of the journal, the attachments that stay in the pool, and the element id of the first one moved (none when nothing moved) |
| TransactionRepository.ElementIdsDistinct | src/main/kotlin/com/fadlan/fireporter/repository/TransactionRepository.kt:182 | two journals with the same time stamp get different element ids when their journal ids differ |
| TransactionRepository.TransferMovesAmount | src/main/kotlin/com/fadlan/fireporter/repository/TransactionRepository.kt:177-178 | moving an amount lowers the source by it and raises the destination by it (a self-transfer changes nothing), leaves every other account alone, and keeps the total over any repeat-free list of accounts naming both ends |
| TransactionRepository.ReconcileJournal | src/main/kotlin/com/fadlan/fireporter/repository/TransactionRepository.kt:171-232 | one journal of the per-account walk, equal to the step of the code as written when `dedupe` is false (a repeated id is reconciled again) and to the corrected step when it is true (a repeat is skipped); a non-numeric id fails with NumberFormat and a leg in a foreign currency with MultipleCurrency |
| TransactionRepository.ReconcileTransaction | src/main/kotlin/com/fadlan/fireporter/repository/TransactionRepository.kt:171-233 | the inner loop walks one transaction's journals in order against its attachment pool, stopping at the first failure; as written or corrected by `dedupe` |
| TransactionRepository.GetTransactionJournals | src/main/kotlin/com/fadlan/fireporter/repository/TransactionRepository.kt:161-237 | the outer loop fetches the transactions and then each transaction's attachments, walks all journals from the initial balances, and returns the journals, or the first error; with `dedupe` false this is the code as written, which emits a repeated journal again |
| TransactionRepository.RepeatedIdIsSkipped | src/main/kotlin/com/fadlan/fireporter/repository/TransactionRepository.kt:172 | with repeats skipped, a journal whose id was already recorded changes nothing: no record, no balance moved, no attachment taken |
| TransactionRepository.MultipleCurrencyIff | src/main/kotlin/com/fadlan/fireporter/repository/TransactionRepository.kt:173-175 | a leg that is walked fails exactly when it has a foreign currency different from its own, and then with MultipleCurrency |
| TransactionRepository.NonNumericIdFails | src/main/kotlin/com/fadlan/fireporter/repository/TransactionRepository.kt:172 | a journal id that is not a 32-bit decimal number aborts the walk with NumberFormat |
| TransactionRepository.RecordedJournalIdsAndAttachments | src/main/kotlin/com/fadlan/fireporter/repository/TransactionRepository.kt:180-231 | a recorded journal carries its id, its amount and its element id; its attachments are the pool's attachments naming it, in pool order, each placed under it; its first attachment element id is that of the first of them, or none; the pool keeps the others |
| TransactionRepository.StepKeepsReplay | src/main/kotlin/com/fadlan/fireporter/repository/TransactionRepository.kt:177-178 | one walked journal keeps the running balances equal to the replay, as transfers, of the journals emitted, each journal's balances left being those right after it |
| TransactionRepository.RunJournalsKeepsReplay | src/main/kotlin/com/fadlan/fireporter/repository/TransactionRepository.kt:171-233 | the walk over one transaction's journals keeps that replay invariant |
| TransactionRepository.RunTransactionsKeepsReplay | src/main/kotlin/com/fadlan/fireporter/repository/TransactionRepository.kt:167-234 | the walk over all transactions keeps that replay invariant |
| TransactionRepository.ReconciledBalancesReplay | src/main/kotlin/com/fadlan/fireporter/repository/TransactionRepository.kt:177-178 | replaying the returned journals as transfers from the initial balances reproduces every journal's source and destination balance left |
| TransactionRepository.StepKeepsIdsRecorded | src/main/kotlin/com/fadlan/fireporter/repository/TransactionRepository.kt:172 | with repeats skipped, one step keeps every emitted journal's id recorded and the recorded ids pairwise different |
| TransactionRepository.RunJournalsKeepsIdsRecorded | src/main/kotlin/com/fadlan/fireporter/repository/TransactionRepository.kt:171-172 | the walk over one transaction's journals keeps that invariant |
| TransactionRepository.RunTransactionsKeepsIdsRecorded | src/main/kotlin/com/fadlan/fireporter/repository/TransactionRepository.kt:167-172 | the walk over all transactions keeps that invariant |
| TransactionRepository.CorrectedJournalIdsDistinct | src/main/kotlin/com/fadlan/fireporter/repository/TransactionRepository.kt:165-172 | with repeats skipped, no journal id appears twice among the returned journals |
| TransactionRepository.AsWrittenKeepsRepeatedJournal | src/main/kotlin/com/fadlan/fireporter/repository/TransactionRepository.kt:165-172 | as written, a journal listed twice is emitted twice and its amount moved twice, while with repeats skipped it is emitted once |
| TransactionRepository.SignedAmount | src/main/kotlin/com/fadlan/fireporter/repository/TransactionRepository.kt:80-83 | the older walk records an outflow's amount negated and every other amount as is |
| TransactionRepository.OpeningWindowStartsAfterStart | src/main/kotlin/com/fadlan/fireporter/repository/TransactionRepository.kt:90 | "not before the day after the start" is "strictly after the start", for calendar dates |
| TransactionRepository.ReconcileJournalWithRunningTotal | src/main/kotlin/com/fadlan/fireporter/repository/TransactionRepository.kt:75-154 | one journal of the older walk, as written when `dedupe` is false and with a repeat skipped when it is true: no currency check; flows and opening balances dated after the start and before the end move the total by the signed amount; every other type leaves it; all three balances left are the new total |
| TransactionRepository.ReconcileTransactionWithRunningTotal | src/main/kotlin/com/fadlan/fireporter/repository/TransactionRepository.kt:75-155 | the inner loop of the older walk over one transaction's journals, stopping at the first failure; as written or corrected by `dedupe` |
| TransactionRepository.GetTransactionJournalsWithRunningTotal | src/main/kotlin/com/fadlan/fireporter/repository/TransactionRepository.kt:62-159 | the older walk over all transactions, starting from the overview's initial balance, returning the journals or the first error; with `dedupe` false this is the code as written |
| TransactionRepository.AppendKeepsTotalReplay | src/main/kotlin/com/fadlan/fireporter/repository/TransactionRepository.kt:85-100 | appending a journal whose balances left are the total after its own contribution keeps the total a replay of the journals |
| TransactionRepository.RunningTotalStepKeepsReplay | src/main/kotlin/com/fadlan/fireporter/repository/TransactionRepository.kt:85-150 | one step of the older walk keeps the total equal to the initial balance plus the emitted journals' contributions, with each journal's balances left the total right after it |
| TransactionRepository.TotalAfterIsContribution | src/main/kotlin/com/fadlan/fireporter/repository/TransactionRepository.kt:85-100 | the total after a journal is the total before plus what its record contributes |
| TransactionRepository.RunJournalsKeepsTotalReplay | src/main/kotlin/com/fadlan/fireporter/repository/TransactionRepository.kt:75-155 | the older walk over one transaction's journals keeps that invariant |
| TransactionRepository.RunTransactionsKeepsTotalReplay | src/main/kotlin/com/fadlan/fireporter/repository/TransactionRepository.kt:71-156 | the older walk over all transactions keeps that invariant |
| TransactionRepository.RunningTotalJournalsReplay | src/main/kotlin/com/fadlan/fireporter/repository/TransactionRepository.kt:85-150 | every returned journal's three balances left equal the initial balance plus what the journals up to and including it contribute |
| TransactionRepository.AppendKeepsReplay | src/main/kotlin/com/fadlan/fireporter/repository/TransactionRepository.kt:177-178 | appending a journal whose balances left are those right after its transfer keeps the running balances the replay of the journals |
| DateRangeResolver.MonthNumber | src/main/kotlin/com/fadlan/fireporter/utils/DateRangeResolver.kt:22-23 | a name the month field reads back is one of the twelve English month names, and its number is that name's position |
| DateRangeResolver.MonthNamesDistinct | src/main/kotlin/com/fadlan/fireporter/utils/DateRangeResolver.kt:19 | no two months share a name |
| DateRangeResolver.MonthNamesRoundTrip | src/main/kotlin/com/fadlan/fireporter/utils/DateRangeResolver.kt:19-23 | every month name reads back as its own number |
| DateRangeResolver.MonthPeriod | src/main/kotlin/com/fadlan/fireporter/utils/DateRangeResolver.kt:19 | a month name as the period label stands for that month alone |
| DateRangeResolver.ResolveCorrect | src/main/kotlin/com/fadlan/fireporter/utils/DateRangeResolver.kt:8-33 | resolution succeeds exactly when the year has four digits and the label is a fixed period or a month name; the range then starts on the first of the first month, ends on the earlier of the last month's last day and today (so never after either), and echoes the label and the year |
| DateRangeResolver.PeriodMonthsCorrect | src/main/kotlin/com/fadlan/fireporter/utils/DateRangeResolver.kt:11-20 | every label that names months names them within 1..12, the first not after the last, and a label names months exactly when it is Q1–Q4, H1, H2, All Year or a month name |
| DateRangeResolver.ResolveQ1Of2023 | src/test/kotlin/com/fadlan/fireporter/utils/DateRangeResolverTest.kt:10-18 | Q1 2023 is 1 January to 31 March 2023 once that day has passed |
| DateRangeResolver.ResolveQ4Of2023 | src/main/kotlin/com/fadlan/fireporter/utils/DateRangeResolver.kt:15 | Q4 2023 is 1 October to 30 November 2023, even once December is over |
| DateRangeResolver.ResolveH2Of2022 | src/test/kotlin/com/fadlan/fireporter/utils/DateRangeResolverTest.kt:20-28 | H2 2022 is 1 July to 31 December 2022 |
| DateRangeResolver.ResolveAllYear2020 | src/test/kotlin/com/fadlan/fireporter/utils/DateRangeResolverTest.kt:30-38 | All Year 2020 is 1 January to 31 December 2020 |
| DateRangeResolver.ResolveMarch2021 | src/test/kotlin/com/fadlan/fireporter/utils/DateRangeResolverTest.kt:40-48 | March 2021 is 1 to 31 March 2021 |
| DateRangeResolver.ResolveFebruary2024 | src/test/kotlin/com/fadlan/fireporter/utils/DateRangeResolverTest.kt:50-58 | February of the leap year 2024 ends on the 29th |
| DateRangeResolver.ResolveFutureYear | src/test/kotlin/com/fadlan/fireporter/utils/DateRangeResolverTest.kt:60-68 | for a year not begun yet, the range starts on its 1 January and ends today, so it ends before it starts |
| Dates.MonthLength | src/main/kotlin/com/fadlan/fireporter/utils/DateRangeResolver.kt:24 | months have 28 to 31 days; February has 29 exactly in a Gregorian leap year; April, June, September and November have 30 and the others 31 |
| Dates.Min | src/main/kotlin/com/fadlan/fireporter/utils/DateRangeResolver.kt:25 | the clamp returns one of its two dates, the one not after the other |
| Dates.EndOfMonth | src/main/kotlin/com/fadlan/fireporter/utils/DateRangeResolver.kt:23-24 | the end of a month is a valid date of that month, and no valid date of the month comes after it |
| Dates.PrevDayIsPredecessor | src/main/kotlin/com/fadlan/fireporter/repository/SummaryRepository.kt:174 | the day before a valid date is a valid, earlier date with no valid date strictly between the two |
| Dates.NextDayIsSuccessor | src/main/kotlin/com/fadlan/fireporter/repository/TransactionRepository.kt:90 | the day after a valid date is a valid, later date with no valid date strictly between the two |
| Dates.StepsRoundTrip | src/main/kotlin/com/fadlan/fireporter/repository/SummaryRepository.kt:46-47 | one day back then one day forward, or forward then back, returns the same date |
| Dates.BeforeIsStrictTotalOrder | src/main/kotlin/com/fadlan/fireporter/repository/AccountRepository.kt:88 | isBefore is irreflexive, asymmetric and transitive, and any two different dates are ordered one way or the other |
| FireporterController.GetFullYearPeriods | src/main/kotlin/com/fadlan/fireporter/controller/FireporterController.kt:185-190 | the method builds the full list: the month names, then Q1, Q2, Q3, H1, H2 and All Year |
| FireporterController.FullYearPeriodsShape | src/main/kotlin/com/fadlan/fireporter/controller/FireporterController.kt:185-190 | the full list has eighteen labels, the twelve months in calendar order and then the six fixed periods; no label repeats and Q4 is not offered |
| FireporterController.FixedPeriodsDistinct | src/main/kotlin/com/fadlan/fireporter/controller/FireporterController.kt:188 | the fixed periods are pairwise different and Q4 is not among them |
| FireporterController.GetCurrentYearPeriods | src/main/kotlin/com/fadlan/fireporter/controller/FireporterController.kt:192-203 | the method builds the current-year list: the months so far, then the fixed periods the current month unlocks, then All Year |
| FireporterController.CurrentYearPeriodsLayout | src/main/kotlin/com/fadlan/fireporter/controller/FireporterController.kt:192-203 | the current-year list opens with the months up to the current one, in order, and closes with All Year |
| FireporterController.CurrentYearExtrasShape | src/main/kotlin/com/fadlan/fireporter/controller/FireporterController.kt:196-199 | Q1 is offered exactly after April, Q2 after August, Q3 after September and H1 after June; Q4, H2 and All Year are never among these extras, which are distinct fixed periods |
| FireporterController.NoMonthIsFixed | src/main/kotlin/com/fadlan/fireporter/controller/FireporterController.kt:187-188 | no fixed period carries a month's name |
| FireporterController.CurrentYearPeriodsDistinct | src/main/kotlin/com/fadlan/fireporter/controller/FireporterController.kt:192-203 | no label is offered twice in the current-year list |
| FireporterController.MonthPrefix | src/main/kotlin/com/fadlan/fireporter/controller/FireporterController.kt:194 | the first k month names are distinct month names |
| FireporterController.ExtrasTail | src/main/kotlin/com/fadlan/fireporter/controller/FireporterController.kt:196-201 | what follows the months in the current-year list is a repeat-free list of fixed periods |
| FireporterController.YearOptions | src/main/kotlin/com/fadlan/fireporter/controller/FireporterController.kt:162-165 | the year choices are last year and this year, in that order |
| FireporterController.EveryOfferedPeriodResolves | src/main/kotlin/com/fadlan/fireporter/controller/FireporterController.kt:173-183 | every label on offer, for either year list, is one the date-range resolver maps to months, so every choice resolves for a four-digit year |
| InsightRepository.ToInsightItem | src/main/kotlin/com/fadlan/fireporter/repository/InsightRepository.kt:42-48 | an insight item copies the record's id, name, difference, currency id and currency code |
| InsightRepository.ToInsightItems | src/main/kotlin/com/fadlan/fireporter/repository/InsightRepository.kt:41-49 | one insight item per record, in record order |
| InsightRepository.IncomeItemsSorted | src/main/kotlin/com/fadlan/fireporter/repository/InsightRepository.kt:60 | income items run from the largest difference down, the sort is a permutation, and items with equal differences keep their order |
| InsightRepository.IncomeItemsStable | src/main/kotlin/com/fadlan/fireporter/repository/InsightRepository.kt:60 | sorting descending keeps the order of items with equal differences |
| InsightRepository.ExpenseItemsSorted | src/main/kotlin/com/fadlan/fireporter/repository/InsightRepository.kt:61 | expense items run from the smallest difference up, the sort is a permutation, and items with equal differences keep their order |
| InsightRepository.SortedItemsLength | src/main/kotlin/com/fadlan/fireporter/repository/InsightRepository.kt:59-62 | sorting keeps the number of items |
| InsightRepository.InsightGroupHeader | src/main/kotlin/com/fadlan/fireporter/repository/InsightRepository.kt:39-64 | a fetched group carries its type and the label "Account" for the account filters and the title-cased filter otherwise, and it has items exactly when the server listed some |
| InsightRepository.InsightGroupItems | src/main/kotlin/com/fadlan/fireporter/repository/InsightRepository.kt:39-64 | a fetched group's items are the fetched records converted, in sorted order: income from the largest difference down, expense from the smallest up, equal differences in the order they came |
| InsightRepository.CategoryAndTagLabels | src/main/kotlin/com/fadlan/fireporter/repository/InsightRepository.kt:53 | the category and tag groups are labelled "Category" and "Tag" |
| InsightRepository.GetInsights | src/main/kotlin/com/fadlan/fireporter/repository/InsightRepository.kt:66-83 | returns the account group (revenue for income, expense for expense), then the category and the tag group, each kept only when it has items, or the first request's error |
| InsightRepository.KeptGroupsShape | src/main/kotlin/com/fadlan/fireporter/repository/InsightRepository.kt:71-82 | keeping the non-empty ones of an account, a category and a tag group gives at most three non-empty groups of the type, in that order, each present exactly when it has items |
| InsightRepository.InsightsKept | src/main/kotlin/com/fadlan/fireporter/repository/InsightRepository.kt:73-80 | a successful answer means all three requests succeeded, and it is their groups with the empty ones dropped |
| InsightRepository.InsightsShape | src/main/kotlin/com/fadlan/fireporter/repository/InsightRepository.kt:66-83 | the answer holds at most three groups, none empty, all of the requested type, in the order account, category, tag |
| InsightRepository.InsightsPresence | src/main/kotlin/com/fadlan/fireporter/repository/InsightRepository.kt:73-80 | each of the account, category and tag groups is in the answer exactly when the server listed totals for it |
| ReportUtils.BuildCurrencyPattern | src/main/kotlin/com/fadlan/fireporter/utils/ReportUtils.kt:18-24 | the pattern-building loop yields "#,##0", followed, when the decimal places are positive, by a point and that many zeros |
| ReportUtils.CurrencyPatternFraction | src/main/kotlin/com/fadlan/fireporter/utils/ReportUtils.kt:18-24 | the pattern starts with "#,##0"; it has a point exactly when the decimal places are positive, and then exactly that many zeros after it; otherwise it is five characters |
| ReportUtils.GroupThousandsUngroup | src/main/kotlin/com/fadlan/fireporter/utils/ReportUtils.kt:18 | the "#,##0" grouping only inserts commas: removing them gives back the digits |
| ReportUtils.GroupThousandsCommas | src/main/kotlin/com/fadlan/fireporter/utils/ReportUtils.kt:18 | grouping puts a comma exactly at every fourth position from the right, one for each full group of three after the first |
| ReportUtils.SplitMagnitude | src/main/kotlin/com/fadlan/fireporter/utils/ReportUtils.kt:26-27 | the whole units times the unit size plus the fraction part give back the amount |
| ReportUtils.FractionTextCorrect | src/main/kotlin/com/fadlan/fireporter/utils/ReportUtils.kt:19-24 | the fraction text is a point and exactly k digits that read back to the fraction part, and empty when k is zero |
| ReportUtils.WholeTextCorrect | src/main/kotlin/com/fadlan/fireporter/utils/ReportUtils.kt:18 | the whole text has its commas every fourth position from the right, and without them it is the decimal digits of the whole units |
| ReportUtils.FormatCurrencyParts | src/main/kotlin/com/fadlan/fireporter/utils/ReportUtils.kt:13-28 | the text is the symbol, a space, a minus sign exactly for a negative amount, the grouped whole part, then a point and exactly decimalPlaces digits when that is positive; the whole and fraction digits read back to the amount |
| ReportUtils.FormatDateParts | src/main/kotlin/com/fadlan/fireporter/utils/ReportUtils.kt:30-35 | a date of a four-digit year prints as its day without leading zero (one or two digits), a space, the month's three-letter abbreviation, a space and the four year digits; each part reads back to its field |
| ReportUtils.YearDigits | src/main/kotlin/com/fadlan/fireporter/utils/ReportUtils.kt:34 | a four-digit year prints as its plain decimal digits |
| ReportUtils.FormatTimeParts | src/main/kotlin/com/fadlan/fireporter/utils/ReportUtils.kt:37-42 | a time prints as two hour digits, a colon and two minute digits that read back to the hour and the minute; the seconds do not change the text |
| ReportUtils.GetPeriodShape | src/main/kotlin/com/fadlan/fireporter/utils/ReportUtils.kt:44-54 | the heading always starts with the label and the year, and it closes with a bracket exactly when the range ends today or the label is Q1, Q2, Q3, H1 or H2 |
| ReportUtils.PeriodText | src/main/kotlin/com/fadlan/fireporter/utils/ReportUtils.kt:46-50 | when the range ends today or the label is a quarter or half other than Q4, the heading is the label, the year, and the two formatted dates joined by an em dash in brackets |
| ReportUtilsExamples.FormatDollars | src/test/kotlin/com/fadlan/fireporter/utils/ReportUtilsTest.kt:13-15 | 1,234.50 with two decimal places and the dollar sign prints as "$ 1,234.50" |
| ReportUtilsExamples.FormatRupiah | src/test/kotlin/com/fadlan/fireporter/utils/ReportUtilsTest.kt:17-19 | one million with no decimal places prints as "Rp 1,000,000" |
| ReportUtilsExamples.FormatCents | src/test/kotlin/com/fadlan/fireporter/utils/ReportUtilsTest.kt:21-23 | 56.78 with three decimal places prints as "¢ 56.780" |
| ReportUtilsExamples.FormatPounds | src/test/kotlin/com/fadlan/fireporter/utils/ReportUtilsTest.kt:25-27 | 1,234,567.891 with three decimal places and the pound sign prints as "£ 1,234,567.891", with two groups |
| ReportUtilsExamples.FormatDate18June2023 | src/test/kotlin/com/fadlan/fireporter/utils/ReportUtilsTest.kt:31-34 | 18 June 2023 prints as "18 Jun 2023" |
| ReportUtilsExamples.FormatDate5January2021 | src/test/kotlin/com/fadlan/fireporter/utils/ReportUtilsTest.kt:40-43 | 5 January 2021 prints as "5 Jan 2021", the day without a leading zero |
| ReportUtilsExamples.FormatDate1January2023 | src/test/kotlin/com/fadlan/fireporter/utils/ReportUtilsTest.kt:88 | 1 January 2023 prints as "1 Jan 2023" |
| ReportUtilsExamples.FormatDate31March2023 | src/test/kotlin/com/fadlan/fireporter/utils/ReportUtilsTest.kt:88 | 31 March 2023 prints as "31 Mar 2023" |
| ReportUtilsExamples.FormatTimeExamples | src/test/kotlin/com/fadlan/fireporter/utils/ReportUtilsTest.kt:46-78 | 20:15:00, midnight, 23:59:59 and 05:07:09 print as "20:15", "00:00", "23:59" and "05:07", and no time prints as "" |
| ReportUtilsExamples.GetPeriodQ1Of2023 | src/test/kotlin/com/fadlan/fireporter/utils/ReportUtilsTest.kt:81-89 | the first quarter of 2023 is headed "Q1 2023 (1 Jan 2023—31 Mar 2023)" |
| ReportUtilsExamples.GetPeriodMay2021 | src/test/kotlin/com/fadlan/fireporter/utils/ReportUtilsTest.kt:101-109 | May 2021, on any day other than its last, is headed "May 2021" |
| ReportUtilsExamples.GetPeriodAllYear2020 | src/test/kotlin/com/fadlan/fireporter/utils/ReportUtilsTest.kt:111-119 | the whole of 2020, on any day other than its last, is headed "All Year 2020" |
| Misc.PadStart | src/main/kotlin/com/fadlan/fireporter/utils/misc.kt:11 | the padding is exactly n spaces, and a negative width is an illegal argument |
| Misc.Step | src/main/kotlin/com/fadlan/fireporter/utils/misc.kt:19-38 | one turn of the printing loop always moves the index forward and stays within the text |
| Misc.PrettyPrint | src/main/kotlin/com/fadlan/fireporter/utils/misc.kt:6-42 | the loop builds exactly the text that the printing function defines, failing with the same error when a padding width goes negative |
| Misc.PrettyTextKeepsContent | src/main/kotlin/com/fadlan/fireporter/utils/misc.kt:17-39 | the layout only adds and drops spaces and line breaks: with those taken out, the printed text equals the input |
| Misc.StepDepth | src/main/kotlin/com/fadlan/fireporter/utils/misc.kt:20-27 | one turn keeps the indent level equal to the number of openers minus closers consumed so far, and fails exactly when that number goes negative |
| Misc.RunFailsIff | src/main/kotlin/com/fadlan/fireporter/utils/misc.kt:17-39 | the rest of the loop succeeds exactly when no later prefix closes more brackets than it opened |
| Misc.PrettyTextFailsIff | src/main/kotlin/com/fadlan/fireporter/utils/misc.kt:11-27 | printing fails exactly when some prefix of the text closes more brackets than it opened, and the failure is then an illegal argument |
| Misc.RunError | src/main/kotlin/com/fadlan/fireporter/utils/misc.kt:11 | the only way the loop fails is the illegal padding argument |
| Misc.SafePathAlwaysPrepends | src/main/kotlin/com/fadlan/fireporter/utils/misc.kt:45-46 | the path test can never choose the else branch: every path gets a slash in front, even one that already starts with a slash |
| Misc.LoadProperties | src/main/kotlin/com/fadlan/fireporter/utils/misc.kt:44-53 | the properties are found exactly when the resource at the slash-prefixed path exists, and are then that resource's |
| Misc.GetProperty | src/main/kotlin/com/fadlan/fireporter/utils/misc.kt:55-58 | the value of the key when the file and the key exist, and "Unknown" otherwise |
| Pagination.Range | src/main/kotlin/com/fadlan/fireporter/repository/AccountRepository.kt:44-49 | the page numbers asked for are lo, lo + 1, …, hi in that order, none when hi is below lo |
| Pagination.DrainOkIff | src/main/kotlin/com/fadlan/fireporter/repository/AccountRepository.kt:44-49 | draining the pages succeeds exactly when every page request in the range succeeds |
| Pagination.DrainFirstError | src/main/kotlin/com/fadlan/fireporter/repository/AttachmentRepository.kt:41-46 | a failed drain reports the error of the first page whose request fails; no later page matters |
| Pagination.DrainSplit | src/main/kotlin/com/fadlan/fireporter/repository/TransactionRepository.kt:52-56 | the records of a whole drain are the records of its first part followed by those of the rest |
| Pagination.DrainFront | src/main/kotlin/com/fadlan/fireporter/repository/TransactionRepository.kt:52-56 | a drain is the first page's records followed by the drain of the remaining pages, with the first failure winning |
| Sorting.LexLtIrreflexive | src/main/kotlin/com/fadlan/fireporter/repository/TransactionRepository.kt:58 | no key is below itself in the key order sortedBy uses |
| Sorting.LexLtTransitive | src/main/kotlin/com/fadlan/fireporter/repository/TransactionRepository.kt:58 | the key order is transitive |
| Sorting.LexLtTotal | src/main/kotlin/com/fadlan/fireporter/repository/TransactionRepository.kt:58 | any two distinct keys are ordered one way or the other |
| Sorting.NotLtTransitive | src/main/kotlin/com/fadlan/fireporter/repository/TransactionRepository.kt:58 | "not below" is transitive, which is what keeps insertion sorted |
| Sorting.InsertPermutes | src/main/kotlin/com/fadlan/fireporter/repository/InsightRepository.kt:60-61 | insertion adds exactly the one element and keeps every other |
| Sorting.InsertSorted | src/main/kotlin/com/fadlan/fireporter/repository/InsightRepository.kt:60-61 | inserting into a sorted list keeps it sorted |
| Sorting.InsertStable | src/main/kotlin/com/fadlan/fireporter/repository/InsightRepository.kt:60-61 | inserting puts the new element after every equal-keyed element already present, keeping their order |
| Sorting.SortByKeyCorrect | src/main/kotlin/com/fadlan/fireporter/repository/TransactionRepository.kt:58 | sortedBy: the result is ordered by key, is a permutation of the input, and keeps the input order of elements with equal keys |
| Text.NatToString | src/main/kotlin/com/fadlan/fireporter/repository/AccountRepository.kt:28 | the decimal text of a number is non-empty, all digits, and has a leading zero only for zero itself |
| Text.IntToString | src/main/kotlin/com/fadlan/fireporter/repository/AccountRepository.kt:28 | the decimal text of an integer is non-empty and starts with a minus sign exactly when it is negative |
| Text.NatToStringRoundTrip | src/main/kotlin/com/fadlan/fireporter/repository/AccountRepository.kt:28 | the digits of a number read back to that number |
| Text.NatToStringInjective | src/main/kotlin/com/fadlan/fireporter/repository/AccountRepository.kt:28 | distinct numbers print as distinct texts |
| Text.ParseInt | src/main/kotlin/com/fadlan/fireporter/repository/TransactionRepository.kt:172 | toInt: a value is read only from a sign and decimal digits, and it lies in the 32-bit range |
| Text.ParseIntRoundTrip | src/main/kotlin/com/fadlan/fireporter/repository/TransactionRepository.kt:172 | toInt reads back what toString printed, for every 32-bit value |
| Text.ZeroPad | src/main/kotlin/com/fadlan/fireporter/utils/ReportUtils.kt:40 | zero padding gives only digits, exactly the width when the number is shorter, and its own digits otherwise |
| Text.ZeroPadValue | src/main/kotlin/com/fadlan/fireporter/utils/ReportUtils.kt:40 | the padded digits read back to the number |
| Text.TitleCase | src/main/kotlin/com/fadlan/fireporter/repository/InsightRepository.kt:53 | the label keeps its length, its first character is upper-cased and the rest is unchanged |
| DataCollectorService.CheckDateRange | src/main/kotlin/com/fadlan/fireporter/service/DataCollectorService.kt:102-109 | the range passes exactly when its start is strictly before its end; an empty or backwards range is an illegal-date-range failure |
| DataCollectorService.CollectedAccounts | src/main/kotlin/com/fadlan/fireporter/service/DataCollectorService.kt:46-51 | the run goes on exactly when the fetch succeeded and some account was opened before the range's start or end; the list is then the fetched one and not empty; a fetch failure is passed on, and no active account is an inactive-account failure |
| DataCollectorService.ActiveListNonEmpty | src/main/kotlin/com/fadlan/fireporter/service/DataCollectorService.kt:50 | an account list that passes the activity check is not empty, so the later first() cannot fail |
| DataCollectorService.CurrencyOf | src/main/kotlin/com/fadlan/fireporter/service/DataCollectorService.kt:93-99 | the main currency takes the code, id, symbol, decimal places and name of the fetched currency |
| DataCollectorService.MainCurrency | src/main/kotlin/com/fadlan/fireporter/service/DataCollectorService.kt:91-100 | the main currency is the validated currency of the first account, a currency failure is passed on, and an empty list is a no-such-element failure |
| DataCollectorService.WithBalances | src/main/kotlin/com/fadlan/fireporter/service/DataCollectorService.kt:62-66 | an account's initial balance is the start balance of its id, dated at the start, its current balance the end balance of its id (zero when missing), and every other field is unchanged |
| DataCollectorService.UpdatedAccounts | src/main/kotlin/com/fadlan/fireporter/service/DataCollectorService.kt:62-66 | every account of the list is updated, in listing order |
| DataCollectorService.UpdateIdempotent | src/main/kotlin/com/fadlan/fireporter/service/DataCollectorService.kt:62-66 | running the account loop twice gives the same accounts as running it once |
| DataCollectorService.UpdateKeepsIdentity | src/main/kotlin/com/fadlan/fireporter/service/DataCollectorService.kt:62-66 | the loop keeps every account's id, name, currency and opening data at its position |
| DataCollectorService.WithAttachments | src/main/kotlin/com/fadlan/fireporter/service/DataCollectorService.kt:85 | the journals handed to the download are exactly those that have attachments, no more than there were |
| DataCollectorService.Downloaded | src/main/kotlin/com/fadlan/fireporter/service/DataCollectorService.kt:82-86 | no attachments unless they are asked for; otherwise the download of the journals that have any |
| DataCollectorService.Overview | src/main/kotlin/com/fadlan/fireporter/service/DataCollectorService.kt:58 | the overview of the main currency is found exactly when the overviews hold that code; a missing entry is a failure |
| DataCollectorService.Collector.constructor | src/main/kotlin/com/fadlan/fireporter/service/DataCollectorService.kt:21-44 | the service keeps the repositories and the download it is given |
| DataCollectorService.Collector.CollectAccounts | src/main/kotlin/com/fadlan/fireporter/service/DataCollectorService.kt:46-51 | the step fails exactly when the accounts cannot be collected, with the same error, and otherwise stores the collected accounts |
| DataCollectorService.Collector.SetMainCurrency | src/main/kotlin/com/fadlan/fireporter/service/DataCollectorService.kt:91-100 | the step fails exactly as the main-currency lookup on the stored accounts does, and otherwise stores that currency; the accounts are untouched |
| DataCollectorService.Collector.UpdateAccounts | src/main/kotlin/com/fadlan/fireporter/service/DataCollectorService.kt:62-66 | the loop leaves the accounts updated from the two stored balance maps and changes no other part |
| DataCollectorService.Collector.CollectFigures | src/main/kotlin/com/fadlan/fireporter/service/DataCollectorService.kt:53-66 | the charts, the main currency's overview and both balance maps are stored as fetched, the accounts are updated from those maps, and the first failure among those requests is the step's |
| DataCollectorService.Collector.CollectActivity | src/main/kotlin/com/fadlan/fireporter/service/DataCollectorService.kt:68-88 | the journals of the walk from the stored start balances, both insights, the attachments and the server's version are stored as fetched, the first failure is the step's, and the earlier parts are untouched |
| DataCollectorService.Collector.GetData | src/main/kotlin/com/fadlan/fireporter/service/DataCollectorService.kt:111-130 | the run yields exactly the report, or the first failure, that the four steps define for the range, theme and attachment choice, for whatever the injected repositories answer |
| DataCollectorService.IllegalRangeFailsFirst | src/main/kotlin/com/fadlan/fireporter/service/DataCollectorService.kt:112 | a report exists only for a range whose start is before its end, and any other range fails with the illegal-date-range failure before anything is fetched |
| DataCollectorService.InactiveAccountsFail | src/main/kotlin/com/fadlan/fireporter/service/DataCollectorService.kt:113 | a legal range whose accounts were all opened too late fails with the inactive-account failure, whatever the later requests answer |
| DataCollectorService.ReportShape | src/main/kotlin/com/fadlan/fireporter/service/DataCollectorService.kt:117-129 | a report holds its range and theme, the asset accounts in their order with at least one active, the currency of the first account and the overview of that currency |
| DataCollectorService.ReportBalances | src/main/kotlin/com/fadlan/fireporter/service/DataCollectorService.kt:59-70 | every report account carries the start and end balance of its id, dated at the start, and the journals are those of the walk from the start balances |
| DataCollectorService.ReportAttachments | src/main/kotlin/com/fadlan/fireporter/service/DataCollectorService.kt:82-86 | a report has no attachments unless they were asked for, and otherwise what the download of the journals with attachments answered |
| DataCollectorService.MissingOverviewFails | src/main/kotlin/com/fadlan/fireporter/service/DataCollectorService.kt:58 | once the charts are in, an overview map without the main currency's code fails the run |

## Left out

- `AttachmentService.kt` is not part of this model. It downloads files and rasterises PDFs through foreign libraries. The download is a parameter of the `Collector` (`download`).
- `JasperReportService.kt`, `DynamicTableStyler.kt` and `ThemeChartCustomizer.kt` are not part of this model. They wrap JasperReports design and fill calls and use random float colours.
- `FireporterViewModel.kt`, `FireporterApp.kt` and the JavaFX parts of `FireporterController.kt` are not part of this model. This covers alerts, dialogs, job control and the combo-box selection index.
- `ReportUtils.formatScientific` is not modelled, because it uses floating-point division and `%.1f`.
- The float pre-sort by `differenceFloat` in `fetchInsight` is not modelled. The stable sort by `difference` in `getInsightGroup` decides the order of each group; the two amounts are taken to agree.
- The legacy `getOverview`, `getCashFlowAtPeriod` and `getBalanceAt*` helpers (SummaryRepository.kt lines 28-83) are not modelled. They are hard-wired to one currency and print to stdout.
- The actual HTTP traffic is not modelled: request building, headers, bearer tokens and JSON decoding. Each endpoint answers an already-decoded body.
- Date and time parsing is not modelled: `ZonedDateTime.parse`, `LocalDate.parse`, `toEpochSecond` and `Date.from`. Journal and attachment records carry their decoded date, epoch seconds and local date. A chart key that does not parse is an absent date.
- DateRangeResolver.ResolveCorrect: parsing the year with the `yyyy` pattern is taken to accept exactly the years 1000 to 9999. Other texts are a parse error. Locale-dependent resolution is not modelled.
- ReportUtils.FormatCurrencyParts: the amount is given as a whole number of the smallest unit the pattern shows. `DecimalFormat`'s HALF_EVEN rounding of an amount with more digits than the pattern shows is not modelled.
- ReportUtils.FormatCurrencyParts: the grouping symbol is taken to be ',' and the decimal symbol '.'. `DecimalFormat` takes both from the default locale, which is not modelled.
- CurrencyRepository.FetchCurrency: this is the corrected fetch, where a 404 is an invalid currency code. The code as written is CurrencyRepository.FetchCurrencyAsWritten. `DataCollectorService.AnswersOf` wires in the first when `corrected` is true and the second when it is false.
- DataCollectorService.Collector.GetData: its contract holds for whatever repositories are injected. The report of the code as written is the one for `AnswersOf(server, range, false)`. That wiring uses the as-written currency fetch and the journal walk with `dedupe` false.
- TransactionRepository.ReconcileJournal, ReconcileTransaction, GetTransactionJournals and their WithRunningTotal counterparts: each is the code as written only when called with `dedupe` false. With `dedupe` true each is the corrected walk of the Findings.
- Amount texts arrive already parsed: journal amounts, balances, chart values, insight differences and summary values are integers in the records. The NumberFormatException of `toBigDecimal()` on a malformed amount text is not modelled. This affects TransactionRepository.kt lines 81-82, 177-178 and 209; AccountRepository.kt lines 67 and 71; SummaryRepository.kt lines 106, 139, 144, 164 and 185-186; ChartRepository.kt lines 54 and 71; and InsightRepository.kt line 45.
- SummaryRepository.GetFullOverview: the summary endpoint is not passed through `safeRequest` in the source, and its answer is decoded unchecked. The model's `summary` endpoint always answers a decoded map, so a failure to decode it is not modelled.
- ReportUtils.FormatDateParts: only English month abbreviations are modelled, as a fixed table. The stated layout is for four-digit years.
- Common.GetOrZero: the file defining `getOrZero` is not part of this model. It is taken to be the lookup with zero for a missing key, which is what MiscTest.kt checks.
- Text.TitleCase: the file defining `titleCase` is not part of this model. It is taken to upper-case the first ASCII letter and keep the rest.
- Logging, `println` and progress reporting are left out, because they have no effect on the collected data. `prettyPrint` is modelled as the text it would print.
- Misc.LoadProperties: reading a class-path resource is given as a map from resource path to its properties.
- DataCollectorService.Collector: the `lateinit` fields start as placeholders. What the fields hold after a failed step is not stated; only that no report is returned.
- DataCollectorService.Collector.UpdateAccounts: the accounts are values in a sequence field. The in-place mutation of shared `Account` objects, and any aliasing of them, is not modelled.
- TransactionRepository.TakeAttachments: the in-place field assignments on pooled attachments are modelled as building new values. The pool is a sequence from which matching attachments are removed in pool order.
- SummaryRepository.OpeningBalancesClosedForm: an account without an opening balance counts as zero. The source calls `toBigDecimal()` on a text that may be null at that point.
- Concurrency is left out: the coroutines run sequentially, as the core awaits each call in turn.

These source quirks are reproduced on purpose:

- the transaction fetch asks for one page more than announced;
- Q4 resolves to October–November;
- a same-day currency flow is subtracted once per account of that currency;
- `calculateCashFlow` does not skip repeated journals;
- `loadProperties` always prepends "/".

## Findings

| source | as written | input that shows it | evidently intended | confidence | as-written member | corrected member |
|---|---|---|---|---|---|---|
| src/main/kotlin/com/fadlan/fireporter/repository/TransactionRepository.kt:172 | `journalIds` is a `MutableList`, whose `add` always returns true, so `continue` never runs. The same holds at line 76. | a transaction that lists the same journal id twice | a journal already seen is skipped: no second entry and no second balance change | not executed | TransactionRepository.AsWrittenKeepsRepeatedJournal | TransactionRepository.CorrectedJournalIdsDistinct |
| src/main/kotlin/com/fadlan/fireporter/repository/CurrencyRepository.kt:29 | `safeRequest` (Ktor.kt:30-41) already throws a client error for every 4xx, so the 404 check after it never fires | a currency code the server answers with status 404 | an unknown currency code is an invalid-currency-code error | not executed | CurrencyRepository.AsWrittenNotFoundIsClientError | CurrencyRepository.CorrectedDiffersOnlyOnNotFound |
