/** Cash flows, asset balances at a day boundary, opening balances inside a
    period, and the per-currency overview built from them. */
module SummaryRepository {
  import opened Common
  import opened Dates
  import opened Dto
  import opened Model
  import opened Ktor
  import opened AccountRepository
  import opened TransactionRepository

  // --------------------------------------------------------------- cash flow

  /** The journals of a list of transactions, transaction by transaction. */
  function AllJournals(txs: seq<TransactionDto>): seq<TransactionJournalDto> {
    if txs == [] then [] else AllJournals(txs[..|txs| - 1]) + txs[|txs| - 1].journals
  }

  /** One journal's effect on the cash-flow map. By account it moves the
      amount from the source to the destination; by currency a withdrawal
      lowers and a deposit raises the journal's currency, and any other
      type leaves the map alone. */
  function FlowStep(groupBy: GroupBy, m: map<string, int>, j: TransactionJournalDto): map<string, int> {
    match groupBy
    case ByAccount => Transfer(m, j.sourceId, j.destinationId, j.amount)
    case ByCurrencyCode =>
      if IsOutflowType(j.journalType) then AddTo(m, j.currencyCode, -j.amount)
      else if IsInflowType(j.journalType) then AddTo(m, j.currencyCode, j.amount)
      else m
  }

  /** `m` with the flows of `js` applied in order. */
  function ApplyFlows(groupBy: GroupBy, m: map<string, int>, js: seq<TransactionJournalDto>): map<string, int> {
    if js == [] then m else FlowStep(groupBy, ApplyFlows(groupBy, m, js[..|js| - 1]), js[|js| - 1])
  }

  /** The cash-flow map of a list of journals, every listed journal counted. */
  function CashFlows(groupBy: GroupBy, js: seq<TransactionJournalDto>): map<string, int> {
    ApplyFlows(groupBy, map[], js)
  }

  /** What `calculateCashFlow` returns. */
  function CashFlowOver(server: Server, range: DateRangeBoundaries, groupBy: GroupBy): Result<map<string, int>> {
    match FetchedTransactions(server, range)
    case Err(e) => Err(e)
    case Ok(txs) => Ok(CashFlows(groupBy, AllJournals(txs)))
  }

  /** Applying two lists of journals one after the other is applying their
      concatenation. */
  lemma {:induction false} ApplyFlowsAppend(groupBy: GroupBy, m: map<string, int>,
                                            a: seq<TransactionJournalDto>, b: seq<TransactionJournalDto>)
    ensures ApplyFlows(groupBy, m, a + b) == ApplyFlows(groupBy, ApplyFlows(groupBy, m, a), b)
    decreases |b|
  {
    if b == [] {
      assert a + b == a;
    } else {
      assert (a + b)[..|a + b| - 1] == a + b[..|b| - 1];
      ApplyFlowsAppend(groupBy, m, a, b[..|b| - 1]);
    }
  }

  /** The body of the inner loop of `calculateCashFlow`: one journal. */
  method AddJournalFlow(groupBy: GroupBy, cashFlows: map<string, int>, journal: TransactionJournalDto)
    returns (updated: map<string, int>)
    ensures updated == FlowStep(groupBy, cashFlows, journal)
  {
    var amount := journal.amount;
    updated := cashFlows;
    if groupBy == ByAccount {
      updated := AddTo(updated, journal.sourceId, -amount);
      updated := AddTo(updated, journal.destinationId, amount);
    } else {
      if IsOutflowType(journal.journalType) {
        updated := AddTo(updated, journal.currencyCode, -amount);
      } else if IsInflowType(journal.journalType) {
        updated := AddTo(updated, journal.currencyCode, amount);
      }
    }
  }

  /** The inner loop of `calculateCashFlow`: one transaction's journals. */
  method AddJournalFlows(groupBy: GroupBy, m: map<string, int>, js: seq<TransactionJournalDto>)
    returns (cashFlows: map<string, int>)
    ensures cashFlows == ApplyFlows(groupBy, m, js)
  {
    cashFlows := m;
    for k := 0 to |js|
      invariant cashFlows == ApplyFlows(groupBy, m, js[..k])
    {
      assert js[..k + 1][..k] == js[..k];
      cashFlows := AddJournalFlow(groupBy, cashFlows, js[k]);
    }
    assert js[..|js|] == js;
  }

  /** The outer loop of `calculateCashFlow`: every transaction in turn. */
  method AddTransactionFlows(groupBy: GroupBy, transactions: seq<TransactionDto>) returns (cashFlows: map<string, int>)
    ensures cashFlows == CashFlows(groupBy, AllJournals(transactions))
  {
    cashFlows := map[];
    for t := 0 to |transactions|
      invariant cashFlows == CashFlows(groupBy, AllJournals(transactions[..t]))
    {
      assert transactions[..t + 1][..t] == transactions[..t];
      ApplyFlowsAppend(groupBy, map[], AllJournals(transactions[..t]), transactions[t].journals);
      cashFlows := AddJournalFlows(groupBy, cashFlows, transactions[t].journals);
    }
    assert transactions[..|transactions|] == transactions;
  }

  /** `calculateCashFlow`. */
  method CalculateCashFlow(server: Server, range: DateRangeBoundaries, groupBy: GroupBy)
    returns (r: Result<map<string, int>>)
    ensures r == CashFlowOver(server, range, groupBy)
  {
    var fetched, _ := FetchTransactions(server, range);
    if fetched.Err? {
      return Err(fetched.error);
    }
    var cashFlows := AddTransactionFlows(groupBy, fetched.value);
    r := Ok(cashFlows);
  }

  /** Grouped by account, every amount leaves one account and enters
      another, so the flows total zero over any duplicate-free list of
      accounts that names every source and destination. */
  lemma {:induction false} AccountFlowsSumToZero(js: seq<TransactionJournalDto>, ks: seq<string>)
    requires Distinct(ks)
    requires forall i :: 0 <= i < |js| ==> js[i].sourceId in ks && js[i].destinationId in ks
    ensures SumOver(CashFlows(ByAccount, js), ks) == 0
  {
    if js == [] {
      SumOverEmpty(ks);
    } else {
      var last := js[|js| - 1];
      AccountFlowsSumToZero(js[..|js| - 1], ks);
      TransferMovesAmount(CashFlows(ByAccount, js[..|js| - 1]), last.sourceId, last.destinationId, last.amount, ks);
    }
  }

  /** Grouped by account, the only accounts with a flow are those some
      journal names. */
  lemma {:induction false} AccountFlowKeys(js: seq<TransactionJournalDto>, k: string)
    requires k in CashFlows(ByAccount, js)
    ensures exists i :: 0 <= i < |js| && (js[i].sourceId == k || js[i].destinationId == k)
  {
    var last := js[|js| - 1];
    if k != last.sourceId && k != last.destinationId {
      AccountFlowKeys(js[..|js| - 1], k);
      var i :| 0 <= i < |js| - 1 && (js[..|js| - 1][i].sourceId == k || js[..|js| - 1][i].destinationId == k);
      assert js[i] == js[..|js| - 1][i];
    }
  }

  /** What one journal adds to its own currency's flow. */
  function CurrencyFlow(j: TransactionJournalDto): int {
    if IsOutflowType(j.journalType) then -j.amount
    else if IsInflowType(j.journalType) then j.amount
    else 0
  }

  /** The net flow of currency `c`: withdrawals out, deposits in, over the
      journals in that currency. */
  function NetFlow(js: seq<TransactionJournalDto>, c: string): int {
    if js == [] then 0
    else NetFlow(js[..|js| - 1], c) + (if js[|js| - 1].currencyCode == c then CurrencyFlow(js[|js| - 1]) else 0)
  }

  /** Grouped by currency, each currency's flow is its net flow. */
  lemma {:induction false} CurrencyFlowIsNetFlow(js: seq<TransactionJournalDto>, c: string)
    ensures GetOrZero(CashFlows(ByCurrencyCode, js), c) == NetFlow(js, c)
  {
    if js != [] {
      CurrencyFlowIsNetFlow(js[..|js| - 1], c);
    }
  }

  /** The net flow of a concatenation is the sum of the net flows. */
  lemma {:induction false} NetFlowAppend(a: seq<TransactionJournalDto>, b: seq<TransactionJournalDto>, c: string)
    ensures NetFlow(a + b, c) == NetFlow(a, c) + NetFlow(b, c)
    decreases |b|
  {
    if b == [] {
      assert a + b == a;
    } else {
      assert (a + b)[..|a + b| - 1] == a + b[..|b| - 1];
      NetFlowAppend(a, b[..|b| - 1], c);
    }
  }

  /** Journals are not de-duplicated here: a journal listed twice moves
      its currency's flow twice. */
  lemma RepeatedJournalCountsTwice(js: seq<TransactionJournalDto>, j: TransactionJournalDto)
    ensures GetOrZero(CashFlows(ByCurrencyCode, js + [j, j]), j.currencyCode)
         == GetOrZero(CashFlows(ByCurrencyCode, js), j.currencyCode) + 2 * CurrencyFlow(j)
  {
    CurrencyFlowIsNetFlow(js + [j, j], j.currencyCode);
    CurrencyFlowIsNetFlow(js, j.currencyCode);
    NetFlowAppend(js, [j, j], j.currencyCode);
    assert [j, j][..1] == [j] && [j][..0] == [];
    assert NetFlow([j], j.currencyCode) == CurrencyFlow(j);
    assert NetFlow([j, j], j.currencyCode) == 2 * CurrencyFlow(j);
  }

  // ---------------------------------------------------- balances at a date

  /** Accounts of every type when grouping by account, asset accounts when
      grouping by currency. */
  function AccountsTypeFor(groupBy: GroupBy): string {
    if groupBy == ByAccount then "all" else "asset"
  }

  /** An account's currency, "UNKNOWN" when it has none. */
  function CurrencyKey(a: AccountDto): string {
    a.attributes.currencyCode.GetOr("UNKNOWN")
  }

  function BalanceKey(groupBy: GroupBy, a: AccountDto): string {
    if groupBy == ByAccount then a.id else CurrencyKey(a)
  }

  /** One account's effect on the balance map: its current balance is
      added to its key; at the start of the day the key's same-day flow is
      taken off; by currency, an account opened on that very day also has its
      opening balance taken off. */
  function AtBoundary(timeOfDay: TimeOfDayBoundary, cashFlows: map<string, int>, m: map<string, int>, key: string): map<string, int> {
    if timeOfDay == StartOfDay then AddTo(m, key, -GetOrZero(cashFlows, key)) else m
  }

  function BalanceStep(groupBy: GroupBy, timeOfDay: TimeOfDayBoundary, date: Date, cashFlows: map<string, int>,
                       m: map<string, int>, a: AccountDto): map<string, int>
  {
    var key := BalanceKey(groupBy, a);
    var withCurrent := AddTo(m, key, a.attributes.currentBalance);
    var atBoundary := AtBoundary(timeOfDay, cashFlows, withCurrent, key);
    if a.attributes.openingBalanceDate.Some? && groupBy == ByCurrencyCode && a.attributes.openingBalanceDate.value == date
    then AddTo(atBoundary, key, -a.attributes.openingBalance.GetOr(0))
    else atBoundary
  }

  function Balances(groupBy: GroupBy, timeOfDay: TimeOfDayBoundary, date: Date, cashFlows: map<string, int>,
                    accounts: seq<AccountDto>): map<string, int>
  {
    if accounts == [] then map[]
    else BalanceStep(groupBy, timeOfDay, date, cashFlows,
                     Balances(groupBy, timeOfDay, date, cashFlows, accounts[..|accounts| - 1]), accounts[|accounts| - 1])
  }

  /** What `getAssetBalanceAtDate` returns. */
  function AssetBalanceAtDate(server: Server, date: Date, groupBy: GroupBy, timeOfDay: TimeOfDayBoundary)
    : Result<map<string, int>>
  {
    match FetchedAccounts(server, date, AccountsTypeFor(groupBy))
    case Err(e) => Err(e)
    case Ok(accounts) =>
      match CashFlowOver(server, Span(date, date), groupBy)
      case Err(e) => Err(e)
      case Ok(cashFlows) => Ok(Balances(groupBy, timeOfDay, date, cashFlows, accounts))
  }

  /** The body of the account loop of `getAssetBalanceAtDate`. */
  method AddAccountBalance(groupBy: GroupBy, timeOfDay: TimeOfDayBoundary, date: Date, cashFlows: map<string, int>,
                           balances: map<string, int>, account: AccountDto) returns (updated: map<string, int>)
    ensures updated == BalanceStep(groupBy, timeOfDay, date, cashFlows, balances, account)
  {
    var key := BalanceKey(groupBy, account);
    updated := AddTo(balances, key, account.attributes.currentBalance);
    if timeOfDay == StartOfDay {
      updated := AddTo(updated, key, -GetOrZero(cashFlows, key));
    }
    if account.attributes.openingBalanceDate.Some? && groupBy == ByCurrencyCode {
      var openingBalanceDate := account.attributes.openingBalanceDate.value;
      if openingBalanceDate == date {
        updated := AddTo(updated, key, -account.attributes.openingBalance.GetOr(0));
      }
    }
  }

  /** The account loop of `getAssetBalanceAtDate`. */
  method AddAccountBalances(groupBy: GroupBy, timeOfDay: TimeOfDayBoundary, date: Date, cashFlows: map<string, int>,
                            accounts: seq<AccountDto>) returns (balances: map<string, int>)
    ensures balances == Balances(groupBy, timeOfDay, date, cashFlows, accounts)
  {
    balances := map[];
    for i := 0 to |accounts|
      invariant balances == Balances(groupBy, timeOfDay, date, cashFlows, accounts[..i])
    {
      assert accounts[..i + 1][..i] == accounts[..i];
      balances := AddAccountBalance(groupBy, timeOfDay, date, cashFlows, balances, accounts[i]);
    }
    assert accounts[..|accounts|] == accounts;
  }

  /** `getAssetBalanceAtDate`. */
  method GetAssetBalanceAtDate(server: Server, date: Date, groupBy: GroupBy, timeOfDay: TimeOfDayBoundary)
    returns (r: Result<map<string, int>>)
    ensures r == AssetBalanceAtDate(server, date, groupBy, timeOfDay)
  {
    var accountsType := if groupBy == ByAccount then "all" else "asset";
    var fetched, _ := FetchAccounts(server, date, accountsType);
    if fetched.Err? {
      return Err(fetched.error);
    }
    var flows := CalculateCashFlow(server, Span(date, date), groupBy);
    if flows.Err? {
      return Err(flows.error);
    }
    var balances := AddAccountBalances(groupBy, timeOfDay, date, flows.value, fetched.value);
    r := Ok(balances);
  }

  /** The total current balance of the accounts under `k`. */
  function CurrentTotal(groupBy: GroupBy, accounts: seq<AccountDto>, k: string): int {
    if accounts == [] then 0
    else
      var a := accounts[|accounts| - 1];
      CurrentTotal(groupBy, accounts[..|accounts| - 1], k) + (if BalanceKey(groupBy, a) == k then a.attributes.currentBalance else 0)
  }

  /** How many accounts fall under `k`. */
  function KeyCount(groupBy: GroupBy, accounts: seq<AccountDto>, k: string): nat {
    if accounts == [] then 0
    else KeyCount(groupBy, accounts[..|accounts| - 1], k) + (if BalanceKey(groupBy, accounts[|accounts| - 1]) == k then 1 else 0)
  }

  /** The flow `f` taken off once for every account under `k`. */
  function TakenFlow(groupBy: GroupBy, accounts: seq<AccountDto>, k: string, f: int): int {
    if accounts == [] then 0
    else TakenFlow(groupBy, accounts[..|accounts| - 1], k, f) + (if BalanceKey(groupBy, accounts[|accounts| - 1]) == k then f else 0)
  }

  /** Taking `f` off once per account is taking it off as many times as
      there are accounts under the key: accounts sharing a currency each
      subtract that currency's whole flow. */
  lemma {:induction false} TakenFlowCountsAccounts(groupBy: GroupBy, accounts: seq<AccountDto>, k: string, f: int)
    ensures TakenFlow(groupBy, accounts, k, f) == KeyCount(groupBy, accounts, k) * f
  {
    if accounts != [] {
      var init := accounts[..|accounts| - 1];
      TakenFlowCountsAccounts(groupBy, init, k, f);
      var n := KeyCount(groupBy, init, k);
      assert (n + 1) * f == n * f + f;
    }
  }

  /** The opening balances of the accounts in currency `k` opened on `date`. */
  function OpenedOnTotal(accounts: seq<AccountDto>, k: string, date: Date): int {
    if accounts == [] then 0
    else
      var a := accounts[|accounts| - 1];
      OpenedOnTotal(accounts[..|accounts| - 1], k, date)
        + (if CurrencyKey(a) == k && a.attributes.openingBalanceDate == Some(date) then a.attributes.openingBalance.GetOr(0) else 0)
  }

  /** The balance of a key is the current balance of its accounts, less, at
      the start of the day, its same-day flow once per account under it,
      and less, by currency, the opening balances of its accounts opened
      that day. */
  lemma {:induction false} BalanceClosedForm(groupBy: GroupBy, timeOfDay: TimeOfDayBoundary, date: Date,
                                             cashFlows: map<string, int>, accounts: seq<AccountDto>, k: string)
    ensures GetOrZero(Balances(groupBy, timeOfDay, date, cashFlows, accounts), k)
         == CurrentTotal(groupBy, accounts, k)
            - (if timeOfDay == StartOfDay then TakenFlow(groupBy, accounts, k, GetOrZero(cashFlows, k)) else 0)
            - (if groupBy == ByCurrencyCode then OpenedOnTotal(accounts, k, date) else 0)
  {
    if accounts != [] {
      var init, a := accounts[..|accounts| - 1], accounts[|accounts| - 1];
      BalanceClosedForm(groupBy, timeOfDay, date, cashFlows, init, k);
      BalancesLastAccount(groupBy, timeOfDay, date, cashFlows, accounts, k);
    }
  }

  /** What the last account changes at key `k`, in the balances and in the
      three totals of the closed form. */
  lemma BalancesLastAccount(groupBy: GroupBy, timeOfDay: TimeOfDayBoundary, date: Date, cashFlows: map<string, int>,
                            accounts: seq<AccountDto>, k: string)
    requires accounts != []
    ensures var init, a := accounts[..|accounts| - 1], accounts[|accounts| - 1];
            var hit := BalanceKey(groupBy, a) == k;
            var openedToday := if groupBy == ByCurrencyCode && a.attributes.openingBalanceDate == Some(date)
                               then a.attributes.openingBalance.GetOr(0) else 0;
            GetOrZero(Balances(groupBy, timeOfDay, date, cashFlows, accounts), k)
              == GetOrZero(Balances(groupBy, timeOfDay, date, cashFlows, init), k)
                 + (if hit then a.attributes.currentBalance
                                - (if timeOfDay == StartOfDay then GetOrZero(cashFlows, k) else 0) - openedToday
                    else 0)
            && CurrentTotal(groupBy, accounts, k) == CurrentTotal(groupBy, init, k) + (if hit then a.attributes.currentBalance else 0)
            && TakenFlow(groupBy, accounts, k, GetOrZero(cashFlows, k))
               == TakenFlow(groupBy, init, k, GetOrZero(cashFlows, k)) + (if hit then GetOrZero(cashFlows, k) else 0)
            && (groupBy == ByCurrencyCode ==>
                  OpenedOnTotal(accounts, k, date) == OpenedOnTotal(init, k, date) + (if hit then openedToday else 0))
  {
    var init, a := accounts[..|accounts| - 1], accounts[|accounts| - 1];
    BalanceStepAt(groupBy, timeOfDay, date, cashFlows, Balances(groupBy, timeOfDay, date, cashFlows, init), a, k);
  }

  /** What one account changes at key `k`. */
  lemma BalanceStepAt(groupBy: GroupBy, timeOfDay: TimeOfDayBoundary, date: Date, cashFlows: map<string, int>,
                      m: map<string, int>, a: AccountDto, k: string)
    ensures GetOrZero(BalanceStep(groupBy, timeOfDay, date, cashFlows, m, a), k)
         == GetOrZero(m, k)
            + (if BalanceKey(groupBy, a) == k then
                 a.attributes.currentBalance
                 - (if timeOfDay == StartOfDay then GetOrZero(cashFlows, k) else 0)
                 - (if groupBy == ByCurrencyCode && a.attributes.openingBalanceDate == Some(date)
                    then a.attributes.openingBalance.GetOr(0) else 0)
               else 0)
  {
    var key := BalanceKey(groupBy, a);
    var withCurrent := AddTo(m, key, a.attributes.currentBalance);
    GetOrZeroAddTo(m, key, a.attributes.currentBalance, k);
    var atBoundary := if timeOfDay == StartOfDay then AddTo(withCurrent, key, -GetOrZero(cashFlows, key)) else withCurrent;
    GetOrZeroAddTo(withCurrent, key, -GetOrZero(cashFlows, key), k);
    GetOrZeroAddTo(atBoundary, key, -a.attributes.openingBalance.GetOr(0), k);
  }

  /** Without duplicate account ids, an account's balance at the start of
      the day is its end-of-day balance less its flow for that day. */
  lemma {:induction false} AccountStartIsEndLessFlow(date: Date, cashFlows: map<string, int>, accounts: seq<AccountDto>, i: int)
    requires 0 <= i < |accounts|
    requires forall p, q :: 0 <= p < q < |accounts| ==> accounts[p].id != accounts[q].id
    ensures var id := accounts[i].id;
            GetOrZero(Balances(ByAccount, StartOfDay, date, cashFlows, accounts), id)
            == GetOrZero(Balances(ByAccount, EndOfDay, date, cashFlows, accounts), id) - GetOrZero(cashFlows, id)
  {
    var id := accounts[i].id;
    BalanceClosedForm(ByAccount, StartOfDay, date, cashFlows, accounts, id);
    BalanceClosedForm(ByAccount, EndOfDay, date, cashFlows, accounts, id);
    KeyCountOfDistinctId(accounts, i);
    TakenFlowCountsAccounts(ByAccount, accounts, id, GetOrZero(cashFlows, id));
  }

  lemma {:induction false} KeyCountOfDistinctId(accounts: seq<AccountDto>, i: int)
    requires 0 <= i < |accounts|
    requires forall p, q :: 0 <= p < q < |accounts| ==> accounts[p].id != accounts[q].id
    ensures KeyCount(ByAccount, accounts, accounts[i].id) == 1
  {
    var init := accounts[..|accounts| - 1];
    if i == |accounts| - 1 {
      KeyCountAbsent(init, accounts[i].id);
    } else {
      KeyCountOfDistinctId(init, i);
    }
  }

  lemma {:induction false} KeyCountAbsent(accounts: seq<AccountDto>, id: string)
    requires forall p :: 0 <= p < |accounts| ==> accounts[p].id != id
    ensures KeyCount(ByAccount, accounts, id) == 0
  {
    if accounts != [] {
      KeyCountAbsent(accounts[..|accounts| - 1], id);
    }
  }

  // -------------------------------------------------------- opening balances

  /** Opened inside the half-open range `[start, end)`. */
  predicate OpenedWithin(range: DateRangeBoundaries, a: AccountDto) {
    a.attributes.openingBalanceDate.Some?
    && !Before(a.attributes.openingBalanceDate.value, range.startDate)
    && Before(a.attributes.openingBalanceDate.value, range.endDate)
  }

  function OpeningBalances(range: DateRangeBoundaries, accounts: seq<AccountDto>): map<string, int> {
    if accounts == [] then map[]
    else
      var a := accounts[|accounts| - 1];
      var m := OpeningBalances(range, accounts[..|accounts| - 1]);
      if OpenedWithin(range, a) then AddTo(m, CurrencyKey(a), a.attributes.openingBalance.GetOr(0)) else m
  }

  /** What `getOpeningBalanceByCurrency` returns. */
  function OpeningBalanceByCurrency(server: Server, range: DateRangeBoundaries): Result<map<string, int>> {
    match FetchedAccounts(server, range.endDate, "asset")
    case Err(e) => Err(e)
    case Ok(accounts) => Ok(OpeningBalances(range, accounts))
  }

  /** `getOpeningBalanceByCurrency`. */
  method GetOpeningBalanceByCurrency(server: Server, range: DateRangeBoundaries) returns (r: Result<map<string, int>>)
    ensures r == OpeningBalanceByCurrency(server, range)
  {
    var fetched, _ := FetchAccounts(server, range.endDate, "asset");
    if fetched.Err? {
      return Err(fetched.error);
    }
    var accounts := fetched.value;
    var openingBalances: map<string, int> := map[];
    for i := 0 to |accounts|
      invariant openingBalances == OpeningBalances(range, accounts[..i])
    {
      var account := accounts[i];
      assert accounts[..i + 1][..i] == accounts[..i];
      if account.attributes.openingBalanceDate.Some? {
        var key := account.attributes.currencyCode.GetOr("UNKNOWN");
        var openingBalanceDate := account.attributes.openingBalanceDate.value;
        if !Before(openingBalanceDate, range.startDate) && Before(openingBalanceDate, range.endDate) {
          openingBalances := AddTo(openingBalances, key, account.attributes.openingBalance.GetOr(0));
        }
      }
    }
    assert accounts[..|accounts|] == accounts;
    r := Ok(openingBalances);
  }

  /** The opening balances in currency `c` of the accounts opened within the range. */
  function OpenedWithinTotal(range: DateRangeBoundaries, accounts: seq<AccountDto>, c: string): int {
    if accounts == [] then 0
    else
      var a := accounts[|accounts| - 1];
      OpenedWithinTotal(range, accounts[..|accounts| - 1], c)
        + (if OpenedWithin(range, a) && CurrencyKey(a) == c then a.attributes.openingBalance.GetOr(0) else 0)
  }

  /** Each currency's entry totals the opening balances of its accounts
      opened within the range; accounts opened before the start, on or
      after the end day, or with no opening date, contribute nothing, and a
      currency with no such account has no entry. */
  lemma {:induction false} OpeningBalancesClosedForm(range: DateRangeBoundaries, accounts: seq<AccountDto>, c: string)
    ensures GetOrZero(OpeningBalances(range, accounts), c) == OpenedWithinTotal(range, accounts, c)
    ensures c in OpeningBalances(range, accounts) <==>
            exists i :: 0 <= i < |accounts| && OpenedWithin(range, accounts[i]) && CurrencyKey(accounts[i]) == c
  {
    if accounts != [] {
      var init := accounts[..|accounts| - 1];
      OpeningBalancesClosedForm(range, init, c);
      if exists i :: 0 <= i < |init| && OpenedWithin(range, init[i]) && CurrencyKey(init[i]) == c {
        var i :| 0 <= i < |init| && OpenedWithin(range, init[i]) && CurrencyKey(init[i]) == c;
        assert accounts[i] == init[i];
      }
      if exists i :: 0 <= i < |accounts| && OpenedWithin(range, accounts[i]) && CurrencyKey(accounts[i]) == c {
        var i :| 0 <= i < |accounts| && OpenedWithin(range, accounts[i]) && CurrencyKey(accounts[i]) == c;
        if i < |init| { assert init[i] == accounts[i]; }
      }
    }
  }

  // ----------------------------------------------------------------- overview

  /** The monetary value of a summary entry, zero when the entry or its
      value is absent. */
  function SummaryValue(summary: map<string, BasicSummaryDto>, key: string): (v: int)
    ensures key !in summary ==> v == 0
    ensures key in summary && summary[key].monetaryValue.None? ==> v == 0
    ensures key in summary && summary[key].monetaryValue.Some? ==> v == summary[key].monetaryValue.value
  {
    if key in summary then summary[key].monetaryValue.GetOr(0) else 0
  }

  function OverviewFor(c: string, summary: map<string, BasicSummaryDto>, initialAssets: map<string, int>,
                       cashFlows: map<string, int>, openingBalances: map<string, int>): GeneralOverview
  {
    var initialAsset := GetOrZero(initialAssets, c);
    var endingAsset := initialAsset + GetOrZero(cashFlows, c) + GetOrZero(openingBalances, c);
    var earned := SummaryValue(summary, "earned-in-" + c);
    var spent := SummaryValue(summary, "spent-in-" + c);
    var balance := if "balance-in-" + c in summary then Some(summary["balance-in-" + c]) else None;
    GeneralOverview(initialAsset, endingAsset, earned, spent, earned + spent, GetOrZero(openingBalances, c),
                    if balance.Some? then balance.value.currencyId.GetOr("") else "",
                    if balance.Some? then balance.value.currencyCode.GetOr("UNKNOWN") else "UNKNOWN",
                    if balance.Some? then balance.value.currencySymbol.GetOr("") else "",
                    if balance.Some? then balance.value.currencyDecimalPlaces.GetOr(2) else 2)
  }

  /** One overview per currency that has a cash-flow entry. */
  function Overviews(summary: map<string, BasicSummaryDto>, initialAssets: map<string, int>,
                     cashFlows: map<string, int>, openingBalances: map<string, int>): map<string, GeneralOverview>
  {
    map c | c in cashFlows :: OverviewFor(c, summary, initialAssets, cashFlows, openingBalances)
  }

  /** What `getFullOverview` returns. */
  function FullOverview(server: Server, range: DateRangeBoundaries): Result<map<string, GeneralOverview>>
    requires Valid(range.startDate)
  {
    var summary := server.summary(range.startDate, range.endDate);
    match AssetBalanceAtDate(server, PrevDay(range.startDate), ByCurrencyCode, StartOfDay)
    case Err(e) => Err(e)
    case Ok(initialAssets) =>
      match CashFlowOver(server, range, ByCurrencyCode)
      case Err(e) => Err(e)
      case Ok(cashFlows) =>
        match OpeningBalanceByCurrency(server, range)
        case Err(e) => Err(e)
        case Ok(openingBalances) => Ok(Overviews(summary, initialAssets, cashFlows, openingBalances))
  }

  /** `getFullOverview`. The range start is a calendar date, so the day
      before it exists. */
  method GetFullOverview(server: Server, range: DateRangeBoundaries) returns (r: Result<map<string, GeneralOverview>>)
    requires Valid(range.startDate)
    ensures r == FullOverview(server, range)
  {
    var fetchedSummary := server.summary(range.startDate, range.endDate);
    var initial := GetAssetBalanceAtDate(server, PrevDay(range.startDate), ByCurrencyCode, StartOfDay);
    if initial.Err? {
      return Err(initial.error);
    }
    var flows := CalculateCashFlow(server, range, ByCurrencyCode);
    if flows.Err? {
      return Err(flows.error);
    }
    var opening := GetOpeningBalanceByCurrency(server, range);
    if opening.Err? {
      return Err(opening.error);
    }
    var overview := BuildOverviews(fetchedSummary, initial.value, flows.value, opening.value);
    r := Ok(overview);
  }

  /** The currency loop of `getFullOverview`; the cash-flow map is a hash
      map, so the currencies are visited in no particular order. */
  method BuildOverviews(summary: map<string, BasicSummaryDto>, initialAssets: map<string, int>,
                        cashFlows: map<string, int>, openingBalances: map<string, int>)
    returns (generalOverview: map<string, GeneralOverview>)
    ensures generalOverview == Overviews(summary, initialAssets, cashFlows, openingBalances)
  {
    generalOverview := map[];
    var pending := cashFlows.Keys;
    while pending != {}
      invariant pending <= cashFlows.Keys
      invariant generalOverview.Keys == cashFlows.Keys - pending
      invariant forall c :: c in generalOverview ==>
                  generalOverview[c] == OverviewFor(c, summary, initialAssets, cashFlows, openingBalances)
      decreases |pending|
    {
      var currencyCode :| currencyCode in pending;
      generalOverview := generalOverview[currencyCode :=
        OverviewFor(currencyCode, summary, initialAssets, cashFlows, openingBalances)];
      pending := pending - {currencyCode};
    }
  }

  /** The overview has exactly the currencies with a cash flow. For each:
      ending = initial + flow + opening, net flow = income + expense,
      absent earned or spent figures count as zero, and the report's
      identity initial + income + expense + opening == ending holds exactly
      when the server's earned plus spent equals the computed flow. */
  lemma OverviewReconciles(summary: map<string, BasicSummaryDto>, initialAssets: map<string, int>,
                           cashFlows: map<string, int>, openingBalances: map<string, int>, c: string)
    ensures var o := Overviews(summary, initialAssets, cashFlows, openingBalances);
            (c in o <==> c in cashFlows)
            && (c in o ==>
                  o[c].initialBalance == GetOrZero(initialAssets, c)
                  && o[c].endingBalance == o[c].initialBalance + cashFlows[c] + GetOrZero(openingBalances, c)
                  && o[c].openingBalance == GetOrZero(openingBalances, c)
                  && o[c].netFlow == o[c].income + o[c].expense
                  && o[c].income == SummaryValue(summary, "earned-in-" + c)
                  && o[c].expense == SummaryValue(summary, "spent-in-" + c)
                  && (o[c].initialBalance + o[c].income + o[c].expense + o[c].openingBalance == o[c].endingBalance
                      <==> o[c].income + o[c].expense == cashFlows[c]))
  {
  }
}
