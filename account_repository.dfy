/** Asset accounts: the paginated account listing, the mapping of its
    records to report accounts, and whether some account was already
    open during the report period. */
module AccountRepository {
  import opened Common
  import opened Dates
  import opened Dto
  import opened Model
  import opened Ktor
  import opened Pagination

  /** The records of one page of `GET /accounts?type=&date=&page=`. */
  function AccountPageData(server: Server, date: Date, accountType: string): int -> Result<seq<AccountDto>> {
    k => match SafeRequest(server.accounts(date, accountType, k))
         case Err(e) => Err(e)
         case Ok(p) => Ok(p.data)
  }

  /** The page count the first page announces; 1 when it has no
      `meta.pagination`. */
  function TotalPages(first: AccountPage): (n: int)
    ensures first.totalPages.None? ==> n == 1
    ensures first.totalPages.Some? ==> n == first.totalPages.value
  {
    first.totalPages.GetOr(1)
  }

  function Max1(n: int): int { if n < 1 then 1 else n }

  /** What `fetchAccounts` returns: page 1, then pages 2 up to the page
      count page 1 announced. */
  function FetchedAccounts(server: Server, date: Date, accountType: string): Result<seq<AccountDto>> {
    match SafeRequest(server.accounts(date, accountType, 1))
    case Err(e) => Err(e)
    case Ok(first) =>
      match Drain(AccountPageData(server, date, accountType), 2, TotalPages(first))
      case Err(e) => Err(e)
      case Ok(rest) => Ok(first.data + rest)
  }

  /** The listing is exactly pages `1..max(1, totalPages)` drained in order:
      each asked for once, ascending, and their records concatenated. */
  lemma FetchedAccountsDrainsAllPages(server: Server, date: Date, accountType: string)
    requires SafeRequest(server.accounts(date, accountType, 1)).Ok?
    ensures var n := TotalPages(SafeRequest(server.accounts(date, accountType, 1)).value);
            FetchedAccounts(server, date, accountType) == Drain(AccountPageData(server, date, accountType), 1, Max1(n))
  {
    var get := AccountPageData(server, date, accountType);
    var n := TotalPages(SafeRequest(server.accounts(date, accountType, 1)).value);
    DrainFront(get, 1, Max1(n));
  }

  /** `fetchAccounts`. `requested` lists the pages asked for, in order. */
  method FetchAccounts(server: Server, date: Date, accountType: string)
    returns (r: Result<seq<AccountDto>>, requested: seq<int>)
    ensures r == FetchedAccounts(server, date, accountType)
    ensures |requested| >= 1 && requested == Range(1, |requested|)
    ensures r.Ok? ==> |requested| == Max1(TotalPages(SafeRequest(server.accounts(date, accountType, 1)).value))
  {
    var get := AccountPageData(server, date, accountType);
    var currentPage := 1;
    requested := [1];
    var response := SafeRequest(server.accounts(date, accountType, currentPage));
    if response.Err? {
      return Err(response.error), requested;
    }
    var totalPages := TotalPages(response.value);
    var accounts := response.value.data;
    ghost var rest: seq<AccountDto> := [];
    while currentPage < totalPages
      invariant 1 <= currentPage && (currentPage <= totalPages || currentPage == 1)
      invariant requested == Range(1, currentPage)
      invariant Drain(get, 2, currentPage) == Ok(rest)
      invariant accounts == response.value.data + rest
      decreases totalPages - currentPage
    {
      currentPage := currentPage + 1;
      requested := requested + [currentPage];
      var page := SafeRequest(server.accounts(date, accountType, currentPage));
      assert get(currentPage) == if page.Err? then Err(page.error) else Ok(page.value.data);
      if page.Err? {
        DrainOkIff(get, 2, currentPage - 1);
        DrainFirstError(get, 2, totalPages, currentPage);
        return Err(page.error), requested;
      }
      accounts := accounts + page.value.data;
      rest := rest + page.value.data;
    }
    r := Ok(accounts);
  }

  /** One report account from one account record: identity, name, type,
      current balance and its date, account number and IBAN copied; absent
      currency, symbol and decimal places become "", "" and 2; an absent
      opening balance becomes zero; the initial balance starts at
      zero with no date. */
  function ToAccount(d: AccountDto): (a: Account)
    ensures a.id == d.id && a.name == d.attributes.name && a.accountType == d.attributes.accountType
    ensures a.currencyCode == d.attributes.currencyCode.GetOr("")
    ensures a.currencySymbol == d.attributes.currencySymbol.GetOr("")
    ensures a.currencyDecimalPlaces == d.attributes.currencyDecimalPlaces.GetOr(2)
    ensures a.currentBalance == d.attributes.currentBalance
    ensures a.currentBalanceDate == Some(d.attributes.currentBalanceDate)
    ensures a.accountNumber == d.attributes.accountNumber && a.iban == d.attributes.iban
    ensures a.openingBalance == d.attributes.openingBalance.GetOr(0)
    ensures a.openingBalanceDate == d.attributes.openingBalanceDate
    ensures a.initialBalance == 0 && a.initialBalanceDate.None?
  {
    var attr := d.attributes;
    Account(d.id, attr.name, attr.accountType,
            attr.currencyCode.GetOr(""), attr.currencySymbol.GetOr(""), attr.currencyDecimalPlaces.GetOr(2),
            attr.currentBalance, Some(attr.currentBalanceDate), attr.accountNumber, attr.iban,
            attr.openingBalance.GetOr(0), attr.openingBalanceDate, 0, None)
  }

  function AccountsOfRecords(ds: seq<AccountDto>): (r: seq<Account>)
    ensures |r| == |ds| && forall i :: 0 <= i < |ds| ==> r[i] == ToAccount(ds[i])
  {
    if ds == [] then [] else AccountsOfRecords(ds[..|ds| - 1]) + [ToAccount(ds[|ds| - 1])]
  }

  /** The asset accounts that `getAssetAccounts` returns. */
  function AssetAccounts(server: Server, range: DateRangeBoundaries): Result<seq<Account>> {
    match FetchedAccounts(server, range.endDate, "asset")
    case Err(e) => Err(e)
    case Ok(ds) => Ok(AccountsOfRecords(ds))
  }

  /** `getAssetAccounts`: the asset accounts as of the end of the range, one
      report account per record, in listing order. */
  method GetAssetAccounts(server: Server, range: DateRangeBoundaries) returns (r: Result<seq<Account>>)
    ensures r == AssetAccounts(server, range)
  {
    var fetched, _ := FetchAccounts(server, range.endDate, "asset");
    if fetched.Err? {
      return Err(fetched.error);
    }
    var records := fetched.value;
    var accounts: seq<Account> := [];
    for i := 0 to |records|
      invariant accounts == AccountsOfRecords(records[..i])
    {
      assert records[..i + 1][..i] == records[..i];
      assert AccountsOfRecords(records[..i + 1]) == AccountsOfRecords(records[..i]) + [ToAccount(records[i])];
      accounts := accounts + [ToAccount(records[i])];
    }
    assert records[..|records|] == records;
    r := Ok(accounts);
  }

  /** The account's opening date is known and strictly before `d`. */
  predicate OpenedBefore(a: Account, d: Date) {
    a.openingBalanceDate.Some? && Before(a.openingBalanceDate.value, d)
  }

  /** Some account opened before the range starts or before it ends. */
  predicate AnyActive(range: DateRangeBoundaries, accounts: seq<Account>) {
    exists i :: 0 <= i < |accounts| &&
      (OpenedBefore(accounts[i], range.startDate) || OpenedBefore(accounts[i], range.endDate))
  }

  /** `hasActiveAccountInRange`: a scan that stops at the first account
      that qualifies. */
  method HasActiveAccountInRange(range: DateRangeBoundaries, accounts: seq<Account>) returns (result: bool)
    ensures result <==> AnyActive(range, accounts)
  {
    result := false;
    var i := 0;
    while i < |accounts|
      invariant 0 <= i <= |accounts|
      invariant forall j :: 0 <= j < i ==>
                  !OpenedBefore(accounts[j], range.startDate) && !OpenedBefore(accounts[j], range.endDate)
      decreases |accounts| - i
    {
      var a := accounts[i];
      if a.openingBalanceDate.Some? {
        var openingDate := a.openingBalanceDate.value;
        if Before(openingDate, range.startDate) || Before(openingDate, range.endDate) {
          result := true;
          break;
        }
      }
      i := i + 1;
    }
  }

  /** For a range whose start precedes its end, the test reduces to "some
      account opened before the end". */
  lemma ActiveMeansOpenedBeforeEnd(range: DateRangeBoundaries, accounts: seq<Account>)
    requires Before(range.startDate, range.endDate)
    ensures AnyActive(range, accounts) <==>
            exists i :: 0 <= i < |accounts| && OpenedBefore(accounts[i], range.endDate)
  {
    if AnyActive(range, accounts) {
      var i :| 0 <= i < |accounts| &&
        (OpenedBefore(accounts[i], range.startDate) || OpenedBefore(accounts[i], range.endDate));
      assert OpenedBefore(accounts[i], range.endDate);
    }
  }
}
