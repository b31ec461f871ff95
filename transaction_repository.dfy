/** Transactions and the journal reconciler. `FetchTransactions` drains the
    paginated listing and sorts it by the date text of each transaction's
    first journal; `GetTransactionJournals` walks the journals once, keeping
    per-account running balances and moving each journal's attachments out
    of its transaction's pool; `GetTransactionJournalsWithRunningTotal` is the
    older variant with a single running total. */
module TransactionRepository {
  import opened Common
  import opened Dates
  import opened Text
  import opened Sorting
  import opened Dto
  import opened Model
  import opened Ktor
  import opened Pagination
  import opened AttachmentRepository

  // ---------------------------------------------------------------- fetching

  /** The records of one page of `GET /transactions?start=&end=&page=&type=all`. */
  function TransactionPageData(server: Server, range: DateRangeBoundaries): int -> Result<seq<TransactionDto>> {
    k => match SafeRequest(server.transactions(range.startDate, range.endDate, k))
         case Err(e) => Err(e)
         case Ok(p) => Ok(p.data)
  }

  /** The listing as fetched: page 1, then pages 2 up to one past the page
      count of the first answer. */
  function FetchedPages(server: Server, range: DateRangeBoundaries): Result<seq<TransactionDto>> {
    match SafeRequest(server.transactions(range.startDate, range.endDate, 1))
    case Err(e) => Err(e)
    case Ok(first) =>
      match Drain(TransactionPageData(server, range), 2, first.totalPages + 1)
      case Err(e) => Err(e)
      case Ok(rest) => Ok(first.data + rest)
  }

  /** The character codes of a string: `String.compareTo` orders strings as
      `LexLt` orders these. */
  function Codes(s: string): (r: seq<int>)
    ensures |r| == |s| && forall i :: 0 <= i < |s| ==> r[i] == s[i] as int
  {
    if s == [] then [] else Codes(s[..|s| - 1]) + [s[|s| - 1] as int]
  }

  /** The sort key of a transaction: the date text of its first journal. */
  function FirstJournalDate(t: TransactionDto): seq<int> {
    if t.journals == [] then [] else Codes(t.journals[0].date)
  }

  predicate HasNoJournals(t: TransactionDto) { t.journals == [] }

  /** `sortBy { it.attributes.transactions.first().date }`: a list of at most
      one element is left alone; a longer one fails when some transaction
      has no journal, and is otherwise sorted by that date text. */
  function SortedByFirstJournalDate(txs: seq<TransactionDto>): Result<seq<TransactionDto>> {
    if |txs| <= 1 then Ok(txs)
    else if exists i :: 0 <= i < |txs| && HasNoJournals(txs[i]) then Err(NoSuchElement)
    else Ok(SortByKey(txs, FirstJournalDate))
  }

  /** The sort fails exactly when there are two or more transactions and one
      of them has no journal; otherwise its result is ordered by first-journal
      date, is a permutation of the input, and keeps transactions with equal
      dates in their listing order. */
  lemma SortedByFirstJournalDateCorrect(txs: seq<TransactionDto>)
    ensures var r := SortedByFirstJournalDate(txs);
            (r.Err? <==> |txs| > 1 && exists i :: 0 <= i < |txs| && HasNoJournals(txs[i]))
            && (r.Err? ==> r.error == NoSuchElement)
            && (r.Ok? ==> SortedBy(r.value, FirstJournalDate) && multiset(r.value) == multiset(txs)
                          && forall k :: WithKey(r.value, FirstJournalDate, k) == WithKey(txs, FirstJournalDate, k))
  {
    var sorted := SortByKey(txs, FirstJournalDate);
    SortByKeyCorrect(txs, FirstJournalDate);
    if |txs| <= 1 {
      assert sorted == txs by {
        if |txs| == 1 { assert txs[..0] == []; }
      }
      assert SortedByFirstJournalDate(txs) == Ok(sorted);
    } else if exists i :: 0 <= i < |txs| && HasNoJournals(txs[i]) {
      assert SortedByFirstJournalDate(txs) == Err(NoSuchElement);
    } else {
      assert SortedByFirstJournalDate(txs) == Ok(sorted);
    }
  }

  /** What `fetchTransactions` returns. */
  function FetchedTransactions(server: Server, range: DateRangeBoundaries): Result<seq<TransactionDto>> {
    match FetchedPages(server, range)
    case Err(e) => Err(e)
    case Ok(txs) => SortedByFirstJournalDate(txs)
  }

  /** The listing drains pages `1..totalPages + 1`: one request more than
      the page count the server announced. */
  lemma FetchedPagesAskOneTooMany(server: Server, range: DateRangeBoundaries)
    requires SafeRequest(server.transactions(range.startDate, range.endDate, 1)).Ok?
    requires SafeRequest(server.transactions(range.startDate, range.endDate, 1)).value.totalPages >= 1
    ensures var n := SafeRequest(server.transactions(range.startDate, range.endDate, 1)).value.totalPages;
            FetchedPages(server, range) == Drain(TransactionPageData(server, range), 1, n + 1)
  {
    var n := SafeRequest(server.transactions(range.startDate, range.endDate, 1)).value.totalPages;
    DrainFront(TransactionPageData(server, range), 1, n + 1);
  }

  /** `fetchTransactions`. `requested` lists the pages asked for, in order. */
  method FetchTransactions(server: Server, range: DateRangeBoundaries)
    returns (r: Result<seq<TransactionDto>>, requested: seq<int>)
    ensures r == FetchedTransactions(server, range)
    ensures |requested| >= 1 && requested == Range(1, |requested|)
    ensures FetchedPages(server, range).Ok? ==>
              var n := SafeRequest(server.transactions(range.startDate, range.endDate, 1)).value.totalPages;
              |requested| == if n < 0 then 1 else n + 1
  {
    var get := TransactionPageData(server, range);
    var currentPage := 1;
    requested := [1];
    var response := SafeRequest(server.transactions(range.startDate, range.endDate, currentPage));
    if response.Err? {
      return Err(response.error), requested;
    }
    var totalPages := response.value.totalPages;
    var transactions := response.value.data;
    ghost var rest: seq<TransactionDto> := [];
    while currentPage <= totalPages
      invariant 1 <= currentPage && (currentPage <= totalPages + 1 || currentPage == 1)
      invariant requested == Range(1, currentPage)
      invariant Drain(get, 2, currentPage) == Ok(rest)
      invariant transactions == response.value.data + rest
      decreases totalPages - currentPage
    {
      currentPage := currentPage + 1;
      requested := requested + [currentPage];
      var page := SafeRequest(server.transactions(range.startDate, range.endDate, currentPage));
      assert get(currentPage) == if page.Err? then Err(page.error) else Ok(page.value.data);
      if page.Err? {
        DrainOkIff(get, 2, currentPage - 1);
        DrainFirstError(get, 2, totalPages + 1, currentPage);
        return Err(page.error), requested;
      }
      transactions := transactions + page.value.data;
      rest := rest + page.value.data;
    }
    assert FetchedPages(server, range) == Ok(transactions);
    if |transactions| > 1 {
      var i := 0;
      while i < |transactions|
        invariant 0 <= i <= |transactions|
        invariant forall k :: 0 <= k < i ==> !HasNoJournals(transactions[k])
        decreases |transactions| - i
      {
        if transactions[i].journals == [] {
          return Err(NoSuchElement), requested;
        }
        i := i + 1;
      }
      transactions := SortByKey(transactions, FirstJournalDate);
    }
    r := Ok(transactions);
  }

  // --------------------------------------------------------- attachment pool

  /** An attachment placed under the journal whose element id is `parent`. */
  function Place(a: Attachment, parent: string, description: string): (p: Attachment)
    ensures p.elementId == Some(parent + "-" + a.id)
    ensures p.parentId == Some(parent) && p.parentDescription == description
    ensures p.id == a.id && p.attachableId == a.attachableId && p.filename == a.filename
  {
    a.(elementId := Some(parent + "-" + a.id), parentId := Some(parent), parentDescription := description)
  }

  /** The pool's attachments that belong to `journalId`, in pool order. */
  function Matching(pool: seq<Attachment>, journalId: string): (r: seq<Attachment>)
    ensures forall a :: a in r ==> a in pool && a.attachableId == journalId
  {
    if pool == [] then []
    else
      var last := pool[|pool| - 1];
      Matching(pool[..|pool| - 1], journalId) + (if last.attachableId == journalId then [last] else [])
  }

  /** The attachments that leave the pool for the journal: those that name
      it, in pool order, each placed under it. */
  function Moved(pool: seq<Attachment>, journalId: string, parent: string, description: string): seq<Attachment> {
    if pool == [] then []
    else
      var last := pool[|pool| - 1];
      Moved(pool[..|pool| - 1], journalId, parent, description)
        + (if last.attachableId == journalId then [Place(last, parent, description)] else [])
  }

  /** The attachments that stay in the pool. */
  function Kept(pool: seq<Attachment>, journalId: string): seq<Attachment> {
    if pool == [] then []
    else
      var last := pool[|pool| - 1];
      Kept(pool[..|pool| - 1], journalId) + (if last.attachableId != journalId then [last] else [])
  }

  /** The moved attachments are the pool's attachments of the journal, in
      pool order, each placed under it. */
  lemma {:induction false} MovedPlacesMatching(pool: seq<Attachment>, journalId: string, parent: string, description: string)
    ensures |Moved(pool, journalId, parent, description)| == |Matching(pool, journalId)|
    ensures forall i :: 0 <= i < |Matching(pool, journalId)| ==>
              Moved(pool, journalId, parent, description)[i] == Place(Matching(pool, journalId)[i], parent, description)
  {
    if pool != [] {
      MovedPlacesMatching(pool[..|pool| - 1], journalId, parent, description);
    }
  }

  /** The kept attachments are exactly those naming another journal, and
      together with the moved ones they account for the whole pool. */
  lemma {:induction false} KeptIsComplement(pool: seq<Attachment>, journalId: string)
    ensures |Kept(pool, journalId)| + |Matching(pool, journalId)| == |pool|
    ensures forall a :: a in Kept(pool, journalId) <==> a in pool && a.attachableId != journalId
  {
    if pool != [] {
      var init, last := pool[..|pool| - 1], pool[|pool| - 1];
      KeptIsComplement(init, journalId);
      assert pool == init + [last];
    }
  }

  function FirstElementId(moved: seq<Attachment>): Option<string> {
    if moved == [] then None else moved[0].elementId
  }

  /** A placed attachment's element id is never blank: it contains a `-`. */
  lemma PlacedIdNotBlank(a: Attachment, parent: string, description: string)
    ensures !IsBlank(Place(a, parent, description).elementId.value)
  {
    var e := Place(a, parent, description).elementId.value;
    assert e[|parent|] == '-';
  }

  /** The pool walk of one journal: matching attachments are placed and
      taken out in order, the others stay; `first` is the element id of the
      first one taken. */
  method TakeAttachments(pool: seq<Attachment>, journalId: string, parent: string, description: string)
    returns (moved: seq<Attachment>, kept: seq<Attachment>, first: Option<string>)
    ensures moved == Moved(pool, journalId, parent, description)
    ensures kept == Kept(pool, journalId)
    ensures first == FirstElementId(moved)
  {
    moved, kept, first := [], [], None;
    var i := 0;
    while i < |pool|
      invariant 0 <= i <= |pool|
      invariant moved == Moved(pool[..i], journalId, parent, description)
      invariant kept == Kept(pool[..i], journalId)
      invariant moved == [] ==> first.None?
      invariant moved != [] ==> first == moved[0].elementId && first.Some? && !IsBlank(first.value)
      decreases |pool| - i
    {
      var attachment := pool[i];
      assert pool[..i + 1][..i] == pool[..i];
      if attachment.attachableId == journalId {
        var placed := Place(attachment, parent, description);
        if first.None? || IsBlank(first.value) {
          PlacedIdNotBlank(attachment, parent, description);
          first := placed.elementId;
        }
        moved := moved + [placed];
      } else {
        kept := kept + [attachment];
      }
      i := i + 1;
    }
    assert pool[..|pool|] == pool;
  }

  // ---------------------------------------------------------------- journals

  /** The element id of a journal: `"<epochSeconds>-<journalId>"`. */
  function ElementIdOf(epochSeconds: int, journalId: string): string {
    IntToString(epochSeconds) + "-" + journalId
  }

  /** Element ids of journals with the same time stamp differ when their
      journal ids differ. */
  lemma ElementIdsDistinct(epochSeconds: int, a: string, b: string)
    requires a != b
    ensures ElementIdOf(epochSeconds, a) != ElementIdOf(epochSeconds, b)
  {
    var p := IntToString(epochSeconds) + "-";
    assert ElementIdOf(epochSeconds, a)[|p|..] == a;
    assert ElementIdOf(epochSeconds, b)[|p|..] == b;
  }

  /** A leg whose foreign currency differs from its own currency. */
  predicate ForeignLeg(j: TransactionJournalDto) {
    j.foreignCurrencyCode.Some? && j.currencyCode != j.foreignCurrencyCode.value
  }

  function ToJournal(j: TransactionJournalDto, amount: int, attachments: seq<Attachment>,
                     balanceLeft: Option<int>, sourceLeft: Option<int>, destinationLeft: Option<int>,
                     elementId: string, first: Option<string>): TransactionJournal
  {
    TransactionJournal(j.journalId, j.journalType, j.epochSeconds, j.localDate, j.order,
                       j.currencyCode, j.currencySymbol, j.currencyDecimalPlaces, amount, j.description,
                       j.sourceId, j.sourceName, j.sourceType, j.destinationId, j.destinationName, j.destinationType,
                       j.budgetId, j.budgetName, j.categoryId, j.categoryName, j.billId, j.billName,
                       j.tags, j.hasAttachments, attachments, balanceLeft, sourceLeft, destinationLeft,
                       Some(elementId), first)
  }

  /** The reconciler's state between journals: running balances by account
      id, the journal ids recorded so far, and the journals emitted. */
  datatype Ledger = Ledger(balances: map<string, int>, seen: seq<int>, journals: seq<TransactionJournal>)

  /** Balances after moving `amount` from `source` to `destination`. */
  function Transfer(balances: map<string, int>, source: string, destination: string, amount: int): map<string, int> {
    AddTo(AddTo(balances, source, -amount), destination, amount)
  }

  /** A transfer lowers the source by the amount, raises the destination by
      it (a self-transfer changes nothing), leaves every other account as it
      was, and keeps the total over any duplicate-free list of accounts that
      names both ends. */
  lemma TransferMovesAmount(balances: map<string, int>, source: string, destination: string, amount: int, ks: seq<string>)
    requires Distinct(ks) && source in ks && destination in ks
    ensures var b := Transfer(balances, source, destination, amount);
            b.Keys == balances.Keys + {source, destination}
            && (source != destination ==>
                  b[source] == GetOrZero(balances, source) - amount
                  && b[destination] == GetOrZero(balances, destination) + amount)
            && (source == destination ==> b[source] == GetOrZero(balances, source))
            && (forall k :: k in balances && k != source && k != destination ==> b[k] == balances[k])
            && SumOver(b, ks) == SumOver(balances, ks)
  {
    SumOverAddTo(balances, ks, source, -amount);
    SumOverAddTo(AddTo(balances, source, -amount), ks, destination, amount);
  }

  /** One journal of the per-account reconciler. `dedupe` selects between
      the loop as written (`false`: the id list never rejects a repeat, so
      nothing is skipped) and the intended one (`true`: a repeated id is
      skipped). */
  function JournalStep(dedupe: bool, st: Ledger, pool: seq<Attachment>, j: TransactionJournalDto)
    : Result<(Ledger, seq<Attachment>)>
  {
    match ParseInt(j.journalId)
    case None => Err(NumberFormat)
    case Some(id) =>
      if dedupe && id in st.seen then Ok((st, pool))
      else if ForeignLeg(j) then Err(MultipleCurrency)
      else
        var balances := Transfer(st.balances, j.sourceId, j.destinationId, j.amount);
        var eid := ElementIdOf(j.epochSeconds, j.journalId);
        var moved := Moved(pool, j.journalId, eid, j.description);
        var record := ToJournal(j, j.amount, moved, None, Some(balances[j.sourceId]),
                                Some(balances[j.destinationId]), eid, FirstElementId(moved));
        Ok((Ledger(balances, st.seen + [id], st.journals + [record]), Kept(pool, j.journalId)))
  }

  function StepOf(dedupe: bool): (Ledger, seq<Attachment>, TransactionJournalDto) -> Result<(Ledger, seq<Attachment>)> {
    (st, pool, j) => JournalStep(dedupe, st, pool, j)
  }

  /** The journals of one transaction, in order, threading the state and the
      transaction's attachment pool. */
  function RunJournals<S>(step: (S, seq<Attachment>, TransactionJournalDto) -> Result<(S, seq<Attachment>)>,
                          st: S, pool: seq<Attachment>, js: seq<TransactionJournalDto>): Result<S>
    decreases |js|
  {
    if js == [] then Ok(st)
    else
      match step(st, pool, js[0])
      case Err(e) => Err(e)
      case Ok(next) => RunJournals(step, next.0, next.1, js[1..])
  }

  /** The transactions in order; each one's attachments are fetched before
      its journals are walked. */
  function RunTransactions<S>(server: Server, step: (S, seq<Attachment>, TransactionJournalDto) -> Result<(S, seq<Attachment>)>,
                              st: S, txs: seq<TransactionDto>): Result<S>
    decreases |txs|
  {
    if txs == [] then Ok(st)
    else
      match TransactionAttachments(server, txs[0].id)
      case Err(e) => Err(e)
      case Ok(pool) =>
        match RunJournals(step, st, pool, txs[0].journals)
        case Err(e) => Err(e)
        case Ok(next) => RunTransactions(server, step, next, txs[1..])
  }

  /** What the per-account `getTransactionJournals` returns. */
  function ReconciledJournals(server: Server, dedupe: bool, range: DateRangeBoundaries, initialBalances: map<string, int>)
    : Result<seq<TransactionJournal>>
  {
    match FetchedTransactions(server, range)
    case Err(e) => Err(e)
    case Ok(txs) =>
      match RunTransactions(server, StepOf(dedupe), Ledger(initialBalances, [], []), txs)
      case Err(e) => Err(e)
      case Ok(st) => Ok(st.journals)
  }

  /** One journal of the per-account walk. With `dedupe` false this is the
      loop as written, where `journalIds` is a list and its `add` always
      succeeds; with `dedupe` true the ids reject a repeat, which is then
      skipped. */
  method ReconcileJournal(dedupe: bool, st: Ledger, attachments: seq<Attachment>, journal: TransactionJournalDto)
    returns (r: Result<(Ledger, seq<Attachment>)>)
    ensures r == JournalStep(dedupe, st, attachments, journal)
  {
    var parsed := ParseInt(journal.journalId);
    if parsed.None? {
      return Err(NumberFormat);
    }
    var id := parsed.value;
    var added := !dedupe || id !in st.seen;
    if !added {
      return Ok((st, attachments));
    }
    var journalIds := st.seen + [id];
    if journal.foreignCurrencyCode.Some? && journal.currencyCode != journal.foreignCurrencyCode.value {
      return Err(MultipleCurrency);
    }
    var currentBalances := AddTo(st.balances, journal.sourceId, -journal.amount);
    currentBalances := AddTo(currentBalances, journal.destinationId, journal.amount);
    var journalElementId := ElementIdOf(journal.epochSeconds, journal.journalId);
    var moved, kept, first := TakeAttachments(attachments, journal.journalId, journalElementId, journal.description);
    assert currentBalances == Transfer(st.balances, journal.sourceId, journal.destinationId, journal.amount);
    var record := ToJournal(journal, journal.amount, moved, None, Some(currentBalances[journal.sourceId]),
                            Some(currentBalances[journal.destinationId]), journalElementId, first);
    r := Ok((Ledger(currentBalances, journalIds, st.journals + [record]), kept));
    assert ParseInt(journal.journalId) == Some(id) && added && !ForeignLeg(journal);
  }

  /** The journals of one transaction against its attachment pool. */
  method ReconcileTransaction(dedupe: bool, st: Ledger, pool: seq<Attachment>, js: seq<TransactionJournalDto>)
    returns (r: Result<Ledger>)
    ensures r == RunJournals(StepOf(dedupe), st, pool, js)
  {
    var current, attachments := st, pool;
    var k := 0;
    while k < |js|
      invariant 0 <= k <= |js|
      invariant RunJournals(StepOf(dedupe), st, pool, js) == RunJournals(StepOf(dedupe), current, attachments, js[k..])
      decreases |js| - k
    {
      assert js[k..][0] == js[k] && js[k..][1..] == js[k + 1..];
      var next := ReconcileJournal(dedupe, current, attachments, js[k]);
      if next.Err? {
        return Err(next.error);
      }
      current, attachments := next.value.0, next.value.1;
      k := k + 1;
    }
    r := Ok(current);
  }

  /** `getTransactionJournals(dateRange, initialBalances)`: as written when
      `dedupe` is false, with a repeated journal id skipped when it is true.
      The caller's map is a value here, so it cannot be changed by the walk. */
  method GetTransactionJournals(server: Server, dedupe: bool, range: DateRangeBoundaries,
                                initialBalances: map<string, int>)
    returns (r: Result<seq<TransactionJournal>>)
    ensures r == ReconciledJournals(server, dedupe, range, initialBalances)
  {
    var fetched, _ := FetchTransactions(server, range);
    if fetched.Err? {
      return Err(fetched.error);
    }
    var txs := fetched.value;
    var start := Ledger(initialBalances, [], []);
    var current := start;
    var t := 0;
    while t < |txs|
      invariant 0 <= t <= |txs|
      invariant RunTransactions(server, StepOf(dedupe), start, txs) == RunTransactions(server, StepOf(dedupe), current, txs[t..])
      decreases |txs| - t
    {
      assert txs[t..][0] == txs[t] && txs[t..][1..] == txs[t + 1..];
      var pool := GetAttachmentsByTransactionId(server, txs[t].id);
      if pool.Err? {
        return Err(pool.error);
      }
      var next := ReconcileTransaction(dedupe, current, pool.value, txs[t].journals);
      if next.Err? {
        return Err(next.error);
      }
      current := next.value;
      t := t + 1;
    }
    r := Ok(current.journals);
  }

  // ------------------------------------------------- properties of the walk

  /** With repeats skipped, a journal whose id was already recorded changes
      nothing: no record, no balance change, no attachment taken. */
  lemma RepeatedIdIsSkipped(st: Ledger, pool: seq<Attachment>, j: TransactionJournalDto)
    requires ParseInt(j.journalId).Some? && ParseInt(j.journalId).value in st.seen
    ensures JournalStep(true, st, pool, j) == Ok((st, pool))
  {
  }

  /** A leg that is not skipped fails exactly when its foreign currency
      differs from its currency, and then with MultipleCurrency. */
  lemma MultipleCurrencyIff(dedupe: bool, st: Ledger, pool: seq<Attachment>, j: TransactionJournalDto)
    requires ParseInt(j.journalId).Some?
    requires !dedupe || ParseInt(j.journalId).value !in st.seen
    ensures JournalStep(dedupe, st, pool, j).Err? <==> ForeignLeg(j)
    ensures JournalStep(dedupe, st, pool, j).Err? ==> JournalStep(dedupe, st, pool, j).error == MultipleCurrency
  {
  }

  /** A journal id that is not a 32-bit decimal number aborts the walk. */
  lemma NonNumericIdFails(dedupe: bool, st: Ledger, pool: seq<Attachment>, j: TransactionJournalDto)
    requires ParseInt(j.journalId).None?
    ensures JournalStep(dedupe, st, pool, j) == Err(NumberFormat)
  {
  }

  /** A recorded journal: its element id, its attachments (those of the pool
      that name it, in pool order, placed under it) and the first of their
      element ids; the attachments that stay in the pool are the others. */
  lemma RecordedJournalIdsAndAttachments(dedupe: bool, st: Ledger, pool: seq<Attachment>, j: TransactionJournalDto)
    requires JournalStep(dedupe, st, pool, j).Ok?
    requires |JournalStep(dedupe, st, pool, j).value.0.journals| > |st.journals|
    ensures var (next, rest) := JournalStep(dedupe, st, pool, j).value;
            var eid := ElementIdOf(j.epochSeconds, j.journalId);
            var rec := next.journals[|next.journals| - 1];
            var mine := Matching(pool, j.journalId);
            next.journals == st.journals + [rec]
            && rec.journalId == j.journalId && rec.amount == j.amount
            && rec.elementId == Some(eid)
            && |rec.attachments| == |mine| && |rec.attachments| + |rest| == |pool|
            && (forall i :: 0 <= i < |mine| ==>
                  rec.attachments[i].id == mine[i].id
                  && rec.attachments[i].elementId == Some(eid + "-" + mine[i].id)
                  && rec.attachments[i].parentId == Some(eid)
                  && rec.attachments[i].parentDescription == j.description)
            && (forall a :: a in rest <==> a in pool && a.attachableId != j.journalId)
            && (rec.attachments == [] ==> rec.firstAttachmentElementId.None?)
            && (rec.attachments != [] ==> rec.firstAttachmentElementId == rec.attachments[0].elementId)
  {
    var eid := ElementIdOf(j.epochSeconds, j.journalId);
    MovedPlacesMatching(pool, j.journalId, eid, j.description);
    KeptIsComplement(pool, j.journalId);
  }

  /** The balances a list of emitted journals leads to from `initial`,
      replaying each as a transfer from its source to its destination. */
  function Replay(initial: map<string, int>, js: seq<TransactionJournal>): map<string, int> {
    if js == [] then initial
    else
      var last := js[|js| - 1];
      Transfer(Replay(initial, js[..|js| - 1]), last.sourceId, last.destinationId, last.amount)
  }

  /** The running balances are the replay of the emitted journals, and each
      journal's balances left are those of its source and destination right
      after it. */
  ghost predicate BalancesReplay(initial: map<string, int>, st: Ledger) {
    st.balances == Replay(initial, st.journals)
    && forall i :: 0 <= i < |st.journals| ==> LeftIsReplay(initial, st.journals, i)
  }

  /** Journal `i`'s balances left are those of its source and destination
      after replaying the journals up to and including it. */
  ghost predicate LeftIsReplay(initial: map<string, int>, js: seq<TransactionJournal>, i: int)
    requires 0 <= i < |js|
  {
    js[i].sourceBalanceLeft == Some(GetOrZero(Replay(initial, js[..i + 1]), js[i].sourceId))
    && js[i].destinationBalanceLeft == Some(GetOrZero(Replay(initial, js[..i + 1]), js[i].destinationId))
  }

  /** Whether journal `i` replays depends only on the journals up to it. */
  lemma LeftIsReplayPrefix(initial: map<string, int>, a: seq<TransactionJournal>, b: seq<TransactionJournal>, i: int)
    requires 0 <= i < |a| <= |b| && a == b[..|a|]
    requires LeftIsReplay(initial, a, i)
    ensures LeftIsReplay(initial, b, i)
  {
    assert b[..i + 1] == a[..i + 1];
    assert b[i] == a[i];
  }

  /** Appending a journal whose balances left are those right after its
      transfer keeps the balances a replay of the journals. */
  lemma AppendKeepsReplay(initial: map<string, int>, st: Ledger, rec: TransactionJournal, seen: seq<int>)
    requires BalancesReplay(initial, st)
    requires var b := Transfer(st.balances, rec.sourceId, rec.destinationId, rec.amount);
             rec.sourceBalanceLeft == Some(GetOrZero(b, rec.sourceId))
             && rec.destinationBalanceLeft == Some(GetOrZero(b, rec.destinationId))
    ensures BalancesReplay(initial, Ledger(Transfer(st.balances, rec.sourceId, rec.destinationId, rec.amount),
                                           seen, st.journals + [rec]))
  {
    var js := st.journals + [rec];
    assert js[..|js| - 1] == st.journals;
    assert Replay(initial, js) == Transfer(st.balances, rec.sourceId, rec.destinationId, rec.amount);
    forall i | 0 <= i < |js|
      ensures LeftIsReplay(initial, js, i)
    {
      if i < |st.journals| {
        LeftIsReplayPrefix(initial, st.journals, js, i);
      } else {
        assert js[..i + 1] == js && js[i] == rec;
      }
    }
  }

  lemma StepKeepsReplay(dedupe: bool, initial: map<string, int>, st: Ledger, pool: seq<Attachment>, j: TransactionJournalDto)
    requires BalancesReplay(initial, st)
    requires JournalStep(dedupe, st, pool, j).Ok?
    ensures BalancesReplay(initial, JournalStep(dedupe, st, pool, j).value.0)
  {
    var id := ParseInt(j.journalId).value;
    if !(dedupe && id in st.seen) {
      var next := JournalStep(dedupe, st, pool, j).value.0;
      var rec := next.journals[|next.journals| - 1];
      assert next == Ledger(Transfer(st.balances, rec.sourceId, rec.destinationId, rec.amount),
                            st.seen + [id], st.journals + [rec]);
      AppendKeepsReplay(initial, st, rec, st.seen + [id]);
    }
  }

  lemma {:induction false} RunJournalsKeepsReplay(dedupe: bool, initial: map<string, int>, st: Ledger,
                                                  pool: seq<Attachment>, js: seq<TransactionJournalDto>)
    requires BalancesReplay(initial, st)
    requires RunJournals(StepOf(dedupe), st, pool, js).Ok?
    ensures BalancesReplay(initial, RunJournals(StepOf(dedupe), st, pool, js).value)
    decreases |js|
  {
    if js != [] {
      StepKeepsReplay(dedupe, initial, st, pool, js[0]);
      var next := JournalStep(dedupe, st, pool, js[0]).value;
      RunJournalsKeepsReplay(dedupe, initial, next.0, next.1, js[1..]);
    }
  }

  lemma {:induction false} RunTransactionsKeepsReplay(server: Server, dedupe: bool, initial: map<string, int>,
                                                      st: Ledger, txs: seq<TransactionDto>)
    requires BalancesReplay(initial, st)
    requires RunTransactions(server, StepOf(dedupe), st, txs).Ok?
    ensures BalancesReplay(initial, RunTransactions(server, StepOf(dedupe), st, txs).value)
    decreases |txs|
  {
    if txs != [] {
      var pool := TransactionAttachments(server, txs[0].id).value;
      RunJournalsKeepsReplay(dedupe, initial, st, pool, txs[0].journals);
      var next := RunJournals(StepOf(dedupe), st, pool, txs[0].journals).value;
      RunTransactionsKeepsReplay(server, dedupe, initial, next, txs[1..]);
    }
  }

  /** Replaying the returned journals from the initial balances, one at a
      time, reproduces every journal's source and destination balance left. */
  lemma ReconciledBalancesReplay(server: Server, dedupe: bool, range: DateRangeBoundaries, initial: map<string, int>)
    requires ReconciledJournals(server, dedupe, range, initial).Ok?
    ensures var js := ReconciledJournals(server, dedupe, range, initial).value;
            forall i :: 0 <= i < |js| ==>
              js[i].sourceBalanceLeft == Some(GetOrZero(Replay(initial, js[..i + 1]), js[i].sourceId))
              && js[i].destinationBalanceLeft == Some(GetOrZero(Replay(initial, js[..i + 1]), js[i].destinationId))
  {
    var txs := FetchedTransactions(server, range).value;
    RunTransactionsKeepsReplay(server, dedupe, initial, Ledger(initial, [], []), txs);
    var js := ReconciledJournals(server, dedupe, range, initial).value;
    forall i | 0 <= i < |js|
      ensures js[i].sourceBalanceLeft == Some(GetOrZero(Replay(initial, js[..i + 1]), js[i].sourceId))
      ensures js[i].destinationBalanceLeft == Some(GetOrZero(Replay(initial, js[..i + 1]), js[i].destinationId))
    {
      assert LeftIsReplay(initial, js, i);
    }
  }

  /** Every emitted journal's id is the one recorded for it, and the
      recorded ids are pairwise different. */
  ghost predicate IdsRecorded(st: Ledger) {
    Distinct(st.seen) && |st.seen| == |st.journals|
    && forall i :: 0 <= i < |st.journals| ==> ParseInt(st.journals[i].journalId) == Some(st.seen[i])
  }

  lemma StepKeepsIdsRecorded(st: Ledger, pool: seq<Attachment>, j: TransactionJournalDto)
    requires IdsRecorded(st)
    requires JournalStep(true, st, pool, j).Ok?
    ensures IdsRecorded(JournalStep(true, st, pool, j).value.0)
  {
  }

  lemma {:induction false} RunJournalsKeepsIdsRecorded(st: Ledger, pool: seq<Attachment>, js: seq<TransactionJournalDto>)
    requires IdsRecorded(st)
    requires RunJournals(StepOf(true), st, pool, js).Ok?
    ensures IdsRecorded(RunJournals(StepOf(true), st, pool, js).value)
    decreases |js|
  {
    if js != [] {
      StepKeepsIdsRecorded(st, pool, js[0]);
      var next := JournalStep(true, st, pool, js[0]).value;
      RunJournalsKeepsIdsRecorded(next.0, next.1, js[1..]);
    }
  }

  lemma {:induction false} RunTransactionsKeepsIdsRecorded(server: Server, st: Ledger, txs: seq<TransactionDto>)
    requires IdsRecorded(st)
    requires RunTransactions(server, StepOf(true), st, txs).Ok?
    ensures IdsRecorded(RunTransactions(server, StepOf(true), st, txs).value)
    decreases |txs|
  {
    if txs != [] {
      var pool := TransactionAttachments(server, txs[0].id).value;
      RunJournalsKeepsIdsRecorded(st, pool, txs[0].journals);
      var next := RunJournals(StepOf(true), st, pool, txs[0].journals).value;
      RunTransactionsKeepsIdsRecorded(server, next, txs[1..]);
    }
  }

  /** With repeats skipped, no journal id appears twice among the returned
      journals. */
  lemma CorrectedJournalIdsDistinct(server: Server, range: DateRangeBoundaries, initial: map<string, int>)
    requires ReconciledJournals(server, true, range, initial).Ok?
    ensures var js := ReconciledJournals(server, true, range, initial).value;
            forall i, k :: 0 <= i < k < |js| ==> js[i].journalId != js[k].journalId
  {
    var txs := FetchedTransactions(server, range).value;
    RunTransactionsKeepsIdsRecorded(server, Ledger(initial, [], []), txs);
  }

  /** As written, a journal listed twice is emitted twice and its amount is
      moved twice; with repeats skipped it is emitted once. */
  lemma AsWrittenKeepsRepeatedJournal(st: Ledger, pool: seq<Attachment>, j: TransactionJournalDto)
    requires ParseInt(j.journalId).Some? && ParseInt(j.journalId).value !in st.seen
    requires !ForeignLeg(j)
    ensures RunJournals(StepOf(false), st, pool, [j, j]).Ok?
    ensures var out := RunJournals(StepOf(false), st, pool, [j, j]).value;
            |out.journals| == |st.journals| + 2
            && out.journals[|st.journals|].journalId == j.journalId
            && out.journals[|st.journals| + 1].journalId == j.journalId
            && out.balances == Transfer(Transfer(st.balances, j.sourceId, j.destinationId, j.amount),
                                        j.sourceId, j.destinationId, j.amount)
    ensures RunJournals(StepOf(true), st, pool, [j, j]).Ok?
    ensures |RunJournals(StepOf(true), st, pool, [j, j]).value.journals| == |st.journals| + 1
  {
    var s1 := JournalStep(false, st, pool, j).value;
    var s2 := JournalStep(false, s1.0, s1.1, j).value;
    assert [j, j][1..] == [j] && [j][1..] == [];
    assert RunJournals(StepOf(false), s1.0, s1.1, [j]) == Ok(s2.0);
    assert RunJournals(StepOf(false), st, pool, [j, j]) == Ok(s2.0);
    var t1 := JournalStep(true, st, pool, j).value;
    assert JournalStep(true, t1.0, t1.1, j) == Ok(t1);
    assert RunJournals(StepOf(true), t1.0, t1.1, [j]) == Ok(t1.0);
  }

  // -------------------------------------------------- single running total

  predicate IsOutflowType(t: string) { t == "withdrawal" || t == "withdrawals" || t == "expense" }

  predicate IsInflowType(t: string) { t == "deposit" || t == "deposits" || t == "income" }

  predicate IsFlowType(t: string) { IsOutflowType(t) || IsInflowType(t) }

  /** The amount the older walk records: negated for outflows. */
  function SignedAmount(j: TransactionJournalDto): (a: int)
    ensures IsOutflowType(j.journalType) ==> a == -j.amount
    ensures !IsOutflowType(j.journalType) ==> a == j.amount
  {
    if IsOutflowType(j.journalType) then -j.amount else j.amount
  }

  /** An opening balance counts toward the total when dated from the day
      after the range start up to, not including, the range end. */
  predicate InOpeningWindow(range: DateRangeBoundaries, d: Date) {
    Before(range.startDate, d) && Before(d, range.endDate)
  }

  /** "Not before the day after the start" is "after the start". */
  lemma OpeningWindowStartsAfterStart(start: Date, d: Date)
    requires Valid(start) && Valid(d)
    ensures !Before(d, NextDay(start)) <==> Before(start, d)
  {
    NextDayIsSuccessor(start);
  }

  /** What a recorded journal adds to the single running total. */
  function Contribution(range: DateRangeBoundaries, rec: TransactionJournal): int {
    if IsFlowType(rec.journalType) then rec.amount
    else if rec.journalType == "opening balance" && InOpeningWindow(range, rec.date) then rec.amount
    else 0
  }

  function Contributions(range: DateRangeBoundaries, js: seq<TransactionJournal>): int {
    if js == [] then 0 else Contributions(range, js[..|js| - 1]) + Contribution(range, js[|js| - 1])
  }

  /** The running total after a journal: flows and in-window opening
      balances add the signed amount, every other type leaves it. */
  function TotalAfter(range: DateRangeBoundaries, total: int, j: TransactionJournalDto): int {
    if IsFlowType(j.journalType) then total + SignedAmount(j)
    else if j.journalType == "opening balance" then
      (if InOpeningWindow(range, j.localDate) then total + SignedAmount(j) else total)
    else total
  }

  datatype RunningTotal = RunningTotal(total: int, seen: seq<int>, journals: seq<TransactionJournal>)

  /** One journal of the older walk: no currency check; flows and in-window
      opening balances move the total, every other type leaves it; all three
      balances left are the new total. */
  function RunningTotalStep(dedupe: bool, range: DateRangeBoundaries, st: RunningTotal, pool: seq<Attachment>,
                            j: TransactionJournalDto): Result<(RunningTotal, seq<Attachment>)>
  {
    match ParseInt(j.journalId)
    case None => Err(NumberFormat)
    case Some(id) =>
      if dedupe && id in st.seen then Ok((st, pool))
      else
        var amount := SignedAmount(j);
        var total := TotalAfter(range, st.total, j);
        var eid := ElementIdOf(j.epochSeconds, j.journalId);
        var moved := Moved(pool, j.journalId, eid, j.description);
        var record := ToJournal(j, amount, moved, Some(total), Some(total), Some(total), eid, FirstElementId(moved));
        Ok((RunningTotal(total, st.seen + [id], st.journals + [record]), Kept(pool, j.journalId)))
  }

  function RunningTotalStepOf(dedupe: bool, range: DateRangeBoundaries)
    : (RunningTotal, seq<Attachment>, TransactionJournalDto) -> Result<(RunningTotal, seq<Attachment>)>
  {
    (st, pool, j) => RunningTotalStep(dedupe, range, st, pool, j)
  }

  /** What `getTransactionJournals(dateRange, generalOverview)` returns. */
  function RunningTotalJournals(server: Server, dedupe: bool, range: DateRangeBoundaries, overview: GeneralOverview)
    : Result<seq<TransactionJournal>>
  {
    match FetchedTransactions(server, range)
    case Err(e) => Err(e)
    case Ok(txs) =>
      match RunTransactions(server, RunningTotalStepOf(dedupe, range), RunningTotal(overview.initialBalance, [], []), txs)
      case Err(e) => Err(e)
      case Ok(st) => Ok(st.journals)
  }

  /** One journal of the older walk; `dedupe` as for `ReconcileJournal`. */
  method ReconcileJournalWithRunningTotal(dedupe: bool, range: DateRangeBoundaries, st: RunningTotal,
                                          attachments: seq<Attachment>, journal: TransactionJournalDto)
    returns (r: Result<(RunningTotal, seq<Attachment>)>)
    ensures r == RunningTotalStep(dedupe, range, st, attachments, journal)
  {
    var parsed := ParseInt(journal.journalId);
    if parsed.None? {
      return Err(NumberFormat);
    }
    var id := parsed.value;
    var added := !dedupe || id !in st.seen;
    if !added {
      return Ok((st, attachments));
    }
    var amount := SignedAmount(journal);
    var currentBalance := TotalAfter(range, st.total, journal);
    var journalElementId := ElementIdOf(journal.epochSeconds, journal.journalId);
    var moved, kept, first := TakeAttachments(attachments, journal.journalId, journalElementId, journal.description);
    var record := ToJournal(journal, amount, moved, Some(currentBalance), Some(currentBalance), Some(currentBalance),
                            journalElementId, first);
    r := Ok((RunningTotal(currentBalance, st.seen + [id], st.journals + [record]), kept));
  }

  method ReconcileTransactionWithRunningTotal(dedupe: bool, range: DateRangeBoundaries, st: RunningTotal,
                                              pool: seq<Attachment>, js: seq<TransactionJournalDto>)
    returns (r: Result<RunningTotal>)
    ensures r == RunJournals(RunningTotalStepOf(dedupe, range), st, pool, js)
  {
    var current, attachments := st, pool;
    var k := 0;
    while k < |js|
      invariant 0 <= k <= |js|
      invariant RunJournals(RunningTotalStepOf(dedupe, range), st, pool, js)
             == RunJournals(RunningTotalStepOf(dedupe, range), current, attachments, js[k..])
      decreases |js| - k
    {
      assert js[k..][0] == js[k] && js[k..][1..] == js[k + 1..];
      var next := ReconcileJournalWithRunningTotal(dedupe, range, current, attachments, js[k]);
      if next.Err? {
        return Err(next.error);
      }
      current, attachments := next.value.0, next.value.1;
      k := k + 1;
    }
    r := Ok(current);
  }

  /** `getTransactionJournals(dateRange, generalOverview)`: as written when
      `dedupe` is false, with a repeated journal id skipped when it is true. */
  method GetTransactionJournalsWithRunningTotal(server: Server, dedupe: bool, range: DateRangeBoundaries,
                                                overview: GeneralOverview)
    returns (r: Result<seq<TransactionJournal>>)
    ensures r == RunningTotalJournals(server, dedupe, range, overview)
  {
    var fetched, _ := FetchTransactions(server, range);
    if fetched.Err? {
      return Err(fetched.error);
    }
    var txs := fetched.value;
    var start := RunningTotal(overview.initialBalance, [], []);
    var current := start;
    var t := 0;
    while t < |txs|
      invariant 0 <= t <= |txs|
      invariant RunTransactions(server, RunningTotalStepOf(dedupe, range), start, txs)
             == RunTransactions(server, RunningTotalStepOf(dedupe, range), current, txs[t..])
      decreases |txs| - t
    {
      assert txs[t..][0] == txs[t] && txs[t..][1..] == txs[t + 1..];
      var pool := GetAttachmentsByTransactionId(server, txs[t].id);
      if pool.Err? {
        return Err(pool.error);
      }
      var next := ReconcileTransactionWithRunningTotal(dedupe, range, current, pool.value, txs[t].journals);
      if next.Err? {
        return Err(next.error);
      }
      current := next.value;
      t := t + 1;
    }
    r := Ok(current.journals);
  }

  /** The running total is the initial balance plus the contributions of
      the emitted journals, and each journal's three balances left are the
      total right after it. */
  ghost predicate TotalReplays(range: DateRangeBoundaries, initial: int, st: RunningTotal) {
    st.total == initial + Contributions(range, st.journals)
    && forall i :: 0 <= i < |st.journals| ==> LeftIsTotal(range, initial, st.journals, i)
  }

  /** Journal `i`'s three balances left are the total after the journals
      up to and including it. */
  ghost predicate LeftIsTotal(range: DateRangeBoundaries, initial: int, js: seq<TransactionJournal>, i: int)
    requires 0 <= i < |js|
  {
    var left := Some(initial + Contributions(range, js[..i + 1]));
    js[i].balanceLeft == left && js[i].sourceBalanceLeft == left && js[i].destinationBalanceLeft == left
  }

  lemma LeftIsTotalPrefix(range: DateRangeBoundaries, initial: int, a: seq<TransactionJournal>, b: seq<TransactionJournal>, i: int)
    requires 0 <= i < |a| <= |b| && a == b[..|a|]
    requires LeftIsTotal(range, initial, a, i)
    ensures LeftIsTotal(range, initial, b, i)
  {
    assert b[..i + 1] == a[..i + 1];
    assert b[i] == a[i];
  }

  /** Appending a journal whose balances left are the total after its own
      contribution keeps the total a replay of the journals. */
  lemma AppendKeepsTotalReplay(range: DateRangeBoundaries, initial: int, st: RunningTotal, rec: TransactionJournal, seen: seq<int>)
    requires TotalReplays(range, initial, st)
    requires var left := Some(st.total + Contribution(range, rec));
             rec.balanceLeft == left && rec.sourceBalanceLeft == left && rec.destinationBalanceLeft == left
    ensures TotalReplays(range, initial, RunningTotal(st.total + Contribution(range, rec), seen, st.journals + [rec]))
  {
    var js := st.journals + [rec];
    assert js[..|js| - 1] == st.journals;
    forall i | 0 <= i < |js|
      ensures LeftIsTotal(range, initial, js, i)
    {
      if i < |st.journals| {
        LeftIsTotalPrefix(range, initial, st.journals, js, i);
      } else {
        assert js[..i + 1] == js;
      }
    }
  }

  lemma RunningTotalStepKeepsReplay(dedupe: bool, range: DateRangeBoundaries, initial: int, st: RunningTotal,
                                    pool: seq<Attachment>, j: TransactionJournalDto)
    requires TotalReplays(range, initial, st)
    requires RunningTotalStep(dedupe, range, st, pool, j).Ok?
    ensures TotalReplays(range, initial, RunningTotalStep(dedupe, range, st, pool, j).value.0)
  {
    var id := ParseInt(j.journalId).value;
    if !(dedupe && id in st.seen) {
      var total := TotalAfter(range, st.total, j);
      var eid := ElementIdOf(j.epochSeconds, j.journalId);
      var moved := Moved(pool, j.journalId, eid, j.description);
      var rec := ToJournal(j, SignedAmount(j), moved, Some(total), Some(total), Some(total), eid, FirstElementId(moved));
      assert RunningTotalStep(dedupe, range, st, pool, j).value.0 == RunningTotal(total, st.seen + [id], st.journals + [rec]);
      TotalAfterIsContribution(range, st.total, j, rec);
      AppendKeepsTotalReplay(range, initial, st, rec, st.seen + [id]);
    }
  }

  /** The total after a journal is the total before plus what its record
      contributes. */
  lemma TotalAfterIsContribution(range: DateRangeBoundaries, total: int, j: TransactionJournalDto, rec: TransactionJournal)
    requires rec.journalType == j.journalType && rec.amount == SignedAmount(j) && rec.date == j.localDate
    ensures TotalAfter(range, total, j) == total + Contribution(range, rec)
  {
  }

  lemma {:induction false} RunJournalsKeepsTotalReplay(dedupe: bool, range: DateRangeBoundaries, initial: int,
                                                       st: RunningTotal, pool: seq<Attachment>, js: seq<TransactionJournalDto>)
    requires TotalReplays(range, initial, st)
    requires RunJournals(RunningTotalStepOf(dedupe, range), st, pool, js).Ok?
    ensures TotalReplays(range, initial, RunJournals(RunningTotalStepOf(dedupe, range), st, pool, js).value)
    decreases |js|
  {
    if js != [] {
      RunningTotalStepKeepsReplay(dedupe, range, initial, st, pool, js[0]);
      var next := RunningTotalStep(dedupe, range, st, pool, js[0]).value;
      RunJournalsKeepsTotalReplay(dedupe, range, initial, next.0, next.1, js[1..]);
    }
  }

  lemma {:induction false} RunTransactionsKeepsTotalReplay(server: Server, dedupe: bool, range: DateRangeBoundaries,
                                                           initial: int, st: RunningTotal, txs: seq<TransactionDto>)
    requires TotalReplays(range, initial, st)
    requires RunTransactions(server, RunningTotalStepOf(dedupe, range), st, txs).Ok?
    ensures TotalReplays(range, initial, RunTransactions(server, RunningTotalStepOf(dedupe, range), st, txs).value)
    decreases |txs|
  {
    if txs != [] {
      var pool := TransactionAttachments(server, txs[0].id).value;
      RunJournalsKeepsTotalReplay(dedupe, range, initial, st, pool, txs[0].journals);
      var next := RunJournals(RunningTotalStepOf(dedupe, range), st, pool, txs[0].journals).value;
      RunTransactionsKeepsTotalReplay(server, dedupe, range, initial, next, txs[1..]);
    }
  }

  /** Every returned journal's three balances left equal the initial balance
      plus what the journals up to and including it contribute. */
  lemma RunningTotalJournalsReplay(server: Server, dedupe: bool, range: DateRangeBoundaries, overview: GeneralOverview)
    requires RunningTotalJournals(server, dedupe, range, overview).Ok?
    ensures var js := RunningTotalJournals(server, dedupe, range, overview).value;
            forall i :: 0 <= i < |js| ==> LeftIsTotal(range, overview.initialBalance, js, i)
  {
    var txs := FetchedTransactions(server, range).value;
    var start := RunningTotal(overview.initialBalance, [], []);
    RunTransactionsKeepsTotalReplay(server, dedupe, range, overview.initialBalance, start, txs);
    var final := RunTransactions(server, RunningTotalStepOf(dedupe, range), start, txs).value;
    assert TotalReplays(range, overview.initialBalance, final);
    var js := final.journals;
    assert js == RunningTotalJournals(server, dedupe, range, overview).value;
  }
}
