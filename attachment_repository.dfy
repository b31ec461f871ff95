/** The attachments of one transaction: a paginated listing and the mapping
    of its records to report attachments. */
module AttachmentRepository {
  import opened Common
  import opened Dto
  import opened Model
  import opened Ktor
  import opened Pagination

  /** The records of one page of `GET /transactions/{id}/attachments?page=`. */
  function AttachmentPageData(server: Server, transactionId: string): int -> Result<seq<AttachmentDto>> {
    k => match SafeRequest(server.attachments(transactionId, k))
         case Err(e) => Err(e)
         case Ok(p) => Ok(p.data)
  }

  /** What `fetchAttachmentsByTransactionId` returns: page 1, then pages 2 up
      to the page count of the first answer (later answers' counts are not
      read). */
  function FetchedAttachments(server: Server, transactionId: string): Result<seq<AttachmentDto>> {
    match SafeRequest(server.attachments(transactionId, 1))
    case Err(e) => Err(e)
    case Ok(first) =>
      match Drain(AttachmentPageData(server, transactionId), 2, first.totalPages)
      case Err(e) => Err(e)
      case Ok(rest) => Ok(first.data + rest)
  }

  /** The listing is pages `1..totalPages` drained in order, or page 1 alone
      when the first answer announces at most one page. */
  lemma FetchedAttachmentsDrainsAllPages(server: Server, transactionId: string)
    requires SafeRequest(server.attachments(transactionId, 1)).Ok?
    ensures var n := SafeRequest(server.attachments(transactionId, 1)).value.totalPages;
            var get := AttachmentPageData(server, transactionId);
            FetchedAttachments(server, transactionId) == Drain(get, 1, if n < 1 then 1 else n)
            && (n <= 1 ==> FetchedAttachments(server, transactionId) == Ok(SafeRequest(server.attachments(transactionId, 1)).value.data))
  {
    var get := AttachmentPageData(server, transactionId);
    var first := SafeRequest(server.attachments(transactionId, 1)).value;
    var n := first.totalPages;
    DrainFront(get, 1, if n < 1 then 1 else n);
    assert first.data + [] == first.data;
  }

  /** `fetchAttachmentsByTransactionId`. `requested` lists the pages asked
      for, in order. */
  method FetchAttachments(server: Server, transactionId: string)
    returns (r: Result<seq<AttachmentDto>>, requested: seq<int>)
    ensures r == FetchedAttachments(server, transactionId)
    ensures |requested| >= 1 && requested == Range(1, |requested|)
    ensures r.Ok? ==> var n := SafeRequest(server.attachments(transactionId, 1)).value.totalPages;
                      |requested| == if n < 1 then 1 else n
  {
    var get := AttachmentPageData(server, transactionId);
    var currentPage := 1;
    requested := [1];
    var response := SafeRequest(server.attachments(transactionId, currentPage));
    if response.Err? {
      return Err(response.error), requested;
    }
    var totalPages := response.value.totalPages;
    var attachments := response.value.data;
    ghost var rest: seq<AttachmentDto> := [];
    while currentPage < totalPages
      invariant 1 <= currentPage && (currentPage <= totalPages || currentPage == 1)
      invariant requested == Range(1, currentPage)
      invariant Drain(get, 2, currentPage) == Ok(rest)
      invariant attachments == response.value.data + rest
      decreases totalPages - currentPage
    {
      currentPage := currentPage + 1;
      requested := requested + [currentPage];
      var page := SafeRequest(server.attachments(transactionId, currentPage));
      assert get(currentPage) == if page.Err? then Err(page.error) else Ok(page.value.data);
      if page.Err? {
        DrainOkIff(get, 2, currentPage - 1);
        DrainFirstError(get, 2, totalPages, currentPage);
        return Err(page.error), requested;
      }
      attachments := attachments + page.value.data;
      rest := rest + page.value.data;
    }
    r := Ok(attachments);
  }

  /** One report attachment per record: every listed field copied, no file
      and no page images yet, and no place in the report yet (no element id,
      no parent, empty parent description). */
  function ToAttachment(d: AttachmentDto): (a: Attachment)
    ensures a.id == d.id && a.attachableId == d.attachableId && a.filename == d.filename
    ensures a.mime == d.mime && a.size == d.size && a.attachmentType == d.attachmentType
    ensures a.file.None? && a.imageFiles == []
    ensures a.elementId.None? && a.parentId.None? && a.parentDescription == ""
  {
    Attachment(d.attachmentType, d.id, d.createdAt, d.updatedAt, d.attachableId, d.attachableType,
               d.md5, d.hash, d.filename, d.downloadUrl, d.uploadUrl, d.title, d.notes, d.mime, d.size,
               None, [], None, None, "")
  }

  function AttachmentsOfRecords(ds: seq<AttachmentDto>): (r: seq<Attachment>)
    ensures |r| == |ds| && forall i :: 0 <= i < |ds| ==> r[i] == ToAttachment(ds[i])
  {
    if ds == [] then [] else AttachmentsOfRecords(ds[..|ds| - 1]) + [ToAttachment(ds[|ds| - 1])]
  }

  /** The attachments of a transaction that `getAttachmentsByTransactionId` returns. */
  function TransactionAttachments(server: Server, transactionId: string): Result<seq<Attachment>> {
    match FetchedAttachments(server, transactionId)
    case Err(e) => Err(e)
    case Ok(ds) => Ok(AttachmentsOfRecords(ds))
  }

  /** `getAttachmentsByTransactionId`: one report attachment per record, in
      listing order. */
  method GetAttachmentsByTransactionId(server: Server, transactionId: string) returns (r: Result<seq<Attachment>>)
    ensures r == TransactionAttachments(server, transactionId)
  {
    var fetched, _ := FetchAttachments(server, transactionId);
    if fetched.Err? {
      return Err(fetched.error);
    }
    var records := fetched.value;
    var attachments: seq<Attachment> := [];
    for i := 0 to |records|
      invariant attachments == AttachmentsOfRecords(records[..i])
    {
      assert records[..i + 1][..i] == records[..i];
      attachments := attachments + [ToAttachment(records[i])];
    }
    assert records[..|records|] == records;
    r := Ok(attachments);
  }
}
