/** The HTTP boundary. The server is a bundle of endpoint functions that
    answer each request with a status, a reason phrase, a decoded body and the
    raw body text; `SafeRequest` turns an answer into a value or a failure by
    the status-code classes of section 15 of RFC 9110. */
module Ktor {
  import opened Common
  import opened Dates
  import opened Text
  import opened Dto

  datatype HttpResponse<T> = HttpResponse(status: int, description: string, body: T, bodyText: string)

  /** The endpoints the core calls. Every one goes through `SafeRequest`
      except `summary`, whose answer the core decodes without a status check. */
  datatype Server = Server(
    accounts: (Date, string, int) -> HttpResponse<AccountPage>,          // date, type, page
    transactions: (Date, Date, int) -> HttpResponse<TransactionPage>,    // start, end, page
    attachments: (string, int) -> HttpResponse<AttachmentPage>,          // transaction id, page
    charts: (Date, Date) -> HttpResponse<seq<ChartDto>>,
    currency: string -> HttpResponse<CurrencyResponse>,
    insight: (string, string, Date, Date) -> HttpResponse<seq<InsightItemDto>>, // type, group, start, end
    summary: (Date, Date) -> map<string, BasicSummaryDto>,
    about: HttpResponse<SystemInfoResponse>)

  predicate IsSuccess(status: int) { 200 <= status <= 299 }
  predicate IsClientError(status: int) { 400 <= status <= 499 }
  predicate IsServerError(status: int) { 500 <= status <= 599 }

  /** The decoded body of a 2xx answer; a 4xx or 5xx answer becomes the
      matching error carrying the status and the body text; anything else
      is an unexpected response. */
  function SafeRequest<T>(resp: HttpResponse<T>): (r: Result<T>)
    ensures r.Ok? <==> IsSuccess(resp.status)
    ensures r.Ok? ==> r.value == resp.body
    ensures IsClientError(resp.status) ==> r == Err(ClientError(resp.status, resp.bodyText))
    ensures IsServerError(resp.status) ==> r == Err(ServerError(resp.status, resp.bodyText))
    ensures !IsSuccess(resp.status) && !IsClientError(resp.status) && !IsServerError(resp.status)
            ==> r == Err(UnexpectedResponse(resp.status, resp.description))
  {
    if IsSuccess(resp.status) then Ok(resp.body)
    else if IsClientError(resp.status) then Err(ClientError(resp.status, resp.bodyText))
    else if IsServerError(resp.status) then Err(ServerError(resp.status, resp.bodyText))
    else Err(UnexpectedResponse(resp.status, resp.description))
  }

  /** Every status falls in exactly one of the four branches. */
  lemma StatusBranchesPartition(s: int)
    ensures (if IsSuccess(s) then 1 else 0) + (if IsClientError(s) then 1 else 0)
          + (if IsServerError(s) then 1 else 0)
          + (if !IsSuccess(s) && !IsClientError(s) && !IsServerError(s) then 1 else 0) == 1
  {
  }

  /** The text of a status exception: `"<kind> error <code>: <message>"`,
      the reason phrase standing in for an absent message. */
  function StatusErrorText(kind: string, code: int, message: Option<string>, description: string): string {
    kind + " error " + IntToString(code) + ": " + message.GetOr(description)
  }

  function ClientErrorText(code: int, message: Option<string>, description: string): string {
    StatusErrorText("Client", code, message, description)
  }

  function ServerErrorText(code: int, message: Option<string>, description: string): string {
    StatusErrorText("Server", code, message, description)
  }

  /** A status-exception text starts with its kind and " error ", followed
      by the decimal text of the status, which reads back as the status;
      after ": " comes the message, or the reason phrase when there is none. */
  lemma StatusErrorTextParts(kind: string, code: int, message: Option<string>, description: string)
    requires IntMin <= code <= IntMax
    ensures var t, head := StatusErrorText(kind, code, message, description), kind + " error ";
            var k, n := |head|, |IntToString(code)|;
            |t| >= k + n + 2
            && t[..k] == head
            && t[k..k + n] == IntToString(code) && ParseInt(t[k..k + n]) == Some(code)
            && t[k + n..k + n + 2] == ": "
            && t[k + n + 2..] == message.GetOr(description)
  {
    ParseIntRoundTrip(code);
    TextParts(StatusErrorText(kind, code, message, description), kind + " error ", IntToString(code), code,
              message.GetOr(description));
  }

  /** Where the three parts of `head + digits + ": " + tail` sit, when
      `digits` parses as `code`. */
  lemma TextParts(t: string, head: string, digits: string, code: int, tail: string)
    requires t == head + digits + ": " + tail && ParseInt(digits) == Some(code)
    ensures var k, n := |head|, |digits|;
            |t| >= k + n + 2
            && t[..k] == head
            && t[k..k + n] == digits && ParseInt(t[k..k + n]) == Some(code)
            && t[k + n..k + n + 2] == ": "
            && t[k + n + 2..] == tail
  {
    assert t[|head|..|head| + |digits|] == digits;
  }
}
