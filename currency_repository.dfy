/** Validation of the report currency: `GET /currencies/{code}` must answer a
    record, and that currency must be enabled. */
module CurrencyRepository {
  import opened Common
  import opened Dto
  import opened Ktor

  /** `fetchCurrency` as written: the answer goes through `SafeRequest` before
      the status is compared with 404, so that comparison never succeeds.
      Every failing status is the request's own error; a successful answer
      without a record, or with a disabled currency, is an invalid currency
      code; an enabled currency is returned unchanged. */
  function FetchCurrencyAsWritten(server: Server, code: string): (r: Result<CurrencyDto>)
    ensures var resp := server.currency(code);
            && (!IsSuccess(resp.status) ==> r == Err(SafeRequest(resp).error))
            && (IsSuccess(resp.status) && resp.body.data.None? ==> r == Err(InvalidCurrencyCode))
            && (IsSuccess(resp.status) && resp.body.data.Some? && !resp.body.data.value.attributes.enabled
                ==> r == Err(InvalidCurrencyCode))
            && (r.Ok? <==> IsSuccess(resp.status) && resp.body.data.Some? && resp.body.data.value.attributes.enabled)
            && (r.Ok? ==> r.value == resp.body.data.value)
  {
    var resp := server.currency(code);
    match SafeRequest(resp)
    case Err(e) => Err(e)
    case Ok(body) =>
      if resp.status == 404 then Err(InvalidCurrencyCode)
      else if body.data.None? then Err(InvalidCurrencyCode)
      else if !body.data.value.attributes.enabled then Err(InvalidCurrencyCode)
      else Ok(body.data.value)
  }

  /** As written, an unknown currency code (status 404) surfaces as a client
      error, never as an invalid-currency error. */
  lemma AsWrittenNotFoundIsClientError(server: Server, code: string)
    requires server.currency(code).status == 404
    ensures FetchCurrencyAsWritten(server, code) == Err(ClientError(404, server.currency(code).bodyText))
    ensures FetchCurrencyAsWritten(server, code) != Err(InvalidCurrencyCode)
  {
  }

  /** `fetchCurrency` with the 404 check taking effect: a 404 is an invalid
      currency code; any other failing status is the request's own error; a
      successful answer without a record, or with a disabled currency, is an
      invalid currency code; an enabled currency is returned unchanged. */
  function FetchCurrency(server: Server, code: string): (r: Result<CurrencyDto>)
    ensures var resp := server.currency(code);
            && (resp.status == 404 ==> r == Err(InvalidCurrencyCode))
            && (resp.status != 404 && !IsSuccess(resp.status) ==> r == Err(SafeRequest(resp).error))
            && (IsSuccess(resp.status) && resp.body.data.None? ==> r == Err(InvalidCurrencyCode))
            && (IsSuccess(resp.status) && resp.body.data.Some? && !resp.body.data.value.attributes.enabled
                ==> r == Err(InvalidCurrencyCode))
            && (r.Ok? <==> IsSuccess(resp.status) && resp.body.data.Some? && resp.body.data.value.attributes.enabled)
            && (r.Ok? ==> r.value == resp.body.data.value)
  {
    var resp := server.currency(code);
    if resp.status == 404 then Err(InvalidCurrencyCode)
    else
      match SafeRequest(resp)
      case Err(e) => Err(e)
      case Ok(body) =>
        if body.data.None? then Err(InvalidCurrencyCode)
        else if !body.data.value.attributes.enabled then Err(InvalidCurrencyCode)
        else Ok(body.data.value)
  }

  /** The two versions differ only on a 404 answer. */
  lemma CorrectedDiffersOnlyOnNotFound(server: Server, code: string)
    ensures server.currency(code).status != 404 ==> FetchCurrency(server, code) == FetchCurrencyAsWritten(server, code)
    ensures server.currency(code).status == 404 ==> FetchCurrency(server, code) != FetchCurrencyAsWritten(server, code)
  {
  }
}
