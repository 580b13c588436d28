/** XeroInvoiceClient.CreateInvoiceAsync: fetch the access token, build the
    request, send it, classify the outcome as Synced, Retryable or Failed. */
module XeroClient {
  import opened Results
  import opened Models
  import opened XeroWire

  /** What the client talks to, given as inputs: the configured tenant id,
      the secret store's answer for "XeroAccessToken", and the HTTP round
      trip (send the request, read the response body). */
  datatype XeroEnvironment = XeroEnvironment(
    tenantId: string,
    accessToken: Result<string>,
    send: HttpRequest<Guid> -> Result<HttpResponse>)

  /** IsRetryableStatusCode: 429 (section 4 of RFC 6585), 503 and 504
      (sections 15.6.4 and 15.6.5 of RFC 9110). */
  predicate IsRetryableStatusCode(status: StatusCode): (b: bool)
    ensures b ==> !IsSuccessStatusCode(status) && 400 <= status < 600
  {
    status == 429 || status == 503 || status == 504
  }

  /** No retryable code is a success code. */
  lemma RetryableCodesAreErrors(status: StatusCode)
    requires IsRetryableStatusCode(status)
    ensures !IsSuccessStatusCode(status)
  {
  }

  /** MapToXeroInvoice: the contact id goes through Guid.Parse, which throws
      FormatException for anything that is not a GUID. */
  function MapToXeroInvoice(invoice: ExternalInvoice): (r: Result<XeroInvoiceRequest<Guid>>)
    ensures r.Ok? <==> ParseGuid(invoice.contactId).Ok?
    ensures r.Throw? ==> r.error == ParseGuid(invoice.contactId).error
    ensures r.Ok? ==> r.value == Payload(invoice, ParseGuid(invoice.contactId).value)
  {
    match ParseGuid(invoice.contactId)
    case Throw(e) => Throw(e)
    case Ok(g) => Ok(Payload(invoice, g))
  }

  /** The two catch clauses: HttpRequestException is a network error and
      retryable; every other exception is unexpected and permanent. */
  function CatchOutcome(e: Exception): (r: SyncResult)
    ensures !r.success && r.externalId.None?
    ensures r.status == Retryable <==> e.kind == HttpRequestException
    ensures r.status == Failed <==> e.kind != HttpRequestException
    ensures r.errorMessage == Some(if e.kind == HttpRequestException then "Network error: " + e.message
                                   else "Unexpected error: " + e.message)
  {
    if e.kind == HttpRequestException then FailedWith("Network error: " + e.message, Retryable)
    else FailedWith("Unexpected error: " + e.message, Failed)
  }

  /** Classification of a response that was read: 2xx is Synced with the first
      returned invoice's id (a body that does not parse throws JsonException
      and is caught as unexpected); any other status is an error, retryable
      exactly for 429, 503 and 504. */
  function ResponseOutcome(response: HttpResponse): (r: SyncResult)
    ensures r.status == Synced <==> IsSuccessStatusCode(response.status) && !response.json.Unreadable?
    ensures r.status == Retryable <==> IsRetryableStatusCode(response.status)
    ensures !IsSuccessStatusCode(response.status) ==>
      r == FailedWith("Xero API error: " + StatusName(response.status),
                      if IsRetryableStatusCode(response.status) then Retryable else Failed)
  {
    if IsSuccessStatusCode(response.status) then
      match response.json
      case Unreadable(message) => CatchOutcome(Exception(JsonException, message))
      case _ => SyncResult(true, FirstInvoiceId(response.json), None, Synced)
    else
      FailedWith("Xero API error: " + StatusName(response.status),
                 if IsRetryableStatusCode(response.status) then Retryable else Failed)
  }

  /** The request for a token and a payload: per-request headers only, so
      exactly one tenant id. */
  function RequestFor(env: XeroEnvironment, token: string, body: XeroInvoiceRequest<Guid>): HttpRequest<Guid> {
    HttpRequest(InvoicesUri, Some(Bearer(token)), [env.tenantId], Some(body))
  }

  /** The request that goes out, if the call gets that far: not when the token
      fetch or Guid.Parse throws. */
  function SentRequest(invoice: Option<ExternalInvoice>, env: XeroEnvironment): (sent: Option<HttpRequest<Guid>>)
    ensures sent.Some? <==> invoice.Some? && env.accessToken.Ok? && ParseGuid(invoice.value.contactId).Ok?
  {
    if invoice.None? || env.accessToken.Throw? then None
    else match MapToXeroInvoice(invoice.value)
      case Throw(_) => None
      case Ok(body) => Some(RequestFor(env, env.accessToken.value, body))
  }

  /** What CreateInvoiceAsync returns. A null invoice throws before the try;
      otherwise every exception is caught, and on every path `Success` holds
      exactly when the status is Synced. */
  function CreateInvoiceOutcome(invoice: Option<ExternalInvoice>, env: XeroEnvironment): (r: Result<SyncResult>)
    ensures r.Throw? <==> invoice.None?
    ensures r.Throw? ==> r.error == NullArgument("invoice")
    ensures r.Ok? ==>
      && (r.value.success <==> r.value.status == Synced)
      && (r.value.success <==> r.value.errorMessage.None?)
      && (r.value.externalId.Some? ==> r.value.success)
      && r.value.status != DeadLettered
  {
    if invoice.None? then Throw(NullArgument("invoice"))
    else Ok(
      match env.accessToken
      case Throw(e) => CatchOutcome(e)
      case Ok(token) =>
        match MapToXeroInvoice(invoice.value)
        case Throw(e) => CatchOutcome(e)
        case Ok(body) =>
          match env.send(RequestFor(env, token, body))
          case Throw(e) => CatchOutcome(e)
          case Ok(response) => ResponseOutcome(response))
  }

  /** CreateInvoiceAsync, step by step: returns the result and the request
      it sent, if any. */
  method CreateInvoice(invoice: Option<ExternalInvoice>, env: XeroEnvironment)
    returns (r: Result<SyncResult>, sent: Option<HttpRequest<Guid>>)
    ensures r == CreateInvoiceOutcome(invoice, env)
    ensures sent == SentRequest(invoice, env)
  {
    sent := None;
    if invoice.None? {
      r := Throw(NullArgument("invoice"));
      return;
    }
    // try
    if env.accessToken.Throw? {
      r := Ok(CatchOutcome(env.accessToken.error));
      return;
    }
    var token := env.accessToken.value;
    var request: HttpRequest<Guid> := HttpRequest(InvoicesUri, None, [], None);
    request := request.(authorization := Some(Bearer(token)));
    request := request.(tenantIds := request.tenantIds + [env.tenantId]);
    var body := MapToXeroInvoice(invoice.value);
    if body.Throw? {
      r := Ok(CatchOutcome(body.error));
      return;
    }
    request := request.(content := Some(body.value));
    assert request == RequestFor(env, token, body.value);
    sent := Some(request);
    var response := env.send(request);
    if response.Throw? {
      r := Ok(CatchOutcome(response.error));
      return;
    }
    if IsSuccessStatusCode(response.value.status) {
      if response.value.json.Unreadable? {
        r := Ok(CatchOutcome(Exception(JsonException, response.value.json.message)));
      } else {
        r := Ok(SyncResult(true, FirstInvoiceId(response.value.json), None, Synced));
      }
      return;
    }
    var retryable := IsRetryableStatusCode(response.value.status);
    r := Ok(FailedWith("Xero API error: " + StatusName(response.value.status),
                       if retryable then Retryable else Failed));
  }

  /** A request that goes out carries the bearer token, exactly one tenant id
      and the mapped payload: the GUID of the contact, "ACCREC", the lines in
      order on account "200". */
  lemma SentRequestHasOneTenant(invoice: ExternalInvoice, env: XeroEnvironment)
    requires SentRequest(Some(invoice), env).Some?
    ensures var req := SentRequest(Some(invoice), env).value;
      && req.uri == InvoicesUri
      && req.authorization == Some(Bearer(env.accessToken.value))
      && req.tenantIds == [env.tenantId]
      && req.content == Some(Payload(invoice, ParseGuid(invoice.contactId).value))
  {
  }

  /** The classification of a response that came back. */
  lemma ClassifiesResponse(invoice: ExternalInvoice, env: XeroEnvironment, response: HttpResponse)
    requires SentRequest(Some(invoice), env).Some?
    requires env.send(SentRequest(Some(invoice), env).value) == Ok(response)
    ensures var r := CreateInvoiceOutcome(Some(invoice), env).value;
      && (IsSuccessStatusCode(response.status) && !response.json.Unreadable? ==>
            r == SyncResult(true, FirstInvoiceId(response.json), None, Synced))
      && (IsSuccessStatusCode(response.status) && response.json.Unreadable? ==>
            r == FailedWith("Unexpected error: " + response.json.message, Failed))
      && (!IsSuccessStatusCode(response.status) && IsRetryableStatusCode(response.status) ==>
            r == FailedWith("Xero API error: " + StatusName(response.status), Retryable))
      && (!IsSuccessStatusCode(response.status) && !IsRetryableStatusCode(response.status) ==>
            r == FailedWith("Xero API error: " + StatusName(response.status), Failed))
  {
  }

  /** An exception from the send (or the body read) is Retryable exactly
      when it is an HttpRequestException. */
  lemma ClassifiesSendException(invoice: ExternalInvoice, env: XeroEnvironment, e: Exception)
    requires SentRequest(Some(invoice), env).Some?
    requires env.send(SentRequest(Some(invoice), env).value) == Throw(e)
    ensures CreateInvoiceOutcome(Some(invoice), env) == Ok(CatchOutcome(e))
    ensures CreateInvoiceOutcome(Some(invoice), env).value.status == (if e.kind == HttpRequestException then Retryable else Failed)
  {
  }

  /** A token fetch that throws ends the call before anything is sent; the
      secret store's RequestFailedException is not an HttpRequestException,
      so it is a permanent failure. */
  lemma TokenFailureIsNotSent(invoice: ExternalInvoice, env: XeroEnvironment)
    requires env.accessToken.Throw?
    ensures SentRequest(Some(invoice), env).None?
    ensures CreateInvoiceOutcome(Some(invoice), env) == Ok(CatchOutcome(env.accessToken.error))
    ensures env.accessToken.error.kind == RequestFailedException ==>
      CreateInvoiceOutcome(Some(invoice), env).value.status == Failed
  {
  }

  /** A contact id that is not a GUID fails permanently, before sending,
      with Guid.Parse's own text. */
  lemma NonGuidContactFails(invoice: ExternalInvoice, env: XeroEnvironment)
    requires env.accessToken.Ok? && ParseGuid(invoice.contactId).Throw?
    ensures SentRequest(Some(invoice), env).None?
    ensures CreateInvoiceOutcome(Some(invoice), env) ==
      Ok(FailedWith("Unexpected error: " + ParseGuid(invoice.contactId).error.message, Failed))
  {
  }

  /** The classification table on three concrete responses: 429 is retryable,
      404 is a permanent failure, 201 with a returned id is synced with it. */
  lemma ClassificationExamples(body: string, id: string)
    ensures ResponseOutcome(HttpResponse(429, body, NullDocument)).status == Retryable
    ensures ResponseOutcome(HttpResponse(404, body, NullDocument)) == FailedWith("Xero API error: NotFound", Failed)
    ensures ResponseOutcome(HttpResponse(201, body, Document(Some([XeroInvoiceRecord(Some(id), None)]))))
            == SyncResult(true, Some(id), None, Synced)
  {
    var notFound := HttpResponse(404, body, NullDocument);
    assert !IsSuccessStatusCode(notFound.status) && !IsRetryableStatusCode(notFound.status);
    assert StatusName(404) == "NotFound";
    assert "Xero API error: " + "NotFound" == "Xero API error: NotFound";
  }
}
