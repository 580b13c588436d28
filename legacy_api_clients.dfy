/** The legacy API clients of ExternalApiClients.cs: XeroApiClient, which
    keeps its Authorization and Xero-tenant-id headers on the shared
    HttpClient's default headers, the QuickBooksApiClient placeholder, and
    ApiClientFactory. */
module LegacyApiClients {
  import opened Results
  import opened Models
  import opened XeroWire
  import opened BackendSelection
  import XeroClient

  /** What the legacy client talks to, given as inputs: the secret store's
      answers for "XeroAccessToken" and "XeroTenantId", and the HTTP round
      trip (post the request, read the response body). */
  datatype LegacyXeroEnvironment = LegacyXeroEnvironment(
    accessToken: Result<string>,
    tenantId: Result<string>,
    send: HttpRequest<string> -> Result<HttpResponse>)

  /** The part of `_httpClient.DefaultRequestHeaders` the client touches. */
  datatype DefaultHeaders = DefaultHeaders(authorization: Option<string>, tenantIds: seq<string>)

  /** The default headers of a new HttpClient. */
  const NoHeaders := DefaultHeaders(None, [])

  /** The catch clause: the exception's message, nothing else. */
  function Caught(e: Exception): (r: ApiResult)
    ensures !r.success && r.externalId.None? && r.errorMessage == Some(e.message)
  {
    ApiResult(false, None, Some(e.message))
  }

  /** A response that was read: 2xx is a success with the first returned
      invoice's id (a body that does not parse throws JsonException, caught);
      any other status is a failure quoting the status and the body. */
  function ResponseResult(response: HttpResponse): (r: ApiResult)
    ensures r.success <==> IsSuccessStatusCode(response.status) && !response.json.Unreadable?
    ensures r.success ==> r.externalId == FirstInvoiceId(response.json) && r.errorMessage.None?
    ensures IsSuccessStatusCode(response.status) && response.json.Unreadable? ==>
      r == Caught(Exception(JsonException, response.json.message))
    ensures !IsSuccessStatusCode(response.status) ==>
      r == ApiResult(false, None, Some("Xero API returned " + StatusName(response.status) + ": " + response.content))
  {
    if IsSuccessStatusCode(response.status) then
      match response.json
      case Unreadable(message) => Caught(Exception(JsonException, message))
      case _ => ApiResult(true, FirstInvoiceId(response.json), None)
    else
      ApiResult(false, None, Some("Xero API returned " + StatusName(response.status) + ": " + response.content))
  }

  /** The default headers after one call: Authorization is overwritten once
      the token is fetched; one more tenant id is appended once the tenant is
      fetched. */
  function HeadersAfterCall(env: LegacyXeroEnvironment, h: DefaultHeaders): (after: DefaultHeaders)
    ensures env.accessToken.Throw? ==> after == h
    ensures env.accessToken.Ok? ==> after.authorization == Some(Bearer(env.accessToken.value))
    ensures env.accessToken.Ok? && env.tenantId.Ok? ==> after.tenantIds == h.tenantIds + [env.tenantId.value]
    ensures env.accessToken.Throw? || env.tenantId.Throw? ==> after.tenantIds == h.tenantIds
  {
    match env.accessToken
    case Throw(_) => h
    case Ok(token) =>
      match env.tenantId
      case Throw(_) => h.(authorization := Some(Bearer(token)))
      case Ok(tenant) => DefaultHeaders(Some(Bearer(token)), h.tenantIds + [tenant])
  }

  /** The request posted when both secrets are fetched: the default headers
      as the call leaves them, and the payload with the contact id as a raw
      string. */
  function LegacySentRequest(env: LegacyXeroEnvironment, invoice: ExternalInvoice, h: DefaultHeaders)
    : (sent: Option<HttpRequest<string>>)
    ensures sent.Some? <==> env.accessToken.Ok? && env.tenantId.Ok?
    ensures sent.Some? ==>
      && sent.value.uri == InvoicesUri
      && sent.value.authorization == Some(Bearer(env.accessToken.value))
      && sent.value.tenantIds == h.tenantIds + [env.tenantId.value]
      && sent.value.content == Some(Payload(invoice, invoice.contactId))
  {
    if env.accessToken.Throw? || env.tenantId.Throw? then None
    else
      var after := HeadersAfterCall(env, h);
      Some(HttpRequest(InvoicesUri, after.authorization, after.tenantIds, Some(Payload(invoice, invoice.contactId))))
  }

  /** What XeroApiClient.CreateInvoiceAsync returns, given the default headers
      before the call. Every exception is caught, so it never throws; Success
      holds exactly when there is no error message. */
  function CallResult(env: LegacyXeroEnvironment, invoice: ExternalInvoice, h: DefaultHeaders): (r: ApiResult)
    ensures r.success <==> r.errorMessage.None?
    ensures r.externalId.Some? ==> r.success
    ensures env.accessToken.Throw? ==> r == Caught(env.accessToken.error)
    ensures env.accessToken.Ok? && env.tenantId.Throw? ==> r == Caught(env.tenantId.error)
  {
    match LegacySentRequest(env, invoice, h)
    case None => if env.accessToken.Throw? then Caught(env.accessToken.error) else Caught(env.tenantId.error)
    case Some(request) =>
      match env.send(request)
      case Throw(e) => Caught(e)
      case Ok(response) => ResponseResult(response)
  }

  /** A posted request that comes back with a response: 2xx with a readable
      body is a success carrying the first returned invoice's id; any other
      status is a failure quoting the status and the body. */
  lemma LegacyClassifiesResponse(env: LegacyXeroEnvironment, invoice: ExternalInvoice, h: DefaultHeaders,
                                 response: HttpResponse)
    requires LegacySentRequest(env, invoice, h).Some?
    requires env.send(LegacySentRequest(env, invoice, h).value) == Ok(response)
    ensures var r := CallResult(env, invoice, h);
      && r == ResponseResult(response)
      && (r.success <==> IsSuccessStatusCode(response.status) && !response.json.Unreadable?)
      && (r.success ==> r.externalId == FirstInvoiceId(response.json))
      && (!IsSuccessStatusCode(response.status) ==>
            r.errorMessage == Some("Xero API returned " + StatusName(response.status) + ": " + response.content))
  {
  }

  /** A post that throws, whatever the exception, is caught: the result is a
      failure carrying the exception's message. */
  lemma LegacyClassifiesSendException(env: LegacyXeroEnvironment, invoice: ExternalInvoice, h: DefaultHeaders,
                                      e: Exception)
    requires LegacySentRequest(env, invoice, h).Some?
    requires env.send(LegacySentRequest(env, invoice, h).value) == Throw(e)
    ensures CallResult(env, invoice, h) == Caught(e)
    ensures !CallResult(env, invoice, h).success && CallResult(env, invoice, h).errorMessage == Some(e.message)
  {
  }

  /** XeroApiClient, holding the HttpClient's default headers, which persist
      from one call to the next. */
  class XeroApiClient {
    const env: LegacyXeroEnvironment
    var headers: DefaultHeaders

    constructor (env: LegacyXeroEnvironment)
      ensures this.env == env && headers == NoHeaders
    {
      this.env := env;
      headers := NoHeaders;
    }

    /** CreateInvoiceAsync, step by step: returns the result and the request
        it posted, if any, and leaves the default headers changed. */
    method CreateInvoice(invoice: ExternalInvoice) returns (r: ApiResult, sent: Option<HttpRequest<string>>)
      modifies this
      ensures r == CallResult(env, invoice, old(headers))
      ensures sent == LegacySentRequest(env, invoice, old(headers))
      ensures headers == HeadersAfterCall(env, old(headers))
    {
      sent := None;
      if env.accessToken.Throw? {
        r := Caught(env.accessToken.error);
        return;
      }
      headers := headers.(authorization := Some(Bearer(env.accessToken.value)));
      if env.tenantId.Throw? {
        r := Caught(env.tenantId.error);
        return;
      }
      headers := headers.(tenantIds := headers.tenantIds + [env.tenantId.value]);
      var request := HttpRequest(InvoicesUri, headers.authorization, headers.tenantIds,
                                 Some(Payload(invoice, invoice.contactId)));
      sent := Some(request);
      var response := env.send(request);
      if response.Throw? {
        r := Caught(response.error);
        return;
      }
      if IsSuccessStatusCode(response.value.status) {
        if response.value.json.Unreadable? {
          r := Caught(Exception(JsonException, response.value.json.message));
        } else {
          r := ApiResult(true, FirstInvoiceId(response.value.json), None);
        }
      } else {
        r := ApiResult(false, None,
                       Some("Xero API returned " + StatusName(response.value.status) + ": " + response.value.content));
      }
    }
  }

  /** The default headers after `n` calls on one client. */
  function HeadersAfterCalls(env: LegacyXeroEnvironment, h: DefaultHeaders, n: nat): DefaultHeaders {
    if n == 0 then h else HeadersAfterCall(env, HeadersAfterCalls(env, h, n - 1))
  }

  /** n copies of the tenant id. */
  function Repeated(t: string, n: nat): (s: seq<string>)
    ensures |s| == n && forall i :: 0 <= i < n ==> s[i] == t
  {
    seq(n, _ => t)
  }

  /** The tenant header accumulates: after `n` calls on a new client, the
      default headers hold the tenant id `n` times. */
  lemma {:induction false} TenantHeaderAccumulates(env: LegacyXeroEnvironment, n: nat)
    requires env.accessToken.Ok? && env.tenantId.Ok?
    ensures HeadersAfterCalls(env, NoHeaders, n).tenantIds == Repeated(env.tenantId.value, n)
  {
    if n > 0 {
      TenantHeaderAccumulates(env, n - 1);
      assert Repeated(env.tenantId.value, n - 1) + [env.tenantId.value] == Repeated(env.tenantId.value, n);
    }
  }

  /** So the request of call number `n + 1` carries the tenant id `n + 1`
      times: only the first call sends a single Xero-tenant-id value. */
  lemma {:induction false} SentTenantsGrow(env: LegacyXeroEnvironment, invoice: ExternalInvoice, n: nat)
    requires env.accessToken.Ok? && env.tenantId.Ok?
    ensures LegacySentRequest(env, invoice, HeadersAfterCalls(env, NoHeaders, n)).value.tenantIds
            == Repeated(env.tenantId.value, n + 1)
  {
    TenantHeaderAccumulates(env, n);
    assert Repeated(env.tenantId.value, n) + [env.tenantId.value] == Repeated(env.tenantId.value, n + 1);
  }

  /** Two calls on one client: the second request carries the tenant id twice. */
  method SecondCallSendsTenantTwice(env: LegacyXeroEnvironment, invoice: ExternalInvoice)
    returns (first: Option<HttpRequest<string>>, second: Option<HttpRequest<string>>)
    ensures env.accessToken.Ok? && env.tenantId.Ok? ==>
      && first.Some? && first.value.tenantIds == [env.tenantId.value]
      && second.Some? && second.value.tenantIds == [env.tenantId.value, env.tenantId.value]
    ensures env.accessToken.Throw? || env.tenantId.Throw? ==> first.None? && second.None?
  {
    var client := new XeroApiClient(env);
    var r1, r2;
    r1, first := client.CreateInvoice(invoice);
    r2, second := client.CreateInvoice(invoice);
  }

  /** On a response that was read, the legacy client succeeds exactly when the
      current client reports Synced, with the same external id; it keeps no
      retryable/permanent distinction. */
  lemma AgreesWithCurrentOnSuccess(response: HttpResponse)
    ensures ResponseResult(response).success <==> XeroClient.ResponseOutcome(response).status == Synced
    ensures ResponseResult(response).externalId == XeroClient.ResponseOutcome(response).externalId
  {
  }

  const QuickBooksNotImplementedMessage := "QuickBooks implementation coming soon"

  /** QuickBooksApiClient.CreateInvoiceAsync: always throws. */
  function QuickBooksApiCreateInvoice(invoice: ExternalInvoice): (r: Result<ApiResult>)
    ensures r.Throw? && r.error.kind == NotImplementedException
    ensures r.error.message == QuickBooksNotImplementedMessage
  {
    Throw(Exception(NotImplementedException, QuickBooksNotImplementedMessage))
  }

  /** ApiClientFactory.CreateClient: the backend whose client it resolves. */
  function CreateClient(setting: Option<string>): (r: Result<Backend>)
    ensures r == Ok(Xero) <==> Names(setting, Xero)
    ensures r == Ok(QuickBooks) <==> Names(setting, QuickBooks)
    ensures r.Throw? ==>
      r.error == Exception(NotSupportedException, "External system '" + SystemType(setting) + "' not supported")
  {
    SelectionMatchesNames(setting, Xero);
    SelectionMatchesNames(setting, QuickBooks);
    match BackendNamed(SystemType(setting))
    case Some(b) => Ok(b)
    case None => Throw(Exception(NotSupportedException, "External system '" + SystemType(setting) + "' not supported"))
  }
}
