/** Properties of the pipeline as a whole: how the current function and the
    legacy receiver settle the same message differently, and how a customer
    account that is not a GUID travels from the mapping to the dead-letter
    queue. */
module PipelineProperties {
  import opened Results
  import opened Models
  import opened CustomerMapping
  import opened InvoiceTransformers
  import opened LegacyTransformers
  import opened XeroWire
  import opened XeroClient
  import opened LegacyApiClients
  import opened SyncService
  import opened ServiceBus
  import opened SyncFunction
  import opened LegacyReceiver

  /** A body that is not JSON: the current function dead-letters it itself;
      the legacy receiver issues no settle call and forwards the body with the
      parser's message to the output queue. */
  lemma MalformedBodyDiverges(message: ReceivedMessage, jsonMessage: string, sync: Result<SyncResult>,
                              delivery: Result<ApiResult>, maxDeliveryCount: int)
    ensures Decide(DeserializeInvoice(Malformed(jsonMessage)), sync, message.deliveryCount, maxDeliveryCount)
            == DeadLetter("DeserializationFailed", None)
    ensures LegacyDecide(message, Malformed(jsonMessage), delivery)
            == Verdict(None, Some(DlqMessage(message.body, InvoiceIdProperty(message), jsonMessage)))
  {
  }

  /** A 429, 503 or 504 from Xero on the third delivery or later: the current
      function abandons it for another try, the legacy receiver dead-letters it. */
  lemma RetryableResponseDivergesAtCap(message: ReceivedMessage, invoice: D365Invoice, response: HttpResponse)
    requires IsRetryableStatusCode(response.status) && message.deliveryCount >= 3
    ensures Decide(Some(invoice), Ok(ResponseOutcome(response)), message.deliveryCount, DefaultMaxDeliveryCount) == Abandon
    ensures LegacyDecide(message, Decoded(invoice), Ok(ResponseResult(response))).action
            == Some(DeadLetter("Max retries exceeded: Xero API returned " + StatusName(response.status) + ": " + response.content, None))
  {
    RetryableCodesAreErrors(response.status);
    assert "Max retries exceeded: " + ("Xero API returned " + StatusName(response.status) + ": " + response.content)
        == "Max retries exceeded: Xero API returned " + StatusName(response.status) + ": " + response.content;
  }

  /** Any other error status on the first or second delivery: the current
      function dead-letters it as permanent at once, the legacy receiver
      abandons it for another try. */
  lemma PermanentResponseDivergesBelowCap(message: ReceivedMessage, invoice: D365Invoice, response: HttpResponse)
    requires !IsSuccessStatusCode(response.status) && !IsRetryableStatusCode(response.status)
    requires message.deliveryCount < 3
    ensures Decide(Some(invoice), Ok(ResponseOutcome(response)), message.deliveryCount, DefaultMaxDeliveryCount)
            == DeadLetter("PermanentFailure", Some("Xero API error: " + StatusName(response.status)))
    ensures LegacyDecide(message, Decoded(invoice), Ok(ResponseResult(response))).action == Some(Abandon)
  {
  }

  /** A 2xx response with a readable body completes the message in both. */
  lemma SuccessAgrees(message: ReceivedMessage, invoice: D365Invoice, response: HttpResponse, maxDeliveryCount: int)
    requires IsSuccessStatusCode(response.status) && !response.json.Unreadable?
    ensures Decide(Some(invoice), Ok(ResponseOutcome(response)), message.deliveryCount, maxDeliveryCount) == Complete
    ensures LegacyDecide(message, Decoded(invoice), Ok(ResponseResult(response))).action == Some(Complete)
  {
  }

  /** The current service wired as the Xero factory wires it, over a freshly
      constructed (empty) in-memory mapping. */
  function XeroService(env: XeroEnvironment): InvoiceSyncService {
    InvoiceSyncService(XeroInvoiceTransformer(InMemory(map[])), XeroInvoiceClient(env))
  }

  /** With an empty mapping table a customer account that is not a GUID
      becomes the contact id, Guid.Parse rejects it before anything is sent,
      the result is a permanent failure carrying Guid.Parse's text, and the
      message is dead-lettered as "PermanentFailure" on every delivery. */
  lemma NonGuidAccountIsDeadLettered(invoice: D365Invoice, env: XeroEnvironment, deliveryCount: int, maxDeliveryCount: int)
    requires invoice.customerAccount != "" && ParseGuid(invoice.customerAccount).Throw?
    requires env.accessToken.Ok?
    ensures var message := "Unexpected error: " + ParseGuid(invoice.customerAccount).error.message;
      && SyncInvoice(XeroService(env), Some(invoice)) == Ok(FailedWith(message, Failed))
      && Decide(Some(invoice), SyncInvoice(XeroService(env), Some(invoice)), deliveryCount, maxDeliveryCount)
         == DeadLetter("PermanentFailure", Some(message))
  {
    UnmappedAccountIsContact(invoice);
    var external := XeroTransform(InMemory(map[]), Some(invoice)).value;
    NonGuidContactFails(external, env);
  }

  /** The legacy client, given the same invoice, does not parse the contact:
      it posts the raw account as the ContactID. */
  lemma LegacySendsRawAccount(invoice: D365Invoice, env: LegacyXeroEnvironment, h: DefaultHeaders)
    requires env.accessToken.Ok? && env.tenantId.Ok?
    ensures LegacySentRequest(env, LegacyXeroTransform(invoice), h).value.content.value.contactId == invoice.customerAccount
  {
  }

  /** The same, for a whole run of the current function on an invoice whose
      account is "CUST-A": one settle call, dead-lettering the message with
      Guid.Parse's complaint about the length. */
  lemma CustomerAccountExample(f: InvoiceSyncFunction, message: ReceivedMessage, invoice: D365Invoice)
    requires invoice.customerAccount == "CUST-A"
    requires f.service.transformer == XeroInvoiceTransformer(InMemory(map[]))
    requires f.service.client.XeroInvoiceClient? && f.service.client.env.accessToken.Ok?
    ensures f.Outcome(message, Decoded(invoice), None)
            == RunOutcome([DeadLetter("PermanentFailure", Some("Unexpected error: " + GuidMessage(WrongLength)))], None)
  {
    var env := f.service.client.env;
    ExactlyOneAction(f, message, Decoded(invoice));
    assert f.service == XeroService(env);
    AccountCodeIsRejected();
    NonGuidAccountIsDeadLettered(invoice, env, message.deliveryCount, f.maxDeliveryCount);
  }
}
