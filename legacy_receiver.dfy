/** InvoiceReceiver: the legacy queue-triggered function. It caps every
    failure at a hard-coded delivery count of 3 and, on any exception, issues
    no settle call but returns a message for the dead-letter output queue. */
module LegacyReceiver {
  import opened Results
  import opened Models
  import opened ServiceBus
  import opened LegacyTransformers
  import opened LegacyApiClients

  /** The hard-coded retry cap. */
  const LegacyMaxDeliveryCount := 3

  /** The ServiceBusMessage returned for the "invoice-dlq" output: the
      original body and the OriginalInvoiceId and ErrorMessage properties. */
  datatype DlqMessage = DlqMessage(body: seq<bv8>, originalInvoiceId: string, errorMessage: string)

  /** What one run does: the settle call it issues, if any, and the output
      message it returns, if any. */
  datatype Verdict = Verdict(action: Option<QueueAction>, output: Option<DlqMessage>)

  /** The catch clause: no settle call, the body forwarded with the
      exception's message. */
  function Forward(message: ReceivedMessage, e: Exception): (v: Verdict)
    ensures v.action.None? && v.output.Some?
    ensures v.output.value == DlqMessage(message.body, InvoiceIdProperty(message), e.message)
  {
    Verdict(None, Some(DlqMessage(message.body, InvoiceIdProperty(message), e.message)))
  }

  /** The run's verdict when no settle call throws, from how the body reads
      and what the API client answered for the transformed invoice. Malformed
      JSON throws inside the try and is forwarded like any exception. */
  function LegacyDecide(message: ReceivedMessage, reading: JsonReading, delivery: Result<ApiResult>): (v: Verdict)
    ensures v.output.Some? <==> v.action.None?
    ensures reading.Malformed? ==> v == Forward(message, Exception(JsonException, reading.message))
    ensures reading.JsonNull? ==> v == Verdict(Some(DeadLetter("Deserialization failed", None)), None)
    ensures reading.Decoded? && delivery.Throw? ==> v == Forward(message, delivery.error)
    ensures reading.Decoded? && delivery.Ok? ==>
      && (delivery.value.success ==> v.action == Some(Complete))
      && (!delivery.value.success && message.deliveryCount < LegacyMaxDeliveryCount ==> v.action == Some(Abandon))
      && (!delivery.value.success && message.deliveryCount >= LegacyMaxDeliveryCount ==>
            v.action == Some(DeadLetter("Max retries exceeded: " + OrEmpty(delivery.value.errorMessage), None)))
      && v.output.None?
  {
    match reading
    case Malformed(m) => Forward(message, Exception(JsonException, m))
    case JsonNull => Verdict(Some(DeadLetter("Deserialization failed", None)), None)
    case Decoded(_) =>
      match delivery
      case Throw(e) => Forward(message, e)
      case Ok(result) =>
        if result.success then Verdict(Some(Complete), None)
        else if message.deliveryCount < LegacyMaxDeliveryCount then Verdict(Some(Abandon), None)
        else Verdict(Some(DeadLetter("Max retries exceeded: " + OrEmpty(result.errorMessage), None)), None)
  }

  /** A failure is abandoned below the cap and dead-lettered from it on,
      whatever it was: the legacy API result carries no retryability. */
  lemma FailureCappedAtThree(message: ReceivedMessage, invoice: D365Invoice, result: ApiResult)
    requires !result.success
    ensures LegacyDecide(message, Decoded(invoice), Ok(result)).action == Some(Abandon) <==> message.deliveryCount < 3
    ensures LegacyDecide(message, Decoded(invoice), Ok(result)).action.value.DeadLetter? <==> message.deliveryCount >= 3
  {
  }

  /** The verdict when the settle call (if any) throws `fault`: the catch
      forwards the body with the fault's message after the call. */
  function LegacyOutcome(message: ReceivedMessage, reading: JsonReading, delivery: Result<ApiResult>,
                         fault: Option<Exception>): (v: Verdict)
    ensures v.action == LegacyDecide(message, reading, delivery).action
    ensures fault.None? ==> v == LegacyDecide(message, reading, delivery)
    ensures v.output.None? ==> v.action.Some? && fault.None?
    ensures v.action.Some? && fault.Some? ==> v.output == Forward(message, fault.value).output
  {
    var v := LegacyDecide(message, reading, delivery);
    if v.action.Some? && fault.Some? then Verdict(v.action, Forward(message, fault.value).output) else v
  }

  /** The legacy API clients the receiver can be given. */
  datatype LegacyClient = XeroApi(api: XeroApiClient) | QuickBooksApi {
    /** The objects a call may change. */
    function Objects(): set<object> {
      if XeroApi? then {api} else {}
    }
  }

  /** `_apiClient.CreateInvoiceAsync(invoice)` against the client's default
      headers `h` (ignored by the QuickBooks client). */
  function Delivery(client: LegacyClient, h: DefaultHeaders, invoice: ExternalInvoice): (r: Result<ApiResult>)
    ensures client.XeroApi? ==> r == Ok(CallResult(client.api.env, invoice, h))
    ensures client.QuickBooksApi? ==> r == QuickBooksApiCreateInvoice(invoice)
  {
    match client
    case XeroApi(api) => Ok(CallResult(api.env, invoice, h))
    case QuickBooksApi => QuickBooksApiCreateInvoice(invoice)
  }

  /** With the QuickBooks client every readable invoice is forwarded to the
      output queue and no settle call is made. */
  lemma QuickBooksAlwaysForwards(message: ReceivedMessage, invoice: D365Invoice, t: LegacyTransformer, h: DefaultHeaders)
    ensures var v := LegacyDecide(message, Decoded(invoice), Delivery(QuickBooksApi, h, LegacyTransform(t, invoice)));
      && v.action.None?
      && v.output == Some(DlqMessage(message.body, InvoiceIdProperty(message), QuickBooksNotImplementedMessage))
  {
  }

  /** InvoiceReceiver, holding its transformer and API client. */
  class InvoiceReceiver {
    const transformer: LegacyTransformer
    const client: LegacyClient

    constructor (transformer: LegacyTransformer, client: LegacyClient)
      ensures this.transformer == transformer && this.client == client
    {
      this.transformer := transformer;
      this.client := client;
    }

    /** The client's default headers, or none for the QuickBooks client. */
    function Headers(): DefaultHeaders
      reads client.Objects()
    {
      if client.XeroApi? then client.api.headers else NoHeaders
    }

    /** What the API client answers for a body that reads as `reading`; for
        a body that does not read as an invoice the client is not called, and
        the placeholder returned then plays no part in the verdict. */
    function DeliveryFor(reading: JsonReading, h: DefaultHeaders): Result<ApiResult> {
      if reading.Decoded? then Delivery(client, h, LegacyTransform(transformer, reading.invoice))
      else Throw(Exception(OtherException, ""))
    }

    /** Run: read the body, transform, deliver, settle; returns the output
        message for the dead-letter queue, if any. */
    method Run(message: ReceivedMessage, actions: MessageActions, decode: seq<bv8> -> JsonReading)
      returns (output: Option<DlqMessage>)
      modifies actions, client.Objects()
      ensures var reading := decode(message.body);
        var v := LegacyOutcome(message, reading, DeliveryFor(reading, old(Headers())), old(actions.pendingFault));
        && actions.log == old(actions.log) + (if v.action.Some? then [v.action.value] else [])
        && output == v.output
      ensures client.XeroApi? && decode(message.body).Decoded? ==>
        client.api.headers == HeadersAfterCall(client.api.env, old(client.api.headers))
      ensures client.XeroApi? && !decode(message.body).Decoded? ==> client.api.headers == old(client.api.headers)
    {
      var reading := decode(message.body);
      if reading.Malformed? {
        output := Some(DlqMessage(message.body, InvoiceIdProperty(message), reading.message));
        return;
      }
      if reading.JsonNull? {
        var fault := actions.DeadLetterMessage("Deserialization failed", None);
        output := if fault.Some? then Some(DlqMessage(message.body, InvoiceIdProperty(message), fault.value.message)) else None;
        return;
      }
      var external := LegacyTransform(transformer, reading.invoice);
      var result: ApiResult;
      match client {
        case QuickBooksApi =>
          var e := QuickBooksApiCreateInvoice(external).error;
          output := Some(DlqMessage(message.body, InvoiceIdProperty(message), e.message));
          return;
        case XeroApi(api) =>
          var sent;
          result, sent := api.CreateInvoice(external);
      }
      var fault: Option<Exception>;
      if result.success {
        fault := actions.CompleteMessage();
      } else if message.deliveryCount < 3 {
        fault := actions.AbandonMessage();
      } else {
        fault := actions.DeadLetterMessage("Max retries exceeded: " + OrEmpty(result.errorMessage), None);
      }
      output := if fault.Some? then Some(DlqMessage(message.body, InvoiceIdProperty(message), fault.value.message)) else None;
    }
  }
}
