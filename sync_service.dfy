/** InvoiceSyncService.SyncInvoiceAsync: transform the invoice, hand it to
    the delivery client once, and turn any exception into a Failed result. */
module SyncService {
  import opened Results
  import opened Models
  import opened InvoiceTransformers
  import XeroClient
  import QuickBooksClient

  /** The implementations of IExternalInvoiceClient. */
  datatype Client =
    | XeroInvoiceClient(env: XeroClient.XeroEnvironment)
    | QuickBooksInvoiceClient

  /** `CreateInvoiceAsync`, dispatched on the client. Either client reports
      Success exactly for Synced and never reports DeadLettered. */
  function Deliver(client: Client, invoice: Option<ExternalInvoice>): (r: Result<SyncResult>)
    ensures r.Throw? <==> invoice.None?
    ensures r.Ok? ==> (r.value.success <==> r.value.status == Synced) && r.value.status != DeadLettered
  {
    match client
    case XeroInvoiceClient(env) => XeroClient.CreateInvoiceOutcome(invoice, env)
    case QuickBooksInvoiceClient => QuickBooksClient.CreateInvoiceOutcome(invoice)
  }

  /** The service as constructed: its transformer and its client. */
  datatype InvoiceSyncService = InvoiceSyncService(transformer: Transformer, client: Client)

  /** The message a caught exception leaves in the result. */
  function UnexpectedError(e: Exception): (r: SyncResult)
    ensures !r.success && r.status == Failed && r.externalId.None?
    ensures r.errorMessage == Some("Unexpected error: " + e.message)
  {
    FailedWith("Unexpected error: " + e.message, Failed)
  }

  /** SyncInvoiceAsync. A null invoice throws before the try; after that an
      exception from the transform or the delivery is a Failed result, and a
      delivery that completes is returned as the client reported it. */
  function SyncInvoice(service: InvoiceSyncService, invoice: Option<D365Invoice>): (r: Result<SyncResult>)
    ensures r.Throw? <==> invoice.None?
    ensures r.Throw? ==> r.error == NullArgument("invoice")
    ensures invoice.Some? && Transform(service.transformer, invoice).Throw? ==>
      r == Ok(UnexpectedError(Transform(service.transformer, invoice).error))
  {
    if invoice.None? then Throw(NullArgument("invoice"))
    else Ok(
      match Transform(service.transformer, invoice)
      case Throw(e) => UnexpectedError(e)
      case Ok(external) =>
        match Deliver(service.client, Some(external))
        case Throw(e) => UnexpectedError(e)
        case Ok(result) => result)
  }

  /** SyncInvoiceAsync, step by step: returns the result and the invoices
      handed to the client. There is no retry loop: the client receives the
      transformer's output once, or nothing when the transform throws. */
  method SyncInvoiceAsync(service: InvoiceSyncService, invoice: Option<D365Invoice>)
    returns (r: Result<SyncResult>, handed: seq<ExternalInvoice>)
    ensures r == SyncInvoice(service, invoice)
    ensures |handed| <= 1
    ensures |handed| == 1 <==> invoice.Some? && Transform(service.transformer, invoice).Ok?
    ensures |handed| == 1 ==> handed[0] == Transform(service.transformer, invoice).value
  {
    handed := [];
    if invoice.None? {
      r := Throw(NullArgument("invoice"));
      return;
    }
    var transformed := Transform(service.transformer, invoice);
    if transformed.Throw? {
      r := Ok(UnexpectedError(transformed.error));
      return;
    }
    handed := handed + [transformed.value];
    match Deliver(service.client, Some(transformed.value))
    case Throw(e) => r := Ok(UnexpectedError(e));
    case Ok(result) => r := Ok(result);
  }

  /** When the transform succeeds, the result is the client's answer for
      exactly the transformed invoice, unchanged. */
  lemma ReturnsClientResult(service: InvoiceSyncService, invoice: D365Invoice)
    requires Transform(service.transformer, Some(invoice)).Ok?
    ensures var external := Transform(service.transformer, Some(invoice)).value;
      SyncInvoice(service, Some(invoice)) == Deliver(service.client, Some(external))
  {
  }

  /** The result of a non-null invoice: never thrown, Success exactly for
      Synced, never DeadLettered, and an external id only on success. */
  lemma SyncResultIsConsistent(service: InvoiceSyncService, invoice: D365Invoice)
    ensures var r := SyncInvoice(service, Some(invoice));
      && r.Ok?
      && (r.value.success <==> r.value.status == Synced)
      && r.value.status != DeadLettered
  {
  }

  /** A transform that throws decides the result alone: the client plays no
      part. */
  lemma TransformFailureIgnoresClient(transformer: Transformer, a: Client, b: Client, invoice: D365Invoice)
    requires Transform(transformer, Some(invoice)).Throw?
    ensures SyncInvoice(InvoiceSyncService(transformer, a), Some(invoice))
         == SyncInvoice(InvoiceSyncService(transformer, b), Some(invoice))
  {
  }

  /** With the QuickBooks stub as client nothing is ever synced. */
  lemma QuickBooksClientNeverSyncs(transformer: Transformer, invoice: D365Invoice)
    ensures SyncInvoice(InvoiceSyncService(transformer, QuickBooksInvoiceClient), Some(invoice)).value.status == Failed
  {
  }
}
