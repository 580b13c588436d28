/** QuickBooksInvoiceClient.CreateInvoiceAsync: a stub that rejects a null
    invoice and otherwise always reports a permanent failure. */
module QuickBooksClient {
  import opened Results
  import opened Models

  const NotImplementedMessage :=
    "QuickBooks integration not yet implemented. Configure ExternalSystemType=xero or implement QuickBooks support."

  /** Never a success, never retryable, never an external id: a fixed
      "not yet implemented" failure. */
  function CreateInvoiceOutcome(invoice: Option<ExternalInvoice>): (r: Result<SyncResult>)
    ensures r.Throw? <==> invoice.None?
    ensures r.Throw? ==> r.error == NullArgument("invoice")
    ensures r.Ok? ==>
      && !r.value.success
      && r.value.status == Failed
      && r.value.externalId.None?
      && r.value.errorMessage.Some? && |r.value.errorMessage.value| > 0
  {
    if invoice.None? then Throw(NullArgument("invoice"))
    else Ok(FailedWith(NotImplementedMessage, Failed))
  }

  /** The answer does not depend on the invoice's contents. */
  lemma IndependentOfInvoice(a: ExternalInvoice, b: ExternalInvoice)
    ensures CreateInvoiceOutcome(Some(a)) == CreateInvoiceOutcome(Some(b))
    ensures CreateInvoiceOutcome(Some(a)).value.status != Retryable
  {
  }
}
