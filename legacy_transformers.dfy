/** The legacy transformers and TransformerFactory: no mapping service (the
    contact id is the customer account), no null check. */
module LegacyTransformers {
  import opened Results
  import opened Models
  import Text
  import opened CustomerMapping
  import opened InvoiceTransformers
  import opened BackendSelection

  /** The legacy XeroInvoiceTransformer's MapCustomerToContact: the identity. */
  function MapCustomerToContact(customerAccount: string): (contactId: string)
    ensures contactId == customerAccount
  {
    customerAccount
  }

  /** Legacy XeroInvoiceTransformer.Transform. */
  function LegacyXeroTransform(source: D365Invoice): (r: ExternalInvoice)
    ensures CopiesSource(source, r)
    ensures r.contactId == source.customerAccount
    ensures r.currency == source.currencyCode
  {
    ExternalInvoice(
      source.invoiceId, MapCustomerToContact(source.customerAccount),
      source.invoiceDate, source.dueDate, source.currencyCode, source.totalAmount,
      TransformLines(source.lines))
  }

  /** Legacy QuickBooksTransformer.Transform: MapCurrency is `ToUpper`. */
  function LegacyQuickBooksTransform(source: D365Invoice): (r: ExternalInvoice)
    ensures CopiesSource(source, r)
    ensures r.contactId == source.customerAccount
    ensures r.currency == Text.ToUpper(source.currencyCode)
  {
    ExternalInvoice(
      source.invoiceId, source.customerAccount,
      source.invoiceDate, source.dueDate, Text.ToUpper(source.currencyCode), source.totalAmount,
      TransformLines(source.lines))
  }

  /** The legacy transformers are the current ones over the SQL stub mapping,
      and over an empty in-memory table for a non-empty account. */
  lemma LegacyMatchesCurrent(source: D365Invoice)
    ensures XeroTransform(SqlStub, Some(source)) == Ok(LegacyXeroTransform(source))
    ensures QuickBooksTransform(SqlStub, Some(source)) == Ok(LegacyQuickBooksTransform(source))
    ensures source.customerAccount != "" ==>
      && XeroTransform(InMemory(map[]), Some(source)) == Ok(LegacyXeroTransform(source))
      && QuickBooksTransform(InMemory(map[]), Some(source)) == Ok(LegacyQuickBooksTransform(source))
  {
  }

  datatype LegacyTransformer = LegacyXeroTransformer | LegacyQuickBooksTransformer

  /** `Transform`, dispatched on the legacy transformer. */
  function LegacyTransform(t: LegacyTransformer, source: D365Invoice): (r: ExternalInvoice)
    ensures CopiesSource(source, r) && r.contactId == source.customerAccount
  {
    match t
    case LegacyXeroTransformer => LegacyXeroTransform(source)
    case LegacyQuickBooksTransformer => LegacyQuickBooksTransform(source)
  }

  /** TransformerFactory.CreateTransformer. */
  function CreateTransformer(setting: Option<string>): (r: Result<LegacyTransformer>)
    ensures r == Ok(LegacyXeroTransformer) <==> Names(setting, Xero)
    ensures r == Ok(LegacyQuickBooksTransformer) <==> Names(setting, QuickBooks)
    ensures r.Throw? ==>
      r.error == Exception(NotSupportedException, "External system '" + SystemType(setting) + "' not supported")
  {
    SelectionMatchesNames(setting, Xero);
    SelectionMatchesNames(setting, QuickBooks);
    match BackendNamed(SystemType(setting))
    case Some(Xero) => Ok(LegacyXeroTransformer)
    case Some(QuickBooks) => Ok(LegacyQuickBooksTransformer)
    case None => Throw(Exception(NotSupportedException, "External system '" + SystemType(setting) + "' not supported"))
  }
}
