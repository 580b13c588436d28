/** The current invoice transformers: D365 invoice to external invoice, for
    Xero (currency unchanged) and QuickBooks (currency upper-cased). */
module InvoiceTransformers {
  import opened Results
  import opened Models
  import Text
  import opened CustomerMapping

  /** TransformLine, identical in both transformers. */
  function TransformLine(line: InvoiceLine): (r: ExternalLine)
    ensures r.description == line.description && r.quantity == line.quantity
    ensures r.unitAmount == line.unitPrice && r.lineTotal == line.lineAmount
  {
    ExternalLine(line.description, line.quantity, line.unitPrice, line.lineAmount)
  }

  /** `Lines.Select(TransformLine).ToList()`: one external line per source
      line, in the same order, each a field copy of its source line. */
  function TransformLines(lines: seq<InvoiceLine>): (r: seq<ExternalLine>)
    ensures |r| == |lines|
    ensures forall i :: 0 <= i < |lines| ==>
      && r[i].description == lines[i].description
      && r[i].quantity == lines[i].quantity
      && r[i].unitAmount == lines[i].unitPrice
      && r[i].lineTotal == lines[i].lineAmount
  {
    if lines == [] then [] else [TransformLine(lines[0])] + TransformLines(lines[1..])
  }

  /** Line mapping commutes with concatenation (batches of lines map independently). */
  lemma {:induction false} TransformLinesAppend(a: seq<InvoiceLine>, b: seq<InvoiceLine>)
    ensures TransformLines(a + b) == TransformLines(a) + TransformLines(b)
  {
    if a != [] {
      assert (a + b)[1..] == a[1..] + b;
      TransformLinesAppend(a[1..], b);
    }
  }

  /** NormalizeCurrency: `ToUpperInvariant`. */
  function NormalizeCurrency(currencyCode: string): (r: string)
    ensures Text.EqualsIgnoreCase(currencyCode, r)
    ensures forall i :: 0 <= i < |r| ==> !Text.IsLowerLetter(r[i])
  {
    Text.ToUpper(currencyCode)
  }

  /** The invoice both transformers build once the contact id is known. */
  function BuildExternal(source: D365Invoice, contactId: string, currency: string): ExternalInvoice {
    ExternalInvoice(
      source.invoiceId, contactId, source.invoiceDate, source.dueDate,
      currency, source.totalAmount, TransformLines(source.lines))
  }

  /** What every successful transform of `source` copies, whatever the backend. */
  ghost predicate CopiesSource(source: D365Invoice, out: ExternalInvoice) {
    && out.reference == source.invoiceId
    && out.date == source.invoiceDate
    && out.dueDate == source.dueDate
    && out.total == source.totalAmount
    && |out.lineItems| == |source.lines|
    && forall i :: 0 <= i < |source.lines| ==>
      && out.lineItems[i].description == source.lines[i].description
      && out.lineItems[i].quantity == source.lines[i].quantity
      && out.lineItems[i].unitAmount == source.lines[i].unitPrice
      && out.lineItems[i].lineTotal == source.lines[i].lineAmount
  }

  /** XeroInvoiceTransformer.Transform: null source rejected; the contact id
      is the mapping service's answer (its exception propagates); currency
      unchanged. */
  function XeroTransform(mapping: MappingService, source: Option<D365Invoice>): (r: Result<ExternalInvoice>)
    ensures source.None? ==> r == Throw(NullArgument("sourceInvoice"))
    ensures source.Some? ==>
      var contact := ExternalContactId(mapping, source.value.customerAccount);
      && (r.Ok? <==> contact.Ok?)
      && (contact.Throw? ==> r == Throw(contact.error))
      && (r.Ok? ==>
            && CopiesSource(source.value, r.value)
            && r.value.contactId == contact.value
            && r.value.currency == source.value.currencyCode)
  {
    match source
    case None => Throw(NullArgument("sourceInvoice"))
    case Some(src) =>
      match ExternalContactId(mapping, src.customerAccount)
      case Throw(e) => Throw(e)
      case Ok(contactId) => Ok(BuildExternal(src, contactId, src.currencyCode))
  }

  /** QuickBooksInvoiceTransformer.Transform: as the Xero transformer, but the
      currency is normalised to upper case. */
  function QuickBooksTransform(mapping: MappingService, source: Option<D365Invoice>): (r: Result<ExternalInvoice>)
    ensures source.None? ==> r == Throw(NullArgument("sourceInvoice"))
    ensures source.Some? ==>
      var contact := ExternalContactId(mapping, source.value.customerAccount);
      && (r.Ok? <==> contact.Ok?)
      && (contact.Throw? ==> r == Throw(contact.error))
      && (r.Ok? ==>
            && CopiesSource(source.value, r.value)
            && r.value.contactId == contact.value
            && r.value.currency == Text.ToUpper(source.value.currencyCode))
  {
    match source
    case None => Throw(NullArgument("sourceInvoice"))
    case Some(src) =>
      match ExternalContactId(mapping, src.customerAccount)
      case Throw(e) => Throw(e)
      case Ok(contactId) => Ok(BuildExternal(src, contactId, NormalizeCurrency(src.currencyCode)))
  }

  /** The two transformers agree on everything but the currency, and there
      they differ only in letter case. */
  lemma VariantsDifferOnlyInCurrency(mapping: MappingService, source: Option<D365Invoice>)
    ensures XeroTransform(mapping, source).Ok? <==> QuickBooksTransform(mapping, source).Ok?
    ensures XeroTransform(mapping, source).Throw? ==> XeroTransform(mapping, source) == QuickBooksTransform(mapping, source)
    ensures XeroTransform(mapping, source).Ok? ==>
      var x := XeroTransform(mapping, source).value;
      var q := QuickBooksTransform(mapping, source).value;
      && q == x.(currency := q.currency)
      && Text.EqualsIgnoreCase(x.currency, q.currency)
  {
  }

  /** An account with no mapping in an empty table becomes the contact id. */
  lemma UnmappedAccountIsContact(source: D365Invoice)
    requires source.customerAccount != ""
    ensures XeroTransform(InMemory(map[]), Some(source)).Ok?
    ensures XeroTransform(InMemory(map[]), Some(source)).value.contactId == source.customerAccount
    ensures QuickBooksTransform(InMemory(map[]), Some(source)).value.contactId == source.customerAccount
  {
  }

  /** An empty customer account makes the in-memory mapping throw, and the
      transform throws with it. */
  lemma EmptyAccountThrows(table: map<string, string>, source: D365Invoice)
    requires source.customerAccount == ""
    ensures XeroTransform(InMemory(table), Some(source)) == Throw(Exception(ArgumentException, EmptyAccountMessage))
    ensures QuickBooksTransform(InMemory(table), Some(source)) == Throw(Exception(ArgumentException, EmptyAccountMessage))
  {
  }

  /** The transformers of IInvoiceTransformer, each holding its mapping service. */
  datatype Transformer =
    | XeroInvoiceTransformer(mapping: MappingService)
    | QuickBooksInvoiceTransformer(mapping: MappingService)

  /** `Transform`, dispatched on the transformer. */
  function Transform(t: Transformer, source: Option<D365Invoice>): (r: Result<ExternalInvoice>)
    ensures source.Some? && r.Ok? ==> CopiesSource(source.value, r.value)
    ensures source.None? ==> r.Throw? && r.error.kind == ArgumentNullException
  {
    match t
    case XeroInvoiceTransformer(m) => XeroTransform(m, source)
    case QuickBooksInvoiceTransformer(m) => QuickBooksTransform(m, source)
  }
}
