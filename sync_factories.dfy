/** SyncFactoryResolver and the two sync factories: the choice of
    transformer and delivery client from the ExternalSystemType setting. */
module SyncFactories {
  import opened Results
  import opened BackendSelection
  import opened CustomerMapping
  import opened InvoiceTransformers
  import opened SyncService
  import XeroClient

  datatype SyncFactory = XeroSyncFactory | QuickBooksSyncFactory

  /** SyncFactoryResolver.Resolve. */
  function Resolve(setting: Option<string>): (r: Result<SyncFactory>)
    ensures r == Ok(XeroSyncFactory) <==> Names(setting, Xero)
    ensures r == Ok(QuickBooksSyncFactory) <==> Names(setting, QuickBooks)
    ensures r.Throw? ==>
      r.error == Exception(NotSupportedException, "External system '" + SystemType(setting) + "' is not supported")
  {
    SelectionMatchesNames(setting, Xero);
    SelectionMatchesNames(setting, QuickBooks);
    match BackendNamed(SystemType(setting))
    case Some(Xero) => Ok(XeroSyncFactory)
    case Some(QuickBooks) => Ok(QuickBooksSyncFactory)
    case None => Throw(Exception(NotSupportedException, "External system '" + SystemType(setting) + "' is not supported"))
  }

  /** CreateTransformer: the transformer for the factory's system, over the
      registered mapping service. */
  function CreateTransformer(factory: SyncFactory, mapping: MappingService): (t: Transformer)
    ensures t.mapping == mapping
    ensures t.XeroInvoiceTransformer? <==> factory == XeroSyncFactory
  {
    match factory
    case XeroSyncFactory => XeroInvoiceTransformer(mapping)
    case QuickBooksSyncFactory => QuickBooksInvoiceTransformer(mapping)
  }

  const QuickBooksClientMessage := "QuickBooks client not yet implemented"

  /** CreateClient: the Xero factory yields the Xero client; the QuickBooks
      factory always throws. */
  function CreateClient(factory: SyncFactory, env: XeroClient.XeroEnvironment): (r: Result<Client>)
    ensures r.Ok? <==> factory == XeroSyncFactory
    ensures r.Ok? ==> r.value == XeroInvoiceClient(env)
    ensures r.Throw? ==> r.error == Exception(NotImplementedException, QuickBooksClientMessage)
  {
    match factory
    case XeroSyncFactory => Ok(XeroInvoiceClient(env))
    case QuickBooksSyncFactory => Throw(Exception(NotImplementedException, QuickBooksClientMessage))
  }

  /** Whatever the setting, a factory the resolver returns yields a client
      only for Xero: the QuickBooksInvoiceClient is never produced, and a
      "quickbooks" setting yields no client at all. */
  lemma OnlyXeroYieldsClient(setting: Option<string>, env: XeroClient.XeroEnvironment)
    requires Resolve(setting).Ok?
    ensures CreateClient(Resolve(setting).value, env).Ok? <==> Names(setting, Xero)
    ensures CreateClient(Resolve(setting).value, env).Ok? ==>
      CreateClient(Resolve(setting).value, env).value.XeroInvoiceClient?
    ensures Names(setting, QuickBooks) ==>
      && CreateTransformer(Resolve(setting).value, InMemory(map[])).QuickBooksInvoiceTransformer?
      && CreateClient(Resolve(setting).value, env).Throw?
  {
  }
}
