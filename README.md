# D365 invoice sync: a verified model of the delivery pipeline

This project models the invoice-delivery pipeline of the D365 invoice sync
Azure Functions app in Dafny and proves properties about it. A Dynamics 365
invoice arrives on the `invoice-posted` Service Bus topic. It is read,
transformed into a target-neutral external invoice (customer account mapped
to a contact id, lines copied one to one) and handed to a delivery client,
which posts it to Xero. QuickBooks is a stub. The outcome (Synced, Retryable
or Failed) decides how the message is settled: Complete, Abandon or
DeadLetter.

Two versions of the pipeline exist side by side, and both are modelled:

- The current one: `InvoiceSyncFunction`, `InvoiceSyncService`, the
  factories, the transformers over the customer mapping service and
  `XeroInvoiceClient`.
- The legacy one: `InvoiceReceiver`, the legacy transformers,
  `XeroApiClient` and `ApiClientFactory`.

Each core source file has one Dafny module:

| module | file | source |
|---|---|---|
| `CustomerMapping` | customer_mapping.dfy | `InMemoryCustomerMappingService` (a class whose `AddMapping` updates its map) and the SQL stub |
| `InvoiceTransformers` | invoice_transformers.dfy | the current Xero and QuickBooks transformers |
| `LegacyTransformers` | legacy_transformers.dfy | the legacy transformers and `TransformerFactory` |
| `BackendSelection` | backend_selection.dfy | the `ExternalSystemType` switch shared by the three factories |
| `XeroWire` | xero_wire.dfy | the Xero request payload, `Guid.Parse`, `yyyy-MM-dd` dates, the HTTP request and response as the clients see them, `HttpStatusCode` names |
| `XeroClient` | xero_client.dfy | `XeroInvoiceClient.CreateInvoiceAsync`, as a specification function and a step-by-step method proved equal to it |
| `QuickBooksClient` | quickbooks_client.dfy | the stub client |
| `LegacyApiClients` | legacy_api_clients.dfy | `XeroApiClient` (a class holding the HttpClient's default headers), `QuickBooksApiClient`, `ApiClientFactory` |
| `SyncService` | sync_service.dfy | `InvoiceSyncService.SyncInvoiceAsync` |
| `SyncFactories` | sync_factories.dfy | `SyncFactoryResolver` and the two sync factories |
| `ServiceBus` | service_bus.dfy | the received message, how its body reads, and `ServiceBusMessageActions` as a class that logs settle calls |
| `SyncFunction` | sync_function.dfy | `InvoiceSyncFunction` |
| `LegacyReceiver` | legacy_receiver.dfy | `InvoiceReceiver` |
| `PipelineProperties` | pipeline_properties.dfy | how the two versions diverge on the same message; how a non-GUID account ends in the dead-letter queue |

The remaining modules are shared:

- `Results`: `Option`, exceptions, and `Result` (returns or throws).
- `Text`: ASCII case mapping, .NET white space and trimming, and decimal digits.
- `Models`: the records of `Domain/Models/InvoiceModels.cs`.

Outside inputs are parameters, not I/O:

- the secret store's answers are `Result<string>` values;
- the HTTP round trip is a function from request to `Result<HttpResponse>`;
- JSON reading of a message body is a function from bytes to `JsonReading`.

An exception is a `Throw` carrying the exception's type and message. A
settle call that fails is modelled as a pending fault on `MessageActions`.

Behaviour of the code worth knowing, which the model keeps:

- A failed secret fetch is caught by the general catch and is `Failed`, not
  `Retryable`.
- A timeout (`TaskCanceledException`) is also `Failed`. Only
  `HttpRequestException` is retryable.
- A 2xx response whose body lists no invoice is `Synced` with no external
  id.
- The legacy receiver caps every failure at a delivery count of 3, retryable
  or not, while the current function abandons a Retryable result on every
  delivery.
- A customer account such as "CUST-A" is not a GUID, so with no mapping entry
  the current client fails with Guid.Parse's text, and the message is
  dead-lettered as a permanent failure.

## Model

| member | source | states |
|---|---|---|
| `Results.OrEmpty` | src/AzureFunctions/InvoiceReceiver.cs:80 | a null string interpolates as the empty string |
| `Models.NullArgument` | src/AzureFunctions/Infrastructure/ExternalApis/XeroInvoiceClient.cs:32 | `ThrowIfNull` raises an ArgumentNullException |
| `Text.ToUpper` | src/AzureFunctions/Infrastructure/Transformers/InvoiceTransformers.cs:83-86 | `ToUpperInvariant`: equal to the input ignoring case, with no lower-case letter |
| `Text.ToLower` | src/AzureFunctions/Infrastructure/Factories/SyncFactories.cs:56 | `ToLowerInvariant`: equal to the input ignoring case, with no upper-case letter |
| `Text.TrimRemovesSurroundingWhiteSpace` | src/AzureFunctions/Infrastructure/ExternalApis/XeroInvoiceClient.cs:111 | trimming removes exactly the white space around a string, as Guid.Parse does before reading it |
| `Text.ToUpperMatchesIgnoreCase` | src/AzureFunctions/Infrastructure/Services/CustomerMappingServices.cs:15 | two accounts have the same upper-case key exactly when they are equal under OrdinalIgnoreCase, so a map keyed by the upper-cased account is the case-insensitive dictionary |
| `Text.ToLowerMatchesLiteral` | src/AzureFunctions/Infrastructure/Factories/SyncFactories.cs:56 | a setting lower-cases to a lower-case name exactly when it equals that name ignoring case |
| `Text.PadDecimalRoundTrip` | src/AzureFunctions/Infrastructure/ExternalApis/XeroInvoiceClient.cs:112-113 | a zero-padded field of a date reads back as the number it was written from |
| `CustomerMapping.LookupContact` | src/AzureFunctions/Infrastructure/Services/CustomerMappingServices.cs:18-34 | throws ArgumentException exactly for an empty account; an account with no entry comes back unchanged |
| `CustomerMapping.LookupFindsKeyIgnoringCase` | src/AzureFunctions/Infrastructure/Services/CustomerMappingServices.cs:22-27 | a stored key equal to the account ignoring case answers with its mapped value |
| `CustomerMapping.LookupFallsBackToAccount` | src/AzureFunctions/Infrastructure/Services/CustomerMappingServices.cs:29-33 | an account that no key matches, even ignoring case, is returned as is |
| `CustomerMapping.LookupIgnoresCase` | src/AzureFunctions/Infrastructure/Services/CustomerMappingServices.cs:15-22 | accounts differing only in letter case get the same answer |
| `CustomerMapping.LookupAfterAdd` | src/AzureFunctions/Infrastructure/Services/CustomerMappingServices.cs:36-39 | after an insert, the account (in any case) maps to the new id (last write wins), and every other lookup is unchanged |
| `CustomerMapping.ExternalContactId` | src/AzureFunctions/Infrastructure/Services/CustomerMappingServices.cs:54-60 | the SQL stub returns its input unchanged, including the empty string; the in-memory service is the table lookup |
| `CustomerMapping.EmptyTableIsIdentity` | src/AzureFunctions/Infrastructure/Services/CustomerMappingServices.cs:15 | a freshly built service acts as the identity on non-empty accounts, like the SQL stub |
| `CustomerMapping.InMemoryCustomerMappingService.constructor` | src/AzureFunctions/Infrastructure/Services/CustomerMappingServices.cs:10-16 | a new service has an empty table |
| `CustomerMapping.InMemoryCustomerMappingService.GetExternalContactId` | src/AzureFunctions/Infrastructure/Services/CustomerMappingServices.cs:18-34 | answers as the table lookup on the service's current table |
| `CustomerMapping.InMemoryCustomerMappingService.AddMapping` | src/AzureFunctions/Infrastructure/Services/CustomerMappingServices.cs:36-39 | inserts or overwrites the account's entry, keeps every other key, and keeps the keys in folded form |
| `CustomerMapping.AddThenLookup` | src/AzureFunctions/Infrastructure/Services/CustomerMappingServices.cs:18-39 | on a new service, after `AddMapping`, the lower-cased account finds the id and an unrelated account falls back to itself |
| `InvoiceTransformers.TransformLine` | src/AzureFunctions/Infrastructure/Transformers/InvoiceTransformers.cs:33-42 | one external line from one source line: Description and Quantity copied, UnitAmount = UnitPrice, LineTotal = LineAmount |
| `InvoiceTransformers.TransformLines` | src/AzureFunctions/Infrastructure/Transformers/InvoiceTransformers.cs:29-42 | one external line per source line, in order: Description and Quantity copied, UnitAmount = UnitPrice, LineTotal = LineAmount |
| `InvoiceTransformers.TransformLinesAppend` | src/AzureFunctions/Infrastructure/Transformers/InvoiceTransformers.cs:29 | line mapping distributes over concatenation |
| `InvoiceTransformers.NormalizeCurrency` | src/AzureFunctions/Infrastructure/Transformers/InvoiceTransformers.cs:83-86 | the result equals the input ignoring case and has no lower-case letter |
| `InvoiceTransformers.XeroTransform` | src/AzureFunctions/Infrastructure/Transformers/InvoiceTransformers.cs:15-31 | null source gives ArgumentNullException; the mapping's exception propagates; otherwise Reference, dates, Total and lines are copied, ContactId is the mapping's answer, and Currency is unchanged |
| `InvoiceTransformers.QuickBooksTransform` | src/AzureFunctions/Infrastructure/Transformers/InvoiceTransformers.cs:54-70 | as the Xero transformer, but Currency is upper-cased |
| `InvoiceTransformers.VariantsDifferOnlyInCurrency` | src/AzureFunctions/Infrastructure/Transformers/InvoiceTransformers.cs:15-70 | the two transformers succeed or throw together and agree on every field except Currency, which differs only in case |
| `InvoiceTransformers.UnmappedAccountIsContact` | src/AzureFunctions/Infrastructure/Transformers/InvoiceTransformers.cs:19-24 | with an empty table a non-empty account becomes the ContactId |
| `InvoiceTransformers.EmptyAccountThrows` | src/AzureFunctions/Infrastructure/Services/CustomerMappingServices.cs:20 | an empty account makes both transformers throw the mapping's ArgumentException |
| `InvoiceTransformers.Transform` | src/AzureFunctions/Infrastructure/Transformers/InvoiceTransformers.cs:15-70 | every successful transform copies the source's fields and lines; a null source throws ArgumentNullException |
| `LegacyTransformers.MapCustomerToContact` | src/AzureFunctions/Transformers.cs:25-30 | the contact id is the customer account itself |
| `LegacyTransformers.LegacyXeroTransform` | src/AzureFunctions/Transformers.cs:5-30 | fields and lines copied, ContactId = CustomerAccount through the identity mapping, Currency unchanged |
| `LegacyTransformers.LegacyQuickBooksTransform` | src/AzureFunctions/Transformers.cs:35-60 | fields and lines copied, ContactId = CustomerAccount, Currency upper-cased |
| `LegacyTransformers.LegacyMatchesCurrent` | src/AzureFunctions/Transformers.cs:5-60 | the legacy transformers are the current ones over the SQL stub, and over an empty in-memory table for a non-empty account |
| `LegacyTransformers.LegacyTransform` | src/AzureFunctions/Transformers.cs:5-54 | both legacy transformers copy the source and use the account as the contact |
| `LegacyTransformers.CreateTransformer` | src/AzureFunctions/Transformers.cs:72-82 | selects the Xero or QuickBooks transformer exactly for the names each answers to (null counts as "xero", case ignored); otherwise NotSupportedException "External system '…' not supported" |
| `BackendSelection.SystemType` | src/AzureFunctions/Infrastructure/Factories/SyncFactories.cs:56 | an unset setting is "xero"; a set one is lower-cased, keeping its letters |
| `BackendSelection.BackendNamed` | src/AzureFunctions/Infrastructure/Factories/SyncFactories.cs:58-63 | only a name with no upper-case letter selects, and it selects the backend that answers to it: "xero" Xero, "quickbooks" QuickBooks; any other name selects nothing |
| `BackendSelection.SelectionMatchesNames` | src/AzureFunctions/Infrastructure/Factories/SyncFactories.cs:56-62 | a backend is selected if and only if the setting names it ignoring case (Xero also when unset) |
| `BackendSelection.UnknownNameSelectsNothing` | src/AzureFunctions/Infrastructure/Factories/SyncFactories.cs:62 | a setting that names neither backend selects none |
| `XeroWire.ParseGuid` | src/AzureFunctions/Infrastructure/ExternalApis/XeroInvoiceClient.cs:111 | the string is trimmed first; a parsed GUID has 32 hex digits and its trimmed string has length 32, 36 or 38; every rejection is a FormatException carrying one of Guid.Parse's texts; a blank string is "Unrecognized Guid format." |
| `XeroWire.GuidRoundTrip` | src/AzureFunctions/Infrastructure/ExternalApis/XeroInvoiceClient.cs:111 | a GUID written in the "N", "D", "B" or "P" layout, with lower- or upper-case digits and any white space around it, parses back to itself |
| `XeroWire.WrongLengthIsNotGuid` | src/AzureFunctions/Infrastructure/ExternalApis/XeroInvoiceClient.cs:111 | a string whose trimmed length is not 32, 36 or 38 is never a GUID, and unless it is blank or an "X"-form candidate the text is the "32 digits with 4 dashes" one |
| `XeroWire.BlankIsUnrecognized` | src/AzureFunctions/Infrastructure/ExternalApis/XeroInvoiceClient.cs:111 | white space alone is "Unrecognized Guid format." |
| `XeroWire.NonHexDigitIsRejected` | src/AzureFunctions/Infrastructure/ExternalApis/XeroInvoiceClient.cs:111 | 32 characters with a non-hex one give "Guid string should only contain hexadecimal characters." |
| `XeroWire.TooManyDigitsIsRejected` | src/AzureFunctions/Infrastructure/ExternalApis/XeroInvoiceClient.cs:111 | 40 digits give the "32 digits with 4 dashes" text |
| `XeroWire.MisplacedDashIsRejected` | src/AzureFunctions/Infrastructure/ExternalApis/XeroInvoiceClient.cs:111 | 36 characters with a dash out of place give "Dashes are in the wrong position for GUID parsing." |
| `XeroWire.AccountCodeIsRejected` | src/AzureFunctions/Infrastructure/ExternalApis/XeroInvoiceClient.cs:111 | "CUST-A" holds a dash, is read as the "D" form and gets the "32 digits with 4 dashes" text |
| `XeroWire.FormatIsoDate` | src/AzureFunctions/Infrastructure/ExternalApis/XeroInvoiceClient.cs:112-113 | the rendered date has ten characters, with dashes at positions 4 and 7 |
| `XeroWire.IsoDateRoundTrip` | src/AzureFunctions/Infrastructure/ExternalApis/XeroInvoiceClient.cs:112-113 | the `yyyy-MM-dd` rendering reads back as the same date |
| `XeroWire.MapLineItems` | src/AzureFunctions/Infrastructure/ExternalApis/XeroInvoiceClient.cs:116-123 | one item per external line, in order, UnitAmount copied, LineAmount = LineTotal, AccountCode "200" |
| `XeroWire.Payload` | src/AzureFunctions/Infrastructure/ExternalApis/XeroInvoiceClient.cs:106-125 | Type "ACCREC", the given contact, Reference and Currency copied, both dates in `yyyy-MM-dd` form that reads back to the invoice's dates, the mapped lines |
| `XeroWire.FirstInvoiceId` | src/AzureFunctions/Infrastructure/ExternalApis/XeroInvoiceClient.cs:48-54 | when the body lists at least one invoice the id is the first one's InvoiceID (itself possibly null); otherwise there is none |
| `XeroWire.StatusName` | src/AzureFunctions/Infrastructure/ExternalApis/XeroInvoiceClient.cs:66 | every status code prints as a non-empty name |
| `XeroClient.IsRetryableStatusCode` | src/AzureFunctions/Infrastructure/ExternalApis/XeroInvoiceClient.cs:92-98 | a retryable code (429, 503, 504) is a 4xx or 5xx error code, never a success |
| `XeroClient.RetryableCodesAreErrors` | src/AzureFunctions/Infrastructure/ExternalApis/XeroInvoiceClient.cs:92-98 | the retryable codes 429, 503 and 504 are never success codes |
| `XeroClient.MapToXeroInvoice` | src/AzureFunctions/Infrastructure/ExternalApis/XeroInvoiceClient.cs:106-125 | succeeds exactly when the contact id is a GUID, with the payload for that GUID; otherwise throws Guid.Parse's exception |
| `XeroClient.CatchOutcome` | src/AzureFunctions/Infrastructure/ExternalApis/XeroInvoiceClient.cs:70-89 | HttpRequestException gives Retryable with "Network error: "; every other exception gives Failed with "Unexpected error: " |
| `XeroClient.ResponseOutcome` | src/AzureFunctions/Infrastructure/ExternalApis/XeroInvoiceClient.cs:46-68 | Synced exactly for a 2xx response with a readable body; Retryable exactly for 429/503/504; a non-2xx response fails with "Xero API error: {status}" |
| `XeroClient.SentRequest` | src/AzureFunctions/Infrastructure/ExternalApis/XeroInvoiceClient.cs:36-43 | a request goes out exactly when the invoice is non-null, the token is fetched and the contact is a GUID |
| `XeroClient.CreateInvoiceOutcome` | src/AzureFunctions/Infrastructure/ExternalApis/XeroInvoiceClient.cs:30-90 | throws only for a null invoice; on every return Success holds exactly when the status is Synced and exactly when there is no error message, an external id only on success, never DeadLettered |
| `XeroClient.CreateInvoice` | src/AzureFunctions/Infrastructure/ExternalApis/XeroInvoiceClient.cs:30-90 | the step-by-step call returns `CreateInvoiceOutcome` and sends exactly `SentRequest` |
| `XeroClient.SentRequestHasOneTenant` | src/AzureFunctions/Infrastructure/ExternalApis/XeroInvoiceClient.cs:38-41 | the request carries the bearer token, exactly one Xero-tenant-id and the mapped payload |
| `XeroClient.ClassifiesResponse` | src/AzureFunctions/Infrastructure/ExternalApis/XeroInvoiceClient.cs:46-68 | the full classification of a response to the sent request |
| `XeroClient.ClassifiesSendException` | src/AzureFunctions/Infrastructure/ExternalApis/XeroInvoiceClient.cs:70-89 | a send that throws is Retryable exactly for HttpRequestException |
| `XeroClient.TokenFailureIsNotSent` | src/AzureFunctions/Infrastructure/ExternalApis/XeroInvoiceClient.cs:100-104 | a failed token fetch sends nothing and, from the secret store, is Failed |
| `XeroClient.NonGuidContactFails` | src/AzureFunctions/Infrastructure/ExternalApis/XeroInvoiceClient.cs:106-111 | a non-GUID contact sends nothing and fails with "Unexpected error: " followed by Guid.Parse's text for that contact |
| `XeroClient.ClassificationExamples` | src/AzureFunctions/Infrastructure/ExternalApis/XeroInvoiceClient.cs:46-68 | 429 is Retryable, 404 is Failed with "Xero API error: NotFound", 201 with an id is Synced with that id |
| `QuickBooksClient.CreateInvoiceOutcome` | src/AzureFunctions/Infrastructure/ExternalApis/QuickBooksInvoiceClient.cs:27-45 | null throws ArgumentNullException; otherwise never Success, always Failed, no ExternalId, a non-empty message |
| `QuickBooksClient.IndependentOfInvoice` | src/AzureFunctions/Infrastructure/ExternalApis/QuickBooksInvoiceClient.cs:39-44 | the result does not depend on the invoice and is never Retryable |
| `LegacyApiClients.Caught` | src/AzureFunctions/ExternalApiClients.cs:89-97 | an exception becomes a failure whose message is the exception's message |
| `LegacyApiClients.ResponseResult` | src/AzureFunctions/ExternalApiClients.cs:65-87 | success exactly for 2xx with a readable body, with the first InvoiceID; otherwise "Xero API returned {status}: {body}" |
| `LegacyApiClients.HeadersAfterCall` | src/AzureFunctions/ExternalApiClients.cs:33-36 | Authorization is overwritten once the token is fetched; one tenant id is appended once the tenant is fetched |
| `LegacyApiClients.LegacySentRequest` | src/AzureFunctions/ExternalApiClients.cs:33-63 | a request is posted exactly when both secrets are fetched; it carries all accumulated tenant ids plus the new one, and the raw ContactId |
| `LegacyApiClients.CallResult` | src/AzureFunctions/ExternalApiClients.cs:29-98 | never throws; Success exactly when there is no error message; an external id only on success; a failed secret fetch is caught with its message |
| `LegacyApiClients.LegacyClassifiesResponse` | src/AzureFunctions/ExternalApiClients.cs:65-87 | a posted request's response decides the result: success exactly for a readable 2xx, with the first returned InvoiceID; otherwise "Xero API returned {status}: {body}" |
| `LegacyApiClients.LegacyClassifiesSendException` | src/AzureFunctions/ExternalApiClients.cs:89-97 | a post that throws gives a failure carrying the exception's message |
| `LegacyApiClients.XeroApiClient.constructor` | src/AzureFunctions/ExternalApiClients.cs:16-27 | a new client starts with no default headers |
| `LegacyApiClients.XeroApiClient.CreateInvoice` | src/AzureFunctions/ExternalApiClients.cs:29-98 | returns `CallResult`, posts `LegacySentRequest` and leaves the headers as `HeadersAfterCall` |
| `LegacyApiClients.TenantHeaderAccumulates` | src/AzureFunctions/ExternalApiClients.cs:36 | after n calls on one client the default headers hold the tenant id n times |
| `LegacyApiClients.SentTenantsGrow` | src/AzureFunctions/ExternalApiClients.cs:36 | call number n + 1 sends the tenant id n + 1 times |
| `LegacyApiClients.SecondCallSendsTenantTwice` | src/AzureFunctions/ExternalApiClients.cs:34-36 | on one new client the first request has one tenant id and the second has two |
| `LegacyApiClients.AgreesWithCurrentOnSuccess` | src/AzureFunctions/ExternalApiClients.cs:65-75 | on any response the legacy success flag equals the current client's Synced, with the same external id |
| `LegacyApiClients.QuickBooksApiCreateInvoice` | src/AzureFunctions/ExternalApiClients.cs:131-136 | always throws NotImplementedException |
| `LegacyApiClients.CreateClient` | src/AzureFunctions/ExternalApiClients.cs:150-160 | the Xero or QuickBooks client exactly for the names each answers to; otherwise NotSupportedException |
| `SyncService.Deliver` | src/AzureFunctions/Application/Services/InvoiceSyncService.cs:31 | either client throws only for null, and reports Success exactly for Synced |
| `SyncService.UnexpectedError` | src/AzureFunctions/Application/Services/InvoiceSyncService.cs:46-55 | a caught exception gives no success, status Failed, no external id and the message "Unexpected error: " + the exception's message |
| `SyncService.SyncInvoice` | src/AzureFunctions/Application/Services/InvoiceSyncService.cs:22-56 | throws ArgumentNullException only for null, outside the catch; a transform that throws gives the Failed result |
| `SyncService.SyncInvoiceAsync` | src/AzureFunctions/Application/Services/InvoiceSyncService.cs:22-56 | the step-by-step call returns `SyncInvoice`'s result and hands the client at most one invoice: the transformer's output exactly when the transform succeeds |
| `SyncService.ReturnsClientResult` | src/AzureFunctions/Application/Services/InvoiceSyncService.cs:30-44 | the client receives exactly the transformer's output, and its result is returned unchanged |
| `SyncService.SyncResultIsConsistent` | src/AzureFunctions/Application/Services/InvoiceSyncService.cs:28-55 | for a non-null invoice the result never throws, has Success exactly for Synced, and is never DeadLettered |
| `SyncService.TransformFailureIgnoresClient` | src/AzureFunctions/Application/Services/InvoiceSyncService.cs:30-31 | when the transform throws, the client is not called and plays no part |
| `SyncService.QuickBooksClientNeverSyncs` | src/AzureFunctions/Infrastructure/ExternalApis/QuickBooksInvoiceClient.cs:39-44 | a service over the QuickBooks stub always ends Failed |
| `SyncFactories.Resolve` | src/AzureFunctions/Infrastructure/Factories/SyncFactories.cs:54-64 | the Xero or QuickBooks factory exactly for the names each answers to; otherwise NotSupportedException "External system '…' is not supported" |
| `SyncFactories.CreateTransformer` | src/AzureFunctions/Infrastructure/Factories/SyncFactories.cs:20-37 | each factory's own transformer, over the registered mapping |
| `SyncFactories.CreateClient` | src/AzureFunctions/Infrastructure/Factories/SyncFactories.cs:23-40 | the Xero client from the Xero factory; NotImplementedException from the QuickBooks factory |
| `SyncFactories.OnlyXeroYieldsClient` | src/AzureFunctions/Infrastructure/Factories/SyncFactories.cs:36-40 | a resolved factory yields a client exactly when the setting names Xero; the QuickBooks client is never produced |
| `ServiceBus.InvoiceIdProperty` | src/AzureFunctions/InvoiceReceiver.cs:35 | the InvoiceId property, or "unknown" when absent |
| `ServiceBus.MessageActions.CompleteMessage` | src/AzureFunctions/Functions/InvoiceSyncFunction.cs:85 | appends Complete to the settle log and throws the pending fault once |
| `ServiceBus.MessageActions.AbandonMessage` | src/AzureFunctions/Functions/InvoiceSyncFunction.cs:90 | appends Abandon to the settle log and throws the pending fault once |
| `ServiceBus.MessageActions.DeadLetterMessage` | src/AzureFunctions/Functions/InvoiceSyncFunction.cs:95 | appends the dead-letter with its reason and description and throws the pending fault once |
| `SyncFunction.DeserializeInvoice` | src/AzureFunctions/Functions/InvoiceSyncFunction.cs:63-73 | an invoice exactly when the body decodes to one; malformed JSON and `null` both give null |
| `SyncFunction.HandleResult` | src/AzureFunctions/Functions/InvoiceSyncFunction.cs:81-102 | Complete exactly for Synced, Abandon exactly for Retryable, Failed dead-lettered "PermanentFailure" with the result's message, any other status "UnknownStatus" |
| `SyncFunction.HandleException` | src/AzureFunctions/Functions/InvoiceSyncFunction.cs:112-124 | Abandon exactly when the delivery count is below the maximum, otherwise "MaxRetriesExceeded" with the exception's message |
| `SyncFunction.Decide` | src/AzureFunctions/Functions/InvoiceSyncFunction.cs:42-60 | an unreadable body is dead-lettered "DeserializationFailed"; a result goes to HandleResult, an exception to HandleException |
| `SyncFunction.UnreadableBodyIgnoresSync` | src/AzureFunctions/Functions/InvoiceSyncFunction.cs:44-50 | an unreadable body gets the same dead-letter whatever the sync outcome and the delivery count |
| `SyncFunction.ResultIgnoresDeliveryCount` | src/AzureFunctions/Functions/InvoiceSyncFunction.cs:88-91 | a returned result is settled regardless of delivery count; Retryable is always abandoned |
| `SyncFunction.AbandonsExactly` | src/AzureFunctions/Functions/InvoiceSyncFunction.cs:81-124 | Abandon if and only if the body was read and either the result is Retryable or an exception came below the maximum |
| `SyncFunction.Issued` | src/AzureFunctions/Functions/InvoiceSyncFunction.cs:42-60 | one or two settle calls, the first the decided one; without a fault exactly one and nothing escapes; a second call only handles the fault |
| `SyncFunction.FaultInTryIsHandled` | src/AzureFunctions/Functions/InvoiceSyncFunction.cs:56-60 | a settle call that throws in the try is followed by Abandon below the maximum, a dead-letter from it on |
| `SyncFunction.InvoiceSyncFunction.constructor` | src/AzureFunctions/Functions/InvoiceSyncFunction.cs:15-23 | the maximum delivery count is the configured one, 3 when unset |
| `SyncFunction.InvoiceSyncFunction.HandleResultAsync` | src/AzureFunctions/Functions/InvoiceSyncFunction.cs:75-103 | issues exactly `HandleResult(result)` |
| `SyncFunction.InvoiceSyncFunction.HandleExceptionAsync` | src/AzureFunctions/Functions/InvoiceSyncFunction.cs:105-125 | issues exactly `HandleException(e, count, max)` |
| `SyncFunction.InvoiceSyncFunction.Run` | src/AzureFunctions/Functions/InvoiceSyncFunction.cs:26-61 | appends to the settle log exactly the calls of `Issued` for the message, reports what escapes, and consumes the fault |
| `SyncFunction.ExactlyOneAction` | src/AzureFunctions/Functions/InvoiceSyncFunction.cs:42-60 | without a faulty settle call every message is settled exactly once, with the decided action, and nothing escapes |
| `LegacyReceiver.Forward` | src/AzureFunctions/InvoiceReceiver.cs:85-98 | the catch issues no settle call and returns the body with OriginalInvoiceId and the exception's message |
| `LegacyReceiver.LegacyDecide` | src/AzureFunctions/InvoiceReceiver.cs:38-99 | an output message exactly when no settle call is made; malformed JSON is forwarded; `null` dead-letters "Deserialization failed"; Success completes; a failure is abandoned below 3, otherwise dead-lettered "Max retries exceeded: " + message |
| `LegacyReceiver.FailureCappedAtThree` | src/AzureFunctions/InvoiceReceiver.cs:68-82 | any failure is abandoned exactly below delivery count 3 and dead-lettered from 3 on |
| `LegacyReceiver.LegacyOutcome` | src/AzureFunctions/InvoiceReceiver.cs:85-98 | the settle call is the decided one; a settle call that throws adds the output message forwarding the body with that exception's message |
| `LegacyReceiver.Delivery` | src/AzureFunctions/InvoiceReceiver.cs:53 | the Xero client's call result, or the QuickBooks client's exception |
| `LegacyReceiver.QuickBooksAlwaysForwards` | src/AzureFunctions/InvoiceReceiver.cs:85-98 | with the QuickBooks client every readable invoice is forwarded with "QuickBooks implementation coming soon" and never settled |
| `LegacyReceiver.InvoiceReceiver.constructor` | src/AzureFunctions/InvoiceReceiver.cs:16-26 | holds the given transformer and client |
| `LegacyReceiver.InvoiceReceiver.Run` | src/AzureFunctions/InvoiceReceiver.cs:30-100 | appends to the settle log exactly the call of `LegacyOutcome`, returns its output message, and changes the Xero client's headers only when an invoice was read |
| `PipelineProperties.MalformedBodyDiverges` | src/AzureFunctions/InvoiceReceiver.cs:38-98 | malformed JSON: the current function dead-letters "DeserializationFailed"; the legacy receiver makes no settle call and forwards the body with the parser's message |
| `PipelineProperties.RetryableResponseDivergesAtCap` | src/AzureFunctions/InvoiceReceiver.cs:68-82 | a 429/503/504 at delivery 3 or later: the current function abandons, the legacy receiver dead-letters |
| `PipelineProperties.PermanentResponseDivergesBelowCap` | src/AzureFunctions/InvoiceReceiver.cs:68-75 | another error status below delivery 3: the current function dead-letters "PermanentFailure", the legacy receiver abandons |
| `PipelineProperties.SuccessAgrees` | src/AzureFunctions/InvoiceReceiver.cs:55-61 | a readable 2xx completes the message in both |
| `PipelineProperties.NonGuidAccountIsDeadLettered` | src/AzureFunctions/Functions/InvoiceSyncFunction.cs:93-96 | empty mapping, non-GUID account, token fetched: the sync result is Failed "Unexpected error: " + Guid.Parse's text for the account, and the message is dead-lettered "PermanentFailure" with that text on every delivery |
| `PipelineProperties.LegacySendsRawAccount` | src/AzureFunctions/ExternalApiClients.cs:41 | the legacy client posts the raw account as ContactID, without parsing it |
| `PipelineProperties.CustomerAccountExample` | src/AzureFunctions/Functions/InvoiceSyncFunction.cs:93-96 | a whole run on account "CUST-A" issues exactly one settle call, the "PermanentFailure" dead-letter with "Unexpected error: " and the "32 digits with 4 dashes" text |

## Left out

- Service Bus transport, the function trigger and output bindings, `ServiceBusMessageActions` internals: settle calls are entries in a log; a failing settle call is a pending fault that only the first call after it throws.
- HttpClient sending and `BaseAddress`, `SecretClient` and `DefaultAzureCredential`: their answers are inputs (a request-to-response function and `Result` values). The JSON text of the request is not modelled, only the payload record.
- `System.Text.Json`: reading a message body is an input function to `JsonReading`, and reading a response body is the `ResponseJson` field of the response.
- async/await and `CancellationToken`: calls complete in order. Cancellation is just one more exception kind, not modelled as a timer.
- Logging, logger scopes, and the `Timestamp` property (`DateTime.UtcNow`) of the legacy output message.
- Concurrent function instances, and concurrent use of the legacy client's shared default headers.
- `Program.cs` wiring: service lifetimes, and the QuickBooks factory throwing while the sync service is built.
- Constructor checks on configuration and collaborators (missing `Xero:TenantId`, `KeyVaultUri`, null services), and `GetValue` failing on a non-numeric maximum.
- XeroWire.ParseGuid: the "X" form (`{0x…,0x…,…}`) is not accepted; every string that starts with '{' and holds no '-' is rejected with "Unrecognized Guid format." rather than the "X"-form parser's own texts. The "D" form's compatibility reading of components that start with "0x" or "+" is not accepted either; such strings get the hex-digit text.
- Guid.Parse of a null string (ArgumentNullException) is not modelled, since strings are never null here.
- Case rules beyond ASCII for `ToUpper`, `ToUpperInvariant`, `ToLower`, `ToLowerInvariant` and OrdinalIgnoreCase.
- `DateTime`: only the date part is kept. Decimals are `real` and are only copied.
- Framework exception texts follow .NET's English resource strings.
- Strings are never null, except where the source reads an optional value (`ErrorMessage`, `ExternalId`, `InvoiceID`). A null customer account is not modelled.
- A message body with `"Lines": null` or a null element in `Lines` deserialises (System.Text.Json does not enforce non-nullable annotations), and the transform then throws NullReferenceException. `seq<InvoiceLine>` cannot hold either, so the model does not show that path. On the current path it ends Failed "Unexpected error: …" and dead-lettered "PermanentFailure"; on the legacy path it is forwarded to the output queue.
- Application property values are strings; null or non-string values are not modelled.
- `XeroWire.StatusName`: codes that share one `HttpStatusCode` value (300, 301, 302, 303, 307, 422) print as the first declared name.
- `SyncFunction.InvoiceSyncFunction.Run`: the sync service is the concrete `InvoiceSyncService`, which never throws for a read invoice. In a run the exception branch is therefore reached only through a failing settle call; `SyncFunction.Decide` covers an exception from any `IInvoiceSyncService`.
- `LegacyApiClients.XeroApiClient.CreateInvoice`: the invoice is never null, since its only caller passes a transformer's output.
- `LegacyReceiver.InvoiceReceiver.Run`: the second positional argument of the legacy `DeadLetterMessageAsync(message, "…")` calls is read as the dead-letter reason.
- The default `SyncStatus` (value 0, `Synced`) of an unset `Status`: no modelled code path leaves `Status` unset.
- `IInvoiceServices.cs` declares `TransformAsync`, but callers use a synchronous `Transform`; the model has the synchronous shape.
- `SqlCustomerMappingService` has no database behind it; it is the identity.

## Findings

| source | as written | input that shows it | evidently intended | confidence | as-written member | corrected member |
|---|---|---|---|---|---|---|
| src/AzureFunctions/ExternalApiClients.cs:36 | each call adds the tenant id to the HttpClient's shared `DefaultRequestHeaders` | two calls on one `XeroApiClient` with both secrets available: the second request carries `Xero-tenant-id` twice, and call n carries it n times | one tenant id per request, set on the request itself, as `XeroInvoiceClient` does | medium, not executed | `LegacyApiClients.SentTenantsGrow` | `XeroClient.SentRequestHasOneTenant` |
