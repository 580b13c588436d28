/** The records the pipeline passes around: the D365 source invoice, the
    target-neutral external invoice, and the results a delivery reports. */
module Models {
  import opened Results

  // Dates

  datatype CalendarDate = CalendarDate(year: int, month: int, day: int)

  predicate IsLeapYear(y: int) {
    (y % 4 == 0 && y % 100 != 0) || y % 400 == 0
  }

  function DaysInMonth(y: int, m: int): int {
    if m == 2 then (if IsLeapYear(y) then 29 else 28)
    else if m == 4 || m == 6 || m == 9 || m == 11 then 30
    else 31
  }

  /** The dates a .NET DateTime can hold: years 1 to 9999 of the Gregorian calendar. */
  predicate ValidDate(d: CalendarDate) {
    && 1 <= d.year <= 9999
    && 1 <= d.month <= 12
    && 1 <= d.day <= DaysInMonth(d.year, d.month)
  }

  /** The date part of a DateTime (the time of day plays no part in the core). */
  type DateTime = d: CalendarDate | ValidDate(d) witness CalendarDate(1, 1, 1)

  // Source side (D365)

  datatype InvoiceLine = InvoiceLine(
    itemId: string,
    description: string,
    quantity: real,
    unitPrice: real,
    lineAmount: real)

  datatype D365Invoice = D365Invoice(
    invoiceId: string,
    customerAccount: string,
    invoiceDate: DateTime,
    dueDate: DateTime,
    currencyCode: string,
    totalAmount: real,
    lines: seq<InvoiceLine>)

  // Target-neutral external side

  datatype ExternalLine = ExternalLine(
    description: string,
    quantity: real,
    unitAmount: real,
    lineTotal: real)

  datatype ExternalInvoice = ExternalInvoice(
    reference: string,
    contactId: string,
    date: DateTime,
    dueDate: DateTime,
    currency: string,
    total: real,
    lineItems: seq<ExternalLine>)

  // Results

  /** The four members of SyncStatus, in declaration order (Synced is value 0,
      the default of an unset field). */
  datatype SyncStatus = Synced | Failed | Retryable | DeadLettered

  /** InvoiceSyncResult: what a delivery client and the sync service report. */
  datatype SyncResult = SyncResult(
    success: bool,
    externalId: Option<string>,
    errorMessage: Option<string>,
    status: SyncStatus)

  /** ApiResult: what the legacy API clients report (no status, no retryability). */
  datatype ApiResult = ApiResult(
    success: bool,
    externalId: Option<string>,
    errorMessage: Option<string>)

  /** The text of ArgumentNullException.ThrowIfNull for a parameter. */
  function NullArgument(parameter: string): (e: Exception)
    ensures e.kind == ArgumentNullException
  {
    Exception(ArgumentNullException, "Value cannot be null. (Parameter '" + parameter + "')")
  }

  /** A failed result carrying `message`, with status `status`. */
  function FailedWith(message: string, status: SyncStatus): (r: SyncResult)
    ensures !r.success && r.externalId.None? && r.errorMessage == Some(message) && r.status == status
  {
    SyncResult(false, None, Some(message), status)
  }
}
