/** InvoiceSyncFunction: the current queue-triggered function. It reads the
    message body, runs the sync service and settles the message with exactly
    one action chosen from the outcome and the delivery count. */
module SyncFunction {
  import opened Results
  import opened Models
  import opened ServiceBus
  import opened SyncService

  /** `ServiceBus:MaxDeliveryCount` when it is not configured. */
  const DefaultMaxDeliveryCount := 3

  /** DeserializeInvoice: a JsonException becomes null, like a `null` document. */
  function DeserializeInvoice(reading: JsonReading): (parsed: Option<D365Invoice>)
    ensures parsed.Some? <==> reading.Decoded?
    ensures parsed.Some? ==> parsed.value == reading.invoice
  {
    match reading
    case Decoded(invoice) => Some(invoice)
    case _ => None
  }

  /** HandleResultAsync's switch: Complete exactly for Synced, Abandon exactly
      for Retryable; Failed is dead-lettered as a permanent failure carrying
      the result's message, and any other status as unknown. */
  function HandleResult(result: SyncResult): (action: QueueAction)
    ensures action == Complete <==> result.status == Synced
    ensures action == Abandon <==> result.status == Retryable
    ensures result.status == Failed ==> action == DeadLetter("PermanentFailure", result.errorMessage)
    ensures result.status == DeadLettered ==> action == DeadLetter("UnknownStatus", None)
  {
    match result.status
    case Synced => Complete
    case Retryable => Abandon
    case Failed => DeadLetter("PermanentFailure", result.errorMessage)
    case DeadLettered => DeadLetter("UnknownStatus", None)
  }

  /** HandleExceptionAsync: retry while the delivery count is below the
      maximum, then dead-letter with the exception's message. */
  function HandleException(e: Exception, deliveryCount: int, maxDeliveryCount: int): (action: QueueAction)
    ensures action == Abandon <==> deliveryCount < maxDeliveryCount
    ensures action != Abandon ==> action == DeadLetter("MaxRetriesExceeded", Some(e.message))
  {
    if deliveryCount < maxDeliveryCount then Abandon
    else DeadLetter("MaxRetriesExceeded", Some(e.message))
  }

  /** The action the function settles a message with when no settle call
      throws: from the parsed body (null when unreadable), the sync outcome
      (a result, or an exception), the delivery count and the maximum. */
  function Decide(parsed: Option<D365Invoice>, sync: Result<SyncResult>, deliveryCount: int, maxDeliveryCount: int)
    : (action: QueueAction)
    ensures parsed.None? ==> action == DeadLetter("DeserializationFailed", None)
    ensures parsed.Some? && sync.Ok? ==> action == HandleResult(sync.value)
    ensures parsed.Some? && sync.Throw? ==> action == HandleException(sync.error, deliveryCount, maxDeliveryCount)
  {
    if parsed.None? then DeadLetter("DeserializationFailed", None)
    else match sync
      case Ok(result) => HandleResult(result)
      case Throw(e) => HandleException(e, deliveryCount, maxDeliveryCount)
  }

  /** An unreadable body is dead-lettered as "DeserializationFailed" whatever
      the sync service would have answered and whatever the delivery count. */
  lemma UnreadableBodyIgnoresSync(sync: Result<SyncResult>, other: Result<SyncResult>, deliveryCount: int, otherCount: int, maxDeliveryCount: int)
    ensures Decide(None, sync, deliveryCount, maxDeliveryCount) == Decide(None, other, otherCount, maxDeliveryCount)
    ensures Decide(None, sync, deliveryCount, maxDeliveryCount).reason == "DeserializationFailed"
  {
  }

  /** A result the service returned is settled without regard to the delivery
      count: a Retryable result is abandoned on every delivery. */
  lemma ResultIgnoresDeliveryCount(invoice: D365Invoice, result: SyncResult, c: int, d: int, m: int, n: int)
    ensures Decide(Some(invoice), Ok(result), c, m) == Decide(Some(invoice), Ok(result), d, n)
    ensures result.status == Retryable ==> Decide(Some(invoice), Ok(result), c, m) == Abandon
  {
  }

  /** A message is abandoned exactly when it was read and either the outcome
      is Retryable or an exception came before the delivery count reached the
      maximum. */
  lemma AbandonsExactly(parsed: Option<D365Invoice>, sync: Result<SyncResult>, deliveryCount: int, maxDeliveryCount: int)
    ensures Decide(parsed, sync, deliveryCount, maxDeliveryCount) == Abandon <==>
      && parsed.Some?
      && ((sync.Ok? && sync.value.status == Retryable) || (sync.Throw? && deliveryCount < maxDeliveryCount))
  {
    if parsed.Some? && sync.Ok? {
      assert HandleResult(sync.value) == Abandon <==> sync.value.status == Retryable;
    }
  }

  /** What one run issues: the settle calls, in order, and the exception that
      escapes the function, if any. */
  datatype RunOutcome = RunOutcome(actions: seq<QueueAction>, escaped: Option<Exception>)

  /** The settle calls of one run, when the first settle call throws `fault`
      (if any). A call inside the try that throws is caught and handled as an
      exception; a call inside the catch that throws escapes. */
  function Issued(parsed: Option<D365Invoice>, sync: Result<SyncResult>, deliveryCount: int, maxDeliveryCount: int,
                  fault: Option<Exception>): (o: RunOutcome)
    ensures 1 <= |o.actions| <= 2
    ensures o.actions[0] == Decide(parsed, sync, deliveryCount, maxDeliveryCount)
    ensures fault.None? ==> |o.actions| == 1 && o.escaped.None?
    ensures |o.actions| == 2 ==> fault.Some? && o.actions[1] == HandleException(fault.value, deliveryCount, maxDeliveryCount)
    ensures o.escaped.Some? ==> o.escaped == fault && |o.actions| == 1
  {
    var first := Decide(parsed, sync, deliveryCount, maxDeliveryCount);
    match fault
    case None => RunOutcome([first], None)
    case Some(f) =>
      if parsed.None? || sync.Ok? then RunOutcome([first, HandleException(f, deliveryCount, maxDeliveryCount)], None)
      else RunOutcome([first], Some(f))
  }

  /** A settle call that throws inside the try is handled like any other
      exception: retried below the maximum, dead-lettered from it on. */
  lemma FaultInTryIsHandled(parsed: Option<D365Invoice>, result: SyncResult, deliveryCount: int,
                                               maxDeliveryCount: int, fault: Exception)
    ensures var o := Issued(parsed, Ok(result), deliveryCount, maxDeliveryCount, Some(fault));
      && o.escaped.None?
      && |o.actions| == 2
      && (o.actions[1] == Abandon <==> deliveryCount < maxDeliveryCount)
  {
    var o := Issued(parsed, Ok(result), deliveryCount, maxDeliveryCount, Some(fault));
    assert o.actions == [Decide(parsed, Ok(result), deliveryCount, maxDeliveryCount),
                         HandleException(fault, deliveryCount, maxDeliveryCount)];
  }

  /** InvoiceSyncFunction, holding its sync service and the configured
      maximum delivery count. */
  class InvoiceSyncFunction {
    const service: InvoiceSyncService
    const maxDeliveryCount: int

    /** `configuration.GetValue("ServiceBus:MaxDeliveryCount", 3)`. */
    constructor (service: InvoiceSyncService, configuredMax: Option<int>)
      ensures this.service == service
      ensures maxDeliveryCount == configuredMax.GetOr(DefaultMaxDeliveryCount)
    {
      this.service := service;
      maxDeliveryCount := configuredMax.GetOr(DefaultMaxDeliveryCount);
    }

    /** What Run issues for `message` whose body reads as `reading`. */
    function Outcome(message: ReceivedMessage, reading: JsonReading, fault: Option<Exception>): RunOutcome {
      var parsed := DeserializeInvoice(reading);
      Issued(parsed, SyncInvoice(service, parsed), message.deliveryCount, maxDeliveryCount, fault)
    }

    /** HandleResultAsync. */
    method HandleResultAsync(result: SyncResult, actions: MessageActions) returns (fault: Option<Exception>)
      modifies actions
      ensures actions.log == old(actions.log) + [HandleResult(result)]
      ensures fault == old(actions.pendingFault) && actions.pendingFault.None?
    {
      match result.status
      case Synced => fault := actions.CompleteMessage();
      case Retryable => fault := actions.AbandonMessage();
      case Failed => fault := actions.DeadLetterMessage("PermanentFailure", result.errorMessage);
      case DeadLettered => fault := actions.DeadLetterMessage("UnknownStatus", None);
    }

    /** HandleExceptionAsync. */
    method HandleExceptionAsync(e: Exception, message: ReceivedMessage, actions: MessageActions)
      returns (fault: Option<Exception>)
      modifies actions
      ensures actions.log == old(actions.log) + [HandleException(e, message.deliveryCount, maxDeliveryCount)]
      ensures fault == old(actions.pendingFault) && actions.pendingFault.None?
    {
      if message.deliveryCount < maxDeliveryCount {
        fault := actions.AbandonMessage();
      } else {
        fault := actions.DeadLetterMessage("MaxRetriesExceeded", Some(e.message));
      }
    }

    /** Run: read the body with `decode`, sync, settle; a settle call that
        throws inside the try is handled as an exception, one that throws in
        the handler escapes. */
    method Run(message: ReceivedMessage, actions: MessageActions, decode: seq<bv8> -> JsonReading)
      returns (escaped: Option<Exception>)
      modifies actions
      ensures actions.log == old(actions.log) + Outcome(message, decode(message.body), old(actions.pendingFault)).actions
      ensures escaped == Outcome(message, decode(message.body), old(actions.pendingFault)).escaped
      ensures actions.pendingFault.None?
    {
      var parsed := DeserializeInvoice(decode(message.body));
      var caught: Option<Exception>;
      if parsed.None? {
        caught := actions.DeadLetterMessage("DeserializationFailed", None);
      } else {
        // A non-null invoice: SyncInvoiceAsync catches everything after its null check.
        var result := SyncInvoice(service, parsed);
        caught := HandleResultAsync(result.value, actions);
      }
      escaped := None;
      if caught.Some? {
        escaped := HandleExceptionAsync(caught.value, message, actions);
      }
    }
  }

  /** Without a faulty settle call, every message is settled exactly once,
      with the decided action, and nothing escapes. */
  lemma ExactlyOneAction(f: InvoiceSyncFunction, message: ReceivedMessage, reading: JsonReading)
    ensures var parsed := DeserializeInvoice(reading);
      f.Outcome(message, reading, None)
      == RunOutcome([Decide(parsed, SyncInvoice(f.service, parsed), message.deliveryCount, f.maxDeliveryCount)], None)
  {
    var parsed := DeserializeInvoice(reading);
    var o := f.Outcome(message, reading, None);
    assert o.actions == [o.actions[0]];
  }
}
