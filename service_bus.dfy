/** What the functions see of Service Bus: the received message, how its
    body reads as JSON, and the settle actions they issue on it. */
module ServiceBus {
  import opened Results
  import opened Models

  /** The settle calls of ServiceBusMessageActions. */
  datatype QueueAction =
    | Complete
    | Abandon
    | DeadLetter(reason: string, description: Option<string>)

  /** ServiceBusReceivedMessage: the body bytes, the application properties
      (values as text) and the delivery count. */
  datatype ReceivedMessage = ReceivedMessage(
    body: seq<bv8>,
    applicationProperties: map<string, string>,
    deliveryCount: int)

  /** `JsonSerializer.Deserialize<D365Invoice>` of a body: it throws
      JsonException (with its message), yields null for a `null` document, or
      yields an invoice. */
  datatype JsonReading =
    | Malformed(message: string)
    | JsonNull
    | Decoded(invoice: D365Invoice)

  const UnknownInvoiceId := "unknown"

  /** The "InvoiceId" application property, "unknown" when absent. */
  function InvoiceIdProperty(message: ReceivedMessage): (id: string)
    ensures "InvoiceId" in message.applicationProperties ==> id == message.applicationProperties["InvoiceId"]
    ensures "InvoiceId" !in message.applicationProperties ==> id == UnknownInvoiceId
  {
    if "InvoiceId" in message.applicationProperties then message.applicationProperties["InvoiceId"]
    else UnknownInvoiceId
  }

  /** The settle calls issued on messages, in order, and the fault the next
      call will throw (a lost lock, a closed link), if any. */
  class MessageActions {
    var log: seq<QueueAction>
    var pendingFault: Option<Exception>

    constructor (fault: Option<Exception>)
      ensures log == [] && pendingFault == fault
    {
      log := [];
      pendingFault := fault;
    }

    /** Records `action` and throws the pending fault, if any, once. */
    method Issue(action: QueueAction) returns (fault: Option<Exception>)
      modifies this
      ensures log == old(log) + [action]
      ensures fault == old(pendingFault) && pendingFault.None?
    {
      log := log + [action];
      fault := pendingFault;
      pendingFault := None;
    }

    /** CompleteMessageAsync. */
    method CompleteMessage() returns (fault: Option<Exception>)
      modifies this
      ensures log == old(log) + [Complete]
      ensures fault == old(pendingFault) && pendingFault.None?
    {
      fault := Issue(Complete);
    }

    /** AbandonMessageAsync. */
    method AbandonMessage() returns (fault: Option<Exception>)
      modifies this
      ensures log == old(log) + [Abandon]
      ensures fault == old(pendingFault) && pendingFault.None?
    {
      fault := Issue(Abandon);
    }

    /** DeadLetterMessageAsync with a reason and an optional description. */
    method DeadLetterMessage(reason: string, description: Option<string>) returns (fault: Option<Exception>)
      modifies this
      ensures log == old(log) + [DeadLetter(reason, description)]
      ensures fault == old(pendingFault) && pendingFault.None?
    {
      fault := Issue(DeadLetter(reason, description));
    }
  }
}
