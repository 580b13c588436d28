/** What goes over the wire to the Xero Invoices endpoint: the request
    payload, the HTTP request and response as the core sees them, GUIDs and
    `yyyy-MM-dd` dates, and how an HttpStatusCode prints. */
module XeroWire {
  import opened Results
  import opened Models
  import opened Text

  const InvoicesUri := "https://api.xero.com/api.xro/2.0/Invoices"
  /** The invoice type marker: accounts receivable. */
  const ReceivableType := "ACCREC"
  /** The default sales account code put on every line. */
  const SalesAccountCode := "200"

  // GUIDs (Guid.Parse)

  type Nibble = n: int | 0 <= n < 16

  /** A GUID as its 32 hexadecimal digits, most significant first. */
  datatype Guid = Guid(nibbles: seq<Nibble>)

  /** Why Guid.Parse rejects a string: nothing left after trimming, the
      wrong length for the form, dashes out of place, or a character that is
      not a hexadecimal digit. */
  datatype GuidError = Unrecognized | WrongLength | MisplacedDashes | NotHex

  /** The text of the FormatException thrown for each kind of rejection. */
  function GuidMessage(e: GuidError): string {
    match e
    case Unrecognized => "Unrecognized Guid format."
    case WrongLength => "Guid should contain 32 digits with 4 dashes (xxxxxxxx-xxxx-xxxx-xxxx-xxxxxxxxxxxx)."
    case MisplacedDashes => "Dashes are in the wrong position for GUID parsing."
    case NotHex => "Guid string should only contain hexadecimal characters."
  }

  /** What a parser of one form yields. */
  datatype GuidParse = Parsed(guid: Guid) | Rejected(error: GuidError)

  predicate IsHexDigit(c: char) {
    IsDigit(c) || 'a' <= c <= 'f' || 'A' <= c <= 'F'
  }

  predicate AllHex(s: string) {
    forall i :: 0 <= i < |s| ==> IsHexDigit(s[i])
  }

  function HexValue(c: char): Nibble
    requires IsHexDigit(c)
  {
    if IsDigit(c) then c as int - '0' as int
    else if 'a' <= c <= 'f' then c as int - 'a' as int + 10
    else c as int - 'A' as int + 10
  }

  function HexChar(n: Nibble): (c: char)
    ensures IsHexDigit(c) && HexValue(c) == n
  {
    if n < 10 then ('0' as int + n) as char else ('a' as int + n - 10) as char
  }

  function Nibbles(s: string): (r: seq<Nibble>)
    requires AllHex(s)
    ensures |r| == |s|
  {
    seq(|s|, i requires 0 <= i < |s| => HexValue(s[i]))
  }

  /** The digits of `ns`, lower case or upper case. */
  function HexString(ns: seq<Nibble>, upper: bool): (s: string)
    ensures |s| == |ns| && AllHex(s)
  {
    seq(|ns|, i requires 0 <= i < |ns| => if upper then UpperChar(HexChar(ns[i])) else HexChar(ns[i]))
  }

  lemma NibblesOfHexString(ns: seq<Nibble>, upper: bool)
    ensures Nibbles(HexString(ns, upper)) == ns
  {
  }

  function GuidFailure(e: GuidError): Result<Guid> {
    Throw(Exception(FormatException, GuidMessage(e)))
  }

  /** The 32 digits of the hyphenated 8-4-4-4-12 ("D") form. */
  function Undash(s: string): (r: string)
    requires |s| == 36
    ensures |r| == 32
  {
    s[0..8] + s[9..13] + s[14..18] + s[19..23] + s[24..36]
  }

  predicate DashesInPlace(s: string) {
    |s| == 36 && s[8] == '-' && s[13] == '-' && s[18] == '-' && s[23] == '-'
  }

  /** The "D" form: 36 characters, dashes at 8, 13, 18 and 23, hex digits
      elsewhere. */
  function ParseDashed(s: string): (r: GuidParse)
    ensures r.Parsed? <==> DashesInPlace(s) && AllHex(Undash(s))
    ensures r.Parsed? ==> r.guid == Guid(Nibbles(Undash(s)))
  {
    if |s| != 36 then Rejected(WrongLength)
    else if !DashesInPlace(s) then Rejected(MisplacedDashes)
    else if !AllHex(Undash(s)) then Rejected(NotHex)
    else Parsed(Guid(Nibbles(Undash(s))))
  }

  /** The "N" form: 32 hex digits. */
  function ParseDigits(s: string): (r: GuidParse)
    ensures r.Parsed? <==> |s| == 32 && AllHex(s)
    ensures r.Parsed? ==> r.guid == Guid(Nibbles(s))
  {
    if |s| != 32 then Rejected(WrongLength)
    else if !AllHex(s) then Rejected(NotHex)
    else Parsed(Guid(Nibbles(s)))
  }

  /** The "B" and "P" forms: the "D" form between `open` and `close`. */
  function ParseEnclosed(s: string, open: char, close: char): (r: GuidParse)
    ensures r.Parsed? ==> |s| == 38 && s[0] == open && s[37] == close && |r.guid.nibbles| == 32
  {
    if |s| != 38 || s[0] != open || s[37] != close then Rejected(WrongLength)
    else ParseDashed(s[1..37])
  }

  /** The dispatch on the trimmed string `t`: a leading '(' selects the "P"
      form, a leading '{' the "B" form when `t` holds a '-' (the "X" form
      otherwise, which the model rejects), and any other string the "D" form
      when it holds a '-' and the "N" form when it does not. */
  function ParseTrimmed(t: string): (r: GuidParse)
    ensures r.Parsed? ==> |r.guid.nibbles| == 32 && |t| in {32, 36, 38}
    ensures t == [] ==> r == Rejected(Unrecognized)
  {
    if t == [] then Rejected(Unrecognized)
    else if t[0] == '(' then ParseEnclosed(t, '(', ')')
    else if t[0] == '{' then
      if '-' in t then ParseEnclosed(t, '{', '}') else Rejected(Unrecognized)
    else if '-' in t then ParseDashed(t)
    else ParseDigits(t)
  }

  /** Guid.Parse: the string is trimmed, then read in the form its first
      character and its dashes select; hex digits may be of either case. A
      rejection throws FormatException whose text names what is wrong. */
  function ParseGuid(s: string): (r: Result<Guid>)
    ensures r.Ok? ==> |r.value.nibbles| == 32 && |Trim(s)| in {32, 36, 38}
    ensures r.Throw? ==> exists e :: r == GuidFailure(e)
    ensures Trim(s) == [] ==> r == GuidFailure(Unrecognized)
  {
    match ParseTrimmed(Trim(s))
    case Parsed(g) => Ok(g)
    case Rejected(e) => GuidFailure(e)
  }

  /** The layouts Guid.ToString writes: "N" (32 digits), "D" (hyphenated),
      "B" (hyphenated in braces) and "P" (hyphenated in parentheses). */
  datatype GuidLayout = DigitsOnly | Hyphenated | Braced | Parenthesised

  function Hyphenate(h: string): (s: string)
    requires |h| == 32
    ensures |s| == 36
  {
    h[0..8] + "-" + h[8..12] + "-" + h[12..16] + "-" + h[16..20] + "-" + h[20..32]
  }

  /** `g` written in `layout`, with lower- or upper-case digits. */
  function FormatGuidAs(g: Guid, layout: GuidLayout, upper: bool): string
    requires |g.nibbles| == 32
  {
    var h := HexString(g.nibbles, upper);
    match layout
    case DigitsOnly => h
    case Hyphenated => Hyphenate(h)
    case Braced => "{" + Hyphenate(h) + "}"
    case Parenthesised => "(" + Hyphenate(h) + ")"
  }

  /** The "D" form in lower case, as System.Text.Json writes a Guid. */
  function FormatGuid(g: Guid): (s: string)
    requires |g.nibbles| == 32
    ensures |s| == 36
  {
    FormatGuidAs(g, Hyphenated, false)
  }

  lemma HyphenatedParses(ns: seq<Nibble>, upper: bool)
    requires |ns| == 32
    ensures ParseDashed(Hyphenate(HexString(ns, upper))) == Parsed(Guid(ns))
  {
    var h := HexString(ns, upper);
    var s := Hyphenate(h);
    assert s[0..8] == h[0..8];
    assert s[9..13] == h[8..12];
    assert s[14..18] == h[12..16];
    assert s[19..23] == h[16..20];
    assert s[24..36] == h[20..32];
    assert Undash(s) == h;
    NibblesOfHexString(ns, upper);
  }

  /** Guid.Parse sees only the trimmed string. */
  lemma ParseSeesTrimmed(a: string, b: string)
    requires Trim(a) == Trim(b)
    ensures ParseGuid(a) == ParseGuid(b)
  {
  }

  /** A formatted GUID starts and ends with a digit or a delimiter, never
      with white space. */
  lemma FormattedEndsAreNotWhiteSpace(g: Guid, layout: GuidLayout, upper: bool)
    requires |g.nibbles| == 32
    ensures var s := FormatGuidAs(g, layout, upper);
      |s| > 0 && !IsWhiteSpace(s[0]) && !IsWhiteSpace(s[|s| - 1])
  {
    var h := HexString(g.nibbles, upper);
    assert IsHexDigit(h[0]) && IsHexDigit(h[31]);
    var s := FormatGuidAs(g, layout, upper);
    match layout
    case DigitsOnly =>
    case Hyphenated =>
      assert s[0] == h[0] && s[35] == h[31];
    case Braced =>
      assert s[0] == '{' && s[37] == '}';
    case Parenthesised =>
      assert s[0] == '(' && s[37] == ')';
  }

  lemma FormattedParses(g: Guid, layout: GuidLayout, upper: bool)
    requires |g.nibbles| == 32
    ensures ParseGuid(FormatGuidAs(g, layout, upper)) == Ok(g)
  {
    var s := FormatGuidAs(g, layout, upper);
    var h := HexString(g.nibbles, upper);
    FormattedEndsAreNotWhiteSpace(g, layout, upper);
    TrimRemovesSurroundingWhiteSpace([], s, []);
    assert [] + s + [] == s;
    match layout
    case DigitsOnly =>
      assert forall k :: 0 <= k < |s| ==> s[k] != '-';
      NibblesOfHexString(g.nibbles, upper);
    case Hyphenated =>
      assert s[8] == '-';
      HyphenatedParses(g.nibbles, upper);
    case Braced =>
      assert s[9] == '-' && s[1..37] == Hyphenate(h);
      HyphenatedParses(g.nibbles, upper);
    case Parenthesised =>
      assert s[1..37] == Hyphenate(h);
      HyphenatedParses(g.nibbles, upper);
  }

  /** Every layout Guid.ToString writes, in either case, and with any white
      space around it, parses back to the same GUID. */
  lemma GuidRoundTrip(g: Guid, layout: GuidLayout, upper: bool, pre: string, post: string)
    requires |g.nibbles| == 32
    requires AllWhiteSpace(pre) && AllWhiteSpace(post)
    ensures ParseGuid(pre + FormatGuidAs(g, layout, upper) + post) == Ok(g)
  {
    var s := FormatGuidAs(g, layout, upper);
    FormattedEndsAreNotWhiteSpace(g, layout, upper);
    TrimRemovesSurroundingWhiteSpace(pre, s, post);
    TrimRemovesSurroundingWhiteSpace([], s, []);
    assert [] + s + [] == s;
    ParseSeesTrimmed(pre + s + post, s);
    FormattedParses(g, layout, upper);
  }

  /** A string whose trimmed length fits no layout is never a GUID; unless it
      is empty or an "X"-form candidate, the text says so. */
  lemma WrongLengthIsNotGuid(s: string)
    requires |Trim(s)| !in {32, 36, 38}
    ensures ParseGuid(s).Throw?
    ensures Trim(s) != [] && !(Trim(s)[0] == '{' && '-' !in Trim(s)) ==>
      ParseGuid(s) == GuidFailure(WrongLength)
  {
  }

  /** Only white space: nothing to parse. */
  lemma BlankIsUnrecognized()
    ensures ParseGuid("  ") == GuidFailure(Unrecognized)
  {
    assert TrimStart("  ") == TrimStart(" ") == TrimStart("");
  }

  /** A string with no white space at either end is its own trimmed form. */
  lemma TrimKeepsPlain(s: string)
    requires |s| > 0 && !IsWhiteSpace(s[0]) && !IsWhiteSpace(s[|s| - 1])
    ensures Trim(s) == s
  {
    TrimRemovesSurroundingWhiteSpace([], s, []);
    assert [] + s + [] == s;
  }

  /** 32 characters, one of them not a hex digit. */
  lemma NonHexDigitIsRejected()
    ensures ParseGuid("g85b1407351d4694939203acc5870eb1") == GuidFailure(NotHex)
  {
    var s := "g85b1407351d4694939203acc5870eb1";
    TrimKeepsPlain(s);
    assert '-' !in s by {
      assert forall k :: 0 <= k < |s| ==> s[k] != '-';
    }
    assert !AllHex(s) by { assert !IsHexDigit(s[0]); }
    assert ParseTrimmed(s) == ParseDigits(s) == Rejected(NotHex);
  }

  /** 40 digits: too long for the "N" form. */
  lemma TooManyDigitsIsRejected()
    ensures ParseGuid("d85b1407351d4694939203acc5870eb1d85b1407") == GuidFailure(WrongLength)
  {
    var s := "d85b1407351d4694939203acc5870eb1d85b1407";
    TrimKeepsPlain(s);
    assert '-' !in s by {
      assert forall k :: 0 <= k < |s| ==> s[k] != '-';
    }
    assert ParseTrimmed(s) == ParseDigits(s) == Rejected(WrongLength);
  }

  /** 36 characters with the first dash one place early. */
  lemma MisplacedDashIsRejected()
    ensures ParseGuid("d85b140-7351d-4694-9392-03acc5870eb1") == GuidFailure(MisplacedDashes)
  {
    var s := "d85b140-7351d-4694-9392-03acc5870eb1";
    TrimKeepsPlain(s);
    assert s[7] == '-' && s[8] != '-';
    assert ParseTrimmed(s) == ParseDashed(s) == Rejected(MisplacedDashes);
  }

  /** A customer account code such as "CUST-A" holds a dash, so it is read
      as the "D" form and rejected for its length. */
  lemma AccountCodeIsRejected()
    ensures ParseGuid("CUST-A") == GuidFailure(WrongLength)
  {
    var s := "CUST-A";
    TrimKeepsPlain(s);
    assert s[4] == '-';
    assert ParseTrimmed(s) == ParseDashed(s) == Rejected(WrongLength);
  }

  // Dates (`ToString("yyyy-MM-dd")`)

  function FormatIsoDate(d: DateTime): (s: string)
    ensures |s| == 10 && s[4] == '-' && s[7] == '-'
  {
    PadDecimal(d.year, 4) + "-" + PadDecimal(d.month, 2) + "-" + PadDecimal(d.day, 2)
  }

  /** Reads a `yyyy-MM-dd` string back (the inverse of FormatIsoDate). */
  function ParseIsoDate(s: string): Option<CalendarDate> {
    if |s| == 10 && s[4] == '-' && s[7] == '-' && AllDigits(s[0..4]) && AllDigits(s[5..7]) && AllDigits(s[8..10])
    then Some(CalendarDate(DecimalValue(s[0..4]), DecimalValue(s[5..7]), DecimalValue(s[8..10])))
    else None
  }

  /** The rendered date loses nothing: it reads back as the same date. */
  lemma IsoDateRoundTrip(d: DateTime)
    ensures ParseIsoDate(FormatIsoDate(d)) == Some(d)
  {
    var s := FormatIsoDate(d);
    assert s[0..4] == PadDecimal(d.year, 4);
    assert s[5..7] == PadDecimal(d.month, 2);
    assert s[8..10] == PadDecimal(d.day, 2);
    assert Pow10(4) == 10000 && Pow10(2) == 100;
    PadDecimalRoundTrip(d.year, 4);
    PadDecimalRoundTrip(d.month, 2);
    PadDecimalRoundTrip(d.day, 2);
  }

  // Request payload

  datatype XeroLineItem = XeroLineItem(
    description: string,
    quantity: real,
    unitAmount: real,
    lineAmount: real,
    accountCode: string)

  /** The invoice body; `C` is the contact id's type (a Guid in the current
      client, the raw string in the legacy one). */
  datatype XeroInvoiceRequest<C> = XeroInvoiceRequest(
    invoiceType: string,
    contactId: C,
    date: string,
    dueDate: string,
    reference: string,
    currencyCode: string,
    lineItems: seq<XeroLineItem>)

  /** The LineItems projection: one item per external line, in order, on
      account "200", with LineAmount taken from LineTotal. */
  function MapLineItems(lines: seq<ExternalLine>): (r: seq<XeroLineItem>)
    ensures |r| == |lines|
    ensures forall i :: 0 <= i < |lines| ==>
      && r[i].description == lines[i].description
      && r[i].quantity == lines[i].quantity
      && r[i].unitAmount == lines[i].unitAmount
      && r[i].lineAmount == lines[i].lineTotal
      && r[i].accountCode == SalesAccountCode
  {
    if lines == [] then []
    else
      [XeroLineItem(lines[0].description, lines[0].quantity, lines[0].unitAmount, lines[0].lineTotal, SalesAccountCode)]
      + MapLineItems(lines[1..])
  }

  /** The payload for an external invoice, given its contact in wire form. */
  function Payload<C>(invoice: ExternalInvoice, contact: C): (p: XeroInvoiceRequest<C>)
    ensures p.invoiceType == ReceivableType && p.contactId == contact
    ensures p.reference == invoice.reference && p.currencyCode == invoice.currency
    ensures ParseIsoDate(p.date) == Some(invoice.date) && ParseIsoDate(p.dueDate) == Some(invoice.dueDate)
    ensures p.lineItems == MapLineItems(invoice.lineItems)
  {
    IsoDateRoundTrip(invoice.date);
    IsoDateRoundTrip(invoice.dueDate);
    XeroInvoiceRequest(
      ReceivableType, contact, FormatIsoDate(invoice.date), FormatIsoDate(invoice.dueDate),
      invoice.reference, invoice.currency, MapLineItems(invoice.lineItems))
  }

  // HTTP

  /** HttpResponseMessage.StatusCode: the runtime accepts 0 to 999. */
  type StatusCode = c: int | 0 <= c <= 999

  /** IsSuccessStatusCode: the 2xx class (section 15.3 of RFC 9110). */
  predicate IsSuccessStatusCode(status: StatusCode) {
    200 <= status <= 299
  }

  datatype XeroInvoiceRecord = XeroInvoiceRecord(invoiceId: Option<string>, invoiceNumber: Option<string>)

  /** JsonSerializer.Deserialize<XeroInvoiceResponse> of the response body:
      it throws JsonException, yields null for a `null` document, or yields
      a response whose Invoices list may itself be null. */
  datatype ResponseJson =
    | Unreadable(message: string)
    | NullDocument
    | Document(invoices: Option<seq<XeroInvoiceRecord>>)

  /** The response as read: its status, body text and what the body parses to. */
  datatype HttpResponse = HttpResponse(status: StatusCode, content: string, json: ResponseJson)

  /** `response?.Invoices?.FirstOrDefault()?.InvoiceID`. */
  function FirstInvoiceId(json: ResponseJson): (id: Option<string>)
    requires !json.Unreadable?
    ensures json.Document? && json.invoices.Some? && |json.invoices.value| > 0 ==>
      id == json.invoices.value[0].invoiceId
    ensures !(json.Document? && json.invoices.Some? && |json.invoices.value| > 0) ==> id.None?
  {
    match json
    case NullDocument => None
    case Document(invoices) =>
      if invoices.Some? && |invoices.value| > 0 then invoices.value[0].invoiceId else None
  }

  /** The POST the client sends: the headers it carries (Authorization value,
      every Xero-tenant-id value) and its JSON body. */
  datatype HttpRequest<C> = HttpRequest(
    uri: string,
    authorization: Option<string>,
    tenantIds: seq<string>,
    content: Option<XeroInvoiceRequest<C>>)

  /** `AuthenticationHeaderValue("Bearer", token)` as sent. */
  function Bearer(token: string): string {
    "Bearer " + token
  }

  /** How `{statusCode}` prints an HttpStatusCode: the enum member's name, or
      the number for a code the enum does not name. */
  function StatusName(status: StatusCode): (name: string)
    ensures |name| > 0
  {
    match status
    case 100 => "Continue"
    case 101 => "SwitchingProtocols"
    case 102 => "Processing"
    case 103 => "EarlyHints"
    case 200 => "OK"
    case 201 => "Created"
    case 202 => "Accepted"
    case 203 => "NonAuthoritativeInformation"
    case 204 => "NoContent"
    case 205 => "ResetContent"
    case 206 => "PartialContent"
    case 207 => "MultiStatus"
    case 208 => "AlreadyReported"
    case 226 => "IMUsed"
    case 300 => "MultipleChoices"
    case 301 => "MovedPermanently"
    case 302 => "Found"
    case 303 => "SeeOther"
    case 304 => "NotModified"
    case 305 => "UseProxy"
    case 306 => "Unused"
    case 307 => "TemporaryRedirect"
    case 308 => "PermanentRedirect"
    case 400 => "BadRequest"
    case 401 => "Unauthorized"
    case 402 => "PaymentRequired"
    case 403 => "Forbidden"
    case 404 => "NotFound"
    case 405 => "MethodNotAllowed"
    case 406 => "NotAcceptable"
    case 407 => "ProxyAuthenticationRequired"
    case 408 => "RequestTimeout"
    case 409 => "Conflict"
    case 410 => "Gone"
    case 411 => "LengthRequired"
    case 412 => "PreconditionFailed"
    case 413 => "RequestEntityTooLarge"
    case 414 => "RequestUriTooLong"
    case 415 => "UnsupportedMediaType"
    case 416 => "RequestedRangeNotSatisfiable"
    case 417 => "ExpectationFailed"
    case 421 => "MisdirectedRequest"
    case 422 => "UnprocessableEntity"
    case 423 => "Locked"
    case 424 => "FailedDependency"
    case 426 => "UpgradeRequired"
    case 428 => "PreconditionRequired"
    case 429 => "TooManyRequests"
    case 431 => "RequestHeaderFieldsTooLarge"
    case 451 => "UnavailableForLegalReasons"
    case 500 => "InternalServerError"
    case 501 => "NotImplemented"
    case 502 => "BadGateway"
    case 503 => "ServiceUnavailable"
    case 504 => "GatewayTimeout"
    case 505 => "HttpVersionNotSupported"
    case 506 => "VariantAlsoNegotiates"
    case 507 => "InsufficientStorage"
    case 508 => "LoopDetected"
    case 510 => "NotExtended"
    case 511 => "NetworkAuthenticationRequired"
    case _ => DecimalString(status)
  }
}
