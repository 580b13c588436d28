/** Customer mapping: resolves a D365 customer account to the external
    system's contact id, falling back to the account itself. */
module CustomerMapping {
  import opened Results
  import Text

  /** The text of ArgumentException.ThrowIfNullOrEmpty for an empty account. */
  const EmptyAccountMessage := "The value cannot be an empty string. (Parameter 'd365CustomerAccount')"

  /** The key under which the OrdinalIgnoreCase dictionary files an account:
      accounts equal ignoring case share one key. */
  function KeyOf(account: string): string {
    Text.ToUpper(account)
  }

  /** A table whose keys are all in key form, as AddMapping leaves it. */
  ghost predicate KeysFolded(table: map<string, string>) {
    forall k :: k in table ==> KeyOf(k) == k
  }

  /** GetExternalContactIdAsync of the in-memory service: reject an empty
      account, answer a mapped one with its mapping, return an unmapped one
      unchanged. */
  function LookupContact(table: map<string, string>, account: string): (r: Result<string>)
    ensures r.Throw? <==> account == ""
    ensures r.Throw? ==> r.error == Exception(ArgumentException, EmptyAccountMessage)
    ensures r.Ok? && KeyOf(account) !in table ==> r.value == account
  {
    if account == "" then Throw(Exception(ArgumentException, EmptyAccountMessage))
    else if KeyOf(account) in table then Ok(table[KeyOf(account)])
    else Ok(account)
  }

  /** A stored key that equals the account ignoring case answers the lookup. */
  lemma LookupFindsKeyIgnoringCase(table: map<string, string>, key: string, account: string)
    requires KeysFolded(table) && key in table
    requires account != "" && Text.EqualsIgnoreCase(key, account)
    ensures LookupContact(table, account) == Ok(table[key])
  {
    Text.ToUpperMatchesIgnoreCase(key, account);
  }

  /** An account no stored key matches, even ignoring case, comes back unchanged. */
  lemma LookupFallsBackToAccount(table: map<string, string>, account: string)
    requires KeysFolded(table) && account != ""
    requires forall k :: k in table ==> !Text.EqualsIgnoreCase(k, account)
    ensures LookupContact(table, account) == Ok(account)
  {
    if KeyOf(account) in table {
      var k := KeyOf(account);
      Text.ToUpperMatchesIgnoreCase(k, account);
      Text.ToUpperIdempotent(account);
      assert false;
    }
  }

  /** Accounts that differ only in letter case get the same mapped answer. */
  lemma LookupIgnoresCase(table: map<string, string>, a: string, b: string)
    requires Text.EqualsIgnoreCase(a, b) && KeyOf(a) in table
    ensures LookupContact(table, a) == LookupContact(table, b)
  {
    Text.ToUpperMatchesIgnoreCase(a, b);
  }

  /** After `table[KeyOf(account) := id]` (AddMapping), an account equal to
      `account` ignoring case maps to `id`; every other lookup is unchanged. */
  lemma LookupAfterAdd(table: map<string, string>, account: string, id: string, query: string)
    ensures var updated := table[KeyOf(account) := id];
      LookupContact(updated, query) ==
        if query != "" && Text.EqualsIgnoreCase(query, account) then Ok(id)
        else LookupContact(table, query)
  {
    Text.ToUpperMatchesIgnoreCase(query, account);
  }

  /** The backends of ICustomerMappingService. */
  datatype MappingService =
    | InMemory(table: map<string, string>)   // InMemoryCustomerMappingService
    | SqlStub                                // SqlCustomerMappingService (no database)

  /** GetExternalContactIdAsync, dispatched on the backend. */
  function ExternalContactId(service: MappingService, account: string): (r: Result<string>)
    ensures service.SqlStub? ==> r == Ok(account)
    ensures service.InMemory? ==> r == LookupContact(service.table, account)
  {
    match service
    case InMemory(table) => LookupContact(table, account)
    case SqlStub => Ok(account)
  }

  /** A freshly constructed in-memory service acts as the identity on
      non-empty accounts, like the SQL stub. */
  lemma EmptyTableIsIdentity(account: string)
    requires account != ""
    ensures ExternalContactId(InMemory(map[]), account) == Ok(account)
    ensures ExternalContactId(InMemory(map[]), account) == ExternalContactId(SqlStub, account)
  {
  }

  /** InMemoryCustomerMappingService: a case-insensitive dictionary that
      AddMapping updates in place. */
  class InMemoryCustomerMappingService {
    var mappings: map<string, string>

    ghost predicate Valid()
      reads this
    {
      KeysFolded(mappings)
    }

    constructor ()
      ensures Valid() && mappings == map[]
    {
      mappings := map[];
    }

    /** GetExternalContactIdAsync: a read-only lookup with fallback. */
    function GetExternalContactId(account: string): (r: Result<string>)
      reads this
      ensures r == ExternalContactId(Snapshot(), account)
    {
      LookupContact(mappings, account)
    }

    /** The service as the value the transformers consult. */
    function Snapshot(): (s: MappingService)
      reads this
      ensures s.InMemory? && s.table == mappings
    {
      InMemory(mappings)
    }

    /** `_mappings[account] = externalId`: insert or overwrite (last write
        wins), leaving every other key as it was. */
    method AddMapping(account: string, externalId: string)
      requires Valid()
      modifies this
      ensures Valid()
      ensures mappings == old(mappings)[KeyOf(account) := externalId]
      ensures forall k :: k in old(mappings) && k != KeyOf(account) ==> k in mappings && mappings[k] == old(mappings)[k]
    {
      Text.ToUpperIdempotent(account);
      mappings := mappings[KeyOf(account) := externalId];
    }
  }

  /** A client of the class: after AddMapping, a lookup differing only in
      case finds the entry; an unrelated account still falls back. */
  method AddThenLookup(account: string, externalId: string, other: string)
    returns (found: Result<string>, fallback: Result<string>)
    requires account != "" && other != ""
    requires !Text.EqualsIgnoreCase(other, account)
    ensures found == Ok(externalId)
    ensures fallback == Ok(other)
  {
    var service := new InMemoryCustomerMappingService();
    service.AddMapping(account, externalId);
    LookupAfterAdd(map[], account, externalId, Text.ToLower(account));
    found := service.GetExternalContactId(Text.ToLower(account));
    LookupAfterAdd(map[], account, externalId, other);
    fallback := service.GetExternalContactId(other);
  }
}
