/** The choice of external system from the `ExternalSystemType` setting,
    shared by the three factories: `setting?.ToLower() ?? "xero"`, then a
    switch on "xero" and "quickbooks". */
module BackendSelection {
  import opened Results
  import Text

  datatype Backend = Xero | QuickBooks

  const DefaultSystemType := "xero"

  /** The lower-cased setting, "xero" when it is not configured. */
  function SystemType(setting: Option<string>): (t: string)
    ensures setting.None? ==> t == DefaultSystemType
    ensures setting.Some? ==> Text.EqualsIgnoreCase(setting.value, t) && Text.HasNoUpper(t)
  {
    match setting
    case None => DefaultSystemType
    case Some(s) => Text.ToLower(s)
  }

  /** The switch arms: the backend a lower-case name selects, if any. Only
      an exact lower-case name selects; the backend is the one it names. */
  function BackendNamed(systemType: string): (b: Option<Backend>)
    ensures b.Some? ==> Text.HasNoUpper(systemType) && Names(Some(systemType), b.value)
    ensures Text.HasNoUpper(systemType) && Names(Some(systemType), Xero) ==> b == Some(Xero)
    ensures Text.HasNoUpper(systemType) && Names(Some(systemType), QuickBooks) ==> b == Some(QuickBooks)
  {
    if systemType == "xero" then Some(Xero)
    else if systemType == "quickbooks" then Some(QuickBooks)
    else None
  }

  /** The names each backend answers to, compared ignoring case. */
  predicate Names(setting: Option<string>, b: Backend) {
    match b
    case Xero => setting.None? || Text.EqualsIgnoreCase(setting.value, "xero")
    case QuickBooks => setting.Some? && Text.EqualsIgnoreCase(setting.value, "quickbooks")
  }

  /** The selection is case-insensitive, defaults to Xero, and selects a
      backend exactly for the names that backend answers to. */
  lemma SelectionMatchesNames(setting: Option<string>, b: Backend)
    ensures BackendNamed(SystemType(setting)) == Some(b) <==> Names(setting, b)
  {
    if setting.Some? {
      Text.ToLowerMatchesLiteral(setting.value, "xero");
      Text.ToLowerMatchesLiteral(setting.value, "quickbooks");
    }
  }

  /** A setting no backend answers to selects nothing. */
  lemma UnknownNameSelectsNothing(setting: Option<string>)
    requires !Names(setting, Xero) && !Names(setting, QuickBooks)
    ensures BackendNamed(SystemType(setting)).None?
  {
    SelectionMatchesNames(setting, Xero);
    SelectionMatchesNames(setting, QuickBooks);
  }
}
