/**
 * The security table: a name-only search, the glyph of the local-data cell
 * and the text beside it.
 */
module SecurityTable {
  import opened PlatformsData
  import opened AppContext
  import opened FilterEngine

  /** The security table searches the name only. */
  const SecurityFields := [NameField]

  /** `filteredPlatforms` of the security table. */
  function FilteredPlatforms(st: FilterState): (r: seq<Platform>)
    ensures |r| <= |Platforms|
  {
    FilterPlatforms(Platforms, st, SecurityFields)
  }

  /** Only the name is searched: two records with the same name and the same filtered fields match alike. */
  lemma SearchConsultsNameOnly(p: Platform, q: Platform, st: FilterState)
    requires p.name == q.name && p.deployment == q.deployment
    requires p.autonomyLevel == q.autonomyLevel && p.monthlyPrice == q.monthlyPrice
    ensures Matches(p, st, SecurityFields) <==> Matches(q, st, SecurityFields)
  {
    assert FieldText(p, SecurityFields[0]) == FieldText(q, SecurityFields[0]);
  }

  /** The three glyphs: a green ✓, a red ✗ and a yellow ◐. */
  datatype SecurityGlyph = Positive | Negative | Partial

  /** `getSecurityIcon`: `true` or exactly "Full control" is positive, `false` negative, anything else partial. */
  function SecurityIcon(value: LocalData): (g: SecurityGlyph)
    ensures g == Positive <==> value == Flag(true) || value == Described("Full control")
    ensures g == Negative <==> value == Flag(false)
  {
    match value
    case Flag(true) => Positive
    case Described("Full control") => Positive
    case Flag(false) => Negative
    case Described(_) => Partial
  }

  /** The text of the local-data cell: "Yes"/"No" for a boolean, a string verbatim. */
  function LocalDataText(value: LocalData): (s: string)
    ensures value.Flag? ==> (s == "Yes" <==> value.b) && (s == "Yes" || s == "No")
    ensures value.Described? ==> s == value.text
  {
    match value
    case Flag(b) => if b then "Yes" else "No"
    case Described(text) => text
  }

  /**
   * Glyph and text agree on a boolean: ✓ beside "Yes", ✗ beside "No". A
   * string is never negative, and is positive only when it reads
   * "Full control".
   */
  lemma IconAgreesWithText(value: LocalData)
    ensures value.Flag? ==> (SecurityIcon(value) == Positive <==> LocalDataText(value) == "Yes")
    ensures value.Flag? ==> (SecurityIcon(value) == Negative <==> LocalDataText(value) == "No")
    ensures value.Described? ==> SecurityIcon(value) != Negative
    ensures value.Described? ==> (SecurityIcon(value) == Positive <==> LocalDataText(value) == "Full control")
  {
  }

  /** The local-data cells of the shipped records: the two self-hosted frameworks are positive, n8n partial. */
  lemma ShippedLocalDataGlyphs()
    ensures SecurityIcon(OpenClaw.security.localData) == Positive
    ensures SecurityIcon(LangChainAutoGen.security.localData) == Positive
    ensures SecurityIcon(N8nZapierMake.security.localData) == Partial
    ensures LocalDataText(N8nZapierMake.security.localData) == "Optional (n8n self-hosted)"
  {
  }

  /** The four managed cloud offerings keep no data locally: ✗ beside "No". */
  lemma ShippedCloudLocalData(p: Platform)
    requires p == CopilotStudio || p == AmazonBedrock || p == GoogleGemini || p == ClaudeAI
    ensures SecurityIcon(p.security.localData) == Negative && LocalDataText(p.security.localData) == "No"
  {
  }
}
