/**
 * The use-case cards: a name-only search, every use case of a record with
 * its complexity badge, and the first three integrations followed by a
 * "+k more" badge when there are more.
 */
module UseCases {
  import opened Wrappers
  import opened Seqs
  import opened Palette
  import opened PlatformsData
  import opened AppContext
  import opened FilterEngine

  /** The use-case cards search the name only. */
  const UseCaseFields := [NameField]

  /** `filteredPlatforms` of the use-case cards. */
  function FilteredPlatforms(st: FilterState): (r: seq<Platform>)
    ensures |r| <= |Platforms|
  {
    FilterPlatforms(Platforms, st, UseCaseFields)
  }

  /** `getComplexityColor`: Low green, Medium yellow, High red, anything else gray. */
  function ComplexityColor(complexity: string): (t: Tone)
    ensures t == Gray <==> complexity !in Complexities
  {
    match complexity
    case "Low" => Green
    case "Medium" => Yellow
    case "High" => Red
    case _ => Gray
  }

  /** The three known complexities get three different colours. */
  lemma ComplexityColorClassifies(a: string, b: string)
    ensures a in Complexities && b in Complexities && a != b ==> ComplexityColor(a) != ComplexityColor(b)
  {
  }

  /** No use-case badge of the shipped records is gray. */
  lemma ShippedBadgesColoured(p: Platform, i: int)
    requires p in Platforms && 0 <= i < |p.useCases|
    ensures ComplexityColor(p.useCases[i].complexity) != Gray
  {
    PlatformsWellFormed();
  }

  /** One line of the "Best For" list: the use case's name and its badge colour. */
  datatype UseCaseRow = UseCaseRow(name: string, complexity: string, badge: Tone)

  /** `useCases.map(...)`: every use case of the record, in stored order. */
  function UseCaseRows(p: Platform): (rows: seq<UseCaseRow>)
    ensures |rows| == |p.useCases|
    ensures forall i :: 0 <= i < |rows| ==>
      rows[i] == UseCaseRow(p.useCases[i].name, p.useCases[i].complexity, ComplexityColor(p.useCases[i].complexity))
  {
    Map(p.useCases, (u: UseCase) => UseCaseRow(u.name, u.complexity, ComplexityColor(u.complexity)))
  }

  /** `integrations.slice(0, 3)`: the chips shown. */
  function IntegrationChips(integrations: seq<string>): (chips: seq<string>)
    ensures |chips| == Min(3, |integrations|)
    ensures forall i :: 0 <= i < |chips| ==> chips[i] == integrations[i]
  {
    Take(integrations, 3)
  }

  /** The "+k more" badge: present when there are more than three integrations, with k the number not shown. */
  function MoreBadge(integrations: seq<string>): (badge: Option<nat>)
    ensures badge.Some? <==> |integrations| > 3
    ensures badge.Some? ==> badge.value == |integrations| - 3
  {
    if |integrations| > 3 then Some(|integrations| - 3) else None
  }

  /**
   * The chips and the badge account for every integration exactly once: the
   * badge appears exactly when some integration has no chip, and counts
   * those.
   */
  lemma ChipsAndBadgePartition(integrations: seq<string>)
    ensures MoreBadge(integrations).Some? <==> |IntegrationChips(integrations)| < |integrations|
    ensures |IntegrationChips(integrations)| +
      (if MoreBadge(integrations).Some? then MoreBadge(integrations).value else 0) == |integrations|
    ensures MoreBadge(integrations).Some? ==> MoreBadge(integrations).value > 0
  {
  }
}
