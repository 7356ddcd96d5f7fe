/**
 * The overview cards: the widest search (name, tagline and deployment), the
 * "N of M platforms" heading with its empty state, the colour of the autonomy
 * and skill-level lines, the card's price label and the pros/cons preview.
 */
module OverviewCards {
  import opened Text
  import opened Seqs
  import opened Palette
  import opened PlatformsData
  import opened AppContext
  import opened FilterEngine

  /** The cards search the name, the tagline and the deployment. */
  const OverviewFields := [NameField, TaglineField, DeploymentField]

  /** `filteredPlatforms` of the cards. */
  function FilteredPlatforms(st: FilterState): (r: seq<Platform>)
    ensures |r| <= |Platforms|
  {
    FilterPlatforms(Platforms, st, OverviewFields)
  }

  /** The search passes on an empty term or when any of the three lower-cased fields contains the lower-cased term. */
  lemma SearchConsultsThreeFields(p: Platform, term: string)
    ensures MatchesSearch(p, term, OverviewFields) <==>
      || term == ""
      || Includes(Lower(p.name), Lower(term))
      || Includes(Lower(p.tagline), Lower(term))
      || Includes(Lower(p.deployment), Lower(term))
  {
    assert FieldText(p, OverviewFields[0]) == p.name;
    assert FieldText(p, OverviewFields[1]) == p.tagline;
    assert FieldText(p, OverviewFields[2]) == p.deployment;
  }

  // ------------------------------------------------------------ the heading

  /** N of "N of M platforms": how many cards are shown. */
  function ShownCount(st: FilterState): (n: nat)
    ensures n <= |Platforms|
    ensures n == CountMatching(Platforms, st, OverviewFields)
  {
    FilteredLength(Platforms, st, OverviewFields);
    |FilteredPlatforms(st)|
  }

  /** M of "N of M platforms": the size of the whole dataset. */
  function TotalCount(): (m: nat)
    ensures m == 7
  {
    |Platforms|
  }

  /** The "No platforms match your filters" message replaces the grid. */
  predicate ShowsEmptyMessage(st: FilterState)
    ensures ShowsEmptyMessage(st) <==> ShownCount(st) == 0
  {
    |FilteredPlatforms(st)| == 0
  }

  /** The message is shown exactly when no record passes the filter. */
  lemma EmptyMessageIffNoneMatch(st: FilterState)
    ensures ShowsEmptyMessage(st) <==> forall p :: p in Platforms ==> !Matches(p, st, OverviewFields)
  {
    EmptyIffNoneMatch(Platforms, st, OverviewFields);
  }

  // ----------------------------------------------------------- the colours

  /** `getAutonomyColor`: tested by substring, "High" first, then "Medium". */
  function AutonomyColor(level: string): (t: Tone)
    ensures t == Green || t == Yellow || t == Blue
  {
    if Includes(level, "High") then Green
    else if Includes(level, "Medium") then Yellow
    else Blue
  }

  /** `getTechnicalColor`: tested by substring, "Advanced" first, then "Intermediate". */
  function TechnicalColor(level: string): (t: Tone)
    ensures t == Red || t == Yellow || t == Green
  {
    if Includes(level, "Advanced") then Red
    else if Includes(level, "Intermediate") then Yellow
    else Green
  }

  // The colour of each level of the two scales, one level at a time.

  lemma LowIsBlue(level: string)
    requires level == "Low"
    ensures AutonomyColor(level) == Blue
  {
    NotIncludesWithoutFirstChar(level, "High");
    NotIncludesWithoutFirstChar(level, "Medium");
  }

  lemma LowMediumIsYellow(level: string)
    requires level == "Low-Medium"
    ensures AutonomyColor(level) == Yellow
  {
    NotIncludesWithoutFirstChar(level, "High");
    IncludesAt(level, "Medium", 4);
  }

  lemma MediumIsYellow(level: string)
    requires level == "Medium"
    ensures AutonomyColor(level) == Yellow
  {
    NotIncludesWithoutFirstChar(level, "High");
    IncludesAt(level, "Medium", 0);
  }

  lemma MediumHighIsGreen(level: string)
    requires level == "Medium-High"
    ensures AutonomyColor(level) == Green
  {
    IncludesAt(level, "High", 7);
  }

  lemma HighIsGreen(level: string)
    requires level == "High"
    ensures AutonomyColor(level) == Green
  {
    IncludesAt(level, "High", 0);
  }

  /**
   * On the autonomy scale the colour is monotone: the two levels mentioning
   * "High" (Medium-High included) are green, the two mentioning only
   * "Medium" (Low-Medium included) yellow, Low blue.
   */
  lemma AutonomyColorByLevel(i: int)
    requires 0 <= i < |AutonomyLevels|
    ensures AutonomyColor(AutonomyLevels[i]) == if i >= 3 then Green else if i >= 1 then Yellow else Blue
  {
    var level := AutonomyLevels[i];
    if i == 0 { LowIsBlue(level); }
    else if i == 1 { LowMediumIsYellow(level); }
    else if i == 2 { MediumIsYellow(level); }
    else if i == 3 { MediumHighIsGreen(level); }
    else { HighIsGreen(level); }
  }

  /** A level outside the known scale that mentions neither "High" nor "Medium" is blue. */
  lemma UnknownAutonomyIsBlue(level: string)
    requires forall i :: 0 <= i < |level| ==> level[i] != 'H' && level[i] != 'M'
    ensures AutonomyColor(level) == Blue
  {
    NotIncludesWithoutFirstChar(level, "High");
    NotIncludesWithoutFirstChar(level, "Medium");
  }

  lemma BeginnerIsGreen(level: string)
    requires level == "Beginner"
    ensures TechnicalColor(level) == Green
  {
    NotIncludesWithoutFirstChar(level, "Advanced");
    NotIncludesWithoutFirstChar(level, "Intermediate");
  }

  lemma BeginnerIntermediateIsYellow(level: string)
    requires level == "Beginner-Intermediate"
    ensures TechnicalColor(level) == Yellow
  {
    NotIncludesWithoutFirstChar(level, "Advanced");
    IncludesAt(level, "Intermediate", 9);
  }

  lemma IntermediateIsYellow(level: string)
    requires level == "Intermediate"
    ensures TechnicalColor(level) == Yellow
  {
    NotIncludesWithoutFirstChar(level, "Advanced");
    IncludesAt(level, "Intermediate", 0);
  }

  lemma IntermediateAdvancedIsRed(level: string)
    requires level == "Intermediate-Advanced"
    ensures TechnicalColor(level) == Red
  {
    IncludesAt(level, "Advanced", 13);
  }

  lemma AdvancedIsRed(level: string)
    requires level == "Advanced"
    ensures TechnicalColor(level) == Red
  {
    IncludesAt(level, "Advanced", 0);
  }

  /**
   * On the skill scale the colour is monotone: levels mentioning "Advanced"
   * (Intermediate-Advanced included) are red, those mentioning only
   * "Intermediate" (Beginner-Intermediate included) yellow, Beginner green.
   */
  lemma TechnicalColorByLevel(i: int)
    requires 0 <= i < |TechnicalLevels|
    ensures TechnicalColor(TechnicalLevels[i]) == if i >= 3 then Red else if i >= 1 then Yellow else Green
  {
    var level := TechnicalLevels[i];
    if i == 0 { BeginnerIsGreen(level); }
    else if i == 1 { BeginnerIntermediateIsYellow(level); }
    else if i == 2 { IntermediateIsYellow(level); }
    else if i == 3 { IntermediateAdvancedIsRed(level); }
    else { AdvancedIsRed(level); }
  }

  // ------------------------------------------------------------- card text

  /** The card's price line: "Free*" for 0, otherwise "$" + price + "/mo". */
  function CardPriceLabel(price: int): (s: string)
    ensures s == "Free*" || (|s| > 4 && s[0] == '$' && s[|s| - 3..] == "/mo")
  {
    if price == 0 then "Free*" else "$" + IntString(price) + "/mo"
  }

  /** The label tells a free record apart and otherwise gives the price back. */
  lemma CardPriceLabelRoundTrip(price: int)
    ensures CardPriceLabel(price) == "Free*" <==> price == 0
    ensures price != 0 ==>
      var s := CardPriceLabel(price);
      |s| > 4 && s[0] == '$' && s[|s| - 3..] == "/mo" && ParseIntString(s[1..|s| - 3]) == price
  {
    if price != 0 {
      var s := CardPriceLabel(price);
      assert s[0] == '$' != "Free*"[0];
      assert s[1..|s| - 3] == IntString(price);
      IntStringRoundTrip(price);
    }
  }

  /** The pros (and the cons) preview: `slice(0, 2)`. */
  function Preview(items: seq<string>): (r: seq<string>)
    ensures |r| == Min(2, |items|)
    ensures forall i :: 0 <= i < |r| ==> r[i] == items[i]
  {
    Take(items, 2)
  }
}
