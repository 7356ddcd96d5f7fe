/**
 * Facts that relate the views to each other and to the shipped dataset: the
 * three search variants nest, the three name-only views agree, and the
 * filter's behaviour on concrete filter states.
 */
module Dashboard {
  import opened Text
  import opened Seqs
  import opened PlatformsData
  import opened AppContext
  import opened FilterEngine
  import FeatureComparisonTable
  import OverviewCards
  import SecurityTable
  import PricingChart
  import UseCases

  /**
   * For one filter state, the name-only list is drawn from the table's list
   * and the table's list from the cards' list, in order: each is the wider
   * list filtered again.
   */
  lemma ViewsNest(st: FilterState)
    ensures IsSubsequence(SecurityTable.FilteredPlatforms(st), FeatureComparisonTable.FilteredPlatforms(st))
    ensures IsSubsequence(FeatureComparisonTable.FilteredPlatforms(st), OverviewCards.FilteredPlatforms(st))
    ensures SecurityTable.FilteredPlatforms(st) ==
      FilterPlatforms(FeatureComparisonTable.FilteredPlatforms(st), st, SecurityTable.SecurityFields)
    ensures FeatureComparisonTable.FilteredPlatforms(st) ==
      FilterPlatforms(OverviewCards.FilteredPlatforms(st), st, FeatureComparisonTable.TableFields)
  {
    NarrowerSearchRefines(Platforms, st, SecurityTable.SecurityFields, FeatureComparisonTable.TableFields);
    NarrowerSearchRefines(Platforms, st, FeatureComparisonTable.TableFields, OverviewCards.OverviewFields);
  }

  /** The security table, the chart and the use-case cards list the same records for every state. */
  lemma NameOnlyViewsAgree(st: FilterState)
    ensures SecurityTable.FilteredPlatforms(st) == PricingChart.FilteredPlatforms(st)
    ensures PricingChart.FilteredPlatforms(st) == UseCases.FilteredPlatforms(st)
  {
  }

  /** Every shipped price lies within the slider's range. */
  lemma ShippedPricesOnSlider()
    ensures forall p :: p in Platforms ==> 0 <= p.monthlyPrice <= MaxSliderPrice
  {
  }

  /** With every filter at its default, each view lists the whole dataset in its original order. */
  lemma DefaultsShowEverything()
    ensures OverviewCards.FilteredPlatforms(DefaultFilters) == Platforms
    ensures FeatureComparisonTable.FilteredPlatforms(DefaultFilters) == Platforms
    ensures SecurityTable.FilteredPlatforms(DefaultFilters) == Platforms
  {
    ShippedPricesOnSlider();
    DefaultsKeepAll(Platforms, OverviewCards.OverviewFields);
    DefaultsKeepAll(Platforms, FeatureComparisonTable.TableFields);
    DefaultsKeepAll(Platforms, SecurityTable.SecurityFields);
  }

  /** The filtered list of the dataset is the concatenation of the filtered runs. */
  lemma FilterByRuns(st: FilterState, fields: seq<SearchField>)
    ensures FilterPlatforms(Platforms, st, fields) ==
      FilterPlatforms([OpenClaw, CopilotStudio], st, fields) + FilterPlatforms([AmazonBedrock, GoogleGemini], st, fields) +
      FilterPlatforms([ClaudeAI, LangChainAutoGen], st, fields) + FilterPlatforms([N8nZapierMake], st, fields)
  {
    var a, b, c, d := [OpenClaw, CopilotStudio], [AmazonBedrock, GoogleGemini], [ClaudeAI, LangChainAutoGen], [N8nZapierMake];
    PlatformsInRuns();
    FilterAppend(a + b + c, d, st, fields);
    FilterAppend(a + b, c, st, fields);
    FilterAppend(a, b, st, fields);
  }

  /** Filtering a run of two records decides each on its own. */
  lemma FilterPair(x: Platform, y: Platform, st: FilterState, fields: seq<SearchField>)
    ensures FilterPlatforms([x, y], st, fields) ==
      (if Matches(x, st, fields) then [x] else []) + (if Matches(y, st, fields) then [y] else [])
  {
    assert [x, y][1..] == [y];
  }

  /** The search is empty and every deployment is allowed: only autonomy and price decide. */
  predicate OnlyAutonomyAndPrice(st: FilterState)
  {
    st.searchTerm == "" && st.selectedDeployment == "all"
  }

  // The autonomy selector at "High" with a range covering every price, run by run.

  lemma HighFirstRun(st: FilterState, fields: seq<SearchField>)
    requires OnlyAutonomyAndPrice(st) && st.selectedAutonomy == "High"
    requires st.priceRange.lo <= 0 && 200 <= st.priceRange.hi
    ensures FilterPlatforms([OpenClaw, CopilotStudio], st, fields) == [OpenClaw]
  {
    FilterPair(OpenClaw, CopilotStudio, st, fields);
  }

  lemma HighSecondRun(st: FilterState, fields: seq<SearchField>)
    requires OnlyAutonomyAndPrice(st) && st.selectedAutonomy == "High"
    ensures FilterPlatforms([AmazonBedrock, GoogleGemini], st, fields) == []
  {
    FilterPair(AmazonBedrock, GoogleGemini, st, fields);
  }

  lemma HighThirdRun(st: FilterState, fields: seq<SearchField>)
    requires OnlyAutonomyAndPrice(st) && st.selectedAutonomy == "High"
    requires st.priceRange.lo <= 0 && 200 <= st.priceRange.hi
    ensures FilterPlatforms([ClaudeAI, LangChainAutoGen], st, fields) == [LangChainAutoGen]
  {
    FilterPair(ClaudeAI, LangChainAutoGen, st, fields);
  }

  lemma HighLastRun(st: FilterState, fields: seq<SearchField>)
    requires OnlyAutonomyAndPrice(st) && st.selectedAutonomy == "High"
    ensures FilterPlatforms([N8nZapierMake], st, fields) == []
  {
  }

  /**
   * Exactly two records have autonomy "High", OpenClaw and LangChain, and
   * the table lists them in that order whenever the search is empty, the
   * deployment is "all" and the price range covers every price.
   */
  lemma HighAutonomyKeepsTwo(st: FilterState)
    requires OnlyAutonomyAndPrice(st) && st.selectedAutonomy == "High"
    requires st.priceRange.lo <= 0 && 200 <= st.priceRange.hi
    ensures FeatureComparisonTable.FilteredPlatforms(st) == [OpenClaw, LangChainAutoGen]
  {
    var fields := FeatureComparisonTable.TableFields;
    FilterByRuns(st, fields);
    HighFirstRun(st, fields);
    HighSecondRun(st, fields);
    HighThirdRun(st, fields);
    HighLastRun(st, fields);
  }

  // Deployment is matched by substring: "Cloud" keeps "Cloud/Hybrid", "Cloud/API" and
  // "Cloud/Self-hosted", "Hybrid" keeps "Cloud/Hybrid", "Self-hosted" keeps "Cloud/Self-hosted".

  lemma CloudAndHybridKeepCopilot()
    ensures MatchesDeployment(CopilotStudio, "Cloud") && MatchesDeployment(CopilotStudio, "Hybrid")
  {
    IncludesAt(CopilotStudio.deployment, "Cloud", 0);
    IncludesAt(CopilotStudio.deployment, "Hybrid", 6);
  }

  lemma CloudKeepsClaude()
    ensures MatchesDeployment(ClaudeAI, "Cloud")
  {
    IncludesAt(ClaudeAI.deployment, "Cloud", 0);
  }

  lemma CloudKeepsN8n()
    ensures MatchesDeployment(N8nZapierMake, "Cloud")
  {
    IncludesAt(N8nZapierMake.deployment, "Cloud", 0);
  }

  lemma SelfHostedKeepsN8n()
    ensures MatchesDeployment(N8nZapierMake, "Self-hosted")
  {
    IncludesAt(N8nZapierMake.deployment, "Self-hosted", 6);
  }

  /** The price range [20, 200] with every other filter open. */
  predicate InTwentyToTwoHundred(st: FilterState)
  {
    OnlyAutonomyAndPrice(st) && st.selectedAutonomy == "all" && st.priceRange.lo == 20 && st.priceRange.hi == 200
  }

  // That state, run by run.

  lemma BandFirstRun(st: FilterState, fields: seq<SearchField>)
    requires InTwentyToTwoHundred(st)
    ensures FilterPlatforms([OpenClaw, CopilotStudio], st, fields) == [CopilotStudio]
  {
    FilterPair(OpenClaw, CopilotStudio, st, fields);
  }

  lemma BandSecondRun(st: FilterState, fields: seq<SearchField>)
    requires InTwentyToTwoHundred(st)
    ensures FilterPlatforms([AmazonBedrock, GoogleGemini], st, fields) == []
  {
    FilterPair(AmazonBedrock, GoogleGemini, st, fields);
  }

  lemma BandThirdRun(st: FilterState, fields: seq<SearchField>)
    requires InTwentyToTwoHundred(st)
    ensures FilterPlatforms([ClaudeAI, LangChainAutoGen], st, fields) == [ClaudeAI]
  {
    FilterPair(ClaudeAI, LangChainAutoGen, st, fields);
  }

  lemma BandLastRun(st: FilterState, fields: seq<SearchField>)
    requires InTwentyToTwoHundred(st)
    ensures FilterPlatforms([N8nZapierMake], st, fields) == [N8nZapierMake]
  {
  }

  /**
   * Both price bounds are inclusive: with the range set to [20, 200] the
   * records priced exactly 20 and exactly 200 are kept, and only they.
   */
  lemma PriceBoundsInclusive(st: FilterState)
    requires InTwentyToTwoHundred(st)
    ensures FeatureComparisonTable.FilteredPlatforms(st) == [CopilotStudio, ClaudeAI, N8nZapierMake]
  {
    var fields := FeatureComparisonTable.TableFields;
    FilterByRuns(st, fields);
    BandFirstRun(st, fields);
    BandSecondRun(st, fields);
    BandThirdRun(st, fields);
    BandLastRun(st, fields);
  }
}
