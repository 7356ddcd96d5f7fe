/**
 * The quick statistics of the summary page. They are computed over the whole
 * dataset: the page reads no filter state, so none of these functions takes
 * one.
 */
module Summary {
  import opened Text
  import opened Seqs
  import opened PlatformsData
  import opened AppContext
  import opened FilterEngine

  /** "Platforms Compared": `platformsData.length`. */
  function PlatformsCompared(ps: seq<Platform>): (n: nat)
    ensures n >= CountFree(ps) && n >= CountSelfHosted(ps)
  {
    |ps|
  }

  /** Free: exactly the records a price range of [0, 0] keeps. */
  predicate IsFree(p: Platform)
    ensures IsFree(p) <==> MatchesPrice(p, FreeOnly.priceRange)
  {
    p.monthlyPrice == 0
  }

  /** Self-hosted: exactly the records the deployment selector keeps under "Self-hosted". */
  predicate IsSelfHosted(p: Platform)
    ensures IsSelfHosted(p) <==> MatchesDeployment(p, "Self-hosted")
  {
    Includes(p.deployment, "Self-hosted")
  }

  /** "Free Options": `platformsData.filter(p => p.monthlyPrice === 0).length`. */
  function CountFree(ps: seq<Platform>): (n: nat)
    ensures n <= |ps|
  {
    Count(ps, IsFree)
  }

  /** "Self-Hosted Options": the records whose deployment contains "Self-hosted". */
  function CountSelfHosted(ps: seq<Platform>): (n: nat)
    ensures n <= |ps|
  {
    Count(ps, IsSelfHosted)
  }

  /** The dashboard's filter with the price slider at 0 and everything else at its default. */
  const FreeOnly := FilterState("", "all", "all", PriceRange(0, 0), [])

  /** The dashboard's filter with "Self-hosted" chosen in the deployment selector. */
  const SelfHostedOnly := FilterState("", "Self-hosted", "all", PriceRange(0, MaxSliderPrice), [])

  /**
   * "Free Options" is the number of records the dashboard lists when the price
   * slider is pulled down to 0, for any searched fields.
   */
  lemma {:induction false} FreeCountIsSliderAtZero(ps: seq<Platform>, fields: seq<SearchField>)
    requires forall p :: p in ps ==> p.monthlyPrice >= 0
    ensures CountFree(ps) == CountMatching(ps, FreeOnly, fields)
  {
    if ps != [] {
      FreeCountIsSliderAtZero(ps[1..], fields);
    }
  }

  /**
   * "Self-Hosted Options" is the number of records the dashboard lists when
   * "Self-hosted" is chosen in the deployment selector, for any searched
   * fields, as long as every price is within the slider's range.
   */
  lemma {:induction false} SelfHostedCountIsDeploymentFilter(ps: seq<Platform>, fields: seq<SearchField>)
    requires forall p :: p in ps ==> 0 <= p.monthlyPrice <= MaxSliderPrice
    ensures CountSelfHosted(ps) == CountMatching(ps, SelfHostedOnly, fields)
  {
    if ps != [] {
      SelfHostedCountIsDeploymentFilter(ps[1..], fields);
    }
  }

  /** A deployment that starts with "Self-hosted" counts as self-hosted. */
  lemma StartsSelfHosted(d: string)
    requires |d| >= 11 && d[..11] == "Self-hosted"
    ensures Includes(d, "Self-hosted")
  {
    IncludesAt(d, "Self-hosted", 0);
  }

  /** "Platforms Compared" shows 7. */
  lemma ShippedTotal()
    ensures PlatformsCompared(Platforms) == 7
  {
  }

  /** "Free Options" shows 4: OpenClaw, Bedrock, Gemini and LangChain cost nothing per month. */
  lemma ShippedFreeCount()
    ensures CountFree(Platforms) == 4
  {
    var a, b, c, d := [OpenClaw, CopilotStudio], [AmazonBedrock, GoogleGemini], [ClaudeAI, LangChainAutoGen], [N8nZapierMake];
    PlatformsInRuns();
    CountAppend(a + b + c, d, IsFree);
    CountAppend(a + b, c, IsFree);
    CountAppend(a, b, IsFree);
  }

  /** "Self-Hosted Options" shows 3: OpenClaw, LangChain and n8n. */
  lemma ShippedSelfHostedCount()
    ensures CountSelfHosted(Platforms) == 3
  {
    var a, b, c, d := [OpenClaw, CopilotStudio], [AmazonBedrock, GoogleGemini], [ClaudeAI, LangChainAutoGen], [N8nZapierMake];
    SelfHostedFirstRun();
    SelfHostedSecondRun();
    SelfHostedThirdRun();
    SelfHostedLastRun();
    PlatformsInRuns();
    CountAppend(a + b + c, d, IsSelfHosted);
    CountAppend(a + b, c, IsSelfHosted);
    CountAppend(a, b, IsSelfHosted);
  }

  // Which records are self-hosted, each decided by its own deployment string.

  lemma SelfHostedFirstRun()
    ensures Count([OpenClaw, CopilotStudio], IsSelfHosted) == 1
  {
    StartsSelfHosted(OpenClaw.deployment);
    NotIncludesWithoutFirstChar(CopilotStudio.deployment, "Self-hosted");
  }

  lemma SelfHostedSecondRun()
    ensures Count([AmazonBedrock, GoogleGemini], IsSelfHosted) == 0
  {
    NotIncludesWithoutFirstChar(AmazonBedrock.deployment, "Self-hosted");
    NotIncludesWithoutFirstChar(GoogleGemini.deployment, "Self-hosted");
  }

  lemma SelfHostedThirdRun()
    ensures Count([ClaudeAI, LangChainAutoGen], IsSelfHosted) == 1
  {
    NotIncludesWithoutFirstChar(ClaudeAI.deployment, "Self-hosted");
    StartsSelfHosted(LangChainAutoGen.deployment);
  }

  lemma SelfHostedLastRun()
    ensures Count([N8nZapierMake], IsSelfHosted) == 1
  {
    IncludesAt(N8nZapierMake.deployment, "Self-hosted", 6);
  }
}
