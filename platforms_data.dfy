/**
 * The static dataset every view is derived from: seven platform records,
 * the feature keys with their descriptions, and the lists offered by the
 * deployment, autonomy and skill-level selectors.
 */
module PlatformsData {
  datatype UseCase = UseCase(name: string, complexity: string)

  /** `security.localData` holds either a boolean or a descriptive string. */
  datatype LocalData = Flag(b: bool) | Described(text: string)

  datatype Security = Security(localData: LocalData, compliance: string, governance: string, encryption: string)

  datatype Platform = Platform(
    id: string,
    name: string,
    logo: string,
    tagline: string,
    deployment: string,
    autonomyLevel: string,
    technicalKnowledge: string,
    monthlyPrice: int,
    selfHostedCost: int,
    priceNote: string,
    features: map<string, string>,
    integrations: seq<string>,
    useCases: seq<UseCase>,
    security: Security,
    pros: seq<string>,
    cons: seq<string>)

  const OpenClaw := Platform(
    "openclaw", "OpenClaw", "\U{1F99E}", "Open-source automation with AI agents",
    "Self-hosted", "High", "Advanced", 0, 150, "Free (hosting costs apply)",
    map[
      "naturalLanguageProcessing" := "present", "multiAgentOrchestration" := "present",
      "prebuiltIntegrations" := "partial", "customWorkflows" := "present",
      "apiAccess" := "present", "noCodeInterface" := "absent",
      "realTimeMonitoring" := "present", "errorHandling" := "present",
      "scheduling" := "present", "dataTransformation" := "present",
      "conditionalLogic" := "present", "humanInTheLoop" := "partial",
      "learningCapability" := "present", "documentProcessing" := "present",
      "webScraping" := "present"],
    ["APIs", "Databases", "Cloud providers", "Custom connectors"],
    [UseCase("Data pipeline automation", "High"), UseCase("Custom AI workflows", "High"),
     UseCase("Research automation", "Medium")],
    Security(Flag(true), "Self-managed", "Full control", "User-configured"),
    ["Full control", "No vendor lock-in", "Customizable", "Cost-effective at scale"],
    ["Requires technical expertise", "Self-maintenance", "Longer setup time"])

  const CopilotStudio := Platform(
    "copilot-studio", "Microsoft Copilot Studio", "\U{1F916}", "Enterprise-ready AI automation",
    "Cloud/Hybrid", "Medium", "Beginner-Intermediate", 200, 0, "$200/month per tenant + usage",
    map[
      "naturalLanguageProcessing" := "present", "multiAgentOrchestration" := "present",
      "prebuiltIntegrations" := "present", "customWorkflows" := "present",
      "apiAccess" := "present", "noCodeInterface" := "present",
      "realTimeMonitoring" := "present", "errorHandling" := "present",
      "scheduling" := "present", "dataTransformation" := "present",
      "conditionalLogic" := "present", "humanInTheLoop" := "present",
      "learningCapability" := "partial", "documentProcessing" := "present",
      "webScraping" := "absent"],
    ["Microsoft 365", "Teams", "Dynamics 365", "Power Platform", "Azure services"],
    [UseCase("Customer support automation", "Low"), UseCase("Employee productivity tools", "Low"),
     UseCase("Document processing", "Medium")],
    Security(Flag(false), "SOC 2, ISO 27001, GDPR", "Microsoft managed", "End-to-end"),
    ["Easy integration with Microsoft ecosystem", "Enterprise support", "Low-code", "Comprehensive"],
    ["Expensive", "Vendor lock-in", "Limited customization outside Microsoft stack"])

  const AmazonBedrock := Platform(
    "amazon-bedrock", "Amazon Bedrock + Step Functions", "\U{2601}\U{FE0F}", "Serverless AI orchestration on AWS",
    "Cloud", "Medium-High", "Intermediate-Advanced", 0, 0, "Pay-per-use (varies by model/usage)",
    map[
      "naturalLanguageProcessing" := "present", "multiAgentOrchestration" := "present",
      "prebuiltIntegrations" := "present", "customWorkflows" := "present",
      "apiAccess" := "present", "noCodeInterface" := "partial",
      "realTimeMonitoring" := "present", "errorHandling" := "present",
      "scheduling" := "present", "dataTransformation" := "present",
      "conditionalLogic" := "present", "humanInTheLoop" := "partial",
      "learningCapability" := "present", "documentProcessing" := "present",
      "webScraping" := "partial"],
    ["AWS services", "S3", "Lambda", "DynamoDB", "EventBridge", "SageMaker"],
    [UseCase("Serverless AI pipelines", "High"), UseCase("Document analysis at scale", "Medium"),
     UseCase("Multi-model workflows", "High")],
    Security(Flag(false), "SOC 2, ISO 27001, HIPAA, PCI DSS", "AWS managed", "AWS KMS"),
    ["Scalable", "Multiple AI models", "AWS integration", "Pay-per-use"],
    ["Complex setup", "AWS expertise required", "Costs can escalate", "Vendor lock-in"])

  const GoogleGemini := Platform(
    "google-gemini", "Google Gemini / Vertex AI", "\U{1F537}", "Google's multimodal AI platform",
    "Cloud", "Medium-High", "Intermediate-Advanced", 0, 0, "Pay-per-use (varies by model/usage)",
    map[
      "naturalLanguageProcessing" := "present", "multiAgentOrchestration" := "present",
      "prebuiltIntegrations" := "present", "customWorkflows" := "present",
      "apiAccess" := "present", "noCodeInterface" := "partial",
      "realTimeMonitoring" := "present", "errorHandling" := "present",
      "scheduling" := "present", "dataTransformation" := "present",
      "conditionalLogic" := "present", "humanInTheLoop" := "partial",
      "learningCapability" := "present", "documentProcessing" := "present",
      "webScraping" := "partial"],
    ["Google Cloud Platform", "BigQuery", "Cloud Functions", "Workspace", "Firebase"],
    [UseCase("Multimodal content analysis", "Medium"), UseCase("Enterprise search", "Medium"),
     UseCase("AI-powered analytics", "High")],
    Security(Flag(false), "SOC 2, ISO 27001, GDPR", "Google managed", "Google-managed keys"),
    ["Advanced multimodal capabilities", "Google Cloud integration", "Cutting-edge AI models"],
    ["GCP expertise needed", "Pricing complexity", "Limited documentation for enterprise features"])

  const ClaudeAI := Platform(
    "claude-ai", "Claude AI (Anthropic)", "\U{1F9E0}", "Constitutional AI for safe automation",
    "Cloud/API", "Medium", "Intermediate", 20, 0, "$20/month Pro + API usage",
    map[
      "naturalLanguageProcessing" := "present", "multiAgentOrchestration" := "partial",
      "prebuiltIntegrations" := "absent", "customWorkflows" := "partial",
      "apiAccess" := "present", "noCodeInterface" := "absent",
      "realTimeMonitoring" := "absent", "errorHandling" := "partial",
      "scheduling" := "absent", "dataTransformation" := "partial",
      "conditionalLogic" := "partial", "humanInTheLoop" := "present",
      "learningCapability" := "present", "documentProcessing" := "present",
      "webScraping" := "absent"],
    ["API integration", "Custom development required"],
    [UseCase("Conversational AI", "Low"), UseCase("Content generation", "Low"),
     UseCase("Code assistance", "Medium")],
    Security(Flag(false), "SOC 2", "Anthropic managed", "In-transit and at-rest"),
    ["Strong reasoning capabilities", "Safety-focused", "Good documentation", "Long context window"],
    ["Limited automation features", "Requires custom integration", "Not a full platform"])

  const LangChainAutoGen := Platform(
    "langchain-autogen", "LangChain / AutoGen", "\U{1F517}", "Framework for AI agent development",
    "Self-hosted/Custom", "High", "Advanced", 0, 200, "Free (hosting + LLM API costs)",
    map[
      "naturalLanguageProcessing" := "present", "multiAgentOrchestration" := "present",
      "prebuiltIntegrations" := "present", "customWorkflows" := "present",
      "apiAccess" := "present", "noCodeInterface" := "absent",
      "realTimeMonitoring" := "partial", "errorHandling" := "partial",
      "scheduling" := "partial", "dataTransformation" := "present",
      "conditionalLogic" := "present", "humanInTheLoop" := "partial",
      "learningCapability" := "present", "documentProcessing" := "present",
      "webScraping" := "present"],
    ["Any API", "Vector databases", "LLM providers", "Tools & plugins"],
    [UseCase("Custom AI agent systems", "High"), UseCase("Research automation", "High"),
     UseCase("RAG applications", "Medium")],
    Security(Flag(true), "Self-managed", "Full control", "User-configured"),
    ["Highly flexible", "Active community", "Modular design", "Framework-agnostic"],
    ["Requires coding", "Complex setup", "Maintenance overhead", "Steep learning curve"])

  const N8nZapierMake := Platform(
    "n8n-zapier-make", "n8n / Zapier / Make", "\U{26A1}", "No-code workflow automation",
    "Cloud/Self-hosted", "Low-Medium", "Beginner", 20, 50, "$20-$99/month or self-host",
    map[
      "naturalLanguageProcessing" := "partial", "multiAgentOrchestration" := "absent",
      "prebuiltIntegrations" := "present", "customWorkflows" := "present",
      "apiAccess" := "present", "noCodeInterface" := "present",
      "realTimeMonitoring" := "present", "errorHandling" := "present",
      "scheduling" := "present", "dataTransformation" := "present",
      "conditionalLogic" := "present", "humanInTheLoop" := "present",
      "learningCapability" := "absent", "documentProcessing" := "partial",
      "webScraping" := "present"],
    ["1000+ apps", "SaaS tools", "APIs", "Webhooks", "Databases"],
    [UseCase("Simple task automation", "Low"), UseCase("Data sync between apps", "Low"),
     UseCase("Marketing automation", "Medium")],
    Security(Described("Optional (n8n self-hosted)"), "SOC 2, GDPR (cloud versions)",
             "Platform managed or self-hosted", "Standard encryption"),
    ["Easy to use", "Many integrations", "Visual workflow builder", "Quick setup"],
    ["Limited AI capabilities", "Can get expensive", "Not suitable for complex AI tasks"])

  /** `platformsData`, in the order the views list it. */
  const Platforms: seq<Platform> :=
    [OpenClaw, CopilotStudio, AmazonBedrock, GoogleGemini, ClaudeAI, LangChainAutoGen, N8nZapierMake]

  /** `Object.keys(featureDescriptions)`: the feature columns, in order. */
  const FeatureKeys: seq<string> := [
    "naturalLanguageProcessing", "multiAgentOrchestration", "prebuiltIntegrations",
    "customWorkflows", "apiAccess", "noCodeInterface", "realTimeMonitoring",
    "errorHandling", "scheduling", "dataTransformation", "conditionalLogic",
    "humanInTheLoop", "learningCapability", "documentProcessing", "webScraping"]

  /** `featureDescriptions`: the tooltip text of each feature column. */
  const FeatureDescriptions: map<string, string> := map[
    "naturalLanguageProcessing" := "Ability to understand and process natural language commands",
    "multiAgentOrchestration" := "Coordinate multiple AI agents working together",
    "prebuiltIntegrations" := "Ready-to-use connectors for popular services",
    "customWorkflows" := "Create custom automation workflows",
    "apiAccess" := "Programmatic access via API",
    "noCodeInterface" := "Visual, no-code workflow builder",
    "realTimeMonitoring" := "Monitor automation runs in real-time",
    "errorHandling" := "Automatic error detection and recovery",
    "scheduling" := "Schedule automated tasks",
    "dataTransformation" := "Transform and manipulate data between steps",
    "conditionalLogic" := "If-then logic for dynamic workflows",
    "humanInTheLoop" := "Request human approval or input when needed",
    "learningCapability" := "Learn and improve from interactions",
    "documentProcessing" := "Extract and process document content",
    "webScraping" := "Extract data from websites"]

  const DeploymentTypes: seq<string> :=
    ["Cloud", "Self-hosted", "Hybrid", "Cloud/Hybrid", "Cloud/API", "Self-hosted/Custom"]

  const AutonomyLevels: seq<string> := ["Low", "Low-Medium", "Medium", "Medium-High", "High"]

  const TechnicalLevels: seq<string> :=
    ["Beginner", "Beginner-Intermediate", "Intermediate", "Intermediate-Advanced", "Advanced"]

  const FeatureStatuses: set<string> := {"present", "partial", "absent"}

  const Complexities: set<string> := {"Low", "Medium", "High"}

  /** A record's feature map covers exactly the described features, each with a known status. */
  predicate WellFormedFeatures(p: Platform)
  {
    && p.features.Keys == FeatureDescriptions.Keys
    && forall k :: k in p.features ==> p.features[k] in FeatureStatuses
  }

  /** The shape every record of the dataset has. */
  predicate WellFormed(p: Platform)
  {
    && p.autonomyLevel in AutonomyLevels
    && WellFormedFeatures(p)
    && p.monthlyPrice >= 0
    && p.selfHostedCost >= 0
    && forall i :: 0 <= i < |p.useCases| ==> p.useCases[i].complexity in Complexities
  }

  /** Record ids are pairwise distinct, so they can key the rendered rows. */
  lemma IdsDistinct()
    ensures forall i, j :: 0 <= i < j < |Platforms| ==> Platforms[i].id != Platforms[j].id
  {
  }

  /** The feature columns are the described features, fifteen of them, each listed once. */
  lemma FeatureKeysAreDescribed()
    ensures |FeatureKeys| == 15
    ensures forall k :: k in FeatureKeys <==> k in FeatureDescriptions
    ensures forall i, j :: 0 <= i < j < |FeatureKeys| ==> FeatureKeys[i] != FeatureKeys[j]
  {
  }

  /** Every record has the shape the views assume. */
  lemma PlatformsWellFormed()
    ensures forall p :: p in Platforms ==> WellFormed(p)
  {
    OpenClawWellFormed();
    CopilotStudioWellFormed();
    AmazonBedrockWellFormed();
    GoogleGeminiWellFormed();
    ClaudeAIWellFormed();
    LangChainAutoGenWellFormed();
    N8nZapierMakeWellFormed();
  }

  lemma OpenClawWellFormed()
    ensures WellFormed(OpenClaw)
  {
    assert OpenClaw.features.Keys == FeatureDescriptions.Keys;
  }

  lemma CopilotStudioWellFormed()
    ensures WellFormed(CopilotStudio)
  {
    assert CopilotStudio.features.Keys == FeatureDescriptions.Keys;
  }

  lemma AmazonBedrockWellFormed()
    ensures WellFormed(AmazonBedrock)
  {
    assert AmazonBedrock.features.Keys == FeatureDescriptions.Keys;
  }

  lemma GoogleGeminiWellFormed()
    ensures WellFormed(GoogleGemini)
  {
    assert GoogleGemini.features.Keys == FeatureDescriptions.Keys;
  }

  lemma ClaudeAIWellFormed()
    ensures WellFormed(ClaudeAI)
  {
    assert ClaudeAI.features.Keys == FeatureDescriptions.Keys;
  }

  lemma LangChainAutoGenWellFormed()
    ensures WellFormed(LangChainAutoGen)
  {
    assert LangChainAutoGen.features.Keys == FeatureDescriptions.Keys;
  }

  lemma N8nZapierMakeWellFormed()
    ensures WellFormed(N8nZapierMake)
  {
    assert N8nZapierMake.features.Keys == FeatureDescriptions.Keys;
  }


  /**
   * The deployment selector's list misses one record's deployment, "Cloud/Self-hosted":
   * that record is reachable through the selector only because matching is by substring.
   */
  lemma DeploymentTypesIncomplete()
    ensures N8nZapierMake in Platforms && N8nZapierMake.deployment !in DeploymentTypes
    ensures forall p :: p in Platforms && p != N8nZapierMake ==> p.deployment in DeploymentTypes
  {
  }

  /** The dataset, cut into short runs of records that facts about it can be read off one run at a time. */
  lemma PlatformsInRuns()
    ensures Platforms == [OpenClaw, CopilotStudio] + [AmazonBedrock, GoogleGemini] + [ClaudeAI, LangChainAutoGen] + [N8nZapierMake]
  {
  }
}
