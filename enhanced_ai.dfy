/** The enhanced answer layer: the generator's reply is either rewritten by the OpenAI chat
    endpoint (whose outcome is a parameter) or extended with context, industry and next-step
    sections built from fixed tables; business insights come from the same industry table. */
module EnhancedAI {
  import opened Wrappers
  import opened Text
  import RG = ResponseGenerator

  /** The keys of the context dictionary the layer reads. */
  datatype Context = Context(budget: Option<real>, businessType: Option<string>,
                             location: Option<string>, experience: Option<string>)

  /** The same dictionary as the generator sees it. */
  function ForGenerator(context: Option<Context>): Option<RG.Context> {
    match context
    case None => None
    case Some(c) => Some(RG.Context(c.budget, c.businessType))
  }

  /** An entry of business_context['industries']. */
  datatype Industry = Industry(fundingRange: string, keyMetrics: seq<string>,
                               commonChallenges: seq<string>, successFactors: seq<string>)

  const Technology := Industry("$50K - $5M", ["user growth", "revenue per user", "churn rate"],
                               ["scaling", "talent acquisition", "competition"],
                               ["innovation", "market fit", "execution"])
  const Retail := Industry("$10K - $500K", ["inventory turnover", "customer acquisition cost", "lifetime value"],
                           ["inventory management", "seasonal demand", "competition"],
                           ["location", "customer service", "product quality"])
  const Service := Industry("$5K - $100K", ["client retention", "service quality", "profit margins"],
                            ["client acquisition", "service delivery", "scaling"],
                            ["expertise", "reputation", "customer satisfaction"])

  function IndustryOf(businessType: string): Option<Industry> {
    match businessType
    case "technology" => Some(Technology)
    case "retail" => Some(Retail)
    case "service" => Some(Service)
    case _ => None
  }

  // ---------------------------------------------------------------- the sections

  const FundingLow := "Given your budget, consider bootstrapping or small business loans."
  const FundingMid := "Your budget range suggests angel investors or crowdfunding as viable options."
  const FundingHigh := "With your budget, you could pursue venture capital or larger investment rounds."

  /** The sentences of _get_context_info, in order; each one is non-empty. */
  function ContextParts(category: string, c: Context): (parts: seq<string>)
    ensures |parts| <= 3
    ensures forall i :: 0 <= i < |parts| ==> parts[i] != []
    ensures |parts| == (if category == "funding" && c.budget.Some? then 1 else 0)
                       + (if c.businessType.Some? && IndustryOf(c.businessType.value).Some? then 1 else 0)
                       + (if c.location.Some? then 1 else 0)
    ensures category == "funding" && c.budget.Some? && c.budget.value < 10000.0 ==> parts[0] == FundingLow
    ensures category == "funding" && c.budget.Some? && 10000.0 <= c.budget.value < 100000.0 ==> parts[0] == FundingMid
    ensures category == "funding" && c.budget.Some? && 100000.0 <= c.budget.value ==> parts[0] == FundingHigh
    ensures c.businessType.Some? && IndustryOf(c.businessType.value).Some? ==>
      parts[if category == "funding" && c.budget.Some? then 1 else 0]
        == "For " + c.businessType.value + " businesses, typical funding ranges are "
           + IndustryOf(c.businessType.value).value.fundingRange + "."
    ensures c.location.Some? ==>
      parts[|parts| - 1] == "Consider local market conditions and regulations in " + c.location.value + "."
  {
    assert FundingLow != [] && FundingMid != [] && FundingHigh != [];
    var funding :=
      if category == "funding" && c.budget.Some? then
        if c.budget.value < 10000.0 then [FundingLow]
        else if c.budget.value < 100000.0 then [FundingMid]
        else [FundingHigh]
      else [];
    var industry :=
      if c.businessType.Some? && IndustryOf(c.businessType.value).Some? then
        ["For " + c.businessType.value + " businesses, typical funding ranges are "
         + IndustryOf(c.businessType.value).value.fundingRange + "."]
      else [];
    var location :=
      if c.location.Some? then ["Consider local market conditions and regulations in " + c.location.value + "."]
      else [];
    funding + industry + location
  }

  /** _get_context_info: the sentences joined with single spaces; '' without a context. */
  function GetContextInfo(category: string, context: Option<Context>): string {
    match context
    case None => ""
    case Some(c) => Join(ContextParts(category, c), " ")
  }

  /** There is context information exactly when one of its three sentences applies: funding
      with a budget, a known industry, or a location. */
  lemma ContextInfoIff(category: string, context: Option<Context>)
    ensures GetContextInfo(category, context) != ""
        <==> context.Some?
             && ((category == "funding" && context.value.budget.Some?)
                 || (context.value.businessType.Some? && IndustryOf(context.value.businessType.value).Some?)
                 || context.value.location.Some?)
  {
    if context.Some? {
      JoinEmpty(ContextParts(category, context.value), " ");
    }
  }

  /** The industry sentence names the industry's funding range and follows the budget sentence. */
  lemma ContextPartsOrder(category: string, c: Context)
    requires category == "funding" && c.budget.Some?
    requires c.businessType.Some? && IndustryOf(c.businessType.value).Some?
    ensures |ContextParts(category, c)| >= 2
    ensures StartsWith(ContextParts(category, c)[1], "For " + c.businessType.value + " businesses")
  {
    var parts := ContextParts(category, c);
    var p := "For " + c.businessType.value + " businesses";
    assert parts[1][..|p|] == p;
  }

  /** _get_industry_advice. */
  function GetIndustryAdvice(context: Option<Context>): string {
    if context.None? || context.value.businessType.None? then ""
    else
      match context.value.businessType.value
      case "technology" => TechAdvice
      case "retail" => RetailAdvice
      case "service" => ServiceAdvice
      case _ => ""
  }

  const TechAdvice := "Tech startups should focus on user acquisition, product development, and building scalable systems. Consider freemium models and data-driven decisions."
  const RetailAdvice := "Retail businesses need strong inventory management, customer experience, and omnichannel presence. Focus on margins and customer retention."
  const ServiceAdvice := "Service businesses rely on expertise, reputation, and client relationships. Focus on quality delivery and referral systems."

  /** Industry advice exists only for a technology, retail or service business. */
  lemma IndustryAdviceIff(context: Option<Context>)
    ensures GetIndustryAdvice(context) != ""
        <==> context.Some? && context.value.businessType.Some?
             && context.value.businessType.value in {"technology", "retail", "service"}
  {
    assert TechAdvice != [] && RetailAdvice != [] && ServiceAdvice != [];
  }

  const PlanningSteps: seq<string> := [
      "1. Define your business concept and value proposition",
      "2. Conduct market research and competitive analysis",
      "3. Create financial projections and funding requirements",
      "4. Develop your marketing and operations strategy"]

  const FundingSteps: seq<string> := [
      "1. Determine your funding needs and timeline",
      "2. Prepare a compelling pitch deck and business plan",
      "3. Research and identify potential investors",
      "4. Practice your pitch and prepare for due diligence"]

  const MarketingSteps: seq<string> := [
      "1. Define your target audience and customer personas",
      "2. Develop your brand identity and messaging",
      "3. Choose appropriate marketing channels and tactics",
      "4. Set up tracking and measurement systems"]

  const LegalSteps: seq<string> := [
      "1. Choose the appropriate business structure",
      "2. Register your business and obtain necessary licenses",
      "3. Protect your intellectual property",
      "4. Set up proper contracts and legal documentation"]

  const OperationsSteps: seq<string> := [
      "1. Document your core business processes",
      "2. Set up necessary systems and technology",
      "3. Hire and train your team",
      "4. Implement quality control and monitoring systems"]

  const FinancialSteps: seq<string> := [
      "1. Set up proper accounting and bookkeeping systems",
      "2. Create detailed financial projections",
      "3. Monitor key financial metrics regularly",
      "4. Plan for different financial scenarios"]

  /** The step lists of _get_actionable_steps; None for an unknown category. */
  function StepsOf(category: string): (r: Option<seq<string>>)
    ensures r.Some? ==> |r.value| == 4
    ensures r.Some? ==> r.value[0] != []
  {
    if category == "business_planning" then Some(PlanningSteps)
    else if category == "funding" then Some(FundingSteps)
    else if category == "marketing" then Some(MarketingSteps)
    else if category == "legal" then Some(LegalSteps)
    else if category == "operations" then Some(OperationsSteps)
    else if category == "financial" then Some(FinancialSteps)
    else None
  }

  const DefaultSteps := "1. Research best practices in your industry\n2. Create a detailed action plan\n3. Set measurable goals and timelines\n4. Monitor progress and adjust as needed"

  /** _get_actionable_steps: the category's four steps on separate lines, or the four default
      steps. */
  function GetActionableSteps(category: string): string {
    match StepsOf(category)
    case Some(steps) => Join(steps, "\n")
    case None => DefaultSteps
  }

  /** The steps are never empty, so the Next Steps section is always present. */
  lemma ActionableStepsNonEmpty(category: string)
    ensures GetActionableSteps(category) != ""
  {
    match StepsOf(category)
    case Some(steps) =>
      assert Join(steps, "\n") == steps[0] + "\n" + Join(steps[1..], "\n");
    case None =>
  }

  // ---------------------------------------------------------------- the enhanced reply

  datatype Source = OpenAIEnhanced | ContextEnhanced

  /** The enhanced dictionary, without the timestamp it copies; `enhanced` is always True. */
  datatype EnhancedReply = EnhancedReply(response: string, category: string, confidence: real, source: Source)

  /** The section headings (the emoji before each label is not reproduced). */
  const ContextLabel := "\n\nContext: "
  const IndustryLabel := "\n\nIndustry Insight: "
  const StepsLabel := "\n\nNext Steps: "

  /** A section that is present only when its text is non-empty. */
  function Section(heading: string, text: string): string {
    if text == "" then "" else heading + text
  }

  /** Appending the three optional sections, the last of which has a text. */
  lemma SectionsAppended(base: string, info: string, advice: string, steps: string)
    requires steps != ""
    ensures base + Section(ContextLabel, info) + Section(IndustryLabel, advice) + Section(StepsLabel, steps)
         == base + (if info != "" then ContextLabel + info else "")
            + (if advice != "" then IndustryLabel + advice else "")
            + StepsLabel + steps
  {
  }

  /** _enhance_with_context: each section is appended only when its text is non-empty. */
  function EnhanceWithContext(ml: RG.Reply, context: Option<Context>): (r: EnhancedReply)
    ensures r.category == ml.category && r.confidence == ml.confidence && r.source == ContextEnhanced
    ensures var info := GetContextInfo(ml.category, context);
      var advice := GetIndustryAdvice(context);
      r.response == ml.response
        + (if info != "" then ContextLabel + info else "")
        + (if advice != "" then IndustryLabel + advice else "")
        + StepsLabel + GetActionableSteps(ml.category)
  {
    ActionableStepsNonEmpty(ml.category);
    SectionsAppended(ml.response, GetContextInfo(ml.category, context), GetIndustryAdvice(context),
                     GetActionableSteps(ml.category));
    var response := ml.response
      + Section(ContextLabel, GetContextInfo(ml.category, context))
      + Section(IndustryLabel, GetIndustryAdvice(context))
      + Section(StepsLabel, GetActionableSteps(ml.category));
    EnhancedReply(response, ml.category, ml.confidence, ContextEnhanced)
  }

  /** The reply starts with the generator's text and always ends with the Next Steps section. */
  lemma EnhancedEndsWithSteps(ml: RG.Reply, context: Option<Context>)
    ensures var r := EnhanceWithContext(ml, context);
      var tail := StepsLabel + GetActionableSteps(ml.category);
      StartsWith(r.response, ml.response)
      && |r.response| >= |ml.response| + |tail|
      && r.response[|r.response| - |tail|..] == tail
  {
    var info := GetContextInfo(ml.category, context);
    var advice := GetIndustryAdvice(context);
    var contextPart := if info != "" then ContextLabel + info else "";
    var industryPart := if advice != "" then IndustryLabel + advice else "";
    Bracketed(ml.response, contextPart + industryPart, StepsLabel, GetActionableSteps(ml.category));
  }

  /** A concatenation starts with its first part and ends with its last two. */
  lemma Bracketed(first: string, middle: string, heading: string, last: string)
    ensures var whole := first + middle + heading + last;
      StartsWith(whole, first) && |whole| >= |first| + |heading + last|
      && whole[|whole| - |heading + last|..] == heading + last
  {
    var whole := first + middle + heading + last;
    assert whole == first + (middle + heading + last);
    assert whole == (first + middle) + (heading + last);
  }

  /** What the chat completion request came back with. */
  datatype OpenAIOutcome = Answered(status: int, content: string) | Raised

  /** _enhance_with_openai: a 200 reply replaces the text and boosts the confidence; any other
      status, or an exception, falls back to the context path. */
  function EnhanceWithOpenAI(ml: RG.Reply, context: Option<Context>, outcome: OpenAIOutcome): (r: EnhancedReply)
    ensures outcome.Answered? && outcome.status == 200 ==>
      r == EnhancedReply(outcome.content, ml.category, RG.Min(0.95, ml.confidence + 0.1), OpenAIEnhanced)
    ensures !(outcome.Answered? && outcome.status == 200) ==> r == EnhanceWithContext(ml, context)
  {
    if outcome.Answered? && outcome.status == 200 then
      EnhancedReply(outcome.content, ml.category, RG.Min(0.95, ml.confidence + 0.1), OpenAIEnhanced)
    else EnhanceWithContext(ml, context)
  }

  /** The boosted confidence never exceeds 0.95 and never falls below the generator's when
      that is at most 0.85. */
  lemma BoostBounds(ml: RG.Reply, context: Option<Context>, content: string)
    ensures EnhanceWithOpenAI(ml, context, Answered(200, content)).confidence <= 0.95
    ensures ml.confidence <= 0.85 ==> EnhanceWithOpenAI(ml, context, Answered(200, content)).confidence == ml.confidence + 0.1
  {
  }

  /** generate_enhanced_response; `apiKey` is '' when neither the argument nor OPENAI_API_KEY
      gives one. */
  function GenerateEnhancedResponse(question: string, context: Option<Context>, apiKey: string,
                                    outcome: OpenAIOutcome, templates: map<string, RG.Template>,
                                    classifier: Option<(string, real)>, g: nat, m: nat, t: nat, generic: nat): EnhancedReply
    requires RG.WellFormed(templates) && generic < 4
  {
    var ml := RG.GenerateResponse(question, ForGenerator(context), templates, classifier, g, m, t, generic);
    if apiKey != "" then EnhanceWithOpenAI(ml, context, outcome) else EnhanceWithContext(ml, context)
  }

  /** The context path is taken without a key, and with a key whenever OpenAI does not answer
      200; only a 200 answer is marked as OpenAI-enhanced. */
  lemma ContextPathWhenOpenAIUnavailable(question: string, context: Option<Context>, apiKey: string,
                                         outcome: OpenAIOutcome, templates: map<string, RG.Template>,
                                         classifier: Option<(string, real)>, g: nat, m: nat, t: nat, generic: nat)
    requires RG.WellFormed(templates) && generic < 4
    ensures var r := GenerateEnhancedResponse(question, context, apiKey, outcome, templates, classifier, g, m, t, generic);
      var ml := RG.GenerateResponse(question, ForGenerator(context), templates, classifier, g, m, t, generic);
      (r.source == OpenAIEnhanced <==> apiKey != "" && outcome.Answered? && outcome.status == 200)
      && (r.source == ContextEnhanced ==> r == EnhanceWithContext(ml, context))
  {
  }

  // ---------------------------------------------------------------- business insights

  datatype Insights = Insights(businessType: string, industry: Industry, recommendations: seq<string>)

  const BudgetRecommendations: seq<string> := [
    "Consider starting small and bootstrapping your growth",
    "Look into angel investors or small business loans",
    "You have good options for venture capital or larger investments"
  ]

  const ExperienceRecommendations: seq<string> := [
    "Focus on learning and building experience before scaling",
    "Leverage your experience to build a strong team and systems"
  ]

  /** The budget recommendation, if the context has a budget. */
  function BudgetAdvice(c: Context): (r: seq<string>)
    ensures |r| <= 1 && forall x :: x in r ==> x in BudgetRecommendations
  {
    if c.budget.None? then []
    else if c.budget.value < 10000.0 then [BudgetRecommendations[0]]
    else if c.budget.value < 100000.0 then [BudgetRecommendations[1]]
    else [BudgetRecommendations[2]]
  }

  /** The experience recommendation, for 'beginner' or 'experienced' only. */
  function ExperienceAdvice(c: Context): (r: seq<string>)
    ensures |r| <= 1 && forall x :: x in r ==> x in ExperienceRecommendations
  {
    if c.experience == Some("beginner") then [ExperienceRecommendations[0]]
    else if c.experience == Some("experienced") then [ExperienceRecommendations[1]]
    else []
  }

  /** get_business_insights. */
  function GetBusinessInsights(businessType: string, context: Option<Context>): (r: Result<Insights, string>)
    ensures r.Failure? <==> IndustryOf(businessType).None?
    ensures r.Failure? ==> r.error == "Business type not found"
    ensures r.Success? ==> r.value.businessType == businessType && r.value.industry == IndustryOf(businessType).value
    ensures r.Success? && context.None? ==> r.value.recommendations == []
  {
    match IndustryOf(businessType)
    case None => Failure("Business type not found")
    case Some(industry) =>
      var recommendations := if context.Some? then BudgetAdvice(context.value) + ExperienceAdvice(context.value) else [];
      Success(Insights(businessType, industry, recommendations))
  }

  /** At most one budget entry, then at most one experience entry: no experience entry ever
      precedes a budget entry. */
  lemma RecommendationsOrdered(businessType: string, context: Option<Context>)
    requires IndustryOf(businessType).Some?
    ensures var recs := GetBusinessInsights(businessType, context).value.recommendations;
      |recs| <= 2
      && forall i, j :: 0 <= i < j < |recs| ==> recs[i] in BudgetRecommendations && recs[j] in ExperienceRecommendations
  {
    if context.Some? {
      var b := BudgetAdvice(context.value);
      var e := ExperienceAdvice(context.value);
      var recs := b + e;
      forall i, j | 0 <= i < j < |recs|
        ensures recs[i] in BudgetRecommendations && recs[j] in ExperienceRecommendations
      {
        assert i < |b| && j >= |b|;
        assert recs[i] == b[i] && recs[j] == e[j - |b|];
      }
    }
  }
}
