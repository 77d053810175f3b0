/** The business response generator: a keyword classifier used when no trained classifier is
    loaded, and the composition of a reply from the template table, the context and the
    question's keywords. The trained classifier's own prediction is a parameter; the template
    prose is the table the constructor loads, passed in. */
module ResponseGenerator {
  import opened Wrappers
  import opened Text

  /** The stop set of _extract_keywords. */
  const StopWords: set<string> := {
    "how", "do", "i", "what", "is", "the", "a", "an", "and", "or", "but", "in", "on", "at",
    "to", "for", "of", "with", "by", "my", "me", "we", "you", "your"
  }

  /** _extract_keywords. */
  function ExtractKeywords(text: string): (r: seq<string>)
    ensures forall w :: w in r <==> w in Words(Lower(text)) && w !in StopWords && |w| > 2
  {
    Keywords(text, StopWords)
  }

  /** First-person and second-person pronouns never become keywords. */
  lemma PronounsDropped(text: string)
    ensures forall w :: w in ExtractKeywords(text) ==> w !in {"my", "me", "we", "you", "your"}
  {
  }

  // ---------------------------------------------------------------- fallback classification

  /** A category table: each category's name and its phrases, in declaration order. */
  type Table = seq<(string, seq<string>)>

  /** The categories and their phrases, in declaration order. */
  const CategoryPhrases: Table := [
    ("business_planning", ["business plan", "planning", "strategy", "executive summary", "mission", "vision"]),
    ("funding", ["funding", "investment", "investor", "capital", "money", "loan", "grant", "equity"]),
    ("marketing", ["marketing", "advertising", "promotion", "brand", "social media", "customer", "sales"]),
    ("legal", ["legal", "law", "contract", "liability", "insurance", "patent", "trademark", "compliance"]),
    ("operations", ["operation", "process", "system", "hiring", "employee", "management", "efficiency"]),
    ("financial", ["financial", "finance", "budget", "cash flow", "profit", "revenue", "expense", "pricing"])
  ]

  /** The category names of a table, in order. */
  function Names(table: Table): (r: seq<string>)
    ensures |r| == |table|
    ensures forall i :: 0 <= i < |r| ==> r[i] == table[i].0
  {
    seq(|table|, i requires 0 <= i < |table| => table[i].0)
  }

  function CategoryNames(): seq<string> {
    Names(CategoryPhrases)
  }

  /** How many of the phrases occur in the text. */
  function Score(phrases: seq<string>, text: string): (n: nat)
    ensures n <= |phrases|
    ensures n == 0 <==> forall i :: 0 <= i < |phrases| ==> !Contains(text, phrases[i])
  {
    if phrases == [] then 0
    else
      var rest := Score(phrases[1..], text);
      assert forall i :: 1 <= i < |phrases| ==> phrases[i] == phrases[1..][i - 1];
      (if Contains(text, phrases[0]) then 1 else 0) + rest
  }

  /** The score table, one entry per category. */
  function Scores(table: Table, text: string): (r: seq<nat>)
    ensures |r| == |table|
    ensures forall i :: 0 <= i < |r| ==> r[i] == Score(table[i].1, text)
  {
    seq(|table|, i requires 0 <= i < |table| => Score(table[i].1, text))
  }

  /** max(scores, key=scores.get): the first position holding the highest score. */
  function FirstMax(s: seq<nat>): (r: nat)
    requires s != []
    ensures r < |s|
    ensures forall j :: 0 <= j < |s| ==> s[j] <= s[r]
    ensures forall j :: 0 <= j < r ==> s[j] < s[r]
  {
    if |s| == 1 then 0
    else
      var k := FirstMax(s[..|s| - 1]);
      assert forall j :: 0 <= j < |s| - 1 ==> s[..|s| - 1][j] == s[j];
      if s[|s| - 1] > s[k] then |s| - 1 else k
  }

  function Min(a: real, b: real): real { if a <= b then a else b }

  /** The body of _fallback_classification over a category table and the lower-cased text. */
  function Classify(table: Table, text: string): (string, real) {
    var scores := Scores(table, text);
    if |scores| > 0 then
      var best := FirstMax(scores);
      (Names(table)[best], Min(0.8, scores[best] as real * 0.2))
    else
      ("business_planning", 0.5)
  }

  /** _fallback_classification: the category and its confidence. */
  function FallbackClassification(question: string): (string, real) {
    Classify(CategoryPhrases, Lower(question))
  }

  /** Position `i` holds the first highest score. */
  predicate IsFirstTop(s: seq<nat>, i: int) {
    0 <= i < |s| && (forall j :: 0 <= j < |s| ==> s[j] <= s[i]) && (forall j :: 0 <= j < i ==> s[j] < s[i])
  }

  /** The category is the first with the highest score, and the confidence is 0.2 per matched
      phrase, capped at 0.8. */
  lemma ClassifyPicksFirstTop(table: Table, text: string)
    requires table != []
    ensures exists i :: (IsFirstTop(Scores(table, text), i)
      && Classify(table, text) == (table[i].0, Min(0.8, Scores(table, text)[i] as real * 0.2)))
  {
    var scores := Scores(table, text);
    var i := FirstMax(scores);
    assert IsFirstTop(scores, i);
  }

  /** The fallback never reports a confidence above 0.8. */
  lemma FallbackConfidenceBounds(question: string)
    ensures 0.0 <= FallbackClassification(question).1 <= 0.8
  {
  }

  /** The confidence is 0.0 exactly when no phrase of any category occurs, and then the first
      category is reported. */
  lemma NoPhraseZeroConfidence(table: Table, text: string)
    requires table != []
    ensures Classify(table, text).1 == 0.0
        <==> forall i, k :: 0 <= i < |table| && 0 <= k < |table[i].1| ==> !Contains(text, table[i].1[k])
    ensures Classify(table, text).1 == 0.0 ==> Classify(table, text).0 == table[0].0
  {
    var scores := Scores(table, text);
    var best := FirstMax(scores);
    if Classify(table, text).1 == 0.0 {
      assert scores[best] == 0;
      forall i | 0 <= i < |table| ensures scores[i] == 0 {
        assert scores[i] <= scores[best];
      }
    }
    if forall i, k :: 0 <= i < |table| && 0 <= k < |table[i].1| ==> !Contains(text, table[i].1[k]) {
      forall i | 0 <= i < |table| ensures scores[i] == 0 {
        assert Score(table[i].1, text) == 0;
      }
      assert scores[0] == 0 && scores[best] == 0;
      assert best == 0;
    }
  }

  /** A question matching no phrase gets ('business_planning', 0.0), and only such a question. */
  lemma NoPhraseIsPlanningZero(question: string)
    ensures FallbackClassification(question) == ("business_planning", 0.0)
        <==> forall i, k :: 0 <= i < |CategoryPhrases| && 0 <= k < |CategoryPhrases[i].1| ==>
               !Contains(Lower(question), CategoryPhrases[i].1[k])
  {
    NoPhraseZeroConfidence(CategoryPhrases, Lower(question));
  }

  /** With a non-empty table the ('business_planning', 0.5) default is dead code, and 0.2 times
      a whole score is never 0.5. */
  lemma ClassifyNeverHalf(table: Table, text: string)
    requires table != []
    ensures Classify(table, text).1 != 0.5
  {
    var scores := Scores(table, text);
    var n := scores[FirstMax(scores)];
    if n <= 2 {
      assert n as real * 0.2 <= 0.4;
    } else {
      assert n as real * 0.2 >= 0.6;
    }
  }

  /** So the default branch of _fallback_classification is never taken. */
  lemma DefaultBranchUnreachable(question: string)
    ensures FallbackClassification(question).1 != 0.5
  {
    ClassifyNeverHalf(CategoryPhrases, Lower(question));
  }

  // ---------------------------------------------------------------- composition

  /** One category's entry of the template table. */
  datatype Template = Template(greetings: seq<string>, responses: seq<string>, tips: seq<string>)

  /** Every list of a loaded table has something to choose from. */
  predicate WellFormed(templates: map<string, Template>) {
    forall c :: c in templates ==>
      templates[c].greetings != [] && templates[c].responses != [] && templates[c].tips != []
  }

  /** random.choice, with the random index as a parameter. */
  function Choose(xs: seq<string>, k: nat): (r: string)
    requires xs != []
    ensures r in xs
  {
    xs[k % |xs|]
  }

  /** The context the caller may pass. */
  datatype Context = Context(budget: Option<real>, businessType: Option<string>)

  const FundingSmall := "Given your budget range, consider bootstrapping or small business loans as primary funding sources."
  const FundingMedium := "With your budget range, you might consider angel investors or crowdfunding platforms."
  const FundingLarge := "Your budget range suggests you could pursue venture capital or larger investment rounds."
  const MarketingTech := "For tech businesses, focus on digital marketing, content marketing, and developer communities."
  const MarketingRetail := "For retail businesses, consider social media marketing, influencer partnerships, and local advertising."

  /** _add_context_info. */
  function AddContextInfo(category: string, context: Context): (r: string)
    ensures category == "funding" && context.budget.Some? ==>
      r == (if context.budget.value < 10000.0 then FundingSmall
            else if context.budget.value < 100000.0 then FundingMedium
            else FundingLarge)
  {
    if category == "funding" && context.budget.Some? then
      var budget := context.budget.value;
      if budget < 10000.0 then FundingSmall
      else if budget < 100000.0 then FundingMedium
      else FundingLarge
    else if category == "marketing" && context.businessType.Some? then
      var businessType := context.businessType.value;
      if businessType in ["technology", "software"] then MarketingTech
      else if businessType in ["retail", "ecommerce"] then MarketingRetail
      else ""
    else ""
  }

  /** Context information exists only for funding with a budget, and for marketing of a
      technology, software, retail or ecommerce business. */
  lemma ContextInfoIff(category: string, context: Context)
    ensures AddContextInfo(category, context) != ""
        <==> (category == "funding" && context.budget.Some?)
             || (category == "marketing" && context.businessType.Some?
                 && context.businessType.value in {"technology", "software", "retail", "ecommerce"})
  {
  }

  /** The reply text of a templated category. */
  function Compose(greeting: string, main: string, tip: string, info: string): string {
    greeting + "\n\n" + main + "\n\nPro Tip: " + tip + (if info != "" then "\n\n" + info else "")
  }

  /** The context section is present exactly when the context information is non-empty. */
  lemma ContextSectionIff(greeting: string, main: string, tip: string, info: string)
    ensures |Compose(greeting, main, tip, info)| == |Compose(greeting, main, tip, "")| + (if info == "" then 0 else 2 + |info|)
    ensures Compose(greeting, main, tip, info) == Compose(greeting, main, tip, "") <==> info == ""
  {
  }

  const BlankHelp := "I'd be happy to help you with your business questions. Please ask me anything about business planning, funding, marketing, legal matters, operations, or finances!"

  /** The generic answers of generate_response; `k` is random.choice's pick among the four. */
  function GenericResponse(k: nat): string
    requires k < 4
  {
    if k == 0 then
      "That's a great question! Starting a business involves many considerations. I'd recommend focusing on understanding your market, building a strong foundation, and seeking advice from experienced entrepreneurs."
    else if k == 1 then
      "I'd be happy to help you with that. To give you the most relevant advice, could you provide more details about your specific situation or business type?"
    else if k == 2 then
      "That's an important aspect of entrepreneurship. Let me know more about your business context, and I can provide more targeted guidance."
    else
      "Great question! The answer often depends on your specific business model and target market. Could you share more details about your business concept?"
  }

  /** The reply dictionary, without its timestamp; `keywords` is None for a blank question. */
  datatype Reply = Reply(response: string, category: string, confidence: real, keywords: Option<seq<string>>)

  /** predict_category: the trained classifier's prediction when it is loaded and does not
      raise, otherwise the keyword fallback. */
  function PredictCategory(question: string, classifier: Option<(string, real)>): (string, real) {
    if classifier.Some? then classifier.value else FallbackClassification(question)
  }

  /** generate_response. `templates` is the table loaded with the model file (empty when the
      file is absent); `g`, `m`, `t` and `generic` are random.choice's picks. */
  function GenerateResponse(question: string, context: Option<Context>, templates: map<string, Template>,
                            classifier: Option<(string, real)>, g: nat, m: nat, t: nat, generic: nat): (r: Reply)
    requires WellFormed(templates) && generic < 4
    ensures Trim(PyStrip, question) == [] ==> r == Reply(BlankHelp, "general", 0.0, None)
    ensures Trim(PyStrip, question) != [] ==>
      (r.category, r.confidence) == PredictCategory(question, classifier)
      && r.keywords == Some(ExtractKeywords(question))
    ensures Trim(PyStrip, question) != [] && r.category !in templates ==> r.response == GenericResponse(generic)
    ensures Trim(PyStrip, question) != [] && r.category in templates ==>
      var tpl := templates[r.category];
      var info := if context.Some? then AddContextInfo(r.category, context.value) else "";
      r.response == Compose(Choose(tpl.greetings, g), Choose(tpl.responses, m), Choose(tpl.tips, t), info)
  {
    if Trim(PyStrip, question) == [] then Reply(BlankHelp, "general", 0.0, None)
    else
      var (category, confidence) := PredictCategory(question, classifier);
      var text :=
        if category in templates then
          var tpl := templates[category];
          var info := if context.Some? then AddContextInfo(category, context.value) else "";
          Compose(Choose(tpl.greetings, g), Choose(tpl.responses, m), Choose(tpl.tips, t), info)
        else GenericResponse(generic);
      Reply(text, category, confidence, Some(ExtractKeywords(question)))
  }

  /** The fallback only ever reports one of the six categories, never 'general'. */
  lemma FallbackCategoryKnown(question: string)
    ensures FallbackClassification(question).0 in CategoryNames()
    ensures FallbackClassification(question).0 != "general"
  {
    var scores := Scores(CategoryPhrases, Lower(question));
    var best := FirstMax(scores);
    assert FallbackClassification(question).0 == CategoryNames()[best];
  }

  /** Without a classifier, 'general' is reported exactly for a blank question. */
  lemma GeneralOnlyWhenBlank(question: string, context: Option<Context>, templates: map<string, Template>,
                             g: nat, m: nat, t: nat, generic: nat)
    requires WellFormed(templates) && generic < 4
    ensures GenerateResponse(question, context, templates, None, g, m, t, generic).category == "general"
        <==> Trim(PyStrip, question) == []
  {
    FallbackCategoryKnown(question);
  }

  /** When the model file is absent the template table stays empty, so every non-blank question
      gets a generic answer, although one of the six categories is reported. */
  lemma NoModelFileGeneric(question: string, context: Option<Context>, g: nat, m: nat, t: nat, generic: nat)
    requires generic < 4 && Trim(PyStrip, question) != []
    ensures var r := GenerateResponse(question, context, map[], None, g, m, t, generic);
      r.response == GenericResponse(generic) && r.category in CategoryNames()
  {
    FallbackCategoryKnown(question);
  }

  /** With the full table loaded, the fallback's category always has a template. */
  lemma LoadedTableTemplated(question: string, context: Option<Context>, templates: map<string, Template>,
                             g: nat, m: nat, t: nat, generic: nat)
    requires WellFormed(templates) && generic < 4 && Trim(PyStrip, question) != []
    requires forall c :: c in CategoryNames() ==> c in templates
    ensures GenerateResponse(question, context, templates, None, g, m, t, generic).category in templates
  {
    FallbackCategoryKnown(question);
  }

  // ---------------------------------------------------------------- category information

  datatype CategoryInfo = CategoryInfo(category: string, description: string,
                                       commonQuestions: seq<string>, resources: seq<string>)

  /** _get_category_description. */
  function Description(category: string): string {
    match category
    case "business_planning" => "Creating comprehensive business plans, strategies, and roadmaps for success"
    case "funding" => "Understanding funding options, investor relations, and financial planning"
    case "marketing" => "Developing marketing strategies, brand building, and customer acquisition"
    case "legal" => "Business legal requirements, compliance, and intellectual property protection"
    case "operations" => "Business operations, process optimization, and team management"
    case "financial" => "Financial planning, budgeting, and performance tracking"
    case _ => "General business advice and guidance"
  }

  /** _get_common_questions. */
  function CommonQuestions(category: string): seq<string> {
    match category
    case "business_planning" => ["How do I write a business plan?", "What should be in my executive summary?", "How do I analyze my target market?"]
    case "funding" => ["How can I get funding for my startup?", "What do investors look for?", "How much equity should I give investors?"]
    case "marketing" => ["How do I market my startup?", "What's the best social media strategy?", "How do I build brand awareness?"]
    case "legal" => ["What legal structure should I choose?", "Do I need business insurance?", "How do I protect my intellectual property?"]
    case "operations" => ["How do I hire my first employee?", "How do I manage cash flow?", "What technology do I need?"]
    case "financial" => ["How do I price my product?", "What financial metrics should I track?", "How do I create financial projections?"]
    case _ => []
  }

  /** _get_category_resources. */
  function Resources(category: string): seq<string> {
    match category
    case "business_planning" => ["Business Plan Templates", "Market Research Tools", "SWOT Analysis Framework"]
    case "funding" => ["Pitch Deck Templates", "Investor Database", "Funding Calculator"]
    case "marketing" => ["Marketing Strategy Templates", "Social Media Calendar", "Brand Guidelines Template"]
    case "legal" => ["Legal Checklist", "Contract Templates", "Compliance Guide"]
    case "operations" => ["Process Documentation Templates", "Hiring Checklist", "Technology Stack Guide"]
    case "financial" => ["Financial Projection Templates", "Budget Planning Tools", "KPI Dashboard"]
    case _ => []
  }

  /** get_category_info over the loaded response_categories (empty without a model file). */
  function GetCategoryInfo(category: string, responseCategories: set<string>): (r: Result<CategoryInfo, string>)
    ensures r.Failure? <==> category !in responseCategories
    ensures r.Failure? ==> r.error == "Category not found"
    ensures r.Success? ==> r.value.category == category
  {
    if category in responseCategories then
      Success(CategoryInfo(category, Description(category), CommonQuestions(category), Resources(category)))
    else Failure("Category not found")
  }

  /** The six category names, as a set. */
  const Named: set<string> := {"business_planning", "funding", "marketing", "legal", "operations", "financial"}

  lemma NamedAreCategories()
    ensures forall c :: c in Named <==> c in CategoryNames()
  {
    assert CategoryNames() == ["business_planning", "funding", "marketing", "legal", "operations", "financial"];
  }

  /** Any other category the loaded table knows gets the general description and empty lists. */
  lemma OtherCategoryInfo(category: string, responseCategories: set<string>)
    requires category in responseCategories && category !in Named
    ensures var info := GetCategoryInfo(category, responseCategories).value;
      info.description == "General business advice and guidance"
      && info.commonQuestions == [] && info.resources == []
  {
  }
}
