/** The business-ideas helper of the Python service when no language model answers: the
    template ideas chosen by location, interests and budget, the normalisation of ideas, the
    line parser for free-text answers, the month-by-month financial projection and the keyword
    advice fallback. The HTTP calls to the language model are not modelled. */
module AIIntegration {
  import opened Wrappers
  import opened Text
  import opened Dispatch
  import opened Compounding

  /** A business idea with all seven fields filled. */
  datatype Idea = Idea(title: string, description: string, category: string, budget: string,
                       difficulty: string, successFactors: seq<string>, challenges: seq<string>)

  // ---------------------------------------------------------------- fallback ideas

  const UrbanFoodDelivery := Idea("Urban Food Delivery Service",
    "Fast, healthy food delivery service for busy urban professionals.", "Food & Delivery",
    "Medium", "Medium", ["Speed", "Quality", "Local partnerships"],
    ["Competition", "Logistics", "Customer acquisition"])
  const CoworkingSpace := Idea("Co-working Space Management",
    "Flexible co-working spaces for freelancers and remote workers.", "Real Estate",
    "High", "Hard", ["Location", "Amenities", "Community building"],
    ["High startup costs", "Market saturation", "Maintenance"])
  const AgriculturalConsulting := Idea("Agricultural Consulting Service",
    "Modern farming techniques and technology consulting for local farmers.", "Agriculture",
    "Low", "Medium", ["Expertise", "Local knowledge", "Trust building"],
    ["Seasonal demand", "Technology adoption", "Market education"])
  const RuralTourism := Idea("Rural Tourism Experience",
    "Unique rural tourism experiences like farm stays and nature tours.", "Tourism",
    "Medium", "Medium", ["Authenticity", "Marketing", "Local partnerships"],
    ["Seasonal business", "Infrastructure", "Marketing reach"])
  const TechSupport := Idea("Local Tech Support Service",
    "In-home and remote tech support for individuals and small businesses.", "Technology",
    "Low", "Easy", ["Technical expertise", "Customer service", "Reliability"],
    ["Competition", "Technology changes", "Customer education"])
  const HomeCatering := Idea("Home-based Catering Service",
    "Catering services for small events, parties, and corporate meetings.", "Food & Beverage",
    "Low", "Easy", ["Quality", "Reliability", "Menu variety"],
    ["Food safety", "Scaling", "Seasonal demand"])
  const FashionBoutique := Idea("Online Fashion Boutique",
    "Curated fashion items through an online store with personal styling.", "E-commerce",
    "Medium", "Medium", ["Style curation", "Customer service", "Marketing"],
    ["Inventory management", "Competition", "Returns"])

  /** The location is urban when its lower-cased text mentions a city, 'urban' or 'metro'. */
  predicate IsUrban(location: string) {
    var l := Lower(location);
    Contains(l, "city") || Contains(l, "urban") || Contains(l, "metro")
  }

  /** Both template ideas of the location type. */
  function LocationIdeas(urban: bool): (r: seq<Idea>)
    ensures |r| == 2
  {
    if urban then [UrbanFoodDelivery, CoworkingSpace] else [AgriculturalConsulting, RuralTourism]
  }

  /** The interest keys in the dictionary's order, each with its first idea. */
  const InterestRules: seq<Rule<Idea>> := [
    Rule([], ["technology"], TechSupport),
    Rule([], ["food"], HomeCatering),
    Rule([], ["fashion"], FashionBoutique)
  ]

  /** The idea one interest adds: that of the first key its lower-cased text contains. */
  function InterestIdea(interest: string): Option<Idea> {
    Select(InterestRules, None, Lower(interest))
  }

  /** An interest adds the idea of a key exactly when it contains that key and no earlier one. */
  lemma InterestIdeaPrecedence(interest: string)
    ensures var l := Lower(interest);
      (InterestIdea(interest) == Some(TechSupport) <==> Contains(l, "technology"))
      && (InterestIdea(interest) == Some(HomeCatering) <==> !Contains(l, "technology") && Contains(l, "food"))
      && (InterestIdea(interest) == Some(FashionBoutique)
          <==> !Contains(l, "technology") && !Contains(l, "food") && Contains(l, "fashion"))
      && (InterestIdea(interest).None?
          <==> !Contains(l, "technology") && !Contains(l, "food") && !Contains(l, "fashion"))
  {
    var l := Lower(interest);
    assert TechSupport.title != HomeCatering.title && TechSupport.title != FashionBoutique.title;
    assert HomeCatering.title != FashionBoutique.title;
    forall k | 0 <= k < 3 ensures Fires(InterestRules[k], None, l) <==> Contains(l, InterestRules[k].keys[0]) {
      SingleKey(InterestRules[k], l);
    }
    SelectExactly(InterestRules, None, l, 0);
    SelectExactly(InterestRules, None, l, 1);
    SelectExactly(InterestRules, None, l, 2);
    SelectNone(InterestRules, None, l);
  }

  /** The ideas the interests add, in order: at most one each. */
  function InterestPicks(interests: seq<string>): (r: seq<Idea>)
    ensures |r| <= |interests|
    ensures forall x :: x in r ==> x in [TechSupport, HomeCatering, FashionBoutique]
  {
    if interests == [] then []
    else
      var init := InterestPicks(interests[..|interests| - 1]);
      match InterestIdea(interests[|interests| - 1])
      case None => init
      case Some(idea) => init + [idea]
  }

  /** budget_mapping.get(budget, 'Medium'). */
  function BudgetLevel(budget: string): (level: string)
    ensures level in {"Low", "Medium", "High"}
  {
    if budget == "0-1000" then "Low"
    else if budget == "1000-5000" then "Medium"
    else if budget == "5000-10000" || budget == "10000+" then "High"
    else "Medium"
  }

  /** The ideas of one budget level, in order. */
  function WithBudget(ideas: seq<Idea>, level: string): (r: seq<Idea>)
    ensures |r| <= |ideas|
    ensures forall x :: x in r <==> x in ideas && x.budget == level
  {
    if ideas == [] then []
    else
      var init := WithBudget(ideas[..|ideas| - 1], level);
      var last := ideas[|ideas| - 1];
      assert forall x :: x in ideas <==> x in ideas[..|ideas| - 1] || x == last by {
        assert ideas == ideas[..|ideas| - 1] + [last];
      }
      if last.budget == level then init + [last] else init
  }

  function Take<T>(xs: seq<T>, n: nat): (r: seq<T>)
    ensures |r| == if |xs| < n then |xs| else n
    ensures r <= xs
  {
    if |xs| <= n then xs else xs[..n]
  }

  /** _generate_fallback_ideas: the two ideas of the location type, one idea per interest that
      names a known key, filtered to the budget level unless that leaves nothing; at most 5. */
  method GenerateFallbackIdeas(location: string, interests: seq<string>, budget: string)
    returns (ideas: seq<Idea>)
    ensures 1 <= |ideas| <= 5
    ensures var selected := LocationIdeas(IsUrban(location)) + InterestPicks(interests);
      var matching := WithBudget(selected, BudgetLevel(budget));
      ideas == Take(if matching != [] then matching else selected, 5)
  {
    var selected := LocationIdeas(IsUrban(location));
    for i := 0 to |interests|
      invariant selected == LocationIdeas(IsUrban(location)) + InterestPicks(interests[..i])
    {
      assert interests[..i + 1][..i] == interests[..i];
      var pick := InterestIdea(interests[i]);
      if pick.Some? {
        selected := selected + [pick.value];
      }
    }
    assert interests[..|interests|] == interests;
    var filtered := WithBudget(selected, BudgetLevel(budget));
    if filtered == [] {
      filtered := selected;
    }
    ideas := Take(filtered, 5);
  }

  /** When any selected idea has the requested budget level, every returned idea has it. */
  lemma FallbackRespectsBudget(selected: seq<Idea>, level: string)
    requires exists x :: x in selected && x.budget == level
    ensures WithBudget(selected, level) != []
    ensures forall x :: x in Take(WithBudget(selected, level), 5) ==> x.budget == level
  {
    var x :| x in selected && x.budget == level;
    assert x in WithBudget(selected, level);
  }

  // ---------------------------------------------------------------- formatting

  /** An idea as it arrives from the model's JSON or the text parser: any field may be missing. */
  datatype RawIdea = RawIdea(title: Option<string>, description: Option<string>,
                             category: Option<string>, budget: Option<string>,
                             difficulty: Option<string>, successFactors: Option<seq<string>>,
                             challenges: Option<seq<string>>)

  const EmptyRaw := RawIdea(None, None, None, None, None, None, None)

  /** Fills each missing field with its default. */
  function FormatIdea(raw: RawIdea): (idea: Idea)
    ensures raw.title.None? ==> idea.title == "Business Idea"
    ensures raw.description.None? ==> idea.description == "A promising business opportunity."
    ensures raw.category.None? ==> idea.category == "General"
    ensures raw.budget.None? ==> idea.budget == "Medium"
    ensures raw.difficulty.None? ==> idea.difficulty == "Medium"
    ensures raw.successFactors.None? ==> idea.successFactors == []
    ensures raw.challenges.None? ==> idea.challenges == []
  {
    Idea(raw.title.GetOr("Business Idea"), raw.description.GetOr("A promising business opportunity."),
         raw.category.GetOr("General"), raw.budget.GetOr("Medium"), raw.difficulty.GetOr("Medium"),
         raw.successFactors.GetOr([]), raw.challenges.GetOr([]))
  }

  function Complete(idea: Idea): RawIdea {
    RawIdea(Some(idea.title), Some(idea.description), Some(idea.category), Some(idea.budget),
            Some(idea.difficulty), Some(idea.successFactors), Some(idea.challenges))
  }

  /** Formatting keeps every field that is present: a complete idea comes back unchanged. */
  lemma FormatKeepsPresentFields(idea: Idea)
    ensures FormatIdea(Complete(idea)) == idea
  {
  }

  /** _format_ideas: one formatted idea per input, in order. */
  function FormatIdeas(raws: seq<RawIdea>): (r: seq<Idea>)
    ensures |r| == |raws|
    ensures forall i :: 0 <= i < |r| ==> r[i] == FormatIdea(raws[i])
  {
    seq(|raws|, i requires 0 <= i < |raws| => FormatIdea(raws[i]))
  }

  // ---------------------------------------------------------------- free-text answers

  /** The parser's state: the ideas flushed so far and the one being filled. */
  datatype Scan = Scan(ideas: seq<RawIdea>, current: RawIdea)

  /** What one stripped line does. */
  function ScanLine(st: Scan, line: string): Scan {
    if StartsWith(line, "Title:") || StartsWith(line, "1.") then
      var title := Trim(PyStrip, ReplaceAll(ReplaceAll(line, "Title:", ""), "1.", ""));
      Scan(if st.current != EmptyRaw then st.ideas + [st.current] else st.ideas,
           EmptyRaw.(title := Some(title)))
    else if StartsWith(line, "Description:") then
      st.(current := st.current.(description := Some(Trim(PyStrip, ReplaceAll(line, "Description:", "")))))
    else if StartsWith(line, "Category:") then
      st.(current := st.current.(category := Some(Trim(PyStrip, ReplaceAll(line, "Category:", "")))))
    else if StartsWith(line, "Budget:") then
      st.(current := st.current.(budget := Some(Trim(PyStrip, ReplaceAll(line, "Budget:", "")))))
    else if StartsWith(line, "Difficulty:") then
      st.(current := st.current.(difficulty := Some(Trim(PyStrip, ReplaceAll(line, "Difficulty:", "")))))
    else st
  }

  /** The state after the lines, each stripped first. */
  function ScanLines(lines: seq<string>): Scan {
    if lines == [] then Scan([], EmptyRaw)
    else ScanLine(ScanLines(lines[..|lines| - 1]), Trim(PyStrip, lines[|lines| - 1]))
  }

  /** The parsed ideas: those flushed, then the last one if it holds anything. */
  function Flush(st: Scan): seq<RawIdea> {
    if st.current != EmptyRaw then st.ideas + [st.current] else st.ideas
  }

  /** _extract_ideas_from_text. */
  method ExtractIdeasFromText(text: string) returns (ideas: seq<Idea>)
    ensures ideas == FormatIdeas(Flush(ScanLines(Split(text, '\n'))))
  {
    var lines := Split(text, '\n');
    var found: seq<RawIdea> := [];
    var current := EmptyRaw;
    for i := 0 to |lines|
      invariant Scan(found, current) == ScanLines(lines[..i])
    {
      assert lines[..i + 1][..i] == lines[..i];
      var line := Trim(PyStrip, lines[i]);
      if StartsWith(line, "Title:") || StartsWith(line, "1.") {
        if current != EmptyRaw {
          found := found + [current];
        }
        current := EmptyRaw.(title := Some(Trim(PyStrip, ReplaceAll(ReplaceAll(line, "Title:", ""), "1.", ""))));
      } else if StartsWith(line, "Description:") {
        current := current.(description := Some(Trim(PyStrip, ReplaceAll(line, "Description:", ""))));
      } else if StartsWith(line, "Category:") {
        current := current.(category := Some(Trim(PyStrip, ReplaceAll(line, "Category:", ""))));
      } else if StartsWith(line, "Budget:") {
        current := current.(budget := Some(Trim(PyStrip, ReplaceAll(line, "Budget:", ""))));
      } else if StartsWith(line, "Difficulty:") {
        current := current.(difficulty := Some(Trim(PyStrip, ReplaceAll(line, "Difficulty:", ""))));
      }
    }
    assert lines[..|lines|] == lines;
    if current != EmptyRaw {
      found := found + [current];
    }
    ideas := FormatIdeas(found);
  }

  /** A stripped line that starts a new idea. */
  predicate IsTitleLine(line: string) {
    var l := Trim(PyStrip, line);
    StartsWith(l, "Title:") || StartsWith(l, "1.")
  }

  function TitleLines(lines: seq<string>): nat {
    if lines == [] then 0
    else TitleLines(lines[..|lines| - 1]) + (if IsTitleLine(lines[|lines| - 1]) then 1 else 0)
  }

  /** Every parsed idea holds at least one field, and there is at most one more idea than
      title lines (the fields given before the first title form one). */
  lemma ScanCounts(lines: seq<string>)
    ensures forall r :: r in Flush(ScanLines(lines)) ==> r != EmptyRaw
    ensures |Flush(ScanLines(lines))| <= TitleLines(lines) + 1
  {
    ScanInvariant(lines);
  }

  /** The invariant behind ScanCounts: flushed ideas are non-empty, the current idea is empty
      only before anything was read, and the ideas so far never outnumber the title lines
      plus one. */
  lemma {:induction false} ScanInvariant(lines: seq<string>)
    ensures var st := ScanLines(lines);
      && (forall r :: r in st.ideas ==> r != EmptyRaw)
      && (st.current == EmptyRaw ==> st.ideas == [])
      && |st.ideas| + (if st.current != EmptyRaw then 1 else 0) <= TitleLines(lines) + 1
  {
    if lines != [] {
      ScanInvariant(lines[..|lines| - 1]);
    }
  }

  /** A text with no title or field line yields no idea. */
  lemma {:induction false} NoMarkersNoIdeas(lines: seq<string>)
    requires forall i :: 0 <= i < |lines| ==> ScanLine(Scan([], EmptyRaw), Trim(PyStrip, lines[i])) == Scan([], EmptyRaw)
    ensures Flush(ScanLines(lines)) == []
  {
    if lines != [] {
      NoMarkersNoIdeas(lines[..|lines| - 1]);
    }
  }

  // ---------------------------------------------------------------- financial projections

  /** The business data of the request; a missing key takes its default. */
  datatype BusinessData = BusinessData(monthlyRevenue: Option<real>, growthRate: Option<real>,
                                       monthlyExpenses: Option<real>, initialInvestment: Option<real>,
                                       projectionMonths: Option<int>)

  datatype MonthRow = MonthRow(month: nat, revenue: real, expenses: real, profit: real, cumulativeProfit: real)

  datatype Projections = Projections(monthlyData: seq<MonthRow>, totalRevenue: real, totalExpenses: real,
                                     netProfit: real, breakEvenMonth: Option<nat>, roi: real)

  /** The cumulative profit after k months, counted from minus the initial investment. */
  function Cumulative(base: real, growth: real, expenses: real, initial: real, k: nat): real {
    RevenueTotal(base, growth, k) - ExpensesTotal(expenses, k) - initial
  }

  /** Row i of the monthly data is month i + 1 with its grown revenue, the fixed expenses,
      their difference and the cumulative profit after it. */
  predicate MonthsOk(md: seq<MonthRow>, base: real, growth: real, expenses: real, initial: real) {
    forall i :: 0 <= i < |md| ==>
      md[i] == MonthRow(i + 1, RevenueAt(base, growth, i), expenses,
                        RevenueAt(base, growth, i) - expenses,
                        Cumulative(base, growth, expenses, initial, i + 1))
  }

  /** The break-even month is the first month whose cumulative profit is not negative, or
      None when there is none. */
  predicate IsBreakEven(md: seq<MonthRow>, be: Option<nat>) {
    && (be.Some? ==>
          1 <= be.value <= |md| && md[be.value - 1].cumulativeProfit >= 0.0
          && forall j :: 0 <= j < be.value - 1 ==> md[j].cumulativeProfit < 0.0)
    && (be.None? ==> forall j :: 0 <= j < |md| ==> md[j].cumulativeProfit < 0.0)
  }

  /** generate_financial_projections. */
  method GenerateFinancialProjections(data: BusinessData) returns (p: Projections)
    ensures var base := data.monthlyRevenue.GetOr(0.0);
      var growth := data.growthRate.GetOr(0.05);
      var expenses := data.monthlyExpenses.GetOr(0.0);
      var initial := data.initialInvestment.GetOr(0.0);
      var n := data.projectionMonths.GetOr(12);
      var months := if n > 0 then n else 0;
      && |p.monthlyData| == months
      && MonthsOk(p.monthlyData, base, growth, expenses, initial)
      && p.totalRevenue == RevenueTotal(base, growth, months)
      && p.totalExpenses == ExpensesTotal(expenses, months)
      && p.netProfit == p.totalRevenue - p.totalExpenses - initial
      && IsBreakEven(p.monthlyData, p.breakEvenMonth)
      && p.roi == (if initial > 0.0 then p.netProfit / initial * 100.0 else 0.0)
    ensures |p.monthlyData| >= 1 && p.netProfit >= 0.0 ==> p.breakEvenMonth.Some?
  {
    var base := data.monthlyRevenue.GetOr(0.0);
    var growth := data.growthRate.GetOr(0.05);
    var expenses := data.monthlyExpenses.GetOr(0.0);
    var initial := data.initialInvestment.GetOr(0.0);
    var n := data.projectionMonths.GetOr(12);
    var months: nat := if n > 0 then n else 0;
    var md, totalRevenue, totalExpenses, breakEven := ProjectMonths(base, growth, expenses, initial, months);
    var netProfit := totalRevenue - totalExpenses - initial;
    var roi := 0.0;
    if initial > 0.0 {
      roi := netProfit / initial * 100.0;
    }
    p := Projections(md, totalRevenue, totalExpenses, netProfit, breakEven, roi);
    if months >= 1 {
      assert md[months - 1].cumulativeProfit == netProfit;
    }
  }

  /** The month loop of generate_financial_projections. */
  method ProjectMonths(base: real, growth: real, expenses: real, initial: real, months: nat)
    returns (md: seq<MonthRow>, totalRevenue: real, totalExpenses: real, breakEven: Option<nat>)
    ensures |md| == months && MonthsOk(md, base, growth, expenses, initial)
    ensures totalRevenue == RevenueTotal(base, growth, months)
    ensures totalExpenses == ExpensesTotal(expenses, months)
    ensures IsBreakEven(md, breakEven)
  {
    md := [];
    totalRevenue := 0.0;
    totalExpenses := 0.0;
    breakEven := None;
    var current := base;
    var cumulative := -initial;
    for k := 0 to months
      invariant |md| == k
      invariant current == RevenueAt(base, growth, k)
      invariant totalRevenue == RevenueTotal(base, growth, k)
      invariant totalExpenses == ExpensesTotal(expenses, k)
      invariant cumulative == Cumulative(base, growth, expenses, initial, k)
      invariant MonthsOk(md, base, growth, expenses, initial)
      invariant IsBreakEven(md, breakEven)
    {
      var profit := current - expenses;
      cumulative := cumulative + profit;
      var row := MonthRow(k + 1, current, expenses, profit, cumulative);
      MonthStep(base, growth, expenses, initial, k);
      MonthsOkSnoc(md, base, growth, expenses, initial);
      BreakEvenSnoc(md, breakEven, row);
      md := md + [row];
      totalRevenue := totalRevenue + current;
      totalExpenses := totalExpenses + expenses;
      if breakEven.None? && cumulative >= 0.0 {
        breakEven := Some(k + 1);
      }
      current := Grow(current, growth);
    }
  }

  /** How each running figure moves from one month to the next. */
  lemma MonthStep(base: real, growth: real, expenses: real, initial: real, k: nat)
    ensures RevenueAt(base, growth, k + 1) == Grow(RevenueAt(base, growth, k), growth)
    ensures RevenueTotal(base, growth, k + 1) == RevenueTotal(base, growth, k) + RevenueAt(base, growth, k)
    ensures ExpensesTotal(expenses, k + 1) == ExpensesTotal(expenses, k) + expenses
    ensures Cumulative(base, growth, expenses, initial, k + 1) ==
      Cumulative(base, growth, expenses, initial, k) + (RevenueAt(base, growth, k) - expenses)
  {
  }

  /** The row of the next month extends the monthly data. */
  lemma MonthsOkSnoc(md: seq<MonthRow>, base: real, growth: real, expenses: real, initial: real)
    requires MonthsOk(md, base, growth, expenses, initial)
    ensures var k := |md|;
      MonthsOk(md + [MonthRow(k + 1, RevenueAt(base, growth, k), expenses, RevenueAt(base, growth, k) - expenses,
                              Cumulative(base, growth, expenses, initial, k + 1))],
               base, growth, expenses, initial)
  {
  }

  /** The break-even month is set by the first row that is not negative and kept after it. */
  lemma BreakEvenSnoc(md: seq<MonthRow>, be: Option<nat>, row: MonthRow)
    requires IsBreakEven(md, be)
    ensures IsBreakEven(md + [row], if be.None? && row.cumulativeProfit >= 0.0 then Some(|md| + 1) else be)
  {
  }

  // ---------------------------------------------------------------- advice

  datatype Advice = FundingAdvice | MarketingAdvice | CompetitionAdvice | TeamAdvice | GeneralAdvice

  /** The tests of _get_advice_fallback, in source order. */
  const AdviceRules: seq<Rule<Advice>> := [
    Rule([], ["funding", "investment"], FundingAdvice),
    Rule([], ["marketing"], MarketingAdvice),
    Rule([], ["competition"], CompetitionAdvice),
    Rule([], ["team", "hiring"], TeamAdvice)
  ]

  /** _get_advice_fallback. */
  function GetAdviceFallback(question: string): Advice {
    match Select(AdviceRules, None, Lower(question))
    case None => GeneralAdvice
    case Some(a) => a
  }

  /** A topic's advice is given exactly when its words occur in the lower-cased question and no
      earlier topic's do; the general advice exactly when none occur. */
  lemma AdvicePriority(question: string, i: nat)
    requires i < |AdviceRules|
    ensures var q := Lower(question);
      (GetAdviceFallback(question) == AdviceRules[i].result)
        <==> (KeyHit(AdviceRules[i].keys, q) && forall j :: 0 <= j < i ==> !KeyHit(AdviceRules[j].keys, q))
    ensures (GetAdviceFallback(question) == GeneralAdvice)
        <==> forall j :: 0 <= j < |AdviceRules| ==> !KeyHit(AdviceRules[j].keys, Lower(question))
  {
    var q := Lower(question);
    SelectExactly(AdviceRules, None, q, i);
    SelectNone(AdviceRules, None, q);
    assert forall j :: 0 <= j < |AdviceRules| ==> (Fires(AdviceRules[j], None, q) <==> KeyHit(AdviceRules[j].keys, q));
  }
}
