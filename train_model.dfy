/** The training-data builder of the business response model: 24 hand-written questions plus
    the questions generated from seven str.format patterns, each tagged with a category and
    its keywords. The classifier training itself (TF-IDF, scikit-learn) is not modelled. */
module TrainResponseModel {
  import opened Wrappers
  import opened Text

  /** The stop set of this module's _extract_keywords (without the pronouns of the generator's). */
  const StopWords: set<string> := {
    "how", "do", "i", "what", "is", "the", "a", "an", "and", "or", "but", "in", "on", "at",
    "to", "for", "of", "with", "by"
  }

  /** _extract_keywords. */
  function ExtractKeywords(text: string): (r: seq<string>)
    ensures forall w :: w in r <==> w in Words(Lower(text)) && w !in StopWords && |w| > 2
  {
    Keywords(text, StopWords)
  }

  // ---------------------------------------------------------------- patterns

  /** A piece of a str.format pattern: literal text or a named placeholder. */
  datatype Segment = Lit(text: string) | Hole(name: string)

  datatype Pattern = Pattern(segments: seq<Segment>, category: string)

  /** "{name}" in pattern. */
  predicate Has(p: Pattern, name: string) {
    Hole(name) in p.segments
  }

  /** pattern.format(**binding); a placeholder the binding lacks (which would raise KeyError,
      and never occurs for the seven patterns) is left as it is. */
  function Format(segments: seq<Segment>, binding: map<string, string>): string {
    if segments == [] then ""
    else
      var piece := match segments[0]
                   case Lit(t) => t
                   case Hole(n) => if n in binding then binding[n] else "{" + n + "}";
      piece + Format(segments[1..], binding)
  }

  const Patterns: seq<Pattern> := [
    Pattern([Lit("How can I "), Hole("action"), Lit("?")], "business_planning"),
    Pattern([Lit("What should I know about "), Hole("topic"), Lit("?")], "business_planning"),
    Pattern([Lit("How do I "), Hole("action"), Lit(" my business?")], "operations"),
    Pattern([Lit("What are the best "), Hole("topic"), Lit(" strategies?")], "marketing"),
    Pattern([Lit("How much "), Hole("financial_aspect"), Lit(" do I need?")], "financial"),
    Pattern([Lit("What "), Hole("legal_aspect"), Lit(" should I consider?")], "legal"),
    Pattern([Lit("How do I "), Hole("action"), Lit(" for "), Hole("purpose"), Lit("?")], "funding")
  ]

  const Actions: seq<string> := ["start", "grow", "scale", "manage", "improve", "optimize"]
  const Topics: seq<string> := ["marketing", "financing", "operations", "legal", "strategy"]
  const FinancialAspects: seq<string> := ["funding", "capital", "investment", "money"]
  const LegalAspects: seq<string> := ["legal requirements", "compliance", "regulations"]
  const Purposes: seq<string> := ["funding", "growth", "success", "expansion"]

  /** Which branch of the if/elif chain a pattern takes. */
  datatype Branch = ActionOnly | TopicBranch | FinancialBranch | LegalBranch | ActionPurpose | NoBranch

  function BranchOf(p: Pattern): Branch {
    if Has(p, "action") && !Has(p, "purpose") then ActionOnly
    else if Has(p, "topic") then TopicBranch
    else if Has(p, "financial_aspect") then FinancialBranch
    else if Has(p, "legal_aspect") then LegalBranch
    else if Has(p, "action") && Has(p, "purpose") then ActionPurpose
    else NoBranch
  }

  /** A pattern with both {action} and {purpose} and no other placeholder reaches the last
      branch, since the first one requires {purpose} to be absent; a pattern with {action}
      alone never does. */
  lemma TwoPlaceholdersReachLastBranch(p: Pattern)
    requires Has(p, "action") && Has(p, "purpose")
    requires !Has(p, "topic") && !Has(p, "financial_aspect") && !Has(p, "legal_aspect")
    ensures BranchOf(p) == ActionPurpose
    ensures forall q :: Has(q, "action") && !Has(q, "purpose") ==> BranchOf(q) != ActionPurpose
  {
  }

  /** The answer text of an example, by what it was made from: a hand-written answer, the
      answer template of a one-placeholder branch filled with its value, or the action/purpose
      answer template. */
  datatype Answer =
    | Written(index: nat)
    | Filled(name: string, value: string)
    | PurposeAnswer(action: string, purpose: string)

  /** One training example; its keywords are those of its question. */
  datatype Example = Example(question: string, category: string, response: Answer) {
    function Keywords(): seq<string> { ExtractKeywords(question) }
  }

  function Make(p: Pattern, binding: map<string, string>, answer: Answer): (e: Example)
    ensures e.category == p.category
  {
    Example(Format(p.segments, binding), p.category, answer)
  }

  /** The examples of a one-placeholder branch: the pattern formatted with each value in turn. */
  function Singles(p: Pattern, name: string, values: seq<string>): (r: seq<Example>)
    ensures |r| == |values|
    ensures forall i :: 0 <= i < |r| ==> r[i] == Make(p, map[name := values[i]], Filled(name, values[i]))
  {
    if values == [] then []
    else
      var v := values[|values| - 1];
      Singles(p, name, values[..|values| - 1]) + [Make(p, map[name := v], Filled(name, v))]
  }

  /** The examples of one action with each purpose in turn. */
  function PurposesFor(p: Pattern, action: string, purposes: seq<string>): (r: seq<Example>)
    ensures |r| == |purposes|
    ensures forall i :: 0 <= i < |r| ==> r[i].category == p.category
  {
    if purposes == [] then []
    else
      var u := purposes[|purposes| - 1];
      PurposesFor(p, action, purposes[..|purposes| - 1])
        + [Make(p, map["action" := action, "purpose" := u], PurposeAnswer(action, u))]
  }

  /** The examples of the two-placeholder branch: every action with every purpose, actions
      outermost. */
  function Pairs(p: Pattern, actions: seq<string>, purposes: seq<string>): (r: seq<Example>)
    ensures |r| == |actions| * |purposes|
    ensures forall i :: 0 <= i < |r| ==> r[i].category == p.category
  {
    if actions == [] then []
    else Pairs(p, actions[..|actions| - 1], purposes) + PurposesFor(p, actions[|actions| - 1], purposes)
  }

  /** The examples one pattern yields. */
  function Expansions(p: Pattern): (r: seq<Example>)
    ensures forall i :: 0 <= i < |r| ==> r[i].category == p.category
  {
    match BranchOf(p)
    case ActionOnly => Singles(p, "action", Actions)
    case TopicBranch => Singles(p, "topic", Topics)
    case FinancialBranch => Singles(p, "financial_aspect", FinancialAspects)
    case LegalBranch => Singles(p, "legal_aspect", LegalAspects)
    case ActionPurpose => Pairs(p, Actions, Purposes)
    case NoBranch => []
  }

  /** The examples of a list of patterns, in order. */
  function AllExpansions(ps: seq<Pattern>): seq<Example> {
    if ps == [] then []
    else AllExpansions(ps[..|ps| - 1]) + Expansions(ps[|ps| - 1])
  }

  /** _create_question_variations. */
  method CreateQuestionVariations() returns (vs: seq<Example>)
    ensures vs == AllExpansions(Patterns)
  {
    vs := [];
    for i := 0 to |Patterns|
      invariant vs == AllExpansions(Patterns[..i])
    {
      var p := Patterns[i];
      assert Patterns[..i + 1][..i] == Patterns[..i];
      if Has(p, "action") && !Has(p, "purpose") {
        vs := FillEach(p, "action", Actions, vs);
      } else if Has(p, "topic") {
        vs := FillEach(p, "topic", Topics, vs);
      } else if Has(p, "financial_aspect") {
        vs := FillEach(p, "financial_aspect", FinancialAspects, vs);
      } else if Has(p, "legal_aspect") {
        vs := FillEach(p, "legal_aspect", LegalAspects, vs);
      } else if Has(p, "action") && Has(p, "purpose") {
        vs := FillPairs(p, Actions, Purposes, vs);
      }
    }
    assert Patterns[..|Patterns|] == Patterns;
  }

  /** The loop of a one-placeholder branch. */
  method FillEach(p: Pattern, name: string, values: seq<string>, start: seq<Example>) returns (vs: seq<Example>)
    ensures vs == start + Singles(p, name, values)
  {
    vs := start;
    for j := 0 to |values|
      invariant vs == start + Singles(p, name, values[..j])
    {
      assert values[..j + 1][..j] == values[..j];
      vs := vs + [Make(p, map[name := values[j]], Filled(name, values[j]))];
    }
    assert values[..|values|] == values;
  }

  /** The nested loop of the two-placeholder branch, over the actions and the purposes. */
  method FillPairs(p: Pattern, actions: seq<string>, purposes: seq<string>, start: seq<Example>) returns (vs: seq<Example>)
    ensures vs == start + Pairs(p, actions, purposes)
  {
    vs := start;
    for a := 0 to |actions|
      invariant vs == start + Pairs(p, actions[..a], purposes)
    {
      PairsSnoc(p, actions, purposes, a);
      vs := FillPurposes(p, actions[a], purposes, vs);
    }
    assert actions[..|actions|] == actions;
  }

  /** Its inner loop: one action with each purpose in turn. */
  method FillPurposes(p: Pattern, action: string, purposes: seq<string>, start: seq<Example>) returns (vs: seq<Example>)
    ensures vs == start + PurposesFor(p, action, purposes)
  {
    vs := start;
    for u := 0 to |purposes|
      invariant vs == start + PurposesFor(p, action, purposes[..u])
    {
      assert purposes[..u + 1][..u] == purposes[..u];
      vs := vs + [Make(p, map["action" := action, "purpose" := purposes[u]], PurposeAnswer(action, purposes[u]))];
    }
    assert purposes[..|purposes|] == purposes;
  }

  lemma PairsSnoc(p: Pattern, actions: seq<string>, purposes: seq<string>, a: nat)
    requires a < |actions|
    ensures Pairs(p, actions[..a + 1], purposes) == Pairs(p, actions[..a], purposes) + PurposesFor(p, actions[a], purposes)
  {
    assert actions[..a + 1][..a] == actions[..a];
  }

  /** The seven patterns take the branches action, topic, action, topic, financial aspect,
      legal aspect and action/purpose: the two-placeholder pattern is the only one reaching
      the last branch. */
  lemma PatternBranches()
    ensures BranchOf(Patterns[0]) == ActionOnly && BranchOf(Patterns[1]) == TopicBranch
    ensures BranchOf(Patterns[2]) == ActionOnly && BranchOf(Patterns[3]) == TopicBranch
    ensures BranchOf(Patterns[4]) == FinancialBranch && BranchOf(Patterns[5]) == LegalBranch
    ensures BranchOf(Patterns[6]) == ActionPurpose
  {
    FirstPatternBranches();
    LastPatternBranches();
  }

  lemma FirstPatternBranches()
    ensures BranchOf(Patterns[0]) == ActionOnly && BranchOf(Patterns[1]) == TopicBranch
    ensures BranchOf(Patterns[2]) == ActionOnly && BranchOf(Patterns[3]) == TopicBranch
  {
  }

  lemma LastPatternBranches()
    ensures BranchOf(Patterns[4]) == FinancialBranch && BranchOf(Patterns[5]) == LegalBranch
    ensures BranchOf(Patterns[6]) == ActionPurpose
  {
  }

  /** So they yield 6, 5, 6, 5, 4, 3 and 24 questions. */
  lemma ExpansionSizes()
    ensures |Expansions(Patterns[0])| == 6 && |Expansions(Patterns[1])| == 5
    ensures |Expansions(Patterns[2])| == 6 && |Expansions(Patterns[3])| == 5
    ensures |Expansions(Patterns[4])| == 4 && |Expansions(Patterns[5])| == 3
    ensures |Expansions(Patterns[6])| == 24
  {
    PatternBranches();
  }

  /** 53 in all. */
  lemma VariationCounts()
    ensures |AllExpansions(Patterns)| == 53
  {
    ExpansionSizes();
    SevenPatternsCount(Patterns);
  }

  /** Seven patterns yielding 6, 5, 6, 5, 4, 3 and 24 questions yield 53. */
  lemma SevenPatternsCount(ps: seq<Pattern>)
    requires |ps| == 7
    requires |Expansions(ps[0])| == 6 && |Expansions(ps[1])| == 5 && |Expansions(ps[2])| == 6
    requires |Expansions(ps[3])| == 5 && |Expansions(ps[4])| == 4 && |Expansions(ps[5])| == 3
    requires |Expansions(ps[6])| == 24
    ensures |AllExpansions(ps)| == 53
  {
    assert ps[..0] == [];
    AllExpansionsSnoc(ps, 0);
    AllExpansionsSnoc(ps, 1);
    AllExpansionsSnoc(ps, 2);
    AllExpansionsSnoc(ps, 3);
    AllExpansionsSnoc(ps, 4);
    AllExpansionsSnoc(ps, 5);
    AllExpansionsSnoc(ps, 6);
    assert ps[..7] == ps;
  }

  lemma AllExpansionsSnoc(ps: seq<Pattern>, i: nat)
    requires i < |ps|
    ensures |AllExpansions(ps[..i + 1])| == |AllExpansions(ps[..i])| + |Expansions(ps[i])|
  {
    assert ps[..i + 1][..i] == ps[..i];
  }

  /** Every generated example carries the category of one of its patterns. */
  lemma {:induction false} ExpansionsTagged(ps: seq<Pattern>)
    ensures forall e :: e in AllExpansions(ps) ==> exists p :: p in ps && e.category == p.category
  {
    if ps != [] {
      var init := ps[..|ps| - 1];
      ExpansionsTagged(init);
      forall e | e in AllExpansions(ps) ensures exists p :: p in ps && e.category == p.category {
        if e in AllExpansions(init) {
          var p :| p in init && e.category == p.category;
          assert p in ps;
        } else {
          var last := ps[|ps| - 1];
          var i :| 0 <= i < |Expansions(last)| && Expansions(last)[i] == e;
          assert last in ps;
        }
      }
    }
  }

  // ---------------------------------------------------------------- the training table

  /** The hand-written questions and their categories, in order (their answers are the
      `Written` texts). */
  const WrittenQuestions: seq<(string, string)> := [
    ("How do I write a business plan?", "business_planning"),
    ("What should be in my executive summary?", "business_planning"),
    ("How do I analyze my target market?", "business_planning"),
    ("What's the difference between mission and vision?", "business_planning"),
    ("How can I get funding for my startup?", "funding"),
    ("What do investors look for?", "funding"),
    ("How much equity should I give investors?", "funding"),
    ("What's the difference between debt and equity financing?", "funding"),
    ("How do I market my startup?", "marketing"),
    ("What's the best social media strategy?", "marketing"),
    ("How do I build brand awareness?", "marketing"),
    ("What's content marketing?", "marketing"),
    ("What legal structure should I choose?", "legal"),
    ("Do I need business insurance?", "legal"),
    ("How do I protect my intellectual property?", "legal"),
    ("What contracts do I need?", "legal"),
    ("How do I hire my first employee?", "operations"),
    ("How do I manage cash flow?", "operations"),
    ("What technology do I need?", "operations"),
    ("How do I scale my business?", "operations"),
    ("How do I price my product?", "financial"),
    ("What financial metrics should I track?", "financial"),
    ("How do I create financial projections?", "financial"),
    ("What's the difference between profit and cash flow?", "financial")
  ]

  /** The six categories of the training table. */
  const Categories: set<string> := {"business_planning", "funding", "marketing", "legal", "operations", "financial"}

  lemma PatternCategories()
    ensures forall p :: p in Patterns ==> p.category in Categories
    ensures forall i :: 0 <= i < |WrittenQuestions| ==> WrittenQuestions[i].1 in Categories
  {
  }

  function WrittenExample(i: nat): Example
    requires i < |WrittenQuestions|
  {
    var (q, c) := WrittenQuestions[i];
    Example(q, c, Written(i))
  }

  /** create_training_data: the hand-written rows, then the variations. */
  method CreateTrainingData() returns (rows: seq<Example>)
    ensures |rows| == 77
    ensures forall i :: 0 <= i < |WrittenQuestions| ==> rows[i] == WrittenExample(i)
    ensures rows[|WrittenQuestions|..] == AllExpansions(Patterns)
    ensures forall e :: e in rows ==> e.category in Categories
  {
    var written := CollectWritten();
    var variations := CreateQuestionVariations();
    rows := written + variations;
    VariationCounts();
    WrittenCategories(written);
    VariationCategories(variations);
    assert rows[|WrittenQuestions|..] == variations;
  }

  /** The loop over the hand-written questions. */
  method CollectWritten() returns (rows: seq<Example>)
    ensures |rows| == |WrittenQuestions|
    ensures forall i :: 0 <= i < |WrittenQuestions| ==> rows[i] == WrittenExample(i)
  {
    rows := [];
    for i := 0 to |WrittenQuestions|
      invariant |rows| == i
      invariant forall k :: 0 <= k < i ==> rows[k] == WrittenExample(k)
    {
      rows := rows + [WrittenExample(i)];
    }
  }

  lemma WrittenCategories(rows: seq<Example>)
    requires |rows| == |WrittenQuestions|
    requires forall i :: 0 <= i < |WrittenQuestions| ==> rows[i] == WrittenExample(i)
    ensures forall e :: e in rows ==> e.category in Categories
  {
    PatternCategories();
    forall e | e in rows ensures e.category in Categories {
      var i :| 0 <= i < |rows| && rows[i] == e;
      assert e == WrittenExample(i);
    }
  }

  lemma VariationCategories(vs: seq<Example>)
    requires vs == AllExpansions(Patterns)
    ensures forall e :: e in vs ==> e.category in Categories
  {
    ExpansionsTagged(Patterns);
    PatternCategories();
  }

  /** predict_category: ValueError when no model is trained or loaded; otherwise the loaded
      classifier's prediction (a parameter). */
  function PredictCategory(model: Option<(string, real)>, question: string): (r: Result<(string, real), string>)
    ensures r.Failure? <==> model.None?
    ensures r.Failure? ==> r.error == "Model not trained or loaded"
    ensures r.Success? ==> r.value == model.value
  {
    if model.None? then Failure("Model not trained or loaded") else Success(model.value)
  }
}
