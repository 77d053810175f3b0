/** The landing page script: the financial projection calculator, the chat box and the sample
    ideas shown when the ideas endpoint is unavailable. (Its addPrintButtonToHtml is the one in
    module PrintControls.) Numbers are JavaScript doubles, modelled as reals. */
module MainPage {
  import opened Wrappers
  import opened Text
  import opened Compounding

  // ---------------------------------------------------------------- financial projections

  /** The six form fields after parseFloat / parseInt: None where the parse gives NaN. */
  datatype FormValues = FormValues(monthlyRevenue: Option<real>, growthRate: Option<real>,
                                   monthlyExpenses: Option<real>, initialInvestment: Option<real>,
                                   projectionMonths: Option<int>, breakEvenMonths: Option<int>)

  datatype Params = Params(monthlyRevenue: real, growthRate: real, monthlyExpenses: real,
                           initialInvestment: real, projectionMonths: int, breakEvenMonths: int)

  /** `x || d`: NaN and zero are falsy, so both give the default. */
  function OrDefault(x: Option<real>, d: real): (r: real)
    ensures x.None? || x.value == 0.0 ==> r == d
    ensures x.Some? && x.value != 0.0 ==> r == x.value
  {
    if x.None? || x.value == 0.0 then d else x.value
  }

  function OrDefaultInt(x: Option<int>, d: int): (r: int)
    ensures x.None? || x.value == 0 ==> r == d
    ensures x.Some? && x.value != 0 ==> r == x.value
  {
    if x.None? || x.value == 0 then d else x.value
  }

  /** The parameters calculateProjections passes on: amounts default to 0, the month count to
      12 (a negative count is kept), the break-even month to 6. */
  function ParamsOf(form: FormValues): (p: Params)
    ensures p.monthlyRevenue == form.monthlyRevenue.GetOr(0.0)
    ensures p.growthRate == form.growthRate.GetOr(0.0)
    ensures p.monthlyExpenses == form.monthlyExpenses.GetOr(0.0)
    ensures p.initialInvestment == form.initialInvestment.GetOr(0.0)
    ensures p.projectionMonths == 12 <==> form.projectionMonths.None? || form.projectionMonths.value in {0, 12}
    ensures p.projectionMonths != 12 ==> p.projectionMonths == form.projectionMonths.value
  {
    Params(OrDefault(form.monthlyRevenue, 0.0), OrDefault(form.growthRate, 0.0),
           OrDefault(form.monthlyExpenses, 0.0), OrDefault(form.initialInvestment, 0.0),
           OrDefaultInt(form.projectionMonths, 12), OrDefaultInt(form.breakEvenMonths, 6))
  }

  datatype MonthEntry = MonthEntry(month: int, revenue: real, expenses: real, profit: real)

  datatype Projections = Projections(totalRevenue: real, totalExpenses: real, netProfit: real,
                                     initialInvestment: real, monthlyData: seq<MonthEntry>,
                                     projectionMonths: int)

  /** Entry i is month i + 1: the first month's revenue grown i times by growthRate percent, the
      fixed expenses, and their difference. */
  predicate EntriesOk(md: seq<MonthEntry>, p: Params) {
    forall i :: 0 <= i < |md| ==>
      md[i] == MonthEntry(i + 1, RevenueAt(p.monthlyRevenue, p.growthRate / 100.0, i), p.monthlyExpenses,
                          RevenueAt(p.monthlyRevenue, p.growthRate / 100.0, i) - p.monthlyExpenses)
  }

  /** calculateFinancialProjections. breakEvenMonths takes no part: the result is fixed by the
      other five parameters. */
  method CalculateFinancialProjections(p: Params) returns (r: Projections)
    ensures var n := if p.projectionMonths > 0 then p.projectionMonths else 0;
      && |r.monthlyData| == n
      && EntriesOk(r.monthlyData, p)
      && r.totalRevenue == RevenueTotal(p.monthlyRevenue, p.growthRate / 100.0, n)
      && r.totalExpenses == ExpensesTotal(p.monthlyExpenses, n)
      && r.netProfit == r.totalRevenue - r.totalExpenses - p.initialInvestment
      && r.initialInvestment == p.initialInvestment
      && r.projectionMonths == p.projectionMonths
  {
    var totalRevenue := 0.0;
    var totalExpenses := 0.0;
    var currentRevenue := p.monthlyRevenue;
    var monthlyData: seq<MonthEntry> := [];
    var month := 1;
    while month <= p.projectionMonths
      invariant 1 <= month && month - 1 <= (if p.projectionMonths > 0 then p.projectionMonths else 0)
      invariant |monthlyData| == month - 1
      invariant currentRevenue == RevenueAt(p.monthlyRevenue, p.growthRate / 100.0, month - 1)
      invariant totalRevenue == RevenueTotal(p.monthlyRevenue, p.growthRate / 100.0, month - 1)
      invariant totalExpenses == ExpensesTotal(p.monthlyExpenses, month - 1)
      invariant EntriesOk(monthlyData, p)
    {
      var revenue := currentRevenue;
      var expenses := p.monthlyExpenses;
      var profit := revenue - expenses;
      totalRevenue := totalRevenue + revenue;
      totalExpenses := totalExpenses + expenses;
      monthlyData := monthlyData + [MonthEntry(month, revenue, expenses, profit)];
      currentRevenue := Grow(currentRevenue, p.growthRate / 100.0);
      month := month + 1;
    }
    var netProfit := totalRevenue - totalExpenses - p.initialInvestment;
    r := Projections(totalRevenue, totalExpenses, netProfit, p.initialInvestment, monthlyData, p.projectionMonths);
  }

  /** calculateProjections: the form values with their defaults, projected. */
  method CalculateProjections(form: FormValues) returns (r: Projections)
    ensures var p := ParamsOf(form);
      var n := if p.projectionMonths > 0 then p.projectionMonths else 0;
      && |r.monthlyData| == n && EntriesOk(r.monthlyData, p)
      && r.netProfit == RevenueTotal(p.monthlyRevenue, p.growthRate / 100.0, n)
                        - ExpensesTotal(p.monthlyExpenses, n) - p.initialInvestment
  {
    r := CalculateFinancialProjections(ParamsOf(form));
  }

  /** The totals in closed form: the net profit of n months is the sum of the grown revenues
      minus n months of expenses and the investment. */
  lemma NetProfitClosedForm(base: real, growthRate: real, expenses: real, initial: real, n: nat)
    ensures RevenueTotal(base, growthRate / 100.0, n) - ExpensesTotal(expenses, n) - initial
      == RevenueTotal(base, growthRate / 100.0, n) - (n as real) * expenses - initial
    ensures n > 0 ==> RevenueAt(base, growthRate / 100.0, n - 1) == base * Pow(1.0 + growthRate / 100.0, n - 1)
  {
    ExpensesClosedForm(expenses, n);
    if n > 0 {
      RevenueClosedForm(base, growthRate / 100.0, n - 1);
    }
  }

  /** An empty form projects twelve months of nothing. */
  lemma EmptyFormProjection(form: FormValues)
    requires form == FormValues(None, None, None, None, None, None)
    ensures var p := ParamsOf(form);
      p.projectionMonths == 12
      && RevenueTotal(p.monthlyRevenue, p.growthRate / 100.0, 12) == 0.0
      && ExpensesTotal(p.monthlyExpenses, 12) == 0.0
  {
    FlatRevenue(0.0, 12);
    ExpensesClosedForm(0.0, 12);
  }

  // ---------------------------------------------------------------- the chat box

  datatype Sender = User | Bot

  /** The error reply shown when the request or its JSON fails. */
  const ChatError := "Sorry, I encountered an error. Please try again."

  datatype HistoryEntry = HistoryEntry(role: Sender, content: string)

  /** The history alternates user and assistant entries, starting with the user. */
  predicate Alternates(h: seq<HistoryEntry>) {
    |h| % 2 == 0 && forall i :: 0 <= i < |h| ==> h[i].role == (if i % 2 == 0 then User else Bot)
  }

  class ChatBox {
    /** The text in the chat input box. */
    var input: string
    /** The messages shown, the loading indicator left out (it is always removed again). */
    var shown: seq<(Sender, string)>
    /** The global chatHistory sent with every request. */
    var chatHistory: seq<HistoryEntry>

    constructor ()
      ensures input == "" && shown == [] && chatHistory == []
    {
      input := "";
      shown := [];
      chatHistory := [];
    }

    /** sendChatMessage. `reply` is data.response of the chat endpoint, None when the request
        or the decoding of its answer threw. An empty (trimmed) message does nothing; the
        history grows by the user's message and the reply only when the request succeeded. */
    method SendChatMessage(reply: Option<string>)
      modifies this
      ensures var message := Trim(JsTrim, old(input));
        message == [] ==> input == old(input) && shown == old(shown) && chatHistory == old(chatHistory)
      ensures var message := Trim(JsTrim, old(input));
        message != [] && reply.Some? ==>
          input == "" && shown == old(shown) + [(User, message), (Bot, reply.value)]
          && chatHistory == old(chatHistory) + [HistoryEntry(User, message), HistoryEntry(Bot, reply.value)]
      ensures var message := Trim(JsTrim, old(input));
        message != [] && reply.None? ==>
          input == "" && shown == old(shown) + [(User, message), (Bot, ChatError)]
          && chatHistory == old(chatHistory)
      ensures Alternates(old(chatHistory)) ==> Alternates(chatHistory)
    {
      var message := Trim(JsTrim, input);
      if message == [] {
        return;
      }
      shown := shown + [(User, message)];
      input := "";
      if reply.Some? {
        shown := shown + [(Bot, reply.value)];
        chatHistory := chatHistory + [HistoryEntry(User, message)];
        chatHistory := chatHistory + [HistoryEntry(Bot, reply.value)];
      } else {
        shown := shown + [(Bot, ChatError)];
      }
    }
  }

  // ---------------------------------------------------------------- sample ideas

  datatype SampleIdea = SampleIdea(title: string, description: string, category: string,
                                   budget: string, difficulty: string)

  const SampleIdeas: seq<SampleIdea> := [
    SampleIdea("Local Food Delivery Service",
               "A hyperlocal food delivery service focusing on home-cooked meals and local restaurants in your area.",
               "Food & Beverage", "Low", "Easy"),
    SampleIdea("Digital Marketing Agency",
               "Provide social media management, SEO, and digital advertising services to local businesses.",
               "Services", "Medium", "Medium"),
    SampleIdea("Eco-Friendly Product Store",
               "Online store selling sustainable and eco-friendly products for environmentally conscious consumers.",
               "E-commerce", "Medium", "Medium"),
    SampleIdea("Virtual Assistant Services",
               "Offer remote administrative, technical, or creative assistance to busy professionals and entrepreneurs.",
               "Services", "Low", "Easy"),
    SampleIdea("Mobile App Development", "Create custom mobile applications for local businesses and startups.",
               "Technology", "High", "Hard")
  ]

  predicate Distinct<T(==)>(s: seq<T>) {
    forall i, j :: 0 <= i < j < |s| ==> s[i] != s[j]
  }

  /** The five sample ideas are distinct (their titles differ). */
  lemma SampleIdeasDistinct()
    ensures |SampleIdeas| == 5 && Distinct(SampleIdeas)
  {
    var t := seq(5, i requires 0 <= i < 5 => SampleIdeas[i].title[0]);
    assert t == ['L', 'D', 'E', 'V', 'M'];
  }

  /** A shuffle decided by the random comparator: new position i holds old position order[i];
      any order the engine produces is a rearrangement of the positions. */
  predicate IsShuffle(order: seq<nat>, n: nat) {
    |order| == n && (forall i :: 0 <= i < n ==> order[i] < n) && Distinct(order)
  }

  function Reorder<T>(s: seq<T>, order: seq<nat>): (r: seq<T>)
    requires IsShuffle(order, |s|)
    ensures |r| == |s| && forall i :: 0 <= i < |s| ==> r[i] == s[order[i]]
  {
    seq(|s|, i requires 0 <= i < |s| => s[order[i]])
  }

  /** A shuffle of distinct elements keeps them distinct and brings in nothing new. */
  lemma ReorderDistinct<T>(s: seq<T>, order: seq<nat>)
    requires IsShuffle(order, |s|) && Distinct(s)
    ensures Distinct(Reorder(s, order))
    ensures forall x :: x in Reorder(s, order) ==> x in s
  {
    var r := Reorder(s, order);
    forall i, j | 0 <= i < j < |r| ensures r[i] != r[j] {
      assert order[i] != order[j];
    }
  }

  /** generateSampleIdeas: Array.prototype.sort shuffles the sample array IN PLACE (so later
      calls start from the previous order) and the first three are returned. */
  method GenerateSampleIdeas(samples: array<SampleIdea>, order: seq<nat>) returns (r: seq<SampleIdea>)
    requires IsShuffle(order, samples.Length)
    modifies samples
    ensures samples[..] == Reorder(old(samples[..]), order)
    ensures r == samples[..if samples.Length < 3 then samples.Length else 3]
  {
    var before := samples[..];
    for i := 0 to samples.Length
      invariant samples[..i] == Reorder(before, order)[..i]
      invariant samples[i..] == before[i..]
    {
      samples[i] := before[order[i]];
      assert samples[..i + 1] == samples[..i] + [samples[i]];
    }
    r := samples[..if samples.Length < 3 then samples.Length else 3];
  }

  /** Whatever the shuffles so far, three distinct sample ideas are offered. */
  lemma ThreeDistinctSamples(s: seq<SampleIdea>, order: seq<nat>)
    requires |s| == 5 && Distinct(s) && forall x :: x in s ==> x in SampleIdeas
    requires IsShuffle(order, 5)
    ensures var r := Reorder(s, order)[..3];
      |r| == 3 && Distinct(r) && forall x :: x in r ==> x in SampleIdeas
    ensures Distinct(Reorder(s, order)) && forall x :: x in Reorder(s, order) ==> x in SampleIdeas
  {
    ReorderDistinct(s, order);
  }
}
