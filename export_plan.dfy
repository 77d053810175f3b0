/** The business-plan export endpoint: request and format validation, the plan templates and
    their merge with the caller's data, the three document generators (an HTML page for pdf and
    word, a CSV text for excel, an HTML slide deck for powerpoint) and the file names they
    offer. The fixed markup of the HTML documents (styling, headings, the five-year forecast,
    next steps and footer) is abbreviated; every place a plan field enters it is kept. */
module ExportPlan {
  import opened Wrappers
  import opened Text
  import opened Php

  // ---------------------------------------------------------------- the templates

  datatype Template = Template(title: string, summary: string, investment: string, revenue: string,
                               breakEven: string, roi: string, sections: seq<string>)

  const Opening: seq<string> := ["Business Overview", "Startup Investment", "Revenue Potential",
                                 "Prime Locations", "Target Customers"]
  const Middle: seq<string> := ["Marketing Strategy", "Operational Tips", "Legal Requirements",
                                "Success Factors", "Growth Opportunities"]

  /** The section list of a template: the common opening, the type's own sections, the common
      middle, a closing topic, the projections and the plan generation. */
  function Sections(own: seq<string>, closing: string): seq<string> {
    Opening + own + Middle + [closing, "Financial Projections", "Business Plan Generation"]
  }

  const MountainHikingTours: Template := Template(
    "Mountain Hiking Tours Business Plan",
    "A comprehensive guide to starting a mountain hiking tours business in Musanze, Rwanda.",
    "4,300,000-16,000,000 RWF", "1,500,000-8,000,000 RWF per month", "6-10 months", "250-400% by Year 3",
    Sections(["Service Offerings"], "Challenges & Solutions"))
  const VolcanoTrekking: Template := Template(
    "Volcano Trekking Business Plan",
    "A comprehensive guide to starting a volcano trekking business in Musanze, Rwanda.",
    "5,000,000-18,000,000 RWF", "2,000,000-10,000,000 RWF per month", "6-10 months", "300-500% by Year 3",
    Sections(["Service Offerings"], "Challenges & Solutions"))
  const LocalRestaurant: Template := Template(
    "Local Restaurant Business Plan",
    "A comprehensive guide to starting a local restaurant in Musanze, Rwanda.",
    "4,800,000-18,000,000 RWF", "1,500,000-6,000,000 RWF per month", "6-12 months", "200-350% by Year 3",
    Sections(["Menu Categories"], "Challenges & Solutions"))
  const EcoLodges: Template := Template(
    "Eco-lodges Business Plan",
    "A comprehensive guide to starting an eco-lodge business in Musanze, Rwanda.",
    "26,000,000-86,000,000 RWF", "3,000,000-12,000,000 RWF per month", "12-18 months", "150-300% by Year 3",
    Sections(["Service Offerings"], "Challenges & Solutions"))
  const FoodProcessing: Template := Template(
    "Food Processing Business Plan",
    "A comprehensive guide to starting a food processing business in Musanze, Rwanda.",
    "26,000,000-81,000,000 RWF", "1,400,000-6,300,000 RWF per month", "8-12 months", "200-400% by Year 3",
    Sections(["Product Categories", "Processing Methods"], "Challenges & Solutions"))
  const CoffeeProcessing: Template := Template(
    "Coffee Processing Business Plan",
    "A comprehensive guide to starting a coffee processing business in Musanze, Rwanda.",
    "33,000,000-93,000,000 RWF", "2,800,000-13,000,000 RWF per month", "10-15 months", "250-450% by Year 3",
    Sections(["Product Categories", "Processing Methods"], "Challenges & Solutions"))
  const LocalTransport: Template := Template(
    "Local Transport Business Plan",
    "A comprehensive guide to starting a local transport business in Musanze, Rwanda.",
    "1,000,000-6,000,000 RWF", "1,500,000-4,500,000 RWF per month", "4-8 months", "250-400% by Year 3",
    Sections(["Service Offerings"], "Challenges & Solutions"))
  const SouvenirShop: Template := Template(
    "Souvenir Shop Business Plan",
    "A comprehensive guide to starting a souvenir shop in Musanze, Rwanda.",
    "1,500,000-8,000,000 RWF", "1,500,000-4,500,000 RWF per month", "6-10 months", "200-350% by Year 3",
    Sections(["Product Categories"], "Seasonal Considerations"))
  const LocalGuideServices: Template := Template(
    "Local Guide Services Business Plan",
    "A comprehensive guide to starting a local guide services business in Musanze, Rwanda.",
    "4,300,000-18,000,000 RWF", "2,000,000-12,000,000 RWF per month", "6-10 months", "300-500% by Year 3",
    Sections(["Service Offerings"], "Challenges & Solutions"))
  const OrganicFarming: Template := Template(
    "Organic Farming Business Plan",
    "A comprehensive guide to starting an organic farming business in Musanze, Rwanda.",
    "10,000,000-38,000,000 RWF", "4,000,000-15,500,000 RWF per month", "8-12 months", "200-400% by Year 3",
    Sections(["Product Categories", "Farming Methods"], "Challenges & Solutions"))
  const Guesthouse: Template := Template(
    "Guesthouse Business Plan",
    "A comprehensive guide to starting a guesthouse business in Musanze, Rwanda.",
    "5,000,000-30,000,000 RWF", "2,000,000-6,000,000 RWF per month", "8-12 months", "200-350% by Year 3",
    Sections(["Service Offerings"], "Challenges & Solutions"))
  const InternetCafe: Template := Template(
    "Internet Cafe Business Plan",
    "A comprehensive guide to starting an internet cafe business in Musanze, Rwanda.",
    "20,000,000-38,000,000 RWF", "1,500,000-6,000,000 RWF per month", "6-10 months", "200-350% by Year 3",
    Sections(["Service Offerings"], "Challenges & Solutions"))

  const Templates: map<string, Template> := map[
    "Mountain Hiking Tours" := MountainHikingTours,
    "Volcano Trekking" := VolcanoTrekking,
    "Local Restaurant" := LocalRestaurant,
    "Eco-lodges" := EcoLodges,
    "Food Processing" := FoodProcessing,
    "Coffee Processing" := CoffeeProcessing,
    "Local Transport" := LocalTransport,
    "Souvenir Shop" := SouvenirShop,
    "Local Guide Services" := LocalGuideServices,
    "Organic Farming" := OrganicFarming,
    "Guesthouse" := Guesthouse,
    "Internet Cafe" := InternetCafe
  ]


  /** The sections as a PHP list of strings. */
  function StrList(xs: seq<string>): (r: seq<Value>)
    ensures |r| == |xs| && forall i :: 0 <= i < |xs| ==> r[i] == Str(xs[i])
  {
    seq(|xs|, i requires 0 <= i < |xs| => Str(xs[i]))
  }

  /** A template as the PHP array the generators read. */
  function Fields(t: Template): map<string, Value> {
    map["title" := Str(t.title), "executive_summary" := Str(t.summary),
        "startup_investment" := Str(t.investment), "revenue_potential" := Str(t.revenue),
        "break_even" := Str(t.breakEven), "roi" := Str(t.roi), "sections" := List(StrList(t.sections))]
  }

  /** `$businessPlans[$businessType] ?? $businessPlans['Mountain Hiking Tours']`. A scalar that is
      not a string (an integer or boolean key) names no template; an array as a key raises a
      TypeError (None). */
  function TemplateFor(businessType: Value): (r: Option<Template>)
    ensures r.None? <==> businessType.List? || businessType.Obj?
    ensures businessType.Str? && businessType.s in Templates ==> r == Some(Templates[businessType.s])
    ensures r.Some? && !(businessType.Str? && businessType.s in Templates) ==> r == Some(MountainHikingTours)
  {
    match businessType
    case Str(s) => Some(if s in Templates then Templates[s] else MountainHikingTours)
    case List(_) => None
    case Obj(_) => None
    case _ => Some(MountainHikingTours)
  }

  /** `if (!empty($customData)) array_merge($basePlan, $customData)`. An object is merged key by
      key, its keys winning; a list only adds integer keys, which no generator reads; any other
      non-empty value raises a TypeError (None). */
  function Merge(base: map<string, Value>, custom: Value): (r: Option<map<string, Value>>)
    ensures r.None? <==> !Empty(custom) && !custom.List? && !custom.Obj?
    ensures Empty(custom) || custom.List? ==> r == Some(base)
    ensures custom.Obj? && r.Some? ==>
      && r.value.Keys == base.Keys + custom.fields.Keys
      && (forall k :: k in custom.fields ==> r.value[k] == custom.fields[k])
      && (forall k :: k in base && k !in custom.fields ==> r.value[k] == base[k])
  {
    if Empty(custom) then Some(base)
    else
      match custom
      case Obj(m) => Some(base + m)
      case List(_) => Some(base)
      case _ => None
  }

  /** getBusinessPlanData. */
  function GetBusinessPlanData(businessType: Value, custom: Value): (r: Option<map<string, Value>>)
    ensures r.Some? <==> TemplateFor(businessType).Some? && Merge(Fields(TemplateFor(businessType).value), custom).Some?
  {
    match TemplateFor(businessType)
    case None => None
    case Some(t) => Merge(Fields(t), custom)
  }

  /** An unknown business type with no custom data gets the mountain hiking tours plan. */
  lemma UnknownTypeGetsDefault(businessType: string, custom: Value)
    requires businessType !in Templates && Empty(custom)
    ensures GetBusinessPlanData(Str(businessType), custom) == Some(Fields(MountainHikingTours))
  {
  }

  /** Custom data overrides the template field by field and keeps the rest. */
  lemma CustomDataWins(businessType: Value, m: map<string, Value>, key: string)
    requires TemplateFor(businessType).Some? && m != map[]
    ensures var t := TemplateFor(businessType).value;
      var r := GetBusinessPlanData(businessType, Obj(m));
      && r.Some?
      && (key in m ==> r.value[key] == m[key])
      && (key !in m && key in Fields(t) ==> r.value[key] == Fields(t)[key])
  {
  }

  // ---------------------------------------------------------------- reading the plan

  /** `$data[$key]`: null when the key is missing. */
  function Get(data: map<string, Value>, key: string): Value {
    if key in data then data[key] else Null
  }

  /** The text htmlspecialchars (and preg_replace) sees: an array raises a TypeError (None). */
  function HtmlText(data: map<string, Value>, key: string): (r: Option<string>)
    ensures r.None? <==> Get(data, key).List? || Get(data, key).Obj?
  {
    ScalarText(Get(data, key))
  }

  /** What `foreach ($data['sections'] ...)` visits: the items of a list, nothing for a value
      that is not an array (PHP warns and skips the loop). */
  function SectionValues(data: map<string, Value>): seq<Value> {
    match Get(data, "sections")
    case List(xs) => xs
    case _ => []
  }

  datatype PlanTexts = PlanTexts(title: string, summary: string, investment: string, revenue: string,
                                 breakEven: string, roi: string)

  /** The six text fields of the plan, or None when one of them is an array. */
  function Texts(data: map<string, Value>): (r: Option<PlanTexts>)
    ensures r.Some? <==> forall k :: k in TextKeys ==> HtmlText(data, k).Some?
  {
    var ts := seq(6, i requires 0 <= i < 6 => HtmlText(data, TextKeys[i]));
    if forall i :: 0 <= i < 6 ==> ts[i].Some? then
      Some(PlanTexts(ts[0].value, ts[1].value, ts[2].value, ts[3].value, ts[4].value, ts[5].value))
    else None
  }

  const TextKeys: seq<string> := ["title", "executive_summary", "startup_investment",
                                  "revenue_potential", "break_even", "roi"]

  /** The section texts for htmlspecialchars, or None when one of them is an array. */
  function SectionTexts(vs: seq<Value>): (r: Option<seq<string>>)
    ensures r.Some? <==> forall i :: 0 <= i < |vs| ==> ScalarText(vs[i]).Some?
    ensures r.Some? ==> |r.value| == |vs| && forall i :: 0 <= i < |vs| ==> r.value[i] == ScalarText(vs[i]).value
  {
    if vs == [] then Some([])
    else
      match (SectionTexts(vs[..|vs| - 1]), ScalarText(vs[|vs| - 1]))
      case (Some(init), Some(s)) => Some(init + [s])
      case _ => None
  }

  // ---------------------------------------------------------------- the list of sections

  const ItemOpen := "<li>"
  const ItemClose := "</li>"

  /** One list item: the section, escaped. */
  function Item(s: string): string {
    ItemOpen + Escape(s) + ItemClose
  }

  function ListItems(xs: seq<string>): string {
    if xs == [] then "" else Item(xs[0]) + ListItems(xs[1..])
  }

  lemma {:induction false} ListItemsSnoc(xs: seq<string>, x: string)
    ensures ListItems(xs + [x]) == ListItems(xs) + Item(x)
  {
    if xs != [] {
      assert (xs + [x])[1..] == xs[1..] + [x];
      ListItemsSnoc(xs[1..], x);
    }
  }

  /** The longest prefix without a '<'. */
  function UpToTag(s: string): (r: string)
    ensures r <= s && '<' !in r
    ensures |r| < |s| ==> s[|r|] == '<'
  {
    if s == [] || s[0] == '<' then "" else [s[0]] + UpToTag(s[1..])
  }

  lemma {:induction false} UpToTagPrefix(a: string, tail: string)
    requires '<' !in a && tail != [] && tail[0] == '<'
    ensures UpToTag(a + tail) == a
  {
    if a != [] {
      assert (a + tail)[1..] == a[1..] + tail;
      UpToTagPrefix(a[1..], tail);
    } else {
      assert a + tail == tail;
    }
  }

  /** Reading the list back: each `<li>`, the text up to the next tag unescaped, `</li>`. */
  function ParseListItems(s: string): Option<seq<string>>
    decreases |s|
  {
    if s == [] then Some([])
    else if !StartsWith(s, ItemOpen) then None
    else
      var body := UpToTag(s[|ItemOpen|..]);
      var rest := s[|ItemOpen| + |body|..];
      if !StartsWith(rest, ItemClose) then None
      else
        match ParseListItems(rest[|ItemClose|..])
        case None => None
        case Some(xs) => Some([Unescape(body)] + xs)
  }

  /** Escaped text has no '<': a section cannot open a tag of its own. */
  lemma EscapeHasNoTag(s: string)
    ensures '<' !in Escape(s)
  {
    EscapeHasNoSpecial(s);
    var e := Escape(s);
    forall i | 0 <= i < |e| ensures e[i] != '<' {
      assert !Special(e[i]);
    }
  }

  /** One item is read back as its unescaped text, then the rest of the list. */
  lemma ParseItem(e: string, tail: string)
    requires '<' !in e
    ensures ParseListItems(ItemOpen + e + ItemClose + tail) ==
      match ParseListItems(tail)
      case None => None
      case Some(xs) => Some([Unescape(e)] + xs)
  {
    var s := ItemOpen + e + ItemClose + tail;
    assert s == ItemOpen + (e + (ItemClose + tail));
    assert s[..|ItemOpen|] == ItemOpen;
    assert s[|ItemOpen|..] == e + (ItemClose + tail);
    UpToTagPrefix(e, ItemClose + tail);
    var rest := s[|ItemOpen| + |e|..];
    assert rest == ItemClose + tail;
    assert rest[..|ItemClose|] == ItemClose;
    assert rest[|ItemClose|..] == tail;
  }

  /** One `<li>` per section, in order: the list reads back as the sections. */
  lemma {:induction false} ListItemsRoundTrip(xs: seq<string>)
    ensures ParseListItems(ListItems(xs)) == Some(xs)
  {
    if xs != [] {
      EscapeHasNoTag(xs[0]);
      ParseItem(Escape(xs[0]), ListItems(xs[1..]));
      ListItemsRoundTrip(xs[1..]);
      EscapeRoundTrip(xs[0]);
      assert [xs[0]] + xs[1..] == xs;
    }
  }

  /** The number of tags in the list does not depend on the section texts. */
  lemma {:induction false} ListItemsTags(xs: seq<string>)
    ensures multiset(ListItems(xs))['<'] == 2 * |xs|
  {
    if xs != [] {
      ListItemsTags(xs[1..]);
      EscapeHasNoTag(xs[0]);
      assert multiset(Escape(xs[0]))['<'] == 0;
    }
  }

  // ---------------------------------------------------------------- the HTML documents

  const DocOpen := "<!DOCTYPE html><html lang=\"en\"><head><title>"
  const DocHeading := "</title></head><body><div class=\"header\"><h1>"
  const DocDate := "</h1><p>Musanze, Rwanda Business Plan</p><p>Generated on "
  const DocSummary := "</p></div><div class=\"section\"><h2>Executive Summary</h2><p>"
  const DocInvestment := "</p></div><div class=\"section\"><h2>Key Investment Information</h2><h3>Startup Investment</h3><p><strong>"
  const DocRevenue := "</strong></p><h3>Revenue Potential</h3><p><strong>"
  const DocBreakEven := "</strong></p><h3>Break-even Point</h3><p><strong>"
  const DocRoi := "</strong></p><h3>Expected ROI</h3><p><strong>"
  const DocSections := "</strong></p></div><div class=\"section\"><h2>Business Plan Sections</h2><ul>"
  const DocTail := "</ul></div><div class=\"section\"><h2>Financial Projections (5-Year Plan)</h2></div><div class=\"section\"><h2>Next Steps</h2></div></body></html>"

  /** generateHTML up to the list of sections: every plan field escaped. */
  function DocumentIntro(t: PlanTexts, date: string): string {
    DocOpen + Escape(t.title) + DocHeading + Escape(t.title) + DocDate + date
      + DocSummary + Escape(t.summary) + DocInvestment + Escape(t.investment)
      + DocRevenue + Escape(t.revenue) + DocBreakEven + Escape(t.breakEven)
      + DocRoi + Escape(t.roi) + DocSections
  }

  const SlidesOpen := "<!DOCTYPE html><html lang=\"en\"><head><title>"
  const SlidesHeading := " - Presentation</title></head><body><div class=\"slide\"><h1>"
  const SlidesDate := "</h1><p>Musanze, Rwanda</p><p>Generated on "
  const SlidesSummary := "</p></div><div class=\"slide\"><h2>Executive Summary</h2><p>"
  const SlidesInvestment := "</p></div><div class=\"slide\"><h2>Investment Overview</h2><h3>Startup Investment</h3><p>"
  const SlidesRevenue := "</p><h3>Revenue Potential</h3><p>"
  const SlidesBreakEven := "</p></div><div class=\"slide\"><h2>Financial Projections</h2><p>Break-even: "
  const SlidesRoi := "</p><p>ROI: "
  const SlidesSections := "</p></div><div class=\"slide\"><h2>Business Plan Sections</h2><ul>"
  const SlidesTail := "</ul></div><div class=\"slide\"><h2>Next Steps</h2></div><div class=\"navigation\"></div></body></html>"

  /** generatePresentationHTML up to the list of sections. */
  function SlidesIntro(t: PlanTexts, date: string): string {
    SlidesOpen + Escape(t.title) + SlidesHeading + Escape(t.title) + SlidesDate + date
      + SlidesSummary + Escape(t.summary) + SlidesInvestment + Escape(t.investment)
      + SlidesRevenue + Escape(t.revenue) + SlidesBreakEven + Escape(t.breakEven)
      + SlidesRoi + Escape(t.roi) + SlidesSections
  }

  /** The loop appending one list item per section. */
  method AppendItems(html: string, sections: seq<Value>) returns (r: Option<string>)
    ensures r.Some? <==> SectionTexts(sections).Some?
    ensures r.Some? ==> r.value == html + ListItems(SectionTexts(sections).value)
  {
    var out := html;
    for i := 0 to |sections|
      invariant SectionTexts(sections[..i]).Some?
      invariant out == html + ListItems(SectionTexts(sections[..i]).value)
    {
      var t := ScalarText(sections[i]);
      if t.None? {
        return None;
      }
      AppendItemStep(html, sections, i);
      out := out + Item(t.value);
    }
    assert sections[..|sections|] == sections;
    r := Some(out);
  }

  /** One more section read as text adds its item to the list. */
  lemma AppendItemStep(html: string, sections: seq<Value>, i: nat)
    requires i < |sections| && SectionTexts(sections[..i]).Some? && ScalarText(sections[i]).Some?
    ensures SectionTexts(sections[..i + 1]).Some?
    ensures html + ListItems(SectionTexts(sections[..i + 1]).value)
      == html + ListItems(SectionTexts(sections[..i]).value) + Item(ScalarText(sections[i]).value)
  {
    var init, s := SectionTexts(sections[..i]).value, ScalarText(sections[i]).value;
    assert sections[..i + 1][..i] == sections[..i];
    assert SectionTexts(sections[..i + 1]) == Some(init + [s]);
    ListItemsSnoc(init, s);
  }

  /** generateHTML. None: a field or a section is an array (TypeError). */
  method GenerateHtml(data: map<string, Value>, date: string) returns (r: Option<string>)
    ensures r.Some? <==> Texts(data).Some? && SectionTexts(SectionValues(data)).Some?
    ensures r.Some? ==>
      r.value == DocumentIntro(Texts(data).value, date) + ListItems(SectionTexts(SectionValues(data)).value) + DocTail
  {
    var texts := Texts(data);
    if texts.None? {
      return None;
    }
    var html := AppendItems(DocumentIntro(texts.value, date), SectionValues(data));
    if html.None? {
      return None;
    }
    r := Some(html.value + DocTail);
  }

  /** generatePresentationHTML. */
  method GeneratePresentationHtml(data: map<string, Value>, date: string) returns (r: Option<string>)
    ensures r.Some? <==> Texts(data).Some? && SectionTexts(SectionValues(data)).Some?
    ensures r.Some? ==>
      r.value == SlidesIntro(Texts(data).value, date) + ListItems(SectionTexts(SectionValues(data)).value) + SlidesTail
  {
    var texts := Texts(data);
    if texts.None? {
      return None;
    }
    var html := AppendItems(SlidesIntro(texts.value, date), SectionValues(data));
    if html.None? {
      return None;
    }
    r := Some(html.value + SlidesTail);
  }

  // ---------------------------------------------------------------- the CSV

  /** A labelled CSV line: the value is written as it is, never quoted. */
  function CsvField(name: string, v: string): string {
    name + "," + v + "\n"
  }

  const CsvHeading := "Business Plan Data\n"
  const TypeLabel := "Business Type"
  const TitleLabel := "Title"
  const SummaryLabel := "Executive Summary"
  const InvestmentLabel := "Startup Investment"
  const RevenueLabel := "Revenue Potential"
  const BreakEvenLabel := "Break Even"
  const RoiLabel := "ROI"
  const DateLabel := "Generated Date"
  const SectionsHeading := "\nBusiness Plan Sections\n"

  /** generateCSV before the section lines. */
  function CsvIntro(businessType: string, data: map<string, Value>, date: string): string {
    CsvHeading + CsvField(TypeLabel, businessType)
      + CsvField(TitleLabel, Stringify(Get(data, "title")))
      + CsvField(SummaryLabel, Stringify(Get(data, "executive_summary")))
      + CsvField(InvestmentLabel, Stringify(Get(data, "startup_investment")))
      + CsvField(RevenueLabel, Stringify(Get(data, "revenue_potential")))
      + CsvField(BreakEvenLabel, Stringify(Get(data, "break_even")))
      + CsvField(RoiLabel, Stringify(Get(data, "roi")))
      + CsvField(DateLabel, date) + SectionsHeading
  }

  /** The section line of position n (counted from 1). */
  function CsvLine(n: nat, v: Value): string {
    CsvField(NatToString(n), Stringify(v))
  }

  /** The section lines, numbered from 1 in list order. */
  function CsvLines(vs: seq<Value>): string {
    if vs == [] then "" else CsvLines(vs[..|vs| - 1]) + CsvLine(|vs|, vs[|vs| - 1])
  }

  /** The section lines are the lines "i,section" for i = 1..n, one after the other. */
  lemma {:induction false} CsvLinesNumbered(vs: seq<Value>)
    ensures CsvLines(vs) == Concat(seq(|vs|, i requires 0 <= i < |vs| => CsvLine(i + 1, vs[i])))
  {
    var lines := seq(|vs|, i requires 0 <= i < |vs| => CsvLine(i + 1, vs[i]));
    if vs != [] {
      var init := vs[..|vs| - 1];
      CsvLinesNumbered(init);
      var initLines := seq(|init|, i requires 0 <= i < |init| => CsvLine(i + 1, init[i]));
      assert lines == initLines + [CsvLine(|vs|, vs[|vs| - 1])];
      ConcatAppend(initLines, [CsvLine(|vs|, vs[|vs| - 1])]);
    }
  }

  /** A value with k commas fills k + 1 cells of its line, after the label's. */
  lemma CsvFieldCells(name: string, v: string)
    requires ',' !in name
    ensures |Split(name + "," + v, ',')| == multiset(v)[','] + 2
  {
    SplitCount(name + "," + v, ',');
    assert multiset(name)[','] == 0;
  }

  /** The mountain hiking tours investment, written unquoted, fills more than one cell. */
  lemma InvestmentSpansCells()
    ensures |Split(MountainHikingTours.investment, ',')| > 1
  {
    var v := MountainHikingTours.investment;
    assert v[1] == ',';
    SplitCount(v, ',');
  }

  /** The section loop of generateCSV: one numbered line per section. */
  method AppendCsvLines(csv: string, sections: seq<Value>) returns (r: string)
    ensures r == csv + CsvLines(sections)
  {
    r := csv;
    for i := 0 to |sections|
      invariant r == csv + CsvLines(sections[..i])
    {
      CsvLinesSnoc(csv, sections, i);
      r := r + CsvLine(i + 1, sections[i]);
    }
    assert sections[..|sections|] == sections;
  }

  lemma CsvLinesSnoc(csv: string, vs: seq<Value>, i: nat)
    requires i < |vs|
    ensures csv + CsvLines(vs[..i + 1]) == csv + CsvLines(vs[..i]) + CsvLine(i + 1, vs[i])
  {
    assert vs[..i + 1][..i] == vs[..i];
  }

  /** generateCSV. */
  method GenerateCsv(businessType: string, data: map<string, Value>, date: string) returns (csv: string)
    ensures csv == CsvIntro(businessType, data, date) + CsvLines(SectionValues(data))
  {
    csv := AppendCsvLines(CsvIntro(businessType, data, date), SectionValues(data));
  }

  // ---------------------------------------------------------------- file names

  predicate IsFilenameChar(c: char) { IsLetter(c) || IsDigit(c) || c == '_' || c == '-' }

  /** `preg_replace('/[^a-zA-Z0-9_-]/', '_', ...)` (a multi-byte character gives several '_',
      which the next step squeezes to one as well). */
  function ReplaceInvalid(s: string): (r: string)
    ensures |r| == |s| && forall i :: 0 <= i < |s| ==> r[i] == (if IsFilenameChar(s[i]) then s[i] else '_')
  {
    seq(|s|, i requires 0 <= i < |s| => if IsFilenameChar(s[i]) then s[i] else '_')
  }

  predicate NoDoubleUnderscore(s: string) {
    forall i :: 0 <= i < |s| - 1 ==> !(s[i] == '_' && s[i + 1] == '_')
  }

  /** `preg_replace('/_+/', '_', ...)`: every run of '_' becomes one. */
  function Squeeze(s: string): (r: string)
    ensures NoDoubleUnderscore(r)
    ensures forall c :: c in r ==> c in s
    ensures s != [] ==> r != [] && r[0] == s[0]
  {
    if |s| < 2 then s
    else if s[0] == '_' && s[1] == '_' then Squeeze(s[1..])
    else [s[0]] + Squeeze(s[1..])
  }

  /** The number of leading '_'. */
  function LeadingUnderscores(s: string): (k: nat)
    ensures k <= |s| && (forall i :: 0 <= i < k ==> s[i] == '_') && (k < |s| ==> s[k] != '_')
  {
    if s == [] || s[0] != '_' then 0 else 1 + LeadingUnderscores(s[1..])
  }

  /** Where the trailing '_' of s start, not before lo. */
  function TrailingStart(s: string, lo: nat): (k: nat)
    requires lo <= |s|
    ensures lo <= k <= |s| && (forall i :: k <= i < |s| ==> s[i] == '_') && (k > lo ==> s[k - 1] != '_')
    decreases |s|
  {
    if |s| == lo || s[|s| - 1] != '_' then |s| else TrailingStart(s[..|s| - 1], lo)
  }

  /** `trim(..., '_')`: s without its leading and trailing '_'. */
  function TrimUnderscores(s: string): (r: string)
    ensures r == [] || (r[0] != '_' && r[|r| - 1] != '_')
  {
    var lo := LeadingUnderscores(s);
    s[lo..TrailingStart(s, lo)]
  }

  predicate IsCleanFilename(s: string) {
    && (forall i :: 0 <= i < |s| ==> IsFilenameChar(s[i]))
    && NoDoubleUnderscore(s)
    && (s == [] || (s[0] != '_' && s[|s| - 1] != '_'))
  }

  lemma {:induction false} SqueezeClean(s: string)
    requires NoDoubleUnderscore(s)
    ensures Squeeze(s) == s
  {
    if |s| >= 2 {
      SqueezeClean(s[1..]);
      assert [s[0]] + s[1..] == s;
    }
  }

  /** Trimming keeps a run of file-name characters with no '__' free of '__'. */
  lemma TrimKeepsClean(b: string)
    requires forall c :: c in b ==> IsFilenameChar(c)
    requires NoDoubleUnderscore(b)
    ensures IsCleanFilename(TrimUnderscores(b))
  {
    var lo := LeadingUnderscores(b);
    var hi := TrailingStart(b, lo);
    var r := b[lo..hi];
    forall k | 0 <= k < |r| ensures IsFilenameChar(r[k]) {
      assert r[k] == b[lo + k] && b[lo + k] in b;
    }
    forall k | 0 <= k < |r| - 1 ensures !(r[k] == '_' && r[k + 1] == '_') {
      assert r[k] == b[lo + k] && r[k + 1] == b[lo + k + 1];
    }
  }

  /** sanitizeFilename: only [A-Za-z0-9_-], no '__', no '_' at either end. */
  function SanitizeFilename(s: string): (r: string)
    ensures IsCleanFilename(r)
  {
    var b := Squeeze(ReplaceInvalid(s));
    TrimKeepsClean(b);
    TrimUnderscores(b)
  }

  /** A clean name is its own sanitized form. */
  lemma SanitizeClean(s: string)
    requires IsCleanFilename(s)
    ensures SanitizeFilename(s) == s
  {
    assert ReplaceInvalid(s) == s;
    SqueezeClean(s);
    assert LeadingUnderscores(s) == 0;
  }

  /** Sanitizing twice is sanitizing once. */
  lemma SanitizeIdempotent(s: string)
    ensures SanitizeFilename(SanitizeFilename(s)) == SanitizeFilename(s)
  {
    SanitizeClean(SanitizeFilename(s));
  }

  /** When replacing the invalid characters already gives a clean name, that is the result. */
  lemma SanitizeReplaced(s: string)
    requires IsCleanFilename(ReplaceInvalid(s))
    ensures SanitizeFilename(s) == ReplaceInvalid(s)
  {
    SqueezeClean(ReplaceInvalid(s));
    assert LeadingUnderscores(ReplaceInvalid(s)) == 0;
  }

  const GuesthouseFile := "Guesthouse_Business_Plan"

  /** The file name of the Guesthouse plan: each space becomes '_'. */
  lemma GuesthouseFilename()
    ensures SanitizeFilename(Guesthouse.title) == GuesthouseFile
  {
    GuesthouseReplaced();
    GuesthouseFileClean();
    SanitizeReplaced(Guesthouse.title);
  }

  lemma GuesthouseReplaced()
    ensures ReplaceInvalid(Guesthouse.title) == GuesthouseFile
  {
    var t := Guesthouse.title;
    assert t == "Guesthouse Business Plan";
    var r := ReplaceInvalid(t);
    assert |r| == |GuesthouseFile|;
    forall i | 0 <= i < |r| ensures r[i] == GuesthouseFile[i] {
      assert r[i] == (if IsFilenameChar(t[i]) then t[i] else '_');
    }
  }

  lemma GuesthouseFileClean()
    ensures IsCleanFilename(GuesthouseFile)
  {
    var f := GuesthouseFile;
    assert forall i :: 0 <= i < |f| ==> IsFilenameChar(f[i]);
    assert NoDoubleUnderscore(f);
  }

  // ---------------------------------------------------------------- the request

  datatype Content = Html(html: string) | Csv(csv: string)

  /** What a generator returns: the success flag, the format echoed, the document, the file name. */
  datatype GeneratorResult = GeneratorResult(success: bool, format: string, content: Content, filename: string)

  const AllowedFormats: set<string> := {"pdf", "word", "excel", "powerpoint"}

  /** The file-name ending of each format. */
  function FileSuffix(format: string): string {
    if format == "excel" then ".csv" else if format == "powerpoint" then "_presentation.html" else ".html"
  }

  /** Whether the generator for `format` gets its document built: the CSV needs a title that is
      not an array, the HTML pages need every text field and every section to be one. */
  predicate Generates(format: string, data: map<string, Value>) {
    if format == "excel" then HtmlText(data, "title").Some?
    else Texts(data).Some? && SectionTexts(SectionValues(data)).Some?
  }

  /** The document the generator for `format` builds. */
  function Document(format: string, data: map<string, Value>, businessType: string, longDate: string, isoDate: string): Content
    requires Generates(format, data)
  {
    if format == "excel" then Csv(CsvIntro(businessType, data, isoDate) + CsvLines(SectionValues(data)))
    else if format == "powerpoint" then
      Html(SlidesIntro(Texts(data).value, longDate) + ListItems(SectionTexts(SectionValues(data)).value) + SlidesTail)
    else Html(DocumentIntro(Texts(data).value, longDate) + ListItems(SectionTexts(SectionValues(data)).value) + DocTail)
  }

  /** generatePDF / generateWord / generateExcel / generatePowerPoint. */
  method Generate(format: string, data: map<string, Value>, businessType: string, longDate: string, isoDate: string)
    returns (r: Option<GeneratorResult>)
    requires format in AllowedFormats
    ensures r.Some? <==> Generates(format, data)
    ensures r.Some? ==>
      && HtmlText(data, "title").Some?
      && r.value == GeneratorResult(true, format, Document(format, data, businessType, longDate, isoDate),
                                    SanitizeFilename(HtmlText(data, "title").value) + FileSuffix(format))
    ensures r.Some? ==>
      (&& HtmlText(data, "title").Some? && r.value.success && r.value.format == format
       && r.value.filename == SanitizeFilename(HtmlText(data, "title").value) + FileSuffix(format))
    ensures format == "excel" ==> (r.Some? <==> HtmlText(data, "title").Some?)
    ensures format == "excel" && r.Some? ==> r.value.content == Csv(CsvIntro(businessType, data, isoDate) + CsvLines(SectionValues(data)))
    ensures format != "excel" ==> (r.Some? <==> Texts(data).Some? && SectionTexts(SectionValues(data)).Some?)
    ensures format in {"pdf", "word"} && r.Some? ==>
      r.value.content == Html(DocumentIntro(Texts(data).value, longDate) + ListItems(SectionTexts(SectionValues(data)).value) + DocTail)
    ensures format == "powerpoint" && r.Some? ==>
      r.value.content == Html(SlidesIntro(Texts(data).value, longDate) + ListItems(SectionTexts(SectionValues(data)).value) + SlidesTail)
  {
    if format == "excel" {
      r := GenerateExcel(data, businessType, isoDate);
    } else if format == "powerpoint" {
      r := GenerateSlides(data, longDate);
    } else {
      r := GenerateDocument(format, data, longDate);
    }
  }

  /** generateExcel. */
  method GenerateExcel(data: map<string, Value>, businessType: string, isoDate: string)
    returns (r: Option<GeneratorResult>)
    ensures r.Some? <==> HtmlText(data, "title").Some?
    ensures r.Some? ==>
      && r.value.success && r.value.format == "excel"
      && r.value.filename == SanitizeFilename(HtmlText(data, "title").value) + ".csv"
      && r.value.content == Csv(CsvIntro(businessType, data, isoDate) + CsvLines(SectionValues(data)))
  {
    var csv := GenerateCsv(businessType, data, isoDate);
    var title := HtmlText(data, "title");
    if title.None? {
      return None;
    }
    return Some(GeneratorResult(true, "excel", Csv(csv), SanitizeFilename(title.value) + ".csv"));
  }

  /** generatePDF and generateWord: the HTML document. */
  method GenerateDocument(format: string, data: map<string, Value>, longDate: string)
    returns (r: Option<GeneratorResult>)
    requires format in {"pdf", "word"}
    ensures r.Some? <==> Texts(data).Some? && SectionTexts(SectionValues(data)).Some?
    ensures r.Some? ==>
      && HtmlText(data, "title").Some? && r.value.success && r.value.format == format
      && r.value.filename == SanitizeFilename(HtmlText(data, "title").value) + ".html"
      && r.value.content == Html(DocumentIntro(Texts(data).value, longDate) + ListItems(SectionTexts(SectionValues(data)).value) + DocTail)
  {
    var html := GenerateHtml(data, longDate);
    if html.None? {
      return None;
    }
    assert HtmlText(data, TextKeys[0]).Some?;
    r := Some(GeneratorResult(true, format, Html(html.value), SanitizeFilename(HtmlText(data, "title").value) + ".html"));
  }

  /** generatePowerPoint: the slide page. */
  method GenerateSlides(data: map<string, Value>, longDate: string) returns (r: Option<GeneratorResult>)
    ensures r.Some? <==> Texts(data).Some? && SectionTexts(SectionValues(data)).Some?
    ensures r.Some? ==>
      && HtmlText(data, "title").Some? && r.value.success && r.value.format == "powerpoint"
      && r.value.filename == SanitizeFilename(HtmlText(data, "title").value) + "_presentation.html"
      && r.value.content == Html(SlidesIntro(Texts(data).value, longDate) + ListItems(SectionTexts(SectionValues(data)).value) + SlidesTail)
  {
    var html := GeneratePresentationHtml(data, longDate);
    if html.None? {
      return None;
    }
    assert HtmlText(data, TextKeys[0]).Some?;
    r := Some(GeneratorResult(true, "powerpoint", Html(html.value), SanitizeFilename(HtmlText(data, "title").value) + "_presentation.html"));
  }

  datatype ExportResponse =
    /** 405 'Method not allowed'. */
    | MethodNotAllowed
    /** 400 'Missing required parameters'. */
    | MissingParameters
    /** 400 'Invalid format. Allowed: pdf, word, excel, powerpoint'. */
    | InvalidFormat
    /** 200 with the generator's result. */
    | Exported(result: GeneratorResult)
    /** 500 with the generator's result, when it reports no success. */
    | GenerationFailed(result: GeneratorResult)
    /** An uncaught TypeError (array where a string is needed): PHP answers 500. */
    | TypeError

  function StatusCode(r: ExportResponse): int {
    match r
    case MethodNotAllowed => 405
    case MissingParameters => 400
    case InvalidFormat => 400
    case Exported(_) => 200
    case GenerationFailed(_) => 500
    case TypeError => 500
  }

  /** Both parameters are set. */
  predicate HasParameters(input: Value) {
    Field(input, "business_type").Some? && Field(input, "format").Some?
  }

  /** `strtolower($input['format'])`, None for an array. */
  function RequestedFormat(input: Value): (r: Option<string>)
    requires HasParameters(input)
  {
    match ScalarText(Field(input, "format").value)
    case None => None
    case Some(f) => Some(Lower(f))
  }

  /** The endpoint. `body` is the decoded request (None when json_decode fails); the two dates
      are date('F j, Y') and date('Y-m-d'). */
  method Export(httpMethod: string, body: Option<Value>, longDate: string, isoDate: string) returns (r: ExportResponse)
    ensures httpMethod != "POST" ==> r == MethodNotAllowed
    ensures r == MissingParameters <==> httpMethod == "POST" && !HasParameters(body.GetOr(Null))
    ensures r == InvalidFormat <==>
      httpMethod == "POST" && HasParameters(body.GetOr(Null))
      && RequestedFormat(body.GetOr(Null)).Some? && RequestedFormat(body.GetOr(Null)).value !in AllowedFormats
    ensures r.Exported? ==>
      var input := body.GetOr(Null);
      && HasParameters(input) && RequestedFormat(input).Some?
      && var format := RequestedFormat(input).value;
      && format in AllowedFormats && r.result.success && r.result.format == format
      && var data := GetBusinessPlanData(Field(input, "business_type").value, FieldOr(input, "business_data", List([])));
      && data.Some? && HtmlText(data.value, "title").Some?
      && r.result.filename == SanitizeFilename(HtmlText(data.value, "title").value) + FileSuffix(format)
    ensures httpMethod == "POST" && HasParameters(body.GetOr(Null)) ==>
      var input := body.GetOr(Null);
      var data := GetBusinessPlanData(Field(input, "business_type").value, FieldOr(input, "business_data", List([])));
      && (r == TypeError <==>
            RequestedFormat(input).None?
            || (RequestedFormat(input).value in AllowedFormats
                && (data.None? || !Generates(RequestedFormat(input).value, data.value))))
      && (r.Exported? ==>
            var format := RequestedFormat(input).value;
            r.result == GeneratorResult(true, format,
                          Document(format, data.value, Stringify(Field(input, "business_type").value), longDate, isoDate),
                          SanitizeFilename(HtmlText(data.value, "title").value) + FileSuffix(format)))
    ensures !r.GenerationFailed?
  {
    if httpMethod != "POST" {
      return MethodNotAllowed;
    }
    var input := body.GetOr(Null);
    if !HasParameters(input) {
      return MissingParameters;
    }
    var businessType := Field(input, "business_type").value;
    var format := RequestedFormat(input);
    if format.None? {
      return TypeError;
    }
    if format.value !in AllowedFormats {
      return InvalidFormat;
    }
    var data := GetBusinessPlanData(businessType, FieldOr(input, "business_data", List([])));
    if data.None? {
      return TypeError;
    }
    var result := Generate(format.value, data.value, Stringify(businessType), longDate, isoDate);
    if result.None? {
      return TypeError;
    }
    // Every generator reports success, so the 500 answer for a failed generation is never given.
    assert result.value.success;
    r := Exported(result.value);
  }

  /** 'PDF' is accepted: the format is lower-cased before the check. */
  lemma UpperCaseFormatAccepted(input: Value, f: string)
    requires HasParameters(input) && Field(input, "format").value == Str(f)
    requires f == "PDF"
    ensures RequestedFormat(input) == Some("pdf")
  {
    var l := Lower(f);
    assert l[0] == 'p' && l[1] == 'd' && l[2] == 'f';
    assert l == "pdf";
  }
}
