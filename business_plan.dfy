/** The printable business-plan page: the request checks, the defaults of the six inputs and
    the HTML document they are interpolated into. The fixed prose of the document (styling,
    print instructions, bullet lists) is abbreviated; every place an input enters it is kept,
    and so are the ten numbered section headings. */
module BusinessPlan {
  import opened Wrappers
  import opened Text
  import opened Php

  const DefaultName := "My Business"
  const DefaultType := "General"

  /** The six inputs after `?? default`. */
  datatype PlanInput = PlanInput(name: Value, businessType: Value, targetMarket: Value,
                                 mission: Value, advantage: Value, funding: Value)

  /** Each input is the request's field when it is set, its default otherwise. */
  function InputsOf(input: Value): (r: PlanInput)
    ensures r.name == (if Field(input, "businessName").Some? then Field(input, "businessName").value else Str(DefaultName))
    ensures r.businessType == (if Field(input, "businessType").Some? then Field(input, "businessType").value else Str(DefaultType))
    ensures r.targetMarket == (if Field(input, "targetMarket").Some? then Field(input, "targetMarket").value else Str(""))
    ensures r.mission == (if Field(input, "missionStatement").Some? then Field(input, "missionStatement").value else Str(""))
    ensures r.advantage == (if Field(input, "competitiveAdvantage").Some? then Field(input, "competitiveAdvantage").value else Str(""))
    ensures r.funding == (if Field(input, "fundingNeeds").Some? then Field(input, "fundingNeeds").value else Str(""))
  {
    PlanInput(FieldOr(input, "businessName", Str(DefaultName)), FieldOr(input, "businessType", Str(DefaultType)),
              FieldOr(input, "targetMarket", Str("")), FieldOr(input, "missionStatement", Str("")),
              FieldOr(input, "competitiveAdvantage", Str("")), FieldOr(input, "fundingNeeds", Str("")))
  }

  /** The texts interpolated into the page: `"$x"` turns an array into 'Array'. */
  datatype PlanTexts = PlanTexts(name: string, businessType: string, targetMarket: string,
                                 mission: string, advantage: string, funding: string)

  function TextsOf(p: PlanInput): PlanTexts {
    PlanTexts(Stringify(p.name), Stringify(p.businessType), Stringify(p.targetMarket),
              Stringify(p.mission), Stringify(p.advantage), Stringify(p.funding))
  }

  /** ucfirst: the first character upper-cased (ASCII), the rest unchanged. */
  function UcFirst(s: string): (r: string)
    ensures |r| == |s|
    ensures s != [] ==> r[0] == UpperChar(s[0]) && r[1..] == s[1..]
  {
    if s == [] then s else [UpperChar(s[0])] + s[1..]
  }

  // ---------------------------------------------------------------- the sections

  datatype Section = Section(title: string, body: string)

  const SectionTitles: seq<string> := ["Executive Summary", "Company Description", "Market Analysis",
    "Competitive Advantage", "Marketing Strategy", "Operations Plan", "Financial Projections",
    "Risk Analysis", "Implementation Timeline", "Conclusion"]

  const NameLabel := "<p><strong>Business Name:</strong> "
  const TypeLabel := "</p><p><strong>Business Type:</strong> "
  const MissionLabel := "</p><p><strong>Mission Statement:</strong> "
  const FundingLabel := "</p><p><strong>Funding Requirements:</strong> "
  const ParagraphClose := "</p>"
  const ParagraphOpen := "<p>"
  const IsA := " is a "
  const AimsToServe := " business that aims to serve the market through innovative solutions and exceptional service delivery.</p><h3>Mission Statement</h3><div class='highlight'><p>"
  const Objectives := "</p></div><h3>Business Objectives</h3><ul><li>Establish a strong market presence within the first year</li></ul>"
  const TargetMarketOpen := "<h3>Target Market</h3><p>"
  const Opportunity := "</p><h3>Market Opportunity</h3><p>The target market presents significant opportunities for growth and expansion.</p>"
  const HighlightOpen := "<div class='highlight'><p>"
  const Differentiators := "</p></div><h3>Key Differentiators</h3><ul><li>Superior customer service and support</li></ul>"
  const MarketingBody := "<h3>Marketing Objectives</h3><ul><li>Increase brand awareness in target market</li></ul>"
  const OperationsBody := "<h3>Business Operations</h3><p>The business will operate efficiently through streamlined processes.</p>"
  const FundingNeeded := "<h3>Funding Requirements</h3><p><strong>Total Funding Needed:</strong> "
  const FundingUses := "</p><p>Funding will be used for:</p><ul><li>Initial setup and equipment costs</li></ul>"
  const RisksBody := "<h3>Potential Risks</h3><ul><li>Market competition and saturation</li></ul>"
  const TimelineBody := "<h3>Phase 1: Foundation (Months 1-3)</h3><ul><li>Business registration and legal setup</li></ul>"
  const ConclusionText := " presents a compelling business opportunity with strong market potential and clear competitive advantages.</p>"

  /** Section 1's body, grouped by the texts it shows. */
  function ExecutiveSummary(t: PlanTexts): string {
    NameLabel + t.name + (TypeLabel + UcFirst(t.businessType))
      + (MissionLabel + t.mission + (FundingLabel + t.funding + ParagraphClose))
  }

  /** Section 2's body. */
  function CompanyDescription(t: PlanTexts): string {
    ParagraphOpen + (t.name + IsA + Lower(t.businessType) + AimsToServe) + (t.mission + Objectives)
  }

  /** The ten sections, in the order of the page. */
  function PlanSections(t: PlanTexts): (r: seq<Section>)
    ensures |r| == |SectionTitles| && forall i :: 0 <= i < |r| ==> r[i].title == SectionTitles[i]
  {
    [Section(SectionTitles[0], ExecutiveSummary(t)),
     Section(SectionTitles[1], CompanyDescription(t)),
     Section(SectionTitles[2], TargetMarketOpen + t.targetMarket + Opportunity),
     Section(SectionTitles[3], HighlightOpen + t.advantage + Differentiators),
     Section(SectionTitles[4], MarketingBody),
     Section(SectionTitles[5], OperationsBody),
     Section(SectionTitles[6], FundingNeeded + t.funding + FundingUses),
     Section(SectionTitles[7], RisksBody),
     Section(SectionTitles[8], TimelineBody),
     Section(SectionTitles[9], ParagraphOpen + t.name + ConclusionText)]
  }

  const SectionOpen := "<div class='section'>"
  const SectionClose := "</div>"
  const HeadingOpen := "<h2>"
  const HeadingClose := "</h2>"
  const NumberDot := ". "

  /** The numbered heading of a section. */
  function Heading(n: nat, title: string): string {
    HeadingOpen + NatToString(n) + NumberDot + title + HeadingClose
  }

  /** A section: its numbered heading, then its body. */
  function Block(n: nat, s: Section): string {
    SectionOpen + Heading(n, s.title) + s.body + SectionClose
  }

  /** The sections numbered from `from` on, each drawn by `block`. */
  function Numbered(ss: seq<Section>, from: nat, block: (nat, Section) -> string): string {
    if ss == [] then "" else block(from, ss[0]) + Numbered(ss[1..], from + 1, block)
  }

  function Rendered(ss: seq<Section>, from: nat): string {
    Numbered(ss, from, Block)
  }

  /** The sections split around the i-th: the blocks before it, its own block numbered
      from + i, and the blocks after it, numbered on. */
  lemma {:induction false} NumberedAround(ss: seq<Section>, from: nat, i: nat, block: (nat, Section) -> string)
    requires i < |ss|
    ensures Numbered(ss, from, block)
      == Numbered(ss[..i], from, block) + block(from + i, ss[i]) + Numbered(ss[i + 1..], from + i + 1, block)
  {
    if i == 0 {
      assert ss[..0] == [];
    } else {
      NumberedAround(ss[1..], from + 1, i - 1, block);
      assert ss[1..][..i - 1] == ss[..i][1..];
      assert ss[1..][i - 1] == ss[i];
      assert ss[1..][i..] == ss[i + 1..];
      assert ss[..i][0] == ss[0];
    }
  }

  // ---------------------------------------------------------------- the page

  const PageOpen := "<!DOCTYPE html><html><head><meta charset='UTF-8'><title>Business Plan - "
  const PageHeader := "</title></head><body><div class='print-instructions'><h2>Convert to PDF - Easy Steps</h2></div><div class='header'><h1>BUSINESS PLAN</h1><h2>"
  const PageDate := "</h2><p>Generated on "
  const HeaderClose := "</p></div>"
  const FooterOpen := "<div class='footer'><p><em>This business plan was generated by InnoStart AI Assistant</em></p><p><em>Generated on "
  const FooterClose := "</em></p></div></body></html>"

  /** The page up to the sections: the name in the title and in the header, and the date. */
  function Header(t: PlanTexts, date: string): string {
    PageOpen + t.name + (PageHeader + t.name + PageDate + date + HeaderClose)
  }

  function Footer(stamp: string): string {
    FooterOpen + stamp + FooterClose
  }

  /** generateBusinessPlanHTML. `date` is date('F j, Y') and `stamp` the footer's
      date('F j, Y \a\t g:i A'). */
  function Document(t: PlanTexts, date: string, stamp: string): string {
    Header(t, date) + Rendered(PlanSections(t), 1) + Footer(stamp)
  }

  /** The page carries the ten numbered sections in order: section i + 1 is the block with
      heading "i + 1. title", after the blocks before it and before those after it. */
  lemma TenSectionsInOrder(t: PlanTexts, date: string, stamp: string, i: nat)
    requires i < |SectionTitles|
    ensures var ss := PlanSections(t);
      && ss[i].title == SectionTitles[i]
      && Document(t, date, stamp)
           == Header(t, date) + Rendered(ss[..i], 1) + Block(i + 1, ss[i]) + Rendered(ss[i + 1..], i + 2) + Footer(stamp)
  {
    PageAround(Header(t, date), PlanSections(t), Footer(stamp), i);
  }

  lemma PageAround(header: string, ss: seq<Section>, footer: string, i: nat)
    requires i < |ss|
    ensures header + Rendered(ss, 1) + footer
      == header + Rendered(ss[..i], 1) + Block(i + 1, ss[i]) + Rendered(ss[i + 1..], i + 2) + footer
  {
    NumberedAround(ss, 1, i, Block);
  }

  lemma ContainsMiddle(a: string, sub: string, b: string)
    ensures Contains(a + sub + b, sub)
  {
    ContainsAt(a + sub + b, sub, |a|);
  }

  /** A text inside one section's body is inside the page. */
  lemma InSection(t: PlanTexts, date: string, stamp: string, i: nat, sub: string)
    requires i < |SectionTitles| && Contains(PlanSections(t)[i].body, sub)
    ensures Contains(Document(t, date, stamp), sub)
  {
    var ss := PlanSections(t);
    InRendered(ss, 1, i, sub);
    ContainsInRight(Header(t, date), Rendered(ss, 1), sub);
    ContainsInLeft(Header(t, date) + Rendered(ss, 1), Footer(stamp), sub);
  }

  lemma {:induction false} InRendered(ss: seq<Section>, from: nat, i: nat, sub: string)
    requires i < |ss| && Contains(ss[i].body, sub)
    ensures Contains(Rendered(ss, from), sub)
  {
    if i == 0 {
      var pre := SectionOpen + Heading(from, ss[0].title);
      ContainsInRight(pre, ss[0].body, sub);
      ContainsInLeft(pre + ss[0].body, SectionClose, sub);
      ContainsInLeft(Block(from, ss[0]), Rendered(ss[1..], from + 1), sub);
    } else {
      assert ss[1..][i - 1] == ss[i];
      InRendered(ss[1..], from + 1, i - 1, sub);
      ContainsInRight(Block(from, ss[0]), Rendered(ss[1..], from + 1), sub);
    }
  }

  /** The name goes in as it is, unescaped: the page contains it, markup included. */
  lemma NameVerbatim(t: PlanTexts, date: string, stamp: string)
    ensures Contains(Document(t, date, stamp), t.name)
  {
    var h := Header(t, date);
    ContainsMiddle(PageOpen, t.name, PageHeader + t.name + PageDate + date + HeaderClose);
    ContainsInLeft(h, Rendered(PlanSections(t), 1), t.name);
    ContainsInLeft(h + Rendered(PlanSections(t), 1), Footer(stamp), t.name);
  }

  /** The type is shown ucfirst in the executive summary and lower-cased in the company
      description. */
  lemma TypeCasing(t: PlanTexts, date: string, stamp: string)
    ensures Contains(Document(t, date, stamp), TypeLabel + UcFirst(t.businessType))
    ensures Contains(Document(t, date, stamp), t.name + IsA + Lower(t.businessType) + AimsToServe)
  {
    var sub1 := TypeLabel + UcFirst(t.businessType);
    ContainsMiddle(NameLabel + t.name, sub1, MissionLabel + t.mission + (FundingLabel + t.funding + ParagraphClose));
    InSection(t, date, stamp, 0, sub1);
    var sub2 := t.name + IsA + Lower(t.businessType) + AimsToServe;
    ContainsMiddle(ParagraphOpen, sub2, t.mission + Objectives);
    InSection(t, date, stamp, 1, sub2);
  }

  /** The other four texts each appear in their section. */
  lemma TextsVerbatim(t: PlanTexts, date: string, stamp: string)
    ensures Contains(Document(t, date, stamp), t.mission)
    ensures Contains(Document(t, date, stamp), t.funding)
    ensures Contains(Document(t, date, stamp), t.targetMarket)
    ensures Contains(Document(t, date, stamp), t.advantage)
  {
    var pre := NameLabel + t.name + (TypeLabel + UcFirst(t.businessType));
    ContainsMiddle(MissionLabel, t.mission, FundingLabel + t.funding + ParagraphClose);
    ContainsInRight(pre, MissionLabel + t.mission + (FundingLabel + t.funding + ParagraphClose), t.mission);
    InSection(t, date, stamp, 0, t.mission);
    ContainsMiddle(FundingNeeded, t.funding, FundingUses);
    InSection(t, date, stamp, 6, t.funding);
    ContainsMiddle(TargetMarketOpen, t.targetMarket, Opportunity);
    InSection(t, date, stamp, 2, t.targetMarket);
    ContainsMiddle(HighlightOpen, t.advantage, Differentiators);
    InSection(t, date, stamp, 3, t.advantage);
  }

  // ---------------------------------------------------------------- the request

  datatype PlanResponse =
    /** 200 with no body, for OPTIONS. */
    | Preflight
    /** 405 'Method not allowed'. */
    | MethodNotAllowed
    /** 400 'Invalid input'. */
    | InvalidInput
    /** 200 with the page. */
    | Page(html: string)
    /** ucfirst or strtolower given an array: an uncaught TypeError, answered with 500. */
    | TypeError

  function StatusCode(r: PlanResponse): int {
    match r
    case Preflight => 200
    case MethodNotAllowed => 405
    case InvalidInput => 400
    case Page(_) => 200
    case TypeError => 500
  }

  const CorsHeaders: seq<string> := ["Access-Control-Allow-Origin: *", "Access-Control-Allow-Methods: POST",
                                     "Access-Control-Allow-Headers: Content-Type"]
  const HtmlHeaders: seq<string> := ["Content-Type: text/html; charset=UTF-8",
    "Cache-Control: no-cache, no-store, must-revalidate", "Pragma: no-cache", "Expires: 0"]
  const JsonContentType := "Content-Type: application/json"

  /** The headers sent: the page alone gets the HTML content type and the no-cache headers;
      no answer is declared JSON, although the errors carry JSON bodies. */
  function Headers(r: PlanResponse): (hs: seq<string>)
    ensures JsonContentType !in hs
    ensures r.Page? <==> (forall h :: h in HtmlHeaders ==> h in hs)
  {
    var hs := CorsHeaders + (if r.Page? then HtmlHeaders else []);
    assert r.Page? || HtmlHeaders[0] !in hs;
    hs
  }

  /** The endpoint. `body` is the decoded request (None when json_decode fails). */
  function Handle(httpMethod: string, body: Option<Value>, date: string, stamp: string): (r: PlanResponse)
    ensures httpMethod == "OPTIONS" <==> r == Preflight
    ensures r == MethodNotAllowed <==> httpMethod != "OPTIONS" && httpMethod != "POST"
    ensures r == InvalidInput <==> httpMethod == "POST" && Empty(body.GetOr(Null))
    ensures r.TypeError? <==>
      httpMethod == "POST" && !Empty(body.GetOr(Null))
      && (InputsOf(body.GetOr(Null)).businessType.List? || InputsOf(body.GetOr(Null)).businessType.Obj?)
    ensures r.Page? ==> r.html == Document(TextsOf(InputsOf(body.GetOr(Null))), date, stamp)
  {
    if httpMethod == "OPTIONS" then Preflight
    else if httpMethod != "POST" then MethodNotAllowed
    else
      var input := body.GetOr(Null);
      if Empty(input) then InvalidInput
      else
        var p := InputsOf(input);
        if p.businessType.List? || p.businessType.Obj? then TypeError
        else Page(Document(TextsOf(p), date, stamp))
  }

  const InputKeys: seq<string> := ["businessName", "businessType", "targetMarket", "missionStatement",
                                   "competitiveAdvantage", "fundingNeeds"]

  /** A request with none of the fields gets the page of 'My Business', of type 'General'. */
  lemma DefaultsPage(body: Value, date: string, stamp: string)
    requires !Empty(body)
    requires forall k :: k in InputKeys ==> Field(body, k).None?
    ensures Handle("POST", Some(body), date, stamp)
      == Page(Document(PlanTexts(DefaultName, DefaultType, "", "", "", ""), date, stamp))
  {
    var p := InputsOf(body);
    assert p == PlanInput(Str(DefaultName), Str(DefaultType), Str(""), Str(""), Str(""), Str("")) by {
      assert Field(body, InputKeys[0]).None? && Field(body, InputKeys[1]).None? && Field(body, InputKeys[2]).None?;
      assert Field(body, InputKeys[3]).None? && Field(body, InputKeys[4]).None? && Field(body, InputKeys[5]).None?;
    }
    assert TextsOf(p) == PlanTexts(DefaultName, DefaultType, "", "", "", "");
    assert !p.businessType.List? && !p.businessType.Obj?;
    var r := Handle("POST", Some(body), date, stamp);
    assert r.Page?;
    assert r.html == Document(TextsOf(p), date, stamp);
  }
}
