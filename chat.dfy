/** The chat endpoint: request guards and the keyword cascade of generateAIResponse. */
module Chat {
  import opened Wrappers
  import opened Text
  import opened Dispatch
  import opened Php

  /** The canned answers, one per branch of the cascade. */
  datatype Topic =
    | BusinessPlan | Funding | MarketResearch | Marketing | Financial | Legal | Team
    | WebDevelopment | Automation | MobileApp | Technology | Tourism | Competition
    | Greeting | Help | TechIdeas | Ideas

  /** The three texts of the ideas branch. */
  datatype Place = Musanze | Kigali | Anywhere

  datatype Reply =
    | Answer(topic: Topic)
    | IdeasFor(place: Place)
    /** One of the five default texts, chosen at random. */
    | Default(index: nat)

  /** The tests of generateAIResponse, in source order. */
  const Cascade: seq<Rule<Topic>> := [
    Rule([], ["business plan", "write a business plan"], BusinessPlan),
    Rule([], ["funding", "investment", "money"], Funding),
    Rule([], ["market research"], MarketResearch),
    Rule([], ["marketing"], Marketing),
    Rule([], ["financial", "budget"], Financial),
    Rule([], ["legal", "registration"], Legal),
    Rule([], ["team", "hiring"], Team),
    Rule([], ["website development", "web development"], WebDevelopment),
    Rule([], ["automation software", "automation"], Automation),
    Rule([], ["mobile app", "app development"], MobileApp),
    Rule([], ["technology", "tech"], Technology),
    Rule([], ["tourism", "travel", "hospitality"], Tourism),
    Rule([], ["competition", "competitor"], Competition),
    Rule([], ["hello", "hi"], Greeting),
    Rule([], ["help"], Help),
    Rule([], ["technology business idea", "tech business idea"], TechIdeas),
    Rule([], ["business ideas", "give me ideas", "ideas"], Ideas)
  ]

  /** Where each topic sits in the cascade. */
  function Position(t: Topic): (i: nat)
    ensures i < |Cascade| && Cascade[i].result == t
  {
    match t
    case BusinessPlan => 0
    case Funding => 1
    case MarketResearch => 2
    case Marketing => 3
    case Financial => 4
    case Legal => 5
    case Team => 6
    case WebDevelopment => 7
    case Automation => 8
    case MobileApp => 9
    case Technology => 10
    case Tourism => 11
    case Competition => 12
    case Greeting => 13
    case Help => 14
    case TechIdeas => 15
    case Ideas => 16
  }

  /** No two tests of the cascade give the same answer. */
  lemma PositionOfRule(i: nat)
    requires i < |Cascade|
    ensures Position(Cascade[i].result) == i
  {
  }

  /** The ideas branch looks for 'musanze' before 'kigali'. */
  function IdeasPlace(m: string): (p: Place)
    ensures p == Musanze <==> Contains(m, "musanze")
    ensures p == Kigali <==> !Contains(m, "musanze") && Contains(m, "kigali")
  {
    if Contains(m, "musanze") then Musanze
    else if Contains(m, "kigali") then Kigali
    else Anywhere
  }

  /** generateAIResponse: the history is accepted and never read; `pick` is array_rand's choice. */
  function GenerateAIResponse(message: string, history: Value, pick: nat): Reply
    requires pick < 5
  {
    var m := Lower(message);
    ReplyTo(Select(Cascade, None, m), m, pick)
  }

  /** The text given for the topic the cascade selected (if any) in the lower-cased message `m`. */
  function ReplyTo(selected: Option<Topic>, m: string, pick: nat): (r: Reply)
    ensures r.Answer? <==> selected.Some? && selected.value != Ideas
    ensures r.Answer? ==> r.topic == selected.value
    ensures r.IdeasFor? <==> selected == Some(Ideas)
    ensures r.Default? <==> selected.None?
  {
    match selected
    case None => Default(pick)
    case Some(t) => if t == Ideas then IdeasFor(IdeasPlace(m)) else Answer(t)
  }

  /** Each topic is the answer of one test only. */
  lemma UniqueResult(t: Topic)
    ensures forall k :: 0 <= k < |Cascade| && Cascade[k].result == Cascade[Position(t)].result ==> k == Position(t)
  {
    forall k | 0 <= k < |Cascade| && Cascade[k].result == Cascade[Position(t)].result
      ensures k == Position(t)
    {
      PositionOfRule(k);
    }
  }

  /** A topic is answered exactly when its test matches the lower-cased message and no earlier
      test does. */
  lemma AnswerPrecedence(message: string, history: Value, pick: nat, t: Topic)
    requires pick < 5 && t != Ideas
    ensures var m := Lower(message); var i := Position(t);
      (GenerateAIResponse(message, history, pick) == Answer(t))
        <==> (Fires(Cascade[i], None, m) && forall j :: 0 <= j < i ==> !Fires(Cascade[j], None, m))
  {
    UniqueResult(t);
    SelectExactly(Cascade, None, Lower(message), Position(t));
  }

  /** The ideas branch is taken exactly when one of its phrases matches and no earlier test does;
      it then answers for the place IdeasPlace finds. */
  lemma IdeasPrecedence(message: string, history: Value, pick: nat)
    requires pick < 5
    ensures var m := Lower(message);
      (GenerateAIResponse(message, history, pick).IdeasFor?)
        <==> (Fires(Cascade[16], None, m) && forall j :: 0 <= j < 16 ==> !Fires(Cascade[j], None, m))
    ensures GenerateAIResponse(message, history, pick).IdeasFor? ==>
        GenerateAIResponse(message, history, pick).place == IdeasPlace(Lower(message))
  {
    UniqueResult(Ideas);
    SelectExactly(Cascade, None, Lower(message), 16);
  }

  /** A default text is returned exactly when no test matches, and it is the one picked. */
  lemma DefaultOnlyWhenNothingMatches(message: string, history: Value, pick: nat)
    requires pick < 5
    ensures GenerateAIResponse(message, history, pick).Default?
        <==> forall j :: 0 <= j < |Cascade| ==> !Fires(Cascade[j], None, Lower(message))
    ensures GenerateAIResponse(message, history, pick).Default? ==>
        GenerateAIResponse(message, history, pick).index == pick
  {
    SelectNone(Cascade, None, Lower(message));
  }

  /** The reply depends on the message (and the random pick) only. */
  lemma HistoryIgnored(message: string, h1: Value, h2: Value, pick: nat)
    requires pick < 5
    ensures GenerateAIResponse(message, h1, pick) == GenerateAIResponse(message, h2, pick)
  {
  }

  /** Every phrase of the technology-ideas test contains 'tech', checked earlier. */
  lemma TechIdeasShadowed()
    ensures Shadows(Cascade, 10, 15)
  {
    var k := Cascade[15].keys;
    assert Cascade[10].keys[1] == "tech";
    forall a | 0 <= a < |k| ensures Contains(k[a], Cascade[10].keys[1]) {
      assert k[a][..4] == "tech";
      StartsWithContains(k[a], "tech");
    }
  }

  /** The technology-ideas answer is dead code: no message ever gets it. */
  lemma TechIdeasUnreachable(message: string, history: Value, pick: nat)
    requires pick < 5
    ensures GenerateAIResponse(message, history, pick) != Answer(TechIdeas)
  {
    var m := Lower(message);
    TechIdeasShadowed();
    ShadowedRuleUnreachable(Cascade, 10, 15, None, m);
    var k := FirstMatch(Cascade, None, m);
    if k.Some? {
      PositionOfRule(k.value);
    }
  }

  /** 'hi' is a plain substring test: a message containing it never reaches help or the ideas
      branches, nor a default text. */
  lemma {:induction false} HiPreempts(message: string, history: Value, pick: nat)
    requires pick < 5 && Contains(Lower(message), "hi")
    ensures var r := GenerateAIResponse(message, history, pick);
      r.Answer? && r.topic != Help && r.topic != TechIdeas
  {
    var m := Lower(message);
    assert KeyHit(Cascade[13].keys, m) by {
      assert Cascade[13].keys[1] == "hi";
    }
    var k := FirstMatch(Cascade, None, m);
    assert k.Some? && k.value <= 13;
    PositionOfRule(k.value);
  }

  /** None of the thirteen tests before the greeting matches 'which'. */
  lemma WhichMissesEarlierTests()
    ensures forall j :: 0 <= j < 13 ==> !Fires(Cascade[j], None, "which")
  {
    var m := "which";
    forall j | 0 <= j < 13 ensures !Fires(Cascade[j], None, m) {
      forall a | 0 <= a < |Cascade[j].keys| ensures !Contains(m, Cascade[j].keys[a]) {
        var key := Cascade[j].keys[a];
        if |key| <= 5 {
          assert key[0] == 'm' || key[0] == 'l' || key[0] == 't';
          MissingChar(m, key, 0);
        }
      }
    }
  }

  /** 'which' contains 'hi'. */
  lemma WhichHitsGreeting()
    ensures Fires(Cascade[13], None, "which")
  {
    var m := "which";
    assert m[1..3] == "hi";
    ContainsAt(m, "hi", 1);
    assert Cascade[13].keys[1] == "hi";
  }

  /** So the greeting is the answer to 'which', whatever its case. */
  lemma WhichIsGreeting(message: string, history: Value, pick: nat)
    requires pick < 5 && Lower(message) == "which"
    ensures GenerateAIResponse(message, history, pick) == Answer(Greeting)
  {
    WhichMissesEarlierTests();
    WhichHitsGreeting();
    FirstMatchExactly(Cascade, None, Lower(message), 13);
  }

  /** The longer alternatives add nothing: each test fires exactly when its shortest phrase
      occurs. */
  lemma RedundantAlternatives(m: string)
    ensures KeyHit(Cascade[0].keys, m) <==> Contains(m, "business plan")
    ensures KeyHit(Cascade[8].keys, m) <==> Contains(m, "automation")
    ensures KeyHit(Cascade[16].keys, m) <==> Contains(m, "ideas")
  {
    PlanAlternatives(m);
    AutomationAlternatives(m);
    IdeasAlternatives(m);
  }

  lemma PlanAlternatives(m: string)
    ensures KeyHit(Cascade[0].keys, m) <==> Contains(m, "business plan")
  {
    var k0 := Cascade[0].keys;
    assert k0[1][8..21] == "business plan";
    ContainsAt(k0[1], "business plan", 8);
    RedundantKey(k0, 1, 0, m);
    assert k0[..1] + k0[2..] == ["business plan"];
    SingleKey(Rule([], ["business plan"], BusinessPlan), m);
  }

  lemma AutomationAlternatives(m: string)
    ensures KeyHit(Cascade[8].keys, m) <==> Contains(m, "automation")
  {
    var k8 := Cascade[8].keys;
    assert k8[0][..10] == "automation";
    StartsWithContains(k8[0], "automation");
    RedundantKey(k8, 0, 1, m);
    assert k8[..0] + k8[1..] == ["automation"];
    SingleKey(Rule([], ["automation"], Automation), m);
  }

  lemma IdeasAlternatives(m: string)
    ensures KeyHit(Cascade[16].keys, m) <==> Contains(m, "ideas")
  {
    var k16 := Cascade[16].keys;
    assert k16[0][9..14] == "ideas";
    ContainsAt(k16[0], "ideas", 9);
    RedundantKey(k16, 0, 2, m);
    var k16a := k16[..0] + k16[1..];
    assert k16a == ["give me ideas", "ideas"];
    assert k16a[0][8..13] == "ideas";
    ContainsAt(k16a[0], "ideas", 8);
    RedundantKey(k16a, 0, 1, m);
    assert k16a[..0] + k16a[1..] == ["ideas"];
    SingleKey(Rule([], ["ideas"], Ideas), m);
  }

  // ---------------------------------------------------------------- the request

  datatype ChatResponse =
    /** OPTIONS: status 200 and no body. */
    | Preflight
    /** 405 'Method not allowed'. */
    | MethodNotAllowed
    /** 400 'Message is required'. */
    | MessageRequired
    /** 200 with the reply and the time stamp. */
    | Replied(reply: Reply, timestamp: string)
    /** trim() given an array: PHP raises a TypeError outside the try block. */
    | TypeError

  function StatusCode(r: ChatResponse): int {
    match r
    case Preflight => 200
    case MethodNotAllowed => 405
    case MessageRequired => 400
    case Replied(_, _) => 200
    case TypeError => 500
  }

  /** The endpoint: `body` is the decoded request body (None when json_decode fails), `now` the
      formatted date('Y-m-d H:i:s'). */
  function Handle(httpMethod: string, body: Option<Value>, pick: nat, now: string): (r: ChatResponse)
    requires pick < 5
    ensures httpMethod == "OPTIONS" ==> r == Preflight
    ensures httpMethod != "OPTIONS" && httpMethod != "POST" ==> r == MethodNotAllowed
    ensures r == MessageRequired <==>
      httpMethod == "POST" && (body.None? || Empty(body.value) || Field(body.value, "message").None?)
    ensures r.Replied? ==>
      var text := ScalarText(Field(body.value, "message").value);
      text.Some? && r.timestamp == now &&
      r.reply == GenerateAIResponse(Trim(PhpTrim, text.value), FieldOr(body.value, "history", List([])), pick)
    ensures r == TypeError <==> (httpMethod == "POST" && body.Some? && !Empty(body.value)
      && Field(body.value, "message").Some? && ScalarText(Field(body.value, "message").value).None?)
  {
    if httpMethod == "OPTIONS" then Preflight
    else if httpMethod != "POST" then MethodNotAllowed
    else if body.None? || Empty(body.value) || Field(body.value, "message").None? then MessageRequired
    else
      match ScalarText(Field(body.value, "message").value)
      case None => TypeError
      case Some(text) =>
        var history := FieldOr(body.value, "history", List([]));
        Replied(GenerateAIResponse(Trim(PhpTrim, text), history, pick), now)
  }
}
