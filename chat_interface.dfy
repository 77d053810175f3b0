/** The command-line chat fallback: an intent-or-keyword cascade and the argument handling
    around it. */
module ChatInterface {
  import opened Wrappers
  import opened Text
  import opened Dispatch
  import opened Php

  datatype Topic = Greeting | Opportunities | Budget | SpecificBusiness | Planning | Export | Help

  datatype Reply =
    | Canned(topic: Topic)
    /** The specific-business text, which quotes the message as given (not lower-cased). */
    | AboutBusiness(message: string)
    /** The default text, which quotes the message as given. */
    | Echo(message: string)

  /** The branches of generate_fallback_response, in source order: each fires on its intent or
      on one of its words occurring in the lower-cased message. */
  const Branches: seq<Rule<Topic>> := [
    Rule(["greeting"], ["hello", "hi", "hey"], Greeting),
    Rule(["business_opportunities"], ["business"], Opportunities),
    Rule(["budget_inquiry"], ["budget", "cost", "investment"], Budget),
    Rule(["specific_business"], ["coffee", "restaurant", "tourism", "agriculture"], SpecificBusiness),
    Rule(["planning"], ["plan"], Planning),
    Rule(["export_request"], ["export", "download", "pdf"], Export),
    Rule(["help"], ["help"], Help)
  ]

  function Position(t: Topic): (i: nat)
    ensures i < |Branches| && Branches[i].result == t
  {
    match t
    case Greeting => 0
    case Opportunities => 1
    case Budget => 2
    case SpecificBusiness => 3
    case Planning => 4
    case Export => 5
    case Help => 6
  }

  /** Each topic is the result of one branch only. */
  lemma UniqueResult(t: Topic)
    ensures forall k :: 0 <= k < |Branches| && Branches[k].result == Branches[Position(t)].result ==> k == Position(t)
  {
    forall k | 0 <= k < |Branches| && Branches[k].result == Branches[Position(t)].result
      ensures k == Position(t)
    {
      assert Position(Branches[k].result) == k;
    }
  }

  /** generate_fallback_response. */
  function FallbackResponse(message: string, intent: Option<string>): Reply {
    match Select(Branches, intent, Lower(message))
    case None => Echo(message)
    case Some(t) => if t == SpecificBusiness then AboutBusiness(message) else Canned(t)
  }

  /** A branch answers exactly when it fires and no earlier branch does; the texts that quote the
      message quote it verbatim. */
  lemma FallbackPrecedence(message: string, intent: Option<string>, t: Topic)
    ensures var m := Lower(message); var i := Position(t);
      (Select(Branches, intent, m) == Some(t))
        <==> (Fires(Branches[i], intent, m) && forall j :: 0 <= j < i ==> !Fires(Branches[j], intent, m))
    ensures var r := FallbackResponse(message, intent);
      (r.Canned? ==> Select(Branches, intent, Lower(message)) == Some(r.topic))
      && (r.AboutBusiness? <==> Select(Branches, intent, Lower(message)) == Some(SpecificBusiness))
      && (r.AboutBusiness? ==> r.message == message)
      && (r.Echo? <==> Select(Branches, intent, Lower(message)).None?)
      && (r.Echo? ==> r.message == message)
  {
    UniqueResult(t);
    SelectExactly(Branches, intent, Lower(message), Position(t));
  }

  /** The default text is given exactly when no intent matches and no branch word occurs. */
  lemma EchoOnlyWhenNothingFires(message: string, intent: Option<string>)
    ensures FallbackResponse(message, intent).Echo?
        <==> forall j :: 0 <= j < |Branches| ==> !Fires(Branches[j], intent, Lower(message))
  {
    SelectNone(Branches, intent, Lower(message));
  }

  /** The greeting test is a substring test, so anything containing 'hi' is greeted, whatever the
      intent. */
  lemma HiIsGreeted(message: string, intent: Option<string>)
    requires Contains(Lower(message), "hi")
    ensures FallbackResponse(message, intent) == Canned(Greeting)
  {
    assert Branches[0].keys[1] == "hi";
    assert Fires(Branches[0], intent, Lower(message));
    FallbackPrecedence(message, intent, Greeting);
  }

  /** A keyword of an earlier branch beats an explicit later intent: a message containing
      'business' and no greeting word gets the opportunities text whatever intent other than
      'greeting' is given, 'planning' or 'budget_inquiry' included. */
  lemma BusinessBeatsLaterIntents(message: string, intent: Option<string>)
    requires Contains(Lower(message), "business") && !KeyHit(Branches[0].keys, Lower(message))
    requires intent != Some("greeting")
    ensures FallbackResponse(message, intent) == Canned(Opportunities)
  {
    assert Branches[1].keys[0] == "business";
    FallbackPrecedence(message, intent, Opportunities);
  }

  /** 'business budget' is answered with the opportunities text, not the budget text. */
  lemma BusinessBudget(m: string)
    requires m == "business budget"
    ensures FallbackResponse(m, None) == Canned(Opportunities)
  {
    BusinessBudgetIsLower(m);
    BusinessBudgetWords(m);
    BusinessBeatsLaterIntents(m, None);
  }

  lemma BusinessBudgetIsLower(m: string)
    requires m == "business budget"
    ensures Lower(m) == m
  {
  }

  lemma BusinessBudgetWords(m: string)
    requires m == "business budget"
    ensures !KeyHit(Branches[0].keys, m) && Contains(m, "business")
  {
    assert m[..8] == "business";
    StartsWithContains(m, "business");
    assert forall k :: 0 <= k < |m| ==> m[k] != 'h';
    forall a | 0 <= a < 3 ensures !Contains(m, Branches[0].keys[a]) {
      MissingChar(m, Branches[0].keys[a], 0);
    }
  }

  // ---------------------------------------------------------------- main

  /** What json.loads made of --history. */
  datatype Decoded = Parsed(value: Value) | Invalid | Raised(error: string)

  datatype Output =
    /** {response, intent, success: true}. */
    | Answered(response: Reply, intent: string)
    /** {response: the fixed apology, error, success: false}. */
    | Apology(error: string)

  function Success(o: Output): bool { o.Answered? }

  /** main: `history` is --history, `decoded` the outcome of json.loads on it (consulted only when
      --history is non-empty). Bad JSON becomes [] and the history is never used. */
  function MainOutput(message: string, history: Option<string>, decoded: Decoded, intent: Option<string>): (o: Output)
    ensures history.Some? && history.value != "" && decoded.Raised? ==> o == Apology(decoded.error)
    ensures Success(o) ==> o.response == FallbackResponse(message, intent)
    ensures Success(o) ==> o.intent == if intent.Some? && intent.value != "" then intent.value else "general_inquiry"
    ensures Success(o) <==> history.None? || history.value == "" || !decoded.Raised?
  {
    if history.Some? && history.value != "" && decoded.Raised? then Apology(decoded.error)
    else
      var reply := FallbackResponse(message, intent);
      Answered(reply, if intent.Some? && intent.value != "" then intent.value else "general_inquiry")
  }

  /** The history never changes the answer. */
  lemma HistoryUnused(message: string, h1: Option<string>, d1: Decoded, h2: Option<string>, d2: Decoded, intent: Option<string>)
    requires Success(MainOutput(message, h1, d1, intent)) && Success(MainOutput(message, h2, d2, intent))
    ensures MainOutput(message, h1, d1, intent) == MainOutput(message, h2, d2, intent)
  {
  }
}
