/** The business-ideas endpoint: template ideas chosen by location, interests and budget,
    de-duplicated by title and description, scored by relevance, sorted by score and cut to
    five, with a fixed fallback when nothing was chosen. */
module Ideas {
  import opened Wrappers
  import opened Text
  import opened Php

  /** Which template list an idea comes from; it decides the idea's score. */
  datatype Relevance = LocationRelevance | InterestRelevance | BudgetRelevance | NoRelevance

  /** A template idea (its difficulty, success factors and challenges are not reproduced). */
  datatype Idea = Idea(title: string, description: string, category: string, budget: string,
                       relevance: Relevance)

  // ---------------------------------------------------------------- location ideas

  const UrbanIdeas: seq<Idea> := [
    Idea("Urban Food Delivery Service",
         "Fast food delivery service for busy urban professionals, focusing on healthy and local options.",
         "Food & Delivery", "Medium", LocationRelevance),
    Idea("Co-working Space Management",
         "Manage and operate flexible co-working spaces for freelancers and remote workers.",
         "Real Estate", "High", LocationRelevance)
  ]
  const RuralIdeas: seq<Idea> := [
    Idea("Agricultural Consulting Service",
         "Provide consulting services to local farmers on modern farming techniques and technology.",
         "Agriculture", "Low", LocationRelevance),
    Idea("Rural Tourism Experience",
         "Create unique rural tourism experiences like farm stays, nature tours, and local crafts workshops.",
         "Tourism", "Medium", LocationRelevance)
  ]
  const CoastalIdeas: seq<Idea> := [
    Idea("Marine Equipment Rental",
         "Rent out water sports equipment, boats, and fishing gear to tourists and locals.",
         "Tourism", "Medium", LocationRelevance)
  ]

  predicate IsCity(l: string) { Contains(l, "city") || Contains(l, "urban") }
  predicate IsRural(l: string) { Contains(l, "rural") || Contains(l, "country") }
  predicate IsCoastal(l: string) { Contains(l, "coast") || Contains(l, "beach") }

  /** getLocationBasedIdeas: the three tests on the lower-cased location are independent and
      their ideas accumulate in that order. */
  function LocationIdeas(location: string): (r: seq<Idea>)
    ensures var l := Lower(location);
      |r| == (if IsCity(l) then 2 else 0) + (if IsRural(l) then 2 else 0) + (if IsCoastal(l) then 1 else 0)
    ensures forall x :: x in r ==> x.relevance == LocationRelevance
  {
    var l := Lower(location);
    (if IsCity(l) then UrbanIdeas else []) + (if IsRural(l) then RuralIdeas else [])
      + (if IsCoastal(l) then CoastalIdeas else [])
  }

  // ---------------------------------------------------------------- interest ideas

  datatype Interest = Technology | Food | Fashion | Fitness | Art

  /** The switch of getInterestBasedIdeas: each interest has two spellings. */
  function Recognise(keyword: string): (r: Option<Interest>)
    ensures r == Some(Technology) <==> keyword == "technology" || keyword == "tech"
    ensures r == Some(Food) <==> keyword == "food" || keyword == "cooking"
    ensures r == Some(Fashion) <==> keyword == "fashion" || keyword == "clothing"
    ensures r == Some(Fitness) <==> keyword == "fitness" || keyword == "health"
    ensures r == Some(Art) <==> keyword == "art" || keyword == "creative"
  {
    if keyword == "technology" || keyword == "tech" then Some(Technology)
    else if keyword == "food" || keyword == "cooking" then Some(Food)
    else if keyword == "fashion" || keyword == "clothing" then Some(Fashion)
    else if keyword == "fitness" || keyword == "health" then Some(Fitness)
    else if keyword == "art" || keyword == "creative" then Some(Art)
    else None
  }

  const TechnologyIdeas: seq<Idea> := [
    Idea("Local Tech Support Service",
         "Provide in-home and remote tech support for individuals and small businesses.",
         "Technology", "Low", InterestRelevance),
    Idea("Mobile App Development Agency",
         "Create custom mobile applications for local businesses and startups.",
         "Technology", "Medium", InterestRelevance)
  ]
  const FoodIdeas: seq<Idea> := [
    Idea("Home-based Catering Service",
         "Provide catering services for small events, parties, and corporate meetings.",
         "Food & Beverage", "Low", InterestRelevance),
    Idea("Cooking Classes & Workshops",
         "Offer cooking classes for different skill levels and dietary preferences.",
         "Education", "Low", InterestRelevance)
  ]
  const FashionIdeas: seq<Idea> := [
    Idea("Online Fashion Boutique", "Curate and sell unique fashion items through an online store.",
         "E-commerce", "Medium", InterestRelevance),
    Idea("Personal Styling Service", "Offer personal styling and wardrobe consulting services.",
         "Services", "Low", InterestRelevance)
  ]
  const FitnessIdeas: seq<Idea> := [
    Idea("Personal Training Service", "Provide one-on-one fitness training and wellness coaching.",
         "Health & Fitness", "Low", InterestRelevance),
    Idea("Online Fitness Coaching", "Offer virtual fitness programs and nutrition coaching.",
         "Health & Fitness", "Low", InterestRelevance)
  ]
  const ArtIdeas: seq<Idea> := [
    Idea("Art Classes & Workshops", "Teach various art forms including painting, drawing, and crafts.",
         "Education", "Low", InterestRelevance),
    Idea("Custom Art Commission Service", "Create custom artwork for individuals and businesses.",
         "Creative Services", "Low", InterestRelevance)
  ]

  function IdeasOf(i: Interest): (r: seq<Idea>)
    ensures |r| == 2 && forall x :: x in r ==> x.relevance == InterestRelevance
  {
    match i
    case Technology => TechnologyIdeas
    case Food => FoodIdeas
    case Fashion => FashionIdeas
    case Fitness => FitnessIdeas
    case Art => ArtIdeas
  }

  /** How many keywords are recognised. */
  function Recognised(keywords: seq<string>): nat {
    if keywords == [] then 0
    else Recognised(keywords[..|keywords| - 1]) + (if Recognise(keywords[|keywords| - 1]).Some? then 1 else 0)
  }

  /** getInterestBasedIdeas: each recognised keyword adds its two ideas, in keyword order. */
  function InterestIdeas(keywords: seq<string>): (r: seq<Idea>)
    ensures |r| == 2 * Recognised(keywords)
    ensures forall x :: x in r ==> x.relevance == InterestRelevance
  {
    if keywords == [] then []
    else
      var init := InterestIdeas(keywords[..|keywords| - 1]);
      match Recognise(keywords[|keywords| - 1])
      case None => init
      case Some(i) => init + IdeasOf(i)
  }

  /** The interest keywords: the lower-cased text split on commas, each piece trimmed. */
  function InterestKeywords(interests: string): (r: seq<string>)
    ensures |r| == |Split(Lower(interests), ',')|
    ensures forall i :: 0 <= i < |r| ==> r[i] == Trim(PhpTrim, Split(Lower(interests), ',')[i])
  {
    var parts := Split(Lower(interests), ',');
    seq(|parts|, i requires 0 <= i < |parts| => Trim(PhpTrim, parts[i]))
  }

  // ---------------------------------------------------------------- budget ideas

  const LowBudgetIdeas: seq<Idea> := [
    Idea("Virtual Assistant Services", "Provide remote administrative and support services to businesses.",
         "Services", "Low", BudgetRelevance),
    Idea("Content Writing Service", "Offer blog writing, copywriting, and content creation services.",
         "Services", "Low", BudgetRelevance),
    Idea("Social Media Management", "Manage social media accounts for small businesses and entrepreneurs.",
         "Marketing", "Low", BudgetRelevance)
  ]
  const MediumBudgetIdeas: seq<Idea> := [
    Idea("E-commerce Store", "Launch an online store selling curated products in a specific niche.",
         "E-commerce", "Medium", BudgetRelevance),
    Idea("Local Service Business",
         "Start a service-based business like cleaning, landscaping, or home repairs.",
         "Services", "Medium", BudgetRelevance)
  ]
  const HighBudgetIdeas: seq<Idea> := [
    Idea("Retail Store", "Open a physical retail store in a high-traffic location.",
         "Retail", "High", BudgetRelevance),
    Idea("Restaurant or Cafe", "Launch a small restaurant or cafe with a unique concept.",
         "Food & Beverage", "High", BudgetRelevance)
  ]
  const LargeBudgetIdeas: seq<Idea> := [
    Idea("Manufacturing Business", "Start a small manufacturing operation for specialized products.",
         "Manufacturing", "High", BudgetRelevance),
    Idea("Technology Startup", "Develop and launch a technology product or platform.",
         "Technology", "High", BudgetRelevance)
  ]

  /** The case a budget value selects in the switch, by PHP's loose comparison: a string is
      compared as it is, `true` equals the first (non-empty) case, anything else no case. */
  function BudgetCase(budget: Value): string {
    match budget
    case Str(s) => s
    case Bool(b) => if b then "0-1000" else ""
    case _ => ""
  }

  /** getBudgetBasedIdeas: ideas only for the four exact budget strings. */
  function BudgetIdeas(budget: string): (r: seq<Idea>)
    ensures r != [] <==> budget in {"0-1000", "1000-5000", "5000-10000", "10000+"}
    ensures forall x :: x in r ==> x.relevance == BudgetRelevance
  {
    if budget == "0-1000" then LowBudgetIdeas
    else if budget == "1000-5000" then MediumBudgetIdeas
    else if budget == "5000-10000" then HighBudgetIdeas
    else if budget == "10000+" then LargeBudgetIdeas
    else []
  }

  // ---------------------------------------------------------------- de-duplication

  /** The identity of an idea: its title followed by its description (hashed by md5). */
  function Key(x: Idea): string { x.title + x.description }

  function Keys(xs: seq<Idea>): set<string> {
    set x | x in xs :: Key(x)
  }

  /** Element i is the first with its key. */
  predicate FirstOfKey(xs: seq<Idea>, i: nat)
    requires i < |xs|
  {
    forall k :: 0 <= k < i ==> Key(xs[k]) != Key(xs[i])
  }

  /** The ideas in order, each dropped when an earlier one had the same key. */
  function Dedupe(xs: seq<Idea>): (r: seq<Idea>)
    ensures |r| <= |xs| && forall x :: x in r ==> x in xs
    ensures Keys(r) == Keys(xs)
    ensures forall i, j :: 0 <= i < j < |r| ==> Key(r[i]) != Key(r[j])
  {
    if xs == [] then []
    else
      var init := Dedupe(xs[..|xs| - 1]);
      var x := xs[|xs| - 1];
      assert Keys(xs) == Keys(xs[..|xs| - 1]) + {Key(x)} by {
        assert xs == xs[..|xs| - 1] + [x];
      }
      if Key(x) in Keys(init) then init
      else
        assert forall i :: 0 <= i < |init| ==> Key(init[i]) in Keys(init);
        init + [x]
  }

  /** Dedupe keeps the first idea of each key ... */
  lemma {:induction false} DedupeKeepsFirsts(xs: seq<Idea>)
    ensures forall i :: 0 <= i < |xs| && FirstOfKey(xs, i) ==> xs[i] in Dedupe(xs)
  {
    if xs != [] {
      var init := xs[..|xs| - 1];
      var x := xs[|xs| - 1];
      DedupeKeepsFirsts(init);
      var d := Dedupe(init);
      assert d <= Dedupe(xs);
      forall i | 0 <= i < |xs| && FirstOfKey(xs, i) ensures xs[i] in Dedupe(xs) {
        if i < |init| {
          assert FirstOfKey(init, i);
          assert init[i] in d;
        } else {
          forall y | y in init ensures Key(y) != Key(x) {
            var k :| 0 <= k < |init| && init[k] == y;
            assert xs[k] == y;
          }
          assert Dedupe(xs) == d + [x];
        }
      }
    }
  }

  /** ... and nothing else. */
  lemma {:induction false} DedupeOnlyFirsts(xs: seq<Idea>)
    ensures forall y :: y in Dedupe(xs) ==> exists i :: 0 <= i < |xs| && xs[i] == y && FirstOfKey(xs, i)
  {
    if xs != [] {
      var init := xs[..|xs| - 1];
      var x := xs[|xs| - 1];
      DedupeOnlyFirsts(init);
      var d := Dedupe(init);
      forall y | y in Dedupe(xs) ensures exists i :: 0 <= i < |xs| && xs[i] == y && FirstOfKey(xs, i) {
        if y in d {
          var i :| 0 <= i < |init| && init[i] == y && FirstOfKey(init, i);
          assert xs[i] == y && FirstOfKey(xs, i);
        } else {
          assert y == x && Key(x) !in Keys(d);
          forall k | 0 <= k < |init| ensures Key(xs[k]) != Key(x) {
            assert init[k] in init;
            assert Key(init[k]) in Keys(init);
          }
          assert FirstOfKey(xs, |xs| - 1);
        }
      }
    }
  }

  /** The seen-set loop of generateBusinessIdeas. */
  method RemoveDuplicates(all: seq<Idea>) returns (unique: seq<Idea>)
    ensures unique == Dedupe(all)
  {
    unique := [];
    var seen: set<string> := {};
    for i := 0 to |all|
      invariant unique == Dedupe(all[..i])
      invariant seen == Keys(unique)
    {
      DedupeSnoc(all, i);
      var key := Key(all[i]);
      if key !in seen {
        seen := seen + {key};
        unique := unique + [all[i]];
      }
    }
    assert all[..|all|] == all;
  }

  /** One more idea: kept exactly when its key is new. */
  lemma DedupeSnoc(xs: seq<Idea>, i: nat)
    requires i < |xs|
    ensures Dedupe(xs[..i + 1]) ==
      if Key(xs[i]) in Keys(Dedupe(xs[..i])) then Dedupe(xs[..i]) else Dedupe(xs[..i]) + [xs[i]]
  {
    assert xs[..i + 1][..i] == xs[..i];
  }

  // ---------------------------------------------------------------- scoring and sorting

  /** calculateIdeaScore: 3 for location or interest relevance, 2 for budget relevance, plus 1. */
  function Score(x: Idea): (s: int)
    ensures x.relevance == LocationRelevance || x.relevance == InterestRelevance <==> s == 4
    ensures x.relevance == BudgetRelevance <==> s == 3
  {
    (if x.relevance == LocationRelevance then 3 else 0)
      + (if x.relevance == InterestRelevance then 3 else 0)
      + (if x.relevance == BudgetRelevance then 2 else 0)
      + 1
  }

  datatype Scored = Scored(idea: Idea, score: int)

  /** Inserting into a list sorted by descending score: after every element scoring at least as
      much (so equal scores keep their order, as PHP 8's stable usort does). */
  function Insert(x: Scored, s: seq<Scored>): seq<Scored> {
    if s == [] || s[|s| - 1].score >= x.score then s + [x]
    else Insert(x, s[..|s| - 1]) + [s[|s| - 1]]
  }

  /** usort by descending score, stable. */
  function SortByScore(xs: seq<Scored>): seq<Scored> {
    if xs == [] then []
    else Insert(xs[|xs| - 1], SortByScore(xs[..|xs| - 1]))
  }

  lemma {:induction false} InsertPermutes(x: Scored, s: seq<Scored>)
    ensures multiset(Insert(x, s)) == multiset(s) + multiset{x}
  {
    if s != [] && s[|s| - 1].score < x.score {
      InsertPermutes(x, s[..|s| - 1]);
      assert s == s[..|s| - 1] + [s[|s| - 1]];
    }
  }

  /** The sorted list is a permutation of the input. */
  lemma {:induction false} SortPermutes(xs: seq<Scored>)
    ensures multiset(SortByScore(xs)) == multiset(xs)
  {
    if xs != [] {
      SortPermutes(xs[..|xs| - 1]);
      InsertPermutes(xs[|xs| - 1], SortByScore(xs[..|xs| - 1]));
      assert xs == xs[..|xs| - 1] + [xs[|xs| - 1]];
    }
  }

  predicate Descending(s: seq<Scored>) {
    forall i, j :: 0 <= i < j < |s| ==> s[i].score >= s[j].score
  }

  lemma {:induction false} InsertSorted(x: Scored, s: seq<Scored>)
    requires Descending(s)
    ensures Descending(Insert(x, s))
  {
    if s != [] && s[|s| - 1].score < x.score {
      var init := s[..|s| - 1];
      InsertSorted(x, init);
      var r := Insert(x, init);
      InsertPermutes(x, init);
      assert multiset(r) == multiset(init) + multiset{x};
      forall e | e in r ensures e.score >= s[|s| - 1].score {
        assert e in multiset(r);
        if e != x {
          assert e in multiset(init);
          var k :| 0 <= k < |init| && init[k] == e;
        }
      }
    }
  }

  /** The sorted list is a permutation in descending score order. */
  lemma {:induction false} SortedDescending(xs: seq<Scored>)
    ensures Descending(SortByScore(xs))
  {
    if xs != [] {
      SortedDescending(xs[..|xs| - 1]);
      InsertSorted(xs[|xs| - 1], SortByScore(xs[..|xs| - 1]));
    }
  }

  /** One pass of the sort: x moved back past the lower-scored elements at the end of s. */
  method InsertByScore(x: Scored, s: seq<Scored>) returns (r: seq<Scored>)
    ensures r == Insert(x, s)
  {
    var j := |s|;
    assert s[..j] == s && s[j..] == [];
    while j > 0 && s[j - 1].score < x.score
      invariant 0 <= j <= |s|
      invariant Insert(x, s) == Insert(x, s[..j]) + s[j..]
    {
      InsertPassStep(x, s, j);
      j := j - 1;
    }
    InsertPassEnd(x, s, j);
    r := s[..j] + [x] + s[j..];
  }

  /** Moving x back past s[j - 1], which scores less. */
  lemma InsertPassStep(x: Scored, s: seq<Scored>, j: nat)
    requires 0 < j <= |s| && s[j - 1].score < x.score
    ensures Insert(x, s[..j]) + s[j..] == Insert(x, s[..j - 1]) + s[j - 1..]
  {
    assert s[..j][..j - 1] == s[..j - 1];
    assert s[j - 1..] == [s[j - 1]] + s[j..];
  }

  /** x stops behind an element scoring at least as much, or at the front. */
  lemma InsertPassEnd(x: Scored, s: seq<Scored>, j: nat)
    requires j <= |s| && (j == 0 || s[j - 1].score >= x.score)
    ensures Insert(x, s[..j]) == s[..j] + [x]
  {
  }

  /** usort: each element in turn inserted into the sorted prefix. */
  method Usort(xs: seq<Scored>) returns (ys: seq<Scored>)
    ensures ys == SortByScore(xs)
  {
    ys := [];
    for i := 0 to |xs|
      invariant ys == SortByScore(xs[..i])
    {
      assert xs[..i + 1][..i] == xs[..i];
      ys := InsertByScore(xs[i], ys);
    }
    assert xs[..|xs|] == xs;
  }

  function WithScore(xs: seq<Scored>, s: int): (r: seq<Scored>)
    ensures forall e :: e in r <==> e in xs && e.score == s
  {
    if xs == [] then []
    else
      assert xs == xs[..|xs| - 1] + [xs[|xs| - 1]];
      WithScore(xs[..|xs| - 1], s) + (if xs[|xs| - 1].score == s then [xs[|xs| - 1]] else [])
  }

  /** Inserting x behind a block scoring at least x.score and before one scoring less. */
  lemma {:induction false} InsertBetween(x: Scored, s: seq<Scored>, t: seq<Scored>)
    requires forall e :: e in s ==> e.score >= x.score
    requires forall e :: e in t ==> e.score < x.score
    ensures Insert(x, s + t) == s + [x] + t
  {
    if t != [] {
      var t0 := t[..|t| - 1];
      assert s + t == (s + t0) + [t[|t| - 1]];
      assert (s + t)[..|s + t| - 1] == s + t0;
      InsertBetween(x, s, t0);
      assert s + [x] + t == (s + [x] + t0) + [t[|t| - 1]];
    } else {
      assert s + t == s;
      if s != [] {
        assert s[|s| - 1] in s;
      }
    }
  }

  /** With scores 4 and 3 only, sorting puts every 4 first and every 3 after, each group in its
      original order. */
  lemma {:induction false} TwoScoreSort(xs: seq<Scored>)
    requires forall e :: e in xs ==> e.score == 4 || e.score == 3
    ensures SortByScore(xs) == WithScore(xs, 4) + WithScore(xs, 3)
  {
    if xs != [] {
      var init := xs[..|xs| - 1];
      var x := xs[|xs| - 1];
      assert xs == init + [x];
      TwoScoreSort(init);
      if x.score == 4 {
        TwoScoreStepHigh(init, x);
      } else {
        TwoScoreStepLow(init, x);
      }
    }
  }

  lemma {:induction false} TwoScoreStepHigh(init: seq<Scored>, x: Scored)
    requires x.score == 4
    requires SortByScore(init) == WithScore(init, 4) + WithScore(init, 3)
    ensures SortByScore(init + [x]) == WithScore(init + [x], 4) + WithScore(init + [x], 3)
  {
    var xs := init + [x];
    assert xs[..|xs| - 1] == init && xs[|xs| - 1] == x;
    assert SortByScore(xs) == Insert(x, SortByScore(init));
    WithScoreSnoc(init, x, 4);
    WithScoreSnoc(init, x, 3);
    var high, low := WithScore(init, 4), WithScore(init, 3);
    assert forall e :: e in high ==> e.score == 4;
    assert forall e :: e in low ==> e.score == 3;
    assert WithScore(xs, 4) == high + [x] && WithScore(xs, 3) == low;
    InsertHigh(x, high, low);
  }

  lemma {:induction false} TwoScoreStepLow(init: seq<Scored>, x: Scored)
    requires x.score == 3
    requires SortByScore(init) == WithScore(init, 4) + WithScore(init, 3)
    ensures SortByScore(init + [x]) == WithScore(init + [x], 4) + WithScore(init + [x], 3)
  {
    var xs := init + [x];
    assert xs[..|xs| - 1] == init && xs[|xs| - 1] == x;
    assert SortByScore(xs) == Insert(x, SortByScore(init));
    WithScoreSnoc(init, x, 4);
    WithScoreSnoc(init, x, 3);
    var high, low := WithScore(init, 4), WithScore(init, 3);
    assert forall e :: e in high ==> e.score == 4;
    assert forall e :: e in low ==> e.score == 3;
    assert WithScore(xs, 4) == high && WithScore(xs, 3) == low + [x];
    InsertLow(x, high, low);
  }

  lemma {:induction false} InsertHigh(x: Scored, high: seq<Scored>, low: seq<Scored>)
    requires x.score == 4
    requires forall e :: e in high ==> e.score == 4
    requires forall e :: e in low ==> e.score == 3
    ensures Insert(x, high + low) == (high + [x]) + low
  {
    InsertBetween(x, high, low);
  }

  lemma {:induction false} InsertLow(x: Scored, high: seq<Scored>, low: seq<Scored>)
    requires x.score == 3
    requires forall e :: e in high ==> e.score == 4
    requires forall e :: e in low ==> e.score == 3
    ensures Insert(x, high + low) == high + (low + [x])
  {
    InsertBetween(x, high + low, []);
    assert high + low + [] == high + low;
  }

  lemma {:induction false} WithScoreSnoc(init: seq<Scored>, x: Scored, s: int)
    ensures WithScore(init + [x], s) == WithScore(init, s) + (if x.score == s then [x] else [])
  {
    assert (init + [x])[..|init|] == init;
  }

  function ScoreAll(xs: seq<Idea>): (r: seq<Scored>)
    ensures |r| == |xs| && forall i :: 0 <= i < |xs| ==> r[i] == Scored(xs[i], Score(xs[i]))
  {
    seq(|xs|, i requires 0 <= i < |xs| => Scored(xs[i], Score(xs[i])))
  }

  function IdeasOfScored(xs: seq<Scored>): (r: seq<Idea>)
    ensures |r| == |xs| && forall i :: 0 <= i < |xs| ==> r[i] == xs[i].idea
  {
    seq(|xs|, i requires 0 <= i < |xs| => xs[i].idea)
  }

  function Take<T>(xs: seq<T>, n: nat): (r: seq<T>)
    ensures |r| == if |xs| < n then |xs| else n
    ensures r <= xs
  {
    if |xs| <= n then xs else xs[..n]
  }

  /** Every idea chosen by location, interests or budget, in that order. */
  function Candidates(location: string, interests: string, budget: string): seq<Idea> {
    LocationIdeas(location) + InterestIdeas(InterestKeywords(interests)) + BudgetIdeas(budget)
  }

  /** The ranking of generateBusinessIdeas: duplicates dropped, ideas sorted by descending
      score, at most five kept. The result is a selection of the candidates, empty only when
      there are none. */
  function Rank(cands: seq<Idea>): (r: seq<Idea>)
    ensures |r| <= 5
    ensures r == [] <==> cands == []
    ensures forall x :: x in r ==> x in cands
  {
    RankSelects(cands);
    IdeasOfScored(Take(SortByScore(ScoreAll(Dedupe(cands))), 5))
  }

  /** generateBusinessIdeas. */
  method GenerateBusinessIdeas(location: string, interests: string, budget: string) returns (ideas: seq<Idea>)
    ensures ideas == Rank(Candidates(location, interests, budget))
  {
    ideas := RankIdeas(Candidates(location, interests, budget));
  }

  /** The loops of generateBusinessIdeas after the candidates are collected. */
  method RankIdeas(all: seq<Idea>) returns (ideas: seq<Idea>)
    ensures ideas == Rank(all)
  {
    var unique := RemoveDuplicates(all);
    var scored: seq<Scored> := [];
    for i := 0 to |unique|
      invariant scored == ScoreAll(unique[..i])
    {
      scored := scored + [Scored(unique[i], Score(unique[i]))];
    }
    assert unique[..|unique|] == unique;
    var sorted := Usort(scored);
    ideas := IdeasOfScored(Take(sorted, 5));
  }

  /** A ranking in which every budget idea comes after every location or interest idea. */
  predicate BudgetLast(ranked: seq<Scored>) {
    forall i, j :: 0 <= i < j < |ranked| && ranked[j].idea.relevance != BudgetRelevance
      ==> ranked[i].idea.relevance != BudgetRelevance
  }

  /** No budget idea is ranked before a location or interest idea. */
  lemma BudgetIdeasRankLast(location: string, interests: string, budget: string)
    ensures BudgetLast(SortByScore(ScoreAll(Dedupe(Candidates(location, interests, budget)))))
  {
    var cands := Candidates(location, interests, budget);
    CandidatesRelevant(location, interests, budget);
    RankedByScore(Dedupe(cands));
  }

  /** Every candidate comes from one of the three template families. */
  lemma CandidatesRelevant(location: string, interests: string, budget: string)
    ensures forall x :: x in Candidates(location, interests, budget) ==> x.relevance != NoRelevance
  {
    var l, i, b := LocationIdeas(location), InterestIdeas(InterestKeywords(interests)), BudgetIdeas(budget);
    assert Candidates(location, interests, budget) == l + i + b;
  }

  /** Ideas that all have a relevance are ranked location and interest ideas first. */
  lemma RankedByScore(ideas: seq<Idea>)
    requires forall x :: x in ideas ==> x.relevance != NoRelevance
    ensures BudgetLast(SortByScore(ScoreAll(ideas)))
  {
    var xs := ScoreAll(ideas);
    SortedDescending(xs);
    var ranked := SortByScore(xs);
    SortPermutes(xs);
    forall i | 0 <= i < |ranked|
      ensures ranked[i].score == Score(ranked[i].idea) && ranked[i].idea.relevance != NoRelevance
    {
      assert ranked[i] in multiset(ranked);
      var k :| 0 <= k < |xs| && xs[k] == ranked[i];
      assert ideas[k] in ideas;
    }
  }

  // ---------------------------------------------------------------- the request

  /** The answer when nothing was chosen. */
  const FallbackIdeas: seq<Idea> := [
    Idea("Local Service Business",
         "Start a service-based business tailored to your local community needs.",
         "Services", "Medium", NoRelevance),
    Idea("Online Consulting",
         "Offer consulting services in your area of expertise through online platforms.",
         "Services", "Low", NoRelevance),
    Idea("E-commerce Store",
         "Create an online store selling products in a niche you're passionate about.",
         "E-commerce", "Medium", NoRelevance)
  ]

  datatype IdeasResponse =
    /** OPTIONS: 200 and no body. */
    | Preflight
    /** 405 'Method not allowed'. */
    | MethodNotAllowed
    /** 400 'Invalid input'. */
    | InvalidInput
    /** 200 with the ideas, the three inputs as received and the time stamp. */
    | Generated(ideas: seq<Idea>, location: Value, interests: Value, budget: Value, timestamp: string)
    /** strtolower of an array: PHP raises a TypeError, which the endpoint's catch of
        Exception does not handle. */
    | TypeError

  function StatusCode(r: IdeasResponse): int {
    match r
    case Preflight => 200
    case MethodNotAllowed => 405
    case InvalidInput => 400
    case Generated(_, _, _, _, _) => 200
    case TypeError => 500
  }

  /** The endpoint: `body` is the decoded request body (None when json_decode fails), `now` the
      formatted date. A missing field is ''. */
  function Handle(httpMethod: string, body: Option<Value>, now: string): (r: IdeasResponse)
    ensures httpMethod == "OPTIONS" ==> r == Preflight
    ensures httpMethod != "OPTIONS" && httpMethod != "POST" ==> r == MethodNotAllowed
    ensures r == InvalidInput <==> httpMethod == "POST" && (body.None? || Empty(body.value))
    ensures r.Generated? ==> 1 <= |r.ideas| <= 5 && r.timestamp == now
    ensures r.Generated? ==>
      var loc := ScalarText(FieldOr(body.value, "location", Str("")));
      var ints := ScalarText(FieldOr(body.value, "interests", Str("")));
      loc.Some? && ints.Some? &&
      var cands := Candidates(loc.value, ints.value, BudgetCase(FieldOr(body.value, "budget", Str(""))));
      (cands == [] ==> r.ideas == FallbackIdeas) && (cands != [] ==> forall x :: x in r.ideas ==> x in cands)
  {
    if httpMethod == "OPTIONS" then Preflight
    else if httpMethod != "POST" then MethodNotAllowed
    else if body.None? || Empty(body.value) then InvalidInput
    else
      var location := FieldOr(body.value, "location", Str(""));
      var interests := FieldOr(body.value, "interests", Str(""));
      var budget := FieldOr(body.value, "budget", Str(""));
      match (ScalarText(location), ScalarText(interests))
      case (Some(l), Some(i)) =>
        var cands := Candidates(l, i, BudgetCase(budget));
        var chosen := Rank(cands);
        Generated(if chosen == [] then FallbackIdeas else chosen, location, interests, budget, now)
      case _ => TypeError
  }

  lemma RankSelects(cands: seq<Idea>)
    ensures var chosen := IdeasOfScored(Take(SortByScore(ScoreAll(Dedupe(cands))), 5));
      |chosen| <= 5 && (chosen == [] <==> cands == []) && forall x :: x in chosen ==> x in cands
  {
    var d := Dedupe(cands);
    var sorted := SortByScore(ScoreAll(d));
    var chosen := IdeasOfScored(Take(sorted, 5));
    SortPermutes(ScoreAll(d));
    assert |sorted| == |d| by {
      assert |multiset(sorted)| == |multiset(ScoreAll(d))|;
    }
    if cands != [] {
      assert cands[0] in cands;
      assert Key(cands[0]) in Keys(d);
    }
    forall x | x in chosen ensures x in cands {
      var i :| 0 <= i < |chosen| && chosen[i] == x;
      var e := Take(sorted, 5)[i];
      assert e == sorted[i];
      assert e in multiset(ScoreAll(d));
      var k :| 0 <= k < |d| && ScoreAll(d)[k] == e;
      assert d[k] in d;
    }
  }
}
