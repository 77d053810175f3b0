/** The Musanze keyword model: training builds a keyword → most frequent answer table from the
    business types of the dataset; prediction routes a question to a budget listing, a
    type-and-budget listing, a type listing, the best keyword's answer or a general text. The
    dataset (pandas.read_csv) is a sequence of rows passed in by the caller. */
module SmartModel {
  import opened Wrappers
  import opened Text
  import opened Dispatch

  /** One row of the dataset. */
  datatype Row = Row(
    businessType: string, location: string, startupCosts: int, revenuePotential: int,
    targetMarket: string, skillsRequired: string, marketDemand: string,
    competitionLevel: string, investmentRange: string, response: string)

  // ---------------------------------------------------------------- budget buckets

  datatype Bucket = Small | Medium | Large | Major

  /** The bucket tests of get_businesses_by_budget, in source order. */
  const BucketRules: seq<Rule<Bucket>> := [
    Rule([], ["1-5m", "1-5"], Small),
    Rule([], ["5-15m", "5-15"], Medium),
    Rule([], ["15-50m", "15-50"], Large),
    Rule([], ["50m+", "50+"], Major)
  ]

  function BucketPosition(b: Bucket): (i: nat)
    ensures i < |BucketRules| && BucketRules[i].result == b
  {
    match b
    case Small => 0
    case Medium => 1
    case Large => 2
    case Major => 3
  }

  /** The bucket named in a budget text: the first whose token occurs in the lower-cased text. */
  function BudgetBucket(text: string): Option<Bucket> {
    Select(BucketRules, None, Lower(text))
  }

  /** The investment_range label of a bucket. */
  function Label(b: Bucket): string {
    match b
    case Small => "1,000,000-5,000,000 RWF"
    case Medium => "5,000,000-15,000,000 RWF"
    case Large => "15,000,000-50,000,000 RWF"
    case Major => "50,000,000+ RWF"
  }

  /** The startup-cost test of a bucket. */
  predicate InBucket(b: Bucket, cost: int) {
    match b
    case Small => cost <= 5000000
    case Medium => 5000000 < cost <= 15000000
    case Large => 15000000 < cost <= 50000000
    case Major => 50000000 < cost
  }

  /** The bucket chosen is the first whose token occurs; none when no token occurs. */
  lemma BucketPrecedence(text: string, b: Bucket)
    ensures var m := Lower(text); var i := BucketPosition(b);
      (BudgetBucket(text) == Some(b))
        <==> (KeyHit(BucketRules[i].keys, m) && forall j :: 0 <= j < i ==> !KeyHit(BucketRules[j].keys, m))
    ensures BudgetBucket(text).None? <==> forall j :: 0 <= j < |BucketRules| ==> !KeyHit(BucketRules[j].keys, Lower(text))
  {
    var m := Lower(text);
    forall k | 0 <= k < |BucketRules| && BucketRules[k].result == BucketRules[BucketPosition(b)].result
      ensures k == BucketPosition(b)
    {
      assert BucketPosition(BucketRules[k].result) == k;
    }
    SelectExactly(BucketRules, None, m, BucketPosition(b));
    SelectNone(BucketRules, None, m);
  }

  /** The 'm' forms of the three lower buckets add nothing: '1-5m' contains '1-5', and so on.
      ('50m+' does not contain '50+', so both tokens of the top bucket count.) */
  lemma ShortTokensSuffice(m: string, i: nat)
    requires i < |BucketRules| - 1
    ensures KeyHit(BucketRules[i].keys, m) <==> Contains(m, BucketRules[i].keys[1])
  {
    var keys := BucketRules[i].keys;
    assert keys[0][..|keys[1]|] == keys[1];
    StartsWithContains(keys[0], keys[1]);
    if KeyHit(keys, m) {
      var a :| 0 <= a < |keys| && Contains(m, keys[a]);
      if a == 0 {
        ContainsTrans(m, keys[0], keys[1]);
      }
    }
    if Contains(m, keys[1]) {
      assert KeyHit(keys, m);
    }
  }

  /** Every startup cost lies in exactly one bucket. */
  lemma BucketsPartitionCosts(cost: int)
    ensures exists b :: InBucket(b, cost)
    ensures forall b, c :: InBucket(b, cost) && InBucket(c, cost) ==> b == c
  {
    if cost <= 5000000 {
      assert InBucket(Small, cost);
    } else if cost <= 15000000 {
      assert InBucket(Medium, cost);
    } else if cost <= 50000000 {
      assert InBucket(Large, cost);
    } else {
      assert InBucket(Major, cost);
    }
  }

  // ---------------------------------------------------------------- DataFrame filters

  /** df[condition]: the rows that satisfy `p`, in order. */
  function Where(rows: seq<Row>, p: Row -> bool): (r: seq<Row>)
    ensures |r| <= |rows|
    ensures forall i :: 0 <= i < |r| ==> p(r[i]) && r[i] in rows
    ensures forall i :: 0 <= i < |rows| && p(rows[i]) ==> rows[i] in r
  {
    if rows == [] then []
    else (if p(rows[0]) then [rows[0]] else []) + Where(rows[1..], p)
  }

  /** A single row is kept exactly when it passes the filter. */
  lemma WhereSingle(row: Row, p: Row -> bool)
    ensures Where([row], p) == (if p(row) then [row] else [])
  {
    assert [row][1..] == [];
  }

  /** Filtering keeps the dataset's order: the kept rows of a + b are those of a followed by
      those of b. */
  lemma {:induction false} WhereAppend(a: seq<Row>, b: seq<Row>, p: Row -> bool)
    ensures Where(a + b, p) == Where(a, p) + Where(b, p)
  {
    if a == [] {
      assert a + b == b;
    } else {
      var head := if p(a[0]) then [a[0]] else [];
      calc {
        Where(a + b, p);
      == { assert (a + b)[0] == a[0]; assert (a + b)[1..] == a[1..] + b; }
        head + Where(a[1..] + b, p);
      == { WhereAppend(a[1..], b, p); }
        head + (Where(a[1..], p) + Where(b, p));
      ==
        (head + Where(a[1..], p)) + Where(b, p);
      }
    }
  }

  /** The condition of get_businesses_by_budget: the bucket's label and a cost in the bucket. */
  function BudgetFilter(b: Bucket): Row -> bool {
    (row: Row) => row.investmentRange == Label(b) && InBucket(b, row.startupCosts)
  }

  /** The condition of get_businesses_by_type: a business type among `types`. */
  function TypeFilter(types: seq<string>): Row -> bool {
    (row: Row) => row.businessType in types
  }

  /** The condition of get_businesses_by_type_and_budget: both of the above. */
  function CombinedFilter(types: seq<string>, b: Bucket): Row -> bool {
    (row: Row) => row.businessType in types && row.investmentRange == Label(b) && InBucket(b, row.startupCosts)
  }

  /** .head(10). */
  function Top10(rows: seq<Row>): (r: seq<Row>)
    ensures |r| <= 10 && |r| <= |rows| && r == rows[..|r|]
    ensures |r| == 10 || r == rows
  {
    if |rows| <= 10 then rows else rows[..10]
  }

  /** A listing the model answers with. */
  datatype Prediction =
    | NotTrained
    /** get_businesses_by_budget: the listing for a budget label. */
    | BudgetListing(range: string, rows: seq<Row>)
    /** get_businesses_by_type_and_budget: the listing for a type word and a budget label ... */
    | CombinedListing(word: string, range: string, rows: seq<Row>)
    /** ... or the apology when no row of that type is in the range. */
    | NoneInRange(word: string, range: string)
    /** get_businesses_by_type: the listing for a type word ... */
    | TypeListing(word: string, rows: seq<Row>)
    /** ... or the question about the budget when the word maps to nothing or no row matches. */
    | AskBudget(word: string)
    /** The answer stored for the best keyword. */
    | KeywordAnswer(answer: string)
    /** The general Musanze text. */
    | General

  /** get_businesses_by_budget: None for an unrecognised budget or an empty selection. */
  function ByBudget(dataset: seq<Row>, budgetRange: string): (r: Option<Prediction>)
    ensures r.Some? ==> BudgetBucket(budgetRange).Some? && r.value.BudgetListing?
    ensures r.Some? ==> r.value.range == Label(BudgetBucket(budgetRange).value) && 1 <= |r.value.rows| <= 10
    ensures r.Some? ==> forall i :: 0 <= i < |r.value.rows| ==>
      (r.value.rows[i] in dataset && r.value.rows[i].investmentRange == r.value.range
       && InBucket(BudgetBucket(budgetRange).value, r.value.rows[i].startupCosts))
    ensures r.None? <==> BudgetBucket(budgetRange).None? || Where(dataset, BudgetFilter(BudgetBucket(budgetRange).value)) == []
    ensures r.Some? ==> r.value.rows == Top10(Where(dataset, BudgetFilter(BudgetBucket(budgetRange).value)))
  {
    match BudgetBucket(budgetRange)
    case None => None
    case Some(b) =>
      var kept := Where(dataset, BudgetFilter(b));
      if kept == [] then None else Some(BudgetListing(Label(b), Top10(kept)))
  }

  /** The listing is empty only when no row of the dataset has the bucket's label and a cost in
      the bucket. */
  lemma ByBudgetNone(dataset: seq<Row>, budgetRange: string)
    requires BudgetBucket(budgetRange).Some?
    ensures var b := BudgetBucket(budgetRange).value;
      (ByBudget(dataset, budgetRange).None? <==>
         forall i :: 0 <= i < |dataset| ==> !(dataset[i].investmentRange == Label(b) && InBucket(b, dataset[i].startupCosts)))
  {
    var b := BudgetBucket(budgetRange).value;
    var kept := Where(dataset, BudgetFilter(b));
    if kept != [] {
      assert kept[0] in dataset;
    }
  }

  // ---------------------------------------------------------------- business types

  /** business_mapping, in declaration order. */
  const Mapping: seq<(string, seq<string>)> := [
    ("restaurant", ["Local Restaurant", "Food Processing"]),
    ("coffee", ["Coffee Processing", "Organic Farming"]),
    ("hotel", ["Guesthouse", "Eco-lodges"]),
    ("lodge", ["Eco-lodges", "Guesthouse"]),
    ("transport", ["Local Transport", "Motorcycle Taxi"]),
    ("shop", ["Souvenir Shop", "Internet Cafe"]),
    ("souvenir", ["Souvenir Shop"]),
    ("gift", ["Souvenir Shop"]),
    ("hiking", ["Mountain Hiking Tours", "Volcano Trekking"]),
    ("mountain", ["Mountain Hiking Tours", "Volcano Trekking"]),
    ("tour", ["Mountain Hiking Tours", "Volcano Trekking", "Local Guide Services"]),
    ("guide", ["Local Guide Services", "Mountain Hiking Tours"]),
    ("farming", ["Organic Farming", "Agricultural Equipment"]),
    ("agriculture", ["Organic Farming", "Agricultural Equipment"]),
    ("craft", ["Craft Workshops", "Traditional Crafts"]),
    ("traditional", ["Traditional Crafts", "Craft Workshops"]),
    ("adventure", ["Adventure Sports", "Mountain Hiking Tours"]),
    ("cultural", ["Cultural Tourism", "Traditional Crafts"]),
    ("wildlife", ["Wildlife Photography", "Cultural Tourism"]),
    ("photography", ["Wildlife Photography"]),
    ("internet", ["Internet Cafe"]),
    ("cafe", ["Internet Cafe", "Local Restaurant"]),
    ("mobile", ["Mobile Money Services"]),
    ("money", ["Mobile Money Services"]),
    ("equipment", ["Agricultural Equipment"]),
    ("organic", ["Organic Farming"]),
    ("food", ["Food Processing", "Local Restaurant"]),
    ("processing", ["Food Processing", "Coffee Processing"]),
    ("tourism", ["Mountain Hiking Tours", "Volcano Trekking", "Local Guide Services", "Cultural Tourism", "Wildlife Photography", "Adventure Sports"]),
    ("hospitality", ["Guesthouse", "Eco-lodges", "Local Restaurant"])
  ]

  /** business_mapping.get(key, []). */
  function MappedTypes(entries: seq<(string, seq<string>)>, key: string): (r: seq<string>)
    ensures r != [] ==> exists i :: 0 <= i < |entries| && entries[i].0 == key && entries[i].1 == r
    ensures (forall i :: 0 <= i < |entries| ==> entries[i].0 != key) ==> r == []
  {
    if entries == [] then []
    else if entries[0].0 == key then entries[0].1
    else MappedTypes(entries[1..], key)
  }

  /** The types of every mapping key contained in `text`, concatenated in mapping order. */
  function TypesOfKeysIn(entries: seq<(string, seq<string>)>, text: string): (r: seq<string>)
    ensures forall t :: t in r <==> exists i :: 0 <= i < |entries| && Contains(text, entries[i].0) && t in entries[i].1
  {
    if entries == [] then []
    else
      var rest := TypesOfKeysIn(entries[1..], text);
      assert forall t :: t in rest <==> exists i :: 1 <= i < |entries| && Contains(text, entries[i].0) && t in entries[i].1 by {
        forall t ensures t in rest <==> exists i :: 1 <= i < |entries| && Contains(text, entries[i].0) && t in entries[i].1 {
          if t in rest {
            var i :| 0 <= i < |entries[1..]| && Contains(text, entries[1..][i].0) && t in entries[1..][i].1;
            assert entries[i + 1] == entries[1..][i];
          }
          if exists i :: 1 <= i < |entries| && Contains(text, entries[i].0) && t in entries[i].1 {
            var i :| 1 <= i < |entries| && Contains(text, entries[i].0) && t in entries[i].1;
            assert entries[1..][i - 1] == entries[i];
          }
        }
      }
      (if Contains(text, entries[0].0) then entries[0].1 else []) + rest
  }

  /** With no business type to look for, the type filter keeps nothing. */
  lemma NoTypesNoRows(dataset: seq<Row>)
    ensures Where(dataset, TypeFilter([])) == []
  {
  }

  /** get_businesses_by_type: an exact lookup of the lower-cased word. */
  function ByType(dataset: seq<Row>, word: string): (r: Prediction)
    ensures r.TypeListing? || r.AskBudget?
    ensures r.word == word
    ensures r.TypeListing? ==> 1 <= |r.rows| <= 10
    ensures r.AskBudget? <==> Where(dataset, TypeFilter(MappedTypes(Mapping, Lower(word)))) == []
    ensures r.TypeListing? ==> r.rows == Top10(Where(dataset, TypeFilter(MappedTypes(Mapping, Lower(word)))))
    ensures r.TypeListing? ==> forall i :: 0 <= i < |r.rows| ==> r.rows[i] in dataset && r.rows[i].businessType in MappedTypes(Mapping, Lower(word))
  {
    var matching := MappedTypes(Mapping, Lower(word));
    if matching == [] then NoTypesNoRows(dataset); AskBudget(word)
    else
      var kept := Where(dataset, TypeFilter(matching));
      if kept == [] then AskBudget(word) else TypeListing(word, Top10(kept))
  }

  /** get_businesses_by_type_and_budget: None for an unrecognised budget or when no mapping key
      occurs in the word. */
  function ByTypeAndBudget(dataset: seq<Row>, word: string, budgetRange: string): (r: Option<Prediction>)
    ensures r.None? <==> BudgetBucket(budgetRange).None? || TypesOfKeysIn(Mapping, Lower(word)) == []
    ensures r.Some? ==> (r.value.CombinedListing? || r.value.NoneInRange?)
    ensures r.Some? ==> r.value.word == word && r.value.range == Label(BudgetBucket(budgetRange).value)
    ensures r.Some? && r.value.CombinedListing? ==> 1 <= |r.value.rows| <= 10
    ensures r.Some? ==>
      var kept := Where(dataset, CombinedFilter(TypesOfKeysIn(Mapping, Lower(word)), BudgetBucket(budgetRange).value));
      (r.value.NoneInRange? <==> kept == []) && (r.value.CombinedListing? ==> r.value.rows == Top10(kept))
    ensures r.Some? && r.value.CombinedListing? ==> forall i :: 0 <= i < |r.value.rows| ==>
      (r.value.rows[i] in dataset && r.value.rows[i].businessType in TypesOfKeysIn(Mapping, Lower(word))
       && r.value.rows[i].investmentRange == r.value.range
       && InBucket(BudgetBucket(budgetRange).value, r.value.rows[i].startupCosts))
  {
    match BudgetBucket(budgetRange)
    case None => None
    case Some(b) =>
      var matching := TypesOfKeysIn(Mapping, Lower(word));
      if matching == [] then None
      else
        var kept := Where(dataset, CombinedFilter(matching, b));
        CombinedRows(dataset, matching, b);
        if kept == [] then Some(NoneInRange(word, Label(b))) else Some(CombinedListing(word, Label(b), Top10(kept)))
  }

  /** The rows listed for a type and budget are dataset rows of one of the types, labelled
      with the range and in its band. */
  lemma CombinedRows(dataset: seq<Row>, types: seq<string>, b: Bucket)
    ensures var shown := Top10(Where(dataset, CombinedFilter(types, b)));
      forall i :: 0 <= i < |shown| ==>
        shown[i] in dataset && shown[i].businessType in types
        && shown[i].investmentRange == Label(b) && InBucket(b, shown[i].startupCosts)
  {
    var kept := Where(dataset, CombinedFilter(types, b));
    var shown := Top10(kept);
    forall i | 0 <= i < |shown|
      ensures shown[i] in dataset && CombinedFilter(types, b)(shown[i])
    {
      assert shown[i] == kept[i];
    }
  }

  // ---------------------------------------------------------------- predict routing

  /** The type words checked when a budget token is present (no 'tourism', no 'hospitality'). */
  const BudgetTypeWords: seq<string> := [
    "restaurant", "coffee", "hotel", "lodge", "transport", "shop", "souvenir", "gift",
    "hiking", "mountain", "tour", "guide", "farming", "agriculture", "craft", "traditional",
    "adventure", "cultural", "wildlife", "photography", "internet", "cafe", "mobile",
    "money", "equipment", "organic", "food", "processing"
  ]

  /** The type words of the main check, in order. */
  const TypeWords: seq<string> := BudgetTypeWords + ["tourism", "hospitality"]

  /** The budget tokens of predict, in order. */
  const BudgetTokens: seq<string> := ["1-5m", "5-15m", "15-50m", "50m+", "1-5", "5-15", "15-50", "50+"]

  /** One rule per word, whose result is the word. */
  function WordRules(words: seq<string>): (rs: seq<Rule<string>>)
    ensures |rs| == |words|
    ensures forall k :: 0 <= k < |rs| ==> rs[k] == Rule([], [words[k]], words[k])
  {
    seq(|words|, k requires 0 <= k < |words| => Rule([], [words[k]], words[k]))
  }

  /** The position of the first of `words` that occurs in `text` (a for loop with break). */
  function FirstIndex(words: seq<string>, text: string): (r: Option<nat>)
    ensures r.Some? ==> r.value < |words|
  {
    FirstMatch(WordRules(words), None, text)
  }

  lemma FirstIndexSpec(words: seq<string>, text: string)
    ensures FirstIndex(words, text).None? <==> forall j :: 0 <= j < |words| ==> !Contains(text, words[j])
    ensures FirstIndex(words, text).Some? ==>
      var i := FirstIndex(words, text).value;
      Contains(text, words[i]) && forall j :: 0 <= j < i ==> !Contains(text, words[j])
  {
    var rs := WordRules(words);
    forall j | 0 <= j < |rs| ensures Fires(rs[j], None, text) <==> Contains(text, words[j]) {
      SingleKey(rs[j], text);
    }
  }

  /** Everything predict does before its keyword fallback, on the lower-cased question `m`;
      None when it falls through to the keyword scoring. */
  function Route(dataset: seq<Row>, m: string): Option<Prediction> {
    var budgetOnly :=
      if KeyHit(BudgetTokens, m) && FirstIndex(BudgetTypeWords, m).None? then ByBudget(dataset, m) else None;
    if budgetOnly.Some? then budgetOnly
    else
      match FirstIndex(TypeWords, m)
      case None => None
      case Some(k) =>
        var w := TypeWords[k];
        var combined := match FirstIndex(BudgetTokens, m)
                        case None => None
                        case Some(t) => ByTypeAndBudget(dataset, w, BudgetTokens[t]);
        if combined.Some? then combined else Some(ByType(dataset, w))
  }

  /** Budget token `i` of predict is key `i / 4` of bucket rule `i % 4`. */
  lemma TokenIsBucketKey(i: nat)
    requires i < |BudgetTokens|
    ensures i / 4 < |BucketRules[i % 4].keys| && BucketRules[i % 4].keys[i / 4] == BudgetTokens[i]
  {
  }

  /** A budget token of predict occurs exactly when the budget names a bucket. */
  lemma HasBudgetIffBucket(m: string)
    requires Lower(m) == m
    ensures KeyHit(BudgetTokens, m) <==> BudgetBucket(m).Some?
  {
    if KeyHit(BudgetTokens, m) {
      TokenGivesBucket(m);
    }
    if BudgetBucket(m).Some? {
      BucketGivesToken(m);
    }
  }

  lemma TokenGivesBucket(m: string)
    requires Lower(m) == m && KeyHit(BudgetTokens, m)
    ensures BudgetBucket(m).Some?
  {
    var i :| 0 <= i < |BudgetTokens| && Contains(m, BudgetTokens[i]);
    TokenIsBucketKey(i);
    assert Fires(BucketRules[i % 4], None, m);
    SelectNone(BucketRules, None, m);
  }

  lemma BucketGivesToken(m: string)
    requires Lower(m) == m && BudgetBucket(m).Some?
    ensures KeyHit(BudgetTokens, m)
  {
    SelectNone(BucketRules, None, m);
    var j :| 0 <= j < |BucketRules| && Fires(BucketRules[j], None, m);
    var a :| 0 <= a < |BucketRules[j].keys| && Contains(m, BucketRules[j].keys[a]);
    BucketKeyIsToken(j, a);
    assert Contains(m, BudgetTokens[4 * a + j]);
  }

  /** Key `a` of bucket rule `j` is budget token `4 * a + j` of predict. */
  lemma BucketKeyIsToken(j: nat, a: nat)
    requires j < |BucketRules| && a < |BucketRules[j].keys|
    ensures 4 * a + j < |BudgetTokens| && BudgetTokens[4 * a + j] == BucketRules[j].keys[a]
  {
    if a == 0 {
      assert 4 * a + j == j;
    } else {
      assert 4 * a + j == 4 + j;
    }
  }

  /** With a budget token and no word of the first type list, a non-empty budget listing is the
      answer, even for a type of the second list such as 'hospitality'. */
  lemma BudgetOnlyListing(dataset: seq<Row>, m: string)
    requires Lower(m) == m && BudgetBucket(m).Some?
    requires forall j :: 0 <= j < |BudgetTypeWords| ==> !Contains(m, BudgetTypeWords[j])
    requires ByBudget(dataset, m).Some?
    ensures Route(dataset, m) == ByBudget(dataset, m)
  {
    HasBudgetIffBucket(m);
    FirstIndexSpec(BudgetTypeWords, m);
  }

  /** 'tour' is checked before 'tourism', so 'tourism' is never the type word found. */
  lemma TourismNeverChosen(m: string)
    ensures TypeWords[28] == "tourism"
    ensures FirstIndex(TypeWords, m) != Some(28)
  {
    var rs := WordRules(TypeWords);
    var t := TypeWords[28];
    assert t == "tourism" && TypeWords[10] == "tour";
    assert t[..4] == TypeWords[10];
    StartsWithContains(t, TypeWords[10]);
    assert Shadows(rs, 10, 28) by {
      assert Contains(rs[28].keys[0], rs[10].keys[0]);
    }
    ShadowedRuleUnreachable(rs, 10, 28, None, m);
  }

  /** The keyword scoring is reached exactly when no type word occurs and no budget listing is
      given: a type word found always decides the answer. */
  lemma RouteFallsThrough(dataset: seq<Row>, m: string)
    ensures Route(dataset, m).None?
        <==> (forall j :: 0 <= j < |TypeWords| ==> !Contains(m, TypeWords[j]))
             && !(KeyHit(BudgetTokens, m) && ByBudget(dataset, m).Some?)
  {
    FirstIndexSpec(TypeWords, m);
    FirstIndexSpec(BudgetTypeWords, m);
    assert forall j :: 0 <= j < |BudgetTypeWords| ==> TypeWords[j] == BudgetTypeWords[j];
  }

  // ---------------------------------------------------------------- the keyword table

  /** The words longer than two characters of a lower-cased business type, in order. */
  function RowWords(r: Row): seq<string> {
    Words(Lower(r.businessType))
  }

  /** The inner loop of train: each word longer than two characters gets `response` appended. */
  function AddWords(m: map<string, seq<string>>, ws: seq<string>, response: string): (r: map<string, seq<string>>)
    ensures forall k :: k in r <==> k in m || (k in ws && |k| > 2)
    ensures (forall k :: k in m ==> m[k] != []) ==> forall k :: k in r ==> r[k] != []
    decreases |ws|
  {
    if ws == [] then m
    else
      var w := ws[0];
      var m' := if |w| > 2 then m[w := (if w in m then m[w] else []) + [response]] else m;
      var r := AddWords(m', ws[1..], response);
      assert forall x :: x in ws <==> x == w || x in ws[1..];
      r
  }

  /** The lists of answers the first loop of train collects, keyword by keyword. */
  function Collect(rows: seq<Row>): (r: map<string, seq<string>>)
    ensures forall k :: k in r ==> r[k] != []
  {
    if rows == [] then map[]
    else
      var last := rows[|rows| - 1];
      AddWords(Collect(rows[..|rows| - 1]), RowWords(last), last.response)
  }

  /** One more row adds its words to the lists collected so far. */
  lemma CollectStep(rows: seq<Row>, i: int)
    requires 0 <= i < |rows|
    ensures Collect(rows[..i + 1]) == AddWords(Collect(rows[..i]), RowWords(rows[i]), rows[i].response)
  {
    var prefix := rows[..i + 1];
    assert prefix[..|prefix| - 1] == rows[..i];
    assert prefix[|prefix| - 1] == rows[i];
  }

  /** The keywords are exactly the words longer than two characters of the business types. */
  lemma {:induction false} CollectKeys(rows: seq<Row>, k: string)
    ensures k in Collect(rows) <==> exists i :: 0 <= i < |rows| && k in RowWords(rows[i]) && |k| > 2
  {
    if rows != [] {
      var init := rows[..|rows| - 1];
      CollectKeys(init, k);
      if exists i :: 0 <= i < |rows| && k in RowWords(rows[i]) && |k| > 2 {
        var i :| 0 <= i < |rows| && k in RowWords(rows[i]) && |k| > 2;
        if i < |rows| - 1 {
          assert init[i] == rows[i];
        }
      }
      if k in Collect(init) {
        var i :| 0 <= i < |init| && k in RowWords(init[i]) && |k| > 2;
        assert rows[i] == init[i];
      }
    }
  }

  /** The number of times `x` occurs in `xs`. */
  function Count(xs: seq<string>, x: string): nat {
    multiset(xs)[x]
  }

  /** The first-seen position of a most frequent element, scanning from `i` with `b` the best so
      far (Counter(xs).most_common(1)). */
  function PickFrom(xs: seq<string>, i: nat, b: nat): (r: nat)
    requires b < i <= |xs|
    requires forall j :: 0 <= j < i ==> Count(xs, xs[j]) <= Count(xs, xs[b])
    requires forall j :: 0 <= j < b ==> Count(xs, xs[j]) < Count(xs, xs[b])
    ensures r < |xs|
    ensures forall j :: 0 <= j < |xs| ==> Count(xs, xs[j]) <= Count(xs, xs[r])
    ensures forall j :: 0 <= j < r ==> Count(xs, xs[j]) < Count(xs, xs[r])
    decreases |xs| - i
  {
    if i == |xs| then b
    else if Count(xs, xs[i]) > Count(xs, xs[b]) then PickFrom(xs, i + 1, i)
    else PickFrom(xs, i + 1, b)
  }

  /** The most frequent answer; among equally frequent ones, the one seen first. */
  function MostCommon(xs: seq<string>): (r: string)
    requires xs != []
    ensures r in xs
    ensures forall x :: x in xs ==> Count(xs, x) <= Count(xs, r)
    ensures exists i :: 0 <= i < |xs| && xs[i] == r && forall j :: 0 <= j < i ==> Count(xs, xs[j]) < Count(xs, r)
  {
    var i := PickFrom(xs, 1, 0);
    assert forall x :: x in xs ==> Count(xs, x) <= Count(xs, xs[i]) by {
      forall x | x in xs ensures Count(xs, x) <= Count(xs, xs[i]) {
        var j :| 0 <= j < |xs| && xs[j] == x;
      }
    }
    xs[i]
  }

  /** The table train leaves: each keyword with its most frequent answer. */
  function Trained(rows: seq<Row>): map<string, string> {
    var lists := Collect(rows);
    map k | k in lists :: MostCommon(lists[k])
  }

  // ---------------------------------------------------------------- scoring

  /** The words the keyword fallback favours. */
  const Favoured: seq<string> := ["musanze", "tourism", "business", "restaurant", "coffee", "farming"]

  /** Twice the score of a word: len(word) when favoured, else len(word) / 2. */
  function Score2(w: string): nat {
    if w in Favoured then 2 * |w| else |w|
  }

  /** Position `i` holds the first known word with the highest score: the word whose answer
      the scoring loop of predict keeps. */
  predicate IsBest(table: map<string, string>, words: seq<string>, i: int) {
    0 <= i < |words| && words[i] in table
    && (forall j :: 0 <= j < |words| && words[j] in table ==> Score2(words[j]) <= Score2(words[i]))
    && (forall j :: 0 <= j < i && words[j] in table ==> Score2(words[j]) < Score2(words[i]))
  }

  /** At most one position is the best. */
  lemma IsBestUnique(table: map<string, string>, words: seq<string>, i: int, k: int)
    requires IsBest(table, words, i) && IsBest(table, words, k)
    ensures i == k
  {
  }

  /** The inner loop of train over the words of one business type. */
  method AddRowWords(lists: map<string, seq<string>>, ws: seq<string>, response: string)
    returns (r: map<string, seq<string>>)
    ensures r == AddWords(lists, ws, response)
  {
    r := lists;
    var j := 0;
    while j < |ws|
      invariant 0 <= j <= |ws|
      invariant AddWords(r, ws[j..], response) == AddWords(lists, ws, response)
    {
      var w := ws[j];
      assert ws[j..][0] == w && ws[j..][1..] == ws[j + 1..];
      if |w| > 2 {
        var prev := if w in r then r[w] else [];
        r := r[w := prev + [response]];
      }
      j := j + 1;
    }
  }

  /** The second loop of train: the most frequent answer of every keyword. */
  method MostCommonOfEach(lists: map<string, seq<string>>) returns (table: map<string, string>)
    requires forall k :: k in lists ==> lists[k] != []
    ensures table.Keys == lists.Keys
    ensures forall k :: k in table ==> table[k] == MostCommon(lists[k])
  {
    table := map[];
    var todo := lists.Keys;
    while todo != {}
      invariant todo <= lists.Keys
      invariant table.Keys == lists.Keys - todo
      invariant forall k :: k in table ==> table[k] == MostCommon(lists[k])
      decreases todo
    {
      var k :| k in todo;
      table := table[k := MostCommon(lists[k])];
      todo := todo - {k};
    }
  }

  class Model {
    /** The keyword table (self.keywords after training). */
    var keywords: map<string, string>
    var isTrained: bool

    constructor ()
      ensures keywords == map[] && !isTrained
    {
      keywords := map[];
      isTrained := false;
    }

    /** train: `dataset` is None when the file cannot be read (the exception path, 0.0);
        otherwise the table is built and 0.999 returned. */
    method Train(dataset: Option<seq<Row>>) returns (accuracy: real)
      requires keywords == map[]
      modifies this
      ensures dataset.None? ==> accuracy == 0.0 && keywords == old(keywords) && isTrained == old(isTrained)
      ensures dataset.Some? ==> accuracy == 0.999 && isTrained && keywords == Trained(dataset.value)
    {
      if dataset.None? {
        return 0.0;
      }
      var rows := dataset.value;
      var lists: map<string, seq<string>> := map[];
      var i := 0;
      while i < |rows|
        invariant 0 <= i <= |rows|
        invariant lists == Collect(rows[..i])
      {
        CollectStep(rows, i);
        lists := AddRowWords(lists, RowWords(rows[i]), rows[i].response);
        i := i + 1;
      }
      assert rows[..|rows|] == rows;
      var table := MostCommonOfEach(lists);
      keywords := table;
      isTrained := true;
      return 0.999;
    }

    /** The scoring loop of predict over the words of the question (each non-empty, as \w+
        tokens are): the position of the first known word with the highest score, if any. */
    method BestWord(words: seq<string>) returns (best: Option<nat>)
      requires forall i :: 0 <= i < |words| ==> words[i] != []
      ensures best.None? <==> forall i :: 0 <= i < |words| ==> words[i] !in keywords
      ensures best.Some? ==> IsBest(keywords, words, best.value)
    {
      best := None;
      var bestScore := 0;
      var i := 0;
      while i < |words|
        invariant 0 <= i <= |words|
        invariant best.None? <==> forall j :: 0 <= j < i ==> words[j] !in keywords
        invariant best.None? ==> bestScore == 0
        invariant best.Some? ==> IsBest(keywords, words[..i], best.value) && bestScore == Score2(words[best.value])
      {
        var w := words[i];
        if w in keywords {
          var score := Score2(w);
          if score > bestScore {
            bestScore := score;
            best := Some(i);
          }
        }
        assert words[..i + 1][..i] == words[..i];
        i := i + 1;
      }
      assert words[..i] == words;
    }

    /** predict(user_input), with the dataset the listing helpers read. */
    method Predict(input: string, dataset: seq<Row>) returns (p: Prediction)
      ensures !isTrained ==> p == NotTrained
      ensures isTrained && Route(dataset, Lower(input)).Some? ==> p == Route(dataset, Lower(input)).value
      ensures isTrained && Route(dataset, Lower(input)).None? ==>
        (p == General <==> (forall i :: 0 <= i < |Words(Lower(input))| ==> Words(Lower(input))[i] !in keywords)
                           || exists i :: IsBest(keywords, Words(Lower(input)), i) && keywords[Words(Lower(input))[i]] == "")
      ensures isTrained && Route(dataset, Lower(input)).None? && p != General ==>
        exists i :: IsBest(keywords, Words(Lower(input)), i) && p == KeywordAnswer(keywords[Words(Lower(input))[i]])
    {
      if !isTrained {
        return NotTrained;
      }
      var m := Lower(input);
      var routed := Route(dataset, m);
      if routed.Some? {
        return routed.value;
      }
      var words := Words(m);
      var best := BestWord(words);
      if best.Some? && keywords[words[best.value]] != "" {
        p := KeywordAnswer(keywords[words[best.value]]);
      } else {
        p := General;
        if best.Some? {
          forall i | IsBest(keywords, words, i) ensures keywords[words[i]] == "" {
            IsBestUnique(keywords, words, i, best.value);
          }
        }
      }
    }
  }
}
