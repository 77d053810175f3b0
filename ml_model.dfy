/** The random-forest recommender trained on the Musanze dataset: its text cleaning, the
    numbering of the distinct responses and its inverse, and the trained flag of the model
    object. Vectorising, fitting and scoring are scikit-learn's and appear only as outcomes
    passed in. */
module MusanzeMLModel {
  import opened Wrappers
  import opened Text

  /** A character kept by the cleaning: an ASCII letter or a `\s` character. */
  predicate Kept(c: char) {
    IsLetter(c) || IsSpace(PyStrip, c)
  }

  /** preprocess_text: lower-case, then delete every character that is neither a letter nor
      whitespace. */
  function PreprocessText(text: string): (r: string)
    ensures |r| <= |text|
    ensures forall i :: 0 <= i < |r| ==> IsLower(r[i]) || IsSpace(PyStrip, r[i])
  {
    if text == [] then ""
    else
      var c := LowerChar(text[0]);
      (if Kept(c) then [c] else []) + PreprocessText(text[1..])
  }

  /** Cleaning leaves a text unchanged exactly when it already consists of lower-case letters
      and whitespace. */
  lemma {:induction false} PreprocessFixpoint(text: string)
    ensures PreprocessText(text) == text <==> forall i :: 0 <= i < |text| ==> IsLower(text[i]) || IsSpace(PyStrip, text[i])
  {
    if text != [] {
      PreprocessFixpoint(text[1..]);
      var c := LowerChar(text[0]);
      if IsLower(text[0]) || IsSpace(PyStrip, text[0]) {
        assert c == text[0] && Kept(c);
        assert PreprocessText(text) == [text[0]] + PreprocessText(text[1..]);
        assert text == [text[0]] + text[1..];
      } else {
        assert PreprocessText(text) != text by {
          if Kept(c) {
            assert IsUpper(text[0]) && c != text[0];
            assert PreprocessText(text)[0] != text[0];
          } else {
            assert |PreprocessText(text)| < |text|;
          }
        }
      }
    }
  }

  /** preprocess_text is idempotent. */
  lemma PreprocessIdempotent(text: string)
    ensures PreprocessText(PreprocessText(text)) == PreprocessText(text)
  {
    PreprocessFixpoint(PreprocessText(text));
  }

  // ---------------------------------------------------------------- response numbering

  /** The distinct values of a column in order of first occurrence (Series.unique()). */
  function Unique(xs: seq<string>): (u: seq<string>)
    ensures forall i, j :: 0 <= i < j < |u| ==> u[i] != u[j]
    ensures forall x :: x in u <==> x in xs
  {
    if xs == [] then []
    else
      var init := Unique(xs[..|xs| - 1]);
      var x := xs[|xs| - 1];
      assert forall y :: y in xs <==> y in xs[..|xs| - 1] || y == x by {
        assert xs == xs[..|xs| - 1] + [x];
      }
      if x in init then init else init + [x]
  }

  /** The position of the first occurrence of x in xs. */
  function FirstOccurrence(xs: seq<string>, x: string): (k: nat)
    requires x in xs
    ensures k < |xs| && xs[k] == x && x !in xs[..k]
  {
    if xs[0] == x then 0 else 1 + FirstOccurrence(xs[1..], x)
  }

  /** Unique lists values by their first occurrence: an earlier value occurs first earlier. */
  lemma {:induction false} UniqueInFirstOccurrenceOrder(xs: seq<string>, i: nat, j: nat)
    requires i < j < |Unique(xs)|
    ensures FirstOccurrence(xs, Unique(xs)[i]) < FirstOccurrence(xs, Unique(xs)[j])
  {
    var init := xs[..|xs| - 1];
    var x := xs[|xs| - 1];
    var u := Unique(xs);
    assert forall k :: 0 <= k < |init| ==> init[k] == xs[k];
    if u == Unique(init) {
      UniqueInFirstOccurrenceOrder(init, i, j);
      FirstOccurrencePrefix(xs, init, u[i]);
      FirstOccurrencePrefix(xs, init, u[j]);
    } else {
      assert u == Unique(init) + [x];
      if j < |Unique(init)| {
        UniqueInFirstOccurrenceOrder(init, i, j);
        FirstOccurrencePrefix(xs, init, u[i]);
        FirstOccurrencePrefix(xs, init, u[j]);
      } else {
        assert u[j] == x && x !in init;
        assert u[i] in init;
        FirstOccurrencePrefix(xs, init, u[i]);
        assert forall t :: 0 <= t < |init| ==> xs[t] != x;
        assert xs[|init|] == x;
      }
    }
  }

  /** The first occurrence of a value of a prefix lies in that prefix. */
  lemma FirstOccurrencePrefix(xs: seq<string>, init: seq<string>, x: string)
    requires init <= xs && x in init
    ensures FirstOccurrence(xs, x) == FirstOccurrence(init, x)
  {
    var k := FirstOccurrence(init, x);
    var m := FirstOccurrence(xs, x);
    assert xs[k] == x;
    assert forall t :: 0 <= t < m ==> xs[..m][t] != x;
    assert forall t :: 0 <= t < k ==> init[..k][t] != x;
  }

  /** response_map: each distinct response to its position in Unique. */
  function ResponseMap(u: seq<string>): (m: map<string, nat>)
    requires forall i, j :: 0 <= i < j < |u| ==> u[i] != u[j]
    ensures m.Keys == set x | x in u
    ensures forall i :: 0 <= i < |u| ==> m[u[i]] == i
  {
    map i | 0 <= i < |u| :: u[i] := i
  }

  /** id_to_response: each position to its response. */
  function IdToResponse(u: seq<string>): (m: map<nat, string>)
    ensures forall k: nat :: k in m <==> k < |u|
    ensures forall i :: 0 <= i < |u| ==> m[i] == u[i]
  {
    map i: nat | i < |u| :: u[i]
  }

  /** Numbering the responses of a column gives ids 0..k-1, and id_to_response inverts
      response_map in both directions. */
  lemma NumberingRoundTrip(responses: seq<string>)
    ensures var u := Unique(responses);
      var ids := ResponseMap(u);
      var back := IdToResponse(u);
      (forall r :: r in responses <==> r in ids)
      && (forall r :: r in ids ==> ids[r] < |u| && back[ids[r]] == r)
      && (forall k :: k in back ==> back[k] in ids && ids[back[k]] == k)
  {
    var u := Unique(responses);
    var ids: map<string, nat> := ResponseMap(u);
    forall r | r in ids ensures ids[r] < |u| && IdToResponse(u)[ids[r]] == r {
      var i :| 0 <= i < |u| && u[i] == r;
    }
  }

  // ---------------------------------------------------------------- the model object

  /** One row of the dataset, with the columns the model reads. */
  datatype Row = Row(businessType: string, location: string, skillsRequired: string,
                     targetMarket: string, investmentRange: string, response: string)

  /** The text a row is classified by: its five feature columns, space-separated, cleaned. */
  function ProcessedInput(row: Row): (r: string)
    ensures forall i :: 0 <= i < |r| ==> IsLower(r[i]) || IsSpace(PyStrip, r[i])
  {
    PreprocessText(row.businessType + " " + row.location + " " + row.skillsRequired + " "
                   + row.targetMarket + " " + row.investmentRange)
  }

  function Responses(rows: seq<Row>): (r: seq<string>)
    ensures |r| == |rows| && forall i :: 0 <= i < |rows| ==> r[i] == rows[i].response
  {
    seq(|rows|, i requires 0 <= i < |rows| => rows[i].response)
  }

  /** What scikit-learn did with the training call: raised before the model was fitted, or
      fitted it with a test accuracy. */
  datatype FitOutcome = FitRaised | Fitted(accuracy: real)

  /** What the classifier answered for an input: a response id, or an exception. */
  datatype ClassifierOutcome = PredictedId(id: nat) | PredictRaised(message: string)

  const NotTrainedMessage := "Model not trained yet. Please train the model first."
  const ErrorPrefix := "Prediction error: "

  class Model {
    var isTrained: bool
    var responseMap: map<string, nat>
    var idToResponse: map<nat, string>

    constructor()
      ensures !isTrained && responseMap == map[] && idToResponse == map[]
    {
      isTrained := false;
      responseMap := map[];
      idToResponse := map[];
    }

    /** The numbering is consistent: id_to_response inverts response_map. */
    predicate Valid()
      reads this
    {
      (forall r :: r in responseMap ==> responseMap[r] in idToResponse && idToResponse[responseMap[r]] == r)
      && (forall k :: k in idToResponse ==> idToResponse[k] in responseMap && responseMap[idToResponse[k]] == k)
    }

    /** train. `dataset` is None when reading the CSV or building the feature column raises;
        `saved` is whether writing the three pickles succeeded. Any exception gives 0.0; one
        raised while saving comes after the flag and the maps were set. */
    method Train(dataset: Option<seq<Row>>, fit: FitOutcome, saved: bool) returns (accuracy: real)
      requires Valid()
      modifies this
      ensures Valid()
      ensures dataset.None? || fit.FitRaised? ==>
        accuracy == 0.0 && isTrained == old(isTrained)
        && responseMap == old(responseMap) && idToResponse == old(idToResponse)
      ensures dataset.Some? && fit.Fitted? ==>
        var u := Unique(Responses(dataset.value));
        isTrained && responseMap == ResponseMap(u) && idToResponse == IdToResponse(u)
        && accuracy == (if saved then fit.accuracy else 0.0)
    {
      if dataset.None? || fit.FitRaised? {
        return 0.0;
      }
      var u := Unique(Responses(dataset.value));
      NumberingRoundTrip(Responses(dataset.value));
      isTrained := true;
      responseMap := ResponseMap(u);
      idToResponse := IdToResponse(u);
      accuracy := if saved then fit.accuracy else 0.0;
    }

    /** predict: the not-trained message before a successful train; otherwise the response
        of the predicted id, any exception (including an id with no response) turned into
        an error message. */
    function Predict(input: string, outcome: ClassifierOutcome): (r: string)
      reads this
      ensures !isTrained ==> r == NotTrainedMessage
      ensures isTrained && outcome.PredictedId? && outcome.id in idToResponse ==> r == idToResponse[outcome.id]
      ensures isTrained && outcome.PredictRaised? ==> r == ErrorPrefix + outcome.message
      ensures isTrained && outcome.PredictedId? && outcome.id !in idToResponse ==> StartsWith(r, ErrorPrefix)
    {
      if !isTrained then NotTrainedMessage
      else
        match outcome
        case PredictRaised(message) => ErrorPrefix + message
        case PredictedId(id) =>
          if id in idToResponse then idToResponse[id]
          else
            var r := ErrorPrefix + NatToString(id);
            assert r[..|ErrorPrefix|] == ErrorPrefix;
            r
    }
  }

  /** After a train that fitted, every response of the dataset is predicted back from its id. */
  lemma TrainedPredictsResponses(m: Model, rows: seq<Row>, row: Row)
    requires m.isTrained && row in rows
    requires m.responseMap == ResponseMap(Unique(Responses(rows)))
    requires m.idToResponse == IdToResponse(Unique(Responses(rows)))
    ensures row.response in m.responseMap
    ensures m.Predict(row.businessType, PredictedId(m.responseMap[row.response])) == row.response
  {
    NumberingRoundTrip(Responses(rows));
    var i :| 0 <= i < |rows| && rows[i] == row;
    assert Responses(rows)[i] == row.response;
  }
}
