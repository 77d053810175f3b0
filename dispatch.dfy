/** Ordered keyword dispatch: the if/elif cascades of the chat endpoints and classifiers.
    Each branch is a rule that fires when the caller's explicit intent is one of the rule's
    intents, or when the (already lower-cased) text contains one of the rule's keys; the first
    rule that fires, in source order, decides the answer. */
module Dispatch {
  import opened Wrappers
  import opened Text

  datatype Rule<T> = Rule(intents: seq<string>, keys: seq<string>, result: T)

  /** Some key occurs in the text. */
  predicate KeyHit(keys: seq<string>, text: string) {
    exists i :: 0 <= i < |keys| && Contains(text, keys[i])
  }

  predicate Fires<T>(r: Rule<T>, intent: Option<string>, text: string) {
    (intent.Some? && intent.value in r.intents) || KeyHit(r.keys, text)
  }

  /** A rule with a single key and no intent fires exactly when its key occurs. */
  lemma SingleKey<T>(r: Rule<T>, text: string)
    requires r.intents == [] && |r.keys| == 1
    ensures Fires(r, None, text) <==> Contains(text, r.keys[0])
  {
    if Contains(text, r.keys[0]) {
      assert KeyHit(r.keys, text);
    }
  }

  /** The index of the first rule that fires, if any. */
  function FirstMatch<T>(rules: seq<Rule<T>>, intent: Option<string>, text: string): (r: Option<nat>)
    ensures r.Some? ==> r.value < |rules| && Fires(rules[r.value], intent, text)
    ensures r.Some? ==> forall j :: 0 <= j < r.value ==> !Fires(rules[j], intent, text)
    ensures r.None? ==> forall j :: 0 <= j < |rules| ==> !Fires(rules[j], intent, text)
  {
    if |rules| == 0 then None
    else if Fires(rules[0], intent, text) then Some(0)
    else
      match FirstMatch(rules[1..], intent, text)
      case None => None
      case Some(i) => Some(i + 1)
  }

  /** Rule `i` is chosen exactly when it fires and no earlier rule does. */
  lemma FirstMatchExactly<T>(rules: seq<Rule<T>>, intent: Option<string>, text: string, i: nat)
    requires i < |rules|
    ensures FirstMatch(rules, intent, text) == Some(i)
        <==> Fires(rules[i], intent, text) && forall j :: 0 <= j < i ==> !Fires(rules[j], intent, text)
  {
  }

  /** The result of the first rule that fires, if any. */
  function Select<T>(rules: seq<Rule<T>>, intent: Option<string>, text: string): Option<T> {
    match FirstMatch(rules, intent, text)
    case None => None
    case Some(i) => Some(rules[i].result)
  }

  /** When no other rule shares rule `i`'s result, that result is selected exactly when rule `i`
      fires and no earlier rule does. */
  lemma SelectExactly<T>(rules: seq<Rule<T>>, intent: Option<string>, text: string, i: nat)
    requires i < |rules|
    requires forall k :: 0 <= k < |rules| && rules[k].result == rules[i].result ==> k == i
    ensures Select(rules, intent, text) == Some(rules[i].result)
        <==> Fires(rules[i], intent, text) && forall j :: 0 <= j < i ==> !Fires(rules[j], intent, text)
  {
    FirstMatchExactly(rules, intent, text, i);
  }

  /** Nothing is selected exactly when no rule fires. */
  lemma SelectNone<T>(rules: seq<Rule<T>>, intent: Option<string>, text: string)
    ensures Select(rules, intent, text).None?
        <==> forall j :: 0 <= j < |rules| ==> !Fires(rules[j], intent, text)
  {
  }

  /** Every key of rule `i` contains some key of rule `j`, and rule `i` has no intent of its own. */
  predicate Shadows<T>(rules: seq<Rule<T>>, j: nat, i: nat)
    requires j < |rules| && i < |rules|
  {
    (forall x :: x in rules[i].intents ==> x in rules[j].intents)
    && forall a :: 0 <= a < |rules[i].keys| ==>
         exists b :: 0 <= b < |rules[j].keys| && Contains(rules[i].keys[a], rules[j].keys[b])
  }

  /** A rule shadowed by an earlier rule is dead code: no text and no intent ever selects it. */
  lemma {:induction false} ShadowedRuleUnreachable<T>(rules: seq<Rule<T>>, j: nat, i: nat, intent: Option<string>, text: string)
    requires j < i < |rules| && Shadows(rules, j, i)
    ensures FirstMatch(rules, intent, text) != Some(i)
  {
    if Fires(rules[i], intent, text) {
      if intent.Some? && intent.value in rules[i].intents {
        assert intent.value in rules[j].intents;
      } else {
        var a :| 0 <= a < |rules[i].keys| && Contains(text, rules[i].keys[a]);
        var b :| 0 <= b < |rules[j].keys| && Contains(rules[i].keys[a], rules[j].keys[b]);
        ContainsTrans(text, rules[i].keys[a], rules[j].keys[b]);
        assert Contains(text, rules[j].keys[b]);
      }
      assert Fires(rules[j], intent, text);
    }
  }

  /** A key that contains another key of the same rule adds nothing: the rule fires without it. */
  lemma {:induction false} RedundantKey(keys: seq<string>, a: nat, b: nat, text: string)
    requires a < |keys| && b < |keys| && a != b && Contains(keys[a], keys[b])
    ensures KeyHit(keys, text) <==> KeyHit(keys[..a] + keys[a + 1..], text)
  {
    var rest := keys[..a] + keys[a + 1..];
    if KeyHit(keys, text) {
      var i :| 0 <= i < |keys| && Contains(text, keys[i]);
      var w := if i == a then b else i;
      if i == a {
        ContainsTrans(text, keys[a], keys[b]);
      }
      var pos := if w < a then w else w - 1;
      assert rest[pos] == keys[w];
    }
    if KeyHit(rest, text) {
      var p :| 0 <= p < |rest| && Contains(text, rest[p]);
      if p < a {
        assert rest[p] == keys[p];
      } else {
        assert rest[p] == keys[p + 1];
      }
    }
  }
}
