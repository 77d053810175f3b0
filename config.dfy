/** The shared configuration helpers: feature flags, the lookup tables with their fallbacks,
    request validation against a rule table, recursive input sanitising, and the CSRF token
    kept in the session. */
module Config {
  import opened Wrappers
  import opened Text
  import opened Php

  // ---------------------------------------------------------------- feature flags

  /** The FEATURE_ constants the configuration defines, by the part of the name after
      FEATURE_. */
  const FeatureFlags: map<string, bool> := map[
    "AI_CHAT" := true,
    "BUSINESS_IDEAS" := true,
    "FINANCIAL_CALCULATOR" := true,
    "BUSINESS_PLAN_GENERATOR" := true,
    "PDF_EXPORT" := true,
    "USER_ACCOUNTS" := false]

  const FeaturePrefix := "FEATURE_"

  /** The feature names, upper-cased, whose flag is on. */
  const EnabledFeatures := {"AI_CHAT", "BUSINESS_IDEAS", "FINANCIAL_CALCULATOR", "BUSINESS_PLAN_GENERATOR", "PDF_EXPORT"}

  /** `defined($name) ? constant($name) : ...` for the feature constants. */
  function FeatureConstant(name: string): Option<bool> {
    if |name| >= |FeaturePrefix| && name[..|FeaturePrefix|] == FeaturePrefix && name[|FeaturePrefix|..] in FeatureFlags
    then Some(FeatureFlags[name[|FeaturePrefix|..]])
    else None
  }

  /** isFeatureEnabled: the constant named 'FEATURE_' + strtoupper($feature), or false when
      no such constant is defined. */
  function IsFeatureEnabled(feature: string): bool {
    FeatureConstant(FeaturePrefix + Upper(feature)).GetOr(false)
  }

  /** A feature is enabled exactly when its upper-cased name is one of the five switched on;
      user accounts, though defined, are off. */
  lemma FeatureEnabledIff(feature: string)
    ensures IsFeatureEnabled(feature) <==> Upper(feature) in EnabledFeatures
  {
    var name := FeaturePrefix + Upper(feature);
    assert name[..|FeaturePrefix|] == FeaturePrefix && name[|FeaturePrefix|..] == Upper(feature);
  }

  // ---------------------------------------------------------------- lookup tables

  const BusinessCategories: map<string, string> := map[
    "retail" := "Retail/E-commerce", "service" := "Service Business", "manufacturing" := "Manufacturing",
    "technology" := "Technology/Software", "food" := "Food & Beverage", "consulting" := "Consulting",
    "healthcare" := "Healthcare", "education" := "Education", "real_estate" := "Real Estate",
    "finance" := "Finance", "tourism" := "Tourism", "agriculture" := "Agriculture",
    "creative" := "Creative Services", "logistics" := "Logistics", "energy" := "Energy"]

  const BudgetRanges: map<string, string> := map[
    "0-1000" := "$0 - $1,000", "1000-5000" := "$1,000 - $5,000", "5000-10000" := "$5,000 - $10,000",
    "10000-50000" := "$10,000 - $50,000", "50000+" := "$50,000+"]

  const DifficultyLevels: map<string, string> := map["easy" := "Easy", "medium" := "Medium", "hard" := "Hard"]

  const ErrorMessages: map<string, string> := map[
    "invalid_input" := "Invalid input provided", "api_error" := "API error occurred",
    "file_upload_error" := "File upload failed", "generation_error" := "Content generation failed",
    "validation_error" := "Validation error",
    "rate_limit_exceeded" := "Rate limit exceeded. Please try again later.",
    "feature_disabled" := "This feature is currently disabled"]

  const SuccessMessages: map<string, string> := map[
    "ideas_generated" := "Business ideas generated successfully",
    "projections_calculated" := "Financial projections calculated successfully",
    "business_plan_generated" := "Business plan generated successfully",
    "chat_response_sent" := "Response sent successfully"]

  const GeneralCategory := "General"
  const NotSpecified := "Not specified"
  const MediumLevel := "Medium"
  const GenericError := "An error occurred"
  const GenericSuccess := "Operation completed successfully"

  /** `$table[$key] ?? $default`. */
  function Lookup(table: map<string, string>, key: string, default: string): string {
    if key in table then table[key] else default
  }

  function GetBusinessCategory(key: string): string { Lookup(BusinessCategories, key, GeneralCategory) }
  function GetBudgetRange(key: string): string { Lookup(BudgetRanges, key, NotSpecified) }
  function GetDifficultyLevel(key: string): string { Lookup(DifficultyLevels, key, MediumLevel) }
  function GetErrorMessage(key: string): string { Lookup(ErrorMessages, key, GenericError) }
  function GetSuccessMessage(key: string): string { Lookup(SuccessMessages, key, GenericSuccess) }

  /** When the fallback is not one of the table's texts, the answer is the fallback exactly
      for the unknown keys, and otherwise the key's own text. */
  lemma LookupFallbackIff(table: map<string, string>, key: string, default: string)
    requires default !in table.Values
    ensures Lookup(table, key, default) == default <==> key !in table
    ensures key in table ==> Lookup(table, key, default) == table[key]
  {
    if key in table {
      assert table[key] in table.Values;
    }
  }

  /** Four of the fallbacks are texts no known key gives, so they mark an unknown key: the
      category and budget ones ... */
  lemma CatalogueFallbacksMarkUnknownKeys(key: string)
    ensures GetBusinessCategory(key) == GeneralCategory <==> key !in BusinessCategories
    ensures GetBudgetRange(key) == NotSpecified <==> key !in BudgetRanges
  {
    LookupFallbackIff(BusinessCategories, key, GeneralCategory);
    LookupFallbackIff(BudgetRanges, key, NotSpecified);
  }

  /** ... and the two message ones ... */
  lemma MessageFallbacksMarkUnknownKeys(key: string)
    ensures GetErrorMessage(key) == GenericError <==> key !in ErrorMessages
    ensures GetSuccessMessage(key) == GenericSuccess <==> key !in SuccessMessages
  {
    LookupFallbackIff(ErrorMessages, key, GenericError);
    LookupFallbackIff(SuccessMessages, key, GenericSuccess);
  }

  /** ... but the difficulty fallback is also the text of 'medium': an unknown level reads
      as Medium. */
  lemma UnknownDifficultyIsMedium(key: string)
    ensures GetDifficultyLevel(key) == MediumLevel <==> key == "medium" || key !in DifficultyLevels
  {
  }

  // ---------------------------------------------------------------- numeric strings

  /** The end of the run of characters satisfying `digit` (or `space`) from `i`. */
  function DigitRun(s: string, i: nat): (j: nat)
    requires i <= |s|
    ensures i <= j <= |s| && (forall k :: i <= k < j ==> IsDigit(s[k])) && (j < |s| ==> !IsDigit(s[j]))
    decreases |s| - i
  {
    if i < |s| && IsDigit(s[i]) then DigitRun(s, i + 1) else i
  }

  function SpaceRun(s: string, i: nat): (j: nat)
    requires i <= |s|
    ensures i <= j <= |s| && (forall k :: i <= k < j ==> IsNumericSpace(s[k])) && (j < |s| ==> !IsNumericSpace(s[j]))
    decreases |s| - i
  {
    if i < |s| && IsNumericSpace(s[i]) then SpaceRun(s, i + 1) else i
  }

  /** Where an exponent that starts at `d` ends: after e or E, an optional sign and at least
      one digit; `d` itself when there is no such exponent. */
  function ExponentEnd(s: string, d: nat): (e: nat)
    requires d <= |s|
    ensures d <= e <= |s|
  {
    if d < |s| && (s[d] == 'e' || s[d] == 'E') then
      var f := if d + 1 < |s| && (s[d + 1] == '+' || s[d + 1] == '-') then d + 2 else d + 1;
      var g := DigitRun(s, f);
      if g > f then g else d
    else d
  }

  /** A PHP 8 numeric string: optional leading whitespace, an optional sign, digits with an
      optional decimal point (at least one digit in all), an optional exponent, and optional
      trailing whitespace. */
  predicate NumericString(s: string) {
    var a := SpaceRun(s, 0);
    var b := if a < |s| && (s[a] == '+' || s[a] == '-') then a + 1 else a;
    var c := DigitRun(s, b);
    var d := if c < |s| && s[c] == '.' then DigitRun(s, c + 1) else c;
    var fraction := if d > c then d - c - 1 else 0;
    (c - b) + fraction > 0 && SpaceRun(s, ExponentEnd(s, d)) == |s|
  }

  /** is_numeric: integers and numeric strings (floats are not part of this model). */
  predicate IsNumeric(v: Value) {
    v.Int? || (v.Str? && NumericString(v.s))
  }

  /** Every non-empty string of digits is numeric, and so is one with a space on either
      side; a string without any digit is not. */
  lemma DigitsAreNumeric(s: string)
    requires s != [] && forall i :: 0 <= i < |s| ==> IsDigit(s[i])
    ensures NumericString(s) && NumericString(" " + s + " ")
  {
    DigitRunTo(s, 0, |s|);
    var t := " " + s + " ";
    assert t[1] == s[0];
    assert SpaceRun(t, 0) == 1;
    assert forall k :: 1 <= k < |s| + 1 ==> t[k] == s[k - 1];
    DigitRunTo(t, 1, |s| + 1);
    assert SpaceRun(t, |s| + 1) == |t|;
  }

  lemma {:induction false} DigitRunTo(s: string, i: nat, j: nat)
    requires i <= j <= |s|
    requires forall k :: i <= k < j ==> IsDigit(s[k])
    requires j < |s| ==> !IsDigit(s[j])
    ensures DigitRun(s, i) == j
    decreases j - i
  {
    if i < j {
      DigitRunTo(s, i + 1, j);
    }
  }

  lemma NoDigitNotNumeric(s: string)
    requires forall i :: 0 <= i < |s| ==> !IsDigit(s[i])
    ensures !NumericString(s)
  {
  }

  // ---------------------------------------------------------------- validateInput

  /** One entry of the rule table; an absent key (or a null one) is None. */
  datatype Rule = Rule(required: Option<Value>, ruleType: Option<Value>, minLength: Option<int>, maxLength: Option<int>)

  /** What checking one field gives: nothing, a message, or an uncaught TypeError (strlen of
      an array). */
  datatype Check = Pass | Message(text: string) | TypeError

  datatype Validation = Errors(errors: map<string, string>) | Crashed

  function RequiredMessage(field: string): string { "Field " + field + " is required" }
  const InvalidEmail := "Invalid email format"
  function NumericMessage(field: string): string { "Field " + field + " must be numeric" }
  function StringMessage(field: string): string { "Field " + field + " must be a string" }
  function MinMessage(field: string, n: int): string { "Field " + field + " must be at least " + IntToString(n) + " characters" }
  function MaxMessage(field: string, n: int): string { "Field " + field + " must be no more than " + IntToString(n) + " characters" }

  /** strlen: the length of a scalar's text; none for an array. */
  function Strlen(v: Value): (n: Option<nat>)
    ensures n.None? <==> v.List? || v.Obj?
  {
    match ScalarText(v)
    case Some(t) => Some(|t|)
    case None => None
  }

  /** filter_var($v, FILTER_VALIDATE_EMAIL) is truthy: a scalar whose text `isEmail` accepts. */
  predicate EmailOk(v: Value, isEmail: string -> bool) {
    ScalarText(v).Some? && isEmail(ScalarText(v).value)
  }

  /** The `switch ($rule['type'])`: the message of the first case that matches, if its check
      fails. */
  function TypeCheck(field: string, value: Value, t: Value, isEmail: string -> bool): Option<string> {
    if SwitchMatches(t, "email") then (if EmailOk(value, isEmail) then None else Some(InvalidEmail))
    else if SwitchMatches(t, "numeric") then (if IsNumeric(value) then None else Some(NumericMessage(field)))
    else if SwitchMatches(t, "string") then (if value.Str? then None else Some(StringMessage(field)))
    else None
  }

  function Outcome(m: Option<string>): Check {
    if m.Some? then Message(m.value) else Pass
  }

  /** One iteration of validateInput's loop, for the field's value (null when absent). */
  function FieldCheck(field: string, value: Value, rule: Rule, isEmail: string -> bool): Check {
    if rule.required.Some? && !Empty(rule.required.value) && Empty(value) then Message(RequiredMessage(field))
    else
      var afterType := if rule.ruleType.Some? then TypeCheck(field, value, rule.ruleType.value, isEmail) else None;
      if rule.minLength.None? && rule.maxLength.None? then Outcome(afterType)
      else if Strlen(value).None? then TypeError
      else
        var n := Strlen(value).value;
        var afterMin := if rule.minLength.Some? && n < rule.minLength.value then Some(MinMessage(field, rule.minLength.value)) else afterType;
        var afterMax := if rule.maxLength.Some? && n > rule.maxLength.value then Some(MaxMessage(field, rule.maxLength.value)) else afterMin;
        Outcome(afterMax)
  }

  /** The check of the i-th rule against the request. */
  function CheckOf(data: Value, rules: seq<(string, Rule)>, i: int, isEmail: string -> bool): Check
    requires 0 <= i < |rules|
  {
    FieldCheck(rules[i].0, FieldOr(data, rules[i].0, Null), rules[i].1, isEmail)
  }

  /** validateInput: one message per failing field and none for the others; a rule whose
      length check meets an array stops the script. The rule fields are distinct, as the keys
      of a PHP array are. */
  method ValidateInput(data: Value, rules: seq<(string, Rule)>, isEmail: string -> bool) returns (r: Validation)
    requires forall i, j :: 0 <= i < j < |rules| ==> rules[i].0 != rules[j].0
    ensures r.Crashed? <==> exists i :: 0 <= i < |rules| && CheckOf(data, rules, i, isEmail) == TypeError
    ensures r.Errors? ==> forall f :: f in r.errors ==> exists i :: 0 <= i < |rules| && rules[i].0 == f
    ensures r.Errors? ==> forall i :: 0 <= i < |rules| ==>
      && (rules[i].0 in r.errors <==> CheckOf(data, rules, i, isEmail).Message?)
      && (rules[i].0 in r.errors ==> r.errors[rules[i].0] == CheckOf(data, rules, i, isEmail).text)
  {
    var errors: map<string, string> := map[];
    var i := 0;
    while i < |rules|
      invariant 0 <= i <= |rules|
      invariant forall j :: 0 <= j < i ==> CheckOf(data, rules, j, isEmail) != TypeError
      invariant forall f :: f in errors ==> exists j :: 0 <= j < i && rules[j].0 == f
      invariant forall j :: 0 <= j < i ==>
        && (rules[j].0 in errors <==> CheckOf(data, rules, j, isEmail).Message?)
        && (rules[j].0 in errors ==> errors[rules[j].0] == CheckOf(data, rules, j, isEmail).text)
    {
      var field := rules[i].0;
      var check := FieldCheck(field, FieldOr(data, field, Null), rules[i].1, isEmail);
      assert check == CheckOf(data, rules, i, isEmail);
      if check == TypeError {
        return Crashed;
      }
      if check.Message? {
        errors := errors[field := check.text];
      }
      i := i + 1;
    }
    r := Errors(errors);
  }

  /** A required field that is empty (absent, null, '', '0', 0, false, []) gets only the
      required message. */
  lemma RequiredEmptyStopsChecks(field: string, value: Value, rule: Rule, isEmail: string -> bool)
    requires rule.required.Some? && !Empty(rule.required.value) && Empty(value)
    ensures FieldCheck(field, value, rule, isEmail) == Message(RequiredMessage(field))
  {
  }

  /** The type check also runs for an absent optional field: an absent email field is an
      invalid address. */
  lemma AbsentOptionalEmailRejected(field: string, data: Value, isEmail: string -> bool)
    requires Field(data, field).None? && !isEmail("")
    ensures FieldCheck(field, FieldOr(data, field, Null), Rule(None, Some(Str("email")), None, None), isEmail)
      == Message(InvalidEmail)
  {
  }

  /** A length violation replaces the type message, and a too-long value's message replaces
      a too-short one's. */
  lemma LengthOverridesType(field: string, value: Value, rule: Rule, isEmail: string -> bool)
    requires !(rule.required.Some? && !Empty(rule.required.value) && Empty(value))
    requires Strlen(value).Some?
    ensures rule.maxLength.Some? && Strlen(value).value > rule.maxLength.value ==>
      FieldCheck(field, value, rule, isEmail) == Message(MaxMessage(field, rule.maxLength.value))
    ensures rule.minLength.Some? && Strlen(value).value < rule.minLength.value &&
            !(rule.maxLength.Some? && Strlen(value).value > rule.maxLength.value) ==>
      FieldCheck(field, value, rule, isEmail) == Message(MinMessage(field, rule.minLength.value))
  {
  }

  /** A rule without required, type or lengths never reports its field. */
  lemma EmptyRulePasses(field: string, value: Value, isEmail: string -> bool)
    ensures FieldCheck(field, value, Rule(None, None, None, None), isEmail) == Pass
  {
  }

  // ---------------------------------------------------------------- sanitizeInput

  /** sanitizeInput: arrays element by element, keeping their keys; any other value trimmed
      and escaped. */
  function Sanitize(v: Value): (r: Value)
    ensures v.List? <==> r.List?
    ensures v.Obj? <==> r.Obj?
    ensures v.List? ==> |r.items| == |v.items|
    ensures v.Obj? ==> r.fields.Keys == v.fields.Keys
    ensures v.List? ==> forall i :: 0 <= i < |v.items| ==> r.items[i] == Sanitize(v.items[i])
    ensures v.Obj? ==> forall k :: k in v.fields ==> r.fields[k] == Sanitize(v.fields[k])
    ensures !v.List? && !v.Obj? ==> r == Str(Escape(Trim(PhpTrim, ScalarText(v).value)))
  {
    match v
    case List(xs) => List(SanitizeAll(xs))
    case Obj(m) => Obj(map k | k in m :: Sanitize(m[k]))
    case _ => Str(Escape(Trim(PhpTrim, ScalarText(v).value)))
  }

  /** array_map over a list. */
  function SanitizeAll(xs: seq<Value>): (r: seq<Value>)
    ensures |r| == |xs|
    ensures forall i :: 0 <= i < |xs| ==> r[i] == Sanitize(xs[i])
    decreases xs
  {
    if xs == [] then [] else [Sanitize(xs[0])] + SanitizeAll(xs[1..])
  }

  /** Nothing is lost: decoding the entities of a sanitised scalar gives the trimmed text, and
      it holds none of < > " '. */
  lemma SanitizeUndone(v: Value)
    requires !v.List? && !v.Obj?
    ensures Sanitize(v).Str? && Unescape(Sanitize(v).s) == Trim(PhpTrim, ScalarText(v).value)
    ensures forall i :: 0 <= i < |Sanitize(v).s| ==> !Special(Sanitize(v).s[i])
  {
    EscapeRoundTrip(Trim(PhpTrim, ScalarText(v).value));
    EscapeHasNoSpecial(Trim(PhpTrim, ScalarText(v).value));
  }

  /** Sanitising twice is sanitising once for text with nothing to escape ... */
  lemma SanitizeTwicePlain(s: string)
    requires forall i :: 0 <= i < |Trim(PhpTrim, s)| ==> !Special(Trim(PhpTrim, s)[i]) && Trim(PhpTrim, s)[i] != '&'
    ensures Sanitize(Sanitize(Str(s))) == Sanitize(Str(s))
  {
    var t := Trim(PhpTrim, s);
    EscapePlain(t);
    TrimIdempotent(PhpTrim, s);
  }

  /** ... but not in general: an ampersand is escaped again each time. */
  lemma SanitizeNotIdempotent(s: string)
    requires s == "&"
    ensures Sanitize(Str(s)) == Str("&amp;")
    ensures Sanitize(Sanitize(Str(s))) == Str("&amp;amp;")
  {
    assert Trim(PhpTrim, s) == s by { TrimNoSpace(PhpTrim, s); }
    assert Escape(s) == "&amp;";
    var e := "&amp;";
    assert Trim(PhpTrim, e) == e by { TrimNoSpace(PhpTrim, e); }
    assert e == "&" + "amp;";
    EscapeAppend("&", "amp;");
    EscapePlain("amp;");
    assert Escape(e) == "&amp;" + "amp;" == "&amp;amp;";
    assert Sanitize(Str(s)) == Str(e);
  }

  // ---------------------------------------------------------------- CSRF token

  const CsrfKey := "csrf_token"

  /** isset($_SESSION['csrf_token']). */
  predicate HasToken(data: map<string, Value>) {
    CsrfKey in data && data[CsrfKey] != Null
  }

  /** A byte, as random_bytes produces them. */
  newtype Byte = b: int | 0 <= b < 256

  function HexDigit(d: nat): (c: char)
    requires d < 16
  {
    if d < 10 then ('0' as int + d) as char else ('a' as int + d - 10) as char
  }

  lemma HexDigitInjective(d: nat, e: nat)
    requires d < 16 && e < 16 && HexDigit(d) == HexDigit(e)
    ensures d == e
  {
  }

  /** bin2hex: two lower-case hexadecimal digits per byte, high nibble first. */
  function Hex(bytes: seq<Byte>): (r: string)
    ensures |r| == 2 * |bytes|
  {
    if bytes == [] then ""
    else [HexDigit(bytes[0] as nat / 16), HexDigit(bytes[0] as nat % 16)] + Hex(bytes[1..])
  }

  /** Distinct random bytes give distinct tokens. */
  lemma {:induction false} HexInjective(a: seq<Byte>, b: seq<Byte>)
    requires Hex(a) == Hex(b)
    ensures a == b
  {
    if a != [] {
      var x, y := a[0] as nat, b[0] as nat;
      var ha, hb := Hex(a), Hex(b);
      assert ha == [HexDigit(x / 16), HexDigit(x % 16)] + Hex(a[1..]);
      assert hb == [HexDigit(y / 16), HexDigit(y % 16)] + Hex(b[1..]);
      assert ha[0] == HexDigit(x / 16) && hb[0] == HexDigit(y / 16) && ha[0] == hb[0];
      assert ha[1] == HexDigit(x % 16) && hb[1] == HexDigit(y % 16) && ha[1] == hb[1];
      HexDigitInjective(x / 16, y / 16);
      HexDigitInjective(x % 16, y % 16);
      assert x == 16 * (x / 16) + x % 16;
      assert y == 16 * (y / 16) + y % 16;
      assert Hex(a[1..]) == ha[2..] && Hex(b[1..]) == hb[2..];
      HexInjective(a[1..], b[1..]);
      assert a == [a[0]] + a[1..] && b == [b[0]] + b[1..];
    }
  }

  /** generateCSRFToken: the stored token when there is one, otherwise a new one from 32
      random bytes, stored for the next call. */
  method GenerateCSRFToken(s: Session, randomBytes: seq<Byte>) returns (token: Value)
    requires |randomBytes| == 32
    modifies s
    ensures HasToken(old(s.data)) ==> token == old(s.data)[CsrfKey] && s.data == old(s.data)
    ensures !HasToken(old(s.data)) ==>
      token == Str(Hex(randomBytes)) && |token.s| == 64 && s.data == old(s.data)[CsrfKey := token]
    ensures HasToken(s.data) && s.data[CsrfKey] == token
  {
    if !HasToken(s.data) {
      s.data := s.data[CsrfKey := Str(Hex(randomBytes))];
    }
    token := s.data[CsrfKey];
  }

  datatype TokenCheck = Matches | Mismatch | NotAString

  /** validateCSRFToken: false without a stored token; hash_equals of two strings otherwise,
      and an uncaught TypeError (NotAString) when either is not a string. */
  function ValidateCSRFToken(data: map<string, Value>, token: Value): (r: TokenCheck)
    ensures r == Matches <==> HasToken(data) && data[CsrfKey].Str? && token == data[CsrfKey]
    ensures r == NotAString <==> HasToken(data) && (!data[CsrfKey].Str? || !token.Str?)
  {
    if !HasToken(data) then Mismatch
    else if !data[CsrfKey].Str? || !token.Str? then NotAString
    else if data[CsrfKey].s == token.s then Matches
    else Mismatch
  }

  /** After a token is generated for a session without one, exactly that token validates. */
  lemma GeneratedTokenValidates(data: map<string, Value>, randomBytes: seq<Byte>, submitted: string)
    requires !HasToken(data)
    ensures ValidateCSRFToken(data[CsrfKey := Str(Hex(randomBytes))], Str(submitted)) == Matches <==> submitted == Hex(randomBytes)
    ensures ValidateCSRFToken(data, Str(submitted)) == Mismatch
  {
  }
}
