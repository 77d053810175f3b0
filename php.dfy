/** The PHP runtime notions the endpoints rely on: a decoded JSON request value,
    `empty()`, `isset($a[$k])` / `??`, string conversion of scalars, and htmlspecialchars. */
module Php {
  import opened Wrappers
  import opened Text

  /** A value produced by json_decode(..., true): objects become string-keyed arrays. */
  datatype Value =
    | Null
    | Bool(b: bool)
    | Int(i: int)
    | Str(s: string)
    | List(items: seq<Value>)
    | Obj(fields: map<string, Value>)

  /** PHP empty(): null, false, 0, "", "0" and the empty array. */
  predicate Empty(v: Value) {
    match v
    case Null => true
    case Bool(b) => !b
    case Int(i) => i == 0
    case Str(s) => s == "" || s == "0"
    case List(xs) => xs == []
    case Obj(m) => m == map[]
  }

  /** `$v[$key]` when it is set (present and not null) — isset($v[$key]). */
  function Field(v: Value, key: string): (r: Option<Value>)
    ensures r.Some? ==> v.Obj? && key in v.fields && r.value == v.fields[key] && r.value != Null
    ensures r.None? ==> !v.Obj? || key !in v.fields || v.fields[key] == Null
  {
    if v.Obj? && key in v.fields && v.fields[key] != Null then Some(v.fields[key]) else None
  }

  /** `$v[$key] ?? $default`. */
  function FieldOr(v: Value, key: string, default: Value): Value {
    Field(v, key).GetOr(default)
  }

  /** The string a scalar converts to ((string)$v, trim($v), strlen($v)); arrays have none
      (PHP raises a TypeError). */
  function ScalarText(v: Value): (r: Option<string>)
    ensures r.None? <==> v.List? || v.Obj?
  {
    match v
    case Null => Some("")
    case Bool(b) => Some(if b then "1" else "")
    case Int(i) => Some(IntToString(i))
    case Str(s) => Some(s)
    case List(_) => None
    case Obj(_) => None
  }

  /** String conversion by `.` or interpolation: an array becomes 'Array' (with a warning). */
  function Stringify(v: Value): (r: string)
    ensures ScalarText(v).Some? ==> r == ScalarText(v).value
    ensures v.List? || v.Obj? ==> r == "Array"
  {
    match ScalarText(v)
    case Some(s) => s
    case None => "Array"
  }

  /** `switch ($v)` against a non-numeric, non-empty case string compares loosely: the case
      matches that string and also `true`. */
  predicate SwitchMatches(v: Value, case_: string)
    requires case_ != "" && case_ != "0"
  {
    v == Str(case_) || v == Bool(true)
  }

  /** The whitespace a numeric string may start (and, since PHP 8, end) with: space, \t, \n,
      \v, \f and \r. */
  predicate IsNumericSpace(c: char) { c == ' ' || ('\t' <= c <= '\r') }

  /** `$_SESSION`: a map that persists from one request of a client to the next. */
  class Session {
    var data: map<string, Value>

    constructor()
      ensures data == map[]
    {
      data := map[];
    }
  }

  // ---------------------------------------------------------------- htmlspecialchars

  /** htmlspecialchars with ENT_QUOTES (also PHP 8.1's default flags): & < > " ' become entities. */
  function EscapeChar(c: char): string {
    if c == '&' then "&amp;"
    else if c == '<' then "&lt;"
    else if c == '>' then "&gt;"
    else if c == '"' then "&quot;"
    else if c == '\'' then "&#039;"
    else [c]
  }

  function Escape(s: string): string {
    if s == [] then "" else EscapeChar(s[0]) + Escape(s[1..])
  }

  predicate Special(c: char) { c == '<' || c == '>' || c == '"' || c == '\'' }

  /** The reading of the entities back into characters (html_entity_decode for these five). */
  function Unescape(s: string): string
    decreases |s|
  {
    if s == [] then ""
    else if s[0] != '&' then [s[0]] + Unescape(s[1..])
    else if StartsWith(s, "&amp;") then "&" + Unescape(s[5..])
    else if StartsWith(s, "&lt;") then "<" + Unescape(s[4..])
    else if StartsWith(s, "&gt;") then ">" + Unescape(s[4..])
    else if StartsWith(s, "&quot;") then "\"" + Unescape(s[6..])
    else if StartsWith(s, "&#039;") then "'" + Unescape(s[6..])
    else [s[0]] + Unescape(s[1..])
  }

  /** Escaped text contains none of < > " ' ... */
  lemma {:induction false} EscapeHasNoSpecial(s: string)
    ensures forall i :: 0 <= i < |Escape(s)| ==> !Special(Escape(s)[i])
  {
    if s != [] {
      EscapeHasNoSpecial(s[1..]);
      var e := EscapeChar(s[0]);
      assert forall i :: 0 <= i < |e| ==> !Special(e[i]);
      assert Escape(s) == e + Escape(s[1..]);
    }
  }

  /** Decoding one escaped character followed by more text. */
  lemma UnescapeOne(c: char, rest: string)
    ensures Unescape(EscapeChar(c) + rest) == [c] + Unescape(rest)
  {
    var e := EscapeChar(c) + rest;
    if c == '&' {
      assert e[..5] == "&amp;" && e[5..] == rest;
    } else if c == '<' {
      assert !StartsWith(e, "&amp;") by { assert e[1] == 'l'; }
      assert e[..4] == "&lt;" && e[4..] == rest;
    } else if c == '>' {
      assert !StartsWith(e, "&amp;") by { assert e[1] == 'g'; }
      assert !StartsWith(e, "&lt;") by { assert e[1] == 'g'; }
      assert e[..4] == "&gt;" && e[4..] == rest;
    } else if c == '"' {
      assert !StartsWith(e, "&amp;") by { assert e[1] == 'q'; }
      assert !StartsWith(e, "&lt;") by { assert e[1] == 'q'; }
      assert !StartsWith(e, "&gt;") by { assert e[1] == 'q'; }
      assert e[..6] == "&quot;" && e[6..] == rest;
    } else if c == '\'' {
      assert !StartsWith(e, "&amp;") by { assert e[1] == '#'; }
      assert !StartsWith(e, "&lt;") by { assert e[1] == '#'; }
      assert !StartsWith(e, "&gt;") by { assert e[1] == '#'; }
      assert !StartsWith(e, "&quot;") by { assert e[1] == '#'; }
      assert e[..6] == "&#039;" && e[6..] == rest;
    } else {
      assert e[0] == c && e[1..] == rest;
    }
  }

  /** ... and loses nothing: decoding the entities gives back the original text. */
  lemma {:induction false} EscapeRoundTrip(s: string)
    ensures Unescape(Escape(s)) == s
  {
    if s != [] {
      EscapeRoundTrip(s[1..]);
      UnescapeOne(s[0], Escape(s[1..]));
    }
  }

  /** Text with nothing to escape is left as it is. */
  lemma {:induction false} EscapePlain(s: string)
    requires forall i :: 0 <= i < |s| ==> !Special(s[i]) && s[i] != '&'
    ensures Escape(s) == s
  {
    if s != [] {
      EscapePlain(s[1..]);
    }
  }

  lemma EscapeAppend(a: string, b: string)
    ensures Escape(a + b) == Escape(a) + Escape(b)
  {
    if a == [] {
      assert a + b == b;
    } else {
      assert (a + b)[0] == a[0];
      assert (a + b)[1..] == a[1..] + b;
      EscapeAppend(a[1..], b);
    }
  }
}
