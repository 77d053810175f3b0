/** Character-level string helpers shared by the PHP, Python and JavaScript code being modelled:
    ASCII case mapping, substring tests, the trimming functions of the three languages,
    split/join, first-occurrence search, replace-all, the `\w+` tokenizer and decimal text. */
module Text {
  import opened Wrappers

  // ---------------------------------------------------------------- characters

  predicate IsUpper(c: char) { 'A' <= c <= 'Z' }
  predicate IsLower(c: char) { 'a' <= c <= 'z' }
  predicate IsLetter(c: char) { IsUpper(c) || IsLower(c) }
  predicate IsDigit(c: char) { '0' <= c <= '9' }
  /** The class `\w` of the regular expressions, restricted to ASCII. */
  predicate IsWordChar(c: char) { IsLetter(c) || IsDigit(c) || c == '_' }

  function LowerChar(c: char): char { if IsUpper(c) then (c as int + 32) as char else c }
  function UpperChar(c: char): char { if IsLower(c) then (c as int - 32) as char else c }

  /** strtolower / str.lower() / toLowerCase(), on ASCII letters. */
  function Lower(s: string): (r: string)
    ensures |r| == |s|
    ensures forall i :: 0 <= i < |s| ==> r[i] == LowerChar(s[i])
  {
    if s == [] then [] else [LowerChar(s[0])] + Lower(s[1..])
  }

  /** strtoupper / str.upper(), on ASCII letters. */
  function Upper(s: string): (r: string)
    ensures |r| == |s|
    ensures forall i :: 0 <= i < |s| ==> r[i] == UpperChar(s[i])
  {
    if s == [] then [] else [UpperChar(s[0])] + Upper(s[1..])
  }

  lemma LowerIdempotent(s: string)
    ensures Lower(Lower(s)) == Lower(s)
  {
  }

  lemma LowerAppend(a: string, b: string)
    ensures Lower(a + b) == Lower(a) + Lower(b)
  {
  }

  lemma LowerHasNoUpper(s: string)
    ensures forall i :: 0 <= i < |s| ==> !IsUpper(Lower(s)[i])
  {
  }

  // ---------------------------------------------------------------- substrings

  /** `sub` occurs in `s` (strpos(...) !== false, `in`, includes). */
  predicate Contains(s: string, sub: string) {
    exists k :: 0 <= k <= |s| - |sub| && OccursAt(s, sub, k)
  }

  /** `sub` occurs in `s` starting at index `k`. */
  predicate OccursAt(s: string, sub: string, k: int) {
    0 <= k <= |s| - |sub| && s[k..k + |sub|] == sub
  }

  predicate StartsWith(s: string, prefix: string) {
    |prefix| <= |s| && s[..|prefix|] == prefix
  }

  lemma ContainsAt(s: string, sub: string, k: int)
    requires 0 <= k <= |s| - |sub| && s[k..k + |sub|] == sub
    ensures Contains(s, sub)
  {
    assert OccursAt(s, sub, k);
  }

  lemma StartsWithContains(s: string, prefix: string)
    requires StartsWith(s, prefix)
    ensures Contains(s, prefix)
  {
    ContainsAt(s, prefix, 0);
  }

  lemma ContainsSelf(s: string)
    ensures Contains(s, s)
  {
    ContainsAt(s, s, 0);
  }

  /** Occurrence is transitive: a text containing `mid` contains everything `mid` contains. */
  lemma {:induction false} ContainsTrans(s: string, mid: string, sub: string)
    requires Contains(s, mid) && Contains(mid, sub)
    ensures Contains(s, sub)
  {
    var k1 :| 0 <= k1 <= |s| - |mid| && OccursAt(s, mid, k1);
    var k2 :| 0 <= k2 <= |mid| - |sub| && OccursAt(mid, sub, k2);
    forall j | 0 <= j < |sub| ensures s[k1 + k2 + j] == sub[j] {
      assert s[k1 + k2 + j] == mid[k2 + j];
      assert mid[k2 + j] == sub[j];
    }
    assert s[k1 + k2..k1 + k2 + |sub|] == sub;
    ContainsAt(s, sub, k1 + k2);
  }

  /** A text lacking one of the characters of `sub` does not contain `sub`. */
  lemma MissingChar(s: string, sub: string, i: int)
    requires 0 <= i < |sub| && sub[i] !in s
    ensures !Contains(s, sub)
  {
    forall k | 0 <= k <= |s| - |sub| ensures !OccursAt(s, sub, k) {
      assert s[k + i] in s;
      assert s[k..k + |sub|][i] == s[k + i];
    }
  }

  /** `sub` is absent when every candidate position differs from it at index `i` or at index `j`. */
  lemma Mismatch(s: string, sub: string, i: int, j: int)
    requires 0 <= i < |sub| && 0 <= j < |sub|
    requires forall k :: 0 <= k <= |s| - |sub| ==> DiffersAt(s, sub, k, i, j)
    ensures !Contains(s, sub)
  {
    forall k | 0 <= k <= |s| - |sub| ensures !OccursAt(s, sub, k) {
      assert DiffersAt(s, sub, k, i, j);
      assert s[k..k + |sub|][i] == s[k + i];
      assert s[k..k + |sub|][j] == s[k + j];
    }
  }

  /** Placed at `k`, `sub` disagrees with `s` at its index `i` or at its index `j`. */
  predicate DiffersAt(s: string, sub: string, k: int, i: int, j: int)
    requires 0 <= i < |sub| && 0 <= j < |sub|
  {
    0 <= k <= |s| - |sub| ==> s[k + i] != sub[i] || s[k + j] != sub[j]
  }

  lemma TooLong(s: string, sub: string)
    requires |sub| > |s|
    ensures !Contains(s, sub)
  {
  }

  lemma ContainsInLeft(a: string, b: string, sub: string)
    requires Contains(a, sub)
    ensures Contains(a + b, sub)
  {
    var k :| 0 <= k <= |a| - |sub| && OccursAt(a, sub, k);
    assert (a + b)[k..k + |sub|] == a[k..k + |sub|];
    ContainsAt(a + b, sub, k);
  }

  lemma ContainsInRight(a: string, b: string, sub: string)
    requires Contains(b, sub)
    ensures Contains(a + b, sub)
  {
    var k :| 0 <= k <= |b| - |sub| && OccursAt(b, sub, k);
    assert (a + b)[|a| + k..|a| + k + |sub|] == b[k..k + |sub|];
    ContainsAt(a + b, sub, |a| + k);
  }

  /** Lower-casing preserves occurrences. */
  lemma LowerContains(s: string, sub: string)
    requires Contains(s, sub)
    ensures Contains(Lower(s), Lower(sub))
  {
    var k :| 0 <= k <= |s| - |sub| && OccursAt(s, sub, k);
    var ls, lsub := Lower(s), Lower(sub);
    forall j | 0 <= j < |sub| ensures ls[k + j] == lsub[j] {
      assert s[k..k + |sub|][j] == s[k + j];
    }
    assert ls[k..k + |sub|] == lsub;
    ContainsAt(ls, lsub, k);
  }

  /** The first occurrence of `pat` in `s` (strpos, indexOf, str.find). */
  function FindFirst(s: string, pat: string): (r: Option<nat>)
    ensures r.Some? ==> OccursAt(s, pat, r.value)
    ensures r.Some? ==> forall k :: 0 <= k < r.value ==> !OccursAt(s, pat, k)
    ensures r.None? <==> !Contains(s, pat)
    decreases |s|
  {
    if |s| < |pat| then None
    else if s[..|pat|] == pat then Some(0)
    else
      match FindFirst(s[1..], pat)
      case None =>
        AbsentFromTail(s, pat);
        None
      case Some(i) =>
        FirstInTail(s, pat, i);
        Some(i + 1)
  }

  /** A text whose head does not start `pat` and whose tail lacks it lacks it. */
  lemma AbsentFromTail(s: string, pat: string)
    requires |pat| <= |s| && s[..|pat|] != pat && !Contains(s[1..], pat)
    ensures !Contains(s, pat)
  {
    if Contains(s, pat) {
      var k :| 0 <= k <= |s| - |pat| && OccursAt(s, pat, k);
      assert k != 0;
      assert s[1..][k - 1..k - 1 + |pat|] == s[k..k + |pat|];
      ContainsAt(s[1..], pat, k - 1);
    }
  }

  /** The first occurrence in the tail, shifted by one, is the first in the text. */
  lemma FirstInTail(s: string, pat: string, i: nat)
    requires |pat| <= |s| && s[..|pat|] != pat
    requires OccursAt(s[1..], pat, i) && forall k :: 0 <= k < i ==> !OccursAt(s[1..], pat, k)
    ensures OccursAt(s, pat, i + 1) && forall k :: 0 <= k < i + 1 ==> !OccursAt(s, pat, k)
  {
    assert s[i + 1..i + 1 + |pat|] == s[1..][i..i + |pat|];
    forall k | 0 <= k < i + 1 ensures !OccursAt(s, pat, k) {
      if k == 0 {
      } else if k <= |s| - |pat| {
        assert s[k..k + |pat|] == s[1..][k - 1..k - 1 + |pat|];
        assert !OccursAt(s[1..], pat, k - 1);
      }
    }
  }

  // ---------------------------------------------------------------- trimming

  /** The character sets stripped by PHP trim(), Python str.strip() and JavaScript trim(). */
  datatype Spaces = PhpTrim | PyStrip | JsTrim

  predicate IsSpace(k: Spaces, c: char) {
    match k
    case PhpTrim => c == ' ' || c == '\t' || c == '\n' || c == '\r' || c == 0 as char || c == 11 as char
    case PyStrip => c == ' ' || ('\t' <= c <= '\r') || (28 as char <= c <= 31 as char) || c == 133 as char || c == 160 as char
    case JsTrim => c == ' ' || ('\t' <= c <= '\r') || c == 160 as char || c == 0xFEFF as char || c == 0x2028 as char || c == 0x2029 as char
  }

  function TrimStart(k: Spaces, s: string): (r: string)
    ensures |r| <= |s|
    ensures r == [] || !IsSpace(k, r[0])
    ensures forall i :: 0 <= i < |s| - |r| ==> IsSpace(k, s[i])
  {
    if s != [] && IsSpace(k, s[0]) then TrimStart(k, s[1..]) else s
  }

  function TrimEnd(k: Spaces, s: string): (r: string)
    ensures |r| <= |s|
    ensures r == [] || !IsSpace(k, r[|r| - 1])
    ensures forall i :: |r| <= i < |s| ==> IsSpace(k, s[i])
  {
    if s != [] && IsSpace(k, s[|s| - 1]) then TrimEnd(k, s[..|s| - 1]) else s
  }

  /** What TrimStart keeps is a suffix of its input ... */
  lemma {:induction false} TrimStartSuffix(k: Spaces, s: string)
    ensures var r := TrimStart(k, s); r == s[|s| - |r|..]
  {
    if s != [] && IsSpace(k, s[0]) {
      TrimStartSuffix(k, s[1..]);
    }
  }

  /** ... and what TrimEnd keeps a prefix. */
  lemma {:induction false} TrimEndPrefix(k: Spaces, s: string)
    ensures var r := TrimEnd(k, s); r == s[..|r|]
  {
    if s != [] && IsSpace(k, s[|s| - 1]) {
      TrimEndPrefix(k, s[..|s| - 1]);
    }
  }

  /** Removes the leading and trailing characters of the set `k`. */
  function Trim(k: Spaces, s: string): (r: string)
  {
    TrimEnd(k, TrimStart(k, s))
  }

  /** The trimmed text is a slice of the input that neither starts nor ends with a space,
      and every character cut away was a space. */
  lemma TrimSpec(k: Spaces, s: string)
    ensures var r := Trim(k, s);
      exists i :: 0 <= i <= |s| && OccursAt(s, r, i)
        && (forall j :: 0 <= j < i ==> IsSpace(k, s[j]))
        && (forall j :: i + |r| <= j < |s| ==> IsSpace(k, s[j]))
    ensures Trim(k, s) == [] || (!IsSpace(k, Trim(k, s)[0]) && !IsSpace(k, Trim(k, s)[|Trim(k, s)| - 1]))
  {
    var t := TrimStart(k, s);
    var r := TrimEnd(k, t);
    var i := |s| - |t|;
    TrimStartSuffix(k, s);
    TrimEndPrefix(k, t);
    assert s[i..i + |r|] == r;
    assert OccursAt(s, r, i);
    assert r == Trim(k, s);
    assert r != [] ==> r[0] == t[0];
    forall j | i + |r| <= j < |s| ensures IsSpace(k, s[j]) {
      assert s[j] == t[j - i];
    }
  }

  lemma TrimIdempotent(k: Spaces, s: string)
    ensures Trim(k, Trim(k, s)) == Trim(k, s)
  {
    TrimSpec(k, s);
    TrimNoSpace(k, Trim(k, s));
  }

  lemma {:induction false} TrimStartAllSpace(k: Spaces, s: string)
    requires forall i :: 0 <= i < |s| ==> IsSpace(k, s[i])
    ensures TrimStart(k, s) == []
  {
    if s != [] {
      TrimStartAllSpace(k, s[1..]);
    }
  }

  /** Trimming gives the empty text exactly when every character is a space. */
  lemma TrimEmpty(k: Spaces, s: string)
    ensures Trim(k, s) == [] <==> forall i :: 0 <= i < |s| ==> IsSpace(k, s[i])
  {
    TrimSpec(k, s);
    var r := Trim(k, s);
    if forall i :: 0 <= i < |s| ==> IsSpace(k, s[i]) {
      TrimStartAllSpace(k, s);
    }
    if r == [] {
      var i :| 0 <= i <= |s| && OccursAt(s, r, i)
        && (forall j :: 0 <= j < i ==> IsSpace(k, s[j]))
        && (forall j :: i + |r| <= j < |s| ==> IsSpace(k, s[j]));
      assert forall j :: 0 <= j < |s| ==> IsSpace(k, s[j]) by {
        forall j | 0 <= j < |s| ensures IsSpace(k, s[j]) {
          if j >= i {
            assert i + |r| <= j;
          }
        }
      }
    }
  }

  lemma TrimNoSpace(k: Spaces, s: string)
    requires s == [] || (!IsSpace(k, s[0]) && !IsSpace(k, s[|s| - 1]))
    ensures Trim(k, s) == s
  {
  }

  // ---------------------------------------------------------------- split and join

  /** explode($sep, $s) and str.split(sep) for a one-character separator. */
  function Split(s: string, sep: char): (r: seq<string>)
    ensures |r| >= 1
    ensures forall i :: 0 <= i < |r| ==> sep !in r[i]
  {
    if s == [] then [""]
    else
      var rest := Split(s[1..], sep);
      if s[0] == sep then [""] + rest else [[s[0]] + rest[0]] + rest[1..]
  }

  function Join(parts: seq<string>, sep: string): string
  {
    if |parts| == 0 then ""
    else if |parts| == 1 then parts[0]
    else parts[0] + sep + Join(parts[1..], sep)
  }

  /** Joining non-empty parts gives the empty text only when there are no parts. */
  lemma JoinEmpty(parts: seq<string>, sep: string)
    requires forall i :: 0 <= i < |parts| ==> parts[i] != []
    ensures Join(parts, sep) == "" <==> parts == []
  {
    if |parts| > 1 {
      assert Join(parts, sep) == parts[0] + sep + Join(parts[1..], sep);
    }
  }

  function Concat(parts: seq<string>): string
  {
    if parts == [] then "" else parts[0] + Concat(parts[1..])
  }

  lemma ConcatAppend(a: seq<string>, b: seq<string>)
    ensures Concat(a + b) == Concat(a) + Concat(b)
  {
    if a != [] {
      assert (a + b)[0] == a[0];
      assert (a + b)[1..] == a[1..] + b;
      ConcatAppend(a[1..], b);
    } else {
      assert a + b == b;
    }
  }

  /** A text without the separator is one piece. */
  lemma {:induction false} SplitNoSeparator(s: string, sep: char)
    requires sep !in s
    ensures Split(s, sep) == [s]
  {
    if s != [] {
      SplitNoSeparator(s[1..], sep);
      assert [s[0]] + s[1..] == s;
    }
  }

  /** Joining the pieces with the separator gives back the text. */
  lemma {:induction false} SplitJoin(s: string, sep: char)
    ensures Join(Split(s, sep), [sep]) == s
  {
    if s != [] {
      var rest := Split(s[1..], sep);
      SplitJoin(s[1..], sep);
      if s[0] == sep {
        assert Split(s, sep) == [""] + rest;
        assert ([""] + rest)[1..] == rest;
      } else {
        var r := [[s[0]] + rest[0]] + rest[1..];
        assert Split(s, sep) == r;
        if |rest| == 1 {
          assert Join(r, [sep]) == [s[0]] + rest[0];
        } else {
          assert r[1..] == rest[1..];
          assert Join(rest, [sep]) == rest[0] + [sep] + Join(rest[1..], [sep]);
        }
      }
    }
  }

  /** The number of pieces is one more than the number of separators. */
  lemma {:induction false} SplitCount(s: string, sep: char)
    ensures |Split(s, sep)| == multiset(s)[sep] + 1
  {
    if s != [] {
      SplitCount(s[1..], sep);
      assert s == [s[0]] + s[1..];
      assert multiset(s) == multiset{s[0]} + multiset(s[1..]);
    }
  }

  // ---------------------------------------------------------------- replacement

  /** str_replace / str.replace: every non-overlapping occurrence, left to right. */
  function ReplaceAll(s: string, pat: string, rep: string): string
    requires |pat| > 0
    decreases |s|
  {
    if |s| < |pat| then s
    else if s[..|pat|] == pat then rep + ReplaceAll(s[|pat|..], pat, rep)
    else [s[0]] + ReplaceAll(s[1..], pat, rep)
  }

  /** Replacing a pattern that does not occur changes nothing. */
  lemma {:induction false} ReplaceAbsent(s: string, pat: string, rep: string)
    requires |pat| > 0 && !Contains(s, pat)
    ensures ReplaceAll(s, pat, rep) == s
    decreases |s|
  {
    if |s| >= |pat| {
      if s[..|pat|] == pat {
        ContainsAt(s, pat, 0);
      } else {
        if Contains(s[1..], pat) {
          var k :| 0 <= k <= |s[1..]| - |pat| && OccursAt(s[1..], pat, k);
          assert s[k + 1..k + 1 + |pat|] == pat;
          ContainsAt(s, pat, k + 1);
        }
        ReplaceAbsent(s[1..], pat, rep);
      }
    }
  }

  // ---------------------------------------------------------------- \w+ tokens

  /** Length of the run of word characters at the start of `s`. */
  function WordRun(s: string): (n: nat)
    ensures n <= |s|
    ensures forall i :: 0 <= i < n ==> IsWordChar(s[i])
    ensures n == |s| || !IsWordChar(s[n])
  {
    if s != [] && IsWordChar(s[0]) then 1 + WordRun(s[1..]) else 0
  }

  /** The matches of `\w+` in `s`, in order (re.findall(r'\w+', s), also `\b\w+\b`). */
  function Words(s: string): (r: seq<string>)
    ensures forall i :: 0 <= i < |r| ==> r[i] != []
    ensures forall i, j :: 0 <= i < |r| && 0 <= j < |r[i]| ==> IsWordChar(r[i][j])
    decreases |s|
  {
    if s == [] then []
    else if !IsWordChar(s[0]) then Words(s[1..])
    else
      var n := WordRun(s);
      [s[..n]] + Words(s[n..])
  }

  /** The word characters of `s`, in order. */
  function WordChars(s: string): string
  {
    if s == [] then [] else (if IsWordChar(s[0]) then [s[0]] else []) + WordChars(s[1..])
  }

  lemma WordCharsAppend(a: string, b: string)
    ensures WordChars(a + b) == WordChars(a) + WordChars(b)
  {
    if a != [] {
      assert (a + b)[0] == a[0];
      assert (a + b)[1..] == a[1..] + b;
      WordCharsAppend(a[1..], b);
    } else {
      assert a + b == b;
    }
  }

  lemma WordCharsAll(s: string)
    requires forall i :: 0 <= i < |s| ==> IsWordChar(s[i])
    ensures WordChars(s) == s
  {
  }

  /** The tokens, put back together, are exactly the word characters of the text:
      the tokenizer loses no word character and invents none. */
  lemma {:induction false} WordsCoverWordChars(s: string)
    ensures Concat(Words(s)) == WordChars(s)
    decreases |s|
  {
    if s != [] {
      if !IsWordChar(s[0]) {
        WordsCoverWordChars(s[1..]);
      } else {
        var n := WordRun(s);
        WordsCoverWordChars(s[n..]);
        assert s == s[..n] + s[n..];
        WordCharsAppend(s[..n], s[n..]);
        WordCharsAll(s[..n]);
      }
    }
  }

  /** The tokens longer than two characters that are not stop words, in order (the list
      comprehension of the keyword extractors). */
  function KeepKeywords(ws: seq<string>, stop: set<string>): (r: seq<string>)
    ensures |r| <= |ws|
    ensures forall w :: w in r <==> w in ws && w !in stop && |w| > 2
  {
    if ws == [] then []
    else
      var rest := KeepKeywords(ws[1..], stop);
      assert forall w :: w in ws <==> w == ws[0] || w in ws[1..];
      (if ws[0] !in stop && |ws[0]| > 2 then [ws[0]] else []) + rest
  }

  /** Filtering distributes over concatenation, so the kept tokens keep their input order. */
  lemma {:induction false} KeepKeywordsAppend(a: seq<string>, b: seq<string>, stop: set<string>)
    ensures KeepKeywords(a + b, stop) == KeepKeywords(a, stop) + KeepKeywords(b, stop)
  {
    if a == [] {
      assert a + b == b;
    } else {
      assert (a + b)[0] == a[0];
      assert (a + b)[1..] == a[1..] + b;
      KeepKeywordsAppend(a[1..], b, stop);
    }
  }

  /** The keywords of a text: its lower-cased \w+ tokens, filtered. */
  function Keywords(text: string, stop: set<string>): seq<string> {
    KeepKeywords(Words(Lower(text)), stop)
  }

  // ---------------------------------------------------------------- decimal text

  function DigitChar(d: nat): (c: char)
    requires d < 10
    ensures IsDigit(c)
  {
    ('0' as int + d) as char
  }

  /** The decimal text of a natural number (PHP string conversion, JS toString, Python str). */
  function NatToString(n: nat): (r: string)
    ensures r != []
    ensures forall i :: 0 <= i < |r| ==> IsDigit(r[i])
    ensures (r[0] == '0') == (n == 0)
  {
    if n < 10 then [DigitChar(n)] else NatToString(n / 10) + [DigitChar(n % 10)]
  }

  function IntToString(i: int): (r: string)
  {
    if i < 0 then "-" + NatToString(-i) else NatToString(i)
  }

  /** The value of a text of decimal digits. */
  function DigitsValue(s: string): nat
    requires forall i :: 0 <= i < |s| ==> IsDigit(s[i])
  {
    if s == [] then 0
    else
      assert IsDigit(s[|s| - 1]);
      DigitsValue(s[..|s| - 1]) * 10 + (s[|s| - 1] as int - '0' as int)
  }

  /** Reading the decimal text back gives the number. */
  lemma {:induction false} NatToStringValue(n: nat)
    ensures DigitsValue(NatToString(n)) == n
  {
    if n >= 10 {
      NatToStringValue(n / 10);
      var r := NatToString(n);
      assert r[..|r| - 1] == NatToString(n / 10);
    }
  }

  lemma NatToStringInjective(m: nat, n: nat)
    requires NatToString(m) == NatToString(n)
    ensures m == n
  {
    NatToStringValue(m);
    NatToStringValue(n);
  }
}
