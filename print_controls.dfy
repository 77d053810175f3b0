/** addPrintButtonToHtml, which exists twice (as a Dashboard method and as a function of the
    main page script): the generated business plan gets a block of print controls right after
    its first '<body>' tag. The controls embed the business name, with every run of white space
    turned into '_', in the file name offered for download.

    The insertion is done with String.prototype.replace and a string replacement. JavaScript
    reads `$$`, `$&`, `` $` `` and `$'` inside such a replacement as patterns, so a business
    name containing them is not inserted as typed. AddPrintButtonToHtmlAsWritten is the code
    as it stands and AddPrintButtonToHtml the evidently intended literal insertion. */
module PrintControls {
  import opened Wrappers
  import opened Text

  const BodyTag: string := "<body>"

  /** The fixed markup before the download file name (the panel, its two buttons, the start of
      the download script); its wording and styling are abstracted. */
  const Head: string := "<div id=print-controls><script>a.download='"

  /** The fixed markup after the file name: the rest of the script and the print style sheet. */
  const Tail: string := "_Business_Plan.html';</script></div>"

  lemma FixedMarkupHasNoDollar()
    ensures '$' !in BodyTag && '$' !in Head && '$' !in Tail
  {
    assert forall i :: 0 <= i < |BodyTag| ==> BodyTag[i] != '$';
    assert forall i :: 0 <= i < |Head| ==> Head[i] != '$';
    assert forall i :: 0 <= i < |Tail| ==> Tail[i] != '$';
  }

  // ---------------------------------------------------------------- businessName.replace(/\s+/g, '_')

  /** Every maximal run of white space becomes one '_'. */
  function Underscored(s: string): (r: string)
    ensures forall i :: 0 <= i < |r| ==> !IsSpace(JsTrim, r[i])
    ensures '$' in r <==> '$' in s
    decreases |s|
  {
    if s == [] then ""
    else if IsSpace(JsTrim, s[0]) then
      var rest := TrimStart(JsTrim, s[1..]);
      TrimStartSuffix(JsTrim, s[1..]);
      SuffixDollar(s[1..], rest);
      "_" + Underscored(rest)
    else [s[0]] + Underscored(s[1..])
  }

  /** Dropping leading white space keeps every '$'. */
  lemma SuffixDollar(s: string, rest: string)
    requires |rest| <= |s| && rest == s[|s| - |rest|..]
    requires forall i :: 0 <= i < |s| - |rest| ==> IsSpace(JsTrim, s[i])
    ensures '$' in rest <==> '$' in s
  {
    if '$' in s {
      var i :| 0 <= i < |s| && s[i] == '$';
      assert !IsSpace(JsTrim, s[i]);
      assert rest[i - (|s| - |rest|)] == '$';
    }
  }

  /** A name without white space is used as it is. */
  lemma {:induction false} UnderscoredPlain(s: string)
    requires forall i :: 0 <= i < |s| ==> !IsSpace(JsTrim, s[i])
    ensures Underscored(s) == s
  {
    if s != [] {
      UnderscoredPlain(s[1..]);
    }
  }

  /** The controls inserted for a business name. */
  function Controls(businessName: string): string {
    Head + Underscored(businessName) + Tail
  }

  /** The controls carry a '$' exactly when the business name does. */
  lemma ControlsDollar(businessName: string)
    ensures '$' in Controls(businessName) <==> '$' in businessName
  {
    FixedMarkupHasNoDollar();
  }

  // ---------------------------------------------------------------- String.prototype.replace

  /** The replacement text of String.prototype.replace with a string pattern (GetSubstitution
      with no capture groups): `$$` is '$', `$&` the matched text, `` $` `` the text before the
      match and `$'` the text after it; any other character, a lone '$' included, stands for
      itself. */
  function Substitute(rep: string, matched: string, before: string, after: string): string
    decreases |rep|
  {
    if rep == [] then ""
    else if rep[0] == '$' && |rep| >= 2 && rep[1] == '$' then "$" + Substitute(rep[2..], matched, before, after)
    else if rep[0] == '$' && |rep| >= 2 && rep[1] == '&' then matched + Substitute(rep[2..], matched, before, after)
    else if rep[0] == '$' && |rep| >= 2 && rep[1] == '`' then before + Substitute(rep[2..], matched, before, after)
    else if rep[0] == '$' && |rep| >= 2 && rep[1] == '\'' then after + Substitute(rep[2..], matched, before, after)
    else [rep[0]] + Substitute(rep[1..], matched, before, after)
  }

  /** A replacement without '$' is inserted literally. */
  lemma {:induction false} SubstitutePlain(rep: string, matched: string, before: string, after: string)
    requires '$' !in rep
    ensures Substitute(rep, matched, before, after) == rep
  {
    if rep != [] {
      assert rep[0] != '$';
      SubstitutePlain(rep[1..], matched, before, after);
    }
  }

  /** A '$'-free prefix of the replacement is copied as it is. */
  lemma {:induction false} SubstitutePlainPrefix(a: string, b: string, matched: string, before: string, after: string)
    requires '$' !in a
    ensures Substitute(a + b, matched, before, after) == a + Substitute(b, matched, before, after)
  {
    if a != [] {
      assert a[0] != '$';
      assert (a + b)[0] == a[0] && (a + b)[1..] == a[1..] + b;
      SubstitutePlainPrefix(a[1..], b, matched, before, after);
    } else {
      assert a + b == b;
    }
  }

  /** `$&` followed by more replacement text. */
  lemma SubstituteMatched(rep: string, rest: string, matched: string, before: string, after: string)
    requires |rep| == 2 && rep[0] == '$' && rep[1] == '&'
    ensures Substitute(rep + rest, matched, before, after) == matched + Substitute(rest, matched, before, after)
  {
    assert (rep + rest)[2..] == rest;
  }

  /** `'abc'.replace(pat, rep)`: only the first occurrence of `pat` is replaced. */
  function JsReplace(s: string, pat: string, rep: string): string {
    match FindFirst(s, pat)
    case None => s
    case Some(k) => s[..k] + Substitute(rep, pat, s[..k], s[k + |pat|..]) + s[k + |pat|..]
  }

  /** `ins` inserted right after the first occurrence of `pat`, if any. */
  function InsertAfterFirst(s: string, pat: string, ins: string): string {
    match FindFirst(s, pat)
    case None => s
    case Some(k) => s[..k + |pat|] + ins + s[k + |pat|..]
  }

  // ---------------------------------------------------------------- addPrintButtonToHtml

  /** `htmlContent.replace('<body>', '<body>' + printButtonHtml)`, as written. */
  function AddPrintButtonToHtmlAsWritten(html: string, businessName: string): string {
    JsReplace(html, BodyTag, BodyTag + Controls(businessName))
  }

  /** The evidently intended result: the controls, verbatim, right after the first '<body>'. */
  function AddPrintButtonToHtml(html: string, businessName: string): string {
    InsertAfterFirst(html, BodyTag, Controls(businessName))
  }

  /** A document without '<body>' is returned unchanged, by both. */
  lemma NoBodyUnchanged(html: string, businessName: string)
    requires !Contains(html, BodyTag)
    ensures AddPrintButtonToHtmlAsWritten(html, businessName) == html
    ensures AddPrintButtonToHtml(html, businessName) == html
  {
  }

  /** The controls go right after the first '<body>' only, and taking them out again gives back
      the document. */
  lemma InsertedOnceAfterFirstBody(html: string, businessName: string)
    requires Contains(html, BodyTag)
    ensures var r := AddPrintButtonToHtml(html, businessName);
      var c := Controls(businessName);
      exists k :: 0 <= k <= |html| - |BodyTag| && OccursAt(html, BodyTag, k)
        && (forall j :: 0 <= j < k ==> !OccursAt(html, BodyTag, j))
        && r[..k + |BodyTag|] == html[..k + |BodyTag|]
        && r[k + |BodyTag|..k + |BodyTag| + |c|] == c
        && r[..k + |BodyTag|] + r[k + |BodyTag| + |c|..] == html
  {
    var c := Controls(businessName);
    var k := FindFirst(html, BodyTag).value;
    var r := AddPrintButtonToHtml(html, businessName);
    var n := k + |BodyTag|;
    assert r == html[..n] + c + html[n..];
    assert r[..n] == html[..n];
    assert r[n..n + |c|] == c;
    assert r[n + |c|..] == html[n..];
    assert html[..n] + html[n..] == html;
  }

  /** With no '$' in the business name the code does what was intended. */
  lemma AsWrittenAgreesWithoutDollar(html: string, businessName: string)
    requires '$' !in businessName
    ensures AddPrintButtonToHtmlAsWritten(html, businessName) == AddPrintButtonToHtml(html, businessName)
  {
    match FindFirst(html, BodyTag)
    case None =>
    case Some(k) => AgreesAt(html, businessName, k);
  }

  lemma AgreesAt(html: string, businessName: string, k: nat)
    requires '$' !in businessName && FindFirst(html, BodyTag) == Some(k)
    ensures AddPrintButtonToHtmlAsWritten(html, businessName) == AddPrintButtonToHtml(html, businessName)
  {
    ControlsDollar(businessName);
    FixedMarkupHasNoDollar();
    PlainReplacement(html, BodyTag, Controls(businessName), k);
  }

  /** Replacing the first `tag`, found at `k`, by `tag` and a '$'-free `ins` inserts `ins`
      after it. */
  lemma PlainReplacement(html: string, tag: string, ins: string, k: nat)
    requires FindFirst(html, tag) == Some(k) && '$' !in tag && '$' !in ins
    ensures JsReplace(html, tag, tag + ins) == InsertAfterFirst(html, tag, ins)
  {
    PlainExpands(tag, ins, html[..k], html[k + |tag|..]);
    ExpandedInserts(html, tag, ins, k);
  }

  lemma PlainExpands(tag: string, ins: string, before: string, after: string)
    requires '$' !in tag && '$' !in ins
    ensures Substitute(tag + ins, tag, before, after) == tag + ins
  {
    SubstitutePlain(tag + ins, tag, before, after);
  }

  lemma ExpandedInserts(html: string, tag: string, ins: string, k: nat)
    requires FindFirst(html, tag) == Some(k)
    requires Substitute(tag + ins, tag, html[..k], html[k + |tag|..]) == tag + ins
    ensures JsReplace(html, tag, tag + ins) == InsertAfterFirst(html, tag, ins)
  {
    ReplaceFoundExpanded(html, tag, tag + ins, ins, k);
  }

  /** A replacement made of '$'-free text around a `$&`: the `$&` turns into the matched text. */
  lemma AmpersandReplacement(head: string, amp: string, tail: string, matched: string, before: string, after: string)
    requires '$' !in head && '$' !in tail
    requires |amp| == 2 && amp[0] == '$' && amp[1] == '&'
    ensures Substitute(head + (amp + tail), matched, before, after) == head + matched + tail
  {
    SubstitutePlainPrefix(head, amp + tail, matched, before, after);
    SubstituteMatched(amp, tail, matched, before, after);
    SubstitutePlain(tail, matched, before, after);
  }

  /** The replacement `tag` + `head` + `$&` + `tail`, with no other '$', expands to `tag` +
      `head` + `tag` + `tail` when `tag` is what was matched. */
  lemma TagAmpersandReplacement(tag: string, head: string, amp: string, tail: string, before: string, after: string)
    requires '$' !in tag && '$' !in head && '$' !in tail
    requires |amp| == 2 && amp[0] == '$' && amp[1] == '&'
    ensures Substitute(tag + (head + amp + tail), tag, before, after) == tag + (head + tag + tail)
  {
    var th := tag + head;
    assert '$' !in th;
    assert tag + (head + amp + tail) == th + (amp + tail);
    AmpersandReplacement(th, amp, tail, tag, before, after);
    assert th + tag + tail == tag + (head + tag + tail);
  }

  /** When the replacement expands to the matched `tag` followed by `x`, the result is the
      document with `x` inserted after the first `tag`, found at `k`. */
  lemma ReplaceFoundExpanded(html: string, tag: string, rep: string, x: string, k: nat)
    requires FindFirst(html, tag) == Some(k)
    requires Substitute(rep, tag, html[..k], html[k + |tag|..]) == tag + x
    ensures JsReplace(html, tag, rep) == html[..k + |tag|] + x + html[k + |tag|..]
  {
    assert html[..k] + (tag + x) == html[..k + |tag|] + x;
  }

  /** Replacing the first `tag`, found at `k`, by `tag` followed by '$'-free text around a `$&`. */
  lemma ReplaceWithAmpersand(html: string, tag: string, head: string, amp: string, tail: string, k: nat)
    requires FindFirst(html, tag) == Some(k) && '$' !in tag && '$' !in head && '$' !in tail
    requires |amp| == 2 && amp[0] == '$' && amp[1] == '&'
    ensures JsReplace(html, tag, tag + (head + amp + tail)) == html[..k + |tag|] + (head + tag + tail) + html[k + |tag|..]
  {
    TagAmpersandReplacement(tag, head, amp, tail, html[..k], html[k + |tag|..]);
    ReplaceFoundExpanded(html, tag, tag + (head + amp + tail), head + tag + tail, k);
  }

  /** The business name "$&" shows the discrepancy: the file name in the inserted controls reads
      '<body>_Business_Plan.html' instead of '$&_Business_Plan.html', so the page differs from
      the intended one (it is four characters longer). */
  lemma DollarAmpersandMangles(html: string, businessName: string)
    requires Contains(html, BodyTag)
    requires |businessName| == 2 && businessName[0] == '$' && businessName[1] == '&'
    ensures var k := FindFirst(html, BodyTag).value;
      AddPrintButtonToHtmlAsWritten(html, businessName)
        == html[..k + |BodyTag|] + (Head + BodyTag + Tail) + html[k + |BodyTag|..]
    ensures |AddPrintButtonToHtmlAsWritten(html, businessName)| == |AddPrintButtonToHtml(html, businessName)| + 4
  {
    FixedMarkupHasNoDollar();
    UnderscoredPlain(businessName);
    ReplaceWithAmpersand(html, BodyTag, Head, Underscored(businessName), Tail, FindFirst(html, BodyTag).value);
  }
}
