/** The SQL script handling both database installers share: their splitSQL helpers are the
    same procedure (strip `--` and block comments, cut at every ';', trim, drop what PHP
    counts as empty), the three outcomes of Database::executeSQL, and the ten table names
    both look for after installing. */
module SqlScript {
  import opened Wrappers
  import opened Text
  import opened Php

  // ---------------------------------------------------------------- line comments

  /** The rest of `s` from its first line break on (empty when there is none). */
  function FromLineBreak(s: string): (r: string)
    ensures |r| <= |s|
    ensures r == [] || r[0] == '\n'
    ensures s != [] && s[0] != '\n' ==> |r| < |s|
    ensures r == s[|s| - |r|..]
    ensures forall i :: 0 <= i < |s| - |r| ==> s[i] != '\n'
  {
    if s == [] || s[0] == '\n' then s else FromLineBreak(s[1..])
  }

  predicate DashDash(s: string) { |s| >= 2 && s[0] == '-' && s[1] == '-' }

  /** No `--` anywhere in `s`. */
  predicate NoDashDash(s: string) {
    forall i :: 0 <= i < |s| - 1 ==> !(s[i] == '-' && s[i + 1] == '-')
  }

  /** preg_replace('/--.*$/m', '', $s): from each `--` up to the end of its line; the line
      break itself stays. Nothing tells a `--` inside a quoted SQL string from a comment. */
  function StripLineComments(s: string): (r: string)
    ensures NoDashDash(r)
    ensures r != [] && r[0] == '-' ==> s != [] && s[0] == '-' && !DashDash(s)
    decreases |s|
  {
    if s == [] then []
    else if DashDash(s) then StripLineComments(FromLineBreak(s))
    else
      var rest := StripLineComments(s[1..]);
      assert rest != [] && rest[0] == '-' ==> s[1] == '-';
      [s[0]] + rest
  }

  /** A text without `--` has no line comment to strip. */
  lemma {:induction false} NoLineCommentKept(s: string)
    requires NoDashDash(s)
    ensures StripLineComments(s) == s
  {
    if s != [] {
      NoLineCommentKept(s[1..]);
    }
  }

  /** A line comment runs to the end of its line and no further: the text before it and the
      lines after it are kept. */
  lemma LineCommentRemoved(before: string, comment: string, after: string)
    requires NoDashDash(before) && (before == [] || before[|before| - 1] != '-')
    requires '\n' !in comment
    ensures StripLineComments(before + "--" + comment + "\n" + after) == before + "\n" + StripLineComments(after)
  {
    var tail := "\n" + after;
    var s := before + "--" + comment + "\n" + after;
    assert s == before + ("--" + comment + tail);
    LineCommentAt(before, comment, tail);
    assert tail[0] == '\n' && tail[1..] == after;
    assert StripLineComments(tail) == "\n" + StripLineComments(after);
  }

  /** A line comment on the last line takes the rest of the text with it. */
  lemma LineCommentToEnd(before: string, comment: string)
    requires NoDashDash(before) && (before == [] || before[|before| - 1] != '-')
    requires '\n' !in comment
    ensures StripLineComments(before + "--" + comment) == before
  {
    var s := before + "--" + comment;
    assert s == before + ("--" + comment + []);
    LineCommentAt(before, comment, []);
  }

  lemma {:induction false} LineCommentAt(before: string, comment: string, tail: string)
    requires NoDashDash(before) && (before == [] || before[|before| - 1] != '-')
    requires '\n' !in comment
    requires tail == [] || tail[0] == '\n'
    ensures StripLineComments(before + ("--" + comment + tail)) == before + StripLineComments(tail)
  {
    var s := before + ("--" + comment + tail);
    if before == [] {
      assert s == "--" + comment + tail;
      assert DashDash(s);
      FromLineBreakPast("--" + comment, tail);
      assert StripLineComments(s) == StripLineComments(tail);
    } else {
      var s' := before[1..] + ("--" + comment + tail);
      assert s[0] == before[0] && s[1..] == s';
      assert !DashDash(s) by {
        if |before| >= 2 {
          assert s[1] == before[1];
        } else {
          assert s[1] == '-';
        }
      }
      assert StripLineComments(s) == [before[0]] + StripLineComments(s');
      LineCommentAt(before[1..], comment, tail);
      assert before == [before[0]] + before[1..];
    }
  }

  lemma {:induction false} FromLineBreakPast(line: string, tail: string)
    requires '\n' !in line
    requires tail == [] || tail[0] == '\n'
    ensures FromLineBreak(line + tail) == tail
  {
    if line != [] {
      assert (line + tail)[1..] == line[1..] + tail;
      FromLineBreakPast(line[1..], tail);
    }
  }

  // ---------------------------------------------------------------- block comments

  predicate OpensBlock(s: string) { |s| >= 2 && s[0] == '/' && s[1] == '*' }

  /** No slash-star opening anywhere in `s`. */
  predicate NoOpener(s: string) {
    forall i :: 0 <= i < |s| - 1 ==> !(s[i] == '/' && s[i + 1] == '*')
  }

  /** The second preg_replace of splitSQL: from each slash-star opening up to the first
      star-slash after it, line breaks included (the pattern is non-greedy and dot-all). An
      opening that is never closed matches nothing, so it and the rest are kept. */
  function StripBlockComments(s: string): (r: string)
    decreases |s|
  {
    if s == [] then []
    else if OpensBlock(s) then
      match FindFirst(s[2..], "*/")
      case Some(k) => StripBlockComments(s[2 + k + 2..])
      case None => s
    else [s[0]] + StripBlockComments(s[1..])
  }

  /** A text without a slash-star opening has no block comment to strip. */
  lemma {:induction false} NoBlockCommentKept(s: string)
    requires NoOpener(s)
    ensures StripBlockComments(s) == s
  {
    if s != [] {
      NoBlockCommentKept(s[1..]);
    }
  }

  /** A block comment ends at the first star-slash after its opening, and the text around
      it is kept. */
  lemma {:induction false} BlockCommentRemoved(before: string, comment: string, after: string)
    requires NoOpener(before) && !Contains(comment, "*/")
    ensures StripBlockComments(before + ("/*" + comment + "*/" + after)) == before + StripBlockComments(after)
  {
    var t := "/*" + comment + "*/" + after;
    if before == [] {
      BlockCommentAtStart(comment, after);
      assert before + t == t;
    } else {
      KeptBeforeOpener(before, t);
      BlockCommentRemoved(before[1..], comment, after);
      assert before == [before[0]] + before[1..];
    }
  }

  lemma BlockCommentAtStart(comment: string, after: string)
    requires !Contains(comment, "*/")
    ensures StripBlockComments("/*" + comment + "*/" + after) == StripBlockComments(after)
  {
    var s := "/*" + comment + "*/" + after;
    assert OpensBlock(s);
    assert s[2..] == comment + "*/" + after;
    CloserAfter(comment, after);
    assert s[2 + |comment| + 2..] == after;
  }

  /** The first character of a text without an opening, followed by `t` (which does not start
      with a star), is kept. */
  lemma KeptBeforeOpener(before: string, t: string)
    requires NoOpener(before) && before != [] && (t == [] || t[0] != '*')
    ensures StripBlockComments(before + t) == [before[0]] + StripBlockComments(before[1..] + t)
  {
    var s := before + t;
    assert s[0] == before[0] && s[1..] == before[1..] + t;
    assert !OpensBlock(s) by {
      if |before| >= 2 {
        assert s[1] == before[1];
      } else if |s| >= 2 {
        assert s[1] == t[0];
      }
    }
  }

  /** An opening that is never closed leaves the rest of the script as it was. */
  lemma {:induction false} UnclosedCommentKept(before: string, comment: string)
    requires NoOpener(before) && !Contains(comment, "*/")
    ensures StripBlockComments(before + ("/*" + comment)) == before + ("/*" + comment)
  {
    var t := "/*" + comment;
    if before == [] {
      assert before + t == t;
      assert OpensBlock(t);
      assert t[2..] == comment;
    } else {
      KeptBeforeOpener(before, t);
      UnclosedCommentKept(before[1..], comment);
      assert before == [before[0]] + before[1..];
    }
  }

  /** The first star-slash after a comment text without one is the one that follows it. */
  lemma CloserAfter(comment: string, after: string)
    requires !Contains(comment, "*/")
    ensures FindFirst(comment + "*/" + after, "*/") == Some(|comment|)
  {
    var s := comment + "*/" + after;
    assert OccursAt(s, "*/", |comment|) by {
      assert s[|comment|..|comment| + 2] == "*/";
    }
    forall k | 0 <= k < |comment| ensures !OccursAt(s, "*/", k) {
      if k + 2 <= |comment| {
        assert comment[k..k + 2] == s[k..k + 2];
        if OccursAt(s, "*/", k) {
          ContainsAt(comment, "*/", k);
        }
      } else {
        assert s[k..k + 2][1] == s[|comment|] == '*';
      }
    }
    match FindFirst(s, "*/")
    case None =>
      ContainsAt(s, "*/", |comment|);
    case Some(j) =>
      assert !(j < |comment|);
      assert !(j > |comment|);
  }

  /** Both comment passes, in the order the installers run them. */
  function StripComments(sql: string): string {
    StripBlockComments(StripLineComments(sql))
  }

  // ---------------------------------------------------------------- splitting

  /** What survives of the pieces between the ';': each trimmed, and dropped when PHP's
      empty() holds of it, which is the case for "" and also for "0". */
  function Clean(pieces: seq<string>): (r: seq<string>)
    ensures |r| <= |pieces|
    ensures forall i :: 0 <= i < |r| ==> !Empty(Str(r[i])) && Trim(PhpTrim, r[i]) == r[i]
    ensures (forall i :: 0 <= i < |pieces| ==> ';' !in pieces[i]) ==> forall i :: 0 <= i < |r| ==> ';' !in r[i]
  {
    if pieces == [] then []
    else
      var t := Trim(PhpTrim, pieces[0]);
      TrimIdempotent(PhpTrim, pieces[0]);
      TrimKeepsOut(pieces[0], ';');
      (if Empty(Str(t)) then [] else [t]) + Clean(pieces[1..])
  }

  /** Trimming only removes characters. */
  lemma TrimKeepsOut(s: string, c: char)
    ensures c !in s ==> c !in Trim(PhpTrim, s)
  {
    TrimSpec(PhpTrim, s);
    var r := Trim(PhpTrim, s);
    var i :| 0 <= i <= |s| && OccursAt(s, r, i)
      && (forall j :: 0 <= j < i ==> IsSpace(PhpTrim, s[j]))
      && (forall j :: i + |r| <= j < |s| ==> IsSpace(PhpTrim, s[j]));
    forall j | 0 <= j < |r| ensures r[j] in s {
      assert r[j] == s[i..i + |r|][j] == s[i + j];
    }
  }

  /** splitSQL: strip the comments, cut at every ';', trim, and keep what is not empty. */
  function SplitSQL(sql: string): (r: seq<string>)
    ensures forall i :: 0 <= i < |r| ==> ';' !in r[i] && !Empty(Str(r[i])) && Trim(PhpTrim, r[i]) == r[i]
    ensures |r| <= multiset(StripComments(sql))[';'] + 1
  {
    var pieces := Split(StripComments(sql), ';');
    SplitCount(StripComments(sql), ';');
    Clean(pieces)
  }

  /** Stripping comments only removes characters ... */
  lemma {:induction false} StripLineShrinks(s: string)
    ensures multiset(StripLineComments(s)) <= multiset(s)
    decreases |s|
  {
    if s != [] {
      if DashDash(s) {
        var t := FromLineBreak(s);
        StripLineShrinks(t);
        assert s == s[..|s| - |t|] + t;
      } else {
        StripLineShrinks(s[1..]);
        assert s == [s[0]] + s[1..];
      }
    }
  }

  lemma {:induction false} StripBlockShrinks(s: string)
    ensures multiset(StripBlockComments(s)) <= multiset(s)
    decreases |s|
  {
    if s != [] {
      if OpensBlock(s) {
        match FindFirst(s[2..], "*/")
        case Some(k) =>
          SkipBlock(s, k);
          var t := s[2 + k + 2..];
          StripBlockShrinks(t);
          assert s == s[..2 + k + 2] + t;
        case None =>
      } else {
        StripBlockShrinks(s[1..]);
        assert s == [s[0]] + s[1..];
      }
    }
  }

  /** A closed block comment at the start is dropped with its closer. */
  lemma SkipBlock(s: string, k: nat)
    requires s != [] && OpensBlock(s) && FindFirst(s[2..], "*/") == Some(k)
    ensures 2 + k + 2 <= |s| && StripBlockComments(s) == StripBlockComments(s[2 + k + 2..])
  {
    assert OccursAt(s[2..], "*/", k);
    assert k + 2 <= |s| - 2;
  }

  /** ... so a script yields at most one statement more than it has ';' characters. */
  lemma StatementCount(sql: string)
    ensures |SplitSQL(sql)| <= multiset(sql)[';'] + 1
  {
    StripLineShrinks(sql);
    StripBlockShrinks(StripLineComments(sql));
  }

  // ---------------------------------------------------------------- scripts of plain statements

  /** A statement that survives splitting unchanged: already trimmed, not empty to PHP, and
      free of ';' and of comment openings. */
  predicate Plain(stmt: string) {
    !Empty(Str(stmt)) && Trim(PhpTrim, stmt) == stmt && ';' !in stmt && NoDashDash(stmt) && NoOpener(stmt)
  }

  /** The script that lists the statements, separated by ';'. */
  function Script(stmts: seq<string>): string {
    Join(stmts, ";")
  }

  lemma {:induction false} ScriptHasNoComment(stmts: seq<string>)
    requires forall i :: 0 <= i < |stmts| ==> Plain(stmts[i])
    ensures NoDashDash(Script(stmts)) && NoOpener(Script(stmts))
  {
    if |stmts| > 1 {
      var a := stmts[0];
      var b := Script(stmts[1..]);
      ScriptHasNoComment(stmts[1..]);
      assert Plain(a);
      var s := a + ";" + b;
      assert Script(stmts) == s;
      forall i | 0 <= i < |s| - 1
        ensures !(s[i] == '-' && s[i + 1] == '-') && !(s[i] == '/' && s[i + 1] == '*')
      {
        if i + 1 < |a| {
          assert s[i] == a[i] && s[i + 1] == a[i + 1];
        } else if i + 1 == |a| {
          assert s[i + 1] == ';';
        } else if i == |a| {
          assert s[i] == ';';
        } else {
          assert s[i] == b[i - |a| - 1] && s[i + 1] == b[i - |a|];
        }
      }
    } else if |stmts| == 1 {
      assert Plain(stmts[0]);
    }
  }

  lemma {:induction false} SplitScript(stmts: seq<string>)
    requires forall i :: 0 <= i < |stmts| ==> ';' !in stmts[i]
    ensures stmts != [] ==> Split(Script(stmts), ';') == stmts
  {
    if |stmts| == 1 {
      SplitNoSeparator(stmts[0], ';');
    } else if |stmts| > 1 {
      SplitScript(stmts[1..]);
      assert Script(stmts) == stmts[0] + [';'] + Script(stmts[1..]);
      SplitAt(stmts[0], ';', Script(stmts[1..]));
      assert stmts == [stmts[0]] + stmts[1..];
    }
  }

  lemma {:induction false} SplitAt(a: string, sep: char, t: string)
    requires sep !in a
    ensures Split(a + [sep] + t, sep) == [a] + Split(t, sep)
  {
    var s := a + [sep] + t;
    if a == [] {
      assert s == [sep] + t;
      assert s[1..] == t;
    } else {
      assert s[0] == a[0];
      assert s[1..] == a[1..] + [sep] + t;
      SplitAt(a[1..], sep, t);
      assert [a[0]] + a[1..] == a;
    }
  }

  lemma {:induction false} CleanPlain(stmts: seq<string>)
    requires forall i :: 0 <= i < |stmts| ==> Plain(stmts[i])
    ensures Clean(stmts) == stmts
  {
    if stmts != [] {
      assert Plain(stmts[0]);
      CleanPlain(stmts[1..]);
      assert stmts == [stmts[0]] + stmts[1..];
    }
  }

  /** Splitting a script of plain statements gives back exactly those statements, in order. */
  lemma SplitScriptRoundTrip(stmts: seq<string>)
    requires forall i :: 0 <= i < |stmts| ==> Plain(stmts[i])
    ensures SplitSQL(Script(stmts)) == stmts
  {
    var s := Script(stmts);
    ScriptHasNoComment(stmts);
    NoLineCommentKept(s);
    NoBlockCommentKept(s);
    assert StripComments(s) == s;
    if stmts == [] {
      assert s == "";
    } else {
      SplitScript(stmts);
      CleanPlain(stmts);
    }
  }

  /** Every ';' cuts, even one inside a quoted SQL string: `before;after` is two statements
      whatever quotes they hold. */
  lemma SemicolonAlwaysSplits(before: string, after: string)
    requires Plain(before) && Plain(after)
    ensures SplitSQL(before + ";" + after) == [before, after]
  {
    SplitScriptRoundTrip([before, after]);
    assert [before, after][1..] == [after];
    assert Join([after], ";") == after;
    assert Script([before, after]) == before + ";" + after;
  }

  /** The same for a concrete value list with a quoted ';'. */
  lemma QuotedSemicolonSplits(before: string, after: string)
    requires before == "VALUES ('a"
    requires after == "b')"
    ensures SplitSQL(before + ";" + after) == [before, after]
  {
    ValuesHeadPlain(before);
    ValuesTailPlain(after);
    SemicolonAlwaysSplits(before, after);
  }

  lemma ValuesHeadPlain(s: string)
    requires s == "VALUES ('a"
    ensures Plain(s)
  {
    TrimNoSpace(PhpTrim, s);
    assert ';' !in s;
  }

  lemma ValuesTailPlain(s: string)
    requires s == "b')"
    ensures Plain(s)
  {
    TrimNoSpace(PhpTrim, s);
    assert ';' !in s;
  }

  /** A `--` inside a quoted string starts a comment: the statement loses the rest of its line. */
  lemma QuotedDashesTruncate(before: string, rest: string)
    requires NoDashDash(before) && (before == [] || before[|before| - 1] != '-')
    requires '\n' !in rest
    ensures StripComments(before + "--" + rest) == StripBlockComments(before)
  {
    LineCommentToEnd(before, rest);
  }

  // ---------------------------------------------------------------- running statements

  /** What file_exists and file_get_contents find at the script's path. */
  datatype ScriptFile = Missing | Unreadable | Contents(sql: string)

  /** Database::executeSQL as the installers see it: the statement ran (true); the database
      rejected it, which executeSQL catches as a PDOException and answers false; or the
      connection could not be opened, where getConnection throws a plain Exception that
      executeSQL does not catch. */
  datatype ExecOutcome = Executed | Rejected | ConnectionLost

  /** The message of the Exception getConnection throws. */
  const ConnectionFailedMessage := "Database connection failed"

  /** Both installers trim each statement again and pass over one that PHP's empty() holds
      of or that starts with `--`. */
  predicate Skipped(stmt: string) {
    Empty(Str(stmt)) || StartsWith(stmt, "--")
  }

  /** The tables both installers look for once the script has run. */
  const ExpectedTables: seq<string> := [
    "users", "business_plans", "chat_conversations", "chat_messages",
    "business_ideas", "analytics_data", "resources", "user_sessions",
    "user_preferences", "business_plan_templates"
  ]
}
