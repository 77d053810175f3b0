/** The dashboard script: the chat panel (export requests, chat history, the local fallback
    reply), business-type detection in replies, and the small formatting helpers. */
module Dashboard {
  import opened Wrappers
  import opened Text
  import opened Dispatch

  // ---------------------------------------------------------------- export requests

  datatype Format = Pdf | Word | Excel | PowerPoint

  /** The tests of handleExportRequest, in source order. */
  const ExportRules: seq<Rule<Format>> := [
    Rule([], ["pdf export", "generate pdf"], Pdf),
    Rule([], ["word export", "generate word"], Word),
    Rule([], ["excel export", "generate excel"], Excel),
    Rule([], ["powerpoint export", "generate powerpoint"], PowerPoint)
  ]

  function FormatPosition(f: Format): (i: nat)
    ensures i < |ExportRules| && ExportRules[i].result == f
  {
    match f
    case Pdf => 0
    case Word => 1
    case Excel => 2
    case PowerPoint => 3
  }

  /** handleExportRequest: the format whose export dialog is shown; the method returns true
      exactly when there is one. */
  function HandleExportRequest(message: string): Option<Format> {
    Select(ExportRules, None, Lower(message))
  }

  /** An export request is recognised exactly when one of the eight phrases occurs in the
      lower-cased message, and the format is that of the first test that matches. */
  lemma ExportRequestPrecedence(message: string, f: Format)
    ensures HandleExportRequest(message).Some?
        <==> exists j :: 0 <= j < |ExportRules| && KeyHit(ExportRules[j].keys, Lower(message))
    ensures var m := Lower(message); var i := FormatPosition(f);
      (HandleExportRequest(message) == Some(f))
        <==> (KeyHit(ExportRules[i].keys, m) && forall j :: 0 <= j < i ==> !KeyHit(ExportRules[j].keys, m))
  {
    var m := Lower(message);
    SelectNone(ExportRules, None, m);
    forall k | 0 <= k < |ExportRules| && ExportRules[k].result == ExportRules[FormatPosition(f)].result
      ensures k == FormatPosition(f)
    {
      assert FormatPosition(ExportRules[k].result) == k;
    }
    SelectExactly(ExportRules, None, m, FormatPosition(f));
  }

  // ---------------------------------------------------------------- the local fallback reply

  /** The keys of the `responses` object of generateAIResponse, in declaration order. */
  const ReplyKeys: seq<string> := [
    "business ideas in musanze", "business ideas in kigali", "give me ideas", "business plan",
    "funding", "market research", "marketing", "legal", "website development",
    "automation software", "technology business idea", "technology", "team", "tourism",
    "competition"
  ]

  /** One rule per key; its result is the key's position. */
  function ReplyRules(): (rs: seq<Rule<nat>>)
    ensures |rs| == |ReplyKeys|
    ensures forall k :: 0 <= k < |rs| ==> rs[k] == Rule([], [ReplyKeys[k]], k)
  {
    seq(|ReplyKeys|, k requires 0 <= k < |ReplyKeys| => Rule([], [ReplyKeys[k]], k))
  }

  datatype LocalReply =
    /** The text stored under ReplyKeys[key]. */
    | Keyed(key: nat)
    /** One of the five default texts, chosen by Math.random. */
    | Fallback(index: nat)

  /** generateAIResponse(userMessage), with `pick` = Math.floor(Math.random() * 5). */
  function GenerateAIResponse(message: string, pick: nat): LocalReply
    requires pick < 5
  {
    match Select(ReplyRules(), None, Lower(message))
    case None => Fallback(pick)
    case Some(k) => Keyed(k)
  }

  /** The reply is the entry of the first key, in declaration order, contained in the
      lower-cased message; a default only when no key is. */
  lemma LocalReplyPrecedence(message: string, pick: nat, i: nat)
    requires pick < 5 && i < |ReplyKeys|
    ensures var m := Lower(message);
      (GenerateAIResponse(message, pick) == Keyed(i))
        <==> (Contains(m, ReplyKeys[i]) && forall j :: 0 <= j < i ==> !Contains(m, ReplyKeys[j]))
    ensures GenerateAIResponse(message, pick).Fallback?
        <==> forall j :: 0 <= j < |ReplyKeys| ==> !Contains(Lower(message), ReplyKeys[j])
  {
    var m := Lower(message);
    var rs := ReplyRules();
    forall j | 0 <= j < |rs| ensures Fires(rs[j], None, m) <==> Contains(m, ReplyKeys[j]) {
      SingleKey(rs[j], m);
    }
    SelectExactly(rs, None, m, i);
    SelectNone(rs, None, m);
  }

  /** The first key found in an already lower-case message decides the reply. */
  lemma FirstKeyWins(m: string, pick: nat, i: nat)
    requires pick < 5 && i < |ReplyKeys| && Lower(m) == m
    requires Contains(m, ReplyKeys[i]) && forall j :: 0 <= j < i ==> !Contains(m, ReplyKeys[j])
    ensures GenerateAIResponse(m, pick) == Keyed(i)
  {
    LocalReplyPrecedence(m, pick, i);
  }

  /** 'technology business idea' is checked before 'technology', so both entries can be reached:
      the message 'technology business idea' gets the former ... */
  lemma TechnologyBusinessIdeaReachable(m: string, pick: nat)
    requires pick < 5 && m == "technology business idea"
    ensures GenerateAIResponse(m, pick) == Keyed(10)
  {
    TechIdeaIsLower(m);
    TechIdeaMissesEarlierKeys(m);
    TechIdeaHitsItsKey(m);
    FirstKeyWins(m, pick, 10);
  }

  /** ... and 'technology' the latter. */
  lemma TechnologyReachable(m: string, pick: nat)
    requires pick < 5 && m == "technology"
    ensures GenerateAIResponse(m, pick) == Keyed(11)
  {
    TechnologyIsLower(m);
    TechnologyMissesEarlierKeys(m);
    assert ReplyKeys[11] == m;
    ContainsSelf(m);
    FirstKeyWins(m, pick, 11);
  }

  lemma TechIdeaHitsItsKey(m: string)
    requires m == "technology business idea"
    ensures Contains(m, ReplyKeys[10])
  {
    ContainsSelf(m);
  }

  lemma TechIdeaIsLower(m: string)
    requires m == "technology business idea"
    ensures Lower(m) == m
  {
  }

  lemma TechnologyIsLower(m: string)
    requires m == "technology"
    ensures Lower(m) == m
  {
  }

  /** 'legal' does not occur in a text whose only 'l' is followed by 'o' (index 6 here). */
  lemma NoLegal(m: string)
    requires |m| >= 8 && m[6] == 'l' && m[7] == 'o'
    requires forall k :: 0 <= k < |m| && k != 6 ==> m[k] != 'l'
    ensures !Contains(m, "legal")
  {
    var sub := "legal";
    forall k | 0 <= k <= |m| - |sub| ensures DiffersAt(m, sub, k, 0, 1) {
    }
    Mismatch(m, sub, 0, 1);
  }

  lemma TechIdeaLetters(m: string)
    requires m == "technology business idea"
    ensures forall k :: 0 <= k < |m| ==> m[k] !in "vpfmwk"
    ensures |m| >= 8 && m[6] == 'l' && m[7] == 'o' && forall k :: 0 <= k < |m| && k != 6 ==> m[k] != 'l'
  {
  }

  lemma TechIdeaMissesEarlierKeys(m: string)
    requires m == "technology business idea"
    ensures forall j :: 0 <= j < 10 ==> !Contains(m, ReplyKeys[j])
  {
    TechIdeaLetters(m);
    forall j | 0 <= j < 10 ensures !Contains(m, ReplyKeys[j]) {
      var key := ReplyKeys[j];
      if j == 0 {
      } else if j == 1 {
        MissingChar(m, key, 18);
      } else if j == 2 {
        MissingChar(m, key, 2);
      } else if j == 3 {
        MissingChar(m, key, 9);
      } else if j == 7 {
        NoLegal(m);
      } else if j == 9 {
        MissingChar(m, key, 13);
      } else {
        MissingChar(m, key, 0);
      }
    }
  }

  lemma TechnologyLetters(m: string)
    requires m == "technology"
    ensures forall k :: 0 <= k < |m| ==> m[k] !in "bvfmwa"
    ensures |m| >= 8 && m[6] == 'l' && m[7] == 'o' && forall k :: 0 <= k < |m| && k != 6 ==> m[k] != 'l'
  {
  }

  lemma TechnologyMissesEarlierKeys(m: string)
    requires m == "technology"
    ensures forall j :: 0 <= j < 11 ==> !Contains(m, ReplyKeys[j])
  {
    TechnologyLetters(m);
    forall j | 0 <= j < 11 ensures !Contains(m, ReplyKeys[j]) {
      var key := ReplyKeys[j];
      if j == 2 {
        MissingChar(m, key, 2);
      } else if j == 7 {
        NoLegal(m);
      } else if j != 10 {
        MissingChar(m, key, 0);
      }
    }
  }

  // ---------------------------------------------------------------- the chat panel

  datatype Role = UserRole | AssistantRole

  datatype Content =
    /** Text typed by the user or returned by the chat endpoint. */
    | Said(text: string)
    /** A reply made up locally by generateAIResponse. */
    | Local(reply: LocalReply)

  datatype ChatEntry = ChatEntry(role: Role, content: Content)

  /** The activity description of a chat: the first 50 characters of the message, and '...'
      exactly when something was cut. */
  function ActivityDescription(message: string): (d: string)
    ensures |message| <= 50 ==> d == "Discussed: " + message
    ensures |message| > 50 ==> d == "Discussed: " + message[..50] + "..."
  {
    "Discussed: " + message[..if |message| < 50 then |message| else 50] + (if |message| > 50 then "..." else "")
  }

  /** The assistant's entry: the endpoint's reply when it gave a non-empty one, else the local
      fallback reply. */
  function Answer(apiReply: Option<string>, message: string, pick: nat): (c: Content)
    requires pick < 5
    ensures c.Said? <==> apiReply.Some? && apiReply.value != ""
    ensures c.Said? ==> c.text == apiReply.value
    ensures c.Local? ==> c.reply == GenerateAIResponse(message, pick)
  {
    if apiReply.Some? && apiReply.value != "" then Said(apiReply.value) else Local(GenerateAIResponse(message, pick))
  }

  class Dashboard {
    var currentSection: string
    var chatHistory: seq<ChatEntry>
    /** The value of the chat input box. */
    var input: string
    /** The export dialog last opened by showExportOptions, if any. */
    var exportShown: Option<Format>

    constructor ()
      ensures currentSection == "dashboard" && chatHistory == [] && input == "" && exportShown == None
    {
      currentSection := "dashboard";
      chatHistory := [];
      input := "";
      exportShown := None;
    }

    /** sendMessage. `apiReply` is data.response when the chat endpoint answered with status ok
        (None when the request failed or threw); `pick` is the fallback's random choice. The
        result is the description of the activity posted to the dashboard, if any. */
    method SendMessage(apiReply: Option<string>, pick: nat) returns (activity: Option<string>)
      requires pick < 5
      modifies this
      ensures currentSection == old(currentSection)
      ensures var message := Trim(JsTrim, old(input));
        message == [] ==>
          chatHistory == old(chatHistory) && input == old(input) && exportShown == old(exportShown) && activity == None
      ensures var message := Trim(JsTrim, old(input));
        (message != [] && HandleExportRequest(message).Some?) ==>
          chatHistory == old(chatHistory) && input == "" && exportShown == HandleExportRequest(message) && activity == None
      ensures var message := Trim(JsTrim, old(input));
        (message != [] && HandleExportRequest(message).None?) ==>
          chatHistory == old(chatHistory) + [ChatEntry(UserRole, Said(message)), ChatEntry(AssistantRole, Answer(apiReply, message, pick))]
          && input == "" && exportShown == old(exportShown)
          && activity == Some(ActivityDescription(message))
    {
      var message := Trim(JsTrim, input);
      activity := None;
      if message != [] {
        var format := HandleExportRequest(message);
        if format.Some? {
          exportShown := format;
          input := "";
          return;
        }
        chatHistory := chatHistory + [ChatEntry(UserRole, Said(message)), ChatEntry(AssistantRole, Answer(apiReply, message, pick))];
        input := "";
        activity := Some(ActivityDescription(message));
      }
    }
  }

  /** Every message that is neither blank nor an export request grows the history by exactly a
      user entry followed by an assistant entry, whichever way the reply was obtained. */
  lemma HistoryGrowsByTwo(before: seq<ChatEntry>, message: string, answer: Content)
    ensures var after := before + [ChatEntry(UserRole, Said(message)), ChatEntry(AssistantRole, answer)];
      |after| == |before| + 2 && after[..|before|] == before
      && after[|before|].role == UserRole && after[|before| + 1].role == AssistantRole
  {
  }

  // ---------------------------------------------------------------- business-type detection

  const BusinessTypes: seq<string> := [
    "Mountain Hiking Tours", "Volcano Trekking", "Local Restaurant", "Eco-lodges",
    "Food Processing", "Coffee Processing", "Local Transport", "Souvenir Shop",
    "Local Guide Services", "Organic Farming", "Guesthouse", "Internet Cafe"
  ]

  /** The loop of addExportButtons and addQuickExportButtons, as rules: type T is detected when
      the content contains T + ' Business in Musanze'. */
  function TypeRules(): (rs: seq<Rule<nat>>)
    ensures |rs| == |BusinessTypes|
    ensures forall k :: 0 <= k < |rs| ==> rs[k] == Rule([], [BusinessTypes[k] + " Business in Musanze"], k)
  {
    seq(|BusinessTypes|, k requires 0 <= k < |BusinessTypes| => Rule([], [BusinessTypes[k] + " Business in Musanze"], k))
  }

  /** The position of the business type found in a reply, if any; the content is not
      lower-cased. */
  function DetectedType(content: string): Option<nat> {
    Select(TypeRules(), None, content)
  }

  /** The business type the export buttons are made for: the first detected type, else
      'Mountain Hiking Tours'. */
  function ExportBusinessType(content: string): string {
    match DetectedType(content)
    case Some(k) => if k < |BusinessTypes| then BusinessTypes[k] else BusinessTypes[0]
    case None => "Mountain Hiking Tours"
  }

  /** The type chosen is the first of the twelve whose phrase the content contains; with none,
      the default. */
  lemma DetectionPrecedence(content: string, i: nat)
    requires i < |BusinessTypes|
    ensures (DetectedType(content) == Some(i))
        <==> (Contains(content, BusinessTypes[i] + " Business in Musanze")
              && forall j :: 0 <= j < i ==> !Contains(content, BusinessTypes[j] + " Business in Musanze"))
    ensures DetectedType(content) == Some(i) ==> ExportBusinessType(content) == BusinessTypes[i]
    ensures DetectedType(content).None? <==>
        forall j :: 0 <= j < |BusinessTypes| ==> !Contains(content, BusinessTypes[j] + " Business in Musanze")
    ensures DetectedType(content).None? ==> ExportBusinessType(content) == "Mountain Hiking Tours"
  {
    var rs := TypeRules();
    forall j | 0 <= j < |rs| ensures Fires(rs[j], None, content) <==> Contains(content, BusinessTypes[j] + " Business in Musanze") {
      SingleKey(rs[j], content);
    }
    SelectExactly(rs, None, content, i);
    SelectNone(rs, None, content);
  }

  // ---------------------------------------------------------------- getTimeAgo

  datatype Ago = JustNow | MinutesAgo(n: int) | HoursAgo(n: int) | DaysAgo(n: int) | MonthsAgo(n: int)

  /** getTimeAgo, with `now` = Math.floor(Date.now() / 1000); both in seconds. */
  function TimeAgo(timestamp: int, now: int): (r: Ago)
    ensures var diff := now - timestamp;
      && (r.JustNow? <==> diff < 60)
      && (r.MinutesAgo? <==> 60 <= diff < 3600)
      && (r.HoursAgo? <==> 3600 <= diff < 86400)
      && (r.DaysAgo? <==> 86400 <= diff < 2592000)
      && (r.MonthsAgo? <==> 2592000 <= diff)
    ensures r.MinutesAgo? ==> 1 <= r.n < 60 && r.n * 60 <= now - timestamp < (r.n + 1) * 60
    ensures r.HoursAgo? ==> 1 <= r.n < 24 && r.n * 3600 <= now - timestamp < (r.n + 1) * 3600
    ensures r.DaysAgo? ==> 1 <= r.n < 30 && r.n * 86400 <= now - timestamp < (r.n + 1) * 86400
    ensures r.MonthsAgo? ==> 1 <= r.n && r.n * 2592000 <= now - timestamp < (r.n + 1) * 2592000
  {
    var diff := now - timestamp;
    if diff < 60 then JustNow
    else if diff < 3600 then MinutesAgo(diff / 60)
    else if diff < 86400 then HoursAgo(diff / 3600)
    else if diff < 2592000 then DaysAgo(diff / 86400)
    else MonthsAgo(diff / 2592000)
  }

  // ---------------------------------------------------------------- formatNumber

  /** The regular expression /\B(?=(\d{3})+(?!\d))/g on a text of digits, position by position
      from `i`: a comma goes before every digit that is not the first and is followed (itself
      included) by a multiple of three digits. */
  function InsertCommas(d: string, i: nat): string
    requires i <= |d|
    decreases |d| - i
  {
    if i == |d| then ""
    else (if i > 0 && (|d| - i) % 3 == 0 then "," else "") + [d[i]] + InsertCommas(d, i + 1)
  }

  /** formatNumber(num) for a non-negative integer. */
  function FormatNumber(n: nat): string {
    InsertCommas(NatToString(n), 0)
  }

  /** The usual grouping, built from the right: groups of three digits after a first group of
      one to three. */
  function GroupThousands(d: string): string
    decreases |d|
  {
    if |d| <= 3 then d else GroupThousands(d[..|d| - 3]) + "," + d[|d| - 3..]
  }

  function RemoveCommas(s: string): string {
    if s == [] then "" else (if s[0] == ',' then "" else [s[0]]) + RemoveCommas(s[1..])
  }

  lemma RemoveCommasAppend(a: string, b: string)
    ensures RemoveCommas(a + b) == RemoveCommas(a) + RemoveCommas(b)
  {
    if a == [] {
      assert a + b == b;
    } else {
      assert (a + b)[0] == a[0];
      assert (a + b)[1..] == a[1..] + b;
      RemoveCommasAppend(a[1..], b);
    }
  }

  lemma {:induction false} RemoveCommasNone(d: string)
    requires forall k :: 0 <= k < |d| ==> IsDigit(d[k])
    ensures RemoveCommas(d) == d
  {
    if d != [] {
      RemoveCommasNone(d[1..]);
    }
  }

  /** Appending a group of three digits to a text of at least one digit: the regular expression
      puts one comma in front of the new group and leaves the rest as it was. */
  lemma {:induction false} InsertCommasGroup(a: string, b: string, i: nat)
    requires |a| >= 1 && |b| == 3 && i <= |a|
    ensures InsertCommas(a + b, i) == InsertCommas(a, i) + "," + b
    decreases |a| - i
  {
    var d := a + b;
    if i == |a| {
      InsertCommasLastGroup(a, b);
    } else {
      InsertCommasGroup(a, b, i + 1);
      var c := if i > 0 && (|a| - i) % 3 == 0 then "," else "";
      assert (|d| - i) % 3 == (|a| - i) % 3;
      assert InsertCommas(d, i) == c + [a[i]] + InsertCommas(d, i + 1);
      assert InsertCommas(a, i) == c + [a[i]] + InsertCommas(a, i + 1);
    }
  }

  /** The new group itself: one comma, then its three digits. */
  lemma {:induction false} InsertCommasLastGroup(a: string, b: string)
    requires |a| >= 1 && |b| == 3
    ensures InsertCommas(a + b, |a|) == "," + b
  {
    var d, i := a + b, |a|;
    assert |d| - i == 3 && d[i] == b[0] && d[i + 1] == b[1] && d[i + 2] == b[2];
    assert InsertCommas(d, i + 3) == "";
    assert InsertCommas(d, i + 2) == [b[2]];
    assert InsertCommas(d, i + 1) == [b[1]] + [b[2]];
    assert InsertCommas(d, i) == "," + [b[0]] + [b[1]] + [b[2]];
    assert [b[0]] + [b[1]] + [b[2]] == b;
  }

  lemma {:induction false} InsertCommasShort(d: string, i: nat)
    requires |d| <= 3 && i <= |d|
    ensures InsertCommas(d, i) == d[i..]
    decreases |d| - i
  {
    if i < |d| {
      InsertCommasShort(d, i + 1);
      assert d[i..] == [d[i]] + d[i + 1..];
    }
  }

  /** The regular expression groups digits exactly as the right-to-left grouping does. */
  lemma {:induction false} InsertCommasIsGrouping(d: string)
    requires |d| >= 1
    ensures InsertCommas(d, 0) == GroupThousands(d)
    decreases |d|
  {
    if |d| <= 3 {
      InsertCommasShort(d, 0);
    } else {
      var a, b := d[..|d| - 3], d[|d| - 3..];
      assert d == a + b;
      InsertCommasIsGrouping(a);
      InsertCommasGroup(a, b, 0);
    }
  }

  /** Deleting the commas gives back num.toString() ... */
  lemma FormatNumberRoundTrip(n: nat)
    ensures RemoveCommas(FormatNumber(n)) == NatToString(n)
  {
    var d := NatToString(n);
    InsertCommasIsGrouping(d);
    GroupingRemoveCommas(d);
  }

  lemma {:induction false} GroupingRemoveCommas(d: string)
    requires forall k :: 0 <= k < |d| ==> IsDigit(d[k])
    ensures RemoveCommas(GroupThousands(d)) == d
    decreases |d|
  {
    if |d| <= 3 {
      RemoveCommasNone(d);
    } else {
      var a, b := d[..|d| - 3], d[|d| - 3..];
      GroupingRemoveCommas(a);
      RemoveCommasAppend(GroupThousands(a) + ",", b);
      RemoveCommasAppend(GroupThousands(a), ",");
      RemoveCommasNone(b);
      assert a + b == d;
    }
  }

  /** ... and the commas split the digits into a first group of one to three digits followed by
      groups of exactly three. */
  lemma {:induction false} FormatNumberGroups(n: nat)
    ensures var parts := Split(FormatNumber(n), ',');
      1 <= |parts[0]| <= 3 && forall k :: 1 <= k < |parts| ==> |parts[k]| == 3
  {
    var d := NatToString(n);
    InsertCommasIsGrouping(d);
    GroupingParts(d);
  }

  lemma {:induction false} GroupingParts(d: string)
    requires |d| >= 1 && forall k :: 0 <= k < |d| ==> IsDigit(d[k])
    ensures var parts := Split(GroupThousands(d), ',');
      1 <= |parts[0]| <= 3 && forall k :: 1 <= k < |parts| ==> |parts[k]| == 3
    decreases |d|
  {
    if |d| <= 3 {
      SplitNoSeparator(d, ',');
    } else {
      var a, b := d[..|d| - 3], d[|d| - 3..];
      GroupingParts(a);
      SplitNoSeparator(b, ',');
      SplitAround(GroupThousands(a), b, ',');
    }
  }

  /** Splitting a + [sep] + b, with no separator in b, adds b as a last piece. */
  lemma {:induction false} SplitAround(a: string, b: string, sep: char)
    requires sep !in b
    ensures Split(a + [sep] + b, sep) == Split(a, sep) + [b]
  {
    if a == [] {
      SplitNoSeparator(b, sep);
      assert ([sep] + b)[1..] == b;
      assert a + [sep] + b == [sep] + b;
    } else {
      SplitAround(a[1..], b, sep);
      assert (a + [sep] + b)[1..] == a[1..] + [sep] + b;
      assert (a + [sep] + b)[0] == a[0];
    }
  }
}
