/** The dashboard's document store: the statistics, the bounded activity log (newest first,
    at most 20 entries) and the business-plan list, kept in one JSON document, and the
    endpoint that reads and updates it. The document is modelled as the fields of a class;
    reading and writing the file are the field accesses. */
module DashboardStore {
  import opened Wrappers
  import opened Text
  import opened Php

  /** One logged activity. The type, title and description are whatever the request carried. */
  datatype Activity = Activity(id: int, kind: Value, title: Value, description: Value,
                               timestamp: int, icon: string, color: string)

  /** An entry of the business-plan list; only their number is ever read. */
  datatype PlanEntry = PlanEntry(id: int, name: string, kind: string, status: string, createdAt: int)

  /** The most activities the log keeps. */
  const MaxActivities := 20

  // ---------------------------------------------------------------- icons and colours

  const DefaultIcon := "fas fa-circle"
  const DefaultColor := "secondary"

  const Icons: map<string, string> := map[
    "business_plan" := "fas fa-file-alt", "chat" := "fas fa-comments", "research" := "fas fa-search",
    "financial" := "fas fa-chart-line", "user" := "fas fa-user", "system" := "fas fa-cog"]

  const Colors: map<string, string> := map[
    "business_plan" := "primary", "chat" := "success", "research" := "info",
    "financial" := "warning", "user" := "secondary", "system" := "dark"]

  /** `$table[$type] ?? $default` for a scalar type: only a string can name an entry (an
      integer or boolean key is an integer key, which the tables do not have). */
  function Lookup(table: map<string, string>, kind: Value, default: string): (r: string)
    ensures kind.Str? && kind.s in table ==> r == table[kind.s]
    ensures !(kind.Str? && kind.s in table) ==> r == default
  {
    if kind.Str? && kind.s in table then table[kind.s] else default
  }

  /** getActivityIcon. */
  function IconFor(kind: Value): (r: string)
    ensures r == DefaultIcon <==> !(kind.Str? && kind.s in Icons)
  {
    var r := Lookup(Icons, kind, DefaultIcon);
    assert forall k :: k in Icons ==> Icons[k] != DefaultIcon;
    r
  }

  /** getActivityColor: 'user' and an unknown type both get 'secondary'. */
  function ColorFor(kind: Value): (r: string)
    ensures r == DefaultColor <==> !(kind.Str? && kind.s in Colors && kind.s != "user")
  {
    var r := Lookup(Colors, kind, DefaultColor);
    assert forall k :: k in Colors && k != "user" ==> Colors[k] != DefaultColor;
    r
  }

  // ---------------------------------------------------------------- the activity log

  /** The entry addActivity builds: its id is one more than the log's length before it. */
  function NewActivity(log: seq<Activity>, kind: Value, title: Value, description: Value, now: int): Activity {
    Activity(|log| + 1, kind, title, description, now, IconFor(kind), ColorFor(kind))
  }

  function Min(a: int, b: int): int { if a <= b then a else b }

  /** `array_unshift` then `array_slice(..., 0, 20)`. */
  function Added(log: seq<Activity>, a: Activity): (r: seq<Activity>)
    ensures |r| == Min(MaxActivities, |log| + 1)
    ensures r[0] == a && r[1..] == log[..|r| - 1]
  {
    var all := [a] + log;
    assert all[1..] == log;
    all[..Min(MaxActivities, |all|)]
  }

  /** A log of at most 20 entries gains the new entry in front and loses nothing... */
  lemma AddedKeepsShortLog(log: seq<Activity>, a: Activity)
    requires |log| < MaxActivities
    ensures Added(log, a) == [a] + log
  {
  }

  /** ...while a full log drops its oldest-inserted entry, and the next entry gets the same id
      again: once 20 entries are stored, every new activity has id 21. */
  lemma FullLogRepeatsIds(log: seq<Activity>, a: Activity, kind: Value, title: Value, description: Value, now: int)
    requires |log| == MaxActivities
    ensures Added(log, a) == [a] + log[..MaxActivities - 1]
    ensures NewActivity(log, kind, title, description, now).id == MaxActivities + 1
    ensures NewActivity(Added(log, a), kind, title, description, now).id == MaxActivities + 1
  {
  }

  // ---------------------------------------------------------------- newest first

  /** usort's comparison `$b['timestamp'] - $a['timestamp']`, placed by a stable insertion
      (PHP 8's sort is stable): x goes before the first entry that is not newer than it. */
  function InsertByTime(x: Activity, s: seq<Activity>): seq<Activity> {
    if s == [] || x.timestamp >= s[0].timestamp then [x] + s
    else [s[0]] + InsertByTime(x, s[1..])
  }

  function NewestFirst(log: seq<Activity>): seq<Activity> {
    if log == [] then [] else InsertByTime(log[0], NewestFirst(log[1..]))
  }

  predicate Descending(s: seq<Activity>) {
    forall i, j :: 0 <= i < j < |s| ==> s[i].timestamp >= s[j].timestamp
  }

  lemma {:induction false} InsertByTimePermutes(x: Activity, s: seq<Activity>)
    ensures multiset(InsertByTime(x, s)) == multiset(s) + multiset{x}
  {
    if s != [] && x.timestamp < s[0].timestamp {
      InsertByTimePermutes(x, s[1..]);
      assert s == [s[0]] + s[1..];
    }
  }

  /** Sorting keeps every entry, as often as it was there. */
  lemma {:induction false} NewestFirstPermutes(log: seq<Activity>)
    ensures multiset(NewestFirst(log)) == multiset(log)
  {
    if log != [] {
      NewestFirstPermutes(log[1..]);
      InsertByTimePermutes(log[0], NewestFirst(log[1..]));
      assert log == [log[0]] + log[1..];
    }
  }

  lemma {:induction false} InsertByTimeSorted(x: Activity, s: seq<Activity>)
    requires Descending(s)
    ensures Descending(InsertByTime(x, s))
  {
    if s != [] && x.timestamp < s[0].timestamp {
      InsertByTimeSorted(x, s[1..]);
      InsertByTimePermutes(x, s[1..]);
      var r := InsertByTime(x, s[1..]);
      forall e | e in r ensures e.timestamp <= s[0].timestamp {
        assert e in multiset(r);
        if e != x {
          assert e in multiset(s[1..]);
        }
      }
    }
  }

  /** Sorting orders the log from the newest to the oldest. */
  lemma {:induction false} NewestFirstSorted(log: seq<Activity>)
    ensures Descending(NewestFirst(log))
  {
    if log != [] {
      NewestFirstSorted(log[1..]);
      InsertByTimeSorted(log[0], NewestFirst(log[1..]));
    }
  }

  /** What getRecentActivities may rely on whatever sort is used (PHP 7.4's usort is not
      stable): in any newest-first ordering of the log, an entry strictly newer than every
      other entry comes first. */
  lemma StrictlyNewestFirst(sorted: seq<Activity>, x: Activity, log: seq<Activity>)
    requires multiset(sorted) == multiset([x] + log) && Descending(sorted)
    requires forall e :: e in log ==> e.timestamp < x.timestamp
    ensures |sorted| > 0 && sorted[0] == x
  {
    assert x in multiset(sorted);
    var j :| 0 <= j < |sorted| && sorted[j] == x;
    assert sorted[0].timestamp >= x.timestamp;
    assert sorted[0] in multiset([x] + log);
    assert sorted[0] in [x] + log;
  }

  // ---------------------------------------------------------------- array_slice and intval

  /** `array_slice($xs, 0, $limit)`: a non-negative limit keeps the first `limit` entries, a
      negative one drops `-limit` entries from the end. */
  function SliceFromStart<T>(xs: seq<T>, limit: int): (r: seq<T>)
    ensures limit >= 0 ==> r == xs[..Min(limit, |xs|)]
    ensures limit < 0 ==> r == xs[..if |xs| + limit > 0 then |xs| + limit else 0]
  {
    if limit >= 0 then xs[..Min(limit, |xs|)]
    else if |xs| + limit > 0 then xs[..|xs| + limit]
    else []
  }

  function LeadingDigits(s: string): (r: string)
    ensures r <= s && forall i :: 0 <= i < |r| ==> IsDigit(r[i])
    ensures |r| < |s| ==> !IsDigit(s[|r|])
  {
    if s == [] || !IsDigit(s[0]) then "" else [s[0]] + LeadingDigits(s[1..])
  }

  function SkipSpaces(s: string): (r: string)
    ensures r <= s || (|r| <= |s| && r == s[|s| - |r|..])
    ensures r == [] || !IsNumericSpace(r[0])
  {
    if s != [] && IsNumericSpace(s[0]) then SkipSpaces(s[1..]) else s
  }

  /** intval of a query string: leading whitespace, an optional sign, then the leading digits;
      0 when there are none. */
  function Intval(s: string): int {
    var t := SkipSpaces(s);
    if t != [] && t[0] == '-' then -(DigitsValue(LeadingDigits(t[1..]))  as int)
    else if t != [] && t[0] == '+' then DigitsValue(LeadingDigits(t[1..]))
    else DigitsValue(LeadingDigits(t))
  }

  lemma {:induction false} LeadingDigitsAll(s: string)
    requires forall i :: 0 <= i < |s| ==> IsDigit(s[i])
    ensures LeadingDigits(s) == s
  {
    if s != [] {
      LeadingDigitsAll(s[1..]);
      assert s == [s[0]] + s[1..];
    }
  }

  /** intval reads back the decimal text of any integer. */
  lemma IntvalRoundTrip(n: int)
    ensures Intval(IntToString(n)) == n
  {
    var m: nat := if n < 0 then -n else n;
    var d := NatToString(m);
    LeadingDigitsAll(d);
    NatToStringValue(m);
    if n < 0 {
      assert IntToString(n) == "-" + d;
      assert SkipSpaces("-" + d) == "-" + d;
      assert ("-" + d)[1..] == d;
    } else {
      assert SkipSpaces(d) == d;
      assert d[0] != '-' && d[0] != '+';
    }
  }

  /** A limit text without digits, such as "all", reads as 0 and selects nothing. */
  lemma NoDigitsNoActivities(s: string, log: seq<Activity>)
    requires forall i :: 0 <= i < |s| ==> !IsDigit(s[i])
    ensures Intval(s) == 0
    ensures SliceFromStart(NewestFirst(log), Intval(s)) == []
  {
    var t := SkipSpaces(s);
    if t != [] {
      assert t[0] in s;
      if t[0] == '-' || t[0] == '+' {
        if t[1..] != [] {
          assert t[1..][0] in s;
        }
      }
    }
  }

  // ---------------------------------------------------------------- the store

  const InitialStats: map<string, Value> := map["active_projects" := Int(8), "revenue_generated" := Int(32450),
                                               "total_users" := Int(847), "success_rate" := Int(92)]

  class DashboardData {
    var stats: map<string, Value>
    var activities: seq<Activity>
    var businessPlans: seq<PlanEntry>

    /** The document written when none exists: the fixed statistics, five activities from
        two hours to three days old, and three plans (chat sessions are never read). */
    constructor(now: int)
      ensures stats == InitialStats
      ensures |activities| == 5 && |businessPlans| == 3
      ensures Descending(activities)
      ensures forall i :: 0 <= i < |activities| ==> activities[i].id == i + 1 && activities[i].timestamp < now
    {
      stats := InitialStats;
      activities := [
        Activity(1, Str("business_plan"), Str("Business Plan Created"), Str("TechStart Solutions business plan completed"), now - 7200, "fas fa-file-alt", "primary"),
        Activity(2, Str("chat"), Str("AI Chat Session"), Str("Discussed funding strategies with AI assistant"), now - 14400, "fas fa-comments", "success"),
        Activity(3, Str("research"), Str("Market Research"), Str("Completed competitor analysis for retail sector"), now - 86400, "fas fa-search", "info"),
        Activity(4, Str("financial"), Str("Financial Projections"), Str("Updated Q4 revenue projections"), now - 172800, "fas fa-chart-line", "warning"),
        Activity(5, Str("business_plan"), Str("Business Plan Updated"), Str("Revised marketing strategy section"), now - 259200, "fas fa-file-alt", "primary")];
      businessPlans := [
        PlanEntry(1, "TechStart Solutions", "Technology", "completed", now - 7200),
        PlanEntry(2, "Green Energy Co.", "Energy", "in_progress", now - 86400),
        PlanEntry(3, "Local Food Delivery", "Food & Beverage", "completed", now - 172800)];
    }

    /** getStats, given the two rand() draws: the stored statistics with active_projects
        replaced by the number of plans, total_users by 847 + userNoise and success_rate by
        92 + rateNoise. Nothing is written back. */
    function Stats(userNoise: int, rateNoise: int): (r: map<string, Value>)
      reads this
      requires -10 <= userNoise <= 10 && -2 <= rateNoise <= 2
      ensures r.Keys == stats.Keys + {"active_projects", "total_users", "success_rate"}
      ensures r["active_projects"] == Int(|businessPlans|)
      ensures r["total_users"].Int? && 837 <= r["total_users"].i <= 857
      ensures r["success_rate"].Int? && 90 <= r["success_rate"].i <= 94
      ensures forall k :: k in stats && k !in {"active_projects", "total_users", "success_rate"} ==> r[k] == stats[k]
    {
      stats["active_projects" := Int(|businessPlans|)]["total_users" := Int(847 + userNoise)]["success_rate" := Int(92 + rateNoise)]
    }

    /** getRecentActivities: the log sorted newest first, then array_slice(0, limit). Nothing
        is written back. */
    function RecentActivities(limit: int): (r: seq<Activity>)
      reads this
      ensures |r| <= |activities|
      ensures Descending(r)
      ensures limit >= 0 ==> |r| == Min(limit, |activities|)
    {
      NewestFirstSorted(activities);
      NewestFirstPermutes(activities);
      assert |multiset(NewestFirst(activities))| == |multiset(activities)|;
      SliceFromStart(NewestFirst(activities), limit)
    }

    /** addActivity: the new entry, stamped `now`, goes first; the log keeps 20 entries at most. */
    method AddActivity(kind: Value, title: Value, description: Value, now: int) returns (a: Activity)
      modifies this
      ensures a == NewActivity(old(activities), kind, title, description, now)
      ensures activities == Added(old(activities), a)
      ensures stats == old(stats) && businessPlans == old(businessPlans)
    {
      a := NewActivity(activities, kind, title, description, now);
      var all := [a] + activities;
      activities := all[..Min(MaxActivities, |all|)];
    }

    /** updateStats: array_merge of the stored statistics with the given ones. */
    method UpdateStats(update: map<string, Value>) returns (r: map<string, Value>)
      modifies this
      ensures stats == old(stats) + update && r == stats
      ensures activities == old(activities) && businessPlans == old(businessPlans)
    {
      stats := stats + update;
      r := stats;
    }
  }

  /** The merge replaces the given keys, keeps the others and adds the new ones. */
  lemma MergeStats(stored: map<string, Value>, update: map<string, Value>, k: string)
    ensures k in update ==> (stored + update)[k] == update[k]
    ensures k !in update && k in stored ==> (stored + update)[k] == stored[k]
    ensures k in stored + update <==> k in stored || k in update
  {
  }

  /** Right after an entry is added, a limit of 1 returns just that entry, provided every
      stored entry is strictly older. */
  lemma AddedIsMostRecent(log: seq<Activity>, a: Activity)
    requires forall e :: e in log ==> e.timestamp < a.timestamp
    ensures SliceFromStart(NewestFirst(Added(log, a)), 1) == [a]
  {
    var added := Added(log, a);
    assert added == [a] + added[1..];
    forall e | e in added[1..] ensures e.timestamp < a.timestamp {
      assert e in log;
    }
    NewestFirstPermutes(added);
    NewestFirstSorted(added);
    StrictlyNewestFirst(NewestFirst(added), a, added[1..]);
  }

  // ---------------------------------------------------------------- the endpoint

  datatype Payload = StatsData(stats: map<string, Value>) | ActivityList(activities: seq<Activity>) | NewEntry(activity: Activity)

  datatype DashboardResponse =
    /** 200 with no body, for OPTIONS. */
    | Preflight
    /** success true with the data. */
    | Answered(data: Payload)
    /** success false with an error; still HTTP 200. */
    | Refused(error: string)
    /** An array where a scalar is needed (array key or array_merge argument): an uncaught
        TypeError, answered with 500. */
    | TypeError

  const InvalidAction := "Invalid action"
  const MissingFields := "Missing required fields"
  const MethodNotAllowed := "Method not allowed"

  /** The statistics array_merge receives for update_stats: none given merges nothing, an
      object its entries, a list only integer keys (none of the named statistics); any other
      value is not an array, and array_merge raises a TypeError (None). */
  function StatsUpdate(given: Option<Value>): Option<map<string, Value>> {
    match given
    case None => Some(map[])
    case Some(Obj(m)) => Some(m)
    case Some(List(_)) => Some(map[])
    case Some(_) => None
  }

  /** The endpoint. GET parameters are strings; `body` is the decoded POST body (None when it
      does not decode); `now` is time() and the two noises are the rand() draws of getStats. */
  method Handle(d: DashboardData, httpMethod: string, query: map<string, string>, body: Option<Value>,
                now: int, userNoise: int, rateNoise: int) returns (r: DashboardResponse)
    requires -10 <= userNoise <= 10 && -2 <= rateNoise <= 2
    modifies d
    ensures httpMethod == "OPTIONS" ==> r == Preflight
    ensures httpMethod != "POST" ==> unchanged(d)
    ensures httpMethod == "GET" ==>
      var action := if "action" in query then query["action"] else "stats";
      && (action == "stats" ==> r == Answered(StatsData(d.Stats(userNoise, rateNoise))))
      && (action == "activities" ==>
            r == Answered(ActivityList(d.RecentActivities(if "limit" in query then Intval(query["limit"]) else 5))))
      && (action != "stats" && action != "activities" ==> r == Refused(InvalidAction))
    ensures httpMethod != "OPTIONS" && httpMethod != "GET" && httpMethod != "POST" ==> r == Refused(MethodNotAllowed)
    ensures r.Refused? ==> d.activities == old(d.activities) && d.stats == old(d.stats)
    ensures r == Refused(MissingFields) <==>
      && httpMethod == "POST" && SwitchMatches(FieldOr(body.GetOr(Null), "action", Str("")), "add_activity")
      && (Empty(FieldOr(body.GetOr(Null), "type", Str(""))) || Empty(FieldOr(body.GetOr(Null), "title", Str(""))))
    ensures r.Answered? && r.data.NewEntry? ==>
      && d.activities == Added(old(d.activities), r.data.activity)
      && r.data.activity.timestamp == now && r.data.activity.id == |old(d.activities)| + 1
    ensures httpMethod == "POST" && !r.Answered? ==> d.stats == old(d.stats) && d.activities == old(d.activities)
    ensures d.businessPlans == old(d.businessPlans)
    ensures httpMethod == "POST" ==>
      var input := body.GetOr(Null);
      var action := FieldOr(input, "action", Str(""));
      var kind := FieldOr(input, "type", Str(""));
      var title := FieldOr(input, "title", Str(""));
      var addable := SwitchMatches(action, "add_activity") && !Empty(kind) && !Empty(title);
      var update := StatsUpdate(Field(input, "stats"));
      && (addable && !(kind.List? || kind.Obj?) ==>
            var a := NewActivity(old(d.activities), kind, title, FieldOr(input, "description", Str("")), now);
            r == Answered(NewEntry(a)) && d.activities == Added(old(d.activities), a) && d.stats == old(d.stats))
      && (addable && (kind.List? || kind.Obj?) ==> r == TypeError)
      && (!SwitchMatches(action, "add_activity") && SwitchMatches(action, "update_stats") ==>
            && (update.Some? ==>
                  d.stats == old(d.stats) + update.value && r == Answered(StatsData(d.stats))
                  && d.activities == old(d.activities))
            && (update.None? ==> r == TypeError))
      && (!SwitchMatches(action, "add_activity") && !SwitchMatches(action, "update_stats") ==> r == Refused(InvalidAction))
  {
    if httpMethod == "OPTIONS" {
      return Preflight;
    }
    if httpMethod == "GET" {
      var action := if "action" in query then query["action"] else "stats";
      if action == "stats" {
        r := Answered(StatsData(d.Stats(userNoise, rateNoise)));
      } else if action == "activities" {
        var limit := if "limit" in query then Intval(query["limit"]) else 5;
        r := Answered(ActivityList(d.RecentActivities(limit)));
      } else {
        r := Refused(InvalidAction);
      }
      return;
    }
    if httpMethod != "POST" {
      return Refused(MethodNotAllowed);
    }
    var input := body.GetOr(Null);
    var action := FieldOr(input, "action", Str(""));
    if SwitchMatches(action, "add_activity") {
      var kind := FieldOr(input, "type", Str(""));
      var title := FieldOr(input, "title", Str(""));
      var description := FieldOr(input, "description", Str(""));
      if Empty(kind) || Empty(title) {
        return Refused(MissingFields);
      }
      if kind.List? || kind.Obj? {
        return TypeError;
      }
      var a := d.AddActivity(kind, title, description, now);
      r := Answered(NewEntry(a));
    } else if SwitchMatches(action, "update_stats") {
      var update := StatsUpdate(Field(input, "stats"));
      if update.None? {
        return TypeError;
      }
      var s := d.UpdateStats(update.value);
      r := Answered(StatsData(s));
    } else {
      r := Refused(InvalidAction);
    }
  }
}
