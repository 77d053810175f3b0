/** The analytics endpoint: action routing, the fixed success-rate table and its summary,
    the seasonal factors behind the two six-month trend series, and the count of today's
    activity-log entries and distinct client addresses. Random draws and the clock are
    parameters. */
module Analytics {
  import opened Wrappers
  import opened Text
  import opened Php

  // ---------------------------------------------------------------- routing

  datatype Report = RevenueTrends | BusinessRegistrations | UserMetrics | BusinessMetrics
                  | SuccessRates | MonthlyStats | AllAnalytics

  function ActionName(r: Report): string {
    match r
    case RevenueTrends => "revenue_trends"
    case BusinessRegistrations => "business_registrations"
    case UserMetrics => "user_metrics"
    case BusinessMetrics => "business_metrics"
    case SuccessRates => "success_rates"
    case MonthlyStats => "monthly_stats"
    case AllAnalytics => "all_analytics"
  }

  datatype AnalyticsResponse = Preflight | Produce(report: Report) | InvalidAction

  /** `$_GET['action'] ?? $_POST['action'] ?? ''`: a query parameter wins even when empty. */
  function RequestedAction(query: map<string, string>, form: map<string, string>): string {
    if "action" in query then query["action"] else if "action" in form then form["action"] else ""
  }

  /** The request: OPTIONS ends with no body; otherwise the action selects one of the seven
      reports, and anything else is answered with 'Invalid action'. */
  function Route(httpMethod: string, query: map<string, string>, form: map<string, string>): (r: AnalyticsResponse)
    ensures httpMethod == "OPTIONS" <==> r == Preflight
    ensures r.Produce? ==> ActionName(r.report) == RequestedAction(query, form)
    ensures r == InvalidAction <==>
      httpMethod != "OPTIONS" && forall k: Report :: ActionName(k) != RequestedAction(query, form)
  {
    if httpMethod == "OPTIONS" then Preflight
    else
      match RequestedAction(query, form)
      case "revenue_trends" => Produce(RevenueTrends)
      case "business_registrations" => Produce(BusinessRegistrations)
      case "user_metrics" => Produce(UserMetrics)
      case "business_metrics" => Produce(BusinessMetrics)
      case "success_rates" => Produce(SuccessRates)
      case "monthly_stats" => Produce(MonthlyStats)
      case "all_analytics" => Produce(AllAnalytics)
      case _ => InvalidAction
  }

  /** Every report is reachable by its action name, by query or by form. */
  lemma EveryReportRoutable(k: Report, httpMethod: string, form: map<string, string>)
    requires httpMethod != "OPTIONS"
    ensures Route(httpMethod, map["action" := ActionName(k)], form) == Produce(k)
    ensures Route(httpMethod, map[], form["action" := ActionName(k)]) == Produce(k)
  {
    var r1 := Route(httpMethod, map["action" := ActionName(k)], form);
    var r2 := Route(httpMethod, map[], form["action" := ActionName(k)]);
    assert r1 != InvalidAction;
    assert r2 != InvalidAction;
    ActionNameInjective(r1.report, k);
    ActionNameInjective(r2.report, k);
  }

  lemma ActionNameInjective(a: Report, b: Report)
    requires ActionName(a) == ActionName(b)
    ensures a == b
  {
  }

  // ---------------------------------------------------------------- success rates

  /** The business types of the success-rate table, in table order, and their percentages. */
  const Kinds: seq<string> := [
    "Mountain Hiking Tours", "Volcano Trekking", "Local Restaurant", "Eco-lodges", "Food Processing",
    "Coffee Processing", "Local Transport", "Souvenir Shop", "Local Guide Services", "Organic Farming",
    "Guesthouse", "Internet Cafe"]

  const Percents: seq<int> := [92, 88, 95, 90, 87, 94, 96, 89, 91, 93, 88, 85]

  /** array_sum. */
  function Sum(xs: seq<int>): (r: int)
    ensures (forall i :: 0 <= i < |xs| ==> xs[i] >= 0) ==> r >= 0
  {
    if xs == [] then 0 else Sum(xs[..|xs| - 1]) + xs[|xs| - 1]
  }

  lemma SumPrefix(xs: seq<int>, k: nat)
    requires 0 < k <= |xs|
    ensures Sum(xs[..k]) == Sum(xs[..k - 1]) + xs[k - 1]
  {
    assert xs[..k][..k - 1] == xs[..k - 1];
  }

  /** round($sum / $count, 1) in tenths: the nearest tenth, halves rounded up. */
  function RoundedMeanTenths(sum: nat, count: nat): (r: int)
    requires count > 0
    ensures -(count as int) <= 20 * sum - 2 * count * r < count
  {
    (20 * sum + count) / (2 * count)
  }

  /** max(). */
  function Max(xs: seq<int>): (m: int)
    requires xs != []
    ensures forall i :: 0 <= i < |xs| ==> xs[i] <= m
    ensures m in xs
  {
    if |xs| == 1 then xs[0]
    else
      var m := Max(xs[1..]);
      assert forall i :: 1 <= i < |xs| ==> xs[i] == xs[1..][i - 1];
      if xs[0] >= m then xs[0] else m
  }

  /** min(). */
  function Min(xs: seq<int>): (m: int)
    requires xs != []
    ensures forall i :: 0 <= i < |xs| ==> m <= xs[i]
    ensures m in xs
  {
    if |xs| == 1 then xs[0]
    else
      var m := Min(xs[1..]);
      assert forall i :: 1 <= i < |xs| ==> xs[i] == xs[1..][i - 1];
      if xs[0] <= m then xs[0] else m
  }

  /** `array_keys($table, $v)[0]`, as a position: the first entry equal to v. */
  function FirstWith(xs: seq<int>, v: int): (i: nat)
    requires v in xs
    ensures i < |xs| && xs[i] == v
    ensures forall j :: 0 <= j < i ==> xs[j] != v
  {
    if xs[0] == v then 0
    else
      assert v in xs[1..] by {
        var j :| 0 <= j < |xs| && xs[j] == v;
        assert xs[1..][j - 1] == xs[j];
      }
      1 + FirstWith(xs[1..], v)
  }

  datatype SuccessSummary = SuccessSummary(overallTenths: int, percents: seq<int>,
                                           topPerforming: string, improvementArea: string)

  predicate NonNegative(xs: seq<int>) {
    forall i :: 0 <= i < |xs| ==> xs[i] >= 0
  }

  /** Position i holds the first occurrence of the largest value. */
  predicate FirstMaximum(xs: seq<int>, i: int) {
    0 <= i < |xs| && (forall j :: 0 <= j < |xs| ==> xs[j] <= xs[i]) && (forall j :: 0 <= j < i ==> xs[j] < xs[i])
  }

  /** Position i holds the first occurrence of the smallest value. */
  predicate FirstMinimum(xs: seq<int>, i: int) {
    0 <= i < |xs| && (forall j :: 0 <= j < |xs| ==> xs[i] <= xs[j]) && (forall j :: 0 <= j < i ==> xs[i] < xs[j])
  }

  /** getSuccessRates over a non-empty table of types and non-negative percentages: the
      rounded mean, the first type with the highest percentage and the first with the
      lowest. */
  function Summary(kinds: seq<string>, percents: seq<int>): (r: SuccessSummary)
    requires percents != [] && |kinds| == |percents| && NonNegative(percents)
    ensures r.percents == percents
    ensures exists i :: FirstMaximum(percents, i) && kinds[i] == r.topPerforming
    ensures exists i :: FirstMinimum(percents, i) && kinds[i] == r.improvementArea
    ensures -|percents| <= 20 * Sum(percents) - 2 * |percents| * r.overallTenths < |percents|
  {
    var top := FirstWith(percents, Max(percents));
    var low := FirstWith(percents, Min(percents));
    assert FirstMaximum(percents, top);
    assert FirstMinimum(percents, low);
    SuccessSummary(RoundedMeanTenths(Sum(percents), |percents|), percents, kinds[top], kinds[low])
  }

  lemma PercentsSum()
    ensures Sum(Percents) == 1088
  {
    var p := Percents;
    SumPrefix(p, 1); SumPrefix(p, 2); SumPrefix(p, 3); SumPrefix(p, 4);
    SumPrefix(p, 5); SumPrefix(p, 6); SumPrefix(p, 7); SumPrefix(p, 8);
    SumPrefix(p, 9); SumPrefix(p, 10); SumPrefix(p, 11); SumPrefix(p, 12);
    assert p[..0] == [];
    assert p[..12] == p;
  }

  lemma FirstWithIs(xs: seq<int>, v: int, k: nat)
    requires k < |xs| && xs[k] == v && forall j :: 0 <= j < k ==> xs[j] != v
    ensures FirstWith(xs, v) == k
  {
  }

  /** 96, first at position 6, is the table's maximum. */
  lemma PercentsTop()
    ensures Max(Percents) == 96 && FirstWith(Percents, 96) == 6
  {
    var p := Percents;
    assert forall j :: 0 <= j < |p| ==> p[j] <= 96;
    assert p[6] == 96;
    assert forall j :: 0 <= j < 6 ==> p[j] != 96;
    FirstWithIs(p, 96, 6);
  }

  /** 85, first at position 11, is the table's minimum. */
  lemma PercentsLow()
    ensures Min(Percents) == 85 && FirstWith(Percents, 85) == 11
  {
    var p := Percents;
    assert forall j :: 0 <= j < |p| ==> 85 <= p[j];
    assert p[11] == 85;
    assert forall j :: 0 <= j < 11 ==> p[j] != 85;
    FirstWithIs(p, 85, 11);
  }

  /** The fixed table: 1088 / 12 = 90.67 reports as 90.7 ... */
  lemma FixedOverall()
    ensures Summary(Kinds, Percents).overallTenths == 907
  {
    PercentsSum();
    assert |Percents| == 12;
    assert Summary(Kinds, Percents).overallTenths == RoundedMeanTenths(Sum(Percents), |Percents|);
    assert RoundedMeanTenths(1088, 12) == 21772 / 24;
    assert 21772 / 24 == 907;
  }

  /** ... Local Transport (96) is the top performer and Internet Cafe (85) the improvement area. */
  lemma FixedLeaders()
    ensures Summary(Kinds, Percents).topPerforming == "Local Transport"
    ensures Summary(Kinds, Percents).improvementArea == "Internet Cafe"
  {
    PercentsTop();
    PercentsLow();
  }

  // ---------------------------------------------------------------- seasonal factors

  const MonthNames: seq<string> := ["Jan", "Feb", "Mar", "Apr", "May", "Jun", "Jul", "Aug", "Sep", "Oct", "Nov", "Dec"]

  const SeasonalFactors: map<string, real> := map[
    "Jan" := 1.1, "Feb" := 1.2, "Mar" := 0.9, "Apr" := 1.0, "May" := 1.1, "Jun" := 1.3,
    "Jul" := 1.4, "Aug" := 1.3, "Sep" := 1.0, "Oct" := 0.9, "Nov" := 0.8, "Dec" := 1.2]

  /** getSeasonalFactor: the table's factor for a three-letter month name, 1.0 otherwise. */
  function SeasonalFactor(month: string): (r: real)
    ensures 0.8 <= r <= 1.4
    ensures month !in MonthNames ==> r == 1.0
  {
    assert SeasonalFactors.Keys == set m | m in MonthNames;
    if month in SeasonalFactors then SeasonalFactors[month] else 1.0
  }

  /** The factor is 1.0 for any name other than a month's, including full and lower-case
      names; July is the only month with the peak factor 1.4 and November the only one with
      the low 0.8. */
  lemma SeasonalExtremes(month: string)
    ensures month == "January" || month == "jan" ==> SeasonalFactor(month) == 1.0
    ensures SeasonalFactor(month) == 1.4 <==> month == "Jul"
    ensures SeasonalFactor(month) == 0.8 <==> month == "Nov"
  {
  }

  // ---------------------------------------------------------------- trend series

  const TrendMonths: seq<string> := ["Jan", "Feb", "Mar", "Apr", "May", "Jun"]

  /** PHP's round() on a non-negative value: halves go up. */
  function RoundHalfUp(x: real): (r: int)
    requires x >= 0.0
    ensures r as real <= x + 0.5 < r as real + 1.0
    ensures r >= 0
  {
    (x + 0.5).Floor
  }

  /** One month of getRevenueTrends, in tenths of a million: 12M times the seasonal factor,
      1 + 0.15 per month of growth and 0.8 + draw/100 of variation. */
  function RevenuePoint(index: nat, month: string, draw: int): int
    requires 0 <= draw <= 40
  {
    Scaled3(120.0 * SeasonalFactor(month), 1.0 + 0.15 * index as real, 0.8 + draw as real / 100.0);
    RoundHalfUp(120.0 * SeasonalFactor(month) * (1.0 + 0.15 * index as real) * (0.8 + draw as real / 100.0))
  }

  /** One month of getBusinessRegistrations: 8 times the seasonal factor, 1 + 0.25 per month
      and 0.7 + draw/100, rounded. */
  function RegistrationPoint(index: nat, month: string, draw: int): int
    requires 0 <= draw <= 60
  {
    Scaled3(8.0 * SeasonalFactor(month), 1.0 + 0.25 * index as real, 0.7 + draw as real / 100.0);
    RoundHalfUp(8.0 * SeasonalFactor(month) * (1.0 + 0.25 * index as real) * (0.7 + draw as real / 100.0))
  }

  lemma Scaled3(a: real, b: real, c: real)
    requires a >= 0.0 && b >= 0.0 && c >= 0.0
    ensures a * b * c >= 0.0
  {
    assert a * b >= 0.0;
  }

  lemma MulAtLeast(a: real, b: real, x: real, y: real)
    requires 0.0 <= x <= a && 0.0 <= y <= b
    ensures x * y <= a * b
  {
    assert x * y <= a * y;
    assert a * y <= a * b;
  }

  /** No revenue point is below 8.6M: the lowest factor of Jan..Jun is 0.9, growth is at
      least 1 and the variation at least 0.8 (12 * 0.9 * 0.8 = 8.64). */
  lemma RevenueFloor(index: nat, month: string, draw: int)
    requires month in TrendMonths && 0 <= draw <= 40
    ensures RevenuePoint(index, month, draw) >= 86
  {
    var f := SeasonalFactor(month);
    var g := 1.0 + 0.15 * index as real;
    var v := 0.8 + draw as real / 100.0;
    assert f >= 0.9;
    MulAtLeast(f, g, 0.9, 1.0);
    MulAtLeast(f * g, v, 0.9, 0.8);
    assert 120.0 * f * g * v == 120.0 * (f * g * v);
  }

  /** getRevenueTrends: the six labels Jan..Jun and one rounded point per month. */
  method RevenueTrendSeries(draws: seq<int>) returns (labels: seq<string>, data: seq<int>)
    requires |draws| == |TrendMonths| && forall i :: 0 <= i < |draws| ==> 0 <= draws[i] <= 40
    ensures labels == TrendMonths && |data| == |TrendMonths|
    ensures forall i :: 0 <= i < |data| ==> data[i] == RevenuePoint(i, TrendMonths[i], draws[i]) && data[i] >= 86
  {
    labels := TrendMonths;
    data := [];
    for i := 0 to |TrendMonths|
      invariant |data| == i
      invariant forall j :: 0 <= j < i ==> data[j] == RevenuePoint(j, TrendMonths[j], draws[j]) && data[j] >= 86
    {
      RevenueFloor(i, TrendMonths[i], draws[i]);
      data := data + [RevenuePoint(i, TrendMonths[i], draws[i])];
    }
  }

  /** getBusinessRegistrations: the six labels Jan..Jun and one rounded count per month. */
  method RegistrationSeries(draws: seq<int>) returns (labels: seq<string>, data: seq<int>)
    requires |draws| == |TrendMonths| && forall i :: 0 <= i < |draws| ==> 0 <= draws[i] <= 60
    ensures labels == TrendMonths && |data| == |TrendMonths|
    ensures forall i :: 0 <= i < |data| ==> data[i] == RegistrationPoint(i, TrendMonths[i], draws[i]) && data[i] >= 0
  {
    labels := TrendMonths;
    data := [];
    for i := 0 to |TrendMonths|
      invariant |data| == i
      invariant forall j :: 0 <= j < i ==> data[j] == RegistrationPoint(j, TrendMonths[j], draws[j]) && data[j] >= 0
    {
      data := data + [RegistrationPoint(i, TrendMonths[i], draws[i])];
    }
  }

  // ---------------------------------------------------------------- real-time counts

  /** strpos's string argument: scalars convert, arrays raise a TypeError. */
  function TimestampText(v: Value): Option<string> {
    ScalarText(v)
  }

  /** The array key a value becomes: null is '', booleans are 0 and 1, integers their
      digits, strings themselves (so "1" and 1 are one key); arrays raise a TypeError. */
  function ArrayKey(v: Value): (r: Option<string>)
    ensures r.None? <==> v.List? || v.Obj?
  {
    match v
    case Null => Some("")
    case Bool(b) => Some(if b then "1" else "0")
    case Int(i) => Some(IntToString(i))
    case Str(s) => Some(s)
    case List(_) => None
    case Obj(_) => None
  }

  /** A decoded log line counts when it is truthy and its timestamp text starts with today. */
  predicate CountsToday(line: Option<Value>, today: string) {
    line.Some? && !Empty(line.value) &&
    match TimestampText(FieldOr(line.value, "timestamp", Null))
    case Some(t) => StartsWith(t, today)
    case None => false
  }

  /** A line stops the count: its timestamp is an array, or it counts and its address is. */
  predicate Breaks(line: Option<Value>, today: string) {
    line.Some? && !Empty(line.value) &&
    (TimestampText(FieldOr(line.value, "timestamp", Null)).None? ||
     (CountsToday(line, today) && ArrayKey(FieldOr(line.value, "ip_address", Null)).None?))
  }

  /** The entries of today, in log order. */
  function TodayEntries(lines: seq<Option<Value>>, today: string): (r: seq<Value>)
    ensures |r| <= |lines|
  {
    if lines == [] then []
    else
      var last := lines[|lines| - 1];
      TodayEntries(lines[..|lines| - 1], today) + (if CountsToday(last, today) then [last.value] else [])
  }

  /** The distinct addresses among the entries (those whose address is a valid key). */
  function Addresses(entries: seq<Value>): set<string> {
    if entries == [] then {}
    else
      var k := ArrayKey(FieldOr(entries[|entries| - 1], "ip_address", Null));
      Addresses(entries[..|entries| - 1]) + (if k.Some? then {k.value} else {})
  }

  datatype RealTime =
    /** No log file: every figure is a random draw (not modelled). */
    | Simulated
    | Counted(activeSessions: nat, onlineUsers: nat, pageViews: nat)
    /** An array where a string or key is needed: an uncaught TypeError. */
    | Crashed

  /** The counting in getRealTimeAnalytics over the decoded log lines (None for a line that
      does not decode); `views` is the mt_rand(2, 5) multiplier. */
  method RealTimeAnalytics(log: Option<seq<Option<Value>>>, today: string, views: nat) returns (r: RealTime)
    requires 2 <= views <= 5
    ensures log.None? <==> r == Simulated
    ensures log.Some? && (exists i :: 0 <= i < |log.value| && Breaks(log.value[i], today)) <==> r == Crashed
    ensures r.Counted? ==>
      && r.activeSessions == |TodayEntries(log.value, today)|
      && r.onlineUsers == |Addresses(TodayEntries(log.value, today))|
      && r.pageViews == r.activeSessions * views
  {
    if log.None? {
      return Simulated;
    }
    var lines := log.value;
    var todayActivities := 0;
    var uniqueUsers: set<string> := {};
    var i := 0;
    while i < |lines|
      invariant 0 <= i <= |lines|
      invariant todayActivities == |TodayEntries(lines[..i], today)|
      invariant uniqueUsers == Addresses(TodayEntries(lines[..i], today))
      invariant forall j :: 0 <= j < i ==> !Breaks(lines[j], today)
    {
      var crashed, counted, key := CountLine(lines[i], today);
      if crashed {
        return Crashed;
      }
      CountStep(lines, i, today, counted, key);
      if counted {
        todayActivities := todayActivities + 1;
        uniqueUsers := uniqueUsers + {key};
      }
      i := i + 1;
    }
    assert lines[..i] == lines;
    r := Counted(todayActivities, |uniqueUsers|, todayActivities * views);
  }

  /** One turn of the loop: whether the line stops the count, whether it is one of today's,
      and then the key its address becomes. */
  method CountLine(line: Option<Value>, today: string) returns (crashed: bool, counted: bool, key: string)
    ensures crashed <==> Breaks(line, today)
    ensures !crashed ==> (counted <==> CountsToday(line, today))
    ensures !crashed && counted ==> ArrayKey(FieldOr(line.value, "ip_address", Null)) == Some(key)
  {
    if line.Some? && !Empty(line.value) {
      var t := TimestampText(FieldOr(line.value, "timestamp", Null));
      if t.None? {
        return true, false, "";
      }
      if StartsWith(t.value, today) {
        var k := ArrayKey(FieldOr(line.value, "ip_address", Null));
        if k.None? {
          return true, false, "";
        }
        return false, true, k.value;
      }
    }
    return false, false, "";
  }

  lemma TodayEntriesStep(lines: seq<Option<Value>>, i: nat, today: string)
    requires i < |lines|
    ensures TodayEntries(lines[..i + 1], today) ==
      TodayEntries(lines[..i], today) + (if CountsToday(lines[i], today) then [lines[i].value] else [])
  {
    assert lines[..i + 1][..i] == lines[..i];
  }

  /** One more line: counted and its address added exactly when it is one of today's. */
  lemma CountStep(lines: seq<Option<Value>>, i: nat, today: string, counted: bool, key: string)
    requires i < |lines|
    requires counted <==> CountsToday(lines[i], today)
    requires counted ==> ArrayKey(FieldOr(lines[i].value, "ip_address", Null)) == Some(key)
    ensures |TodayEntries(lines[..i + 1], today)| == |TodayEntries(lines[..i], today)| + (if counted then 1 else 0)
    ensures Addresses(TodayEntries(lines[..i + 1], today)) ==
      Addresses(TodayEntries(lines[..i], today)) + (if counted then {key} else {})
  {
    var entries := TodayEntries(lines[..i], today);
    TodayEntriesStep(lines, i, today);
    if counted {
      AddressesStep(entries, lines[i].value);
      assert TodayEntries(lines[..i + 1], today) == entries + [lines[i].value];
    } else {
      assert TodayEntries(lines[..i + 1], today) == entries;
    }
  }

  lemma AddressesStep(entries: seq<Value>, e: Value)
    ensures Addresses(entries + [e]) ==
      Addresses(entries) + (if ArrayKey(FieldOr(e, "ip_address", Null)).Some? then {ArrayKey(FieldOr(e, "ip_address", Null)).value} else {})
  {
    assert (entries + [e])[..|entries|] == entries;
  }

  /** There are never more distinct addresses than entries. */
  lemma {:induction false} AddressesAtMostEntries(entries: seq<Value>)
    ensures |Addresses(entries)| <= |entries|
  {
    if entries != [] {
      AddressesAtMostEntries(entries[..|entries| - 1]);
    }
  }

  /** online_users is at most active_sessions, and is zero exactly when it is. */
  lemma OnlineAtMostActive(lines: seq<Option<Value>>, today: string)
    requires forall i :: 0 <= i < |lines| ==> !Breaks(lines[i], today)
    ensures |Addresses(TodayEntries(lines, today))| <= |TodayEntries(lines, today)|
    ensures |Addresses(TodayEntries(lines, today))| == 0 <==> |TodayEntries(lines, today)| == 0
  {
    var e := TodayEntries(lines, today);
    AddressesAtMostEntries(e);
    if e != [] {
      EntriesHaveKeys(lines, today, |e| - 1);
      AddressOfEntry(e, |e| - 1);
    }
  }

  lemma {:induction false} EntriesHaveKeys(lines: seq<Option<Value>>, today: string, k: nat)
    requires forall i :: 0 <= i < |lines| ==> !Breaks(lines[i], today)
    requires k < |TodayEntries(lines, today)|
    ensures ArrayKey(FieldOr(TodayEntries(lines, today)[k], "ip_address", Null)).Some?
  {
    var init := lines[..|lines| - 1];
    var last := lines[|lines| - 1];
    if k < |TodayEntries(init, today)| {
      EntriesHaveKeys(init, today, k);
    } else {
      assert CountsToday(last, today) && !Breaks(last, today);
    }
  }

  lemma {:induction false} AddressOfEntry(entries: seq<Value>, k: nat)
    requires k < |entries|
    requires ArrayKey(FieldOr(entries[k], "ip_address", Null)).Some?
    ensures ArrayKey(FieldOr(entries[k], "ip_address", Null)).value in Addresses(entries)
  {
    if k < |entries| - 1 {
      AddressOfEntry(entries[..|entries| - 1], k);
    }
  }

  /** A line from another day, or one that does not decode, changes neither count. */
  lemma OtherLinesIgnored(lines: seq<Option<Value>>, line: Option<Value>, today: string)
    requires !CountsToday(line, today)
    ensures TodayEntries(lines + [line], today) == TodayEntries(lines, today)
  {
    assert (lines + [line])[..|lines|] == lines;
  }
}
