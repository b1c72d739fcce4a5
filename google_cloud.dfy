/**
 * The live Gemini usage aggregation of lib/google-cloud.ts: a fold over the
 * monitoring time series that keeps three running totals and a per-UTC-day
 * table, emits the table sorted by date, and projects the month's cost.
 *
 * The monitoring client is not modelled: its answer is an input (`None` when
 * the call throws). The clock enters as the day of the month, the budget and
 * the credentials as an `Environment`.
 */
module GoogleCloud {
  import opened Wrappers
  import opened JsNumber
  import opened Types
  import opened Pricing
  import opened RealOrder

  const SecondsPerDay: int := 86400
  /** The largest |seconds| whose millisecond time value is a valid ECMAScript date (8.64e15 ms). */
  const MaxTimeSeconds: int := 8_640_000_000_000
  const DaysInMonth: int := 30

  /** A sample: an optional `doubleValue` and an optional `interval.startTime.seconds`. */
  datatype Point = Point(value: Option<real>, startSeconds: Option<int>)

  /** A series with an optional list of points. */
  datatype Series = Series(points: Option<seq<Point>>)

  /** The value test `point.value?.doubleValue`: present and not zero. */
  predicate Valued(p: Point) {
    p.value.Some? && p.value.value != 0.0
  }

  /** The start test `point.interval?.startTime?.seconds`: present and not zero. */
  predicate Dated(p: Point) {
    p.startSeconds.Some? && p.startSeconds.value != 0
  }

  /** The UTC calendar day of the interval start, as a day number. */
  function Day(p: Point): int
    requires Dated(p)
  {
    p.startSeconds.value / SecondsPerDay
  }

  /** A valued, dated point whose date `toISOString` rejects with a RangeError. */
  predicate BreaksDate(p: Point) {
    Valued(p) && Dated(p) && !(-MaxTimeSeconds <= p.startSeconds.value <= MaxTimeSeconds)
  }

  ghost predicate DatesRepresentable(ps: seq<Point>) {
    forall i :: 0 <= i < |ps| ==> !BreaksDate(ps[i])
  }

  function PointsOf(s: Series): seq<Point> {
    s.points.GetOr([])
  }

  /** All points of all series, in visiting order. */
  function Flatten(ss: seq<Series>): seq<Point>
  {
    if ss == [] then [] else Flatten(ss[..|ss| - 1]) + PointsOf(ss[|ss| - 1])
  }

  /** The running totals after visiting `ps`: every valued point counts. */
  function Totals(ps: seq<Point>): Acc
  {
    if ps == [] then Zero
    else
      var p := ps[|ps| - 1];
      if Valued(p) then Plus(Totals(ps[..|ps| - 1]), Usage(p.value.value))
      else Totals(ps[..|ps| - 1])
  }

  /** The contributions of the valued points that carry an interval start. */
  function DatedTotals(ps: seq<Point>): Acc
  {
    if ps == [] then Zero
    else
      var p := ps[|ps| - 1];
      if Valued(p) && Dated(p) then Plus(DatedTotals(ps[..|ps| - 1]), Usage(p.value.value))
      else DatedTotals(ps[..|ps| - 1])
  }

  /** The contributions of the valued points without an interval start. */
  function UndatedTotals(ps: seq<Point>): Acc
  {
    if ps == [] then Zero
    else
      var p := ps[|ps| - 1];
      if Valued(p) && !Dated(p) then Plus(UndatedTotals(ps[..|ps| - 1]), Usage(p.value.value))
      else UndatedTotals(ps[..|ps| - 1])
  }

  /** The contributions of the valued points that fall on day `d`. */
  function DayTotal(ps: seq<Point>, d: int): Acc
  {
    if ps == [] then Zero
    else
      var p := ps[|ps| - 1];
      if Valued(p) && Dated(p) && Day(p) == d then Plus(DayTotal(ps[..|ps| - 1], d), Usage(p.value.value))
      else DayTotal(ps[..|ps| - 1], d)
  }

  /** The days of the valued, dated points. */
  function DaysSeen(ps: seq<Point>): set<int>
  {
    if ps == [] then {}
    else
      var p := ps[|ps| - 1];
      if Valued(p) && Dated(p) then DaysSeen(ps[..|ps| - 1]) + {Day(p)}
      else DaysSeen(ps[..|ps| - 1])
  }

  /** The `dailyMap` after visiting `ps`: each valued, dated point is added onto its day's entry. */
  function Buckets(ps: seq<Point>): map<int, Acc>
  {
    if ps == [] then map[]
    else
      var m := Buckets(ps[..|ps| - 1]);
      var p := ps[|ps| - 1];
      if Valued(p) && Dated(p) then
        var existing := if Day(p) in m then m[Day(p)] else Zero;
        m[Day(p) := Plus(existing, Usage(p.value.value))]
      else m
  }

  /** `s` lists the entries of `m`, one per key, each equal to its key's accumulator. */
  ghost predicate IsTable(s: seq<DailyCost>, m: map<int, Acc>) {
    && DistinctDates(s)
    && (forall i :: 0 <= i < |s| ==> s[i].date in m && s[i] == Entry(s[i].date, m[s[i].date]))
    && (forall d :: d in m ==> exists i :: 0 <= i < |s| && s[i].date == d)
  }

  // ---------------------------------------------------------------------------
  // The fold, as the source runs it
  // ---------------------------------------------------------------------------

  /** `dailyCosts.sort((a, b) => a.date.localeCompare(b.date))` on rollups with distinct dates. */
  method SortByDate(a: array<DailyCost>)
    requires DistinctDates(a[..])
    modifies a
    ensures Ascending(a[..])
    ensures multiset(a[..]) == old(multiset(a[..]))
  {
    var i := 0;
    while i < a.Length
      invariant 0 <= i <= a.Length
      invariant forall p, q :: 0 <= p < q < i ==> a[p].date < a[q].date
      invariant DistinctDates(a[..])
      invariant multiset(a[..]) == old(multiset(a[..]))
    {
      var j := i;
      while 0 < j && a[j].date < a[j - 1].date
        invariant 0 <= j <= i
        invariant forall p, q :: 0 <= p < q <= i && p != j && q != j ==> a[p].date < a[q].date
        invariant forall q :: j < q <= i ==> a[j].date < a[q].date
        invariant DistinctDates(a[..])
        invariant multiset(a[..]) == old(multiset(a[..]))
      {
        SwapDown(a, j);
        j := j - 1;
      }
      i := i + 1;
    }
  }

  /** Exchanges `a[j - 1]` and `a[j]`. */
  method SwapDown(a: array<DailyCost>, j: int)
    requires 0 < j < a.Length && DistinctDates(a[..])
    modifies a
    ensures a[j - 1] == old(a[j]) && a[j] == old(a[j - 1])
    ensures forall k :: 0 <= k < a.Length && k != j - 1 && k != j ==> a[k] == old(a[k])
    ensures DistinctDates(a[..])
    ensures multiset(a[..]) == old(multiset(a[..]))
  {
    ghost var before := a[..];
    a[j - 1], a[j] := a[j], a[j - 1];
    assert a[..] == before[j - 1 := before[j]][j := before[j - 1]];
    SwapKeepsDistinct(before, j);
  }

  lemma SwapKeepsDistinct(s: seq<DailyCost>, j: int)
    requires 0 < j < |s| && DistinctDates(s)
    ensures DistinctDates(s[j - 1 := s[j]][j := s[j - 1]])
  {
    var t := s[j - 1 := s[j]][j := s[j - 1]];
    forall p, q | 0 <= p < |t| && 0 <= q < |t| && p != q
      ensures t[p].date != t[q].date
    {
      var p' := if p == j then j - 1 else if p == j - 1 then j else p;
      var q' := if q == j then j - 1 else if q == j - 1 then j else q;
      assert t[p] == s[p'] && t[q] == s[q'];
    }
  }

  /**
   * Lines 59-101 of getGeminiUsageMetrics: the outer loop over the series,
   * updating the three totals and `dailyMap`. `ok` is false when
   * `toISOString` throws for some point's date, which ends the fold. (The
   * source skips the loops for an empty list; running them on it changes nothing.)
   */
  method AccumulatePoints(timeSeries: seq<Series>)
    returns (ok: bool, totalRequests: real, totalTokens: real, totalCost: real, dailyMap: map<int, Acc>)
    ensures ok <==> DatesRepresentable(Flatten(timeSeries))
    ensures ok ==> Acc(totalCost, totalTokens, totalRequests) == Totals(Flatten(timeSeries))
    ensures ok ==> dailyMap == Buckets(Flatten(timeSeries))
  {
    ok := true;
    totalRequests, totalTokens, totalCost := 0.0, 0.0, 0.0;
    dailyMap := map[];
    var i := 0;
    while i < |timeSeries|
      invariant 0 <= i <= |timeSeries|
      invariant DatesRepresentable(Flatten(timeSeries[..i]))
      invariant Acc(totalCost, totalTokens, totalRequests) == Totals(Flatten(timeSeries[..i]))
      invariant dailyMap == Buckets(Flatten(timeSeries[..i]))
    {
      ghost var visited := Flatten(timeSeries[..i]);
      assert timeSeries[..i + 1][..i] == timeSeries[..i];
      assert Flatten(timeSeries[..i + 1]) == visited + PointsOf(timeSeries[i]);
      ok, totalRequests, totalTokens, totalCost, dailyMap :=
        AccumulateSeries(timeSeries[i], visited, totalRequests, totalTokens, totalCost, dailyMap);
      if !ok {
        FlattenPrefix(timeSeries, i + 1);
        return;
      }
      i := i + 1;
    }
    assert timeSeries[..|timeSeries|] == timeSeries;
  }

  /**
   * Lines 73-100: the inner loop over one series' points (none when
   * `series.points` is absent), continuing the fold from the points `visited`.
   */
  method AccumulateSeries(series: Series, ghost visited: seq<Point>,
                          requestsIn: real, tokensIn: real, costIn: real, mapIn: map<int, Acc>)
    returns (ok: bool, totalRequests: real, totalTokens: real, totalCost: real, dailyMap: map<int, Acc>)
    requires DatesRepresentable(visited)
    requires Acc(costIn, tokensIn, requestsIn) == Totals(visited) && mapIn == Buckets(visited)
    ensures ok <==> DatesRepresentable(visited + PointsOf(series))
    ensures ok ==> Acc(totalCost, totalTokens, totalRequests) == Totals(visited + PointsOf(series))
    ensures ok ==> dailyMap == Buckets(visited + PointsOf(series))
  {
    ok := true;
    totalRequests, totalTokens, totalCost, dailyMap := requestsIn, tokensIn, costIn, mapIn;
    if series.points.None? {
      assert visited + PointsOf(series) == visited;
      return;
    }
    var points := series.points.value;
    var j := 0;
    assert visited + points[..0] == visited;
    while j < |points|
      invariant 0 <= j <= |points|
      invariant DatesRepresentable(visited + points[..j])
      invariant Acc(totalCost, totalTokens, totalRequests) == Totals(visited + points[..j])
      invariant dailyMap == Buckets(visited + points[..j])
    {
      var point := points[j];
      ghost var done := visited + points[..j];
      assert done + [point] == visited + points[..j + 1];
      ok, totalRequests, totalTokens, totalCost, dailyMap :=
        VisitPoint(point, done, totalRequests, totalTokens, totalCost, dailyMap);
      if !ok {
        assert (visited + points)[|done|] == point;
        return;
      }
      j := j + 1;
    }
    assert points[..|points|] == points;
  }

  /**
   * Lines 75-97, the body of the inner loop: a valued point is added to the
   * totals and, when it has an interval start, to its day's entry. `ok` is
   * false when the start is too far from 1970 for `toISOString`, which throws.
   */
  method VisitPoint(point: Point, ghost done: seq<Point>,
                    requestsIn: real, tokensIn: real, costIn: real, mapIn: map<int, Acc>)
    returns (ok: bool, totalRequests: real, totalTokens: real, totalCost: real, dailyMap: map<int, Acc>)
    requires Acc(costIn, tokensIn, requestsIn) == Totals(done) && mapIn == Buckets(done)
    ensures ok <==> !BreaksDate(point)
    ensures ok ==> Acc(totalCost, totalTokens, totalRequests) == Totals(done + [point])
    ensures ok ==> dailyMap == Buckets(done + [point])
  {
    ok := true;
    totalRequests, totalTokens, totalCost, dailyMap := requestsIn, tokensIn, costIn, mapIn;
    assert (done + [point])[..|done|] == done;
    if point.value.Some? && point.value.value != 0.0 {
      var requests := point.value.value;
      totalRequests := totalRequests + requests;
      var tokens := requests * AvgTokensPerRequest;
      totalTokens := totalTokens + tokens;
      var cost := tokens / 1000.0 * CostPer1kInputTokens;
      totalCost := totalCost + cost;
      if point.startSeconds.Some? && point.startSeconds.value != 0 {
        var seconds := point.startSeconds.value;
        if !(-MaxTimeSeconds <= seconds <= MaxTimeSeconds) {
          // `new Date(seconds * 1000).toISOString()` throws a RangeError
          ok := false;
          return;
        }
        var date := seconds / SecondsPerDay;
        var existing := if date in dailyMap then dailyMap[date] else Zero;
        dailyMap := dailyMap[date := Acc(existing.cost + cost, existing.tokens + tokens, existing.requests + requests)];
      }
    }
  }

  /**
   * Lines 103-107: `dailyMap.forEach` pushes `{ date, ...value }` for every
   * entry, in whatever order the map yields them, and the array is sorted by date.
   */
  method EmitSorted(dailyMap: map<int, Acc>) returns (dailyCosts: seq<DailyCost>)
    ensures Ascending(dailyCosts) && IsTable(dailyCosts, dailyMap)
  {
    var pushed: seq<DailyCost> := [];
    var rest := dailyMap.Keys;
    while rest != {}
      invariant rest <= dailyMap.Keys
      invariant DistinctDates(pushed)
      invariant forall k :: 0 <= k < |pushed| ==>
        pushed[k].date in dailyMap && pushed[k].date !in rest && pushed[k] == Entry(pushed[k].date, dailyMap[pushed[k].date])
      invariant forall d :: d in dailyMap && d !in rest ==> exists k :: 0 <= k < |pushed| && pushed[k].date == d
      decreases rest
    {
      var date := Pick(rest);
      ghost var previous := pushed;
      pushed := pushed + [Entry(date, dailyMap[date])];
      forall d | d in dailyMap && d !in rest - {date}
        ensures exists k :: 0 <= k < |pushed| && pushed[k].date == d
      {
        if d == date {
          assert pushed[|pushed| - 1].date == d;
        } else {
          var k :| 0 <= k < |previous| && previous[k].date == d;
          assert pushed[k] == previous[k];
        }
      }
      rest := rest - {date};
    }
    var a := new DailyCost[|pushed|](k requires 0 <= k < |pushed| => pushed[k]);
    assert a[..] == pushed;
    SortByDate(a);
    dailyCosts := a[..];
    PermutedTable(pushed, dailyCosts, dailyMap);
  }

  /** Some key of a non-empty set: the order `forEach` visits keys in does not matter. */
  method Pick(keys: set<int>) returns (k: int)
    requires keys != {}
    ensures k in keys
  {
    assert exists x :: x in keys by {
      if forall x :: x !in keys {
        assert false;
      }
    }
    k :| k in keys;
  }

  lemma PermutedTable(s: seq<DailyCost>, t: seq<DailyCost>, m: map<int, Acc>)
    requires IsTable(s, m) && Ascending(t) && multiset(s) == multiset(t)
    ensures IsTable(t, m)
  {
    forall i | 0 <= i < |t|
      ensures t[i].date in m && t[i] == Entry(t[i].date, m[t[i].date])
    {
      assert t[i] in multiset(s);
      var k :| 0 <= k < |s| && s[k] == t[i];
    }
    forall d | d in m
      ensures exists i :: 0 <= i < |t| && t[i].date == d
    {
      var k :| 0 <= k < |s| && s[k].date == d;
      assert s[k] in multiset(t);
      var i :| 0 <= i < |t| && t[i] == s[k];
    }
  }

  lemma {:induction false} FlattenPrefix(ss: seq<Series>, k: nat)
    requires k <= |ss|
    ensures Flatten(ss[..k]) <= Flatten(ss)
    decreases |ss| - k
  {
    if k < |ss| {
      FlattenPrefix(ss, k + 1);
      assert ss[..k + 1][..k] == ss[..k];
    } else {
      assert ss[..k] == ss;
    }
  }

  // ---------------------------------------------------------------------------
  // Projection, result record and fallback
  // ---------------------------------------------------------------------------

  function MinInt(a: int, b: int): int {
    if a < b then a else b
  }

  predicate IsDigit(c: char) {
    '0' <= c <= '9'
  }

  /** `parseInt(s)` for a string that starts with a digit: the value of its leading digits. */
  function LeadingNumber(s: string, acc: nat): nat
  {
    if s == [] || !IsDigit(s[0]) then acc
    else LeadingNumber(s[1..], acc * 10 + (s[0] as int - '0' as int))
  }

  function ParseInt(s: string): nat {
    LeadingNumber(s, 0)
  }

  /**
   * The divisor of line 113: days elapsed this month (at most 30) for the
   * 30-day window, else the smaller of that and `parseInt(timeRange)`.
   */
  function ProjectionDays(timeRange: TimeRange, dayOfMonth: int): (n: int)
    requires 1 <= dayOfMonth <= 31
    ensures 1 <= n <= DaysInMonth
  {
    RangeNumbers();
    var daysElapsed := MinInt(dayOfMonth, DaysInMonth);
    if timeRange == Last30Days then daysElapsed
    else MinInt(daysElapsed, ParseInt(timeRange.Literal()))
  }

  /** `totalCost / divisor * 30`: the daily average over the divisor's days, extended to a 30-day month. */
  function MonthlyProjection(totalCost: real, timeRange: TimeRange, dayOfMonth: int): (r: real)
    requires 1 <= dayOfMonth <= 31
    ensures r * ProjectionDays(timeRange, dayOfMonth) as real == totalCost * 30.0
    ensures totalCost == 0.0 <==> r == 0.0
    ensures totalCost > 0.0 <==> r > 0.0
  {
    var n := ProjectionDays(timeRange, dayOfMonth) as real;
    QuotientCompare(totalCost, n, 0.0);
    totalCost / n * DaysInMonth as real
  }

  /** The divisor is never zero and never more than 30; `parseInt('24h')` is 24, not 1. */
  lemma ProjectionDaysValue(timeRange: TimeRange, dayOfMonth: int)
    requires 1 <= dayOfMonth <= 31
    ensures 1 <= ProjectionDays(timeRange, dayOfMonth) <= DaysInMonth
    ensures ProjectionDays(timeRange, dayOfMonth) ==
      MinInt(dayOfMonth, match timeRange case Last24Hours => 24 case Last7Days => 7 case Last30Days => 30)
  {
    RangeNumbers();
  }

  /** `parseInt` reads 24 from "24h" and 7 from "7d". */
  lemma RangeNumbers()
    ensures ParseInt("24h") == 24 && ParseInt("7d") == 7
  {
    assert "24h"[1..] == "4h" && "4h"[1..] == "h";
    assert LeadingNumber("h", 24) == 24;
    assert LeadingNumber("4h", 2) == LeadingNumber("h", 24);
    assert LeadingNumber("24h", 0) == LeadingNumber("4h", 2);
    assert "7d"[1..] == "d";
    assert LeadingNumber("d", 7) == 7;
    assert LeadingNumber("7d", 0) == LeadingNumber("d", 7);
  }

  /** The deployment inputs: the two credential fields (`""` when unset or falsy) and the budget. */
  datatype Environment = Environment(projectId: string, credentialsProjectId: string, monthlyBudget: real)

  predicate Configured(env: Environment) {
    env.projectId != "" && env.credentialsProjectId != ""
  }

  /** The summary the catch block returns. */
  function Fallback(budget: real): GeminiUsageMetrics {
    GeminiUsageMetrics(0.0, 0, 0, 0.0, [], false, budget)
  }

  /** What a successful run reports for the points `ps`. */
  ghost predicate ReportsUsage(m: GeminiUsageMetrics, timeRange: TimeRange, ps: seq<Point>, dayOfMonth: int, budget: real)
    requires 1 <= dayOfMonth <= 31
  {
    var t := Totals(ps);
    && m.totalCost == t.cost
    && m.apiRequests == Round(t.requests)
    && m.totalTokens == Round(t.tokens)
    && m.monthlyProjection == MonthlyProjection(t.cost, timeRange, dayOfMonth)
    && Ascending(m.dailyCosts) && IsTable(m.dailyCosts, Buckets(ps))
    && m.isOverBudget == (m.monthlyProjection > budget)
    && m.budgetLimit == budget
  }

  /**
   * getGeminiUsageMetrics: `response` is the monitoring client's answer,
   * `None` when the call throws. Any thrown error, including a missing
   * credential, ends in the zeroed fallback with the configured budget.
   */
  method GetGeminiUsageMetrics(timeRange: TimeRange, env: Environment, response: Option<seq<Series>>, dayOfMonth: int)
    returns (m: GeminiUsageMetrics)
    requires 1 <= dayOfMonth <= 31
    ensures !Configured(env) || response.None? || !DatesRepresentable(Flatten(response.value)) ==>
      m == Fallback(env.monthlyBudget)
    ensures Configured(env) && response.Some? && DatesRepresentable(Flatten(response.value)) ==>
      ReportsUsage(m, timeRange, Flatten(response.value), dayOfMonth, env.monthlyBudget)
  {
    var monthlyBudget := env.monthlyBudget;
    if !Configured(env) || response.None? {
      return Fallback(monthlyBudget);
    }
    var timeSeries := response.value;
    var ok, totalRequests, totalTokens, totalCost, dailyMap := AccumulatePoints(timeSeries);
    if !ok {
      return Fallback(monthlyBudget);
    }
    var dailyCosts := EmitSorted(dailyMap);
    ProjectionDaysValue(timeRange, dayOfMonth);
    var daysElapsed := MinInt(dayOfMonth, DaysInMonth);
    var divisor := if timeRange == Last30Days then daysElapsed else MinInt(daysElapsed, ParseInt(timeRange.Literal()));
    var dailyAverage := totalCost / divisor as real;
    var monthlyProjection := dailyAverage * DaysInMonth as real;
    m := GeminiUsageMetrics(
      totalCost, Round(totalRequests), Round(totalTokens), monthlyProjection,
      dailyCosts, monthlyProjection > monthlyBudget, monthlyBudget);
  }

  // ---------------------------------------------------------------------------
  // Properties of the fold
  // ---------------------------------------------------------------------------

  /** Every accumulator is derived from its request count by the pricing formulas. */
  lemma {:induction false} TotalsDerived(ps: seq<Point>)
    ensures Derived(Totals(ps)) && Derived(DatedTotals(ps)) && Derived(UndatedTotals(ps))
  {
    if ps != [] {
      var q := ps[..|ps| - 1];
      var p := ps[|ps| - 1];
      TotalsDerived(q);
      if Valued(p) {
        PlusKeepsDerived(Totals(q), Usage(p.value.value));
        PlusKeepsDerived(DatedTotals(q), Usage(p.value.value));
        PlusKeepsDerived(UndatedTotals(q), Usage(p.value.value));
      }
    }
  }

  /** Every valued point lands in exactly one of the dated and undated totals. */
  lemma {:induction false} TotalsSplit(ps: seq<Point>)
    ensures Totals(ps) == Plus(DatedTotals(ps), UndatedTotals(ps))
  {
    if ps != [] {
      TotalsSplit(ps[..|ps| - 1]);
    }
  }

  /** With every valued point dated, the undated share is zero. */
  lemma {:induction false} AllDatedNoUndated(ps: seq<Point>)
    requires forall i :: 0 <= i < |ps| && Valued(ps[i]) ==> Dated(ps[i])
    ensures UndatedTotals(ps) == Zero
  {
    if ps != [] {
      AllDatedNoUndated(ps[..|ps| - 1]);
    }
  }

  /** The bucket keys are the days seen, and each bucket is that day's total. */
  lemma {:induction false} BucketsAreDayTotals(ps: seq<Point>)
    ensures Buckets(ps).Keys == DaysSeen(ps)
    ensures forall d :: d in Buckets(ps) ==> Buckets(ps)[d] == DayTotal(ps, d)
  {
    if ps != [] {
      BucketsAreDayTotals(ps[..|ps| - 1]);
      var p := ps[|ps| - 1];
      if Valued(p) && Dated(p) && Day(p) !in DaysSeen(ps[..|ps| - 1]) {
        DayTotalOfUnseen(ps[..|ps| - 1], Day(p));
      }
    }
  }

  lemma {:induction false} DayTotalOfUnseen(ps: seq<Point>, d: int)
    requires d !in DaysSeen(ps)
    ensures DayTotal(ps, d) == Zero
  {
    if ps != [] {
      DayTotalOfUnseen(ps[..|ps| - 1], d);
    }
  }

  /** A day is seen exactly when some valued point with an interval start falls on it. */
  lemma {:induction false} DaysSeenMeaning(ps: seq<Point>, d: int)
    ensures d in DaysSeen(ps) <==> exists i :: 0 <= i < |ps| && Valued(ps[i]) && Dated(ps[i]) && Day(ps[i]) == d
  {
    if ps != [] {
      var q := ps[..|ps| - 1];
      DaysSeenMeaning(q, d);
      if d in DaysSeen(q) {
        var i :| 0 <= i < |q| && Valued(q[i]) && Dated(q[i]) && Day(q[i]) == d;
        assert ps[i] == q[i];
      }
      if exists i :: 0 <= i < |ps| && Valued(ps[i]) && Dated(ps[i]) && Day(ps[i]) == d {
        var i :| 0 <= i < |ps| && Valued(ps[i]) && Dated(ps[i]) && Day(ps[i]) == d;
        if i < |q| {
          assert q[i] == ps[i];
        }
      }
    }
  }

  /** The per-day totals summed over a list of days. */
  function SumDays(ps: seq<Point>, days: seq<int>): Acc
  {
    if days == [] then Zero else Plus(SumDays(ps, days[..|days| - 1]), DayTotal(ps, days[|days| - 1]))
  }

  ghost predicate DistinctInts(days: seq<int>) {
    forall i, j :: 0 <= i < j < |days| ==> days[i] != days[j]
  }

  lemma {:induction false} SumDaysOfNothing(days: seq<int>)
    ensures SumDays([], days) == Zero
  {
    if days != [] {
      SumDaysOfNothing(days[..|days| - 1]);
    }
  }

  /** Appending a point adds its contribution once, to the one listed day it falls on. */
  lemma {:induction false} SumDaysStep(q: seq<Point>, p: Point, days: seq<int>)
    requires DistinctInts(days)
    ensures SumDays(q + [p], days) ==
      Plus(SumDays(q, days), if Valued(p) && Dated(p) && Day(p) in days then Usage(p.value.value) else Zero)
  {
    assert (q + [p])[..|q|] == q;
    if days != [] {
      var front := days[..|days| - 1];
      assert DistinctInts(front);
      SumDaysStep(q, p, front);
      if Valued(p) && Dated(p) {
        if Day(p) == days[|days| - 1] {
          assert Day(p) !in front;
        }
        assert Day(p) in days <==> (Day(p) in front || Day(p) == days[|days| - 1]) by {
          assert days == front + [days[|days| - 1]];
        }
      }
    }
  }

  /** Per-day totals over distinct days covering all days seen add up to the dated totals. */
  lemma {:induction false} PartitionSum(ps: seq<Point>, days: seq<int>)
    requires DistinctInts(days)
    requires forall d :: d in DaysSeen(ps) ==> d in days
    ensures SumDays(ps, days) == DatedTotals(ps)
  {
    if ps == [] {
      SumDaysOfNothing(days);
    } else {
      var q := ps[..|ps| - 1];
      var p := ps[|ps| - 1];
      assert ps == q + [p];
      assert DaysSeen(q) <= DaysSeen(ps);
      PartitionSum(q, days);
      SumDaysStep(q, p, days);
      if Valued(p) && Dated(p) {
        assert Day(p) in DaysSeen(ps);
        assert DatedTotals(ps) == Plus(DatedTotals(q), Usage(p.value.value));
      } else {
        assert DatedTotals(ps) == DatedTotals(q);
      }
    }
  }

  function Dates(s: seq<DailyCost>): (days: seq<int>)
    ensures |days| == |s| && forall i :: 0 <= i < |s| ==> days[i] == s[i].date
  {
    if s == [] then [] else Dates(s[..|s| - 1]) + [s[|s| - 1].date]
  }

  lemma {:induction false} SumEntriesAsDays(s: seq<DailyCost>, ps: seq<Point>)
    requires forall i :: 0 <= i < |s| ==> AccOf(s[i]) == DayTotal(ps, s[i].date)
    ensures SumEntries(s) == SumDays(ps, Dates(s))
  {
    if s != [] {
      var front := s[..|s| - 1];
      SumEntriesAsDays(front, ps);
      assert Dates(s)[..|s| - 1] == Dates(front);
    }
  }

  /**
   * Conservation: the daily rollups add up to the contributions of the
   * valued points that carry an interval start.
   */
  lemma TableSum(s: seq<DailyCost>, ps: seq<Point>)
    requires IsTable(s, Buckets(ps))
    ensures SumEntries(s) == DatedTotals(ps)
  {
    BucketsAreDayTotals(ps);
    var m := Buckets(ps);
    forall i | 0 <= i < |s|
      ensures AccOf(s[i]) == DayTotal(ps, s[i].date)
    {
      assert s[i] == Entry(s[i].date, m[s[i].date]);
    }
    SumEntriesAsDays(s, ps);
    var days := Dates(s);
    forall d | d in DaysSeen(ps)
      ensures d in days
    {
      assert d in m;
      var i :| 0 <= i < |s| && s[i].date == d;
      assert days[i] == d;
    }
    PartitionSum(ps, days);
  }

  /**
   * A successful report: the daily rollups add up to the totals minus the
   * points without an interval start, and exactly to the totals when every
   * valued point has one; every rollup obeys the pricing formulas.
   */
  lemma ReportConservation(m: GeminiUsageMetrics, timeRange: TimeRange, ps: seq<Point>, dayOfMonth: int, budget: real)
    requires 1 <= dayOfMonth <= 31
    requires ReportsUsage(m, timeRange, ps, dayOfMonth, budget)
    ensures Totals(ps) == Plus(SumEntries(m.dailyCosts), UndatedTotals(ps))
    ensures (forall i :: 0 <= i < |ps| && Valued(ps[i]) ==> Dated(ps[i])) ==>
      SumEntries(m.dailyCosts) == Totals(ps)
    ensures forall i :: 0 <= i < |m.dailyCosts| ==> Derived(AccOf(m.dailyCosts[i]))
  {
    assert IsTable(m.dailyCosts, Buckets(ps));
    TableConservation(m.dailyCosts, ps);
  }

  lemma TableConservation(s: seq<DailyCost>, ps: seq<Point>)
    requires IsTable(s, Buckets(ps))
    ensures Totals(ps) == Plus(SumEntries(s), UndatedTotals(ps))
    ensures (forall i :: 0 <= i < |ps| && Valued(ps[i]) ==> Dated(ps[i])) ==> SumEntries(s) == Totals(ps)
    ensures forall i :: 0 <= i < |s| ==> Derived(AccOf(s[i]))
  {
    TableSum(s, ps);
    TotalsSplit(ps);
    if forall i :: 0 <= i < |ps| && Valued(ps[i]) ==> Dated(ps[i]) {
      AllDatedNoUndated(ps);
    }
    TableDerived(s, ps);
  }

  lemma TableDerived(s: seq<DailyCost>, ps: seq<Point>)
    requires IsTable(s, Buckets(ps))
    ensures forall i :: 0 <= i < |s| ==> Derived(AccOf(s[i]))
  {
    BucketsAreDayTotals(ps);
    forall i | 0 <= i < |s|
      ensures Derived(AccOf(s[i]))
    {
      DayTotalDerived(ps, s[i].date);
    }
  }

  lemma {:induction false} DayTotalDerived(ps: seq<Point>, d: int)
    ensures Derived(DayTotal(ps, d))
  {
    if ps != [] {
      DayTotalDerived(ps[..|ps| - 1], d);
      var p := ps[|ps| - 1];
      if Valued(p) && Dated(p) && Day(p) == d {
        PlusKeepsDerived(DayTotal(ps[..|ps| - 1], d), Usage(p.value.value));
      }
    }
  }

  /** The reported totals obey the pricing formulas too. */
  lemma ReportDerived(m: GeminiUsageMetrics, timeRange: TimeRange, ps: seq<Point>, dayOfMonth: int, budget: real)
    requires 1 <= dayOfMonth <= 31
    requires ReportsUsage(m, timeRange, ps, dayOfMonth, budget)
    ensures m.totalCost == Cost(Tokens(Totals(ps).requests))
    ensures m.apiRequests == Round(Totals(ps).requests) && m.totalTokens == Round(Tokens(Totals(ps).requests))
  {
    TotalsDerived(ps);
  }

  /** With no series at all: no rollups, zero totals, zero projection. */
  lemma NoSeriesReport(m: GeminiUsageMetrics, timeRange: TimeRange, dayOfMonth: int, budget: real)
    requires 1 <= dayOfMonth <= 31
    requires ReportsUsage(m, timeRange, Flatten([]), dayOfMonth, budget)
    ensures m.dailyCosts == []
    ensures m.totalCost == 0.0 && m.apiRequests == 0 && m.totalTokens == 0 && m.monthlyProjection == 0.0
    ensures m.isOverBudget <==> budget < 0.0
  {
    assert Flatten([]) == [] && Buckets([]) == map[];
    EmptyTable(m.dailyCosts, Buckets([]));
  }

  /** A point without a (non-zero) value changes neither the totals nor any bucket, wherever it sits. */
  lemma {:induction false} InertPoint(before: seq<Point>, p: Point, after: seq<Point>)
    requires !Valued(p)
    ensures Totals(before + [p] + after) == Totals(before + after)
    ensures Buckets(before + [p] + after) == Buckets(before + after)
  {
    if after == [] {
      assert before + [p] + after == before + [p];
      assert (before + [p])[..|before|] == before;
      assert before + after == before;
    } else {
      var last := after[|after| - 1];
      var front := after[..|after| - 1];
      InertPoint(before, p, front);
      assert before + [p] + after == (before + [p] + front) + [last];
      assert before + after == (before + front) + [last];
      assert (before + [p] + front + [last])[..|before + [p] + front|] == before + [p] + front;
      assert (before + front + [last])[..|before + front|] == before + front;
    }
  }

  /**
   * One valued, dated point adds its contribution to its day's entry,
   * creating it when absent, and leaves every other day's entry alone.
   */
  lemma BucketsStep(q: seq<Point>, p: Point)
    requires Valued(p) && Dated(p)
    ensures Buckets(q + [p]).Keys == Buckets(q).Keys + {Day(p)}
    ensures Buckets(q + [p])[Day(p)] ==
      Plus(if Day(p) in Buckets(q) then Buckets(q)[Day(p)] else Zero, Usage(p.value.value))
    ensures forall d :: d in Buckets(q) && d != Day(p) ==> Buckets(q + [p])[d] == Buckets(q)[d]
  {
    assert (q + [p])[..|q|] == q;
  }

  /** A table is empty exactly when its map is. */
  lemma EmptyTable(s: seq<DailyCost>, m: map<int, Acc>)
    requires IsTable(s, m)
    ensures s == [] <==> m == map[]
  {
    if s != [] {
      assert s[0].date in m;
    }
    if m != map[] {
      assert exists d :: d in m by {
        if forall d :: d !in m {
          assert false;
        }
      }
      var d :| d in m;
      var i :| 0 <= i < |s| && s[i].date == d;
    }
  }

  /** The first entry of an ascending table carries the smallest key. */
  lemma TableHead(s: seq<DailyCost>, m: map<int, Acc>)
    requires Ascending(s) && IsTable(s, m) && s != []
    ensures forall d :: d in m ==> s[0].date <= d
  {
    forall d | d in m
      ensures s[0].date <= d
    {
      var i :| 0 <= i < |s| && s[i].date == d;
    }
  }

  /** Dropping the first entry leaves the table of the other keys. */
  lemma TableTail(s: seq<DailyCost>, m: map<int, Acc>)
    requires Ascending(s) && IsTable(s, m) && s != []
    ensures Ascending(s[1..]) && IsTable(s[1..], m - {s[0].date})
  {
    TailEntries(s, m);
    TailCovers(s, m);
  }

  lemma TailEntries(s: seq<DailyCost>, m: map<int, Acc>)
    requires Ascending(s) && IsTable(s, m) && s != []
    ensures forall i :: 0 <= i < |s[1..]| ==>
      s[1..][i].date in m - {s[0].date} && s[1..][i] == Entry(s[1..][i].date, (m - {s[0].date})[s[1..][i].date])
  {
    var t := s[1..];
    forall i | 0 <= i < |t|
      ensures t[i].date in m - {s[0].date} && t[i] == Entry(t[i].date, (m - {s[0].date})[t[i].date])
    {
      assert t[i] == s[i + 1];
      assert s[0].date < s[i + 1].date;
    }
  }

  lemma TailCovers(s: seq<DailyCost>, m: map<int, Acc>)
    requires IsTable(s, m) && s != []
    ensures forall d :: d in m - {s[0].date} ==> exists i :: 0 <= i < |s[1..]| && s[1..][i].date == d
  {
    var t := s[1..];
    forall e | e in m - {s[0].date}
      ensures exists i :: 0 <= i < |t| && t[i].date == e
    {
      var i :| 0 <= i < |s| && s[i].date == e;
      assert t[i - 1].date == e;
    }
  }

  /** Two ascending tables of one map start with the same entry: the smallest key's. */
  lemma TableHeadsAgree(s: seq<DailyCost>, t: seq<DailyCost>, m: map<int, Acc>)
    requires Ascending(s) && IsTable(s, m) && s != []
    requires Ascending(t) && IsTable(t, m) && t != []
    ensures s[0] == t[0]
  {
    TableHead(s, m);
    TableHead(t, m);
    assert s[0].date in m && t[0].date in m;
    assert s[0].date == t[0].date;
    assert s[0] == Entry(s[0].date, m[s[0].date]);
    assert t[0] == Entry(t[0].date, m[t[0].date]);
  }

  /** The ascending table of a map is unique: the sorted `dailyCosts` is determined by the buckets. */
  lemma {:induction false} TableUnique(s: seq<DailyCost>, t: seq<DailyCost>, m: map<int, Acc>)
    requires Ascending(s) && IsTable(s, m)
    requires Ascending(t) && IsTable(t, m)
    ensures s == t
    decreases |s|
  {
    EmptyTable(s, m);
    EmptyTable(t, m);
    if s != [] {
      TableHeadsAgree(s, t, m);
      TableTail(s, m);
      TableTail(t, m);
      TableUnique(s[1..], t[1..], m - {s[0].date});
      assert s == [s[0]] + s[1..];
      assert t == [t[0]] + t[1..];
    }
  }
}
