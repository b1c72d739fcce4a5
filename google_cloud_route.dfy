/**
 * The Google Cloud usage HTTP handler (app/api/google-cloud/usage/route.ts):
 * it validates the `timeRange` query parameter and answers with a synthetic
 * summary, one entry per day of the window.
 *
 * `Math.random()` is replaced by the `variations` input (each the value of
 * `0.5 + Math.random()`), the current date by the UTC day number `today`.
 */
module GoogleCloudRoute {
  import opened Wrappers
  import opened JsNumber
  import opened Types
  import opened Pricing
  import opened RealOrder

  const MonthlyBudget: real := 100.0
  const InvalidRangeMessage: string := "Invalid timeRange. Must be 24h, 7d, or 30d"

  /** The number of days the window spans. */
  function Days(timeRange: TimeRange): nat {
    match timeRange
    case Last24Hours => 1
    case Last7Days => 7
    case Last30Days => 30
  }

  /** The base daily request count the random factor scales. */
  function BaseRequests(timeRange: TimeRange): int {
    match timeRange
    case Last24Hours => 120
    case Last7Days => 150
    case Last30Days => 180
  }

  /** A synthetic day: its requests are the base count scaled and rounded, its tokens and cost priced from them. */
  ghost predicate MockEntry(e: DailyCost, date: int, base: int, variation: real) {
    && e.date == date
    && e.requests == Round(base as real * variation) as real
    && e.tokens == Tokens(e.requests)
    && e.cost == Cost(e.tokens)
  }

  /**
   * What `generateMockData` returns: one entry per day of the window, the
   * k-th for day `today - (days - 1) + k`; totals summing the entries;
   * the total cost rounded to 4 decimals and the projection to 2, while the
   * budget flag compares the unrounded projection with 100.
   */
  ghost predicate IsMockReport(m: GeminiUsageMetrics, timeRange: TimeRange, today: int, variations: seq<real>)
    requires |variations| >= Days(timeRange)
  {
    var days := Days(timeRange);
    var sum := SumEntries(m.dailyCosts);
    var projection := sum.cost / days as real * 30.0;
    && |m.dailyCosts| == days
    && (forall k :: 0 <= k < days ==>
          MockEntry(m.dailyCosts[k], today - (days - 1) + k, BaseRequests(timeRange), variations[k]))
    && m.apiRequests as real == sum.requests
    && m.totalTokens as real == sum.tokens
    && m.totalCost == ToFixed(sum.cost, 4)
    && m.monthlyProjection == ToFixed(projection, 2)
    && m.isOverBudget == (projection > MonthlyBudget)
    && m.budgetLimit == MonthlyBudget
  }

  /** `variations[k]` is the k-th draw of `0.5 + Math.random()`. */
  ghost predicate Draws(variations: seq<real>) {
    forall k :: 0 <= k < |variations| ==> 0.5 <= variations[k] < 1.5
  }

  /** The day the loop body builds is a `MockEntry`: `toFixed(6)` keeps its cost exactly. */
  lemma PricedDay(base: int, variation: real)
    requires base >= 0 && variation >= 0.5
    ensures var requests := Round(base as real * variation);
      var tokens := requests * 1500;
      var cost := (tokens as real / 1000.0) * 0.00025;
      && requests >= 0
      && Round(tokens as real) == tokens && Round(requests as real) == requests
      && tokens as real == Tokens(requests as real)
      && cost == Cost(tokens as real)
      && ToFixed(cost, 6) == cost
  {
    var requests := Round(base as real * variation);
    var tokens := requests * 1500;
    var cost := (tokens as real / 1000.0) * 0.00025;
    assert requests >= 0;
    assert cost == (requests * 375) as real / 1000000.0;
    ToFixedSixOfMicros(requests * 375);
    RoundOfInteger(tokens);
    RoundOfInteger(requests);
  }

  lemma MockAppend(s: seq<DailyCost>, e: DailyCost, start: int, base: int, variations: seq<real>)
    requires |s| < |variations|
    requires forall k :: 0 <= k < |s| ==> MockEntry(s[k], start + k, base, variations[k])
    requires MockEntry(e, start + |s|, base, variations[|s|])
    ensures forall k :: 0 <= k < |s + [e]| ==> MockEntry((s + [e])[k], start + k, base, variations[k])
  {
  }

  lemma SumAppend(s: seq<DailyCost>, e: DailyCost)
    ensures SumEntries(s + [e]) == Plus(SumEntries(s), AccOf(e))
  {
    assert (s + [e])[..|s|] == s;
  }

  /** generateMockData: a counting-down loop that pushes one entry per day and sums the totals. */
  method GenerateMockData(timeRange: TimeRange, today: int, variations: seq<real>) returns (m: GeminiUsageMetrics)
    requires |variations| >= Days(timeRange) && Draws(variations)
    ensures IsMockReport(m, timeRange, today, variations)
  {
    var dailyCosts: seq<DailyCost> := [];
    var days := Days(timeRange);
    var totalCost := 0.0;
    var totalRequests := 0;
    var totalTokens := 0;
    var i: int := days - 1;
    while i >= 0
      invariant -1 <= i < days
      invariant |dailyCosts| == days - 1 - i
      invariant forall k :: 0 <= k < |dailyCosts| ==>
        MockEntry(dailyCosts[k], today - (days - 1) + k, BaseRequests(timeRange), variations[k])
      invariant totalCost == SumEntries(dailyCosts).cost
      invariant totalRequests as real == SumEntries(dailyCosts).requests
      invariant totalTokens as real == SumEntries(dailyCosts).tokens
    {
      var entry, requests, tokens, cost := MockDay(today - i, BaseRequests(timeRange), variations[days - 1 - i]);
      totalCost := totalCost + cost;
      totalRequests := totalRequests + requests;
      totalTokens := totalTokens + tokens;
      MockAppend(dailyCosts, entry, today - (days - 1), BaseRequests(timeRange), variations);
      SumAppend(dailyCosts, entry);
      dailyCosts := dailyCosts + [entry];
      i := i - 1;
    }
    var monthlyBudget := 100.0;
    var dailyAverage := totalCost / days as real;
    var monthlyProjection := dailyAverage * 30.0;
    m := GeminiUsageMetrics(
      ToFixed(totalCost, 4), Round(totalRequests as real), Round(totalTokens as real),
      ToFixed(monthlyProjection, 2), dailyCosts, monthlyProjection > monthlyBudget, monthlyBudget);
    MockSummary(m, timeRange, today, variations, totalCost, totalRequests, totalTokens);
  }

  /**
   * The loop body's pricing of one day: `Math.round(base * variation)`
   * requests, 1500 tokens each, and their cost; the pushed entry keeps the cost
   * to six decimals and the rounded counts.
   */
  method MockDay(date: int, baseRequests: int, variation: real)
    returns (entry: DailyCost, requests: int, tokens: int, cost: real)
    requires baseRequests >= 0 && variation >= 0.5
    ensures MockEntry(entry, date, baseRequests, variation)
    ensures AccOf(entry) == Acc(cost, tokens as real, requests as real)
  {
    requests := Round(baseRequests as real * variation);
    tokens := requests * 1500;
    cost := (tokens as real / 1000.0) * 0.00025;
    entry := DailyCost(date, ToFixed(cost, 6), Round(tokens as real) as real, Round(requests as real) as real);
    PricedDay(baseRequests, variation);
  }

  /** The record the generator builds from its loop's totals is the summary `IsMockReport` describes. */
  lemma MockSummary(m: GeminiUsageMetrics, timeRange: TimeRange, today: int, variations: seq<real>,
                    totalCost: real, totalRequests: int, totalTokens: int)
    requires |variations| >= Days(timeRange)
    requires |m.dailyCosts| == Days(timeRange)
    requires forall k :: 0 <= k < |m.dailyCosts| ==>
      MockEntry(m.dailyCosts[k], today - (Days(timeRange) - 1) + k, BaseRequests(timeRange), variations[k])
    requires totalCost == SumEntries(m.dailyCosts).cost
    requires totalRequests as real == SumEntries(m.dailyCosts).requests
    requires totalTokens as real == SumEntries(m.dailyCosts).tokens
    requires var projection := totalCost / Days(timeRange) as real * 30.0;
      m == GeminiUsageMetrics(
        ToFixed(totalCost, 4), Round(totalRequests as real), Round(totalTokens as real),
        ToFixed(projection, 2), m.dailyCosts, projection > 100.0, 100.0)
    ensures IsMockReport(m, timeRange, today, variations)
  {
    RoundOfInteger(totalRequests);
    RoundOfInteger(totalTokens);
  }

  /** `searchParams.get('timeRange') || '7d'`: an absent or empty parameter means "7d". */
  function RequestedRange(param: Option<string>): (r: string)
    ensures r != ""
    ensures param.Some? && param.value != "" ==> r == param.value
    ensures param.None? || param.value == "" ==> r == "7d"
  {
    if param.None? || param.value == "" then "7d" else param.value
  }

  /** The membership test `['24h', '7d', '30d'].includes(timeRange)`. */
  function ParseTimeRange(s: string): (r: Option<TimeRange>)
    ensures r.Some? <==> (s == "24h" || s == "7d" || s == "30d")
    ensures r.Some? ==> r.value.Literal() == s
  {
    if s == "24h" then Some(Last24Hours)
    else if s == "7d" then Some(Last7Days)
    else if s == "30d" then Some(Last30Days)
    else None
  }

  lemma ParseLiteral(timeRange: TimeRange)
    ensures ParseTimeRange(timeRange.Literal()) == Some(timeRange)
  {
  }

  /** With no parameter the handler reports the 7-day window. */
  lemma DefaultRange(param: Option<string>)
    requires param.None? || param == Some("")
    ensures ParseTimeRange(RequestedRange(param)) == Some(Last7Days)
  {
  }

  /** The GET handler: 400 for a window outside the three, otherwise 200 with the synthetic summary. */
  method Get(timeRangeParam: Option<string>, today: int, variations: seq<real>)
    returns (status: int, body: UsageResponse<GeminiUsageMetrics>)
    requires |variations| >= 30 && Draws(variations)
    ensures ParseTimeRange(RequestedRange(timeRangeParam)).None? ==>
      status == 400 && body == UsageResponse(false, None, Some(InvalidRangeMessage))
    ensures ParseTimeRange(RequestedRange(timeRangeParam)).Some? ==>
      && status == 200 && body.success && body.error.None? && body.data.Some?
      && IsMockReport(body.data.value, ParseTimeRange(RequestedRange(timeRangeParam)).value, today, variations)
  {
    var timeRange := RequestedRange(timeRangeParam);
    var parsed := ParseTimeRange(timeRange);
    if parsed.None? {
      return 400, UsageResponse(false, None, Some(InvalidRangeMessage));
    }
    var metrics := GenerateMockData(parsed.value, today, variations);
    return 200, UsageResponse(true, Some(metrics), None);
  }

  // ---------------------------------------------------------------------------
  // Properties of the synthetic summary
  // ---------------------------------------------------------------------------

  /** The entries run from `today - (days - 1)` to `today`, one per day, ascending. */
  lemma MockDates(m: GeminiUsageMetrics, timeRange: TimeRange, today: int, variations: seq<real>)
    requires |variations| >= Days(timeRange)
    requires IsMockReport(m, timeRange, today, variations)
    ensures Ascending(m.dailyCosts)
    ensures m.dailyCosts[0].date == today - (Days(timeRange) - 1)
    ensures m.dailyCosts[|m.dailyCosts| - 1].date == today
  {
  }

  /** The reported totals obey the pricing formulas: 1500 tokens per request, before the cost is rounded. */
  lemma MockTotalsPriced(m: GeminiUsageMetrics, timeRange: TimeRange, today: int, variations: seq<real>)
    requires |variations| >= Days(timeRange)
    requires IsMockReport(m, timeRange, today, variations)
    ensures m.totalTokens == m.apiRequests * 1500
    ensures SumEntries(m.dailyCosts).cost == Cost(Tokens(m.apiRequests as real))
  {
    var s := m.dailyCosts;
    forall i | 0 <= i < |s|
      ensures Derived(AccOf(s[i]))
    {
    }
    SumEntriesDerived(s);
  }

  /** Each day's requests are an integer between half and one and a half times the base count. */
  lemma MockRequestsInRange(m: GeminiUsageMetrics, timeRange: TimeRange, today: int, variations: seq<real>, k: int)
    requires |variations| >= Days(timeRange) && Draws(variations)
    requires IsMockReport(m, timeRange, today, variations)
    requires 0 <= k < |m.dailyCosts|
    ensures var r := m.dailyCosts[k].requests;
      && r == r.Floor as real
      && BaseRequests(timeRange) as real / 2.0 <= r <= 3.0 * BaseRequests(timeRange) as real / 2.0
      && m.dailyCosts[k].tokens == r * 1500.0
  {
    var base := BaseRequests(timeRange);
    var e := m.dailyCosts[k];
    assert MockEntry(e, today - (Days(timeRange) - 1) + k, base, variations[k]);
    var n := Round(base as real * variations[k]);
    assert e.requests == n as real && e.tokens == e.requests * 1500.0;
    var h := base / 2;
    assert base == 2 * h;
    RoundedDraw(h, variations[k]);
    assert h <= n <= 3 * h;
  }

  /** Rounding an even base scaled by a draw in [0.5, 1.5) lands in [base/2, 3 base/2]. */
  lemma RoundedDraw(h: nat, v: real)
    requires 0.5 <= v < 1.5
    ensures h <= Round((2 * h) as real * v) <= 3 * h
  {
    var b := (2 * h) as real;
    if h > 0 {
      MulLeq(0.5, v, b);
      MulLess(v, 1.5, b);
    }
    assert h as real <= b * v <= 3.0 * h as real;
  }

  lemma {:induction false} SumCostBound(s: seq<DailyCost>, c: real)
    requires forall i :: 0 <= i < |s| ==> s[i].cost <= c
    ensures SumEntries(s).cost <= |s| as real * c
  {
    if s != [] {
      SumCostBound(s[..|s| - 1], c);
    }
  }

  lemma {:induction false} SumCostNonNegative(s: seq<DailyCost>)
    requires forall i :: 0 <= i < |s| ==> s[i].cost >= 0.0
    ensures SumEntries(s).cost >= 0.0
  {
    if s != [] {
      SumCostNonNegative(s[..|s| - 1]);
    }
  }

  /** Each synthetic day costs between nothing and 270 requests' worth, $0.10125. */
  lemma MockCostsBounded(m: GeminiUsageMetrics, timeRange: TimeRange, today: int, variations: seq<real>)
    requires |variations| >= Days(timeRange) && Draws(variations)
    requires IsMockReport(m, timeRange, today, variations)
    ensures forall i :: 0 <= i < |m.dailyCosts| ==> 0.0 <= m.dailyCosts[i].cost <= 0.10125
  {
    var s := m.dailyCosts;
    forall i | 0 <= i < |s|
      ensures 0.0 <= s[i].cost <= 0.10125
    {
      MockRequestsInRange(m, timeRange, today, variations, i);
      CostPerRequest(s[i].requests);
    }
  }

  /** A synthetic month never projects beyond $3.04, so the synthetic summary is never over budget. */
  lemma MockNeverOverBudget(m: GeminiUsageMetrics, timeRange: TimeRange, today: int, variations: seq<real>)
    requires |variations| >= Days(timeRange) && Draws(variations)
    requires IsMockReport(m, timeRange, today, variations)
    ensures 0.0 <= SumEntries(m.dailyCosts).cost / Days(timeRange) as real * 30.0 <= 3.0375
    ensures !m.isOverBudget
  {
    var s := m.dailyCosts;
    MockCostsBounded(m, timeRange, today, variations);
    SumCostBound(s, 0.10125);
    SumCostNonNegative(s);
    ProjectionBound(SumEntries(s).cost, Days(timeRange) as real);
  }

  /** A window's cost of at most $0.10125 a day projects to at most $3.0375 a month. */
  lemma ProjectionBound(x: real, n: real)
    requires n >= 1.0 && 0.0 <= x <= n * 0.10125
    ensures 0.0 <= x / n * 30.0 <= 3.0375
  {
    QuotientCompare(x, n, 0.10125);
    QuotientCompare(x, n, 0.0);
    var q := x / n;
    assert 0.0 <= q <= 0.10125;
    MulLeq(q, 0.10125, 30.0);
    MulLeq(0.0, q, 30.0);
  }

  /** The rounded projection a synthetic summary reports stays below $3.05 against the $100 budget. */
  lemma MockProjection(m: GeminiUsageMetrics, timeRange: TimeRange, today: int, variations: seq<real>)
    requires |variations| >= Days(timeRange) && Draws(variations)
    requires IsMockReport(m, timeRange, today, variations)
    ensures m.budgetLimit == 100.0 && !m.isOverBudget && |m.dailyCosts| >= 1
    ensures 0.0 <= m.monthlyProjection <= 3.0425
  {
    MockNeverOverBudget(m, timeRange, today, variations);
    var x := SumEntries(m.dailyCosts).cost / Days(timeRange) as real * 30.0;
    ToFixedNear(x, 2);
    assert Pow(10, 2) == 100;
  }
}
