/**
 * The display rules of the AI-metering page
 * (components/google-cloud-dashboard.tsx): the budget percentage, the colour
 * tiers and width of the projection bar, the badge, the budget alert with its
 * overage, whether the charts are drawn, and the window label. The budget
 * percentage is a JavaScript division, so a zero budget yields Infinity or NaN.
 */
module GoogleCloudDashboard {
  import opened JsNumber
  import opened Types
  import opened RealOrder
  import GoogleCloud
  import GoogleCloudRoute

  /** `(monthlyProjection / budgetLimit) * 100`. */
  function BudgetPercentage(m: GeminiUsageMetrics): (p: Num)
    ensures m.budgetLimit != 0.0 ==> p == Finite(m.monthlyProjection / m.budgetLimit * 100.0)
    ensures m.budgetLimit == 0.0 && m.monthlyProjection > 0.0 ==> p == PosInfinity
    ensures m.budgetLimit == 0.0 && m.monthlyProjection < 0.0 ==> p == NegInfinity
    ensures m.budgetLimit == 0.0 && m.monthlyProjection == 0.0 ==> p == NaN
  {
    Scale(Divide(m.monthlyProjection, m.budgetLimit), 100.0)
  }

  /**
   * The projection bar's colour class. The tiers are strict: red above 100%,
   * yellow above 80% up to 100%, otherwise the primary colour; Infinity is red
   * and NaN, failing every comparison, is the primary colour.
   */
  function BarColor(p: Num): (c: string)
    ensures p.Finite? ==> (c == "bg-destructive" <==> p.value > 100.0)
    ensures p.Finite? ==> (c == "bg-yellow-500" <==> 80.0 < p.value <= 100.0)
    ensures p.Finite? ==> (c == "bg-primary" <==> p.value <= 80.0)
    ensures p.PosInfinity? ==> c == "bg-destructive"
    ensures p.NaN? || p.NegInfinity? ==> c == "bg-primary"
  {
    if Exceeds(p, 100.0) then "bg-destructive"
    else if Exceeds(p, 80.0) then "bg-yellow-500"
    else "bg-primary"
  }

  /** `Math.min(budgetPercentage, 100)` as the bar's width. */
  function BarWidth(p: Num): (w: Num)
    ensures w.Finite? ==> w.value <= 100.0
    ensures p.Finite? ==> w.Finite? && (w.value == p.value || w.value == 100.0) && (p.value <= 100.0 ==> w.value == p.value)
    ensures p == PosInfinity ==> w == Finite(100.0)
  {
    MinWith(p, 100.0)
  }

  /** The badge variant beside the bar: red exactly when the bar is, grey otherwise. */
  function BadgeVariant(p: Num): (v: string)
    ensures v == "destructive" || v == "secondary"
    ensures v == "destructive" <==> BarColor(p) == "bg-destructive"
  {
    if Exceeds(p, 100.0) then "destructive" else "secondary"
  }

  /** The budget alert card is rendered when the summary flags overspend. */
  predicate ShowsAlert(m: GeminiUsageMetrics) {
    m.isOverBudget
  }

  /** The amount the alert says the projection exceeds the budget by; positive exactly when the projection is over the budget. */
  function Overage(m: GeminiUsageMetrics): (r: real)
    ensures r > 0.0 <==> m.monthlyProjection > m.budgetLimit
  {
    m.monthlyProjection - m.budgetLimit
  }

  /** Both charts are drawn only when there are daily entries. */
  predicate ShowsCharts(m: GeminiUsageMetrics) {
    |m.dailyCosts| > 0
  }

  /** The caption under the total cost. */
  function RangeLabel(timeRange: TimeRange): string {
    match timeRange
    case Last24Hours => "24 hours"
    case Last7Days => "7 days"
    case Last30Days => "30 days"
  }

  // ---------------------------------------------------------------------------
  // Properties
  // ---------------------------------------------------------------------------

  /** With a positive budget the badge turns red exactly when the projection exceeds the budget. */
  lemma BadgeMeansOverBudget(m: GeminiUsageMetrics)
    requires m.budgetLimit > 0.0
    ensures BadgeVariant(BudgetPercentage(m)) == "destructive" <==> m.monthlyProjection > m.budgetLimit
  {
    assert BudgetPercentage(m) == Finite(m.monthlyProjection / m.budgetLimit * 100.0);
    QuotientCompare(m.monthlyProjection, m.budgetLimit, 1.0);
  }

  /**
   * On a live summary with a positive budget the badge and the alert agree
   * with the over-budget flag, the overage shown is positive exactly when the
   * alert is, and the charts appear exactly when some valued point was dated.
   */
  lemma LiveView(m: GeminiUsageMetrics, timeRange: TimeRange, ps: seq<GoogleCloud.Point>, dayOfMonth: int, budget: real)
    requires 1 <= dayOfMonth <= 31 && budget > 0.0
    requires GoogleCloud.ReportsUsage(m, timeRange, ps, dayOfMonth, budget)
    ensures BadgeVariant(BudgetPercentage(m)) == "destructive" <==> m.isOverBudget
    ensures ShowsAlert(m) <==> Overage(m) > 0.0
    ensures ShowsCharts(m) <==> GoogleCloud.DaysSeen(ps) != {}
  {
    BadgeMeansOverBudget(m);
    GoogleCloud.EmptyTable(m.dailyCosts, GoogleCloud.Buckets(ps));
    GoogleCloud.BucketsAreDayTotals(ps);
    var b := GoogleCloud.Buckets(ps);
    if b == map[] {
      assert b.Keys == {};
    }
    if b.Keys == {} {
      assert b == map[];
    }
  }

  /** The zeroed fallback shows no alert, no charts and, under a positive budget, an empty grey bar. */
  lemma FallbackView(budget: real)
    requires budget > 0.0
    ensures var m := GoogleCloud.Fallback(budget);
      && !ShowsAlert(m) && !ShowsCharts(m)
      && BadgeVariant(BudgetPercentage(m)) == "secondary"
      && BarWidth(BudgetPercentage(m)) == Finite(0.0)
  {
  }

  /** A synthetic summary always draws its charts and never shows the alert or a red or yellow bar. */
  lemma MockView(m: GeminiUsageMetrics, timeRange: TimeRange, today: int, variations: seq<real>)
    requires |variations| >= GoogleCloudRoute.Days(timeRange) && GoogleCloudRoute.Draws(variations)
    requires GoogleCloudRoute.IsMockReport(m, timeRange, today, variations)
    ensures ShowsCharts(m) && !ShowsAlert(m)
    ensures BadgeVariant(BudgetPercentage(m)) == "secondary"
    ensures BarColor(BudgetPercentage(m)) == "bg-primary"
  {
    GoogleCloudRoute.MockProjection(m, timeRange, today, variations);
    var p := BudgetPercentage(m).value;
    assert p * 100.0 == m.monthlyProjection * 100.0;
  }

  /** The three windows are told apart by their captions. */
  lemma RangeLabelInjective(a: TimeRange, b: TimeRange)
    requires RangeLabel(a) == RangeLabel(b)
    ensures a == b
  {
  }
}
