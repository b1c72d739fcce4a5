/**
 * The classification rules of the platform-usage page
 * (components/supabase-dashboard.tsx): the five rows it derives from a
 * summary, the two-threshold status tiers of the bar colour and the badge,
 * the usage alert listing the resources at or above 90%, and the clamped
 * bar width. Rendering is not modelled.
 */
module SupabaseDashboard {
  import opened Types
  import Supabase
  import SupabaseRoute

  /** One row of `usageData`; the icon is rendering only. */
  datatype UsageItem = UsageItem(name: string, percentage: real, used: int, limit: int)

  /** `usageData`: the five resources in their display order. */
  function UsageData(m: SupabaseUsageMetrics): seq<UsageItem> {
    [ UsageItem("Database", m.database.percentage, m.database.size, m.database.limit),
      UsageItem("Bandwidth", m.bandwidth.percentage, m.bandwidth.used, m.bandwidth.limit),
      UsageItem("Storage", m.storage.percentage, m.storage.used, m.storage.limit),
      UsageItem("Auth Users", m.authUsers.percentage, m.authUsers.count, m.authUsers.limit),
      UsageItem("API Requests", m.apiRequests.percentage, m.apiRequests.count, m.apiRequests.limit) ]
  }

  const DestructiveColor: string := "hsl(var(--destructive))"
  const WarningColor: string := "hsl(45, 93%, 47%)"
  const PrimaryColor: string := "hsl(var(--primary))"

  /** getStatusColor: the same two thresholds as the badge, so colour and badge always name the same tier. */
  function StatusColor(percentage: real): (c: string)
    ensures c == DestructiveColor <==> StatusBadge(percentage).caption == "Critical"
    ensures c == WarningColor <==> StatusBadge(percentage).caption == "Warning"
    ensures c == PrimaryColor <==> StatusBadge(percentage).caption == "Healthy"
  {
    if percentage >= 90.0 then DestructiveColor
    else if percentage >= 70.0 then WarningColor
    else PrimaryColor
  }

  datatype Badge = Badge(variant: string, caption: string)

  /** getStatusBadge: Critical from 90% on, Warning from 70% on, Healthy below; both thresholds inclusive. */
  function StatusBadge(percentage: real): (b: Badge)
    ensures b.caption == "Critical" <==> percentage >= 90.0
    ensures b.caption == "Warning" <==> 70.0 <= percentage < 90.0
    ensures b.caption == "Healthy" <==> percentage < 70.0
    ensures b.variant == "destructive" <==> b.caption == "Critical"
  {
    if percentage >= 90.0 then Badge("destructive", "Critical")
    else if percentage >= 70.0 then Badge("secondary", "Warning")
    else Badge("default", "Healthy")
  }

  /** The alert list: the rows at or above 90%, in their order. */
  function Alerts(items: seq<UsageItem>): (r: seq<UsageItem>)
    ensures forall x :: x in r <==> x in items && x.percentage >= 90.0
    ensures |r| <= |items|
  {
    if items == [] then []
    else
      var rest := Alerts(items[..|items| - 1]);
      var last := items[|items| - 1];
      assert items == items[..|items| - 1] + [last];
      if last.percentage >= 90.0 then rest + [last] else rest
  }

  /** `usageData.some((item) => item.percentage >= 90)`. */
  predicate ShowsAlert(items: seq<UsageItem>) {
    exists i :: 0 <= i < |items| && items[i].percentage >= 90.0
  }

  /** `Math.min(percentage, 100)`. */
  function BarWidth(percentage: real): (w: real)
    ensures w <= 100.0
    ensures w == percentage || w == 100.0
    ensures percentage <= 100.0 ==> w == percentage
  {
    if percentage <= 100.0 then percentage else 100.0
  }

  // ---------------------------------------------------------------------------
  // Properties
  // ---------------------------------------------------------------------------

  /** Filtering commutes with concatenation, so the alert list keeps the rows' order. */
  lemma {:induction false} AlertsAppend(a: seq<UsageItem>, b: seq<UsageItem>)
    ensures Alerts(a + b) == Alerts(a) + Alerts(b)
    decreases |b|
  {
    if b == [] {
      assert a + b == a;
    } else {
      var b' := b[..|b| - 1];
      assert (a + b)[..|a + b| - 1] == a + b';
      assert (a + b)[|a + b| - 1] == b[|b| - 1];
      AlertsAppend(a, b');
    }
  }

  /** The alert is shown exactly when it lists something. */
  lemma AlertShownIffListed(items: seq<UsageItem>)
    ensures ShowsAlert(items) <==> Alerts(items) != []
  {
    if ShowsAlert(items) {
      var i :| 0 <= i < |items| && items[i].percentage >= 90.0;
      assert items[i] in Alerts(items);
    }
    if Alerts(items) != [] {
      var x := Alerts(items)[0];
      assert x in items;
      var i :| 0 <= i < |items| && items[i] == x;
    }
  }

  function AlertOf(item: UsageItem): seq<UsageItem> {
    if item.percentage >= 90.0 then [item] else []
  }

  lemma AlertsSingle(x: UsageItem)
    ensures Alerts([x]) == AlertOf(x)
  {
    assert [x][..0] == [];
  }

  /** The alert of a summary lists the critical rows from Database to API Requests. */
  lemma AlertsOfSummary(m: SupabaseUsageMetrics)
    ensures var u := UsageData(m);
      Alerts(u) == AlertOf(u[0]) + AlertOf(u[1]) + AlertOf(u[2]) + AlertOf(u[3]) + AlertOf(u[4])
  {
    var u := UsageData(m);
    assert u == [u[0]] + [u[1]] + [u[2]] + [u[3]] + [u[4]];
    AlertsAppend([u[0]] + [u[1]] + [u[2]] + [u[3]], [u[4]]);
    AlertsAppend([u[0]] + [u[1]] + [u[2]], [u[3]]);
    AlertsAppend([u[0]] + [u[1]], [u[2]]);
    AlertsAppend([u[0]], [u[1]]);
    AlertsSingle(u[0]);
    AlertsSingle(u[1]);
    AlertsSingle(u[2]);
    AlertsSingle(u[3]);
    AlertsSingle(u[4]);
  }

  /** Each row carries its resource's share and quota, with size, used or count as the amount. */
  lemma UsageRows(m: SupabaseUsageMetrics)
    ensures var u := UsageData(m);
      && |u| == 5
      && u[0].used == m.database.size && u[0].limit == m.database.limit && u[0].percentage == m.database.percentage
      && u[1].used == m.bandwidth.used && u[1].limit == m.bandwidth.limit && u[1].percentage == m.bandwidth.percentage
      && u[2].used == m.storage.used && u[2].limit == m.storage.limit && u[2].percentage == m.storage.percentage
      && u[3].used == m.authUsers.count && u[3].limit == m.authUsers.limit && u[3].percentage == m.authUsers.percentage
      && u[4].used == m.apiRequests.count && u[4].limit == m.apiRequests.limit && u[4].percentage == m.apiRequests.percentage
  {
  }

  /** The fixed summary of the mock handler is healthy throughout and raises no alert. */
  lemma MockSummaryHealthy()
    ensures var u := UsageData(SupabaseRoute.GenerateMockData());
      && !ShowsAlert(u)
      && forall i :: 0 <= i < |u| ==> StatusBadge(u[i].percentage).caption == "Healthy"
  {
    var u := UsageData(SupabaseRoute.GenerateMockData());
    forall i | 0 <= i < |u|
      ensures u[i].percentage < 70.0
    {
    }
  }

  /** The estimator's fallback raises no alert either. */
  lemma FallbackSummaryHealthy()
    ensures !ShowsAlert(UsageData(Supabase.Fallback()))
  {
    var u := UsageData(Supabase.Fallback());
    forall i | 0 <= i < |u|
      ensures u[i].percentage == 0.0
    {
    }
  }
}
