/**
 * The platform-usage HTTP handler (app/api/supabase/usage/route.ts): it
 * answers with a fixed summary, each resource at a hard-coded share of its
 * free-tier quota.
 */
module SupabaseRoute {
  import opened Wrappers
  import opened JsNumber
  import opened Types
  import Supabase

  /** The handler's own copy of the quota table. */
  const RouteLimits: Supabase.TierLimits :=
    Supabase.TierLimits(500 * 1024 * 1024, 2 * 1024 * 1024 * 1024, 1 * 1024 * 1024 * 1024, 50000, 500000)

  const DatabasePercentage: real := 15.3
  const BandwidthPercentage: real := 8.7
  const StoragePercentage: real := 23.4
  const AuthUsersPercentage: real := 2.1
  const ApiRequestsPercentage: real := 12.5

  /** `Math.round((limit * percentage) / 100)`: the amount nearest the given share, never past the quota. */
  function UsedAmount(limit: int, percentage: real): (n: int)
    requires limit >= 0 && 0.0 <= percentage <= 100.0
    ensures n as real - 0.5 <= limit as real * percentage / 100.0 < n as real + 0.5
    ensures 0 <= n <= limit
  {
    var exact := limit as real * percentage / 100.0;
    assert 0.0 <= exact <= limit as real by {
      assert exact == limit as real * (percentage / 100.0);
      assert 0.0 <= percentage / 100.0 <= 1.0;
    }
    Round(exact)
  }

  /** generateMockData: the fixed summary, each resource at its hard-coded share of the free-tier quota. */
  function GenerateMockData(): (m: SupabaseUsageMetrics)
    ensures Supabase.AgainstFreeTier(m)
    ensures 0 <= m.database.size <= m.database.limit && 0 <= m.bandwidth.used <= m.bandwidth.limit
    ensures 0 <= m.storage.used <= m.storage.limit && 0 <= m.authUsers.count <= m.authUsers.limit
    ensures 0 <= m.apiRequests.count <= m.apiRequests.limit
  {
    var limits := RouteLimits;
    SupabaseUsageMetrics(
      SizeUsage(UsedAmount(limits.database, DatabasePercentage), limits.database, DatabasePercentage),
      BytesUsage(UsedAmount(limits.bandwidth, BandwidthPercentage), limits.bandwidth, BandwidthPercentage),
      BytesUsage(UsedAmount(limits.storage, StoragePercentage), limits.storage, StoragePercentage),
      CountUsage(UsedAmount(limits.authUsers, AuthUsersPercentage), limits.authUsers, AuthUsersPercentage),
      CountUsage(UsedAmount(limits.apiRequests, ApiRequestsPercentage), limits.apiRequests, ApiRequestsPercentage))
  }

  /** The GET handler always succeeds with the fixed summary, measured against the free tier. */
  function Get(): (r: UsageResponse<SupabaseUsageMetrics>)
    ensures r.success && r.error.None? && r.data.Some?
    ensures Supabase.AgainstFreeTier(r.data.value)
  {
    UsageResponse(true, Some(GenerateMockData()), None)
  }

  /** The handler's quota table is the estimator's. */
  lemma LimitsAgree()
    ensures RouteLimits == Supabase.FreeTierLimits
  {
  }

  /** Every resource stays within its quota, at the amount nearest its share. */
  lemma MockWithinQuota()
    ensures var m := GenerateMockData();
      && 0 <= m.database.size <= m.database.limit
      && 0 <= m.bandwidth.used <= m.bandwidth.limit
      && 0 <= m.storage.used <= m.storage.limit
      && 0 <= m.authUsers.count <= m.authUsers.limit
      && 0 <= m.apiRequests.count <= m.apiRequests.limit
      && m.database.percentage < 100.0 && m.bandwidth.percentage < 100.0 && m.storage.percentage < 100.0
      && m.authUsers.percentage < 100.0 && m.apiRequests.percentage < 100.0
  {
  }

  /** The amounts the fixed shares give. */
  lemma MockValues()
    ensures var m := GenerateMockData();
      && m.database.size == 80216064
      && m.bandwidth.used == 186831077
      && m.storage.used == 251255587
      && m.authUsers.count == 1050
      && m.apiRequests.count == 62500
      && m.database.percentage == 15.3 && m.bandwidth.percentage == 8.7 && m.storage.percentage == 23.4
      && m.authUsers.percentage == 2.1 && m.apiRequests.percentage == 12.5
  {
    assert UsedAmount(2147483648, 8.7) == 186831077 by {
      assert 2147483648.0 * 8.7 / 100.0 == 186831077.376;
    }
    assert UsedAmount(1073741824, 23.4) == 251255587 by {
      assert 1073741824.0 * 23.4 / 100.0 == 251255586.816;
    }
  }
}
