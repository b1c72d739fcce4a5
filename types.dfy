/**
 * The records the two metering routines return and the dashboards render
 * (types/index.ts). Dates are UTC day numbers (days since 1970-01-01) instead
 * of `YYYY-MM-DD` strings; monetary amounts, rates and percentages are reals.
 */
module Types {
  import opened Wrappers

  /** The reporting window selector. */
  datatype TimeRange = Last24Hours | Last7Days | Last30Days {
    /** The query-string spelling of the window. */
    function Literal(): string {
      match this
      case Last24Hours => "24h"
      case Last7Days => "7d"
      case Last30Days => "30d"
    }
  }

  /** One calendar day's rollup. */
  datatype DailyCost = DailyCost(date: int, cost: real, tokens: real, requests: real)

  /** The AI-metering summary. */
  datatype GeminiUsageMetrics = GeminiUsageMetrics(
    totalCost: real,
    apiRequests: int,
    totalTokens: int,
    monthlyProjection: real,
    dailyCosts: seq<DailyCost>,
    isOverBudget: bool,
    budgetLimit: real)

  /** A metered resource measured by size (the database). */
  datatype SizeUsage = SizeUsage(size: int, limit: int, percentage: real)

  /** A metered resource measured by bytes used (bandwidth, storage). */
  datatype BytesUsage = BytesUsage(used: int, limit: int, percentage: real)

  /** A metered resource measured by a count (auth users, API requests). */
  datatype CountUsage = CountUsage(count: int, limit: int, percentage: real)

  /** The free-tier consumption summary of the backend-as-a-service platform. */
  datatype SupabaseUsageMetrics = SupabaseUsageMetrics(
    database: SizeUsage,
    bandwidth: BytesUsage,
    storage: BytesUsage,
    authUsers: CountUsage,
    apiRequests: CountUsage)

  /** The JSON body the HTTP handlers answer with. */
  datatype UsageResponse<T> = UsageResponse(success: bool, data: Option<T>, error: Option<string>)
}
