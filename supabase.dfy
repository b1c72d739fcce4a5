/**
 * The free-tier quota estimator of the backend-as-a-service platform
 * (lib/supabase.ts): storage is estimated at 1 MiB per listed file, the
 * database at 10 MiB per public table, bandwidth and API requests are not
 * tracked (0); each resource is reported with its percentage of a fixed
 * free-tier limit. `formatBytes` renders a byte count in binary units.
 *
 * The platform's client calls are replaced by their results (`Listing`).
 */
module Supabase {
  import opened Wrappers
  import opened JsNumber
  import opened Types
  import opened RealOrder

  const Mib: int := 1024 * 1024

  /** The per-resource quota table. */
  datatype TierLimits = TierLimits(database: int, bandwidth: int, storage: int, authUsers: int, apiRequests: int)

  /** FREE_TIER_LIMITS: 500 MiB of database, 2 GiB of bandwidth, 1 GiB of storage, 50k users, 500k requests. */
  const FreeTierLimits: TierLimits :=
    TierLimits(500 * 1024 * 1024, 2 * 1024 * 1024 * 1024, 1 * 1024 * 1024 * 1024, 50000, 500000)

  /** What the client calls returned: the public table list's length, one file-list length per bucket, the user list's length. */
  datatype Listing = Listing(tables: Option<nat>, buckets: Option<seq<Option<nat>>>, users: Option<nat>)

  /** The two environment strings the client is built from; an unset variable reads as "". */
  datatype Credentials = Credentials(url: string, serviceKey: string)

  predicate Configured(c: Credentials) {
    c.url != "" && c.serviceKey != ""
  }

  /** The files listed across buckets; a bucket whose listing came back without data counts none. */
  function BucketFiles(buckets: seq<Option<nat>>): nat {
    if buckets == [] then 0 else BucketFiles(buckets[..|buckets| - 1]) + buckets[|buckets| - 1].GetOr(0)
  }

  function StoredFiles(storageData: Option<seq<Option<nat>>>): nat {
    if storageData.None? then 0 else BucketFiles(storageData.value)
  }

  /** The storage loop: 1 MiB per listed file, summed bucket by bucket. */
  method TotalStorageSize(storageData: Option<seq<Option<nat>>>) returns (totalStorageSize: int)
    ensures totalStorageSize == StoredFiles(storageData) * Mib
  {
    totalStorageSize := 0;
    if storageData.Some? {
      var buckets := storageData.value;
      var b := 0;
      while b < |buckets|
        invariant 0 <= b <= |buckets|
        invariant totalStorageSize == BucketFiles(buckets[..b]) * Mib
      {
        var files := buckets[b];
        if files.Some? {
          totalStorageSize := totalStorageSize + files.value * 1024 * 1024;
        }
        assert buckets[..b + 1][..b] == buckets[..b];
        b := b + 1;
      }
      assert buckets[..|buckets|] == buckets;
    }
  }

  /** `(tables?.length || 0) * 10 MiB`. */
  function EstimatedDbSize(tables: Option<nat>): int {
    tables.GetOr(0) * 10 * Mib
  }

  /** `(used / limit) * 100`, not clamped. */
  function Percentage(used: int, limit: int): (p: real)
    requires limit > 0
    ensures p * limit as real / 100.0 == used as real
    ensures p > 100.0 <==> used > limit
    ensures p == 100.0 <==> used == limit
    ensures p >= 0.0 <==> used >= 0
  {
    QuotientCompare(used as real, limit as real, 1.0);
    QuotientCompare(used as real, limit as real, 0.0);
    used as real / limit as real * 100.0
  }

  /** The report built from the listings: every resource against its free-tier quota, each percentage proportional. */
  function Estimate(listing: Listing): (m: SupabaseUsageMetrics)
    ensures AgainstFreeTier(m) && Proportional(m)
  {
    var dbSize := EstimatedDbSize(listing.tables);
    var storageSize := StoredFiles(listing.buckets) * Mib;
    var userCount := listing.users.GetOr(0);
    var limits := FreeTierLimits;
    SupabaseUsageMetrics(
      SizeUsage(dbSize, limits.database, Percentage(dbSize, limits.database)),
      BytesUsage(0, limits.bandwidth, Percentage(0, limits.bandwidth)),
      BytesUsage(storageSize, limits.storage, Percentage(storageSize, limits.storage)),
      CountUsage(userCount, limits.authUsers, Percentage(userCount, limits.authUsers)),
      CountUsage(0, limits.apiRequests, Percentage(0, limits.apiRequests)))
  }

  /**
   * The record the catch block returns: nothing used, the same quotas. Its
   * limits are spelled out again in the catch block, and they agree with the
   * free-tier table.
   */
  function Fallback(): (m: SupabaseUsageMetrics)
    ensures AgainstFreeTier(m) && Proportional(m)
  {
    SupabaseUsageMetrics(
      SizeUsage(0, 500 * 1024 * 1024, 0.0),
      BytesUsage(0, 2 * 1024 * 1024 * 1024, 0.0),
      BytesUsage(0, 1 * 1024 * 1024 * 1024, 0.0),
      CountUsage(0, 50000, 0.0),
      CountUsage(0, 500000, 0.0))
  }

  /**
   * getSupabaseUsageMetrics: missing credentials or a client call that throws
   * (`listing == None`) lead to the fallback; otherwise the estimate.
   */
  method GetSupabaseUsageMetrics(credentials: Credentials, listing: Option<Listing>) returns (m: SupabaseUsageMetrics)
    ensures !Configured(credentials) || listing.None? ==> m == Fallback()
    ensures Configured(credentials) && listing.Some? ==> m == Estimate(listing.value)
  {
    if !Configured(credentials) || listing.None? {
      return Fallback();
    }
    var l := listing.value;
    var totalStorageSize := TotalStorageSize(l.buckets);
    var userCount := l.users.GetOr(0);
    var limits := FreeTierLimits;
    var estimatedDbSize := l.tables.GetOr(0) * 10 * 1024 * 1024;
    var estimatedBandwidth := 0;
    var estimatedApiRequests := 0;
    m := SupabaseUsageMetrics(
      SizeUsage(estimatedDbSize, limits.database, Percentage(estimatedDbSize, limits.database)),
      BytesUsage(estimatedBandwidth, limits.bandwidth, Percentage(estimatedBandwidth, limits.bandwidth)),
      BytesUsage(totalStorageSize, limits.storage, Percentage(totalStorageSize, limits.storage)),
      CountUsage(userCount, limits.authUsers, Percentage(userCount, limits.authUsers)),
      CountUsage(estimatedApiRequests, limits.apiRequests, Percentage(estimatedApiRequests, limits.apiRequests)));
  }

  // ---------------------------------------------------------------------------
  // Properties of the estimate
  // ---------------------------------------------------------------------------

  /** Every resource of a report is measured against its free-tier quota. */
  ghost predicate AgainstFreeTier(m: SupabaseUsageMetrics) {
    && m.database.limit == 524288000
    && m.bandwidth.limit == 2147483648
    && m.storage.limit == 1073741824
    && m.authUsers.limit == 50000
    && m.apiRequests.limit == 500000
  }

  /** Every percentage is the used amount over the quota, times 100. */
  ghost predicate Proportional(m: SupabaseUsageMetrics) {
    && m.database.percentage * m.database.limit as real / 100.0 == m.database.size as real
    && m.bandwidth.percentage * m.bandwidth.limit as real / 100.0 == m.bandwidth.used as real
    && m.storage.percentage * m.storage.limit as real / 100.0 == m.storage.used as real
    && m.authUsers.percentage * m.authUsers.limit as real / 100.0 == m.authUsers.count as real
    && m.apiRequests.percentage * m.apiRequests.limit as real / 100.0 == m.apiRequests.count as real
  }

  /** The estimate: storage 1 MiB per file, database 10 MiB per table, nothing for bandwidth and API requests. */
  lemma EstimateMeaning(listing: Listing)
    ensures var m := Estimate(listing);
      && AgainstFreeTier(m) && Proportional(m)
      && m.storage.used == StoredFiles(listing.buckets) * 1048576
      && m.database.size == listing.tables.GetOr(0) * 10485760
      && m.authUsers.count == listing.users.GetOr(0)
      && m.bandwidth.used == 0 && m.bandwidth.percentage == 0.0
      && m.apiRequests.count == 0 && m.apiRequests.percentage == 0.0
  {
  }

  /** The fallback reports nothing used, against the same quotas. */
  lemma FallbackMeaning()
    ensures AgainstFreeTier(Fallback()) && Proportional(Fallback())
    ensures Fallback().database.size == 0 && Fallback().bandwidth.used == 0 && Fallback().storage.used == 0
    ensures Fallback().authUsers.count == 0 && Fallback().apiRequests.count == 0
    ensures Fallback().database.limit == FreeTierLimits.database
    ensures Fallback().storage.limit == FreeTierLimits.storage
  {
  }

  /** Percentages are not clamped: past 50 tables the database reads above 100%. */
  lemma DatabaseOverQuota(listing: Listing)
    ensures Estimate(listing).database.percentage > 100.0 <==> listing.tables.GetOr(0) > 50
  {
  }

  /** Past 1024 listed files the storage reads above 100%. */
  lemma StorageOverQuota(listing: Listing)
    ensures Estimate(listing).storage.percentage > 100.0 <==> StoredFiles(listing.buckets) > 1024
  {
  }

  /** Three tables read as 30 MiB, 6% of the quota; 500 users as 1%. */
  lemma EstimateExample()
    ensures var m := Estimate(Listing(Some(3), None, Some(500)));
      && m.database.size == 31457280 && m.database.percentage == 6.0
      && m.authUsers.percentage == 1.0
      && m.storage.used == 0
  {
  }

  /** Splitting the bucket list splits the file count. */
  lemma {:induction false} BucketFilesAppend(a: seq<Option<nat>>, b: seq<Option<nat>>)
    ensures BucketFiles(a + b) == BucketFiles(a) + BucketFiles(b)
    decreases |b|
  {
    if b == [] {
      assert a + b == a;
    } else {
      var b' := b[..|b| - 1];
      assert (a + b)[..|a + b| - 1] == a + b';
      BucketFilesAppend(a, b');
    }
  }

  /** A bucket whose listing returned no data contributes nothing, wherever it sits. */
  lemma UnlistedBucket(a: seq<Option<nat>>, b: seq<Option<nat>>)
    ensures BucketFiles(a + [None] + b) == BucketFiles(a + b)
  {
    var none: seq<Option<nat>> := [None];
    assert a + [None] + b == (a + none) + b;
    BucketFilesAppend(a + none, b);
    BucketFilesAppend(a, none);
    BucketFilesAppend(a, b);
    assert none[..0] == [];
  }

  // ---------------------------------------------------------------------------
  // formatBytes
  // ---------------------------------------------------------------------------

  const Sizes: seq<string> := ["Bytes", "KB", "MB", "GB", "TB"]

  /** `Math.floor(Math.log(bytes) / Math.log(1024))` for a positive integer byte count. */
  function UnitIndex(bytes: int): nat
    requires bytes >= 1
    decreases bytes
  {
    if bytes < 1024 then 0 else 1 + UnitIndex(bytes / 1024)
  }

  /** The rendered label: the amount before the space and the unit name after it (`undefined` as None). */
  datatype ByteLabel = ByteLabel(amount: Num, unit: Option<string>)

  /**
   * formatBytes: "0 Bytes" for zero; a negative count has no logarithm and
   * renders as "NaN undefined"; otherwise the amount in the chosen unit,
   * rounded to two decimals, with `sizes[i]` undefined past the terabyte.
   */
  function FormatBytes(bytes: int): (f: ByteLabel)
    ensures bytes == 0 ==> f == ByteLabel(Finite(0.0), Some("Bytes"))
    ensures bytes < 0 ==> f == ByteLabel(NaN, None)
    ensures bytes >= 1 ==> f.amount.Finite?
  {
    if bytes == 0 then ByteLabel(Finite(0.0), Some("Bytes"))
    else if bytes < 0 then ByteLabel(NaN, None)
    else
      var i := UnitIndex(bytes);
      var amount := Round(bytes as real / Pow(1024, i) as real * 100.0) as real / 100.0;
      ByteLabel(Finite(amount), if i < |Sizes| then Some(Sizes[i]) else None)
  }

  /** The chosen unit is the power of 1024 the count lies between. */
  lemma {:induction false} UnitIndexBounds(bytes: int)
    requires bytes >= 1
    ensures Pow(1024, UnitIndex(bytes)) <= bytes < Pow(1024, UnitIndex(bytes) + 1)
    decreases bytes
  {
    if bytes >= 1024 {
      var q := bytes / 1024;
      var j := UnitIndex(q);
      UnitIndexBounds(q);
      assert Pow(1024, j + 1) == 1024 * Pow(1024, j);
      assert Pow(1024, j + 2) == 1024 * Pow(1024, j + 1);
      assert 1024 * q <= bytes < 1024 * (q + 1);
      assert q + 1 <= Pow(1024, j + 1);
      MulMonotone(q + 1, Pow(1024, j + 1));
      MulMonotone(Pow(1024, j), q);
    }
  }

  lemma MulMonotone(a: int, b: int)
    requires a <= b
    ensures 1024 * a <= 1024 * b
  {
  }

  lemma {:induction false} PowGrows(a: nat, b: nat)
    requires a <= b
    ensures Pow(1024, a) <= Pow(1024, b)
    decreases b
  {
    if a < b {
      PowGrows(a, b - 1);
      assert Pow(1024, b) == 1024 * Pow(1024, b - 1);
    }
  }

  /** No other power of 1024 brackets the count: the unit index is the only one. */
  lemma UnitIndexUnique(bytes: int, i: nat)
    requires bytes >= 1
    requires Pow(1024, i) <= bytes < Pow(1024, i + 1)
    ensures UnitIndex(bytes) == i
  {
    var u := UnitIndex(bytes);
    UnitIndexBounds(bytes);
    if u < i {
      PowGrows(u + 1, i);
      assert false;
    } else if i < u {
      PowGrows(i + 1, u);
      assert false;
    }
  }

  /**
   * For a positive count in [1024^i, 1024^(i+1)) the unit is `sizes[i]`
   * (none past the terabyte) and the amount, the count in that unit rounded to
   * hundredths, lies in [1, 1024].
   */
  lemma FormatBytesUnit(bytes: int, i: nat)
    requires bytes >= 1
    requires Pow(1024, i) <= bytes < Pow(1024, i + 1)
    ensures FormatBytes(bytes).unit == (if i < 5 then Some(["Bytes", "KB", "MB", "GB", "TB"][i]) else None)
    ensures var a := FormatBytes(bytes).amount.value;
      && a == Round(bytes as real / Pow(1024, i) as real * 100.0) as real / 100.0
      && 1.0 <= a <= 1024.0
  {
    UnitIndexUnique(bytes, i);
    assert Pow(1024, i + 1) == 1024 * Pow(1024, i);
    AmountInUnit(bytes as real, Pow(1024, i) as real);
  }

  /** A count between one and 1024 units, rounded to hundredths of the unit, stays between 1 and 1024. */
  lemma AmountInUnit(b: real, p: real)
    requires 1.0 <= p <= b < 1024.0 * p
    ensures 1.0 <= Round(b / p * 100.0) as real / 100.0 <= 1024.0
  {
    QuotientCompare(b, p, 1.0);
    QuotientCompare(b, p, 1024.0);
    var x := b / p;
    assert 1.0 <= x < 1024.0;
    var r := Round(x * 100.0);
    assert 100 <= r <= 102400;
  }

  /** 1536 bytes render as 1.5 KB. */
  lemma FormatBytesExample()
    ensures FormatBytes(1536) == ByteLabel(Finite(1.5), Some("KB"))
  {
    assert UnitIndex(1536) == 1;
    assert Pow(1024, 1) == 1024;
  }
}
