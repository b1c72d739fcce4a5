/**
 * The pricing assumptions shared by the live aggregation and the synthetic
 * generator: every request is taken to use 1500 tokens, billed at $0.00025 per
 * thousand tokens. `Acc` is the `{ cost, tokens, requests }` triple that both
 * accumulate, per day and in total.
 */
module Pricing {
  import opened Types

  const AvgTokensPerRequest: real := 1500.0
  const CostPer1kInputTokens: real := 0.00025

  function Tokens(requests: real): real {
    requests * AvgTokensPerRequest
  }

  function Cost(tokens: real): real {
    tokens / 1000.0 * CostPer1kInputTokens
  }

  datatype Acc = Acc(cost: real, tokens: real, requests: real)

  const Zero: Acc := Acc(0.0, 0.0, 0.0)

  /** Adds `b` onto the running triple `a`, component by component. */
  function Plus(a: Acc, b: Acc): Acc {
    Acc(a.cost + b.cost, a.tokens + b.tokens, a.requests + b.requests)
  }

  /** The triple one sample of `requests` contributes. */
  function Usage(requests: real): (a: Acc)
    ensures a.requests == requests && Derived(a)
  {
    var tokens := Tokens(requests);
    Acc(Cost(tokens), tokens, requests)
  }

  /** Tokens and cost follow from the request count by the pricing formulas. */
  predicate Derived(a: Acc) {
    a.tokens == Tokens(a.requests) && a.cost == Cost(a.tokens)
  }

  /** The formulas are linear, so a sum of derived triples is derived. */
  lemma PlusKeepsDerived(a: Acc, b: Acc)
    requires Derived(a) && Derived(b)
    ensures Derived(Plus(a, b))
  {
  }

  /** One request costs $0.000375. */
  lemma CostPerRequest(requests: real)
    ensures Cost(Tokens(requests)) == requests * 0.000375
  {
  }

  /** `{ date, ...value }`: a day's rollup from its accumulator. */
  function Entry(date: int, a: Acc): (e: DailyCost)
    ensures AccOf(e) == a && e.date == date
  {
    DailyCost(date, a.cost, a.tokens, a.requests)
  }

  function AccOf(e: DailyCost): Acc {
    Acc(e.cost, e.tokens, e.requests)
  }

  /** The component-wise sum of a sequence of daily rollups. */
  function SumEntries(s: seq<DailyCost>): Acc
  {
    if s == [] then Zero else Plus(SumEntries(s[..|s| - 1]), AccOf(s[|s| - 1]))
  }

  lemma {:induction false} SumEntriesDerived(s: seq<DailyCost>)
    requires forall i :: 0 <= i < |s| ==> Derived(AccOf(s[i]))
    ensures Derived(SumEntries(s))
  {
    if s != [] {
      SumEntriesDerived(s[..|s| - 1]);
      PlusKeepsDerived(SumEntries(s[..|s| - 1]), AccOf(s[|s| - 1]));
    }
  }

  /** Strictly ascending dates: sorted, no date twice. */
  ghost predicate Ascending(s: seq<DailyCost>) {
    forall i, j :: 0 <= i < j < |s| ==> s[i].date < s[j].date
  }

  ghost predicate DistinctDates(s: seq<DailyCost>) {
    forall i, j :: 0 <= i < |s| && 0 <= j < |s| && i != j ==> s[i].date != s[j].date
  }
}
