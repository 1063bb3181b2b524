/**
 * Aging strategies: how long a result stays fresh (grace) and how long the
 * store keeps it (expiration).  IAgingStrategy is the pair of functions the
 * policy calls; either may throw.  FixedAgingStrategy returns constants read
 * once from named options.
 */
module Aging {
  import opened Wrappers
  import opened Exceptions
  import opened CacheValues
  import opened Contexts

  /** IAgingStrategy: grace and expiration for a result in a context. */
  datatype AgingStrategy = AgingStrategy(
    graceRelativeToNow: (ValueData, Items) -> Result<int, Exception>,
    expirationRelativeToNow: (ValueData, Items) -> Result<int, Exception>)

  /** FixedAgingStrategyOptions; an unset TimeSpan is default(TimeSpan), zero ticks. */
  datatype FixedAgingStrategyOptions = FixedAgingStrategyOptions(
    expirationRelativeToNow: int,
    graceRelativeToNow: int)

  const DefaultOptions: FixedAgingStrategyOptions := FixedAgingStrategyOptions(0, 0)

  datatype FixedAgingStrategy = FixedAgingStrategy(options: FixedAgingStrategyOptions)

  /** The constructor: `IOptionsSnapshot.Get(typeof(TResult).Name)`.  A configured name
      gives its options; any other name gives freshly constructed options, whose zero
      expiration the policy reads as "never write" and whose zero grace as "stale at once". */
  function NewFixedAgingStrategy(
    snapshot: map<string, FixedAgingStrategyOptions>, resultTypeName: string): (s: FixedAgingStrategy)
    ensures resultTypeName in snapshot ==> s.options == snapshot[resultTypeName]
    ensures resultTypeName !in snapshot ==> s.options.expirationRelativeToNow == 0 && s.options.graceRelativeToNow == 0
  {
    FixedAgingStrategy(if resultTypeName in snapshot then snapshot[resultTypeName] else DefaultOptions)
  }

  function GetGraceRelativeToNow(s: FixedAgingStrategy, result: ValueData, context: Items): int {
    s.options.graceRelativeToNow
  }

  function GetExpirationRelativeToNow(s: FixedAgingStrategy, result: ValueData, context: Items): int {
    s.options.expirationRelativeToNow
  }

  /** The fixed strategy seen through the IAgingStrategy interface: it never throws. */
  function AsAgingStrategy(s: FixedAgingStrategy): AgingStrategy {
    AgingStrategy(
      (result, context) => Success(GetGraceRelativeToNow(s, result, context)),
      (result, context) => Success(GetExpirationRelativeToNow(s, result, context)))
  }

  /** Both durations are the configured ones, whatever the result and the context. */
  lemma FixedIgnoresResultAndContext(
    s: FixedAgingStrategy, r1: ValueData, c1: Items, r2: ValueData, c2: Items)
    ensures GetGraceRelativeToNow(s, r1, c1) == GetGraceRelativeToNow(s, r2, c2) == s.options.graceRelativeToNow
    ensures GetExpirationRelativeToNow(s, r1, c1) == GetExpirationRelativeToNow(s, r2, c2)
                                                 == s.options.expirationRelativeToNow
  {
  }

  /** Through the interface the fixed strategy succeeds with the configured durations. */
  lemma FixedNeverThrows(s: FixedAgingStrategy, result: ValueData, context: Items)
    ensures AsAgingStrategy(s).graceRelativeToNow(result, context) == Success(s.options.graceRelativeToNow)
    ensures AsAgingStrategy(s).expirationRelativeToNow(result, context)
            == Success(s.options.expirationRelativeToNow)
  {
  }
}
