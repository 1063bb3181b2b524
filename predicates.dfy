/**
 * Polly's handling predicates as the cache policy uses them: a
 * PolicyBuilder accumulates exception predicates (Handle<TException>, Or)
 * and result predicates (HandleResult, OrResult); a policy asks for the
 * first exception predicate that matches and whether any result predicate
 * matches.
 */
module Predicates {
  import opened Wrappers
  import opened Exceptions
  import opened CacheValues

  /** Handle<TException>(predicate): matches an exception that `is TException` and
      satisfies the predicate. */
  datatype ExceptionPredicate = ExceptionPredicate(exceptionType: string, condition: Exception -> bool)

  /** HandleResult(result) matches by Equals, which for CacheValue is reference identity
      (null matching null); HandleResult(predicate) applies the predicate. */
  datatype ResultPredicate =
    | ResultEquals(expected: CacheValue?)
    | ResultSatisfies(condition: Option<ValueData> -> bool)

  /** The condition of Handle<TException>() without a predicate. */
  function AnyException(): Exception -> bool {
    e => true
  }

  predicate ExceptionMatches(p: ExceptionPredicate, e: Exception) {
    IsInstanceOf(e, p.exceptionType) && p.condition(e)
  }

  predicate ResultMatches(p: ResultPredicate, r: CacheValue?)
    reads r
  {
    match p
    case ResultEquals(expected) => r == expected
    case ResultSatisfies(condition) => condition(DataOf(r))
  }

  /** ExceptionPredicates.FirstMatchOrDefault: the predicates are tried in order and the
      exception is returned by the first that matches; null when none does. */
  function FirstMatchOrDefault(predicates: seq<ExceptionPredicate>, e: Exception): (r: Option<Exception>)
    ensures r.Some? ==> r.value == e
    ensures r.Some? <==> exists i :: 0 <= i < |predicates| && ExceptionMatches(predicates[i], e)
  {
    if predicates == [] then None
    else if ExceptionMatches(predicates[0], e) then Some(e)
    else
      var rest := FirstMatchOrDefault(predicates[1..], e);
      assert forall i :: 1 <= i < |predicates| ==> predicates[i] == predicates[1..][i - 1];
      rest
  }

  /** ResultPredicates.AnyMatch. */
  predicate AnyMatch(predicates: seq<ResultPredicate>, r: CacheValue?)
    reads r
  {
    exists i :: 0 <= i < |predicates| && ResultMatches(predicates[i], r)
  }

  /** The index of the predicate that decides FirstMatchOrDefault: the first that matches. */
  function FirstMatchIndex(predicates: seq<ExceptionPredicate>, e: Exception): (k: nat)
    requires FirstMatchOrDefault(predicates, e).Some?
    ensures k < |predicates| && ExceptionMatches(predicates[k], e)
    ensures forall j :: 0 <= j < k ==> !ExceptionMatches(predicates[j], e)
  {
    if ExceptionMatches(predicates[0], e) then 0
    else
      assert forall i :: 1 <= i < |predicates| ==> predicates[i] == predicates[1..][i - 1];
      1 + FirstMatchIndex(predicates[1..], e)
  }

  /** Polly's PolicyBuilder<TResult>: Or and OrResult add to its lists in place. */
  class PolicyBuilder {
    var exceptionPredicates: seq<ExceptionPredicate>
    var resultPredicates: seq<ResultPredicate>

    /** Policy<TResult>.Handle<TException>(predicate). */
    constructor Handle(exceptionType: string, condition: Exception -> bool)
      ensures exceptionPredicates == [ExceptionPredicate(exceptionType, condition)] && resultPredicates == []
    {
      exceptionPredicates := [ExceptionPredicate(exceptionType, condition)];
      resultPredicates := [];
    }

    /** Policy.HandleResult<TResult>(result or predicate). */
    constructor HandleResult(p: ResultPredicate)
      ensures exceptionPredicates == [] && resultPredicates == [p]
    {
      exceptionPredicates := [];
      resultPredicates := [p];
    }

    /** Or<TException>(predicate): one more exception alternative, after the others. */
    method Or(exceptionType: string, condition: Exception -> bool)
      modifies this
      ensures exceptionPredicates == old(exceptionPredicates) + [ExceptionPredicate(exceptionType, condition)]
      ensures resultPredicates == old(resultPredicates)
    {
      exceptionPredicates := exceptionPredicates + [ExceptionPredicate(exceptionType, condition)];
    }

    /** OrResult(result or predicate): one more result alternative, after the others. */
    method OrResult(p: ResultPredicate)
      modifies this
      ensures resultPredicates == old(resultPredicates) + [p]
      ensures exceptionPredicates == old(exceptionPredicates)
    {
      resultPredicates := resultPredicates + [p];
    }
  }

  /** Handle<TException>() matches exactly the instances of TException. */
  lemma HandleWithoutPredicateMatchesType(exceptionType: string, e: Exception)
    ensures ExceptionMatches(ExceptionPredicate(exceptionType, AnyException()), e) <==> IsInstanceOf(e, exceptionType)
  {
  }

  /** Appending an alternative never changes the verdict of the earlier ones: the first
      match stays the first match, and the new one decides only when none matched. */
  lemma {:induction false} OrKeepsEarlierVerdict(predicates: seq<ExceptionPredicate>, p: ExceptionPredicate, e: Exception)
    ensures FirstMatchOrDefault(predicates + [p], e)
            == if FirstMatchOrDefault(predicates, e).Some? then FirstMatchOrDefault(predicates, e)
               else if ExceptionMatches(p, e) then Some(e) else None
  {
    if predicates == [] {
      assert [] + [p] == [p];
      assert [p][1..] == [];
    } else {
      assert (predicates + [p])[1..] == predicates[1..] + [p];
      OrKeepsEarlierVerdict(predicates[1..], p, e);
    }
  }

  /** Appending a result alternative adds exactly its matches. */
  lemma OrResultAddsItsMatches(predicates: seq<ResultPredicate>, p: ResultPredicate, r: CacheValue?)
    ensures AnyMatch(predicates + [p], r) <==> AnyMatch(predicates, r) || ResultMatches(p, r)
  {
    if ResultMatches(p, r) {
      assert (predicates + [p])[|predicates|] == p;
    }
    if AnyMatch(predicates, r) {
      var i :| 0 <= i < |predicates| && ResultMatches(predicates[i], r);
      assert (predicates + [p])[i] == predicates[i];
    }
  }

  /** With no predicates nothing is handled. */
  lemma NoPredicatesHandleNothing(e: Exception, r: CacheValue?)
    ensures FirstMatchOrDefault([], e) == None
    ensures !AnyMatch([], r)
  {
  }
}
