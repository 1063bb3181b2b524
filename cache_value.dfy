/**
 * The cacheable value contract (CacheValue): an optional grace time stamp
 * after which a cached copy is stale, the null sentinel, and the freshness
 * rule.  Times are ticks; durations are TimeSpan ticks and may be negative.
 * A DateTimeOffset holds ticks from 0 to MaxTicks; date arithmetic that
 * leaves that range throws.
 */
module CacheValues {
  import opened Wrappers
  import opened Exceptions

  /**
   * The fields a cached value persists: the two CacheValue fields and the
   * derived type's own data, represented by one nullable string member
   * (`ChildMemberVariable` of the serializer test target).
   */
  datatype ValueData = ValueData(graceTimeStamp: Option<int>, isNull: bool, child: Option<string>)

  /** Fresh iff there is no grace time stamp (entries written before grace existed) or
      the stamp lies strictly after `now`. */
  predicate IsFreshAt(graceTimeStamp: Option<int>, now: int) {
    graceTimeStamp.None? || graceTimeStamp.value > now
  }

  /** The fields after `SetGraceTimeStamp(graceTimeRelativeToNow)` at time `now`. */
  function WithGrace(d: ValueData, now: int, graceTimeRelativeToNow: int): ValueData {
    d.(graceTimeStamp := Some(now + graceTimeRelativeToNow))
  }

  /** DateTime.MaxValue.Ticks: the last tick a DateTimeOffset can hold. */
  const MaxTicks: int := 3155378975999999999

  predicate InTickRange(t: int) {
    0 <= t <= MaxTicks
  }

  /** `DateTimeOffset.Now.Add(graceTimeRelativeToNow)` at time `now`: the stamp, or the
      ArgumentOutOfRangeException date arithmetic throws outside the representable range. */
  function GraceStamp(now: int, graceTimeRelativeToNow: int): (r: Result<int, Exception>)
    ensures r.Success? <==> InTickRange(now + graceTimeRelativeToNow)
    ensures r.Success? ==> r.value == now + graceTimeRelativeToNow && r.value - now == graceTimeRelativeToNow
    ensures r.Failure? ==> r.error == ArgumentOutOfRangeException("value")
  {
    if InTickRange(now + graceTimeRelativeToNow) then Success(now + graceTimeRelativeToNow)
    else Failure(ArgumentOutOfRangeException("value"))
  }

  class CacheValue {
    var graceTimeStamp: Option<int>
    var isNull: bool
    var child: Option<string>

    constructor (d: ValueData)
      ensures Data() == d
    {
      graceTimeStamp, isNull, child := d.graceTimeStamp, d.isNull, d.child;
    }

    function Data(): ValueData
      reads this
    {
      ValueData(graceTimeStamp, isNull, child)
    }

    /** `IsFresh()` with the clock reading passed in. */
    predicate IsFresh(now: int): (isFresh: bool)
      reads this
      ensures isFresh <==> graceTimeStamp.None? || now < graceTimeStamp.value
    {
      IsFreshAt(graceTimeStamp, now)
    }

    /** Stamps grace = now + duration in place when that time is representable; otherwise
        throws and leaves the object as it was.  Nothing else changes. */
    method SetGraceTimeStamp(now: int, graceTimeRelativeToNow: int) returns (r: Outcome<Exception>)
      modifies this
      ensures r.Pass? <==> GraceStamp(now, graceTimeRelativeToNow).Success?
      ensures r.Pass? ==> Data() == WithGrace(old(Data()), now, graceTimeRelativeToNow)
      ensures r.Fail? ==> r.error == GraceStamp(now, graceTimeRelativeToNow).error && Data() == old(Data())
    {
      var stamp := GraceStamp(now, graceTimeRelativeToNow);
      if stamp.Failure? {
        return Fail(stamp.error);
      }
      graceTimeStamp := Some(stamp.value);
      r := Pass;
    }
  }

  /** The fields of a possibly null result: None for a null reference. */
  function DataOf(v: CacheValue?): Option<ValueData>
    reads v
  {
    if v == null then None else Some(v.Data())
  }

  /** A value without a grace time stamp is fresh at every time. */
  lemma NoGraceIsAlwaysFresh(now: int)
    ensures IsFreshAt(None, now)
  {
  }

  /** With a stamp, fresh iff the stamp is strictly after now: reaching the stamp is stale. */
  lemma FreshIffBeforeStamp(stamp: int, now: int)
    ensures IsFreshAt(Some(stamp), now) <==> now < stamp
    ensures !IsFreshAt(Some(stamp), stamp)
  {
  }

  /** Staleness is monotone in time. */
  lemma StaleStaysStale(graceTimeStamp: Option<int>, t: int, later: int)
    requires t <= later
    requires !IsFreshAt(graceTimeStamp, t)
    ensures !IsFreshAt(graceTimeStamp, later)
  {
  }

  /** At the instant of stamping, the value is fresh iff the grace duration is positive. */
  lemma FreshRightAfterStamp(d: ValueData, now: int, grace: int)
    ensures IsFreshAt(WithGrace(d, now, grace).graceTimeStamp, now) <==> grace > 0
  {
  }

  /** Stamping keeps the null sentinel and the value's own data; the last stamp wins. */
  lemma StampKeepsOtherFields(d: ValueData, now: int, grace: int, later: int, grace2: int)
    ensures WithGrace(d, now, grace).isNull == d.isNull && WithGrace(d, now, grace).child == d.child
    ensures WithGrace(WithGrace(d, now, grace), later, grace2) == WithGrace(d, later, grace2)
  {
  }
}
