/**
 * IDistributedCache as the cache providers use it: string payloads under
 * string keys with an absolute expiration relative to now.  The store is a
 * map; a store failure (connection loss, timeout) is a per-call `fault`.
 */
module Store {
  import opened Wrappers
  import opened Exceptions

  datatype Entry = Entry(payload: string, absoluteExpirationRelativeToNow: int)

  type Entries = map<string, Entry>

  /** DistributedCacheEntryOptions.AbsoluteExpirationRelativeToNow: the setter rejects a
      duration that is not strictly positive. */
  function EntryOptions(absoluteExpirationRelativeToNow: int): (r: Result<int, Exception>)
    ensures r.Success? <==> absoluteExpirationRelativeToNow > 0
    ensures r.Success? ==> r.value == absoluteExpirationRelativeToNow
    ensures r.Failure? ==> r.error.ArgumentOutOfRangeException?
  {
    if absoluteExpirationRelativeToNow <= 0 then Failure(ArgumentOutOfRangeException("AbsoluteExpirationRelativeToNow"))
    else Success(absoluteExpirationRelativeToNow)
  }

  /** GetStringAsync: the payload under the key, or null when there is none. */
  function Read(entries: Entries, key: Option<string>, fault: Option<Exception>): (r: Result<Option<string>, Exception>)
    ensures r.Success? <==> key.Some? && fault.None?
    ensures r.Success? ==> (r.value.Some? <==> key.value in entries)
    ensures r.Success? && r.value.Some? ==> r.value.value == entries[key.value].payload
  {
    if key.None? then Failure(ArgumentNullException("key"))
    else if fault.Some? then Failure(fault.value)
    else if key.value in entries then Success(Some(entries[key.value].payload))
    else Success(None)
  }

  /** SetStringAsync with its entry options built first, as the argument list evaluates:
      the expiration check, then the key check, then the store itself. */
  function Write(entries: Entries, key: Option<string>, payload: string, absoluteExpirationRelativeToNow: int, fault: Option<Exception>)
    : (r: Result<Entries, Exception>)
    ensures r.Success? <==> absoluteExpirationRelativeToNow > 0 && key.Some? && fault.None?
    ensures r.Failure? && absoluteExpirationRelativeToNow <= 0 ==> r.error.ArgumentOutOfRangeException?
    ensures r.Success? ==> r.value.Keys == entries.Keys + {key.value}
                           && r.value[key.value] == Entry(payload, absoluteExpirationRelativeToNow)
                           && forall k :: k in entries && k != key.value ==> r.value[k] == entries[k]
  {
    match EntryOptions(absoluteExpirationRelativeToNow)
    case Failure(e) => Failure(e)
    case Success(ttl) =>
      if key.None? then Failure(ArgumentNullException("key"))
      else if fault.Some? then Failure(fault.value)
      else Success(entries[key.value := Entry(payload, ttl)])
  }

  class DistributedCache {
    var entries: Entries

    constructor ()
      ensures entries == map[]
    {
      entries := map[];
    }

    method GetString(key: Option<string>, fault: Option<Exception>) returns (r: Result<Option<string>, Exception>)
      ensures r == Read(entries, key, fault)
    {
      if key.None? {
        return Failure(ArgumentNullException("key"));
      }
      if fault.Some? {
        return Failure(fault.value);
      }
      r := if key.value in entries then Success(Some(entries[key.value].payload)) else Success(None);
    }

    method SetString(key: Option<string>, payload: string, absoluteExpirationRelativeToNow: int, fault: Option<Exception>)
      returns (r: Outcome<Exception>)
      modifies this
      ensures var w := Write(old(entries), key, payload, absoluteExpirationRelativeToNow, fault);
              (w.Success? ==> r.Pass? && entries == w.value)
              && (w.Failure? ==> r == Fail(w.error) && entries == old(entries))
    {
      var options := EntryOptions(absoluteExpirationRelativeToNow);
      if options.Failure? {
        return Fail(options.error);
      }
      if key.None? {
        return Fail(ArgumentNullException("key"));
      }
      if fault.Some? {
        return Fail(fault.value);
      }
      entries := entries[key.value := Entry(payload, options.value)];
      r := Pass;
    }
  }

  /** What a successful write stored under a key is what a later read finds there. */
  lemma ReadAfterWrite(entries: Entries, key: string, payload: string, ttl: int)
    requires ttl > 0
    ensures Write(entries, Some(key), payload, ttl, None).Success?
    ensures Read(Write(entries, Some(key), payload, ttl, None).value, Some(key), None) == Success(Some(payload))
  {
  }

  /** A write to one key leaves reads of every other key as they were. */
  lemma WriteLeavesOtherKeys(entries: Entries, key: string, other: string, payload: string, ttl: int, fault: Option<Exception>)
    requires other != key
    requires Write(entries, Some(key), payload, ttl, fault).Success?
    ensures Read(Write(entries, Some(key), payload, ttl, fault).value, Some(other), None) == Read(entries, Some(other), None)
  {
  }
}
