/**
 * The Polly execution context: a mutable string-keyed bag, and the
 * extension methods (ContextExtensions) that keep the cache key and the
 * operation name in two fixed slots of it.
 */
module Contexts {
  import opened Wrappers
  import opened Exceptions
  import Guards

  /** A value held in the bag: a string, or an object of some other type. */
  datatype ContextItem = Text(s: string) | OtherObject(typeName: string)

  type Items = map<string, ContextItem>

  const CacheKeySlot: string := "CacheKey"
  const OperationNameSlot: string := "OperationName"

  class Context {
    var items: Items

    constructor ()
      ensures items == map[]
    {
      items := map[];
    }
  }

  /** `value as string` on the item in `slot`: null when the slot is absent or holds a non-string. */
  function TextIn(items: Items, slot: string): Option<string> {
    if slot in items && items[slot].Text? then Some(items[slot].s) else None
  }

  /** `GetCacheKey`: the cache-key slot read `as string`. */
  function GetCacheKey(items: Items): (key: Option<string>)
    ensures key.Some? <==> CacheKeySlot in items && items[CacheKeySlot].Text?
    ensures key.Some? ==> items[CacheKeySlot] == Text(key.value)
  {
    TextIn(items, CacheKeySlot)
  }

  /** `GetOperationName`: the operation-name slot read `as string`. */
  function GetOperationName(items: Items): (name: Option<string>)
    ensures name.Some? <==> OperationNameSlot in items && items[OperationNameSlot].Text?
    ensures name.Some? ==> items[OperationNameSlot] == Text(name.value)
  {
    TextIn(items, OperationNameSlot)
  }

  /** `WithCacheKey`: validates the key before touching the context, then stores it in the
      cache-key slot (overwriting any earlier key) and hands back the same context. */
  method WithCacheKey(context: Context, cacheKey: Option<string>) returns (r: Result<Context, Exception>)
    modifies context
    ensures r.Failure? <==> Guards.IsNullOrWhiteSpace(cacheKey)
    ensures r.Failure? ==> r.error.ArgumentException? && unchanged(context)
    ensures r.Success? ==> r.value == context
                           && context.items == old(context.items)[CacheKeySlot := Text(cacheKey.value)]
  {
    var check := Guards.ThrowIfNullOrWhiteSpace(cacheKey, "cacheKey");
    if check.Fail? {
      return Failure(check.error);
    }
    context.items := context.items[CacheKeySlot := Text(cacheKey.value)];
    r := Success(context);
  }

  /** `WithOperationName`: the same as `WithCacheKey`, for the operation-name slot. */
  method WithOperationName(context: Context, operationName: Option<string>) returns (r: Result<Context, Exception>)
    modifies context
    ensures r.Failure? <==> Guards.IsNullOrWhiteSpace(operationName)
    ensures r.Failure? ==> r.error.ArgumentException? && unchanged(context)
    ensures r.Success? ==> r.value == context
                           && context.items == old(context.items)[OperationNameSlot := Text(operationName.value)]
  {
    var check := Guards.ThrowIfNullOrWhiteSpace(operationName, "operationName");
    if check.Fail? {
      return Failure(check.error);
    }
    context.items := context.items[OperationNameSlot := Text(operationName.value)];
    r := Success(context);
  }

  /** What `WithCacheKey` stores, `GetCacheKey` reads back; the operation name is not touched. */
  lemma CacheKeyRoundTrip(items: Items, key: string)
    ensures GetCacheKey(items[CacheKeySlot := Text(key)]) == Some(key)
    ensures GetOperationName(items[CacheKeySlot := Text(key)]) == GetOperationName(items)
  {
  }

  /** What `WithOperationName` stores, `GetOperationName` reads back; the cache key is not touched. */
  lemma OperationNameRoundTrip(items: Items, name: string)
    ensures GetOperationName(items[OperationNameSlot := Text(name)]) == Some(name)
    ensures GetCacheKey(items[OperationNameSlot := Text(name)]) == GetCacheKey(items)
  {
  }

  /** A second `WithCacheKey` overwrites the first. */
  lemma LastCacheKeyWins(items: Items, first: string, second: string)
    ensures GetCacheKey(items[CacheKeySlot := Text(first)][CacheKeySlot := Text(second)]) == Some(second)
  {
  }

  /** The getters give null when the slot holds an object that is not a string. */
  lemma NonStringSlotReadsNull(items: Items, typeName: string)
    ensures GetCacheKey(items[CacheKeySlot := OtherObject(typeName)]) == None
    ensures GetOperationName(items[OperationNameSlot := OtherObject(typeName)]) == None
  {
  }
}
