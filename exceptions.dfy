/**
 * The .NET exceptions the cache policy raises or observes.  An exception
 * is an instance of each type on its type chain (its own type and all its
 * base classes), which is what `catch` clauses and `Handle<TException>`
 * test against.
 */
module Exceptions {

  datatype Exception =
    | ArgumentNullException(paramName: string)
    | ArgumentException(message: string)
    | ArgumentOutOfRangeException(paramName: string)
    | NullReferenceException
      /** Any other exception, e.g. one thrown by a backend, a store or a library. */
    | Raised(types: seq<string>, message: string)

  /** The exception's own type name followed by its base class names. */
  function TypeChain(e: Exception): (chain: seq<string>)
    ensures |chain| > 0 && chain[|chain| - 1] == "Exception"
  {
    match e
    case ArgumentNullException(_) =>
      ["ArgumentNullException", "ArgumentException", "SystemException", "Exception"]
    case ArgumentException(_) => ["ArgumentException", "SystemException", "Exception"]
    case ArgumentOutOfRangeException(_) =>
      ["ArgumentOutOfRangeException", "ArgumentException", "SystemException", "Exception"]
    case NullReferenceException => ["NullReferenceException", "SystemException", "Exception"]
    case Raised(types, _) => types + ["Exception"]
  }

  /** C#'s `e is T`. */
  predicate IsInstanceOf(e: Exception, typeName: string) {
    typeName in TypeChain(e)
  }

  /** Every exception is an `Exception`, so `Handle<Exception>()` catches everything. */
  lemma EveryExceptionIsException(e: Exception)
    ensures IsInstanceOf(e, "Exception")
  {
    var chain := TypeChain(e);
    assert chain[|chain| - 1] == "Exception";
  }
}
