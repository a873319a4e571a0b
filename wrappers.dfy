/** Option and Result, used for Kotlin's nullable values and for thrown exceptions. */
module Wrappers {

  datatype Option<+T> = None | Some(value: T)

  datatype Result<+T, +E> = Success(value: T) | Failure(error: E)

  /** Kotlin's `o?.let(f)`: apply `f` to a present value, keep an absent one absent. */
  function OptionMap<T, U>(f: T -> U, o: Option<T>): (r: Option<U>)
    ensures r.Some? <==> o.Some?
    ensures o.Some? ==> r.value == f(o.value)
  {
    match o
    case None => None
    case Some(v) => Some(f(v))
  }

  /** The list of a possibly absent value: `[v]` or `[]`. */
  function OptionToSeq<T>(o: Option<T>): (r: seq<T>)
    ensures |r| == (if o.Some? then 1 else 0)
    ensures o.Some? ==> r == [o.value]
  {
    match o
    case None => []
    case Some(v) => [v]
  }
}
