/** The optional value used throughout the model for Python's `None` and for
    operations that can fail (a parse that raises, a model call that raises). */
module Wrappers {

  datatype Option<+T> = None | Some(value: T)

  /** The empty or one-element sequence holding the value of an option. */
  function ToSeq<T>(o: Option<T>): (s: seq<T>)
    ensures o.None? ==> s == []
    ensures o.Some? ==> s == [o.value]
  {
    match o
    case None => []
    case Some(v) => [v]
  }
}
