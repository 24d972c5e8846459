/** The optional value used for thread handles and for parse results. */
module Wrappers {

  datatype Option<+T> = None | Some(value: T)

  /** The contents of an option as a sequence of zero or one element. */
  function ToSeq<T>(o: Option<T>): (r: seq<T>)
    ensures |r| <= 1
    ensures o.None? ==> r == []
    ensures o.Some? ==> r == [o.value]
  {
    match o
    case None => []
    case Some(v) => [v]
  }
}
