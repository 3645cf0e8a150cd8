/** The optional value used for nullable platform values and for "no row". */
module Wrappers {

  datatype Option<+T> = None | Some(value: T)

  /** The empty or one-element sequence holding an optional value. */
  function ToSeq<T>(o: Option<T>): (s: seq<T>)
    ensures |s| <= 1
    ensures o.Some? <==> |s| == 1
    ensures o.Some? ==> s[0] == o.value
  {
    match o
    case None => []
    case Some(v) => [v]
  }
}
