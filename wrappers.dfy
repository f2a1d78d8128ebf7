/** An optional value: `None` stands for a nil pointer. */
module Wrappers {
  datatype Option<+T> = None | Some(value: T)

  /** The elements an optional value holds: none or exactly one. */
  function OptionToSeq<T>(o: Option<T>): (r: seq<T>)
    ensures |r| <= 1
    ensures o.Some? <==> r != []
    ensures r != [] ==> r[0] == o.value
  {
    match o
    case None => []
    case Some(v) => [v]
  }
}
