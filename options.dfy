/** A value that may be absent: TypeScript's `T | null` and optional parameters. */
module Options {

  datatype Option<+T> = None | Some(value: T)

  /** The elements of an optional value, as a sequence of length zero or one. */
  function AsSeq<T>(o: Option<T>): (s: seq<T>)
    ensures |s| <= 1
    ensures o.Some? <==> |s| == 1
    ensures o.Some? ==> s[0] == o.value
  {
    match o
    case None => []
    case Some(v) => [v]
  }
}
