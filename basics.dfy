/** Small value types shared by the data loader and the video gallery. */
module Basics {

  /** An optional value (Swift's `T?`). */
  datatype Option<+T> = None | Some(value: T)

  /** A value or the error that replaced it (a fulfilled or rejected promise, a throwing call). */
  datatype Result<+T, +E> = Success(value: T) | Failure(error: E)

  /**
   * A Foundation `URL` as the rest of the program sees it. The URL parser is foreign
   * code, so a `Url` is never computed from a string here: it is handed in by the
   * environment together with the components the program reads from it.
   */
  datatype Url = Url(absoluteString: string, path: string, lastPathComponent: string)

  /** `Int32.max`: the largest value an `Int32(_:)` conversion accepts without trapping. */
  const Int32Max: int := 0x7fff_ffff

  /** `sequence.first` */
  function First<T>(s: seq<T>): (r: Option<T>)
    ensures r.Some? <==> |s| > 0
    ensures r.Some? ==> r.value == s[0]
  {
    if |s| > 0 then Some(s[0]) else None
  }

  /** `sequence.last` */
  function Last<T>(s: seq<T>): (r: Option<T>)
    ensures r.Some? <==> |s| > 0
    ensures r.Some? ==> r.value == s[|s| - 1]
  {
    if |s| > 0 then Some(s[|s| - 1]) else None
  }
}
