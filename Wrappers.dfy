/** Optional values: a JSON field that may be null, or a dictionary key that may be absent. */
module Wrappers {

  datatype Option<+T> = None | Some(value: T)

  /** Python's `str()` of a value that may be `None`, as an f-string renders it. */
  function PyStr(o: Option<string>): string
  {
    match o
    case None => "None"
    case Some(s) => s
  }
}
