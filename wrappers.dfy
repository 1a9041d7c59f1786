/** Failure-compatible wrappers for the values the pages read back from the store. */
module Wrappers {

  /** A nullable value: `null` / `undefined` in the pages is `None`. */
  datatype Option<+T> = None | Some(value: T) {
    function GetOr(default: T): T {
      match this
      case Some(v) => v
      case None => default
    }
  }

  /** The `{ data, error }` pair a store call resolves to. */
  datatype Result<+T, +E> = Ok(value: T) | Err(error: E)

  /** A store call that returns only an error, or nothing. */
  datatype Outcome<+E> = Pass | Fail(error: E)

  /** `s || null`: an empty string is stored as `null`. */
  function OrNull(s: seq<char>): (r: Option<seq<char>>)
    ensures r.None? <==> s == []
    ensures r.Some? ==> r.value == s
  {
    if s == [] then None else Some(s)
  }
}
