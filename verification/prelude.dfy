/** The two result shapes used throughout: an optional value and a fallible one. */
module Prelude {

  datatype Option<+T> = None | Some(value: T)

  datatype Result<+T, +E> = Ok(value: T) | Err(error: E)

  /** The events, packets or responses an optional value contributes to a log. */
  function Opt<T>(o: Option<T>): (s: seq<T>) {
    if o.Some? then [o.value] else []
  }
}
