/** Tagged outcomes standing in for the source's exceptions and optional
    dictionary keys. */
module Outcomes {

  /** A dictionary entry that is present, or a key the dictionary lacks. */
  datatype Option<+T> = None | Some(value: T)

  /** Python's `d.get(key, fallback)`: the entry when present, else the fallback. */
  function ValueOr<T>(o: Option<T>, fallback: T): T
  {
    if o.Some? then o.value else fallback
  }

  /** The outcome of a call that may raise; the error carries the exception's message. */
  datatype Result<+T> = Ok(value: T) | Err(error: string)
}
