/** Optional values and the replies of fallible operations. */
module Wrappers {
  datatype Option<+T> = None | Some(value: T)
  {
    function GetOr(default: T): T {
      if Some? then value else default
    }
  }

  datatype Result<+T, +E> = Success(value: T) | Failure(error: E)

  /** SQL COALESCE: the first value unless it is null. */
  function Coalesce<T>(first: Option<T>, second: Option<T>): Option<T> {
    if first.Some? then first else second
  }

  /** Python truthiness of an optional string: present and not empty. */
  predicate Given(text: Option<string>) {
    text.Some? && text.value != ""
  }

  /** Python `text or default`. */
  function Or(text: Option<string>, default: string): string {
    if Given(text) then text.value else default
  }
}
