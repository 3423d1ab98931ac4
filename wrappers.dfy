/** The optional value used wherever the JavaScript source yields `undefined` or `null`. */
module Wrappers {

  datatype Option<T> = None | Some(value: T)

  /** One key of the spread merge `{ ...current, ...given }`: the given value when the key is
      present in `given`, the current one otherwise. */
  function Override<T>(current: T, given: Option<T>): T
  {
    if given.Some? then given.value else current
  }
}
