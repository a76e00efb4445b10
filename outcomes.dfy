/** Optional values, the exceptions the parser can raise, and a result type
    that carries either a value or the first exception raised. */
module Outcomes {

  datatype Option<+T> = None | Some(value: T)

  /** The exceptions raised by the schema front-end. `ParsingError` is the
      project's own error kind: a message and the name of the item it
      concerns (empty when there is none). The other three are raised by
      the Python runtime or by the item factory. */
  datatype Error =
    | ParsingError(msg: string, context: string)
      // built-in TypeError: `in` or `[...]` applied to a value that does
      // not support it (its wording is not modelled)
    | TypeError
      // built-in RuntimeError raised by the item factory
    | RuntimeError(msg: string)
      // built-in ValueError raised by str.format on a malformed template
    | ValueError(msg: string)

  /** Either the value computed or the first exception raised; usable with `:-`. */
  datatype Result<+T> = Ok(value: T) | Err(error: Error) {

    predicate IsFailure() {
      Err?
    }

    function PropagateFailure<U>(): Result<U>
      requires Err?
    {
      Err(error)
    }

    function Extract(): T
      requires Ok?
    {
      value
    }
  }
}
