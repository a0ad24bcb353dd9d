/** Option and Result, the two wrappers the bot's Rust code uses for absent
    values and for `?`-propagated errors. Both are failure-compatible, so
    `var x :- e; …` reads like Rust's `let x = e?; …`. */
module Wrappers {

  datatype Option<+T> = None | Some(value: T)

  datatype Result<+T, +E> = Ok(value: T) | Err(error: E) {

    predicate IsFailure() {
      Err?
    }

    function PropagateFailure<U>(): Result<U, E>
      requires Err?
    {
      Err(error)
    }

    function Extract(): T
      requires Ok?
    {
      value
    }
  }
}
