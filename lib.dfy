/** Shared vocabulary of the rule library: its result and option types and the
    shapes of the two kinds of user callback (src/lib.rs). */
module Tweak {

  /** The library's result type; the error type `E` is chosen by the caller and
      is only ever passed along, never inspected or built by the library. */
  datatype Result<+T, +E> = Ok(value: T) | Err(error: E)

  datatype Option<+T> = None | Some(value: T)

  /** A condition callback. It receives the caller's mutable context, so it is
      modelled as a total function returning the context as it left it, together
      with its verdict: a boolean or an error. */
  type WhenFn<!C, E> = C -> (C, Result<bool, E>)

  /** An action callback: it may change the context and reports success or an error. */
  type ThenFn<!C, E> = C -> (C, Result<(), E>)
}
