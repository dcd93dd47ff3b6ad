/** Outcomes of the player's pure operations. Every `unwrap()` on an absent key,
    every out-of-range index and every division by a zero speed on the modelled
    paths becomes an `Err` that names the reason instead of a panic. */
module Results {

  datatype Option<+T> = None | Some(value: T)

  /** Why the source would stop (or, for `ZeroSpeed`, leave the finite numbers). */
  datatype Failure =
    | GapOnEmptyOutput            // a space rewrites the last symbol of an empty output
    | MissingAction(symbol: char) // the action table has no entry for this symbol
    | MissingProfile              // a speed marker is met but no speed profile was given
    | ProfileExhausted            // a speed marker is met after the profile ran out
    | ZeroSpeed                   // a unit would be computed from the speed 0

  datatype Result<+T> = Ok(value: T) | Err(error: Failure) {

    predicate IsFailure() {
      Err?
    }

    function PropagateFailure<U>(): Result<U>
      requires Err?
    {
      Err(error)
    }

    function Extract(): T
      requires Ok?
    {
      value
    }
  }
}
