/** Failure values standing for the exceptions the game can raise. */
module Faults {

  /** Why an operation did not complete; each one is an exception in the Java program. */
  datatype Fault =
    | EmptyDeck    // remove(0) on an empty card list (IndexOutOfBoundsException)
    | BadIndex     // a negative remainder used as an enum index in Card.valueOf
    | NoInput      // the console has no further line to read (NoSuchElementException)
    | Unsupported  // dealNext asked of a Player (UnsupportedOperationException)

  /** Either the value an operation returns or the fault it raised. */
  datatype Result<+T> = Ok(value: T) | Err(fault: Fault)
}
