/** Failure-carrying values shared by every module of the model.

    Java's `null` becomes `Option.None`; a thrown exception becomes `Result.Err`
    carrying the kind of exception. */
module Base {

  datatype Option<+T> = None | Some(value: T)

  /** The Java exceptions the core can raise. */
  datatype Fault =
    | NullPointer         // a method called on, or a switch over, a null reference
    | IndexOutOfBounds    // an array index outside the array
    | IllegalArgument     // `Random.nextInt` with a bound that is not positive
    | NegativeArraySize   // `new T[n]` with `n < 0`
    | IOFailure           // `IOException`, raised by the loader or for an unknown extension
    | OpenALFailure(message: string)  // `OpenALException` carrying its message

  datatype Result<+T> = Ok(value: T) | Err(fault: Fault)
}
