/** Failure-carrying result types shared by the whole model.
    The source signals errors by panicking with an InputErr (recovered at the
    remote-control boundary); here every such panic is an explicit `Fail`/`Err`. */
module Wrappers {

  datatype Option<+T> = None | Some(value: T)

  /** The error kinds the modelled code can raise. */
  datatype Error =
    | InputErr(msg: string)         // panic(InputErr(...)) in the source
    | NoSuchQuant(name: string)     // looking up a quantity the engine does not have
    | DuplicateQuant(name: string)  // declaring a quantity twice
    | NotSumUpdater(name: string)   // the type assertion `.(*SumUpdater)` fails
    | BadArity(name: string)        // a value with the wrong number of components
    | WrongKind(name: string)       // a quantity of a kind the operation does not accept
    | IndexOutOfRange               // Go's run-time panic on a slice index
    | NilDereference                // Go's run-time panic on a method call through nil

  /** Outcome of an operation that returns nothing on success. */
  datatype Outcome = Pass | Fail(error: Error)

  /** Outcome of an operation that returns a value on success. */
  datatype Result<+T> = Ok(value: T) | Err(error: Error)
}
