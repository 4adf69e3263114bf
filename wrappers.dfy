/** Small value types shared by the whole model: an optional value, the
    panics the dashboard can hit, and a result that is either a value or
    the panic that aborted the computation. */
module Wrappers {

  datatype Option<T> = None | Some(value: T)

  /** Every way the modelled code can panic. */
  datatype Fault =
    | NotImplemented            // a `todo!()` arm
    | Unreachable               // an `unreachable!()` arm
    | SubtractOverflow          // a `usize` subtraction that would drop below zero
    | RemovalIndexOutOfBounds   // `Vec::remove` with an index not below the length

  datatype Result<T> = Ok(value: T) | Err(fault: Fault)
}
