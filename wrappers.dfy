/** Option and Result, the failure-compatible types the decoders return. */
module Wrappers {

  datatype Option<+T> = None | Some(value: T)

  /**
   * Why a decode stopped. The decoder itself never returns an error value:
   * each of these stands for a JavaScript exception that ends the decode.
   */
  datatype DecodeError =
    | ReadPastEnd(offset: int, width: int)  // a primitive read ran past the bytes its reader may address
    | UnknownMarker(firstByte: int)         // the first byte of the file is neither below 26 nor 'B' or 'S'
    | UndefinedAccess                       // a property read on an array slot that holds undefined
    | UndeclaredName                        // a reference to a name that is not declared (strict mode)
    | InvalidArrayLength(length: int)       // new Array(n) with a length JavaScript refuses

  datatype Result<+T> = Success(value: T) | Failure(error: DecodeError) {
    predicate IsFailure() { Failure? }
    function PropagateFailure<U>(): Result<U>
      requires Failure?
    {
      Failure(error)
    }
    function Extract(): T
      requires Success?
    {
      value
    }
  }
}
