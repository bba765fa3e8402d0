/**
 * The error taxonomy of the library and the failure-carrying result types used
 * everywhere in the model in place of C++ exceptions, together with the fixed
 * width integer types of the public API.
 */
module Errors {

  /** The exceptions the public headers say an operation may throw. */
  datatype Error =
    | BadCast                  // std::bad_cast from a getAs...Command downcast
    | MissingGroupError        // no tag of the requested group is stored
    | MissingTagError          // the group exists but the tag does not
    | MissingBufferError       // the tag has no buffer with the requested id
    | MissingItemError         // the element or sequence item does not exist
    | MemorySizeError          // a memory region lies outside the memory
    | DataHandlerConversionError
    | DataSetWrongFrameError
    | DataSetDifferentFormatError
    | DataSetImageDoesntExistError

  datatype Result<+T> = Ok(value: T) | Err(error: Error)
  {
    predicate IsFailure() { Err? }

    function PropagateFailure<U>(): Result<U>
      requires Err?
    {
      Err(error)
    }

    function Extract(): T
      requires Ok?
    {
      value
    }
  }

  /** A value that may be absent. */
  datatype Option<+T> = None | Some(value: T)

  /** The result of an operation that returns nothing but may throw. */
  datatype Outcome = Pass | Fail(error: Error)

  type byte = bv8
  type uint16 = x: int | 0 <= x < 0x1_0000
  type uint32 = x: int | 0 <= x < 0x1_0000_0000
  type int32 = x: int | -0x8000_0000 <= x < 0x8000_0000

  predicate IsInt32(x: int) { -0x8000_0000 <= x < 0x8000_0000 }
  predicate IsUint32(x: int) { 0 <= x < 0x1_0000_0000 }
}
