/** The exceptions the scanner raises, as values, and the wrappers that carry them. */
module Outcomes {

  /** Why an operation of the scanner failed. */
  datatype ScannerError =
    | WrongExtension   // ValueError: the path does not contain ".tm"
    | ModelNotExist    // ModelNotExistError raised by the save guard
    | NoModel          // TypeError: the model field is None and is subscripted

  datatype Option<T> = None | Some(value: T)

  /** The outcome of an operation that returns nothing on success. */
  datatype Outcome = Pass | Fail(error: ScannerError)

  /** The outcome of an operation that returns a value on success. */
  datatype Result<T> = Ok(value: T) | Err(error: ScannerError)
}
