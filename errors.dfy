/** Optional values and the error kinds every storage operation reports. */
module Wrappers {

  /** A value that may be absent (a nil reference or a missing map entry). */
  datatype Option<+T> = None | Some(value: T)
}

module Errors {

  /** The error kinds the storage layer reports. Message text is not modelled:
      an error is identified by its kind, as `errors.Is` identifies it. */
  datatype Error =
    | SegmentNotInitiated        // the upload ID is not in the segment table
    | SegmentPartsEmpty          // completing an upload that has no parts
    | StorageClassNotSupported   // the backend reported an unknown storage class
    | NoAvailableDomains         // a kodo bucket without any domain
    | Unhandled(cause: string)   // an error of a backend call, passed on unchanged

  /** The outcome of an operation that yields a value or fails. */
  datatype Result<+T> = Ok(value: T) | Err(error: Error)
}
