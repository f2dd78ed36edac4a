/** Errors of the service and its collaborators, and the result types that carry them. */
module Results {

  datatype Option<T> = None | Some(value: T)

  /** The failures the create and resolve paths can report. */
  datatype Error =
    | CustomCodeTaken  // the caller's custom code is already in the store
    | TooManyRetries   // every generated code collided
    | NotFound         // the store holds no record for the code
    | StoreFailure     // the store could not answer
    | DuplicateKey     // the store's insert met an existing record with this code
    | CacheFailure     // the cache could not answer or could not be written

  datatype Result<T> = Ok(value: T) | Err(error: Error)
}
