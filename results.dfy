/**
 * Failure values shared by the uploader and the cost estimator. A rejected
 * promise in the TypeScript program becomes an `Err` carrying one of the three error
 * kinds; nothing is ever swallowed or turned into a partial success.
 */
module Results {

  datatype Error =
    | CardinalityError(message: string)  // image and metadata counts differ
    | ParseError(path: string)           // a metadata file could not be read as a record
    | NetworkError(reason: string)       // an endpoint failed or gave no answer

  datatype Result<+T> = Ok(value: T) | Err(error: Error)

  datatype Option<+T> = None | Some(value: T)
}
