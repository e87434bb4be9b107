/** Failure-compatible wrappers used by every operation of the contract. */
module Outcomes {

  /** A value that may be missing: Go's nil. */
  datatype Option<+T> = None | Some(value: T)

  /** Either a value or an error: Go's `(T, error)` return pair. */
  datatype Result<+T, +E> = Ok(value: T) | Err(error: E) {

    predicate IsFailure() {
      Err?
    }

    function PropagateFailure<U>(): Result<U, E>
      requires Err?
    {
      Err(error)
    }

    function Extract(): T
      requires Ok?
    {
      value
    }
  }
}

/** The errors the contract reports. Go builds them with `fmt.Errorf`; here each
    distinct failure is a constructor carrying the values its message names. */
module Errors {

  datatype Error =
    | ClientIdentityUnavailable                       // the caller's MSP ID could not be read
    | PeerIdentityUnavailable                         // the executing peer's MSP ID could not be read
    | OrgMismatch(clientOrg: string, peerOrg: string) // caller org differs from peer org
    | ReadFailed(key: string)                         // GetState failed
    | WriteFailed(key: string)                        // PutState failed
    | DeleteFailed(key: string)                       // DelState failed
    | PolicyFailed(key: string)                       // building or attaching the endorsement policy failed
    | AlreadyExists(country: string, idNumber: string, dataOwner: string)
    | NotFound(country: string, idNumber: string, dataOwner: string)
    | QueryFailed(query: string)                      // the rich-query engine rejected the query
    | HistoryFailed(key: string)                      // the history database could not open the key's log
    | NextFailed                                      // an iterator's Next returned an error
    | DecodeFailed                                    // stored bytes are not a JSON record
    | TimestampInvalid                                // a history timestamp could not be converted
}
