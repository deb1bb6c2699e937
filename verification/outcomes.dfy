/** Errors the House contract can return, the result type that carries them,
    and the caller identity the host platform resolves for each invocation. */
module Outcomes {

  /** One constructor per distinct error the contract returns. */
  datatype Error =
    /** GetState itself failed; wrapped as "failed to read from world state". */
    | ReadFailed(key: string)
    /** Nothing is stored under the id ("the House %s does not exist"). */
    | DoesNotExist(id: string)
    /** Something is already stored under the id ("the House %s already exists"). */
    | AlreadyExists(id: string)
    /** The stored bytes are not the encoding of a House. */
    | Undecodable
    /** The client identity could not be resolved; its reason is passed on as is. */
    | IdentityFailure(reason: string)
    /** The caller is not the current Owner of the House. */
    | NotOwner
    /** PutState failed for the key. */
    | WriteFailed(key: string)
    /** GetStateByRange could not open the scan. */
    | ScanFailed
    /** The scan's iterator failed while producing the entry for the key. */
    | IteratorFailed(key: string)

  datatype Result<T> = Ok(value: T) | Err(error: Error)

  /** The caller's membership-service-provider id, or the reason it could not be resolved. */
  datatype Identity = Resolved(mspId: string) | Unresolved(reason: string)
}
