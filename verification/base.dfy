/** Shared vocabulary of the model: bytes, optional values, results and the
    errors the client hands back to its callers. */
module Base {

  /** One octet of a Go `[]byte` (or of a Go string, which is a byte sequence). */
  newtype byte = x: int | 0 <= x < 256

  /** A value that may be absent; `None` plays the part of Go's nil. */
  datatype Option<+T> = None | Some(value: T)

  /** The errors a call can produce. The client defines exactly one error of
      its own; every other error is produced by a collaborator outside the
      model (URL parsing in net/http, the transport, the JSON encoder, the
      body reader or the JSON decoder) and is only ever passed along. */
  datatype Error =
    | PostWrongDataType        // errPOSTWrongDataType
    | External(code: nat)      // an error value made by a collaborator

  /** A Go `(T, error)` pair in which exactly one side is meaningful. */
  datatype Result<+T> = Ok(value: T) | Err(error: Error)
}
