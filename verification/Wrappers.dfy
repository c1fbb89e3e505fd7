/** The option and result types of the server, and the errors its calls return. */
module Wrappers {

  datatype Option<+T> = None | Some(value: T)

  datatype Result<+T, +E> = Ok(value: T) | Err(error: E)

  /** The error kinds that the modelled calls produce. */
  datatype ServerError =
    | WebRTCError(message: string)
    | InvalidSessionError(id: string)
    | InvalidPeerConnection(id: string)
    | InvalidStateError(message: string)
    | InternalError(message: string)
    | NotFound
}
