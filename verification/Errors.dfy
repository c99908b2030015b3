/** The engine's error values and its result type. */
module Errors {

  datatype Error =
    | InvalidMagic
    | UnsupportedVersion(version: nat)
    | UnexpectedEof(pos: nat)
    | UnknownMetadataType(id: nat)
    | UnknownTensorType(id: nat)
    | InvalidString(pos: nat)
    | MissingMetadata(key: string)
    | BackendError

  datatype Result<+T> = Success(value: T) | Failure(error: Error) {
    predicate IsFailure() { Failure? }

    function PropagateFailure<U>(): Result<U>
      requires Failure?
    {
      Failure(error)
    }

    function Extract(): T
      requires Success?
    {
      value
    }
  }

  datatype Option<+T> = None | Some(value: T)
}
