/** The two exceptions the adapter raises itself, and the result type that carries them. */
module Errors {
  import opened PhpValues

  datatype QueueError =
      /** "Unable to authenticate to 'scheme://host:port'" */
    | AuthenticationFailed(scheme: Value, host: Value, port: Value)
      /** "<operation>() is not supported in this adapter" */
    | NotSupported(operation: string)

  datatype Result<+T> = Success(value: T) | Failure(error: QueueError)
}
