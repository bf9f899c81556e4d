/** Small value types shared by the whole model: optional values (Java
    references that may be null), collaborator outcomes, the error record
    handed to callbacks, and what a caller-supplied callback receives. */
module Wrappers {

  /** A Java reference that may be null: None stands for null. */
  datatype Option<+T> = None | Some(value: T) {
    function GetOr(default: T): T {
      match this
      case Some(v) => v
      case None => default
    }
  }

  /** The outcome an asynchronous collaborator delivers to its callback. */
  datatype Result<+R, +E> = Ok(value: R) | Err(error: E)

  /** The file-error codes the core itself raises; codes that come from the
      file system or the transfer collaborator are carried as Other. */
  datatype ErrorCode = NotFoundErr | AbortErr | SyntaxErr | NotReadableErr | Other(code: int)

  /** StorageError: an error code with a free-text reason that defaults to "". */
  datatype StorageError = StorageError(code: ErrorCode, reason: string)

  /** The one-argument StorageError constructor: the reason stays "". */
  function ErrorOf(code: ErrorCode): StorageError
  {
    StorageError(code, "")
  }

  /** What one caller-supplied callback has been told: nothing yet (or no
      callback was given), onSuccess with a value, or onFailure with an error. */
  datatype Reply<+T> = NoReply | Succeeded(value: T) | Failed(error: StorageError)
}
