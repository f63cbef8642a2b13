/** Option and Result values, and the exceptions the modelled code raises. */
module Wrappers {

  datatype Option<+T> = None | Some(value: T) {
    function GetOr(default: T): T {
      match this
      case Some(v) => v
      case None => default
    }
  }

  datatype Result<+R, +E> = Success(value: R) | Failure(error: E)

  /** The exceptions raised by the Python services and the errors thrown by the TypeScript one. */
  datatype Error =
    | RuntimeError(message: string)
    | ValueError(message: string)
    | TypeError(message: string)
    | KeyError(key: string)
    | IndexError
    | FileNotFoundError(message: string)
    | JsError(message: string)
    | LibraryError(message: string)  // raised inside a library outside the model; its `str()`
  {
    /** What `str(e)` or `error.message` gives for the error. */
    function Message(): string {
      match this
      case RuntimeError(m) => m
      case ValueError(m) => m
      case TypeError(m) => m
      case KeyError(k) => "'" + k + "'"
      case IndexError => "list index out of range"
      case FileNotFoundError(m) => m
      case JsError(m) => m
      case LibraryError(m) => m
    }
  }
}
