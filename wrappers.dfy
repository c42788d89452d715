/** Optional values and outcomes shared by every module of the model. */
module Wrappers {

  datatype Option<T> = None | Some(value: T)
  {
    function GetOr(default: T): T
    {
      match this
      case None => default
      case Some(v) => v
    }
  }

  datatype Result<T, E> = Ok(value: T) | Err(error: E)

  /** The Python exception classes the modelled code raises or catches. */
  datatype ExnKind =
    | McpToolError
    | RuntimeError
    | ValueError
    | TypeError
    | KeyError
    | OSError
    | ConnectionError
    | AttributeError
    | ImportError
    | ValidationError
    | OtherError

  /** A raised exception: its class and the text `str(e)` gives. */
  datatype Exn = Exn(kind: ExnKind, msg: string)
}
