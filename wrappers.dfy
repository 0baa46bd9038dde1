/** Failure-carrying values shared by every module of the model.
    Python exceptions raised by the modelled code are values of `Error`. */
module Wrappers {

  /** The Python exception classes that the modelled code raises or catches. */
  datatype Error =
    | ValueError(msg: string)
    | KeyError(key: string)
    | RuntimeError(msg: string)
    | IndexError
    | TypeError
    | AttributeError
    | FileNotFoundError(msg: string)
    | FileExistsError(path: string)
    | NotADirectoryError(path: string)
    | IsADirectoryError(path: string)
    | IOError(msg: string)
    | AutoscaleError(msg: string)
    | UnboundLocalError(name: string)
    | AssertionError
    | Exception(msg: string)

  datatype Option<+T> = None | Some(value: T)

  datatype Result<+T> = Ok(value: T) | Err(error: Error)
}
