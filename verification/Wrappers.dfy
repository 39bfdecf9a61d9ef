module Wrappers {
  datatype Option<+T> = None | Some(value: T)

  /** The result codes of the sensors@1.0 interface. */
  datatype Result = OK | PERMISSION_DENIED | NO_MEMORY | BAD_VALUE | INVALID_OPERATION
}
