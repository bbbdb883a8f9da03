/** Stock result types and the address type shared by the contracts. */
module Wrappers {
  datatype Option<+T> = None | Some(value: T) {
    function GetOr(default: T): T {
      if Some? then value else default
    }
  }

  /** A handler either succeeds or is rejected; a rejected handler leaves no trace. */
  datatype Result<+T, +E> = Ok(value: T) | Err(error: E)

  type Addr = string
}
