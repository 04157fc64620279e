/** Option and Result, the two shapes every handler of the plugin returns. */
module Wrappers {

  datatype Option<+T> = None | Some(value: T)

  /** A JSON reply: `wp_send_json_success(value)` or `wp_send_json_error(error)`. */
  datatype Result<+T, +E> = Success(value: T) | Failure(error: E)
}
