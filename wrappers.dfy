/** Option and Result, the two failure-carrying types the Rust code uses. */
module Wrappers {

  datatype Option<+T> = None | Some(value: T) {
    /** `Option::or`: this value if present, otherwise `other`. */
    function Or(other: Option<T>): Option<T> {
      if Some? then this else other
    }

    /** `Option::unwrap_or`. */
    function GetOr(default: T): T {
      if Some? then value else default
    }
  }

  datatype Result<+R, +E> = Ok(value: R) | Err(error: E) {
    /** `Result::ok`. */
    function ToOption(): Option<R> {
      if Ok? then Some(value) else None
    }
  }
}
