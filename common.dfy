/** Small value types shared by every module of the model. */
module Common {

  /** `T | undefined`: a value that may be missing. */
  datatype Option<+T> = None | Some(value: T) {
    /** `this ?? default` */
    function GetOr(default: T): T {
      match this
      case Some(v) => v
      case None => default
    }
  }

  /** The settled value of a promise: fulfilled with a value, or rejected. */
  datatype Result<+T, +E> = Ok(value: T) | Err(error: E)

  /** JavaScript truthiness of an optional string: present and not `''`. */
  predicate Truthy(s: Option<string>) {
    s.Some? && s.value != ""
  }
}
