/** Shared vocabulary: an environment is a flat mapping of variable names to
    values, and JavaScript's "value or undefined" and "success or thrown error"
    are modelled by Option and Result. */
module Environment {

  /** The `Environment` record of the launcher: variable name to value. */
  type Env = map<string, string>

  datatype Option<+T> = None | Some(value: T) {
    function GetOr(default: T): T {
      match this
      case Some(v) => v
      case None => default
    }
  }

  /** A value, or the error a JavaScript `async` function would reject with. */
  datatype Result<+T, +E> = Ok(value: T) | Err(error: E)

  /** An optional boolean flag read with `flag === true` or `flag ?? false`:
      both treat `undefined` like `false`. */
  predicate IsTrue(flag: Option<bool>) {
    flag == Some(true)
  }
}
