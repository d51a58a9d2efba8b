/** An absent-or-present value: JavaScript's `undefined`/`null` versus a value. */
module Options {

  datatype Option<+T> = None | Some(value: T) {

    /** The value, or `default` when absent (JavaScript's `x ?? default`). */
    function GetOr(default: T): T {
      match this
      case Some(v) => v
      case None => default
    }
  }

  /** JavaScript truthiness of an optional boolean flag: only a stored `true` counts. */
  predicate IsTrue(b: Option<bool>) {
    b == Some(true)
  }

  /** `x !== false` on an optional boolean: anything but a stored `false`. */
  predicate NotFalse(b: Option<bool>) {
    b != Some(false)
  }
}
