/** Optional values and the JavaScript truthiness rule for numbers that may be absent. */
module Maybe {

  /** A value that may be missing (`null`/`undefined` in the front end). */
  datatype Option<+T> = None | Some(value: T)

  /** A number is truthy in JavaScript when it is present and not zero
      (NaN is left out: numbers here are reals). */
  predicate Truthy(x: Option<real>)
  {
    x.Some? && x.value != 0.0
  }
}
