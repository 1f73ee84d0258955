/** Optional values, as JSON attributes that may be `null` arrive in the program. */
module Wrappers {

  /** `None` stands for a missing attribute or a JSON `null`. */
  datatype Option<+T> = None | Some(value: T)

  /**
   * Python truthiness of an optional text attribute: `None` and the empty
   * string are both false, every other string is true.
   */
  predicate IsTruthy(o: Option<string>)
  {
    o.Some? && o.value != ""
  }
}
