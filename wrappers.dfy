/** Optional values and the JavaScript truthiness rule the handlers and views test with `!x`. */
module Wrappers {

  /** An optional value: `None` stands for `undefined` or `null`. */
  datatype Option<+T> = None | Some(value: T)

  /** A string field is truthy in JavaScript when it is present and not the empty string. */
  predicate Truthy(o: Option<string>)
  {
    o.Some? && o.value != ""
  }
}
