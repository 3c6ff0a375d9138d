/** Small failure-carrying datatypes shared by every module of the model. */
module Wrappers {

  /** A value that may be missing: JavaScript's `null`/`undefined`, Python's `None`. */
  datatype Option<+T> = None | Some(value: T)

  /** True when the option holds a string that JavaScript or Python would treat as truthy (present and non-empty). */
  predicate Truthy(o: Option<string>)
  {
    o.Some? && o.value != []
  }
}
