/** A value that may be absent: a nullable column, an optional header or JSON field. */
module Wrappers {

  datatype Option<+T> = None | Some(value: T)

  /** JavaScript truthiness of an optional string: `undefined`, `null` and `""` are falsy. */
  predicate Truthy(s: Option<string>): (t: bool)
    ensures t ==> s.Some? && |s.value| > 0
    ensures s.Some? && |s.value| > 0 ==> t
  {
    s.Some? && s.value != ""
  }
}
