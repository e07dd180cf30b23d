/** The optional values of the model: a JSON key that may be absent. */
module Opt {

  datatype Option<+T> = None | Some(value: T)

  /** JavaScript truthiness of an optional string: present and not the empty string. */
  predicate Truthy(o: Option<string>)
  {
    o.Some? && o.value != ""
  }

  /** The value of `o || fallback` for an optional string. */
  function OrElse(o: Option<string>, fallback: string): (r: string)
    ensures Truthy(o) ==> r == o.value
    ensures !Truthy(o) ==> r == fallback
  {
    if Truthy(o) then o.value else fallback
  }
}
