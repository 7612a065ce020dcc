/** The optional value used for JavaScript's "a value or undefined/null". */
module Wrappers {

  datatype Option<+T> = None | Some(value: T)

  /** JavaScript truthiness of a value that is either a string or absent:
      undefined, null and "" are falsy, every other string is truthy. */
  predicate Truthy(s: Option<string>)
  {
    s.Some? && s.value != ""
  }

  /** The string a possibly-absent value contributes once only its truthiness
      matters: every falsy value becomes "". */
  function TextOf(s: Option<string>): (t: string)
    ensures t != "" <==> Truthy(s)
    ensures Truthy(s) ==> t == s.value
  {
    if s.Some? then s.value else ""
  }
}
