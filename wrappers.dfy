/** Small failure-carrying datatypes shared by the whole model. */
module Wrappers {

  /** A value that may be absent: a missing JSON field, a null column, a read that failed. */
  datatype Option<+T> = None | Some(value: T)

  /** JavaScript's `x || fallback` on an optional string: absent and '' both fall back. */
  function StringOr(s: Option<string>, fallback: string): (r: string)
    ensures s.Some? && s.value != "" ==> r == s.value
    ensures (s.None? || s.value == "") ==> r == fallback
  {
    match s
    case Some(v) => if v != "" then v else fallback
    case None => fallback
  }

  /** `x || fallback` on an optional value. For numbers with fallback 0 this is exactly
      `x || 0`, since a present 0 falls back to 0 as well. */
  function OptionOr<T>(x: Option<T>, fallback: T): (r: T)
    ensures x.Some? ==> r == x.value
    ensures x.None? ==> r == fallback
  {
    match x
    case Some(v) => v
    case None => fallback
  }
}
