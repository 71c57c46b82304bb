/** Values shared by the installer's modules: optional values, and the way
    Python treats an optional string as a truth value (`x or d`, `if x`). */
module Common {

  datatype Option<+T> = None | Some(value: T)

  /** `bool(x)` for an `Optional[str]`: `None` and the empty string are false. */
  predicate Truthy(x: Option<string>)
  {
    x.Some? && x.value != ""
  }

  /** Python's `x or d` on an `Optional[str]` and a string. */
  function Or(x: Option<string>, d: string): (r: string)
    ensures Truthy(x) ==> r == x.value
    ensures !Truthy(x) ==> r == d
  {
    match x
    case Some(s) => if s != "" then s else d
    case None => d
  }

  /** `s.startswith(p)` */
  predicate StartsWith(s: string, p: string)
  {
    |p| <= |s| && s[..|p|] == p
  }
}
