/** Optional values and the truthiness rule Python applies to `x or y`
    when `x` is a string that may be missing. */
module Optional {

  datatype Option<T> = None | Some(value: T)

  /** A string result is truthy in Python when it is present and non-empty. */
  predicate Truthy(x: Option<string>)
  {
    x.Some? && x.value != ""
  }

  /** Python's `x or y` where `x: str | None` and `y: str`. */
  function OrElse(x: Option<string>, y: string): string
  {
    if Truthy(x) then x.value else y
  }

  /** Python's `x or y` where both sides are `str | None`. */
  function OrElseOpt(x: Option<string>, y: Option<string>): Option<string>
  {
    if Truthy(x) then x else y
  }
}
