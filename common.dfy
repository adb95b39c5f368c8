/** Values shared by every module of the model: a possibly absent value and
    the truthiness test that the application applies to optional strings. */
module Common {

  /** A value that may be absent (`undefined` or `null` in the application). */
  datatype Option<+T> = None | Some(value: T)

  /** A `string | undefined` is truthy when it is present and not empty:
      both `undefined` and `""` fail an `if (s)` or `!s` test. */
  predicate Truthy(s: Option<string>)
  {
    s.Some? && s.value != ""
  }
}
