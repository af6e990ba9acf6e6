/** JavaScript value conventions the components rely on: optional values
    (`undefined` / `null`) and truthiness. */
module Js {

  /** An optional value: `None` stands for `undefined` or `null`. */
  datatype Option<+T> = None | Some(value: T)

  /** `if (s)` on an optional string: `undefined`, `null` and `''` are falsy. */
  predicate TruthyString(o: Option<string>)
  {
    o.Some? && o.value != ""
  }

  /** `if (n)` on an optional integer: `null` and `0` are falsy. */
  predicate TruthyNumber(o: Option<int>)
  {
    o.Some? && o.value != 0
  }

  function Max(a: int, b: int): int
  {
    if a >= b then a else b
  }

  function Min(a: int, b: int): int
  {
    if a <= b then a else b
  }
}
