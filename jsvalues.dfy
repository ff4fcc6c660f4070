/** JavaScript value semantics that the ordering session relies on: absent values
    (`null`/`undefined`), truthiness of strings, the `||` operator and the
    truncating remainder operator `%`. */
module JsValues {

  /** A value that may be absent (`null` or `undefined` in the page's JavaScript). */
  datatype Option<+T> = None | Some(value: T)

  /** A string-valued field of a JSON record; `None` when the field is missing or null. */
  type Field = Option<string>

  /** A string field is truthy when it is present and not the empty string. */
  predicate Truthy(f: Field) {
    f.Some? && f.value != ""
  }

  /** `a || b`: the first operand when it is truthy, else the second one. */
  function Or(a: Field, b: Field): (r: Field)
    ensures Truthy(a) ==> r == a
    ensures !Truthy(a) ==> r == b
    ensures Truthy(r) <==> Truthy(a) || Truthy(b)
  {
    if Truthy(a) then a else b
  }

  /** The quotient of `a` by a positive `b`, rounded toward zero. */
  function TruncQuot(a: int, b: int): int
    requires b > 0
  {
    if a >= 0 then a / b else -((-a) / b)
  }

  /** `a % b` for a positive divisor, as JavaScript computes it: the remainder takes
      the sign of the dividend (truncating division), unlike Dafny's Euclidean `%`. */
  function TruncRem(a: int, b: int): (r: int)
    requires b > 0
    ensures a >= 0 ==> 0 <= r < b
    ensures a < 0 ==> -b < r <= 0
    ensures a == b * TruncQuot(a, b) + r
  {
    if a >= 0 then a % b else -((-a) % b)
  }
}
