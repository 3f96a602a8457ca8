/** Optional values and the JavaScript operators the handlers rely on. */
module Base {

  /** A value that may be missing (`null` or `undefined` in the source). */
  datatype Option<+T> = None | Some(value: T) {
    /** The value, or `default` when missing (JavaScript `x ?? default`). */
    function GetOr(default: T): T {
      if Some? then value else default
    }
  }

  /** JavaScript truthiness of a possibly missing string: `null`, `undefined` and `""` are falsy. */
  predicate Truthy(s: Option<string>) {
    s.Some? && s.value != ""
  }

  /** `a || b` on possibly missing strings: the first operand when truthy, otherwise the second. */
  function OrElse(a: Option<string>, b: string): (r: string)
  {
    if Truthy(a) then a.value else b
  }

  /** JavaScript's `%` by a positive divisor: the remainder truncated toward zero, so it takes the
    * sign of the dividend (Dafny's own `%` is Euclidean and never negative). */
  function JsRem(a: int, b: int): (r: int)
    requires b > 0
    ensures a >= 0 ==> 0 <= r < b && r == a % b
    ensures a < 0 ==> -b < r <= 0
    ensures a < 0 ==> r == -((-a) % b)
  {
    if a >= 0 then a % b else -((-a) % b)
  }

  /** Truncation is symmetric: negating the dividend negates the remainder, so `-7 % 3` is
    * `-(7 % 3)`. */
  lemma JsRemOdd(a: int, b: int)
    requires b > 0
    ensures JsRem(-a, b) == -JsRem(a, b)
  {
  }
}
