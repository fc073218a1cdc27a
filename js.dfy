/** The JavaScript number semantics the website helpers rely on, restricted
    to integers. */
module Js {

  /** A JavaScript number that is an integer, or `NaN`. */
  datatype Number = Num(value: int) | NaN

  function Abs(a: int): (r: int)
    ensures r >= 0 && (r == a || r == -a)
  {
    if a < 0 then -a else a
  }

  /** The `%` operator: the remainder of the quotient truncated toward zero,
      so it takes the sign of the dividend (Dafny's `%` is Euclidean and is
      never negative). `x % 0` is `NaN`. */
  function Rem(a: int, b: int): (r: Number)
    ensures b == 0 <==> r.NaN?
    ensures r.Num? && a >= 0 ==> 0 <= r.value < Abs(b) && r.value == a % Abs(b)
    ensures r.Num? && a < 0 ==> -Abs(b) < r.value <= 0 && -r.value == (-a) % Abs(b)
  {
    if b == 0 then NaN
    else if a >= 0 then Num(a % Abs(b))
    else Num(-((-a) % Abs(b)))
  }

}
