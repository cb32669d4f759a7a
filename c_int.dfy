/** C integer semantics the model needs: division that truncates toward
    zero (C99 6.5.5), which differs from Dafny's Euclidean `/` for negative
    dividends. */
module CInt {

  function Min(a: int, b: int): (m: int)
    ensures m <= a && m <= b && (m == a || m == b)
  {
    if a <= b then a else b
  }

  function Max(a: int, b: int): (m: int)
    ensures m >= a && m >= b && (m == a || m == b)
  {
    if a >= b then a else b
  }

  /** `a / b` as C computes it for a positive divisor: the quotient is
      rounded toward zero, so the remainder takes the sign of `a`. */
  function CDiv(a: int, b: int): (q: int)
    requires b > 0
    ensures 0 <= a ==> 0 <= q && 0 <= a - q * b < b
    ensures a < 0 ==> q <= 0 && -b < a - q * b <= 0
  {
    if a >= 0 then a / b else -((-a) / b)
  }

  /** Negating the dividend negates the truncated quotient; Euclidean
      division has no such symmetry. */
  lemma CDivNegate(a: int, b: int)
    requires b > 0
    ensures CDiv(-a, b) == -CDiv(a, b)
  {
  }
}
