/** The JavaScript number operations the dashboard's ratios go through:
    division (which yields ±Infinity or NaN on a zero divisor), comparison
    (always false against NaN), `Math.round` (halves up) and `Math.min`
    with a constant. Finite values are exact reals; floating-point rounding
    is not modelled. */
module Numbers {

  datatype Num = Finite(v: real) | PosInf | NegInf | NaN

  /** `n / d`. */
  function Divide(n: real, d: real): (r: Num)
    ensures d != 0.0 ==> r.Finite? && r.v * d == n
    ensures d == 0.0 ==> (r == PosInf <==> n > 0.0) && (r == NegInf <==> n < 0.0) && (r == NaN <==> n == 0.0)
  {
    if d != 0.0 then Finite(n / d)
    else if n > 0.0 then PosInf
    else if n < 0.0 then NegInf
    else NaN
  }

  /** `x > c`. */
  predicate Gt(x: Num, c: real)
  {
    match x
    case Finite(v) => v > c
    case PosInf => true
    case NegInf => false
    case NaN => false
  }

  /** `x < c`. */
  predicate Lt(x: Num, c: real)
  {
    match x
    case Finite(v) => v < c
    case PosInf => false
    case NegInf => true
    case NaN => false
  }

  /** `x * k` for a positive constant `k`. */
  function Scale(x: Num, k: real): (r: Num)
    requires k > 0.0
    ensures r.Finite? <==> x.Finite?
    ensures r.Finite? ==> r.v == x.v * k
    ensures !x.Finite? ==> r == x
  {
    if x.Finite? then Finite(x.v * k) else x
  }

  /** `Math.round(x)`: the nearest integer, halves rounding up. */
  function Round(x: Num): (r: Num)
    ensures r.Finite? <==> x.Finite?
    ensures r.Finite? ==> r.v == r.v.Floor as real && r.v - 0.5 <= x.v < r.v + 0.5
    ensures !x.Finite? ==> r == x
  {
    if x.Finite? then Finite((x.v + 0.5).Floor as real) else x
  }

  /** `Math.min(c, x)`: NaN stays NaN, +Infinity gives `c`. */
  function MinWith(c: real, x: Num): (r: Num)
    ensures r.Finite? ==> r.v <= c
    ensures x.Finite? ==> r.Finite? && (r.v == c || r.v == x.v) && (x.v <= c ==> r.v == x.v)
    ensures x == PosInf ==> r == Finite(c)
    ensures x == NegInf ==> r == NegInf
    ensures x == NaN ==> r == NaN
  {
    match x
    case Finite(v) => if v <= c then x else Finite(c)
    case PosInf => Finite(c)
    case NegInf => NegInf
    case NaN => NaN
  }

  /** `Math.round(n / d)` on integers with a positive `d`: the integer
      nearest to `n / d`, halves rounding up. */
  function RoundDiv(n: int, d: int): (r: int)
    requires d > 0
    ensures 2 * r * d - d <= 2 * n < 2 * r * d + d
  {
    (2 * n + d) / (2 * d)
  }

  lemma MulLe(a: real, b: real, w: real)
    requires a <= b && w > 0.0
    ensures a * w <= b * w
  {
  }

  lemma MulLt(a: real, b: real, w: real)
    requires a < b && w > 0.0
    ensures a * w < b * w
  {
  }

  lemma MulNegLe(a: real, b: real, w: real)
    requires a <= b && w < 0.0
    ensures a * w >= b * w
  {
  }

  lemma MulNegLt(a: real, b: real, w: real)
    requires a < b && w < 0.0
    ensures a * w > b * w
  {
  }
}
