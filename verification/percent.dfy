/** The progress percentages of components/Dashboard.tsx (budgets and goals)
    and components/SmartGoalModal.tsx: `Math.min(100, Math.round((part /
    whole) * 100))`, and the budget bar's colour. */
module Percent {
  import opened Types
  import opened Numbers

  /** `Math.min(100, Math.round((part / whole) * 100))`. */
  function Percentage(part: int, whole: int): (r: Num)
    ensures r.Finite? ==> r.v <= 100.0 && r.v == r.v.Floor as real
    ensures whole != 0 ==> r.Finite?
    ensures whole == 0 ==> (r == Finite(100.0) <==> part > 0) && (r == NegInf <==> part < 0) && (r == NaN <==> part == 0)
  {
    MinWith(100.0, Round(Scale(Divide(part as real, whole as real), 100.0)))
  }

  function IntMin(a: int, b: int): int
  {
    if a <= b then a else b
  }

  lemma IntProductAsReal(a: int, b: int)
    ensures (a * b) as real == a as real * b as real
  {
  }

  /** `Math.round` of a real picks `q` when the real lies within half of it. */
  lemma FloorNearest(y: real, q: int)
    requires q as real - 0.5 <= y < q as real + 0.5
    ensures (y + 0.5).Floor == q
  {
  }

  /** A factor of a non-negative product with a positive factor is non-negative. */
  lemma NonNegFactor(a: real, w: real)
    requires w > 0.0 && a * w >= 0.0
    ensures a >= 0.0
  {
  }

  /** A factor of a positive product with a positive factor is positive. */
  lemma PosFactor(a: real, w: real)
    requires w > 0.0 && a * w > 0.0
    ensures a > 0.0
  {
  }

  lemma HalfBounds(q: real, y: real, w: real, p: real)
    requires w > 0.0 && y * w == 100.0 * p
    requires (2.0 * q - 1.0) * w <= 200.0 * p < (2.0 * q + 1.0) * w
    ensures q - 0.5 <= y < q + 0.5
  {
    var below := 2.0 * y - (2.0 * q - 1.0);
    var above := (2.0 * q + 1.0) - 2.0 * y;
    assert below * w == 200.0 * p - (2.0 * q - 1.0) * w;
    assert above * w == (2.0 * q + 1.0) * w - 200.0 * p;
    NonNegFactor(below, w);
    PosFactor(above, w);
  }

  /** `(part / whole) * 100` lies within half of `RoundDiv(100 * part, whole)`. */
  lemma RatioNearRoundDiv(part: int, whole: int)
    requires whole > 0
    ensures var y := (part as real / whole as real) * 100.0;
            RoundDiv(100 * part, whole) as real - 0.5 <= y < RoundDiv(100 * part, whole) as real + 0.5
  {
    var w := whole as real;
    var y := (part as real / w) * 100.0;
    var q := RoundDiv(100 * part, whole);
    assert y * w == 100.0 * part as real;
    IntProductAsReal(2 * q - 1, whole);
    IntProductAsReal(2 * q + 1, whole);
    assert (2 * q - 1) * whole <= 200 * part < (2 * q + 1) * whole;
    assert (2.0 * q as real - 1.0) * w <= 200.0 * part as real < (2.0 * q as real + 1.0) * w;
    HalfBounds(q as real, y, w, part as real);
  }

  /** For a positive whole the percentage is the integer nearest to
      `100 * part / whole` (halves up), capped at 100. */
  lemma PercentageByIntegers(part: int, whole: int)
    requires whole > 0
    ensures Percentage(part, whole) == Finite(IntMin(100, RoundDiv(100 * part, whole)) as real)
  {
    RatioNearRoundDiv(part, whole);
    FloorNearest((part as real / whole as real) * 100.0 , RoundDiv(100 * part, whole));
  }

  /** The colour of a budget bar. */
  datatype BarColor = Green | Yellow | Red

  /** `percentage > 85` red, `> 50` yellow, green otherwise (NaN is green). */
  function BudgetColor(pct: Num): BarColor
  {
    if Gt(pct, 85.0) then Red else if Gt(pct, 50.0) then Yellow else Green
  }

  /** For a positive limit the bar turns red once spending reaches 85.5% of
      it and yellow once it reaches 50.5%: the rounded percentage exceeds 85
      exactly from there. */
  lemma BudgetColorThresholds(spent: int, limit: int)
    requires limit > 0
    ensures BudgetColor(Percentage(spent, limit)) == Red <==> 200 * spent >= 171 * limit
    ensures BudgetColor(Percentage(spent, limit)) == Yellow <==> 101 * limit <= 200 * spent < 171 * limit
    ensures BudgetColor(Percentage(spent, limit)) == Green <==> 200 * spent < 101 * limit
  {
    PercentageByIntegers(spent, limit);
    var q := RoundDiv(100 * spent, limit);
    RoundAtLeast(100 * spent, limit, 86);
    RoundAtLeast(100 * spent, limit, 51);
  }

  /** The rounded quotient reaches `k` exactly when `2n >= (2k - 1)d`. */
  lemma RoundAtLeast(n: int, d: int, k: int)
    requires d > 0
    ensures RoundDiv(n, d) >= k <==> 2 * n >= (2 * k - 1) * d
  {
    var q := RoundDiv(n, d);
    if q >= k {
      IntMulLe(2 * k - 1, 2 * q - 1, d);
    } else {
      IntMulLe(2 * q + 1, 2 * k - 1, d);
    }
  }

  lemma IntMulLe(a: int, b: int, d: int)
    requires a <= b && d > 0
    ensures a * d <= b * d
  {
  }

  /** More spending never gives a lower bar colour. */
  lemma BudgetColorMonotone(s1: int, s2: int, limit: int)
    requires limit > 0 && s1 <= s2
    ensures BudgetColor(Percentage(s1, limit)) == Red ==> BudgetColor(Percentage(s2, limit)) == Red
    ensures BudgetColor(Percentage(s2, limit)) == Green ==> BudgetColor(Percentage(s1, limit)) == Green
  {
    BudgetColorThresholds(s1, limit);
    BudgetColorThresholds(s2, limit);
  }

  /** A goal's progress, in the goals list and in the staking dialog. */
  function GoalPercent(g: Goal): Num
  {
    Percentage(g.currentAmount, g.targetAmount)
  }

  /** With a positive target, progress lies in [0, 100] while the saved
      amount is not negative, and shows 100 once the target is reached. */
  lemma GoalPercentBounds(g: Goal)
    requires g.targetAmount > 0
    ensures GoalPercent(g).Finite?
    ensures g.currentAmount >= 0 ==> 0.0 <= GoalPercent(g).v <= 100.0
    ensures g.currentAmount >= g.targetAmount ==> GoalPercent(g) == Finite(100.0)
  {
    PercentageByIntegers(g.currentAmount, g.targetAmount);
    RoundAtLeast(100 * g.currentAmount, g.targetAmount, 0);
    RoundAtLeast(100 * g.currentAmount, g.targetAmount, 100);
  }

  /** A goal with a zero target shows 100 as soon as anything is saved, and
      NaN when nothing is. */
  lemma ZeroTargetGoal(g: Goal)
    requires g.targetAmount == 0
    ensures g.currentAmount > 0 ==> GoalPercent(g) == Finite(100.0)
    ensures g.currentAmount == 0 ==> GoalPercent(g) == NaN
  {
  }
}
