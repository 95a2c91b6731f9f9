/** The regression metrics of smart-home/evaluation/metrics.go over the reals. */
module Metrics {
  import opened Sums
  import opened Mlp
  import opened Rounding

  datatype Metrics = Metrics(mse: real, rmse: real, mae: real, r2: real)

  function Abs(x: real): real { if x < 0.0 then -x else x }

  function Square(x: real): real { x * x }

  ghost function Value(a: seq<real>): int -> real { i => At(a, i) }

  ghost function AbsoluteError(a: seq<real>, p: seq<real>): int -> real { i => Abs(At(a, i) - At(p, i)) }

  ghost function Deviation(a: seq<real>, c: real): int -> real { i => Square(At(a, i) - c) }

  ghost function Mean(a: seq<real>): real
    requires |a| > 0
  {
    Sum(Value(a), |a|) / |a| as real
  }

  ghost function Residual(a: seq<real>, p: seq<real>): real { Sum(SquaredError(a, p), |a|) }

  ghost function Variation(a: seq<real>): real
    requires |a| > 0
  {
    Sum(Deviation(a, Mean(a)), |a|)
  }

  const THRESHOLD: real := 0.000000000001

  ghost function R2(a: seq<real>, p: seq<real>): real
    requires |a| > 0
  {
    if Variation(a) > THRESHOLD then 1.0 - Residual(a, p) / Variation(a) else 1.0
  }

  ghost function Mse(a: seq<real>, p: seq<real>): real
    requires |a| > 0
  {
    Residual(a, p) / |a| as real
  }

  ghost function Mae(a: seq<real>, p: seq<real>): real
    requires |a| > 0
  {
    Sum(AbsoluteError(a, p), |a|) / |a| as real
  }

  /** root is the square root of the mean squared error, if there is one. */
  ghost predicate IsRoot(root: real, a: seq<real>, p: seq<real>) {
    |a| == |p| > 0 ==> root >= 0.0 && root * root == Mse(a, p)
  }

  ghost function Rounded(a: seq<real>, p: seq<real>, root: real): Metrics
    requires |a| > 0
  {
    Metrics(Round6(Mse(a, p)), Round6(root), Round6(Mae(a, p)), Round6(R2(a, p)))
  }

  /** All accumulators of the two loops; empty or mismatched inputs give the zero metrics.  `root` is
      what math.Sqrt returns for the mean squared error. */
  method Calculate(actual: seq<real>, predicted: seq<real>, root: real) returns (m: Metrics)
    requires IsRoot(root, actual, predicted)
    ensures |actual| == 0 || |actual| != |predicted| ==> m == Metrics(0.0, 0.0, 0.0, 0.0)
    ensures |actual| == |predicted| > 0 ==>
              && m == Rounded(actual, predicted, root)
              && m.mse == Round6(Mse(actual, predicted)) && m.mae == Round6(Mae(actual, predicted))
              && m.rmse == Round6(root) && m.r2 == Round6(R2(actual, predicted))
  {
    var n := |actual|;
    if n == 0 || n != |predicted| { return Metrics(0.0, 0.0, 0.0, 0.0); }
    var mean := MeanOf(actual);
    var mse, mae, ssRes, ssTot := 0.0, 0.0, 0.0, 0.0;
    for i := 0 to n
      invariant mse == ssRes == Sum(SquaredError(actual, predicted), i)
      invariant mae == Sum(AbsoluteError(actual, predicted), i)
      invariant ssTot == Sum(Deviation(actual, mean), i)
    {
      SumStep(SquaredError(actual, predicted), i);
      SumStep(AbsoluteError(actual, predicted), i);
      SumStep(Deviation(actual, mean), i);
      var diff := actual[i] - predicted[i];
      mse := mse + Square(diff);
      mae := mae + Abs(diff);
      ssRes := ssRes + Square(diff);
      ssTot := ssTot + Square(actual[i] - mean);
    }
    var r2 := 1.0;
    if ssTot > 0.000000000001 { r2 := 1.0 - ssRes / ssTot; }
    m := Metrics(Round6(mse / n as real), Round6(root), Round6(mae / n as real), Round6(r2));
  }

  method MeanOf(a: seq<real>) returns (mean: real)
    requires |a| > 0
    ensures mean == Mean(a)
  {
    mean := 0.0;
    for i := 0 to |a|
      invariant mean == Sum(Value(a), i)
    {
      SumStep(Value(a), i);
      mean := mean + a[i];
    }
    mean := mean / |a| as real;
  }

  // ── the metrics, told by the two lists alone ─────────────────────

  /** The mean errors times the number of values are the sums of the errors. */
  lemma MeanErrorsAre(a: seq<real>, p: seq<real>, sq: int -> real, size: int -> real)
    requires |a| == |p| > 0
    requires forall i :: 0 <= i < |a| ==> sq(i) == (a[i] - p[i]) * (a[i] - p[i])
    requires forall i :: 0 <= i < |a| ==> size(i) == if a[i] >= p[i] then a[i] - p[i] else p[i] - a[i]
    ensures |a| as real * Mse(a, p) == Sum(sq, |a|) && |a| as real * Mae(a, p) == Sum(size, |a|)
  {
    SumEq(sq, SquaredError(a, p), |a|);
    SumEq(size, AbsoluteError(a, p), |a|);
  }

  /** R2 tells how much of the variation around the mean m remains as error; without variation it is one,
      whatever the error. */
  lemma R2Is(a: seq<real>, p: seq<real>, m: real, value: int -> real, sq: int -> real, spread: int -> real)
    requires |a| == |p| > 0
    requires forall i :: 0 <= i < |a| ==> value(i) == a[i]
    requires |a| as real * m == Sum(value, |a|)
    requires forall i :: 0 <= i < |a| ==> sq(i) == (a[i] - p[i]) * (a[i] - p[i])
    requires forall i :: 0 <= i < |a| ==> spread(i) == (a[i] - m) * (a[i] - m)
    ensures if Sum(spread, |a|) > 0.000000000001 then (1.0 - R2(a, p)) * Sum(spread, |a|) == Sum(sq, |a|)
            else R2(a, p) == 1.0
  {
    SumEq(value, Value(a), |a|);
    DivideBy(|a| as real, m, Sum(value, |a|));
    SumEq(sq, SquaredError(a, p), |a|);
    SumEq(spread, Deviation(a, m), |a|);
  }

  lemma DivideBy(n: real, m: real, sum: real)
    requires n != 0.0 && n * m == sum
    ensures m == sum / n
  {
  }

  // ── squares around a constant ────────────────────────────────────

  ghost function Squares(f: int -> real): int -> real { i => Square(f(i)) }

  ghost function Around(f: int -> real, c: real): int -> real { i => Square(f(i) - c) }

  ghost function Expanded(q: real, s: real, c: real, n: real): real { q - 2.0 * c * s + n * Square(c) }

  /** The sum of squares around c, expanded. */
  lemma {:induction false} SumAround(f: int -> real, c: real, n: nat)
    ensures Sum(Around(f, c), n) == Expanded(Sum(Squares(f), n), Sum(f, n), c, n as real)
  {
    if n > 0 {
      SumAround(f, c, n - 1);
      SumStep(Around(f, c), n - 1);
      SumStep(Squares(f), n - 1);
      SumStep(f, n - 1);
    }
  }

  /** Squares around any constant exceed squares around the mean by n times the squared distance. */
  lemma AroundMean(f: int -> real, c: real, m: real, n: nat)
    requires Sum(f, n) == n as real * m
    ensures Sum(Around(f, c), n) == Sum(Around(f, m), n) + n as real * Square(m - c)
    ensures Sum(Around(f, m), n) == Sum(Squares(f), n) - n as real * Square(m)
  {
    SumAround(f, c, n);
    SumAround(f, m, n);
  }

  lemma SquareNonNegative(x: real)
    ensures Square(x) >= 0.0 && (Square(x) == 0.0 <==> x == 0.0)
  {
    if x > 0.0 {
      PositiveProduct(x, x, Square(x));
    } else if x < 0.0 {
      PositiveProduct(-x, -x, Square(x));
    }
  }

  lemma PositiveProduct(x: real, y: real, product: real)
    requires x > 0.0 && y > 0.0 && product == x * y
    ensures product > 0.0
  {
  }

  // ── how the metrics relate ───────────────────────────────────────

  /** MAE squared is at most MSE, and equal exactly when all errors have the same size. */
  lemma MaeBelowMse(a: seq<real>, p: seq<real>)
    requires |a| == |p| > 0
    ensures Square(Mae(a, p)) <= Mse(a, p)
    ensures Square(Mae(a, p)) == Mse(a, p) <==> forall i :: 0 <= i < |a| ==> AbsoluteError(a, p)(i) == Mae(a, p)
  {
    var f, n, m := AbsoluteError(a, p), |a|, Mae(a, p);
    var gap := Sum(Around(f, m), n);
    assert gap >= 0.0 && (gap == 0.0 <==> forall i :: 0 <= i < n ==> f(i) == m) by { SpreadSign(f, m, n); }
    assert gap == n as real * Mse(a, p) - n as real * Square(m) by { ErrorSpread(a, p); }
    Compare(n as real, Square(m), Mse(a, p), gap);
  }

  /** How far the error sizes are from their mean. */
  lemma ErrorSpread(a: seq<real>, p: seq<real>)
    requires |a| == |p| > 0
    ensures Sum(Around(AbsoluteError(a, p), Mae(a, p)), |a|)
            == |a| as real * Mse(a, p) - |a| as real * Square(Mae(a, p))
  {
    var f, n, m := AbsoluteError(a, p), |a|, Mae(a, p);
    AroundMean(f, m, m, n);
    SumEq(Squares(f), SquaredError(a, p), n);
  }

  lemma SpreadSign(f: int -> real, m: real, n: nat)
    ensures Sum(Around(f, m), n) >= 0.0
    ensures Sum(Around(f, m), n) == 0.0 <==> forall i :: 0 <= i < n ==> f(i) == m
  {
    forall i | 0 <= i < n ensures Around(f, m)(i) >= 0.0 && (Around(f, m)(i) == 0.0 <==> f(i) == m) {
      SquareNonNegative(f(i) - m);
    }
    SumNonNegative(Around(f, m), n);
    if forall i :: 0 <= i < n ==> f(i) == m { ZeroSum(Around(f, m), n); }
  }

  lemma Compare(n: real, x: real, y: real, gap: real)
    requires n > 0.0 && gap >= 0.0 && gap == n * y - n * x
    ensures x <= y && (x == y <==> gap == 0.0)
  {
    assert gap == n * (y - x);
  }

  lemma {:induction false} ZeroSum(f: int -> real, n: nat)
    requires forall i :: 0 <= i < n ==> f(i) == 0.0
    ensures Sum(f, n) == 0.0
  {
    if n > 0 {
      ZeroSum(f, n - 1);
      SumStep(f, n - 1);
    }
  }

  lemma ResidualSign(a: seq<real>, p: seq<real>)
    requires |a| == |p|
    ensures Residual(a, p) >= 0.0
    ensures Residual(a, p) == 0.0 <==> a == p
  {
    var f := SquaredError(a, p);
    forall i | 0 <= i < |a| ensures f(i) >= 0.0 && (f(i) == 0.0 <==> a[i] == p[i]) {
      SquareNonNegative(a[i] - p[i]);
    }
    SumNonNegative(f, |a|);
    if a == p { ZeroSum(f, |a|); }
  }

  /** R2 never exceeds one, and with enough variation it is one only for an exact prediction. */
  lemma R2AtMostOne(a: seq<real>, p: seq<real>)
    requires |a| == |p| > 0
    ensures R2(a, p) <= 1.0
    ensures Variation(a) > THRESHOLD ==> (R2(a, p) == 1.0 <==> a == p)
  {
    ResidualSign(a, p);
  }

  ghost predicate Constant(p: seq<real>, c: real) { forall i :: 0 <= i < |p| ==> p[i] == c }

  /** A constant prediction never has positive R2; it has zero exactly when it is the mean. */
  lemma ConstantPredictor(a: seq<real>, p: seq<real>, c: real)
    requires |a| == |p| > 0 && Constant(p, c) && Variation(a) > THRESHOLD
    ensures R2(a, p) <= 0.0 && (R2(a, p) == 0.0 <==> c == Mean(a))
  {
    var m := Mean(a);
    ConstantResidual(a, p, c);
    SquareNonNegative(m - c);
    OneMinusRatio(Residual(a, p), Variation(a), |a| as real, Square(m - c));
  }

  lemma OneMinusRatio(r: real, t: real, n: real, d: real)
    requires t > 0.0 && n > 0.0 && d >= 0.0 && r == t + n * d
    ensures 1.0 - r / t <= 0.0 && (1.0 - r / t == 0.0 <==> d == 0.0)
  {
    var q := n * d;
    if d > 0.0 { PositiveProduct(n, d, q); }
    var u := q / t;
    assert u * t == q;
  }

  lemma ConstantResidual(a: seq<real>, p: seq<real>, c: real)
    requires |a| == |p| > 0 && Constant(p, c)
    ensures Residual(a, p) == Variation(a) + |a| as real * Square(Mean(a) - c)
  {
    var f, n, m := Value(a), |a|, Mean(a);
    AroundMean(f, c, m, n);
    SumEq(SquaredError(a, p), Around(f, c), n);
    SumEq(Deviation(a, m), Around(f, m), n);
  }

  // ── after rounding ───────────────────────────────────────────────

  lemma RootAbove(root: real, m: real, sq: real)
    requires root >= 0.0 && m >= 0.0 && Square(root) == sq && Square(m) <= sq
    ensures m <= root
  {
    if m > root { SquareOrder(root, m); }
  }

  lemma SquareOrder(x: real, y: real)
    requires 0.0 <= x < y
    ensures Square(x) < Square(y)
  {
    PositiveProduct(y - x, y + x, (y - x) * (y + x));
    assert (y - x) * (y + x) == Square(y) - Square(x);
  }

  lemma MaeNonNegative(a: seq<real>, p: seq<real>)
    requires |a| > 0
    ensures Mae(a, p) >= 0.0
  {
    SumNonNegative(AbsoluteError(a, p), |a|);
  }

  /** The reported numbers keep the relations: MAE is at most RMSE, R2 is at most one, an exact
      prediction has R2 one, and with enough variation a constant one has R2 at most zero. */
  lemma RoundedRelations(a: seq<real>, p: seq<real>, root: real, c: real)
    requires |a| == |p| > 0 && IsRoot(root, a, p)
    ensures var m := Rounded(a, p, root);
            && 0.0 <= m.mae <= m.rmse && 0.0 <= m.mse && m.r2 <= 1.0
            && (a == p ==> m.r2 == 1.0 && m.mse == m.rmse == m.mae == 0.0)
            && (Variation(a) > THRESHOLD && Constant(p, c) ==> m.r2 <= 0.0 && (c == Mean(a) ==> m.r2 == 0.0))
  {
    Round6Whole(0);
    Round6Whole(1);
    MaeBelowMse(a, p);
    MaeNonNegative(a, p);
    SquareNonNegative(Mae(a, p));
    RootAbove(root, Mae(a, p), Mse(a, p));
    Round6Grows(Mae(a, p), root);
    Round6Grows(0.0, Mae(a, p));
    Round6Grows(0.0, Mse(a, p));
    R2AtMostOne(a, p);
    Round6Grows(R2(a, p), 1.0);
    if a == p { ExactMetrics(a, p, root); }
    if Variation(a) > THRESHOLD && Constant(p, c) {
      ConstantPredictor(a, p, c);
      Round6Grows(R2(a, p), 0.0);
    }
  }

  lemma ExactMetrics(a: seq<real>, p: seq<real>, root: real)
    requires |a| == |p| > 0 && IsRoot(root, a, p) && a == p
    ensures Mse(a, p) == 0.0 && Mae(a, p) == 0.0 && root == 0.0 && R2(a, p) == 1.0
  {
    ResidualSign(a, p);
    SquareNonNegative(root);
    forall i | 0 <= i < |a| ensures AbsoluteError(a, p)(i) == 0.0 { assert At(a, i) == At(p, i); }
    ZeroSum(AbsoluteError(a, p), |a|);
    R2AtMostOne(a, p);
  }
}
