/** Backpropagation is right: the gradient that MLP.Train subtracts is the exact first-order
    part of the loss change, with an explicit second-order remainder. */
module Backprop {
  import opened Sums
  import opened Mlp

  ghost function Product(a: seq<real>, b: seq<real>): int -> real {
    c => At(a, c) * At(b, c)
  }

  ghost function Inner(a: seq<real>, b: seq<real>): real {
    Sum(Product(a, b), |a|)
  }

  /** Cell-wise sum of a parameter vector and its perturbation. */
  ghost function Plus(v: seq<real>, d: seq<real>): seq<real> {
    seq(|v|, c => At(v, c) + At(d, c))
  }

  ghost function Minus(v: seq<real>, d: seq<real>): seq<real> {
    seq(|v|, c => At(v, c) - At(d, c))
  }

  /** A cell where either both first factors vanish or the two pairs hold the same numbers. */
  ghost predicate SameOrBothZero(a: real, b: real, c: real, d: real) {
    (a == 0.0 && c == 0.0) || (a == d && c == b)
  }

  lemma InnerSwap(a: seq<real>, b: seq<real>, c: seq<real>, d: seq<real>)
    requires |a| == |c|
    requires forall i :: 0 <= i < |a| ==> SameOrBothZero(At(a, i), At(b, i), At(c, i), At(d, i))
    ensures Inner(a, b) == Inner(c, d)
  {
    var f, g := Product(a, b), Product(c, d);
    forall i | 0 <= i < |a| ensures f(i) == g(i) {
      assert SameOrBothZero(At(a, i), At(b, i), At(c, i), At(d, i));
    }
    SumEq(f, g, |a|);
  }

  // ── products of vectors with a flat matrix ───────────────────────

  /** a times the flat n-by-m matrix v, and that matrix times d. */
  ghost function Through(a: seq<real>, v: seq<real>, n: nat, m: nat): seq<real> {
    seq(m, j => Sum(ColumnTerm(a, v, m, j), n))
  }

  ghost function Back(d: seq<real>, v: seq<real>, n: nat, m: nat): seq<real> {
    seq(n, i => Sum(RowTerm(d, v, m, i), m))
  }

  ghost function Triple(d: seq<real>, a: seq<real>, v: seq<real>, m: nat): (int, int) -> real {
    (i, j) => At(d, j) * (At(a, i) * At(v, i * m + j))
  }

  lemma ThroughIsTriple(d: seq<real>, a: seq<real>, v: seq<real>, n: nat, m: nat)
    requires |d| == m
    ensures Inner(d, Through(a, v, n, m)) == Sum(ColumnSums(Triple(d, a, v, m), n), m)
  {
    var f, g := Product(d, Through(a, v, n, m)), ColumnSums(Triple(d, a, v, m), n);
    forall j | 0 <= j < m ensures f(j) == g(j) {
      SumScale(At(d, j), ColumnTerm(a, v, m, j), Column(Triple(d, a, v, m), j), n);
    }
    SumEq(f, g, m);
  }

  lemma BackIsTriple(d: seq<real>, a: seq<real>, v: seq<real>, n: nat, m: nat)
    requires |a| == n
    ensures Inner(a, Back(d, v, n, m)) == Sum(RowSums(Triple(d, a, v, m), m), n)
  {
    var f, g := Product(a, Back(d, v, n, m)), RowSums(Triple(d, a, v, m), m);
    forall i | 0 <= i < n ensures f(i) == g(i) {
      RowOfTriple(d, a, v, m, i);
    }
    SumEq(f, g, n);
  }

  lemma RowOfTriple(d: seq<real>, a: seq<real>, v: seq<real>, m: nat, i: int)
    ensures Sum(Row(Triple(d, a, v, m), i), m) == At(a, i) * Sum(RowTerm(d, v, m, i), m)
  {
    var f, g := RowTerm(d, v, m, i), Row(Triple(d, a, v, m), i);
    forall j | 0 <= j < m ensures g(j) == At(a, i) * f(j) {}
    SumScale(At(a, i), f, g, m);
  }

  /** d . (a V) == a . (V d): the step that carries the error back through a layer. */
  lemma PullThrough(d: seq<real>, a: seq<real>, v: seq<real>, n: nat, m: nat)
    requires |d| == m && |a| == n
    ensures Inner(d, Through(a, v, n, m)) == Inner(a, Back(d, v, n, m))
  {
    ThroughIsTriple(d, a, v, n, m);
    BackIsTriple(d, a, v, n, m);
    SumExchange(Triple(d, a, v, m), n, m);
  }

  /** The flat inner product with an outer product is the bilinear form. */
  lemma InnerOuter(a: seq<real>, d: seq<real>, v: seq<real>, n: nat, m: nat)
    requires |v| == n * m && |d| == m
    ensures Inner(Outer(a, d, n, m), v) == Inner(d, Through(a, v, n, m))
  {
    var f := Product(Outer(a, d, n, m), v);
    SumFlat(f, n, m);
    forall i | 0 <= i < n ensures RowSums(Cell(f, m), m)(i) == RowSums(Triple(d, a, v, m), m)(i) {
      OuterRow(a, d, v, n, m, i);
    }
    SumEq(RowSums(Cell(f, m), m), RowSums(Triple(d, a, v, m), m), n);
    SumExchange(Triple(d, a, v, m), n, m);
    ThroughIsTriple(d, a, v, n, m);
  }

  lemma OuterRow(a: seq<real>, d: seq<real>, v: seq<real>, n: nat, m: nat, i: int)
    requires |v| == n * m && 0 <= i < n
    ensures Sum(Row(Cell(Product(Outer(a, d, n, m), v), m), i), m) == Sum(Row(Triple(d, a, v, m), i), m)
  {
    var f := Product(Outer(a, d, n, m), v);
    forall j | 0 <= j < m ensures Row(Cell(f, m), i)(j) == Row(Triple(d, a, v, m), i)(j) {
      FlatIndex(i, j, n, m);
      var c := i * m + j;
      assert At(Outer(a, d, n, m), c) == At(d, j) * At(a, i);
    }
    SumEq(Row(Cell(f, m), i), Row(Triple(d, a, v, m), i), m);
  }

  /** What the perturbation (dw, db) of a layer fed with a adds to the layer's m results. */
  ghost function LayerChange(a: seq<real>, dw: seq<real>, db: seq<real>, n: nat, m: nat): seq<real> {
    Plus(Through(a, dw, n, m), db)
  }

  /** The error d at a layer's results meets the layer's change exactly in the gradient (a (x) d, d). */
  lemma LayerGradient(a: seq<real>, d: seq<real>, dw: seq<real>, db: seq<real>, n: nat, m: nat)
    requires |dw| == n * m && |d| == m
    ensures Inner(d, LayerChange(a, dw, db, n, m)) == Inner(Outer(a, d, n, m), dw) + Inner(d, db)
  {
    var f, g, h := Product(d, Through(a, dw, n, m)), Product(d, db), Product(d, LayerChange(a, dw, db, n, m));
    forall j | 0 <= j < m ensures h(j) == f(j) + g(j) {}
    SumPlus(f, g, h, m);
    InnerOuter(a, d, dw, n, m);
  }

  // ── the loss as a function of the outputs ────────────────────────

  /** Changing the outputs from o to o' changes the mean squared error by the inner product with
      ErrorGrad plus exactly the mean squared output change. */
  lemma LossExpansion(o: seq<real>, o': seq<real>, t: seq<real>, n: nat)
    requires n > 0 && |o| == |o'| == n
    ensures MeanSquare(o', t, n) - MeanSquare(o, t, n)
         == Inner(ErrorGrad(o, t, n), Minus(o', o)) + MeanSquare(o', o, n)
  {
    var lin := Product(ErrorGrad(o, t, n), Minus(o', o));
    var after, before, moved := SquaredError(o', t), SquaredError(o, t), SquaredError(o', o);
    forall j | 0 <= j < n ensures after(j) == before(j) + (n as real * lin(j) + moved(j)) {}
    MeanOfExpansion(after, before, moved, lin, n);
  }

  lemma MeanOfExpansion(a: int -> real, b: int -> real, c: int -> real, l: int -> real, n: nat)
    requires n > 0
    requires forall j :: 0 <= j < n ==> a(j) == b(j) + (n as real * l(j) + c(j))
    ensures Sum(a, n) / n as real - Sum(b, n) / n as real == Sum(l, n) + Sum(c, n) / n as real
  {
    SumOfExpansion(a, b, c, l, n as real, n);
    DivideOut(Sum(a, n), Sum(b, n), Sum(c, n), Sum(l, n), n as real);
  }

  lemma {:induction false} SumOfExpansion(a: int -> real, b: int -> real, c: int -> real, l: int -> real, r: real,
                                          n: nat)
    requires forall j :: 0 <= j < n ==> a(j) == b(j) + (r * l(j) + c(j))
    ensures Sum(a, n) == Sum(b, n) + r * Sum(l, n) + Sum(c, n)
  {
    if n > 0 {
      SumOfExpansion(a, b, c, l, r, n - 1);
      SumStep(a, n - 1);
      SumStep(b, n - 1);
      SumStep(c, n - 1);
      SumStep(l, n - 1);
    }
  }

  lemma DivideOut(a: real, b: real, c: real, l: real, n: real)
    requires n > 0.0 && a == b + n * l + c
    ensures a / n - b / n == l + c / n
  {
    assert (n * l) / n == l;
    assert a / n == (b + n * l + c) / n == b / n + (n * l) / n + c / n;
  }

  // ── the two theorems ─────────────────────────────────────────────

  /** The columns of a perturbed matrix. */
  lemma ColumnPerturbed(x: seq<real>, w: seq<real>, dw: seq<real>, n: nat, m: nat, j: int)
    requires 0 <= j < m && |w| == |dw| == n * m
    ensures Sum(ColumnTerm(x, Plus(w, dw), m, j), n)
         == Sum(ColumnTerm(x, w, m, j), n) + Sum(ColumnTerm(x, dw, m, j), n)
  {
    var f, g, h := ColumnTerm(x, w, m, j), ColumnTerm(x, dw, m, j), ColumnTerm(x, Plus(w, dw), m, j);
    forall i | 0 <= i < n ensures h(i) == f(i) + g(i) {
      FlatIndex(i, j, n, m);
      assert At(Plus(w, dw), i * m + j) == At(w, i * m + j) + At(dw, i * m + j);
    }
    SumPlus(f, g, h, n);
  }

  /** The columns of a matrix fed with a changed vector. */
  lemma ColumnOfChange(h': seq<real>, h: seq<real>, w: seq<real>, n: nat, m: nat, j: int)
    requires |h| == |h'| == n
    ensures Sum(ColumnTerm(h', w, m, j), n)
         == Sum(ColumnTerm(h, w, m, j), n) + Sum(ColumnTerm(Minus(h', h), w, m, j), n)
  {
    SumPlus(ColumnTerm(h, w, m, j), ColumnTerm(Minus(h', h), w, m, j), ColumnTerm(h', w, m, j), n);
  }

  ghost function MoveOutput(net: Net, dW2: seq<real>, dB2: seq<real>): Net {
    net.(w2 := Plus(net.w2, dW2), b2 := Plus(net.b2, dB2))
  }

  /** Backprop into W2 and B2, for every perturbation of them. */
  lemma OutputLayerGradient(net: Net, x: seq<real>, t: seq<real>, dW2: seq<real>, dB2: seq<real>)
    requires net.WellFormed() && net.outDim > 0
    requires |dW2| == |net.w2| && |dB2| == |net.b2|
    ensures var moved, grad := MoveOutput(net, dW2, dB2), Gradient(net, x, t);
            Loss(moved, x, t) - Loss(net, x, t)
            == Inner(grad.w2, dW2) + Inner(grad.b2, dB2) + MeanSquare(Output(moved, x), Output(net, x), net.outDim)
  {
    var moved := MoveOutput(net, dW2, dB2);
    LossExpansion(Output(net, x), Output(moved, x), t, net.outDim);
    OutputMoves(net, x, dW2, dB2);
    LayerGradient(Hidden(net, x), OutputGrad(net, x, t), dW2, dB2, net.hidDim, net.outDim);
  }

  lemma OutputMoves(net: Net, x: seq<real>, dW2: seq<real>, dB2: seq<real>)
    requires net.WellFormed() && |dW2| == |net.w2| && |dB2| == |net.b2|
    ensures Minus(Output(MoveOutput(net, dW2, dB2), x), Output(net, x))
         == LayerChange(Hidden(net, x), dW2, dB2, net.hidDim, net.outDim)
  {
    var moved, H, O, h := MoveOutput(net, dW2, dB2), net.hidDim, net.outDim, Hidden(net, x);
    assert Hidden(moved, x) == h;
    var l, r := Minus(Output(moved, x), Output(net, x)), LayerChange(h, dW2, dB2, H, O);
    forall j | 0 <= j < O ensures l[j] == r[j] {
      ColumnPerturbed(h, net.w2, dW2, H, O, j);
    }
  }

  ghost function MoveHidden(net: Net, dW1: seq<real>, dB1: seq<real>): Net {
    net.(w1 := Plus(net.w1, dW1), b1 := Plus(net.b1, dB1))
  }

  /** The same hidden units are active before and after the move. */
  ghost predicate SameActive(net: Net, moved: Net, x: seq<real>) {
    forall i :: 0 <= i < net.hidDim ==> (Pre(net, x, i) > 0.0 <==> Pre(moved, x, i) > 0.0)
  }

  /** Backprop into W1 and B1, for every perturbation of them that keeps this input's active units. */
  lemma HiddenLayerGradient(net: Net, x: seq<real>, t: seq<real>, dW1: seq<real>, dB1: seq<real>)
    requires net.WellFormed() && net.outDim > 0
    requires |dW1| == |net.w1| && |dB1| == |net.b1|
    requires SameActive(net, MoveHidden(net, dW1, dB1), x)
    ensures var moved, grad := MoveHidden(net, dW1, dB1), Gradient(net, x, t);
            Loss(moved, x, t) - Loss(net, x, t)
            == Inner(grad.w1, dW1) + Inner(grad.b1, dB1) + MeanSquare(Output(moved, x), Output(net, x), net.outDim)
  {
    var moved, H, O := MoveHidden(net, dW1, dB1), net.hidDim, net.outDim;
    var d, step := OutputGrad(net, x, t), Minus(Hidden(moved, x), Hidden(net, x));
    LossExpansion(Output(net, x), Output(moved, x), t, O);
    HiddenMovesOutput(net, moved, x);
    PullThrough(d, step, net.w2, H, O);
    var back, dh, change := Back(d, net.w2, H, O), HiddenGrad(net, x, t), LayerChange(x, dW1, dB1, net.inDim, H);
    forall i | 0 <= i < H ensures SameOrBothZero(At(step, i), At(back, i), At(dh, i), At(change, i)) {
      UnitPull(net, x, t, dW1, dB1, i);
    }
    InnerSwap(step, back, dh, change);
    LayerGradient(x, dh, dW1, dB1, net.inDim, H);
  }

  lemma HiddenMovesOutput(net: Net, moved: Net, x: seq<real>)
    requires net.WellFormed() && moved == net.(w1 := moved.w1, b1 := moved.b1)
    ensures Minus(Output(moved, x), Output(net, x))
         == Through(Minus(Hidden(moved, x), Hidden(net, x)), net.w2, net.hidDim, net.outDim)
  {
    var H, O, h, h' := net.hidDim, net.outDim, Hidden(net, x), Hidden(moved, x);
    var l, r := Minus(Output(moved, x), Output(net, x)), Through(Minus(h', h), net.w2, H, O);
    forall j | 0 <= j < O ensures l[j] == r[j] {
      ColumnOfChange(h', h, net.w2, H, O, j);
    }
  }

  /** An inactive unit neither moves nor receives a gradient; an active one does both in full. */
  lemma UnitPull(net: Net, x: seq<real>, t: seq<real>, dW1: seq<real>, dB1: seq<real>, i: int)
    requires net.WellFormed() && 0 <= i < net.hidDim
    requires |dW1| == |net.w1| && |dB1| == |net.b1|
    requires Pre(net, x, i) > 0.0 <==> Pre(MoveHidden(net, dW1, dB1), x, i) > 0.0
    ensures SameOrBothZero(At(Minus(Hidden(MoveHidden(net, dW1, dB1), x), Hidden(net, x)), i),
                           At(Back(OutputGrad(net, x, t), net.w2, net.hidDim, net.outDim), i),
                           At(HiddenGrad(net, x, t), i),
                           At(LayerChange(x, dW1, dB1, net.inDim, net.hidDim), i))
  {
    ColumnPerturbed(x, net.w1, dW1, net.inDim, net.hidDim, i);
    var moved := MoveHidden(net, dW1, dB1);
    var u := At(LayerChange(x, dW1, dB1, net.inDim, net.hidDim), i);
    assert Pre(moved, x, i) == Pre(net, x, i) + u;
  }
}
