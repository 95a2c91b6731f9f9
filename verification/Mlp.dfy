/** The multi-layer perceptron of smart-home/model/mlp.go over reals: the forward pass, the
    in-place SGD step, and the flat weight vector exchanged between actors. */
module Mlp {
  import opened Basics
  import opened Sums

  /** Cell i of a slice; 0 outside it, so that sums can range over all integers. */
  function At(s: seq<real>, i: int): real {
    if 0 <= i < |s| then s[i] else 0.0
  }

  /** Row and column of flat cell c when every row has m cells. */
  function RowOf(c: int, m: nat): int { if m == 0 then 0 else c / m }
  function ColumnOf(c: int, m: nat): int { if m == 0 then 0 else c % m }

  lemma MulMonotone(a: int, b: int, m: nat)
    requires a <= b
    ensures a * m <= b * m
  {
  }

  lemma DivModUnique(c: int, i: int, j: int, m: nat)
    requires c == i * m + j && 0 <= j < m
    ensures c / m == i && c % m == j
  {
    var q, r := c / m, c % m;
    assert (q - i) * m == j - r;
    if q - i >= 1 { MulMonotone(1, q - i, m); }
    if q - i <= -1 { MulMonotone(q - i, -1, m); }
  }

  lemma FlatIndex(i: int, j: int, n: nat, m: nat)
    requires 0 <= i < n && 0 <= j < m
    ensures 0 <= i * m + j < n * m
    ensures RowOf(i * m + j, m) == i && ColumnOf(i * m + j, m) == j
  {
    MulMonotone(0, i, m);
    MulMonotone(i + 1, n, m);
    DivModUnique(i * m + j, i, j, m);
  }

  lemma FlatCell(c: int, n: nat, m: nat)
    requires 0 <= c < n * m
    ensures 0 <= RowOf(c, m) < n && 0 <= ColumnOf(c, m) < m
    ensures RowOf(c, m) * m + ColumnOf(c, m) == c
  {
    if m > 0 && c / m >= n { MulMonotone(n, c / m, m); assert false; }
  }

  /** All parameters of one network (or one gradient), layer by layer. */
  datatype Net = Net(inDim: nat, hidDim: nat, outDim: nat,
                     w1: seq<real>, b1: seq<real>, w2: seq<real>, b2: seq<real>)
  {
    ghost predicate WellFormed() {
      && |w1| == inDim * hidDim && |b1| == hidDim
      && |w2| == hidDim * outDim && |b2| == outDim
    }
  }

  ghost predicate SameShape(a: Net, b: Net) {
    && a.inDim == b.inDim && a.hidDim == b.hidDim && a.outDim == b.outDim
    && |a.w1| == |b.w1| && |a.b1| == |b.b1| && |a.w2| == |b.w2| && |a.b2| == |b.b2|
  }

  // ── forward pass ─────────────────────────────────────────────────

  function Relu(x: real): real { if x > 0.0 then x else 0.0 }

  /** Terms of the product of x with column j, or of d with row i, of a flat matrix whose rows have m cells. */
  ghost function ColumnTerm(x: seq<real>, w: seq<real>, m: nat, j: int): int -> real {
    i => At(x, i) * At(w, i * m + j)
  }

  ghost function RowTerm(d: seq<real>, w: seq<real>, m: nat, i: int): int -> real {
    j => At(d, j) * At(w, i * m + j)
  }

  /** Input of hidden unit j before the activation. */
  ghost function Pre(net: Net, x: seq<real>, j: int): real {
    Sum(ColumnTerm(x, net.w1, net.hidDim, j), net.inDim) + At(net.b1, j)
  }

  ghost function Hidden(net: Net, x: seq<real>): seq<real> {
    seq(net.hidDim, j => Relu(Pre(net, x, j)))
  }

  ghost function Output(net: Net, x: seq<real>): seq<real> {
    seq(net.outDim, j => Sum(ColumnTerm(Hidden(net, x), net.w2, net.outDim, j), net.hidDim) + At(net.b2, j))
  }

  ghost function SquaredError(o: seq<real>, t: seq<real>): int -> real {
    j => (At(o, j) - At(t, j)) * (At(o, j) - At(t, j))
  }

  /** Mean squared difference of two vectors in their first n cells. */
  ghost function MeanSquare(o: seq<real>, t: seq<real>, n: nat): real
    requires n > 0
  {
    Sum(SquaredError(o, t), n) / n as real
  }

  /** Loss of one sample. */
  ghost function Loss(net: Net, x: seq<real>, t: seq<real>): real
    requires net.outDim > 0
  {
    MeanSquare(Output(net, x), t, net.outDim)
  }

  // ── the gradient that the SGD step uses ──────────────────────────

  ghost function ErrorGrad(o: seq<real>, t: seq<real>, n: nat): seq<real> {
    seq(n, j => if n == 0 then 0.0 else 2.0 * (At(o, j) - At(t, j)) / n as real)
  }

  ghost function OutputGrad(net: Net, x: seq<real>, t: seq<real>): seq<real> {
    ErrorGrad(Output(net, x), t, net.outDim)
  }

  ghost function HiddenGrad(net: Net, x: seq<real>, t: seq<real>): seq<real> {
    var h, d := Hidden(net, x), OutputGrad(net, x, t);
    seq(net.hidDim, i => if At(h, i) > 0.0 then Sum(RowTerm(d, net.w2, net.outDim, i), net.outDim) else 0.0)
  }

  /** The flat n-by-m matrix with cell (i, j) equal to a[i] * d[j]. */
  ghost function Outer(a: seq<real>, d: seq<real>, n: nat, m: nat): seq<real> {
    seq(n * m, c => At(d, ColumnOf(c, m)) * At(a, RowOf(c, m)))
  }

  ghost function Gradient(net: Net, x: seq<real>, t: seq<real>): Net {
    Net(net.inDim, net.hidDim, net.outDim,
        Outer(x, HiddenGrad(net, x, t), net.inDim, net.hidDim),
        HiddenGrad(net, x, t),
        Outer(Hidden(net, x), OutputGrad(net, x, t), net.hidDim, net.outDim),
        OutputGrad(net, x, t))
  }

  /** v - lr * g, cell by cell. */
  ghost function Away(v: seq<real>, g: seq<real>, lr: real): seq<real> {
    seq(|v|, c => At(v, c) - lr * At(g, c))
  }

  /** One simultaneous step theta - lr * grad. */
  ghost function Descend(net: Net, grad: Net, lr: real): Net {
    net.(w1 := Away(net.w1, grad.w1, lr), b1 := Away(net.b1, grad.b1, lr),
         w2 := Away(net.w2, grad.w2, lr), b2 := Away(net.b2, grad.b2, lr))
  }

  /** The network after Train on one sample. */
  ghost function TrainStep(net: Net, x: seq<real>, t: seq<real>, lr: real): Net {
    Descend(net, Gradient(net, x, t), lr)
  }

  // ── flat weight vectors ──────────────────────────────────────────

  function Flatten(net: Net): seq<real> {
    net.w1 + net.b1 + net.w2 + net.b2
  }

  /** Go's copy(dst, src): the first min(len(dst), len(src)) cells are overwritten. */
  function Copied(dst: seq<real>, src: seq<real>): (r: seq<real>)
    ensures |r| == |dst|
    ensures forall k :: 0 <= k < |dst| ==> r[k] == if k < |src| then src[k] else dst[k]
  {
    if |src| >= |dst| then src[..|dst|] else src + dst[|src|..]
  }

  /** What SetWeights leaves in the network; shorter vectors than the first three layers need
      make the source panic on a slice bound. */
  function Unflatten(net: Net, w: seq<real>): Net
    requires |w| >= |net.w1| + |net.b1| + |net.w2|
  {
    var o1 := |net.w1|;
    var o2 := o1 + |net.b1|;
    var o3 := o2 + |net.w2|;
    net.(w1 := Copied(net.w1, w), b1 := Copied(net.b1, w[o1..]),
         w2 := Copied(net.w2, w[o2..]), b2 := Copied(net.b2, w[o3..]))
  }

  /** Loading a network's own flat vector into any network of its shape reproduces it. */
  lemma UnflattenFlatten(net: Net, other: Net)
    requires SameShape(net, other)
    ensures Unflatten(other, Flatten(net)) == net
  {
    var f := Flatten(net);
    var o1 := |net.w1|;
    var o2 := o1 + |net.b1|;
    var o3 := o2 + |net.w2|;
    assert f[..o1] == net.w1;
    assert f[o1..][..|net.b1|] == net.b1;
    assert f[o2..][..|net.w2|] == net.w2;
    assert f[o3..][..|net.b2|] == net.b2;
  }

  /** Reading the vector back gives it unchanged exactly when it has one cell per parameter. */
  lemma FlattenUnflatten(net: Net, w: seq<real>)
    requires |w| >= |net.w1| + |net.b1| + |net.w2|
    ensures Flatten(Unflatten(net, w)) == w <==> |w| == |Flatten(net)|
  {
    var o1 := |net.w1|;
    var o2 := o1 + |net.b1|;
    var o3 := o2 + |net.w2|;
    if |w| == |Flatten(net)| {
      assert w == w[..o1] + w[o1..][..|net.b1|] + w[o2..][..|net.w2|] + w[o3..][..|net.b2|];
    }
  }

  /** A loaded vector fills the parameters in order; those it does not reach stay. */
  lemma UnflattenCells(net: Net, w: seq<real>, k: nat)
    requires |w| >= |net.w1| + |net.b1| + |net.w2| && k < |Flatten(net)|
    ensures |Flatten(Unflatten(net, w))| == |Flatten(net)|
    ensures Flatten(Unflatten(net, w))[k] == if k < |w| then w[k] else Flatten(net)[k]
  {
  }

  // ── the imperative network ───────────────────────────────────────

  /** Cell c of matrix w after its update by the learning rate, the gradient d and the activations a. */
  ghost function CellAfter(w: seq<real>, d: seq<real>, a: seq<real>, lr: real, cols: nat, c: int): real {
    At(w, c) - lr * (At(d, ColumnOf(c, cols)) * At(a, RowOf(c, cols)))
  }

  /** The nested update loop over a flat rows-by-cols matrix touches every cell exactly once. */
  method UpdateMatrix(w: array<real>, d: seq<real>, a: seq<real>, lr: real, rows: nat, cols: nat)
    requires w.Length == rows * cols && |d| >= cols && |a| >= rows
    modifies w
    ensures w[..] == Away(old(w[..]), Outer(a, d, rows, cols), lr)
  {
    ghost var was := w[..];
    var i, base := 0, 0;
    while i < rows
      invariant 0 <= i <= rows && base == i * cols
      invariant forall c :: 0 <= c < base && c < w.Length ==> w[c] == CellAfter(was, d, a, lr, cols, c)
      invariant forall c :: base <= c < w.Length ==> w[c] == was[c]
    {
      RowFits(i, rows, cols);
      UpdateRow(w, d, a, lr, i, base, cols);
      i, base := i + 1, base + cols;
    }
    CellsAreAway(was, w[..], d, a, lr, rows, cols);
  }

  lemma CellsAreAway(was: seq<real>, now: seq<real>, d: seq<real>, a: seq<real>, lr: real, rows: nat, cols: nat)
    requires |was| == |now| == rows * cols
    requires forall c :: 0 <= c < |now| ==> now[c] == CellAfter(was, d, a, lr, cols, c)
    ensures now == Away(was, Outer(a, d, rows, cols), lr)
  {
    var r := Away(was, Outer(a, d, rows, cols), lr);
    forall c | 0 <= c < |now| ensures now[c] == r[c] { AwayCell(was, d, a, lr, rows, cols, c); }
  }

  lemma AwayCell(was: seq<real>, d: seq<real>, a: seq<real>, lr: real, rows: nat, cols: nat, c: nat)
    requires c < |was| == rows * cols
    ensures Away(was, Outer(a, d, rows, cols), lr)[c] == CellAfter(was, d, a, lr, cols, c)
  {
    assert At(Outer(a, d, rows, cols), c) == At(d, ColumnOf(c, cols)) * At(a, RowOf(c, cols));
  }

  lemma RowFits(i: nat, rows: nat, cols: nat)
    requires i < rows
    ensures i * cols + cols == (i + 1) * cols <= rows * cols
  {
    MulMonotone(i + 1, rows, cols);
  }

  /** The inner loop: row i starts at flat cell `base`. */
  method UpdateRow(w: array<real>, d: seq<real>, a: seq<real>, lr: real, i: nat, base: nat, cols: nat)
    requires base == i * cols && base + cols <= w.Length && |d| >= cols && i < |a|
    modifies w
    ensures forall c :: base <= c < base + cols ==> w[c] == CellAfter(old(w[..]), d, a, lr, cols, c)
    ensures forall c :: 0 <= c < base || base + cols <= c < w.Length ==> w[c] == old(w[c])
  {
    ghost var was := w[..];
    for j := 0 to cols
      invariant forall c :: base <= c < base + j ==> w[c] == CellAfter(was, d, a, lr, cols, c)
      invariant forall c :: 0 <= c < base || base + j <= c < w.Length ==> w[c] == was[c]
    {
      DivModUnique(base + j, i, j, cols);
      w[base + j] := w[base + j] - lr * d[j] * a[i];
    }
  }

  method UpdateBias(b: array<real>, d: seq<real>, lr: real)
    requires |d| >= b.Length
    modifies b
    ensures b[..] == Away(old(b[..]), d, lr)
  {
    ghost var was := b[..];
    for j := 0 to b.Length
      invariant forall c :: 0 <= c < j ==> b[c] == Away(was, d, lr)[c]
      invariant forall c :: j <= c < b.Length ==> b[c] == was[c]
    {
      b[j] := b[j] - lr * d[j];
    }
  }

  /** copy(dst, src) */
  method CopySlice(dst: array<real>, src: seq<real>)
    modifies dst
    ensures dst[..] == Copied(old(dst[..]), src)
  {
    ghost var was := dst[..];
    var n := if |src| < dst.Length then |src| else dst.Length;
    for k := 0 to n
      invariant forall c :: 0 <= c < k ==> dst[c] == src[c]
      invariant forall c :: k <= c < dst.Length ==> dst[c] == was[c]
    {
      dst[k] := src[k];
    }
    assert dst[..] == Copied(was, src);
  }

  /** Product of x with column j of the flat n-by-m matrix w. */
  method DotColumn(x: seq<real>, w: array<real>, n: nat, m: nat, j: nat) returns (sum: real)
    requires j < m && |x| >= n && w.Length == n * m
    ensures sum == Sum(ColumnTerm(x, w[..], m, j), n)
  {
    sum := 0.0;
    ghost var f := ColumnTerm(x, w[..], m, j);
    for i := 0 to n
      invariant sum == Sum(f, i)
    {
      FlatIndex(i, j, n, m);
      var c := i * m + j;
      assert f(i) == x[i] * w[c];
      SumStep(f, i);
      sum := sum + x[i] * w[c];
    }
  }

  /** Product of d with row i of the flat n-by-m matrix w. */
  method DotRow(d: seq<real>, w: array<real>, n: nat, m: nat, i: nat) returns (sum: real)
    requires i < n && |d| >= m && w.Length == n * m
    ensures sum == Sum(RowTerm(d, w[..], m, i), m)
  {
    sum := 0.0;
    ghost var f := RowTerm(d, w[..], m, i);
    for j := 0 to m
      invariant sum == Sum(f, j)
    {
      FlatIndex(i, j, n, m);
      var c := i * m + j;
      assert f(j) == d[j] * w[c];
      SumStep(f, j);
      sum := sum + d[j] * w[c];
    }
  }

  /** The accumulated squared error of the first n cells. */
  method SumSquaredError(output: seq<real>, target: seq<real>, n: nat) returns (sum: real)
    requires |output| >= n && |target| >= n
    ensures sum == Sum(SquaredError(output, target), n)
  {
    sum := 0.0;
    for j := 0 to n
      invariant sum == Sum(SquaredError(output, target), j)
    {
      var diff := output[j] - target[j];
      assert SquaredError(output, target)(j) == diff * diff;
      SumStep(SquaredError(output, target), j);
      sum := sum + diff * diff;
    }
  }

  method ErrorGradient(output: seq<real>, target: seq<real>, n: nat) returns (d: array<real>)
    requires |output| >= n && |target| >= n
    ensures fresh(d) && d[..] == ErrorGrad(output, target, n)
  {
    d := new real[n];
    for j := 0 to n
      invariant forall k :: 0 <= k < j ==> d[k] == ErrorGrad(output, target, n)[k]
    {
      d[j] := 2.0 * (output[j] - target[j]) / n as real;
    }
  }

  class MLP {
    const inputDim: nat
    const hiddenDim: nat
    const outputDim: nat
    const W1: array<real>
    const B1: array<real>
    const W2: array<real>
    const B2: array<real>

    ghost predicate Valid() {
      && W1.Length == inputDim * hiddenDim && B1.Length == hiddenDim
      && W2.Length == hiddenDim * outputDim && B2.Length == outputDim
      && W1 != B1 && W1 != W2 && W1 != B2 && B1 != W2 && B1 != B2 && W2 != B2
    }

    /** The parameters as a value. */
    ghost function Value(): Net
      reads W1, B1, W2, B2
    {
      Net(inputDim, hiddenDim, outputDim, W1[..], B1[..], W2[..], B2[..])
    }

    /** `init` stands for the random numbers the source draws for the two weight matrices. */
    constructor (inDim: nat, hidDim: nat, outDim: nat, init: nat -> real)
      ensures Valid() && fresh(W1) && fresh(B1) && fresh(W2) && fresh(B2)
      ensures inputDim == inDim && hiddenDim == hidDim && outputDim == outDim
      ensures Value().WellFormed()
      ensures forall j :: 0 <= j < hidDim ==> B1[j] == 0.0
      ensures forall j :: 0 <= j < outDim ==> B2[j] == 0.0
    {
      inputDim, hiddenDim, outputDim := inDim, hidDim, outDim;
      W1 := new real[inDim * hidDim](i => init(i));
      B1 := new real[hidDim](_ => 0.0);
      W2 := new real[hidDim * outDim](i => init(inDim * hidDim + i));
      B2 := new real[outDim](_ => 0.0);
    }

    method HiddenLayer(input: seq<real>) returns (h: array<real>)
      requires Valid() && |input| >= inputDim
      ensures fresh(h) && h[..] == Hidden(Value(), input)
    {
      h := new real[hiddenDim];
      for j := 0 to hiddenDim
        invariant forall k :: 0 <= k < j ==> h[k] == Relu(Pre(Value(), input, k))
      {
        var sum := DotColumn(input, W1, inputDim, hiddenDim, j);
        h[j] := Relu(sum + B1[j]);
      }
    }

    method Predict(input: seq<real>) returns (output: array<real>)
      requires Valid() && |input| >= inputDim
      ensures fresh(output) && output[..] == Output(Value(), input)
    {
      var hidden := HiddenLayer(input);
      var h := hidden[..];
      output := new real[outputDim];
      for j := 0 to outputDim
        invariant forall k :: 0 <= k < j ==>
                    output[k] == Sum(ColumnTerm(h, W2[..], outputDim, k), hiddenDim) + B2[k]
      {
        var sum := DotColumn(h, W2, hiddenDim, outputDim, j);
        output[j] := sum + B2[j];
      }
    }

    /** Backpropagation into the hidden layer, reading W2 before it is updated. */
    method HiddenGradient(hidden: seq<real>, dOutput: seq<real>, ghost input: seq<real>, ghost target: seq<real>)
      returns (dHidden: array<real>)
      requires Valid()
      requires hidden == Hidden(Value(), input)
      requires dOutput == OutputGrad(Value(), input, target)
      ensures fresh(dHidden) && dHidden[..] == HiddenGrad(Value(), input, target)
    {
      dHidden := new real[hiddenDim](_ => 0.0);
      ghost var g := HiddenGrad(Value(), input, target);
      for i := 0 to hiddenDim
        invariant forall k :: 0 <= k < i ==> dHidden[k] == g[k]
        invariant forall k :: i <= k < hiddenDim ==> dHidden[k] == 0.0
        invariant g == HiddenGrad(Value(), input, target)
      {
        var sum := DotRow(dOutput, W2, hiddenDim, outputDim, i);
        if hidden[i] > 0.0 {
          dHidden[i] := sum;
        }
      }
    }

    /** One SGD step.  The four in-place update loops together perform the simultaneous step
        theta - lr * grad(theta), with every gradient taken at the parameters before the call,
        and the loss returned is the one before the update.  Without outputs there is no loss: the
        source divides zero by zero. */
    method Train(input: seq<real>, target: seq<real>, lr: real) returns (loss: Option<real>)
      requires Valid() && |input| >= inputDim && |target| >= outputDim
      modifies W1, B1, W2, B2
      ensures Value() == TrainStep(old(Value()), input, target, lr)
      ensures loss == if outputDim == 0 then None else Some(Loss(old(Value()), input, target))
    {
      var hidden := HiddenLayer(input);
      var output := Predict(input);
      var sum := SumSquaredError(output[..], target, outputDim);
      loss := if outputDim == 0 then None else Some(sum / outputDim as real);
      var dOutput := ErrorGradient(output[..], target, outputDim);
      var dHidden := HiddenGradient(hidden[..], dOutput[..], input, target);
      var h, dOut, dHid := hidden[..], dOutput[..], dHidden[..];
      UpdateMatrix(W2, dOut, h, lr, hiddenDim, outputDim);
      UpdateBias(B2, dOut, lr);
      UpdateMatrix(W1, dHid, input, lr, inputDim, hiddenDim);
      UpdateBias(B1, dHid, lr);
    }

    method Weights() returns (out: array<real>)
      requires Valid()
      ensures fresh(out) && out[..] == Flatten(Value()) == W1[..] + B1[..] + W2[..] + B2[..]
    {
      var n1 := W1.Length;
      var n2 := n1 + B1.Length;
      var n3 := n2 + W2.Length;
      out := new real[n3 + B2.Length];
      forall c | 0 <= c < n1 { out[c] := W1[c]; }
      forall c | n1 <= c < n2 { out[c] := B1[c - n1]; }
      forall c | n2 <= c < n3 { out[c] := W2[c - n2]; }
      forall c | n3 <= c < out.Length { out[c] := B2[c - n3]; }
      assert out[..] == Flatten(Value());
    }

    method SetWeights(w: seq<real>)
      requires Valid()
      requires |w| >= W1.Length + B1.Length + W2.Length
      modifies W1, B1, W2, B2
      ensures Value() == Unflatten(old(Value()), w)
    {
      var off := 0;
      assert w[off..] == w;
      CopySlice(W1, w[off..]);
      off := off + W1.Length;
      CopySlice(B1, w[off..]);
      off := off + B1.Length;
      CopySlice(W2, w[off..]);
      off := off + W2.Length;
      CopySlice(B2, w[off..]);
    }
  }
}
