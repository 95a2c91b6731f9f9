/** Training treats the hidden units alike: it commutes with renaming them.  Hence a network that
    starts with identical hidden units keeps them identical through training and averaging. */
module HiddenSymmetry {
  import opened Sums
  import opened Mlp
  import opened FederatedAveraging

  function Index(p: seq<nat>, i: int): int { if 0 <= i < |p| then p[i] else 0 }

  // ── renaming the columns or the rows of a flat n-by-m matrix ─────

  /** The vector whose cell c is cell q[c] of w. */
  ghost function Reindex(w: seq<real>, q: seq<nat>): seq<real> {
    seq(|w|, c => At(w, Index(q, c)))
  }

  ghost function ColumnTable(n: nat, m: nat, p: seq<nat>): seq<nat> {
    seq(n * m, c => Natural(RowOf(c, m) * m + Index(p, ColumnOf(c, m))))
  }

  ghost function RowTable(n: nat, m: nat, p: seq<nat>): seq<nat> {
    seq(n * m, c => Natural(Index(p, RowOf(c, m)) * m + ColumnOf(c, m)))
  }

  function Natural(i: int): nat { if i < 0 then 0 else i }

  lemma ColumnEntry(n: nat, m: nat, p: seq<nat>, k: int, j: int)
    requires |p| == m && Permutation(p) && 0 <= k < n && 0 <= j < m
    ensures 0 <= k * m + j < n * m && 0 <= k * m + p[j] < n * m
    ensures ColumnTable(n, m, p)[k * m + j] == k * m + p[j]
  {
    FlatIndex(k, j, n, m);
    FlatIndex(k, p[j], n, m);
  }

  lemma RowEntry(n: nat, m: nat, p: seq<nat>, i: int, o: int)
    requires |p| == n && Permutation(p) && 0 <= i < n && 0 <= o < m
    ensures 0 <= i * m + o < n * m && 0 <= p[i] * m + o < n * m
    ensures RowTable(n, m, p)[i * m + o] == p[i] * m + o
  {
    FlatIndex(i, o, n, m);
    FlatIndex(p[i], o, n, m);
  }

  ghost predicate InRange(q: seq<nat>) {
    forall c :: 0 <= c < |q| ==> q[c] < |q|
  }

  lemma TablesInRange(n: nat, m: nat, p: seq<nat>)
    requires Permutation(p)
    ensures |p| == m ==> InRange(ColumnTable(n, m, p))
    ensures |p| == n ==> InRange(RowTable(n, m, p))
  {
    forall c | 0 <= c < n * m && |p| == m ensures ColumnTable(n, m, p)[c] < n * m {
      FlatCell(c, n, m);
      ColumnEntry(n, m, p, RowOf(c, m), ColumnOf(c, m));
    }
    forall c | 0 <= c < n * m && |p| == n ensures RowTable(n, m, p)[c] < n * m {
      FlatCell(c, n, m);
      RowEntry(n, m, p, RowOf(c, m), ColumnOf(c, m));
    }
  }

  lemma AwayReindexed(w: seq<real>, g: seq<real>, lr: real, q: seq<nat>)
    requires |w| == |g| == |q| && InRange(q)
    ensures Away(Reindex(w, q), Reindex(g, q), lr) == Reindex(Away(w, g, lr), q)
  {
    var l, r := Away(Reindex(w, q), Reindex(g, q), lr), Reindex(Away(w, g, lr), q);
    forall c | 0 <= c < |w| ensures l[c] == r[c] {}
  }

  ghost function RenameColumns(w: seq<real>, n: nat, m: nat, p: seq<nat>): seq<real> {
    Reindex(w, ColumnTable(n, m, p))
  }

  ghost function RenameRows(w: seq<real>, n: nat, m: nat, p: seq<nat>): seq<real> { Reindex(w, RowTable(n, m, p)) }

  lemma ColumnCell(w: seq<real>, n: nat, m: nat, p: seq<nat>, k: int, j: int)
    requires |w| == n * m && |p| == m && Permutation(p) && 0 <= k < n && 0 <= j < m
    ensures At(RenameColumns(w, n, m, p), k * m + j) == At(w, k * m + p[j])
  {
    ColumnEntry(n, m, p, k, j);
  }

  lemma RowCell(w: seq<real>, n: nat, m: nat, p: seq<nat>, i: int, o: int)
    requires |w| == n * m && |p| == n && Permutation(p) && 0 <= i < n && 0 <= o < m
    ensures At(RenameRows(w, n, m, p), i * m + o) == At(w, p[i] * m + o)
  {
    RowEntry(n, m, p, i, o);
  }

  lemma ColumnOfRenamed(x: seq<real>, w: seq<real>, n: nat, m: nat, p: seq<nat>, j: int)
    requires |w| == n * m && |p| == m && Permutation(p) && 0 <= j < m
    ensures Sum(ColumnTerm(x, RenameColumns(w, n, m, p), m, j), n) == Sum(ColumnTerm(x, w, m, p[j]), n)
  {
    var f, g := ColumnTerm(x, RenameColumns(w, n, m, p), m, j), ColumnTerm(x, w, m, p[j]);
    forall k | 0 <= k < n ensures f(k) == g(k) {
      ColumnCell(w, n, m, p, k, j);
    }
    SumEq(f, g, n);
  }

  /** A renamed vector meets a matrix with equally renamed rows in the same numbers. */
  lemma ThroughRenamed(h: seq<real>, w: seq<real>, n: nat, m: nat, p: seq<nat>, o: int)
    requires |w| == n * m && |p| == |h| == n && Permutation(p) && 0 <= o < m
    ensures Sum(ColumnTerm(Permuted(h, p), RenameRows(w, n, m, p), m, o), n) == Sum(ColumnTerm(h, w, m, o), n)
  {
    var f, g := ColumnTerm(h, w, m, o), ColumnTerm(Permuted(h, p), RenameRows(w, n, m, p), m, o);
    forall i | 0 <= i < n ensures g(i) == f(p[i]) {
      RowCell(w, n, m, p, i, o);
      assert At(Permuted(h, p), i) == At(h, p[i]);
    }
    SumPermuted(f, p, g);
  }

  lemma RowOfRenamed(d: seq<real>, w: seq<real>, n: nat, m: nat, p: seq<nat>, i: int)
    requires |w| == n * m && |p| == n && Permutation(p) && 0 <= i < n
    ensures Sum(RowTerm(d, RenameRows(w, n, m, p), m, i), m) == Sum(RowTerm(d, w, m, p[i]), m)
  {
    var f, g := RowTerm(d, RenameRows(w, n, m, p), m, i), RowTerm(d, w, m, p[i]);
    forall o | 0 <= o < m ensures f(o) == g(o) {
      RowCell(w, n, m, p, i, o);
    }
    SumEq(f, g, m);
  }

  lemma OuterColumns(x: seq<real>, d: seq<real>, n: nat, m: nat, p: seq<nat>)
    requires |p| == |d| == m && Permutation(p)
    ensures Outer(x, Permuted(d, p), n, m) == RenameColumns(Outer(x, d, n, m), n, m, p)
  {
    var l, r := Outer(x, Permuted(d, p), n, m), RenameColumns(Outer(x, d, n, m), n, m, p);
    forall c | 0 <= c < n * m ensures l[c] == r[c] {
      var c' := ColumnTable(n, m, p)[c];
      ColumnImage(n, m, p, c);
      SameOuterCell(x, Permuted(d, p), x, d, n, m, c, c');
    }
  }

  lemma OuterRows(h: seq<real>, d: seq<real>, n: nat, m: nat, p: seq<nat>)
    requires |p| == |h| == n && Permutation(p)
    ensures Outer(Permuted(h, p), d, n, m) == RenameRows(Outer(h, d, n, m), n, m, p)
  {
    var l, r := Outer(Permuted(h, p), d, n, m), RenameRows(Outer(h, d, n, m), n, m, p);
    forall c | 0 <= c < n * m ensures l[c] == r[c] {
      var c' := RowTable(n, m, p)[c];
      RowImage(n, m, p, c);
      SameOuterCell(Permuted(h, p), d, h, d, n, m, c, c');
    }
  }

  lemma SameOuterCell(a: seq<real>, d: seq<real>, a': seq<real>, d': seq<real>, n: nat, m: nat, c: int, c': int)
    requires 0 <= c < n * m && 0 <= c' < n * m
    requires At(a, RowOf(c, m)) == At(a', RowOf(c', m)) && At(d, ColumnOf(c, m)) == At(d', ColumnOf(c', m))
    ensures At(Outer(a, d, n, m), c) == At(Outer(a', d', n, m), c')
  {
  }

  lemma ColumnImage(n: nat, m: nat, p: seq<nat>, c: int)
    requires |p| == m && Permutation(p) && 0 <= c < n * m
    ensures var c' := ColumnTable(n, m, p)[c];
            && 0 <= c' < n * m && RowOf(c', m) == RowOf(c, m)
            && 0 <= ColumnOf(c, m) < m && ColumnOf(c', m) == p[ColumnOf(c, m)]
  {
    FlatCell(c, n, m);
    FlatIndex(RowOf(c, m), p[ColumnOf(c, m)], n, m);
  }

  lemma RowImage(n: nat, m: nat, p: seq<nat>, c: int)
    requires |p| == n && Permutation(p) && 0 <= c < n * m
    ensures var c' := RowTable(n, m, p)[c];
            && 0 <= c' < n * m && ColumnOf(c', m) == ColumnOf(c, m)
            && 0 <= RowOf(c, m) < n && RowOf(c', m) == p[RowOf(c, m)]
  {
    FlatCell(c, n, m);
    FlatIndex(p[RowOf(c, m)], ColumnOf(c, m), n, m);
  }

  lemma StepColumns(w: seq<real>, x: seq<real>, d: seq<real>, lr: real, n: nat, m: nat, p: seq<nat>)
    requires |w| == n * m && |p| == |d| == m && Permutation(p)
    ensures Away(RenameColumns(w, n, m, p), Outer(x, Permuted(d, p), n, m), lr)
         == RenameColumns(Away(w, Outer(x, d, n, m), lr), n, m, p)
  {
    OuterColumns(x, d, n, m, p);
    TablesInRange(n, m, p);
    AwayReindexed(w, Outer(x, d, n, m), lr, ColumnTable(n, m, p));
  }

  lemma StepRows(w: seq<real>, h: seq<real>, d: seq<real>, lr: real, n: nat, m: nat, p: seq<nat>)
    requires |w| == n * m && |p| == |h| == n && Permutation(p)
    ensures Away(RenameRows(w, n, m, p), Outer(Permuted(h, p), d, n, m), lr)
         == RenameRows(Away(w, Outer(h, d, n, m), lr), n, m, p)
  {
    OuterRows(h, d, n, m, p);
    TablesInRange(n, m, p);
    AwayReindexed(w, Outer(h, d, n, m), lr, RowTable(n, m, p));
  }

  // ── a network with renamed hidden units ──────────────────────────

  ghost predicate Renames(p: seq<nat>, net: Net) {
    net.WellFormed() && |p| == net.hidDim && Permutation(p)
  }

  /** The network whose hidden unit i is hidden unit p[i] of `net`. */
  ghost function Rename(net: Net, p: seq<nat>): Net
    requires Renames(p, net)
  {
    net.(w1 := RenameColumns(net.w1, net.inDim, net.hidDim, p), b1 := Permuted(net.b1, p),
        w2 := RenameRows(net.w2, net.hidDim, net.outDim, p))
  }

  lemma RenamedHidden(net: Net, p: seq<nat>, x: seq<real>)
    requires Renames(p, net)
    ensures Hidden(Rename(net, p), x) == Permuted(Hidden(net, x), p)
  {
    var l, r := Hidden(Rename(net, p), x), Permuted(Hidden(net, x), p);
    forall j | 0 <= j < net.hidDim ensures l[j] == r[j] {
      ColumnOfRenamed(x, net.w1, net.inDim, net.hidDim, p, j);
    }
  }

  /** Predict does not see the names of the hidden units. */
  lemma RenamedOutput(net: Net, p: seq<nat>, x: seq<real>)
    requires Renames(p, net)
    ensures Output(Rename(net, p), x) == Output(net, x)
  {
    var l, r := Output(Rename(net, p), x), Output(net, x);
    RenamedHidden(net, p, x);
    forall o | 0 <= o < net.outDim ensures l[o] == r[o] {
      ThroughRenamed(Hidden(net, x), net.w2, net.hidDim, net.outDim, p, o);
    }
  }

  lemma RenamedHiddenGrad(net: Net, p: seq<nat>, x: seq<real>, t: seq<real>)
    requires Renames(p, net)
    ensures HiddenGrad(Rename(net, p), x, t) == Permuted(HiddenGrad(net, x, t), p)
  {
    RenamedOutput(net, p, x);
    RenamedHidden(net, p, x);
    var l, r := HiddenGrad(Rename(net, p), x, t), Permuted(HiddenGrad(net, x, t), p);
    forall i | 0 <= i < net.hidDim ensures l[i] == r[i] {
      RowOfRenamed(OutputGrad(net, x, t), net.w2, net.hidDim, net.outDim, p, i);
      assert At(Permuted(Hidden(net, x), p), i) == At(Hidden(net, x), p[i]);
    }
  }

  lemma StepBias(b: seq<real>, d: seq<real>, lr: real, p: seq<nat>)
    requires |b| == |d| == |p| && Permutation(p)
    ensures Away(Permuted(b, p), Permuted(d, p), lr) == Permuted(Away(b, d, lr), p)
  {
    var l, r := Away(Permuted(b, p), Permuted(d, p), lr), Permuted(Away(b, d, lr), p);
    forall c | 0 <= c < |b| ensures l[c] == r[c] {}
  }

  lemma TrainStepShape(net: Net, x: seq<real>, t: seq<real>, lr: real)
    requires net.WellFormed()
    ensures TrainStep(net, x, t, lr).WellFormed()
    ensures SameShape(TrainStep(net, x, t, lr), net)
  {
  }

  /** Training a renamed network is renaming the trained network. */
  lemma TrainCommutesWithRenaming(net: Net, p: seq<nat>, x: seq<real>, t: seq<real>, lr: real)
    requires Renames(p, net)
    ensures TrainStep(net, x, t, lr).WellFormed()
    ensures TrainStep(Rename(net, p), x, t, lr) == Rename(TrainStep(net, x, t, lr), p)
  {
    var h, d, dh := Hidden(net, x), OutputGrad(net, x, t), HiddenGrad(net, x, t);
    RenamedHidden(net, p, x);
    RenamedOutput(net, p, x);
    RenamedHiddenGrad(net, p, x, t);
    StepColumns(net.w1, x, dh, lr, net.inDim, net.hidDim, p);
    StepRows(net.w2, h, d, lr, net.hidDim, net.outDim, p);
    StepBias(net.b1, dh, lr, p);
  }

  // ── identical hidden units ───────────────────────────────────────

  ghost predicate UnitsAlike(net: Net) {
    forall i, j :: 0 <= i < net.hidDim && 0 <= j < net.hidDim ==> SameUnit(net, i, j)
  }

  ghost predicate SameUnit(net: Net, i: int, j: int) {
    && At(net.b1, i) == At(net.b1, j)
    && (forall k :: 0 <= k < net.inDim ==> W1At(net, k, i) == W1At(net, k, j))
    && (forall o :: 0 <= o < net.outDim ==> W2At(net, i, o) == W2At(net, j, o))
  }

  function W1At(net: Net, k: int, j: int): real { At(net.w1, k * net.hidDim + j) }

  function W2At(net: Net, i: int, o: int): real { At(net.w2, i * net.outDim + o) }

  /** Identical units make every renaming invisible. */
  lemma AlikeIsFixed(net: Net, p: seq<nat>)
    requires Renames(p, net) && UnitsAlike(net)
    ensures Rename(net, p) == net
  {
    var r := Rename(net, p);
    forall c | 0 <= c < |net.w1| ensures r.w1[c] == net.w1[c] { AlikeInW1(net, p, c); }
    forall c | 0 <= c < |net.w2| ensures r.w2[c] == net.w2[c] { AlikeInW2(net, p, c); }
    forall j | 0 <= j < |net.b1| ensures r.b1[j] == net.b1[j] {
      assert SameUnit(net, p[j], j);
    }
  }

  lemma AlikeInW1(net: Net, p: seq<nat>, c: int)
    requires Renames(p, net) && UnitsAlike(net) && 0 <= c < |net.w1|
    ensures RenameColumns(net.w1, net.inDim, net.hidDim, p)[c] == net.w1[c]
  {
    FlatCell(c, net.inDim, net.hidDim);
    var k, j := RowOf(c, net.hidDim), ColumnOf(c, net.hidDim);
    ColumnCell(net.w1, net.inDim, net.hidDim, p, k, j);
    assert SameUnit(net, p[j], j);
    assert W1At(net, k, p[j]) == W1At(net, k, j);
  }

  lemma AlikeInW2(net: Net, p: seq<nat>, c: int)
    requires Renames(p, net) && UnitsAlike(net) && 0 <= c < |net.w2|
    ensures RenameRows(net.w2, net.hidDim, net.outDim, p)[c] == net.w2[c]
  {
    FlatCell(c, net.hidDim, net.outDim);
    var i, o := RowOf(c, net.outDim), ColumnOf(c, net.outDim);
    RowCell(net.w2, net.hidDim, net.outDim, p, i, o);
    assert SameUnit(net, p[i], i);
    assert W2At(net, p[i], o) == W2At(net, i, o);
  }

  /** A network that swapping units i and j leaves unchanged has those units identical. */
  lemma FixedIsAlike(net: Net, i: nat, j: nat)
    requires net.WellFormed() && i < net.hidDim && j < net.hidDim
    requires Permutation(Swap(net.hidDim, i, j)) && Rename(net, Swap(net.hidDim, i, j)) == net
    ensures SameUnit(net, i, j)
  {
    var p := Swap(net.hidDim, i, j);
    assert At(net.b1, i) == At(net.b1, j) by { assert Permuted(net.b1, p)[i] == net.b1[j]; }
    assert p[i] == j;
    FixedInW1(net, p, i);
    FixedInW2(net, p, i);
  }

  lemma FixedInW1(net: Net, p: seq<nat>, i: int)
    requires Renames(p, net) && 0 <= i < net.hidDim && Rename(net, p) == net
    ensures forall k :: 0 <= k < net.inDim ==> W1At(net, k, i) == W1At(net, k, p[i])
  {
    assert RenameColumns(net.w1, net.inDim, net.hidDim, p) == net.w1;
    forall k | 0 <= k < net.inDim ensures W1At(net, k, i) == W1At(net, k, p[i]) {
      FixedColumns(net.w1, net.inDim, net.hidDim, p, k, i);
    }
  }

  lemma FixedInW2(net: Net, p: seq<nat>, i: int)
    requires Renames(p, net) && 0 <= i < net.hidDim && Rename(net, p) == net
    ensures forall o :: 0 <= o < net.outDim ==> W2At(net, i, o) == W2At(net, p[i], o)
  {
    assert RenameRows(net.w2, net.hidDim, net.outDim, p) == net.w2;
    forall o | 0 <= o < net.outDim ensures W2At(net, i, o) == W2At(net, p[i], o) {
      FixedRows(net.w2, net.hidDim, net.outDim, p, i, o);
    }
  }

  lemma FixedColumns(w: seq<real>, n: nat, m: nat, p: seq<nat>, k: int, i: int)
    requires |w| == n * m && |p| == m && Permutation(p) && 0 <= k < n && 0 <= i < m
    requires RenameColumns(w, n, m, p) == w
    ensures At(w, k * m + i) == At(w, k * m + p[i])
  {
    ColumnCell(w, n, m, p, k, i);
  }

  lemma FixedRows(w: seq<real>, n: nat, m: nat, p: seq<nat>, i: int, o: int)
    requires |w| == n * m && |p| == n && Permutation(p) && 0 <= i < n && 0 <= o < m
    requires RenameRows(w, n, m, p) == w
    ensures At(w, i * m + o) == At(w, p[i] * m + o)
  {
    RowCell(w, n, m, p, i, o);
  }

  /** One SGD step cannot tell identical hidden units apart. */
  lemma TrainKeepsAlike(net: Net, x: seq<real>, t: seq<real>, lr: real)
    requires net.WellFormed() && UnitsAlike(net)
    ensures UnitsAlike(TrainStep(net, x, t, lr))
  {
    var after := TrainStep(net, x, t, lr);
    TrainStepShape(net, x, t, lr);
    forall i, j | 0 <= i < net.hidDim && 0 <= j < net.hidDim ensures SameUnit(after, i, j) {
      var p := Swap(net.hidDim, i, j);
      SwapPermutes(net.hidDim, i, j);
      AlikeIsFixed(net, p);
      TrainCommutesWithRenaming(net, p, x, t, lr);
      FixedIsAlike(after, i, j);
    }
  }

  // ── averaging keeps identical units identical ────────────────────

  ghost predicate VectorAlike(shape: Net, w: seq<real>) {
    shape.WellFormed() && |w| == |Flatten(shape)| && UnitsAlike(Unflatten(shape, w))
  }

  /** Where the three cells of units i and j sit in the flat vector. */
  ghost predicate SameCells(shape: Net, w: seq<real>, i: int, j: int) {
    var o1 := |shape.w1|;
    var o2 := o1 + |shape.b1|;
    && At(w, o1 + i) == At(w, o1 + j)
    && (forall k :: 0 <= k < shape.inDim ==> At(w, Flat(k, shape.hidDim, i)) == At(w, Flat(k, shape.hidDim, j)))
    && (forall o :: 0 <= o < shape.outDim ==>
          At(w, o2 + Flat(i, shape.outDim, o)) == At(w, o2 + Flat(j, shape.outDim, o)))
  }

  function Flat(i: int, m: nat, j: int): int { i * m + j }

  lemma SameCellsIff(shape: Net, w: seq<real>, i: int, j: int)
    requires shape.WellFormed() && |w| == |Flatten(shape)|
    requires 0 <= i < shape.hidDim && 0 <= j < shape.hidDim
    ensures SameCells(shape, w, i, j) <==> SameUnit(Unflatten(shape, w), i, j)
  {
    var net := Unflatten(shape, w);
    var o1, o2 := |shape.w1|, |shape.w1| + |shape.b1|;
    forall k, u | 0 <= k < shape.inDim && 0 <= u < shape.hidDim
      ensures W1At(net, k, u) == At(w, Flat(k, shape.hidDim, u))
    {
      FlatIndex(k, u, shape.inDim, shape.hidDim);
    }
    forall u, o | 0 <= u < shape.hidDim && 0 <= o < shape.outDim
      ensures W2At(net, u, o) == At(w, o2 + Flat(u, shape.outDim, o))
    {
      FlatIndex(u, o, shape.hidDim, shape.outDim);
    }
    if SameUnit(net, i, j) {
      forall k | 0 <= k < shape.inDim ensures At(w, Flat(k, shape.hidDim, i)) == At(w, Flat(k, shape.hidDim, j)) {
        assert W1At(net, k, i) == W1At(net, k, j);
      }
      forall o | 0 <= o < shape.outDim
        ensures At(w, o2 + Flat(i, shape.outDim, o)) == At(w, o2 + Flat(j, shape.outDim, o))
      {
        assert W2At(net, i, o) == W2At(net, j, o);
      }
    }
  }

  // ── what a layer of identical units is worth ─────────────────────

  /** The network with the first hidden unit only, its outgoing weights multiplied by the number of units. */
  ghost function OneUnit(net: Net): Net {
    net.(hidDim := 1,
         w1 := seq(net.inDim, k => W1At(net, k, 0)),
         b1 := [At(net.b1, 0)],
         w2 := seq(net.outDim, o => net.hidDim as real * W2At(net, 0, o)))
  }

  lemma SameActivation(net: Net, x: seq<real>, i: int)
    requires net.WellFormed() && UnitsAlike(net) && 0 <= i < net.hidDim
    ensures Hidden(net, x)[i] == Hidden(net, x)[0] == Hidden(OneUnit(net), x)[0]
  {
    assert SameUnit(net, i, 0);
    var f, g, h := ColumnTerm(x, net.w1, net.hidDim, i), ColumnTerm(x, net.w1, net.hidDim, 0),
                   ColumnTerm(x, OneUnit(net).w1, 1, 0);
    forall k | 0 <= k < net.inDim ensures f(k) == g(k) == h(k) {
      assert W1At(net, k, i) == W1At(net, k, 0) == OneUnit(net).w1[k];
    }
    SumEq(f, g, net.inDim);
    SumEq(g, h, net.inDim);
  }

  lemma {:induction false} SumConstant(f: int -> real, c: real, n: nat)
    requires forall i :: 0 <= i < n ==> f(i) == c
    ensures Sum(f, n) == n as real * c
  {
    if n > 0 {
      SumConstant(f, c, n - 1);
      SumStep(f, n - 1);
    }
  }

  lemma SameOutgoing(net: Net, x: seq<real>, o: int)
    requires net.WellFormed() && UnitsAlike(net) && net.hidDim > 0 && 0 <= o < net.outDim
    ensures Sum(ColumnTerm(Hidden(net, x), net.w2, net.outDim, o), net.hidDim)
         == net.hidDim as real * (Hidden(net, x)[0] * W2At(net, 0, o))
  {
    var f, c := ColumnTerm(Hidden(net, x), net.w2, net.outDim, o), Hidden(net, x)[0] * W2At(net, 0, o);
    forall i | 0 <= i < net.hidDim ensures f(i) == c { SameTerm(net, x, o, i); }
    SumConstant(f, c, net.hidDim);
  }

  lemma SameTerm(net: Net, x: seq<real>, o: int, i: int)
    requires net.WellFormed() && UnitsAlike(net) && 0 <= i < net.hidDim && 0 <= o < net.outDim
    ensures ColumnTerm(Hidden(net, x), net.w2, net.outDim, o)(i) == Hidden(net, x)[0] * W2At(net, 0, o)
  {
    SameActivation(net, x, i);
    assert SameUnit(net, i, 0);
    assert W2At(net, i, o) == W2At(net, 0, o);
  }

  /** A layer of identical hidden units computes what one unit computes. */
  lemma AlikeIsOneUnit(net: Net, x: seq<real>)
    requires net.WellFormed() && UnitsAlike(net) && net.hidDim > 0
    ensures OneUnit(net).WellFormed() && Output(net, x) == Output(OneUnit(net), x)
  {
    var one := OneUnit(net);
    forall o | 0 <= o < net.outDim ensures Output(net, x)[o] == Output(one, x)[o] {
      SameActivation(net, x, 0);
      SameOutgoing(net, x, o);
      var f, h := ColumnTerm(Hidden(one, x), one.w2, one.outDim, o), Hidden(net, x)[0];
      SumStep(f, 0);
      assert f(0) == h * (net.hidDim as real * W2At(net, 0, o));
    }
  }
}
