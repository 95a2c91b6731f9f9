/** What averaging a map of model updates keeps: bounds, sums, constants and equalities between cells. */
module UpdateMeans {
  import opened Sums
  import opened Mlp
  import opened FederatedAveraging
  import opened HiddenSymmetry
  import opened Messages
  import opened Coordinator

  lemma {:induction false} TotalSign(ns: seq<int>)
    requires forall c :: 0 <= c < |ns| ==> ns[c] >= 0
    ensures Total(ns) >= 0
    ensures ns != [] && (forall c :: 0 <= c < |ns| ==> ns[c] > 0) ==> Total(ns) > 0
    decreases |ns|
  {
    if ns != [] { TotalSign(ns[..|ns| - 1]); }
  }

  lemma SampleTotalSign(m: Updates)
    requires SamplesNonNegative(m)
    ensures SampleTotal(m) >= 0.0
    ensures m.Keys != {} && (forall id :: id in m ==> m[id].numSamples > 0) ==> SampleTotal(m) > 0.0
  {
    var ids := SomeListing(m.Keys);
    ListedTotal(ids, m);
    assert forall k :: 0 <= k < |ids| ==> ids[k] in Elements(ids);
    TotalSign(ListedSamples(ids, m));
  }

  /** With non-negative samples, the mean of any quantity lies between the clients' bounds. */
  lemma MapMeanInHull(m: Updates, v: ModelUpdate -> real, lo: real, hi: real)
    requires SampleTotal(m) > 0.0 && SamplesNonNegative(m) && Between(m, v, lo, hi)
    ensures lo <= MapMean(m, v) <= hi
  {
    var ids := SomeListing(m.Keys);
    ListedTotal(ids, m);
    ListedMean(ids, m, v);
    assert forall k :: 0 <= k < |ids| ==> ids[k] in Elements(ids);
    MeanInHull(Listed(ids, m, v), ListedSamples(ids, m), lo, hi);
  }

  ghost predicate SamplesNonNegative(m: Updates) {
    forall id :: id in m ==> m[id].numSamples >= 0
  }

  ghost predicate Between(m: Updates, v: ModelUpdate -> real, lo: real, hi: real) {
    forall id :: id in m ==> lo <= v(m[id]) <= hi
  }

  /** g weighs the clients' cells and losses by samples, and keeps to the clients' bounds in the given
      cell and in the loss. */
  ghost predicate MeanOfClients(m: Updates, g: GlobalUpdate, cell: nat, lo: real, hi: real) {
    && Weighed(m, g)
    && (cell < |g.weights| && (forall id :: id in m ==> lo <= m[id].weights[cell] <= hi) ==>
          lo <= g.weights[cell] <= hi)
    && ((forall id :: id in m ==> lo <= m[id].loss <= hi) ==> lo <= g.loss <= hi)
  }

  lemma FinishedInHull(c: CoordState, ids: seq<SensorId>, cell: nat, lo: real, hi: real)
    requires Lists(ids, c.pendingUpdates)
    requires FinaliseOutcome(c, ids).Finished? && SamplesNonNegative(c.pendingUpdates)
    ensures MeanOfClients(c.pendingUpdates, FinaliseOutcome(c, ids).update, cell, lo, hi)
  {
    var m := c.pendingUpdates;
    FinishedIsWeighed(c, ids);
    ListedCell(ids, m, cell);
    SampleTotalSign(m);
    if Between(m, WeightAt(cell), lo, hi) { MapMeanInHull(m, WeightAt(cell), lo, hi); }
    if Between(m, LossOf(), lo, hi) { MapMeanInHull(m, LossOf(), lo, hi); }
  }

  /** Cells that agree in every client's vector agree in the average. */
  lemma AverageAgrees(m: Updates, n: nat, i: int, j: int)
    requires 0 <= i < n && 0 <= j < n
    requires forall id :: id in m ==> At(m[id].weights, i) == At(m[id].weights, j)
    ensures At(MapAverage(m, n), i) == At(MapAverage(m, n), j)
  {
    SetSumEq(SampledValue(m, WeightAt(i)), SampledValue(m, WeightAt(j)), m.Keys);
  }

  /** Averaging networks whose hidden units are identical gives a network of that kind. */
  lemma AverageKeepsAlike(shape: Net, m: Updates)
    requires shape.WellFormed() && forall id :: id in m ==> VectorAlike(shape, m[id].weights)
    ensures VectorAlike(shape, MapAverage(m, |Flatten(shape)|))
  {
    var n := |Flatten(shape)|;
    var w := MapAverage(m, n);
    forall i, j | 0 <= i < shape.hidDim && 0 <= j < shape.hidDim ensures SameUnit(Unflatten(shape, w), i, j) {
      AverageSameCells(shape, m, i, j);
      SameCellsIff(shape, w, i, j);
    }
  }

  lemma ClientSameCells(shape: Net, m: Updates, i: int, j: int, id: SensorId)
    requires id in m && VectorAlike(shape, m[id].weights)
    requires 0 <= i < shape.hidDim && 0 <= j < shape.hidDim
    ensures SameCells(shape, m[id].weights, i, j)
  {
    assert SameUnit(Unflatten(shape, m[id].weights), i, j);
    SameCellsIff(shape, m[id].weights, i, j);
  }

  lemma AverageSameCells(shape: Net, m: Updates, i: int, j: int)
    requires shape.WellFormed() && forall id :: id in m ==> VectorAlike(shape, m[id].weights)
    requires 0 <= i < shape.hidDim && 0 <= j < shape.hidDim
    ensures SameCells(shape, MapAverage(m, |Flatten(shape)|), i, j)
  {
    var w := MapAverage(m, |Flatten(shape)|);
    var o1 := |shape.w1|;
    var o2 := o1 + |shape.b1|;
    forall id | id in m ensures SameCells(shape, m[id].weights, i, j) {
      ClientSameCells(shape, m, i, j, id);
    }
    AverageAgrees(m, |w|, o1 + i, o1 + j);
    forall k | 0 <= k < shape.inDim
      ensures At(w, Flat(k, shape.hidDim, i)) == At(w, Flat(k, shape.hidDim, j))
    {
      AverageSameIn(shape, m, i, j, k);
    }
    forall o | 0 <= o < shape.outDim
      ensures At(w, o2 + Flat(i, shape.outDim, o)) == At(w, o2 + Flat(j, shape.outDim, o))
    {
      AverageSameOut(shape, m, i, j, o);
    }
  }

  lemma AverageSameIn(shape: Net, m: Updates, i: int, j: int, k: int)
    requires shape.WellFormed() && forall id :: id in m ==> SameCells(shape, m[id].weights, i, j)
    requires 0 <= i < shape.hidDim && 0 <= j < shape.hidDim && 0 <= k < shape.inDim
    ensures var w := MapAverage(m, |Flatten(shape)|);
            At(w, Flat(k, shape.hidDim, i)) == At(w, Flat(k, shape.hidDim, j))
  {
    FlatBounds(k, i, shape.inDim, shape.hidDim);
    FlatBounds(k, j, shape.inDim, shape.hidDim);
    AverageAgrees(m, |Flatten(shape)|, Flat(k, shape.hidDim, i), Flat(k, shape.hidDim, j));
  }

  lemma AverageSameOut(shape: Net, m: Updates, i: int, j: int, o: int)
    requires shape.WellFormed() && forall id :: id in m ==> SameCells(shape, m[id].weights, i, j)
    requires 0 <= i < shape.hidDim && 0 <= j < shape.hidDim && 0 <= o < shape.outDim
    ensures var w, o2 := MapAverage(m, |Flatten(shape)|), |shape.w1| + |shape.b1|;
            At(w, o2 + Flat(i, shape.outDim, o)) == At(w, o2 + Flat(j, shape.outDim, o))
  {
    var o2 := |shape.w1| + |shape.b1|;
    FlatBounds(i, o, shape.hidDim, shape.outDim);
    FlatBounds(j, o, shape.hidDim, shape.outDim);
    AverageAgrees(m, |Flatten(shape)|, o2 + Flat(i, shape.outDim, o), o2 + Flat(j, shape.outDim, o));
  }

  lemma FlatBounds(i: int, j: int, n: nat, m: nat)
    requires 0 <= i < n && 0 <= j < m
    ensures 0 <= Flat(i, m, j) < n * m
  {
    FlatIndex(i, j, n, m);
  }
}
