/** Federated averaging (McMahan et al., 2017) as smart-home/model/fedavg.go computes it. */
module FederatedAveraging {
  import opened Sums
  import opened Mlp

  function Nth(ns: seq<int>, c: int): int { if 0 <= c < |ns| then ns[c] else 0 }

  function Total(ns: seq<int>): int {
    if |ns| == 0 then 0 else Total(ns[..|ns| - 1]) + ns[|ns| - 1]
  }

  // ── the weighted mean of one coordinate ──────────────────────────

  ghost function MeanTerm(v: seq<real>, ns: seq<int>, total: int): int -> real {
    c => if total == 0 then 0.0 else At(v, c) * (Nth(ns, c) as real / total as real)
  }

  /** The sum of v[c] * (ns[c] / N), added up client by client. */
  ghost function WeightedMean(v: seq<real>, ns: seq<int>): real {
    Sum(MeanTerm(v, ns, Total(ns)), |v|)
  }

  ghost function SampleTerm(v: seq<real>, ns: seq<int>): int -> real {
    c => Nth(ns, c) as real * At(v, c)
  }

  /** The sample-weighted sum of one coordinate over all clients. */
  ghost function SampleSum(v: seq<real>, ns: seq<int>): real {
    Sum(SampleTerm(v, ns), |v|)
  }

  /** Nothing is lost: total samples times the mean is the sample-weighted sum. */
  lemma MeanConserves(v: seq<real>, ns: seq<int>)
    requires |v| == |ns| && Total(ns) != 0
    ensures Total(ns) as real * WeightedMean(v, ns) == SampleSum(v, ns)
  {
    var f, g, n := MeanTerm(v, ns, Total(ns)), SampleTerm(v, ns), Total(ns) as real;
    forall c | 0 <= c < |v| ensures g(c) == n * f(c) {
      Cancel(At(v, c), Nth(ns, c) as real, n);
    }
    SumScale(n, f, g, |v|);
  }

  lemma Cancel(v: real, k: real, n: real)
    requires n != 0.0
    ensures k * v == n * (v * (k / n))
  {
    var q := k / n;
    assert n * q == k;
    assert n * (v * q) == v * (n * q);
  }

  /** The sum of the samples, as reals. */
  lemma {:induction false} TotalIsSum(ns: seq<int>, f: int -> real, n: nat)
    requires n <= |ns|
    requires forall c :: 0 <= c < n ==> f(c) == ns[c] as real
    ensures Sum(f, n) == Total(ns[..n]) as real
  {
    if n > 0 {
      TotalIsSum(ns, f, n - 1);
      SumStep(f, n - 1);
      assert ns[..n][..n - 1] == ns[..n - 1];
    }
  }

  /** The mean of a coordinate lies between any bounds that hold for every client. */
  lemma MeanInHull(v: seq<real>, ns: seq<int>, lo: real, hi: real)
    requires |v| == |ns| && Total(ns) > 0
    requires forall c :: 0 <= c < |ns| ==> ns[c] >= 0
    requires forall c :: 0 <= c < |v| ==> lo <= v[c] <= hi
    ensures lo <= WeightedMean(v, ns) <= hi
  {
    var n := Total(ns) as real;
    MeanConserves(v, ns);
    SampleSumBounds(v, ns, lo, hi);
    assert ns[..|ns|] == ns;
    TotalIsSum(ns, Count(ns), |ns|);
    Squeeze(WeightedMean(v, ns), lo, hi, n);
  }

  lemma SampleSumBounds(v: seq<real>, ns: seq<int>, lo: real, hi: real)
    requires |v| == |ns|
    requires forall c :: 0 <= c < |ns| ==> ns[c] >= 0
    requires forall c :: 0 <= c < |v| ==> lo <= v[c] <= hi
    ensures lo * Sum(Count(ns), |ns|) <= SampleSum(v, ns) <= hi * Sum(Count(ns), |ns|)
  {
    var k, f := Count(ns), SampleTerm(v, ns);
    var below, above := Scaled(lo, k), Scaled(hi, k);
    forall c | 0 <= c < |v| ensures below(c) <= f(c) <= above(c) {
      SampleCellBounds(v, ns, lo, hi, c);
    }
    ScaledBounds(lo, k, below, f, above, hi, |v|);
  }

  lemma ScaledBounds(lo: real, k: int -> real, below: int -> real, f: int -> real, above: int -> real, hi: real, n: nat)
    requires below == Scaled(lo, k) && above == Scaled(hi, k)
    requires forall c :: 0 <= c < n ==> below(c) <= f(c) <= above(c)
    ensures lo * Sum(k, n) <= Sum(f, n) <= hi * Sum(k, n)
  {
    SumLe(below, f, n);
    SumLe(f, above, n);
    assert Sum(below, n) == lo * Sum(k, n) by { SumScale(lo, k, below, n); }
    assert Sum(above, n) == hi * Sum(k, n) by { SumScale(hi, k, above, n); }
  }

  ghost function Count(ns: seq<int>): int -> real {
    c => Nth(ns, c) as real
  }

  lemma SampleCellBounds(v: seq<real>, ns: seq<int>, lo: real, hi: real, c: int)
    requires 0 <= c < |v| == |ns| && ns[c] >= 0 && lo <= v[c] <= hi
    ensures Scaled(lo, Count(ns))(c) <= SampleTerm(v, ns)(c) <= Scaled(hi, Count(ns))(c)
  {
    ScaleBounds(ns[c] as real, v[c], lo, hi);
  }

  lemma Squeeze(m: real, lo: real, hi: real, n: real)
    requires n > 0.0 && lo * n <= n * m <= hi * n
    ensures lo <= m <= hi
  {
    assert n * (m - lo) >= 0.0 && n * (hi - m) >= 0.0;
  }

  lemma ScaleBounds(k: real, v: real, lo: real, hi: real)
    requires k >= 0.0 && lo <= v <= hi
    ensures lo * k <= k * v <= hi * k
  {
    assert k * (v - lo) >= 0.0 && k * (hi - v) >= 0.0;
  }

  // ── the vector average ───────────────────────────────────────────

  /** FedAvg returns nil, a vector, or fails on a slice bound when some client's vector is
      shorter than the first one. */
  datatype AvgResult = NilResult | Averaged(weights: seq<real>) | IndexPanic

  ghost function Coordinate(ws: seq<seq<real>>, i: int): seq<real> {
    seq(|ws|, c requires 0 <= c < |ws| => At(ws[c], i))
  }

  ghost predicate SomeShorter(ws: seq<seq<real>>) {
    exists c :: 0 <= c < |ws| && |ws[c]| < |ws[0]|
  }

  ghost predicate SameLengths(ws: seq<seq<real>>) {
    forall c :: 0 <= c < |ws| ==> |ws[c]| == |ws[0]|
  }

  /** The meaning of FedAvg. */
  ghost function Average(ws: seq<seq<real>>, ns: seq<int>): AvgResult {
    if |ws| == 0 || |ws| != |ns| || Total(ns) == 0 then NilResult
    else if SomeShorter(ws) then IndexPanic
    else Averaged(AverageVector(ws, ns))
  }

  ghost function AverageVector(ws: seq<seq<real>>, ns: seq<int>): seq<real>
    requires |ws| > 0
  {
    seq(|ws[0]|, i => WeightedMean(Coordinate(ws, i), ns))
  }

  method SumSamples(ns: seq<int>) returns (total: int)
    ensures total == Total(ns)
  {
    total := 0;
    for c := 0 to |ns|
      invariant total == Total(ns[..c])
    {
      assert ns[..c + 1][..c] == ns[..c];
      total := total + ns[c];
    }
    assert ns[..|ns|] == ns;
  }

  /** The accumulating loops of FedAvg compute the weighted mean of every coordinate. */
  method FedAvg(clientWeights: seq<seq<real>>, numSamples: seq<int>) returns (r: AvgResult)
    ensures r == Average(clientWeights, numSamples)
  {
    if |clientWeights| == 0 { return NilResult; }
    if |clientWeights| != |numSamples| { return NilResult; }
    var totalSamples := SumSamples(numSamples);
    if totalSamples == 0 { return NilResult; }
    var nWeights := |clientWeights[0]|;
    var aggregated := new real[nWeights](_ => 0.0);
    for c := 0 to |clientWeights|
      invariant forall d :: 0 <= d < c ==> |clientWeights[d]| >= nWeights
      invariant forall i :: 0 <= i < nWeights ==>
                  aggregated[i] == Sum(MeanTerm(Coordinate(clientWeights, i), numSamples, totalSamples), c)
    {
      if |clientWeights[c]| < nWeights {
        return IndexPanic;
      }
      var ratio := numSamples[c] as real / totalSamples as real;
      AddClient(aggregated, clientWeights, numSamples, totalSamples, c, ratio);
    }
    r := Averaged(aggregated[..]);
    assert aggregated[..] == AverageVector(clientWeights, numSamples);
  }

  method AddClient(aggregated: array<real>, ws: seq<seq<real>>, ns: seq<int>, total: int, c: nat, ratio: real)
    requires c < |ws| == |ns| && total != 0 && |ws[c]| >= aggregated.Length
    requires ratio == ns[c] as real / total as real
    requires forall i :: 0 <= i < aggregated.Length ==>
               aggregated[i] == Sum(MeanTerm(Coordinate(ws, i), ns, total), c)
    modifies aggregated
    ensures forall i :: 0 <= i < aggregated.Length ==>
              aggregated[i] == Sum(MeanTerm(Coordinate(ws, i), ns, total), c + 1)
  {
    for i := 0 to aggregated.Length
      invariant forall k :: 0 <= k < i ==> aggregated[k] == Sum(MeanTerm(Coordinate(ws, k), ns, total), c + 1)
      invariant forall k :: i <= k < aggregated.Length ==>
                  aggregated[k] == Sum(MeanTerm(Coordinate(ws, k), ns, total), c)
    {
      SumStep(MeanTerm(Coordinate(ws, i), ns, total), c);
      aggregated[i] := aggregated[i] + ws[c][i] * ratio;
    }
  }

  // ── the average, told by the clients' own numbers ────────────────

  /** The total is zero exactly when the sample counts add up to nothing; a shorter later vector is out
      of range; otherwise the result has as many cells as the first vector, and the sum of the samples
      times a cell is the sum of the clients' cells, each weighed by its samples. */
  lemma AverageIs(ws: seq<seq<real>>, ns: seq<int>, n: int -> real)
    requires forall c :: 0 <= c < |ns| ==> n(c) == ns[c] as real
    ensures var r := Average(ws, ns);
            && (r.NilResult? <==> |ws| == 0 || |ws| != |ns| || Sum(n, |ns|) == 0.0)
            && (r.IndexPanic? <==> !r.NilResult? && exists c :: 0 <= c < |ws| && |ws[c]| < |ws[0]|)
            && (r.Averaged? ==> |r.weights| == |ws[0]|)
  {
    assert ns[..|ns|] == ns;
    TotalIsSum(ns, n, |ns|);
  }

  lemma AverageCellIs(ws: seq<seq<real>>, ns: seq<int>, i: nat, n: int -> real, f: int -> real)
    requires Average(ws, ns).Averaged? && i < |ws[0]|
    requires forall c :: 0 <= c < |ns| ==> n(c) == ns[c] as real
    requires forall c :: 0 <= c < |ws| && i < |ws[c]| ==> f(c) == ns[c] as real * ws[c][i]
    ensures i < |Average(ws, ns).weights| && Sum(n, |ns|) * Average(ws, ns).weights[i] == Sum(f, |ws|)
  {
    assert ns[..|ns|] == ns;
    TotalIsSum(ns, n, |ns|);
    MeanConserves(Coordinate(ws, i), ns);
    SumEq(f, SampleTerm(Coordinate(ws, i), ns), |ws|);
  }

  // ── order independence ───────────────────────────────────────────

  ghost function Permuted<T>(s: seq<T>, p: seq<nat>): seq<T>
    requires |p| == |s| && Permutation(p)
  {
    seq(|s|, i requires 0 <= i < |s| => s[p[i]])
  }

  lemma TotalPermuted(ns: seq<int>, p: seq<nat>)
    requires |p| == |ns| && Permutation(p)
    ensures Total(Permuted(ns, p)) == Total(ns)
  {
    var f, g := Count(ns), Count(Permuted(ns, p));
    assert ns[..|ns|] == ns && Permuted(ns, p)[..|ns|] == Permuted(ns, p);
    TotalIsSum(ns, f, |ns|);
    TotalIsSum(Permuted(ns, p), g, |ns|);
    SumPermuted(f, p, g);
  }

  lemma MeanPermuted(v: seq<real>, ns: seq<int>, p: seq<nat>)
    requires |p| == |v| == |ns| && Permutation(p)
    ensures WeightedMean(Permuted(v, p), Permuted(ns, p)) == WeightedMean(v, ns)
  {
    TotalPermuted(ns, p);
    var n := Total(ns);
    var f, g := MeanTerm(v, ns, n), MeanTerm(Permuted(v, p), Permuted(ns, p), n);
    assert forall i :: 0 <= i < |p| ==> g(i) == f(p[i]);
    SumPermuted(f, p, g);
  }

  /** With vectors of one length, listing the clients in any other order gives the same result. */
  lemma AveragePermuted(ws: seq<seq<real>>, ns: seq<int>, p: seq<nat>)
    requires |p| == |ws| == |ns| && Permutation(p)
    requires SameLengths(ws)
    ensures Average(Permuted(ws, p), Permuted(ns, p)) == Average(ws, ns)
  {
    if |ws| > 0 {
      var ws', ns' := Permuted(ws, p), Permuted(ns, p);
      TotalPermuted(ns, p);
      forall i | 0 <= i < |ws[0]| ensures WeightedMean(Coordinate(ws', i), ns') == WeightedMean(Coordinate(ws, i), ns) {
        assert Coordinate(ws', i) == Permuted(Coordinate(ws, i), p);
        MeanPermuted(Coordinate(ws, i), ns, p);
      }
      assert AverageVector(ws', ns') == AverageVector(ws, ns);
    }
  }

  ghost predicate OrderIndependent(ws: seq<seq<real>>, ns: seq<int>)
    requires |ws| == |ns|
  {
    forall p: seq<nat> :: |p| == |ws| && Permutation(p) ==>
                            Average(Permuted(ws, p), Permuted(ns, p)) == Average(ws, ns)
  }

  lemma {:induction false} LongestAndShortest(ws: seq<seq<real>>) returns (lo: nat, hi: nat)
    requires |ws| > 0
    ensures lo < |ws| && hi < |ws|
    ensures forall c :: 0 <= c < |ws| ==> |ws[lo]| <= |ws[c]| <= |ws[hi]|
  {
    lo, hi := 0, 0;
    for k := 1 to |ws|
      invariant lo < |ws| && hi < |ws|
      invariant forall c :: 0 <= c < k ==> |ws[lo]| <= |ws[c]| <= |ws[hi]|
    {
      if |ws[k]| < |ws[lo]| { lo := k; }
      if |ws[k]| > |ws[hi]| { hi := k; }
    }
  }

  /** For a positive total, the result is independent of the order in which Go's map iteration
      lists the clients exactly when all vectors have one length. */
  lemma OrderIndependentIff(ws: seq<seq<real>>, ns: seq<int>)
    requires |ws| == |ns| > 0 && Total(ns) != 0
    ensures OrderIndependent(ws, ns) <==> SameLengths(ws)
  {
    if SameLengths(ws) {
      forall p: seq<nat> | |p| == |ws| && Permutation(p)
        ensures Average(Permuted(ws, p), Permuted(ns, p)) == Average(ws, ns)
      {
        AveragePermuted(ws, ns, p);
      }
    } else {
      var lo, hi := LongestAndShortest(ws);
      var p, q := Swap(|ws|, 0, lo), Swap(|ws|, 0, hi);
      SwapPermutes(|ws|, 0, lo);
      SwapPermutes(|ws|, 0, hi);
      TotalPermuted(ns, p);
      TotalPermuted(ns, q);
      assert Permuted(ws, p)[0] == ws[lo] && Permuted(ws, q)[0] == ws[hi];
      assert !SomeShorter(Permuted(ws, p));
      assert |ws[lo]| < |ws[hi]|;
      assert Permuted(ws, q)[q[lo]] == ws[lo];
      assert SomeShorter(Permuted(ws, q));
      assert Average(Permuted(ws, p), Permuted(ns, p)) != Average(Permuted(ws, q), Permuted(ns, q));
    }
  }

  // ── averaging group averages ─────────────────────────────────────

  datatype Group = Group(weights: seq<seq<real>>, samples: seq<int>)

  ghost function AllWeights(gs: seq<Group>): seq<seq<real>> {
    if |gs| == 0 then [] else AllWeights(gs[..|gs| - 1]) + gs[|gs| - 1].weights
  }

  ghost function AllSamples(gs: seq<Group>): seq<int> {
    if |gs| == 0 then [] else AllSamples(gs[..|gs| - 1]) + gs[|gs| - 1].samples
  }

  ghost function GroupMeans(gs: seq<Group>, i: int): seq<real> {
    seq(|gs|, g requires 0 <= g < |gs| => WeightedMean(Coordinate(gs[g].weights, i), gs[g].samples))
  }

  ghost function GroupTotals(gs: seq<Group>): seq<int> {
    seq(|gs|, g requires 0 <= g < |gs| => Total(gs[g].samples))
  }

  ghost predicate GoodGroups(gs: seq<Group>, dim: nat) {
    forall g :: 0 <= g < |gs| ==>
      && |gs[g].weights| == |gs[g].samples| > 0
      && Total(gs[g].samples) != 0
      && forall c :: 0 <= c < |gs[g].weights| ==> |gs[g].weights[c]| == dim
  }

  lemma {:induction false} TotalAppend(a: seq<int>, b: seq<int>)
    ensures Total(a + b) == Total(a) + Total(b)
    decreases |b|
  {
    if |b| == 0 {
      assert a + b == a;
    } else {
      assert (a + b)[..|a + b| - 1] == a + b[..|b| - 1];
      TotalAppend(a, b[..|b| - 1]);
    }
  }

  lemma SampleSumAppend(v: seq<real>, ns: seq<int>, v': seq<real>, ns': seq<int>)
    requires |v| == |ns| && |v'| == |ns'|
    ensures SampleSum(v + v', ns + ns') == SampleSum(v, ns) + SampleSum(v', ns')
  {
    var f := SampleTerm(v + v', ns + ns');
    SumSplit(f, |v|, |v'|);
    SumEq(f, SampleTerm(v, ns), |v|);
    SumEq(Shift(f, |v|), SampleTerm(v', ns'), |v'|);
  }

  /** The sample-weighted sum over all clients, group by group. */
  lemma {:induction false} GroupsConserve(gs: seq<Group>, dim: nat, i: int)
    requires GoodGroups(gs, dim)
    ensures |AllWeights(gs)| == |AllSamples(gs)|
    ensures Total(AllSamples(gs)) == Total(GroupTotals(gs))
    ensures SampleSum(Coordinate(AllWeights(gs), i), AllSamples(gs)) == SampleSum(GroupMeans(gs, i), GroupTotals(gs))
    decreases |gs|
  {
    if |gs| > 0 {
      var k := |gs| - 1;
      var init, last := gs[..k], gs[k];
      var mean, n := WeightedMean(Coordinate(last.weights, i), last.samples), Total(last.samples);
      GroupsConserve(init, dim, i);
      TotalAppend(AllSamples(init), last.samples);
      assert GroupTotals(gs) == GroupTotals(init) + [n];
      TotalAppend(GroupTotals(init), [n]);
      assert Total([n]) == n by { assert [n][..0] == []; }
      assert SampleSum(Coordinate(AllWeights(gs), i), AllSamples(gs))
          == SampleSum(Coordinate(AllWeights(init), i), AllSamples(init))
             + SampleSum(Coordinate(last.weights, i), last.samples)
      by {
        assert Coordinate(AllWeights(gs), i) == Coordinate(AllWeights(init), i) + Coordinate(last.weights, i);
        SampleSumAppend(Coordinate(AllWeights(init), i), AllSamples(init), Coordinate(last.weights, i), last.samples);
      }
      assert SampleSum(GroupMeans(gs, i), GroupTotals(gs))
          == SampleSum(GroupMeans(init, i), GroupTotals(init)) + SampleSum([mean], [n])
      by {
        assert GroupMeans(gs, i) == GroupMeans(init, i) + [mean];
        SampleSumAppend(GroupMeans(init, i), GroupTotals(init), [mean], [n]);
      }
      LastGroupConserves(last, i);
    }
  }

  lemma LastGroupConserves(last: Group, i: int)
    requires |last.weights| == |last.samples| && Total(last.samples) != 0
    ensures SampleSum([WeightedMean(Coordinate(last.weights, i), last.samples)], [Total(last.samples)])
         == SampleSum(Coordinate(last.weights, i), last.samples)
  {
    MeanConserves(Coordinate(last.weights, i), last.samples);
    SampleSumSingle(WeightedMean(Coordinate(last.weights, i), last.samples), Total(last.samples));
  }

  lemma SampleSumSingle(x: real, n: int)
    ensures SampleSum([x], [n]) == n as real * x
  {
    var f := SampleTerm([x], [n]);
    SumStep(f, 0);
  }

  ghost function GroupAverages(gs: seq<Group>): seq<seq<real>>
    requires forall g :: 0 <= g < |gs| ==> |gs[g].weights| > 0
  {
    seq(|gs|, g requires 0 <= g < |gs| => AverageVector(gs[g].weights, gs[g].samples))
  }

  lemma {:induction false} AllWeightsSameLength(gs: seq<Group>, dim: nat)
    requires GoodGroups(gs, dim)
    ensures forall c :: 0 <= c < |AllWeights(gs)| ==> |AllWeights(gs)[c]| == dim
    ensures |gs| > 0 ==> |AllWeights(gs)| > 0
    decreases |gs|
  {
    if |gs| > 0 {
      AllWeightsSameLength(gs[..|gs| - 1], dim);
    }
  }

  /** Averaging the group averages, weighted by the group totals, is averaging all clients at once. */
  lemma HierarchicalAverage(gs: seq<Group>, dim: nat)
    requires GoodGroups(gs, dim) && |gs| > 0 && Total(AllSamples(gs)) != 0
    ensures Average(GroupAverages(gs), GroupTotals(gs)) == Average(AllWeights(gs), AllSamples(gs))
  {
    TotalOfGroups(gs, dim);
    AllWeightsSameLength(gs, dim);
    HierarchicalVector(gs, dim);
    NoShorterGroupAverage(gs, dim);
    EqualLengthsAverage(GroupAverages(gs), GroupTotals(gs), dim);
    EqualLengthsAverage(AllWeights(gs), AllSamples(gs), dim);
  }

  lemma EqualLengthsAverage(ws: seq<seq<real>>, ns: seq<int>, dim: nat)
    requires |ws| == |ns| > 0 && Total(ns) != 0 && forall c :: 0 <= c < |ws| ==> |ws[c]| == dim
    ensures Average(ws, ns) == Averaged(AverageVector(ws, ns))
  {
  }

  lemma TotalOfGroups(gs: seq<Group>, dim: nat)
    requires GoodGroups(gs, dim)
    ensures |AllWeights(gs)| == |AllSamples(gs)|
    ensures Total(AllSamples(gs)) == Total(GroupTotals(gs))
  {
    GroupsConserve(gs, dim, 0);
  }

  lemma NoShorterGroupAverage(gs: seq<Group>, dim: nat)
    requires GoodGroups(gs, dim)
    ensures forall g :: 0 <= g < |gs| ==> |GroupAverages(gs)[g]| == dim
  {
    forall g | 0 <= g < |gs| ensures |GroupAverages(gs)[g]| == dim {
      assert |gs[g].weights[0]| == dim;
    }
  }

  lemma HierarchicalVector(gs: seq<Group>, dim: nat)
    requires GoodGroups(gs, dim) && |gs| > 0 && Total(AllSamples(gs)) != 0
    requires |AllWeights(gs)| > 0 && |AllWeights(gs)[0]| == dim
    ensures AverageVector(GroupAverages(gs), GroupTotals(gs)) == AverageVector(AllWeights(gs), AllSamples(gs))
  {
    var l := AverageVector(GroupAverages(gs), GroupTotals(gs));
    var r := AverageVector(AllWeights(gs), AllSamples(gs));
    assert |gs[0].weights[0]| == dim;
    forall i | 0 <= i < dim ensures l[i] == r[i] {
      CoordinateOfAverages(gs, dim, i);
      HierarchicalMean(gs, dim, i);
    }
  }

  lemma CoordinateOfAverages(gs: seq<Group>, dim: nat, i: int)
    requires GoodGroups(gs, dim) && 0 <= i < dim
    ensures Coordinate(GroupAverages(gs), i) == GroupMeans(gs, i)
  {
    var l, r := Coordinate(GroupAverages(gs), i), GroupMeans(gs, i);
    forall g | 0 <= g < |gs| ensures l[g] == r[g] {
      assert GroupAverages(gs)[g] == AverageVector(gs[g].weights, gs[g].samples);
      assert |gs[g].weights[0]| == dim;
    }
  }

  lemma HierarchicalMean(gs: seq<Group>, dim: nat, i: int)
    requires GoodGroups(gs, dim) && Total(AllSamples(gs)) != 0
    ensures WeightedMean(GroupMeans(gs, i), GroupTotals(gs))
            == WeightedMean(Coordinate(AllWeights(gs), i), AllSamples(gs))
  {
    GroupsConserve(gs, dim, i);
    MeanConserves(GroupMeans(gs, i), GroupTotals(gs));
    MeanConserves(Coordinate(AllWeights(gs), i), AllSamples(gs));
  }
}
