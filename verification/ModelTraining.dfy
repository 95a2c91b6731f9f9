/** Local training as a sensor's background goroutine runs it (smart-home/actors/sensor.go): SGD over
    the sensor's own samples, or the stub used when it has none. */
module ModelTraining {
  import opened Rounding
  import opened Sums
  import opened Mlp
  import opened HiddenSymmetry
  import opened Messages

  datatype Sample = Sample(features: seq<real>, target: seq<real>)

  ghost predicate Fits(data: seq<Sample>, net: Net) {
    forall k :: 0 <= k < |data| ==> |data[k].features| >= net.inDim && |data[k].target| >= net.outDim
  }

  /** One SGD step for each of the first n samples, in order. */
  ghost function TrainSamples(net: Net, data: seq<Sample>, lr: real, n: nat): Net
    requires n <= |data|
  {
    if n == 0 then net else TrainStep(TrainSamples(net, data, lr, n - 1), data[n - 1].features, data[n - 1].target, lr)
  }

  ghost function TrainEpochs(net: Net, data: seq<Sample>, lr: real, epochs: int): Net
    decreases if epochs < 0 then 0 else epochs
  {
    if epochs <= 0 then net else TrainSamples(TrainEpochs(net, data, lr, epochs - 1), data, lr, |data|)
  }

  /** What real training sends back. */
  ghost function TrainedWeights(net: Net, data: seq<Sample>, s: StartTraining): Weights
    requires |s.weights| >= |net.w1| + |net.b1| + |net.w2|
  {
    Flatten(TrainedNet(net, data, s))
  }

  ghost function TrainedNet(net: Net, data: seq<Sample>, s: StartTraining): Net
    requires |s.weights| >= |net.w1| + |net.b1| + |net.w2|
  {
    TrainEpochs(Unflatten(net, s.weights), data, s.learningRate, s.epochs)
  }

  // ── training as a chain of steps ─────────────────────────────────

  /** Each network comes from the one before it by one training step; the samples are taken in turn. */
  ghost predicate StepsFrom(nets: seq<Net>, start: Net, data: seq<Sample>, lr: real) {
    && nets != [] && nets[0] == start && data != []
    && forall k: nat :: k + 1 < |nets| ==>
         nets[k + 1] == TrainStep(nets[k], data[k % |data|].features, data[k % |data|].target, lr)
  }

  /** The whole training that message s asks for: one step for each sample in each epoch, starting from
      the weights that were sent. */
  ghost predicate TrainingChain(nets: seq<Net>, net: Net, data: seq<Sample>, s: StartTraining)
    requires |s.weights| >= |net.w1| + |net.b1| + |net.w2|
  {
    && |nets| == (if s.epochs < 0 then 0 else s.epochs) * |data| + 1
    && StepsFrom(nets, Unflatten(net, s.weights), data, s.learningRate)
  }

  lemma {:induction false} ChainAt(nets: seq<Net>, start: Net, data: seq<Sample>, lr: real, e: nat, k: nat)
    requires StepsFrom(nets, start, data, lr) && k <= |data| && e * |data| + k < |nets|
    ensures nets[e * |data| + k] == TrainSamples(TrainEpochs(start, data, lr, e), data, lr, k)
    decreases e, k
  {
    if k > 0 {
      var p := e * |data| + (k - 1);
      ChainAt(nets, start, data, lr, e, k - 1);
      DivModUnique(p, e, k - 1, |data|);
      ChainStep(nets, start, data, lr, p, k - 1);
    } else if e > 0 {
      EpochEnds(e, |data|);
      ChainAt(nets, start, data, lr, e - 1, |data|);
    }
  }

  lemma ChainStep(nets: seq<Net>, start: Net, data: seq<Sample>, lr: real, p: nat, k: nat)
    requires StepsFrom(nets, start, data, lr) && p + 1 < |nets| && k < |data| && p % |data| == k
    ensures nets[p + 1] == TrainStep(nets[p], data[k].features, data[k].target, lr)
  {
  }

  lemma EpochEnds(e: nat, n: nat)
    requires e > 0
    ensures e * n == (e - 1) * n + n && 0 <= (e - 1) * n
  {
  }

  /** Whatever chain of training steps message s describes, real training ends where it ends. */
  lemma TrainedByChain(net: Net, data: seq<Sample>, s: StartTraining, nets: seq<Net>)
    requires |s.weights| >= |net.w1| + |net.b1| + |net.w2| && TrainingChain(nets, net, data, s)
    ensures TrainedNet(net, data, s) == nets[|nets| - 1]
    ensures TrainedWeights(net, data, s) == Flatten(nets[|nets| - 1])
  {
    ChainAt(nets, Unflatten(net, s.weights), data, s.learningRate, if s.epochs < 0 then 0 else s.epochs, 0);
  }

  /** A vector with one cell per parameter overwrites whatever an earlier round left in the network. */
  lemma TrainedIgnoresOldContents(net: Net, other: Net, data: seq<Sample>, s: StartTraining)
    requires net.WellFormed() && other.WellFormed() && SameShape(net, other) && |s.weights| == |Flatten(net)|
    ensures TrainedWeights(net, data, s) == TrainedWeights(other, data, s)
  {
    assert Unflatten(net, s.weights) == Unflatten(other, s.weights);
  }

  // ── the loss that a sensor reports ───────────────────────────────

  ghost function SampleError(net: Net, data: seq<Sample>): int -> real {
    k => if 0 <= k < |data| then Sum(SquaredError(Output(net, data[k].features), data[k].target), net.outDim) else 0.0
  }

  /** The squared error over all samples, divided by three outputs per sample whatever the network
      has, and rounded. */
  ghost function ReportedLoss(net: Net, data: seq<Sample>): real
    requires |data| > 0
  {
    Round6(Sum(SampleError(net, data), |data|) / (|data| * 3) as real)
  }

  method ComputeLoss(mlp: MLP, data: seq<Sample>) returns (loss: real)
    requires mlp.Valid() && Fits(data, mlp.Value()) && |data| > 0
    ensures loss == ReportedLoss(mlp.Value(), data)
  {
    var total := 0.0;
    for k := 0 to |data|
      invariant total == Sum(SampleError(mlp.Value(), data), k)
    {
      var pred := mlp.Predict(data[k].features);
      var sum := SumSquaredError(pred[..], data[k].target, mlp.outputDim);
      SumStep(SampleError(mlp.Value(), data), k);
      total := total + sum;
    }
    loss := Round6(total / (|data| * 3) as real);
  }

  /** f(k) is the loss of sample k. */
  ghost predicate LosesOn(f: int -> real, net: Net, data: seq<Sample>)
    requires net.outDim > 0
  {
    forall k :: 0 <= k < |data| ==> f(k) == Loss(net, data[k].features, data[k].target)
  }

  /** The reported loss is the mean loss of the samples, if the network has three outputs; otherwise it
      is off by the factor outputs / 3. */
  lemma ReportsMeanLoss(net: Net, data: seq<Sample>, f: int -> real)
    requires net.outDim > 0 && |data| > 0 && LosesOn(f, net, data)
    ensures ReportedLoss(net, data) == Round6(net.outDim as real * Sum(f, |data|) / (|data| * 3) as real)
  {
    forall k | 0 <= k < |data| ensures SampleError(net, data)(k) == net.outDim as real * f(k) {
      SumOverCount(Sum(SquaredError(Output(net, data[k].features), data[k].target), net.outDim), net.outDim as real);
    }
    SumScale(net.outDim as real, f, SampleError(net, data), |data|);
    assert Sum(SampleError(net, data), |data|) == net.outDim as real * Sum(f, |data|);
  }

  lemma SumOverCount(sum: real, n: real)
    requires n > 0.0
    ensures n * (sum / n) == sum
  {
  }

  // ── real training ────────────────────────────────────────────────

  /** realTraining: the loaded network is trained in place, epoch by epoch and sample by sample. */
  method RealTraining(mlp: MLP, data: seq<Sample>, s: StartTraining) returns (c: Completion, ghost nets: seq<Net>)
    requires mlp.Valid() && Fits(data, mlp.Value()) && |data| > 0
    requires |s.weights| >= mlp.W1.Length + mlp.B1.Length + mlp.W2.Length
    modifies mlp.W1, mlp.B1, mlp.W2, mlp.B2
    ensures c.weights == TrainedWeights(old(mlp.Value()), data, s)
    ensures c.loss == ReportedLoss(TrainedNet(old(mlp.Value()), data, s), data)
    ensures TrainingChain(nets, old(mlp.Value()), data, s) && c.weights == Flatten(nets[|nets| - 1])
    ensures c.loss == ReportedLoss(nets[|nets| - 1], data) && mlp.Value() == nets[|nets| - 1]
    ensures c.numSamples == |data|
  {
    mlp.SetWeights(s.weights);
    ghost var start := mlp.Value();
    nets := [start];
    var epoch := 0;
    while epoch < s.epochs
      invariant epoch >= 0 && (epoch <= s.epochs || epoch == 0)
      invariant |nets| == epoch * |data| + 1 && StepsFrom(nets, start, data, s.learningRate)
      invariant mlp.Value() == nets[|nets| - 1]
    {
      for k := 0 to |data|
        invariant |nets| == epoch * |data| + k + 1 && StepsFrom(nets, start, data, s.learningRate)
        invariant mlp.Value() == nets[|nets| - 1]
      {
        var _ := mlp.Train(data[k].features, data[k].target, s.learningRate);
        DivModUnique(epoch * |data| + k, epoch, k, |data|);
        nets := nets + [mlp.Value()];
      }
      EpochEnds(epoch + 1, |data|);
      epoch := epoch + 1;
    }
    TrainedByChain(old(mlp.Value()), data, s, nets);
    var loss := ComputeLoss(mlp, data);
    var trained := mlp.Weights();
    c := Completion(trained[..], loss, |data|);
  }

  // ── the stub ─────────────────────────────────────────────────────

  /** The change that stub training makes to weight i. */
  function StubShift(i: int): real { 0.01 * (i % 3 - 1) as real }

  function StubWeights(w: Weights): Weights {
    seq(|w|, i => At(w, i) + StubShift(i))
  }

  /** `nanos` is the clock reading that the source takes its sample count from. */
  method StubTraining(s: StartTraining, nanos: nat) returns (c: Completion)
    ensures c.weights == StubWeights(s.weights) && |c.weights| == |s.weights|
    ensures forall i :: 0 <= i < |s.weights| ==> c.weights[i] == s.weights[i] + 0.01 * (i % 3 - 1) as real
    ensures 80 <= c.numSamples == 80 + nanos % 40 < 120
    ensures c.loss == 0.5 - s.roundId as real * 0.02
  {
    var trained := new real[|s.weights|](i requires 0 <= i < |s.weights| => s.weights[i]);
    for i := 0 to trained.Length
      invariant forall k :: 0 <= k < i ==> trained[k] == StubWeights(s.weights)[k]
      invariant forall k :: i <= k < trained.Length ==> trained[k] == s.weights[k]
    {
      trained[i] := trained[i] + 0.01 * (i % 3 - 1) as real;
    }
    c := Completion(trained[..], 0.5 - s.roundId as real * 0.02, 80 + nanos % 40);
  }

  // ── training keeps the shape of the network ──────────────────────

  lemma {:induction false} SamplesKeepShape(net: Net, data: seq<Sample>, lr: real, n: nat)
    requires net.WellFormed() && n <= |data|
    ensures var r := TrainSamples(net, data, lr, n); r.WellFormed() && SameShape(r, net)
  {
    if n > 0 {
      SamplesKeepShape(net, data, lr, n - 1);
      TrainStepShape(TrainSamples(net, data, lr, n - 1), data[n - 1].features, data[n - 1].target, lr);
    }
  }

  lemma {:induction false} EpochsKeepShape(net: Net, data: seq<Sample>, lr: real, epochs: int)
    requires net.WellFormed()
    ensures var r := TrainEpochs(net, data, lr, epochs); r.WellFormed() && SameShape(r, net)
    decreases if epochs < 0 then 0 else epochs
  {
    if epochs > 0 {
      EpochsKeepShape(net, data, lr, epochs - 1);
      SamplesKeepShape(TrainEpochs(net, data, lr, epochs - 1), data, lr, |data|);
    }
  }

  /** Real training sends back one cell per parameter, however many it was sent. */
  lemma TrainedLength(shape: Net, data: seq<Sample>, s: StartTraining)
    requires shape.WellFormed() && |s.weights| >= |shape.w1| + |shape.b1| + |shape.w2|
    ensures |TrainedWeights(shape, data, s)| == |Flatten(shape)|
  {
    EpochsKeepShape(Unflatten(shape, s.weights), data, s.learningRate, s.epochs);
  }

  // ── identical hidden units survive local training ────────────────

  lemma {:induction false} SamplesKeepAlike(net: Net, data: seq<Sample>, lr: real, n: nat)
    requires net.WellFormed() && UnitsAlike(net) && n <= |data|
    ensures var r := TrainSamples(net, data, lr, n); r.WellFormed() && SameShape(r, net) && UnitsAlike(r)
  {
    if n > 0 {
      SamplesKeepAlike(net, data, lr, n - 1);
      var before := TrainSamples(net, data, lr, n - 1);
      TrainKeepsAlike(before, data[n - 1].features, data[n - 1].target, lr);
      TrainStepShape(before, data[n - 1].features, data[n - 1].target, lr);
    }
  }

  lemma {:induction false} EpochsKeepAlike(net: Net, data: seq<Sample>, lr: real, epochs: int)
    requires net.WellFormed() && UnitsAlike(net)
    ensures var r := TrainEpochs(net, data, lr, epochs); r.WellFormed() && SameShape(r, net) && UnitsAlike(r)
    decreases if epochs < 0 then 0 else epochs
  {
    if epochs > 0 {
      EpochsKeepAlike(net, data, lr, epochs - 1);
      SamplesKeepAlike(TrainEpochs(net, data, lr, epochs - 1), data, lr, |data|);
    }
  }

  lemma TrainingKeepsAlike(shape: Net, data: seq<Sample>, s: StartTraining)
    requires VectorAlike(shape, s.weights)
    ensures VectorAlike(shape, TrainedWeights(shape, data, s))
  {
    var start := Unflatten(shape, s.weights);
    EpochsKeepAlike(start, data, s.learningRate, s.epochs);
    var r := TrainEpochs(start, data, s.learningRate, s.epochs);
    UnflattenFlatten(r, shape);
  }
}
