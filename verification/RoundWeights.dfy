/** What the global weights are, in every run: an induction principle over aggregations, and three
    uses of it.  A property of weights that local training and averaging carry along holds of the
    global model after any number of aggregations, whatever was lost, crashed or abandoned. */
module RoundWeights {
  import opened Mlp
  import opened HiddenSymmetry
  import opened ModelTraining
  import opened Messages
  import opened Coordinator
  import opened UpdateMeans
  import opened RoundProtocol
  import opened RoundSafety

  /** What is true of the global weights after k aggregations. */
  type WeightProperty = (nat, Weights) -> bool

  /** What is true of a completion trained from global weights of k aggregations. */
  type TrainedProperty = (nat, Completion) -> bool

  ghost predicate TrainingCarries(trained: TrainingRelation, good: WeightProperty, goodTrained: TrainedProperty,
                                  k: nat, id: SensorId, s: StartTraining, c: Completion)
  {
    good(k, s.weights) && trained(id, s, c) ==> goodTrained(k, c)
  }

  ghost predicate AllTrained(goodTrained: TrainedProperty, k: nat, m: Updates) {
    forall id :: id in m ==> goodTrained(k, CompletionOf(m[id]))
  }

  ghost predicate AveragingCarries(good: WeightProperty, goodTrained: TrainedProperty, n: nat, k: nat, m: Updates) {
    m.Keys != {} && AllTrained(goodTrained, k, m) && SampleTotal(m) != 0.0 ==> good(k + 1, MapAverage(m, n))
  }

  /** Training and averaging carry the property along, and trained vectors have length n. */
  ghost predicate Inductive(trained: TrainingRelation, good: WeightProperty, goodTrained: TrainedProperty, n: nat) {
    && (forall k, c :: goodTrained(k, c) ==> |c.weights| == n)
    && (forall k, id, s, c :: TrainingCarries(trained, good, goodTrained, k, id, s, c))
    && (forall k, m :: AveragingCarries(good, goodTrained, n, k, m))
  }

  /** Where a run starts: global weights with the property, or none yet and no sensor. */
  ghost predicate StartsGood(w: World, good: WeightProperty) {
    if w.coord.globalWeights.Some? then good(0, w.coord.globalWeights.value)
    else w.coord.sensors.Keys == {} && good(0, InitialWeights(w.coord.numWeights))
  }

  ghost predicate WeightsOk(w: World, good: WeightProperty, n: nat) {
    && !w.crash.IndexCrash? && (n >= DEVICE_CELLS ==> w.crash.NoCrash?)
    && (w.coord.globalWeights.Some? ==> good(|w.aggregations|, w.coord.globalWeights.value))
    && (w.coord.globalWeights.None? ==>
          w.coord.sensors.Keys == {} && w.aggregations == [] && good(0, InitialWeights(w.coord.numWeights)))
    && (w.targets != {} && !AggregatedPending(w) && w.coord.pendingRound in w.broadcasts ==>
          good(|w.aggregations|, w.broadcasts[w.coord.pendingRound].start.weights))
  }

  /** All updates collected for the pending round were trained from weights with the property. */
  lemma CollectedAreTrained(trained: TrainingRelation, w: World, k: nat, good: WeightProperty,
                            goodTrained: TrainedProperty, n: nat)
    requires Inductive(trained, good, goodTrained, n)
    requires Inv(trained, w) && WeightsOk(w, good, n)
    requires k < |w.inbox| && w.inbox[k].update.roundId == w.coord.pendingRound
    ensures AllTrained(goodTrained, |w.aggregations|, Collect(w.coord, w.inbox[k].update).pendingUpdates)
  {
    var m := Collect(w.coord, w.inbox[k].update).pendingUpdates;
    var s := w.broadcasts[w.coord.pendingRound].start;
    forall id | id in m ensures goodTrained(|w.aggregations|, CompletionOf(m[id])) {
      assert GoodEnvelope(trained, w.inbox[k], w.broadcasts);
      if id in w.coord.pendingUpdates { assert PendingUpdateOk(trained, w, id); }
      assert TrainingCarries(trained, good, goodTrained, |w.aggregations|, m[id].sensorId, s, CompletionOf(m[id]));
    }
  }

  lemma AcceptWeights(trained: TrainingRelation, w: World, k: nat, order: seq<SensorId>, device: bool,
                      good: WeightProperty, goodTrained: TrainedProperty, n: nat)
    requires Inductive(trained, good, goodTrained, n)
    requires Inv(trained, w) && WeightsOk(w, good, n)
    requires k < |w.inbox| && Lists(order, Collect(w.coord, w.inbox[k].update).pendingUpdates)
    ensures WeightsOk(AcceptWorld(w, k, order, device), good, n)
  {
    if w.inbox[k].update.roundId == w.coord.pendingRound {
      CollectedAreTrained(trained, w, k, good, goodTrained, n);
      AnswerWeights(trained, w, k, order, device, good, goodTrained, n);
    } else {
      UnfinishedWeights(w, k, order, device, good, n);
    }
  }

  lemma AnswerWeights(trained: TrainingRelation, w: World, k: nat, order: seq<SensorId>, device: bool,
                      good: WeightProperty, goodTrained: TrainedProperty, n: nat)
    requires Inductive(trained, good, goodTrained, n) && WeightsOk(w, good, n)
    requires k < |w.inbox| && w.coord.pendingRound == w.coord.round
    requires var c := Collect(w.coord, w.inbox[k].update);
             Lists(order, c.pendingUpdates) && AllTrained(goodTrained, |w.aggregations|, c.pendingUpdates)
    ensures WeightsOk(AcceptWorld(w, k, order, device), good, n)
  {
    var u := w.inbox[k].update;
    var c := Collect(w.coord, u);
    assert u.sensorId in c.pendingUpdates.Keys;
    FinaliseWeights(|w.aggregations|, c, order, good, goodTrained, n, trained);
    if UpdateOutcome(w.coord, u, order).Finished? {
      FinishedWeights(w, k, order, device, good, n);
    } else {
      UnfinishedWeights(w, k, order, device, good, n);
    }
  }

  lemma FinishedWeights(w: World, k: nat, order: seq<SensorId>, device: bool, good: WeightProperty, n: nat)
    requires k < |w.inbox| && w.coord.pendingRound == w.coord.round
    requires var o := UpdateOutcome(w.coord, w.inbox[k].update, order);
             o.Finished? && good(|w.aggregations| + 1, o.update.weights) && |o.update.weights| == n
    ensures WeightsOk(AcceptWorld(w, k, order, device), good, n)
  {
    assert AggregatedPending(AcceptWorld(w, k, order, device));
  }

  lemma UnfinishedWeights(w: World, k: nat, order: seq<SensorId>, device: bool, good: WeightProperty, n: nat)
    requires WeightsOk(w, good, n) && k < |w.inbox|
    requires var o := UpdateOutcome(w.coord, w.inbox[k].update, order); !o.Finished? && !o.Panicked?
    ensures WeightsOk(AcceptWorld(w, k, order, device), good, n)
  {
    var w' := AcceptWorld(w, k, order, device);
    assert w'.aggregations == w.aggregations && w'.coord.globalWeights == w.coord.globalWeights;
    assert AggregatedPending(w') == AggregatedPending(w);
  }

  lemma FinaliseWeights(count: nat, c: CoordState, order: seq<SensorId>, good: WeightProperty,
                        goodTrained: TrainedProperty, n: nat, trained: TrainingRelation)
    requires Inductive(trained, good, goodTrained, n) && Lists(order, c.pendingUpdates)
    requires c.globalWeights.Some? ==> good(count, c.globalWeights.value)
    requires c.pendingUpdates.Keys != {} && AllTrained(goodTrained, count, c.pendingUpdates)
    ensures var o := FinaliseOutcome(c, order);
            !o.Panicked? && (o.Finished? ==> good(count + 1, o.update.weights) && |o.update.weights| == n)
  {
    forall id | id in c.pendingUpdates ensures |c.pendingUpdates[id].weights| == n {
      assert goodTrained(count, CompletionOf(c.pendingUpdates[id]));
    }
    assert AveragingCarries(good, goodTrained, n, count, c.pendingUpdates);
    if SampleTotal(c.pendingUpdates) != 0.0 && c.globalWeights.Some? && |c.globalWeights.value| > 0 {
      ListedAverage(order, c.pendingUpdates, n);
    }
  }

  lemma StepWeights(trained: TrainingRelation, w: World, e: Event, good: WeightProperty,
                    goodTrained: TrainedProperty, n: nat)
    requires Inductive(trained, good, goodTrained, n)
    requires Inv(trained, w) && WeightsOk(w, good, n) && Enabled(trained, w, e)
    ensures WeightsOk(Apply(trained, w, e), good, n)
  {
    if e.Accept? {
      AcceptWeights(trained, w, e.k, e.order, e.deviceFound, good, goodTrained, n);
    } else {
      OtherWeights(trained, w, e, good, n);
    }
  }

  lemma OtherWeights(trained: TrainingRelation, w: World, e: Event, good: WeightProperty, n: nat)
    requires Inv(trained, w) && WeightsOk(w, good, n) && Enabled(trained, w, e) && !e.Accept?
    ensures WeightsOk(Apply(trained, w, e), good, n)
  {
    if e.StartRound? { StartWeights(trained, w, good, n); }
  }

  lemma StartWeights(trained: TrainingRelation, w: World, good: WeightProperty, n: nat)
    requires Inv(trained, w) && WeightsOk(w, good, n)
    ensures WeightsOk(StartRoundWorld(w), good, n)
  {
  }

  lemma {:induction false} RunWeights(trained: TrainingRelation, ws: seq<World>, es: seq<Event>, i: nat,
                                      good: WeightProperty, goodTrained: TrainedProperty, n: nat)
    requires Inductive(trained, good, goodTrained, n)
    requires Run(trained, ws, es) && StartsGood(ws[0], good) && i < |ws|
    ensures WeightsOk(ws[i], good, n)
  {
    if i > 0 {
      RunWeights(trained, ws, es, i - 1, good, goodTrained, n);
      RunInv(trained, ws, es, i - 1);
      StepWeights(trained, ws[i - 1], es[i - 1], good, goodTrained, n);
    }
  }

  // ── the length never changes, so no index is ever out of range ───

  ghost predicate KeepsLength(trained: TrainingRelation, n: nat) {
    forall id, s, c :: trained(id, s, c) && |s.weights| == n ==> |c.weights| == n
  }

  /** The length of the global vector, present or still to be created. */
  ghost function StartLength(w: World): nat {
    if w.coord.globalWeights.Some? then |w.coord.globalWeights.value| else w.coord.numWeights
  }

  /** In every run the global vector keeps its length and no aggregation fails on a slice bound. */
  lemma GlobalLengthKept(trained: TrainingRelation, ws: seq<World>, es: seq<Event>, i: nat)
    requires Run(trained, ws, es) && i < |ws| && KeepsLength(trained, StartLength(ws[0]))
    requires ws[0].coord.globalWeights.None? ==> ws[0].coord.sensors.Keys == {}
    ensures !ws[i].crash.IndexCrash?
    ensures ws[i].coord.globalWeights.Some? ==> |ws[i].coord.globalWeights.value| == StartLength(ws[0])
  {
    var n := StartLength(ws[0]);
    var good: WeightProperty := (k: nat, v: Weights) => |v| == n;
    var goodTrained: TrainedProperty := (k: nat, c: Completion) => |c.weights| == n;
    RunWeights(trained, ws, es, i, good, goodTrained, n);
  }

  // ── stub sensors: the exact global weights ───────────────────────

  ghost predicate StubOnly(trained: TrainingRelation) {
    forall id, s, c :: trained(id, s, c) ==> c.weights == StubWeights(s.weights) && 80 <= c.numSamples < 120
  }

  /** The global weights after k aggregations of stub updates. */
  ghost function StubAfter(n: nat, k: nat): Weights {
    seq(n, i => 0.01 + Steps(k, StubShift(i)))
  }

  ghost function Steps(k: nat, d: real): real { k as real * d }

  lemma StubStep(n: nat, k: nat)
    ensures StubWeights(StubAfter(n, k)) == StubAfter(n, k + 1)
  {
    forall i | 0 <= i < n ensures StubWeights(StubAfter(n, k))[i] == StubAfter(n, k + 1)[i] {
      OneMore(k, StubShift(i));
    }
  }

  lemma OneMore(k: nat, d: real)
    ensures Steps(k + 1, d) == Steps(k, d) + d
  {
  }

  /** Averaging equal vectors gives that vector, whatever the sample counts. */
  lemma AverageOfEqual(m: Updates, v: Weights)
    requires m.Keys != {} && forall id :: id in m ==> m[id].weights == v && m[id].numSamples > 0
    ensures MapAverage(m, |v|) == v
  {
    SampleTotalSign(m);
    forall i | 0 <= i < |v| ensures MapAverage(m, |v|)[i] == v[i] {
      MapMeanInHull(m, WeightAt(i), v[i], v[i]);
    }
  }

  /** With stub sensors only, after k aggregations in any run weight i is 0.01 + k * 0.01 * (i mod 3 - 1). */
  lemma StubClosedForm(trained: TrainingRelation, ws: seq<World>, es: seq<Event>, i: nat)
    requires Run(trained, ws, es) && i < |ws| && StubOnly(trained)
    requires ws[0].coord.globalWeights.None? && ws[0].coord.sensors.Keys == {}
    ensures var g := ws[i].coord.globalWeights;
            g.Some? ==> |g.value| == ws[0].coord.numWeights
                        && forall c :: 0 <= c < |g.value| ==>
                             g.value[c] == 0.01 + |ws[i].aggregations| as real * (0.01 * (c % 3 - 1) as real)
  {
    var n := ws[0].coord.numWeights;
    var good: WeightProperty := (k: nat, v: Weights) => v == StubAfter(n, k);
    var goodTrained: TrainedProperty := (k: nat, c: Completion) => c.weights == StubAfter(n, k + 1) && c.numSamples > 0;
    StubInductive(trained, good, goodTrained, n);
    RunWeights(trained, ws, es, i, good, goodTrained, n);
  }

  lemma StubInductive(trained: TrainingRelation, good: WeightProperty, goodTrained: TrainedProperty, n: nat)
    requires StubOnly(trained)
    requires forall k: nat, v :: good(k, v) <==> v == StubAfter(n, k)
    requires forall k: nat, c :: goodTrained(k, c) <==> c.weights == StubAfter(n, k + 1) && c.numSamples > 0
    ensures Inductive(trained, good, goodTrained, n)
  {
    forall k: nat, id, s, c ensures TrainingCarries(trained, good, goodTrained, k, id, s, c) { StubStep(n, k); }
    forall k: nat, m ensures AveragingCarries(good, goodTrained, n, k, m) {
      if m.Keys != {} && AllTrained(goodTrained, k, m) {
        assert forall id :: id in m ==> goodTrained(k, CompletionOf(m[id]));
        AverageOfEqual(m, StubAfter(n, k + 1));
      }
    }
  }

  // ── real training: identical hidden units stay identical ─────────

  type SensorData = SensorId -> seq<Sample>

  /** Every sensor runs SGD from the received weights over its own data. */
  ghost predicate RealOnly(trained: TrainingRelation, shape: Net, data: SensorData) {
    && shape.WellFormed()
    && forall id, s, c :: trained(id, s, c) && |s.weights| == |Flatten(shape)| ==>
         c.weights == TrainedWeights(shape, data(id), s)
  }

  lemma UniformIsAlike(shape: Net)
    requires shape.WellFormed()
    ensures VectorAlike(shape, InitialWeights(|Flatten(shape)|))
  {
    var w := InitialWeights(|Flatten(shape)|);
    var net := Unflatten(shape, w);
    forall i, j | 0 <= i < shape.hidDim && 0 <= j < shape.hidDim ensures SameUnit(net, i, j) {
      UniformSameCells(shape, i, j);
      SameCellsIff(shape, w, i, j);
    }
  }

  lemma UniformSameCells(shape: Net, i: int, j: int)
    requires shape.WellFormed() && 0 <= i < shape.hidDim && 0 <= j < shape.hidDim
    ensures SameCells(shape, InitialWeights(|Flatten(shape)|), i, j)
  {
    forall k, u | 0 <= k < shape.inDim && 0 <= u < shape.hidDim
      ensures 0 <= Flat(k, shape.hidDim, u) < |shape.w1|
    {
      FlatBounds(k, u, shape.inDim, shape.hidDim);
    }
    forall u, o | 0 <= u < shape.hidDim && 0 <= o < shape.outDim
      ensures 0 <= Flat(u, shape.outDim, o) < |shape.w2|
    {
      FlatBounds(u, o, shape.hidDim, shape.outDim);
    }
  }

  /** From the uniform 0.01 start, all hidden units of the global model stay identical in every run:
      the width of the hidden layer is never used. */
  lemma HiddenUnitsStayIdentical(trained: TrainingRelation, shape: Net, data: SensorData, ws: seq<World>,
                                 es: seq<Event>, i: nat)
    requires Run(trained, ws, es) && i < |ws| && RealOnly(trained, shape, data)
    requires ws[0].coord.globalWeights.None? && ws[0].coord.sensors.Keys == {}
    requires ws[0].coord.numWeights == |Flatten(shape)|
    ensures ws[i].coord.globalWeights.Some? ==>
              |ws[i].coord.globalWeights.value| == |Flatten(shape)|
              && UnitsAlike(Unflatten(shape, ws[i].coord.globalWeights.value))
  {
    var n := |Flatten(shape)|;
    var good: WeightProperty := (k: nat, v: Weights) => VectorAlike(shape, v);
    var goodTrained: TrainedProperty := (k: nat, c: Completion) => VectorAlike(shape, c.weights);
    RealInductive(trained, shape, data, good, goodTrained);
    UniformIsAlike(shape);
    RunWeights(trained, ws, es, i, good, goodTrained, n);
  }

  lemma RealInductive(trained: TrainingRelation, shape: Net, data: SensorData, good: WeightProperty,
                      goodTrained: TrainedProperty)
    requires RealOnly(trained, shape, data)
    requires forall k: nat, v :: good(k, v) <==> VectorAlike(shape, v)
    requires forall k: nat, c :: goodTrained(k, c) <==> VectorAlike(shape, c.weights)
    ensures Inductive(trained, good, goodTrained, |Flatten(shape)|)
  {
    forall k: nat, id, s, c ensures TrainingCarries(trained, good, goodTrained, k, id, s, c) {
      if good(k, s.weights) { TrainingKeepsAlike(shape, data(id), s); }
    }
    forall k: nat, m ensures AveragingCarries(good, goodTrained, |Flatten(shape)|, k, m) {
      if AllTrained(goodTrained, k, m) {
        assert forall id :: id in m ==> goodTrained(k, CompletionOf(m[id]));
        AverageKeepsAlike(shape, m);
      }
    }
  }

  // ── one aggregation ──────────────────────────────────────────────

  /** What an aggregation announces lies between its clients' values, cell by cell and for the loss,
      and weighs them by their samples. */
  lemma AggregationInHull(trained: TrainingRelation, ws: seq<World>, es: seq<Event>, i: nat, cell: nat, lo: real,
                          hi: real)
    requires Run(trained, ws, es) && i < |es|
    ensures AggregatesAt(trained, ws, es, i) && SamplesNonNegative(ws[i + 1].coord.pendingUpdates) ==>
              MeanOfClients(ws[i + 1].coord.pendingUpdates, OutcomeAt(ws, es, i).update, cell, lo, hi)
  {
    if AggregatesAt(trained, ws, es, i) && SamplesNonNegative(ws[i + 1].coord.pendingUpdates) {
      var c := Collect(ws[i].coord, ws[i].inbox[es[i].k].update);
      assert ws[i + 1] == AcceptWorld(ws[i], es[i].k, es[i].order, es[i].deviceFound);
      FinishedInHull(c, es[i].order, cell, lo, hi);
    }
  }
}
