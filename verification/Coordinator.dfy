/** The coordinator half of the round protocol (smart-home/actors/coordinator.go). */
module Coordinator {
  import opened Basics
  import opened Sums
  import opened Mlp
  import opened FederatedAveraging
  import opened Messages

  datatype SensorInfo = SensorInfo(roomId: string, numSamples: int)

  type Updates = map<SensorId, ModelUpdate>

  datatype CoordState = CoordState(
    round: int,
    sensors: map<SensorId, SensorInfo>,
    pendingRound: int,
    pendingUpdates: Updates,
    globalWeights: Option<Weights>,
    numWeights: nat,
    numEpochs: int,
    learningRate: real)

  // ── averages over the map of collected updates ───────────────────

  ghost function Samples(m: Updates): SensorId -> real {
    id => if id in m then m[id].numSamples as real else 0.0
  }

  ghost function SampledValue(m: Updates, v: ModelUpdate -> real): SensorId -> real {
    id => if id in m then m[id].numSamples as real * v(m[id]) else 0.0
  }

  ghost function SampleTotal(m: Updates): real { SetSum(Samples(m), m.Keys) }

  /** The sample-weighted mean of v over the map, which has no order. */
  ghost function MapMean(m: Updates, v: ModelUpdate -> real): real {
    if SampleTotal(m) == 0.0 then 0.0 else SetSum(SampledValue(m, v), m.Keys) / SampleTotal(m)
  }

  ghost function WeightAt(i: int): ModelUpdate -> real { (u: ModelUpdate) => At(u.weights, i) }

  ghost function LossOf(): ModelUpdate -> real { (u: ModelUpdate) => u.loss }

  ghost predicate UniformLengths(m: Updates, n: nat) {
    forall id :: id in m ==> |m[id].weights| == n
  }

  /** The vector that FedAvg makes of the map when all its vectors have n cells. */
  ghost function MapAverage(m: Updates, n: nat): Weights {
    seq(n, i => MapMean(m, WeightAt(i)))
  }

  // ── the handlers as functions of the state ───────────────────────

  function InitialWeights(n: nat): Weights { seq(n, _ => 0.01) }

  function RegisterStep(c: CoordState, id: SensorId, info: SensorInfo): CoordState {
    c.(sensors := c.sensors[id := info],
       globalWeights := if c.globalWeights.None? then Some(InitialWeights(c.numWeights)) else c.globalWeights)
  }

  /** The message that a new round sends to every registered sensor. */
  function RoundStart(c: CoordState): StartTraining {
    StartTraining(c.round, if c.globalWeights.None? then [] else c.globalWeights.value, c.learningRate, c.numEpochs)
  }

  function StartRoundStep(c: CoordState): CoordState {
    c.(round := c.round + 1, pendingRound := c.round + 1, pendingUpdates := map[])
  }

  /** What aggregateAndFinalise did.  Only `Finished` sends the new global model. */
  datatype Outcome = NotReady | Skipped | Panicked | Finished(update: GlobalUpdate)

  /** What the device step after an aggregation loads into a fresh 5-8-3 network needs to fill its first
      three layers. */
  const DEVICE_CELLS: nat := 5 * 8 + 8 + 8 * 3

  /** How handling an update can kill the coordinator: FedAvg or, after the new model has been sent,
      the device step fails on a slice bound. */
  datatype Crash = NoCrash | IndexCrash | DeviceCrash

  function CrashOf(o: Outcome, deviceFound: bool): Crash {
    match o
    case Panicked => IndexCrash
    case Finished(update) => if deviceFound && |update.weights| < DEVICE_CELLS then DeviceCrash else NoCrash
    case _ => NoCrash
  }

  /** The outcome when the map iteration lists the updates in the order `ids`.  A later vector that
      is shorter than the first listed one makes FedAvg fail on a slice bound. */
  ghost function FinaliseOutcome(c: CoordState, ids: seq<SensorId>): Outcome {
    var m := c.pendingUpdates;
    if SampleTotal(m) == 0.0 || c.globalWeights.None? || |c.globalWeights.value| == 0 then Skipped
    else
      match Average(ListedWeights(ids, m), ListedSamples(ids, m))
      case Averaged(weights) => Finished(GlobalUpdate(c.round, weights, MapMean(m, LossOf())))
      case _ => Panicked
  }

  /** The collected vectors have the length of the global model. */
  ghost predicate Regular(c: CoordState) {
    c.globalWeights.None? || UniformLengths(c.pendingUpdates, |c.globalWeights.value|)
  }

  ghost function FinaliseStep(c: CoordState, ids: seq<SensorId>): CoordState {
    var o := FinaliseOutcome(c, ids);
    if o.Finished? then c.(globalWeights := Some(o.update.weights)) else c
  }

  function Collect(c: CoordState, u: ModelUpdate): CoordState {
    c.(pendingUpdates := c.pendingUpdates[u.sensorId := u])
  }

  /** A collected update completes the round when there are at least as many updates as sensors. */
  predicate Completes(c: CoordState, u: ModelUpdate) {
    u.roundId == c.pendingRound && |Collect(c, u).pendingUpdates| >= |c.sensors|
  }

  ghost function UpdateStep(c: CoordState, u: ModelUpdate, ids: seq<SensorId>): CoordState {
    if u.roundId != c.pendingRound then c
    else if Completes(c, u) then FinaliseStep(Collect(c, u), ids)
    else Collect(c, u)
  }

  ghost function UpdateOutcome(c: CoordState, u: ModelUpdate, ids: seq<SensorId>): Outcome {
    if Completes(c, u) then FinaliseOutcome(Collect(c, u), ids) else NotReady
  }

  // ── a listing of the map and the map itself ──────────────────────

  ghost predicate Lists(ids: seq<SensorId>, m: Updates) { Listing(ids, m.Keys) }

  ghost function Listed(ids: seq<SensorId>, m: Updates, v: ModelUpdate -> real): seq<real> {
    seq(|ids|, k requires 0 <= k < |ids| => if ids[k] in m then v(m[ids[k]]) else 0.0)
  }

  ghost function ListedSamples(ids: seq<SensorId>, m: Updates): seq<int> {
    seq(|ids|, k requires 0 <= k < |ids| => if ids[k] in m then m[ids[k]].numSamples else 0)
  }

  ghost function ListedWeights(ids: seq<SensorId>, m: Updates): seq<Weights> {
    seq(|ids|, k requires 0 <= k < |ids| => if ids[k] in m then m[ids[k]].weights else [])
  }

  lemma ListedTotal(ids: seq<SensorId>, m: Updates)
    requires Lists(ids, m)
    ensures Total(ListedSamples(ids, m)) as real == SampleTotal(m)
  {
    var ns := ListedSamples(ids, m);
    assert ns[..|ns|] == ns;
    TotalIsSum(ns, Count(ns), |ns|);
    ListingSum(Samples(m), ids, Count(ns));
  }

  lemma ListedSampleSum(ids: seq<SensorId>, m: Updates, v: ModelUpdate -> real)
    requires Lists(ids, m)
    ensures SampleSum(Listed(ids, m, v), ListedSamples(ids, m)) == SetSum(SampledValue(m, v), m.Keys)
  {
    var f := SampleTerm(Listed(ids, m, v), ListedSamples(ids, m));
    ListingSum(SampledValue(m, v), ids, f);
  }

  /** Whatever order the map iteration takes, the mean is the mean over the map. */
  lemma ListedMean(ids: seq<SensorId>, m: Updates, v: ModelUpdate -> real)
    requires Lists(ids, m) && SampleTotal(m) != 0.0
    ensures WeightedMean(Listed(ids, m, v), ListedSamples(ids, m)) == MapMean(m, v)
  {
    ListedTotal(ids, m);
    ListedSampleSum(ids, m, v);
    MeanConserves(Listed(ids, m, v), ListedSamples(ids, m));
  }

  /** Where FedAvg averages a listing at all, each cell is the mean over the map. */
  lemma ListedCell(ids: seq<SensorId>, m: Updates, i: int)
    requires Lists(ids, m) && SampleTotal(m) != 0.0
    ensures WeightedMean(Coordinate(ListedWeights(ids, m), i), ListedSamples(ids, m)) == MapMean(m, WeightAt(i))
  {
    assert Coordinate(ListedWeights(ids, m), i) == Listed(ids, m, WeightAt(i));
    ListedMean(ids, m, WeightAt(i));
  }

  /** With vectors of one length every listing gives the average over the map. */
  lemma ListedAverage(ids: seq<SensorId>, m: Updates, n: nat)
    requires Lists(ids, m) && SampleTotal(m) != 0.0 && UniformLengths(m, n)
    ensures Average(ListedWeights(ids, m), ListedSamples(ids, m)) == Averaged(MapAverage(m, n))
  {
    var ws, ns := ListedWeights(ids, m), ListedSamples(ids, m);
    ListedTotal(ids, m);
    assert |ids| == 0 ==> Total(ns) == 0;
    assert |ws[0]| == n;
    var l, r := AverageVector(ws, ns), MapAverage(m, n);
    forall i | 0 <= i < n ensures l[i] == r[i] {
      ListedCell(ids, m, i);
    }
  }

  /** When the collected vectors have the global model's length, the order does not matter. */
  lemma RegularOutcome(c: CoordState, ids: seq<SensorId>)
    requires Lists(ids, c.pendingUpdates) && Regular(c)
    requires SampleTotal(c.pendingUpdates) != 0.0 && c.globalWeights.Some? && |c.globalWeights.value| > 0
    ensures FinaliseOutcome(c, ids) == Finished(GlobalUpdate(c.round,
                                                             MapAverage(c.pendingUpdates, |c.globalWeights.value|),
                                                             MapMean(c.pendingUpdates, LossOf())))
    ensures Weighed(c.pendingUpdates, FinaliseOutcome(c, ids).update)
  {
    ListedAverage(ids, c.pendingUpdates, |c.globalWeights.value|);
    FinishedIsWeighed(c, ids);
  }

  // ── what is announced, in terms of the clients' own numbers ──────

  /** f(id) is the sample count of client id; its loss, weighed by its samples; its cell i, weighed so. */
  ghost predicate CountsSamples(f: SensorId -> real, m: Updates) {
    forall id :: id in m ==> f(id) == m[id].numSamples as real
  }

  ghost predicate WeighsLosses(f: SensorId -> real, m: Updates) {
    forall id :: id in m ==> f(id) == m[id].numSamples as real * m[id].loss
  }

  ghost predicate WeighsCells(f: SensorId -> real, m: Updates, i: nat) {
    forall id :: id in m && i < |m[id].weights| ==> f(id) == m[id].numSamples as real * m[id].weights[i]
  }

  /** Total samples times the value is the sum of the clients' losses, each weighed by its samples. */
  ghost predicate LossWeighed(m: Updates, loss: real) {
    forall n, f :: CountsSamples(n, m) && WeighsLosses(f, m) ==> SetSum(n, m.Keys) * loss == SetSum(f, m.Keys)
  }

  /** The same for cell i of the clients' vectors. */
  ghost predicate CellWeighed(m: Updates, i: nat, cell: real) {
    forall n, f :: CountsSamples(n, m) && WeighsCells(f, m, i) ==> SetSum(n, m.Keys) * cell == SetSum(f, m.Keys)
  }

  /** Every cell of g exists at every client, and g weighs the clients' cells and losses by samples. */
  ghost predicate Weighed(m: Updates, g: GlobalUpdate) {
    && (forall id :: id in m ==> |m[id].weights| >= |g.weights|)
    && LossWeighed(m, g.loss)
    && (forall i: nat :: i < |g.weights| ==> CellWeighed(m, i, g.weights[i]))
  }

  lemma CountIsTotal(m: Updates, n: SensorId -> real)
    requires CountsSamples(n, m)
    ensures SetSum(n, m.Keys) == SampleTotal(m)
  {
    SetSumEq(n, Samples(m), m.Keys);
  }

  lemma MeanIsWeighed(m: Updates, v: ModelUpdate -> real, n: SensorId -> real, f: SensorId -> real)
    requires SampleTotal(m) != 0.0 && CountsSamples(n, m)
    requires forall id :: id in m ==> f(id) == m[id].numSamples as real * v(m[id])
    ensures SetSum(n, m.Keys) * MapMean(m, v) == SetSum(f, m.Keys)
  {
    CountIsTotal(m, n);
    SetSumEq(f, SampledValue(m, v), m.Keys);
  }

  /** A later vector that is shorter than the first listed one. */
  ghost predicate ShorterLater(ids: seq<SensorId>, m: Updates) {
    ids != [] && exists id :: id in m && ids[0] in m && |m[id].weights| < |m[ids[0]].weights|
  }

  /** What an aggregation does, told by the collected updates alone. */
  lemma OutcomeIs(c: CoordState, ids: seq<SensorId>, n: SensorId -> real)
    requires Lists(ids, c.pendingUpdates) && CountsSamples(n, c.pendingUpdates)
    ensures var o, m := FinaliseOutcome(c, ids), c.pendingUpdates;
            && (o.Skipped? <==> SetSum(n, m.Keys) == 0.0 || c.globalWeights.None? || c.globalWeights.value == [])
            && (o.Panicked? <==> !o.Skipped? && ShorterLater(ids, m))
            && (o.Finished? <==> !o.Skipped? && !ShorterLater(ids, m))
            && (o.Finished? ==> o.update.roundId == c.round && Weighed(m, o.update) && m.Keys != {}
                                && |o.update.weights| == |m[ids[0]].weights|)
  {
    var m := c.pendingUpdates;
    CountIsTotal(m, n);
    if ids == [] {
      assert m.Keys == {};
      SetSumEmpty(n);
    } else {
      ListedTotal(ids, m);
      ListedShorter(ids, m);
    }
    if FinaliseOutcome(c, ids).Finished? {
      FinishedLengths(c, ids);
      FinishedIsWeighed(c, ids);
    }
  }

  lemma ListedShorter(ids: seq<SensorId>, m: Updates)
    requires Lists(ids, m) && ids != []
    ensures SomeShorter(ListedWeights(ids, m)) <==> ShorterLater(ids, m)
  {
    var ws := ListedWeights(ids, m);
    assert forall k :: 0 <= k < |ids| ==> ids[k] in Elements(ids) && ws[k] == m[ids[k]].weights;
    if id :| id in m && |m[id].weights| < |ws[0]| {
      assert id in Elements(ids);
      var k :| 0 <= k < |ids| && ids[k] == id;
      assert |ws[k]| < |ws[0]|;
    }
  }

  lemma FinishedIsWeighed(c: CoordState, ids: seq<SensorId>)
    requires Lists(ids, c.pendingUpdates) && FinaliseOutcome(c, ids).Finished?
    ensures Weighed(c.pendingUpdates, FinaliseOutcome(c, ids).update)
  {
    var m, g := c.pendingUpdates, FinaliseOutcome(c, ids).update;
    FinishedLengths(c, ids);
    LossIsWeighed(m);
    forall i: nat | i < |g.weights| ensures CellWeighed(m, i, g.weights[i]) {
      ListedCell(ids, m, i);
      CellIsWeighed(m, i);
    }
  }

  lemma FinishedLengths(c: CoordState, ids: seq<SensorId>)
    requires Lists(ids, c.pendingUpdates) && FinaliseOutcome(c, ids).Finished?
    ensures var m, g := c.pendingUpdates, FinaliseOutcome(c, ids).update;
            && ids != [] && ids[0] in m && |g.weights| == |m[ids[0]].weights|
            && forall id :: id in m ==> |m[id].weights| >= |g.weights|
  {
    assert ids[0] in Elements(ids);
    ListedShorter(ids, c.pendingUpdates);
  }

  lemma LossIsWeighed(m: Updates)
    requires SampleTotal(m) != 0.0
    ensures LossWeighed(m, MapMean(m, LossOf()))
  {
    forall n, f | CountsSamples(n, m) && WeighsLosses(f, m)
      ensures SetSum(n, m.Keys) * MapMean(m, LossOf()) == SetSum(f, m.Keys)
    {
      MeanIsWeighed(m, LossOf(), n, f);
    }
  }

  lemma CellIsWeighed(m: Updates, i: nat)
    requires SampleTotal(m) != 0.0 && forall id :: id in m ==> i < |m[id].weights|
    ensures CellWeighed(m, i, MapMean(m, WeightAt(i)))
  {
    forall n, f | CountsSamples(n, m) && WeighsCells(f, m, i)
      ensures SetSum(n, m.Keys) * MapMean(m, WeightAt(i)) == SetSum(f, m.Keys)
    {
      MeanIsWeighed(m, WeightAt(i), n, f);
    }
  }

  // ── the imperative coordinator ───────────────────────────────────

  class CoordinatorActor {
    var round: int
    var sensors: map<SensorId, SensorInfo>
    var pendingRound: int
    var pendingUpdates: Updates
    var globalWeights: Option<Weights>
    const numWeights: nat
    var numEpochs: int
    var learningRate: real

    ghost function State(): CoordState
      reads this
    {
      CoordState(round, sensors, pendingRound, pendingUpdates, globalWeights, numWeights, numEpochs, learningRate)
    }

    constructor (numWeights: nat)
      ensures State() == CoordState(0, map[], 0, map[], None, numWeights, 5, 0.01)
    {
      this.numWeights := numWeights;
      round, sensors, pendingRound, pendingUpdates := 0, map[], 0, map[];
      globalWeights, numEpochs, learningRate := None, 5, 0.01;
    }

    method HandleRegisterSensor(id: SensorId, info: SensorInfo)
      modifies this
      ensures State() == RegisterStep(old(State()), id, info)
      ensures sensors == old(sensors)[id := info] && globalWeights.Some?
      ensures old(globalWeights).Some? ==> globalWeights == old(globalWeights)
      ensures old(globalWeights).None? ==>
                |globalWeights.value| == numWeights
                && forall i :: 0 <= i < numWeights ==> globalWeights.value[i] == 0.01
    {
      sensors := sensors[id := info];
      if globalWeights.None? {
        var w := new real[numWeights];
        for i := 0 to numWeights
          modifies w
          invariant forall k :: 0 <= k < i ==> w[k] == 0.01
        {
          w[i] := 0.01;
        }
        assert w[..] == InitialWeights(numWeights);
        globalWeights := Some(w[..]);
      }
    }

    method SetTrainingConfig(epochs: int, lr: real)
      modifies this
      ensures State() == old(State()).(numEpochs := epochs, learningRate := lr)
    {
      numEpochs, learningRate := epochs, lr;
    }

    /** Returns the sensors to contact and the message they get. */
    method HandleStartRound() returns (targets: set<SensorId>, msg: StartTraining)
      modifies this
      ensures State() == StartRoundStep(old(State()))
      ensures targets == old(sensors).Keys
      ensures msg == RoundStart(StartRoundStep(old(State())))
      ensures round == pendingRound == old(round) + 1 && pendingUpdates == map[]
      ensures msg.roundId == round && msg.learningRate == learningRate && msg.epochs == numEpochs
      ensures msg.weights == if globalWeights.Some? then globalWeights.value else []
    {
      round := round + 1;
      targets := sensors.Keys;
      var w := if globalWeights.None? then [] else globalWeights.value;
      pendingRound := round;
      pendingUpdates := map[];
      msg := StartTraining(round, w, learningRate, numEpochs);
    }

    /** `ids` is the order in which the map iteration happened to list the updates. */
    method HandleModelUpdate(u: ModelUpdate, deviceFound: bool)
      returns (o: Outcome, crash: Crash, ghost ids: seq<SensorId>)
      modifies this
      ensures Completes(old(State()), u) ==> Lists(ids, Collect(old(State()), u).pendingUpdates)
      ensures State() == UpdateStep(old(State()), u, ids)
      ensures o == UpdateOutcome(old(State()), u, ids) && crash == CrashOf(o, deviceFound)
      ensures pendingUpdates ==
              if u.roundId == old(pendingRound) then old(pendingUpdates)[u.sensorId := u] else old(pendingUpdates)
      ensures o.NotReady? <==> u.roundId != old(pendingRound) || |pendingUpdates| < |sensors|
      ensures o.Finished? ==> Weighed(pendingUpdates, o.update)
      ensures globalWeights == if o.Finished? then Some(o.update.weights) else old(globalWeights)
    {
      o, crash, ids := NotReady, NoCrash, [];
      if u.roundId != pendingRound { return; }
      pendingUpdates := pendingUpdates[u.sensorId := u];
      if |pendingUpdates| >= |sensors| {
        o, crash, ids := AggregateAndFinalise(deviceFound);
      }
    }

    /** The last step feeds the new weights to a fresh network, if a device controller is found. */
    method AggregateAndFinalise(deviceFound: bool) returns (o: Outcome, crash: Crash, ghost order: seq<SensorId>)
      modifies this`globalWeights
      ensures Lists(order, old(pendingUpdates))
      ensures State() == FinaliseStep(old(State()), order)
      ensures o == FinaliseOutcome(old(State()), order) && crash == CrashOf(o, deviceFound)
      ensures o.Finished? ==> Weighed(pendingUpdates, o.update) && o.update.roundId == round
      ensures globalWeights == if o.Finished? then Some(o.update.weights) else old(globalWeights)
    {
      crash := NoCrash;
      var ids := ListKeys(pendingUpdates);
      order := ids;
      var updates := ListUpdates(ids, pendingUpdates);
      var clientWeights := seq(|updates|, k requires 0 <= k < |updates| => updates[k].weights);
      var numSamples := seq(|updates|, k requires 0 <= k < |updates| => updates[k].numSamples);
      var totalSamples := SumSamples(numSamples);
      assert numSamples == ListedSamples(ids, pendingUpdates);
      assert clientWeights == ListedWeights(ids, pendingUpdates);
      ListedTotal(ids, pendingUpdates);
      if totalSamples == 0 || globalWeights.None? || |globalWeights.value| == 0 {
        return Skipped, NoCrash, order;
      }
      var aggregated := FedAvg(clientWeights, numSamples);
      if !aggregated.Averaged? { return Panicked, IndexCrash, order; }
      var avgLoss := AverageLoss(ids, pendingUpdates, updates, totalSamples);
      FinishedIsWeighed(State(), ids);
      globalWeights := Some(aggregated.weights);
      o := Finished(GlobalUpdate(round, aggregated.weights, avgLoss));
      if deviceFound && |aggregated.weights| < 40 + 8 + 24 { crash := DeviceCrash; }
    }
  }

  /** `for id := range m`: the keys in some order. */
  method ListKeys(m: Updates) returns (ids: seq<SensorId>)
    ensures Lists(ids, m)
  {
    ids := [];
    var todo := m.Keys;
    while todo != {}
      invariant Distinct(ids) && Elements(ids) !! todo && Elements(ids) + todo == m.Keys
      decreases todo
    {
      var id :| id in todo;
      todo := todo - {id};
      assert forall x :: x in ids ==> x in Elements(ids);
      assert Elements(ids + [id]) == Elements(ids) + {id};
      ids := ids + [id];
    }
  }

  method ListUpdates(ids: seq<SensorId>, m: Updates) returns (updates: seq<ModelUpdate>)
    requires Lists(ids, m)
    ensures |updates| == |ids|
    ensures forall k :: 0 <= k < |ids| ==> ids[k] in m && updates[k] == m[ids[k]]
  {
    updates := [];
    for i := 0 to |ids|
      invariant |updates| == i
      invariant forall k :: 0 <= k < i ==> ids[k] in m && updates[k] == m[ids[k]]
    {
      assert ids[i] in Elements(ids);
      updates := updates + [m[ids[i]]];
    }
  }

  method AverageLoss(ghost ids: seq<SensorId>, ghost m: Updates, updates: seq<ModelUpdate>, totalSamples: int)
    returns (avgLoss: real)
    requires Lists(ids, m) && |updates| == |ids| && totalSamples != 0
    requires forall k :: 0 <= k < |ids| ==> ids[k] in m && updates[k] == m[ids[k]]
    requires totalSamples == Total(ListedSamples(ids, m))
    ensures avgLoss == MapMean(m, LossOf()) && LossWeighed(m, avgLoss)
  {
    ghost var f := MeanTerm(Listed(ids, m, LossOf()), ListedSamples(ids, m), totalSamples);
    avgLoss := 0.0;
    for k := 0 to |updates|
      invariant avgLoss == Sum(f, k)
    {
      var ratio := updates[k].numSamples as real / totalSamples as real;
      assert f(k) == updates[k].loss * ratio;
      SumStep(f, k);
      avgLoss := avgLoss + updates[k].loss * ratio;
    }
    ListedTotal(ids, m);
    ListedMean(ids, m, LossOf());
    LossIsWeighed(m);
  }
}
