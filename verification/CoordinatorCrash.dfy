/** Exactly when no run of the repository's own sensors crashes the coordinator. */
module CoordinatorCrash {
  import opened Basics
  import opened Sums
  import opened Mlp
  import opened ModelTraining
  import opened Messages
  import opened Sensor
  import opened Coordinator
  import opened UpdateMeans
  import opened RoundProtocol
  import opened RoundWeights
  import opened LocalRounds

  /** The shape of every network of the repository: five inputs, eight hidden units, three outputs. */
  ghost predicate DeviceShape(shape: Net) {
    shape.WellFormed() && shape.inDim == 5 && shape.hidDim == 8 && shape.outDim == 3
  }

  ghost predicate EverybodyReal(data: SensorData) { forall id :: data(id) != [] }

  /** A coordinator whose vector has, or will have, n cells. */
  ghost predicate StartsWith(w: World, n: nat) {
    StartLength(w) == n && (w.coord.globalWeights.None? ==> w.coord.sensors.Keys == {})
  }

  ghost predicate CrashFree(ws: seq<World>) { forall i :: 0 <= i < |ws| ==> ws[i].crash.NoCrash? }

  /** No run from such a coordinator crashes it, whether or not a device controller is found. */
  ghost predicate NeverCrashes(trained: TrainingRelation, n: nat) {
    forall ws, es :: Run(trained, ws, es) && StartsWith(ws[0], n) ==> CrashFree(ws)
  }

  // ── runs without a crash ─────────────────────────────────────────

  /** Vectors of one length that the device step can load. */
  lemma LongEnough(trained: TrainingRelation, n: nat)
    requires KeepsLength(trained, n) && n >= DEVICE_CELLS
    ensures NeverCrashes(trained, n)
  {
    forall ws: seq<World>, es: seq<Event> | Run(trained, ws, es) && StartsWith(ws[0], n) ensures CrashFree(ws) {
      var good: WeightProperty := (k: nat, v: Weights) => |v| == n;
      var goodTrained: TrainedProperty := (k: nat, c: Completion) => |c.weights| == n;
      forall i | 0 <= i < |ws| ensures ws[i].crash.NoCrash? {
        RunWeights(trained, ws, es, i, good, goodTrained, n);
      }
    }
  }

  lemma EmptyStep(trained: TrainingRelation, w: World, e: Event)
    requires Enabled(trained, w, e) && w.crash.NoCrash?
    requires w.coord.globalWeights.None? || w.coord.globalWeights.value == []
    ensures Apply(trained, w, e).crash.NoCrash?
  {
  }

  lemma {:induction false} EmptyRun(trained: TrainingRelation, ws: seq<World>, es: seq<Event>, i: nat)
    requires Run(trained, ws, es) && StartsWith(ws[0], 0) && i < |ws| && KeepsLength(trained, 0)
    ensures ws[i].crash.NoCrash?
  {
    if i > 0 {
      EmptyRun(trained, ws, es, i - 1);
      GlobalLengthKept(trained, ws, es, i - 1);
      EmptyStep(trained, ws[i - 1], es[i - 1]);
    }
  }

  /** Without weights every aggregation is skipped. */
  lemma NothingToAverage(trained: TrainingRelation)
    requires KeepsLength(trained, 0)
    ensures NeverCrashes(trained, 0)
  {
    forall ws: seq<World>, es: seq<Event> | Run(trained, ws, es) && StartsWith(ws[0], 0) ensures CrashFree(ws) {
      forall i | 0 <= i < |ws| ensures ws[i].crash.NoCrash? { EmptyRun(trained, ws, es, i); }
    }
  }

  /** Real sensors all send back one cell per parameter, or nothing when they cannot load the vector. */
  lemma RealAreSafe(shape: Net, data: SensorData, n: nat)
    requires DeviceShape(shape) && EverybodyReal(data)
    ensures NeverCrashes(LocalTraining(shape, data), n)
  {
    var trained, cells := LocalTraining(shape, data), |Flatten(shape)|;
    var good: WeightProperty := (k: nat, v: Weights) =>
      if n < Needed(shape) then k == 0 && |v| == n else |v| >= Needed(shape);
    var goodTrained: TrainedProperty := (k: nat, c: Completion) => n >= Needed(shape) && |c.weights| == cells;
    forall k: nat, id, s, c ensures TrainingCarries(trained, good, goodTrained, k, id, s, c) {
      if good(k, s.weights) && trained(id, s, c) { TrainedLength(shape, data(id), s); }
    }
    forall k: nat, m ensures AveragingCarries(good, goodTrained, cells, k, m) {
      if m.Keys != {} {
        var id :| id in m.Keys;
        assert AllTrained(goodTrained, k, m) ==> goodTrained(k, CompletionOf(m[id]));
      }
    }
    forall ws: seq<World>, es: seq<Event> | Run(trained, ws, es) && StartsWith(ws[0], n) ensures CrashFree(ws) {
      forall i | 0 <= i < |ws| ensures ws[i].crash.NoCrash? {
        RunWeights(trained, ws, es, i, good, goodTrained, cells);
      }
    }
  }

  // ── building a run ───────────────────────────────────────────────

  ghost predicate RunTo(trained: TrainingRelation, n: nat, ws: seq<World>, es: seq<Event>, w: World) {
    Run(trained, ws, es) && StartsWith(ws[0], n) && ws[|es|] == w
  }

  /** Some run from a coordinator with n cells leads to w. */
  ghost predicate Reaches(trained: TrainingRelation, n: nat, w: World) {
    exists ws, es :: RunTo(trained, n, ws, es, w)
  }

  /** One more event. */
  lemma Go(trained: TrainingRelation, n: nat, w: World, e: Event)
    requires Reaches(trained, n, w) && Enabled(trained, w, e)
    ensures Reaches(trained, n, Apply(trained, w, e))
  {
    var ws, es :| RunTo(trained, n, ws, es, w);
    var ws', es' := ws + [Apply(trained, w, e)], es + [e];
    forall i | 0 <= i < |es'| ensures Enabled(trained, ws'[i], es'[i]) && ws'[i + 1] == Apply(trained, ws'[i], es'[i]) {
      if i < |es| { assert es'[i] == es[i] && ws'[i] == ws[i] && ws'[i + 1] == ws[i + 1]; }
    }
    assert RunTo(trained, n, ws', es', Apply(trained, w, e));
  }

  lemma CrashReached(trained: TrainingRelation, n: nat, w: World)
    requires Reaches(trained, n, w) && !w.crash.NoCrash?
    ensures !NeverCrashes(trained, n)
  {
    var ws, es :| RunTo(trained, n, ws, es, w);
    assert !CrashFree(ws);
  }

  const FRESH: Node := Node(true, 0, SensorState(Idle, 0, [], 0, []), [], [], map[], false)

  /** A fresh coordinator with n cells, and the given sensors running. */
  ghost function FreshWorld(n: nat, ids: set<SensorId>): World {
    World(CoordState(0, map[], 0, map[], None, n, 5, 0.01), map id | id in ids :: FRESH, [], NoCrash,
          map[], {}, [], [])
  }

  /** A sensor that has just been sent the start of a round, and nothing else. */
  predicate JustStarted(n: Node, s: StartTraining) {
    n == FRESH.(link := [StartMsg(Some(s))])
  }

  ghost function UpdateFrom(id: SensorId, s: StartTraining, c: Completion): ModelUpdate {
    ModelUpdate(id, s.roundId, c.weights, c.numSamples, c.loss)
  }

  /** The same sensor while it trains, and when it has been told the result. */
  function Busy(s: StartTraining): Node {
    Node(true, 0, SensorState(Training, s.roundId, s.weights, 0, [TrainingBehavior]), [], [], map[0 := s], false)
  }

  function Told(s: StartTraining, c: Completion): Node {
    Busy(s).(mailbox := [CompleteMsg(Some(c), s)], workers := map[])
  }

  lemma NodeTrains(id: SensorId, n: Node, s: StartTraining, c: Completion)
    requires JustStarted(n, s)
    ensures var n1 := DeliverNode(n);
            n1.alive && n1.mailbox != [] && ProcessNode(id, n1, true) == Busy(s) && SentBy(id, n1, true) == []
    ensures FinishNode(Busy(s), 0, c) == Told(s, c)
  {
    var n1 := DeliverNode(n);
    assert n1.mailbox == [StartMsg(Some(s))] && n1.link == [] && n1.mailbox[1..] == [];
    assert Push([], TrainingBehavior) == [TrainingBehavior] && map[][0 := s] == map[0 := s];
    assert map[0 := s] - {0} == map[] && [] + [CompleteMsg(Some(c), s)] == [CompleteMsg(Some(c), s)];
  }

  /** w' differs from w in one sensor, and in what that sensor has sent. */
  ghost predicate OneMoved(w: World, w': World, id: SensorId, sent: seq<Envelope>) {
    && w'.coord == w.coord && w'.crash == w.crash && w'.inbox == w.inbox + sent
    && w'.nodes.Keys == w.nodes.Keys && (forall x :: x in w.nodes && x != id ==> w'.nodes[x] == w.nodes[x])
  }

  lemma BeginsTraining(trained: TrainingRelation, n: nat, w: World, id: SensorId, s: StartTraining) returns (w': World)
    requires Reaches(trained, n, w) && id in w.nodes && JustStarted(w.nodes[id], s)
    ensures Reaches(trained, n, w') && OneMoved(w, w', id, []) && w'.nodes[id] == Busy(s)
  {
    NodeTrains(id, w.nodes[id], s, Completion([], 0.0, 0));
    Go(trained, n, w, Deliver(id));
    var w1 := Apply(trained, w, Deliver(id));
    Go(trained, n, w1, Process(id, true));
    w' := Apply(trained, w1, Process(id, true));
  }

  lemma EndsTraining(trained: TrainingRelation, n: nat, w: World, id: SensorId, s: StartTraining, c: Completion)
    returns (w': World)
    requires Reaches(trained, n, w) && id in w.nodes && w.nodes[id] == Busy(s) && trained(id, s, c)
    ensures Reaches(trained, n, w') && OneMoved(w, w', id, [Envelope(UpdateFrom(id, s, c), s)])
  {
    NodeTrains(id, FRESH.(link := [StartMsg(Some(s))]), s, c);
    Go(trained, n, w, Finish(id, 0, c));
    var w1 := Apply(trained, w, Finish(id, 0, c));
    assert w1.nodes[id] == Told(s, c);
    Go(trained, n, w1, Process(id, true));
    w' := Apply(trained, w1, Process(id, true));
  }

  /** The sensor receives the start, trains, reports and answers. */
  lemma Answer(trained: TrainingRelation, n: nat, w: World, id: SensorId, s: StartTraining, c: Completion)
    returns (w': World)
    requires Reaches(trained, n, w) && trained(id, s, c) && id in w.nodes && JustStarted(w.nodes[id], s)
    ensures Reaches(trained, n, w') && OneMoved(w, w', id, [Envelope(UpdateFrom(id, s, c), s)])
  {
    var w1 := BeginsTraining(trained, n, w, id, s);
    w' := EndsTraining(trained, n, w1, id, s, c);
  }

  const INFO: SensorInfo := SensorInfo("", 0)

  /** What the first round of a fresh coordinator sends. */
  ghost function FirstStart(n: nat): StartTraining { StartTraining(1, InitialWeights(n), 0.01, 5) }

  ghost function InfoOf(ids: set<SensorId>): map<SensorId, SensorInfo> { map id | id in ids :: INFO }

  /** The first round has been started for exactly the given sensors. */
  ghost predicate FirstRound(w: World, n: nat, ids: set<SensorId>) {
    && w.coord == CoordState(1, InfoOf(ids), 1, map[], Some(InitialWeights(n)), n, 5, 0.01)
    && w.nodes.Keys == ids && (forall id :: id in ids ==> JustStarted(w.nodes[id], FirstStart(n)))
    && w.inbox == [] && w.crash.NoCrash?
  }

  ghost predicate Registered(w: World, n: nat, all: set<SensorId>, ids: set<SensorId>) {
    && w.nodes == FreshWorld(n, all).nodes && w.inbox == [] && w.crash.NoCrash?
    && w.coord == CoordState(0, InfoOf(ids), 0, map[], if ids == {} then None else Some(InitialWeights(n)), n, 5, 0.01)
  }

  lemma RegisterOne(trained: TrainingRelation, n: nat, w: World, all: set<SensorId>, ids: set<SensorId>, id: SensorId)
    returns (w': World)
    requires Reaches(trained, n, w) && Registered(w, n, all, ids) && id in all
    ensures Reaches(trained, n, w') && Registered(w', n, all, ids + {id})
  {
    Go(trained, n, w, Register(id, INFO));
    w' := Apply(trained, w, Register(id, INFO));
    assert InfoOf(ids)[id := INFO] == InfoOf(ids + {id});
  }

  lemma BeginRound(trained: TrainingRelation, n: nat, w: World, ids: set<SensorId>) returns (w': World)
    requires Reaches(trained, n, w) && Registered(w, n, ids, ids) && ids != {}
    ensures Reaches(trained, n, w') && FirstRound(w', n, ids)
  {
    Go(trained, n, w, StartRound);
    w' := Apply(trained, w, StartRound);
    assert w.coord.sensors.Keys == ids;
    forall id | id in ids ensures JustStarted(w'.nodes[id], FirstStart(n)) {
      assert [] + [StartMsg(Some(FirstStart(n)))] == [StartMsg(Some(FirstStart(n)))];
    }
  }

  lemma FreshRun(trained: TrainingRelation, n: nat, ids: set<SensorId>)
    ensures Reaches(trained, n, FreshWorld(n, ids)) && Registered(FreshWorld(n, ids), n, ids, {})
  {
    assert RunTo(trained, n, [FreshWorld(n, ids)], [], FreshWorld(n, ids));
  }

  // ── a stub alone, with vectors too short for the device step ─────

  lemma OneAverages(c: CoordState, u: ModelUpdate)
    requires c.pendingUpdates == map[] && u.numSamples > 0 && c.globalWeights.Some? && c.globalWeights.value != []
    ensures var o := FinaliseOutcome(Collect(c, u), [u.sensorId]);
            Lists([u.sensorId], Collect(c, u).pendingUpdates) && o.Finished? && |o.update.weights| == |u.weights|
  {
    var m, ids := Collect(c, u).pendingUpdates, [u.sensorId];
    assert m == map[u.sensorId := u] && Elements(ids) == {u.sensorId} == m.Keys;
    SampleTotalSign(m);
    ListedAverage(ids, m, |u.weights|);
  }

  lemma ShortCrash(shape: Net, data: SensorData, n: nat, a: SensorId)
    requires shape.WellFormed() && data(a) == [] && 0 < n < DEVICE_CELLS
    ensures !NeverCrashes(LocalTraining(shape, data), n)
  {
    var trained, s := LocalTraining(shape, data), FirstStart(n);
    FreshRun(trained, n, {a});
    var w := RegisterOne(trained, n, FreshWorld(n, {a}), {a}, {}, a);
    assert {} + {a} == {a};
    w := BeginRound(trained, n, w, {a});
    var c := CompletionExists(shape, data, a, s);
    w := Answer(trained, n, w, a, s, c);
    ShortAccepted(trained, n, w, UpdateFrom(a, s, c), s);
  }

  /** The only sensor's answer is aggregated, and the device step fails. */
  lemma ShortAccepted(trained: TrainingRelation, n: nat, w: World, u: ModelUpdate, s: StartTraining)
    requires Reaches(trained, n, w)
    requires u.numSamples > 0 && |u.weights| < DEVICE_CELLS && u.roundId == w.coord.pendingRound
    requires w.coord.sensors.Keys == {u.sensorId} && w.coord.pendingUpdates == map[] && w.crash.NoCrash?
    requires w.coord.globalWeights.Some? && w.coord.globalWeights.value != [] && w.inbox == [Envelope(u, s)]
    ensures !NeverCrashes(trained, n)
  {
    OneAverages(w.coord, u);
    assert |w.coord.sensors| == |w.coord.sensors.Keys| == 1;
    var e := Accept(0, [u.sensorId], true);
    Go(trained, n, w, e);
    CrashReached(trained, n, Apply(trained, w, e));
  }

  // ── a stub beside a real sensor, with vectors of another length ──

  lemma TwoClash(c: CoordState, first: SensorId, second: SensorId)
    requires c.pendingUpdates.Keys == {first, second} && first != second
    requires c.pendingUpdates[first].numSamples > 0 && c.pendingUpdates[second].numSamples > 0
    requires |c.pendingUpdates[second].weights| < |c.pendingUpdates[first].weights|
    requires c.globalWeights.Some? && c.globalWeights.value != []
    ensures Lists([first, second], c.pendingUpdates) && FinaliseOutcome(c, [first, second]).Panicked?
  {
    var m, ids := c.pendingUpdates, [first, second];
    assert Elements(ids) == {first, second};
    SampleTotalSign(m);
    ListedTotal(ids, m);
    assert ListedWeights(ids, m)[0] == m[first].weights && ListedWeights(ids, m)[1] == m[second].weights;
  }

  lemma MixedCrash(shape: Net, data: SensorData, n: nat, a: SensorId, b: SensorId)
    requires shape.WellFormed() && data(a) == [] && data(b) != []
    requires n >= Needed(shape) && n != |Flatten(shape)| && n > 0
    ensures !NeverCrashes(LocalTraining(shape, data), n)
  {
    var trained, s := LocalTraining(shape, data), FirstStart(n);
    var w := TwoStarted(trained, n, a, b);
    var c := CompletionExists(shape, data, a, s);
    var d := CompletionExists(shape, data, b, s);
    w := Answer(trained, n, w, a, s, c);
    w := Answer(trained, n, w, b, s, d);
    ClashAccepted(trained, n, w, UpdateFrom(a, s, c), UpdateFrom(b, s, d), s);
  }

  lemma TwoStarted(trained: TrainingRelation, n: nat, a: SensorId, b: SensorId) returns (w: World)
    ensures Reaches(trained, n, w) && FirstRound(w, n, {a, b})
  {
    FreshRun(trained, n, {a, b});
    w := RegisterOne(trained, n, FreshWorld(n, {a, b}), {a, b}, {}, a);
    w := RegisterOne(trained, n, w, {a, b}, {} + {a}, b);
    assert {} + {a} + {b} == {a, b};
    w := BeginRound(trained, n, w, {a, b});
  }

  /** Two answers of different lengths are accepted, the longer one listed first. */
  lemma ClashAccepted(trained: TrainingRelation, n: nat, w: World, u: ModelUpdate, v: ModelUpdate, s: StartTraining)
    requires Reaches(trained, n, w) && u.sensorId != v.sensorId && |u.weights| != |v.weights|
    requires u.numSamples > 0 && v.numSamples > 0 && u.roundId == v.roundId == w.coord.pendingRound
    requires w.coord.sensors.Keys == {u.sensorId, v.sensorId} && w.coord.pendingUpdates == map[] && w.crash.NoCrash?
    requires w.coord.globalWeights.Some? && w.coord.globalWeights.value != []
    requires w.inbox == [Envelope(u, s), Envelope(v, s)]
    ensures !NeverCrashes(trained, n)
  {
    var a := u.sensorId;
    assert |w.coord.sensors| == |w.coord.sensors.Keys| == 2;
    assert Collect(w.coord, u).pendingUpdates == map[a := u] && Elements([a]) == {a} == map[a := u].Keys;
    var e := Accept(0, [a], false);
    Go(trained, n, w, e);
    var w' := Apply(trained, w, e);
    assert w'.coord == Collect(w.coord, u) && w'.inbox == [Envelope(v, s)] && w'.crash.NoCrash?;
    var c := Collect(w'.coord, v);
    assert c.pendingUpdates == map[a := u, v.sensorId := v] && c.pendingUpdates.Keys == {a, v.sensorId};
    if |u.weights| > |v.weights| {
      SecondClashes(trained, n, w', v, s, a, v.sensorId);
    } else {
      SecondClashes(trained, n, w', v, s, v.sensorId, a);
    }
  }

  lemma SecondClashes(trained: TrainingRelation, n: nat, w: World, v: ModelUpdate, s: StartTraining,
                      first: SensorId, second: SensorId)
    requires Reaches(trained, n, w) && first != second && v.roundId == w.coord.pendingRound
    requires var m := Collect(w.coord, v).pendingUpdates;
             && m.Keys == {first, second} == w.coord.sensors.Keys && |m[second].weights| < |m[first].weights|
             && m[first].numSamples > 0 && m[second].numSamples > 0
    requires w.coord.globalWeights.Some? && w.coord.globalWeights.value != [] && w.crash.NoCrash?
    requires w.inbox == [Envelope(v, s)]
    ensures !NeverCrashes(trained, n)
  {
    var c := Collect(w.coord, v);
    assert |w.coord.sensors| == |w.coord.sensors.Keys| && |c.pendingUpdates| == |c.pendingUpdates.Keys|;
    TwoClash(c, first, second);
    PanicAccepted(trained, n, w, [first, second]);
  }

  lemma PanicAccepted(trained: TrainingRelation, n: nat, w: World, order: seq<SensorId>)
    requires Reaches(trained, n, w) && w.crash.NoCrash? && w.inbox != []
    requires Lists(order, Collect(w.coord, w.inbox[0].update).pendingUpdates)
    requires UpdateOutcome(w.coord, w.inbox[0].update, order).Panicked?
    ensures !NeverCrashes(trained, n)
  {
    Go(trained, n, w, Accept(0, order, false));
    CrashReached(trained, n, Apply(trained, w, Accept(0, order, false)));
  }

  // ── the exact condition ──────────────────────────────────────────

  /** No run of the repository's own sensors ever crashes the coordinator iff its vector has 75 cells, or
      none, or all sensors are real, or all are stubs and the vector has at least the 72 cells that
      the device step loads. */
  lemma NeverCrashesIff(shape: Net, data: SensorData, n: nat)
    requires DeviceShape(shape)
    ensures NeverCrashes(LocalTraining(shape, data), n)
            <==> n == 75 || n == 0 || EverybodyReal(data) || (NobodyReal(data) && n >= 72)
  {
    assert |Flatten(shape)| == 75 && Needed(shape) == 72 == DEVICE_CELLS;
    LocalKeepsLengthIff(shape, data, n);
    if EverybodyReal(data) {
      RealAreSafe(shape, data, n);
    } else if n == 0 {
      NothingToAverage(LocalTraining(shape, data));
    } else if n == 75 || (NobodyReal(data) && n >= 72) {
      LongEnough(LocalTraining(shape, data), n);
    } else {
      var a :| data(a) == [];
      if n < 72 {
        ShortCrash(shape, data, n, a);
      } else {
        var b :| data(b) != [];
        MixedCrash(shape, data, n, a, b);
      }
    }
  }
}
