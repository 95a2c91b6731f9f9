/** A round always finishes: from a quiet system, one round start is followed by at most eight steps
    per sensor, and when nothing more can happen the round has been aggregated exactly once and every
    sensor holds the new global weights. */
module RoundLiveness {
  import opened Basics
  import opened Sums
  import opened Messages
  import opened Sensor
  import opened Coordinator
  import opened UpdateMeans
  import opened RoundProtocol

  // ── a measure over a set of sensors ──────────────────────────────

  ghost function AddsRank(f: SensorId -> nat): (SensorId, nat) -> nat { (x, r) => f(x) + r }

  ghost function RankSum(f: SensorId -> nat, ids: set<SensorId>): nat { Fold(AddsRank(f), 0, ids) }

  lemma {:induction false} RankSumLe(f: SensorId -> nat, g: SensorId -> nat, ids: set<SensorId>)
    requires forall x :: x in ids ==> f(x) <= g(x)
    ensures RankSum(f, ids) <= RankSum(g, ids)
    ensures (exists x :: x in ids && f(x) < g(x)) ==> RankSum(f, ids) < RankSum(g, ids)
  {
    if ids != {} {
      var x :| x in ids;
      FoldRemove(AddsRank(f), 0, ids, x);
      FoldRemove(AddsRank(g), 0, ids, x);
      RankSumLe(f, g, ids - {x});
    }
  }

  lemma {:induction false} RankSumBound(f: SensorId -> nat, ids: set<SensorId>, most: nat)
    requires forall x :: x in ids ==> f(x) <= most
    ensures RankSum(f, ids) <= most * |ids|
  {
    if ids != {} {
      var x :| x in ids;
      FoldRemove(AddsRank(f), 0, ids, x);
      RankSumBound(f, ids - {x}, most);
      OneMore(most, |ids - {x}|);
    }
  }

  lemma OneMore(most: nat, k: nat)
    ensures most * (k + 1) == most + most * k
  {
  }

  // ── how far one sensor has got ───────────────────────────────────

  datatype Stage = StartSent | StartArrived | Working | Trained | Resting | ModelSent | ModelArrived

  function StageOf(n: Node): Stage {
    if n.link != [] then if n.link[0].StartMsg? then StartSent else ModelSent
    else if n.mailbox != [] then
      if n.mailbox[0].StartMsg? then StartArrived else if n.mailbox[0].CompleteMsg? then Trained else ModelArrived
    else if n.workers != map[] then Working
    else Resting
  }

  function StageRank(s: Stage, collected: bool, aggregated: bool): nat {
    match s
    case StartSent => 8
    case StartArrived => 7
    case Working => 6
    case Trained => 5
    case Resting => if aggregated then 0 else if collected then 3 else 4
    case ModelSent => 2
    case ModelArrived => 1
  }

  /** What the round is about: its start message, the length of the vectors that come back, the
      aggregations made before it and the sensors that take part. */
  datatype Round = Round(start: StartTraining, length: nat, before: seq<Aggregation>, sensors: set<SensorId>)

  ghost function RankOf(w: World, before: nat): SensorId -> nat {
    id =>
      if id !in w.nodes then 0
      else StageRank(StageOf(w.nodes[id]), id in w.coord.pendingUpdates, |w.aggregations| > before)
  }

  /** The number of steps that are left at most. */
  ghost function Measure(w: World, r: Round): nat { RankSum(RankOf(w, |r.before|), r.sensors) }

  predicate IdleNode(n: Node) { n.alive && n.sensor.phase == Idle && n.sensor.stack == [] }

  predicate BusyNode(n: Node, r: int) {
    n.alive && n.sensor.phase == Training && n.sensor.stack == [TrainingBehavior] && n.sensor.roundId == r
  }

  predicate Empty(n: Node) { n.link == [] && n.mailbox == [] && n.workers == map[] }

  predicate UsefulResult(weights: Weights, numSamples: int, length: nat) {
    |weights| == length && numSamples > 0
  }

  ghost predicate CollectingShape(n: Node, s: StartTraining, length: nat) {
    match StageOf(n)
    case StartSent => IdleNode(n) && n.link == [StartMsg(Some(s))] && n.mailbox == [] && n.workers == map[]
    case StartArrived => IdleNode(n) && n.mailbox == [StartMsg(Some(s))] && n.workers == map[]
    case Working => BusyNode(n, s.roundId) && n.workers == map[n.inc := s]
    case Trained => BusyNode(n, s.roundId) && |n.mailbox| == 1 && n.workers == map[]
                    && n.mailbox[0].completion.Some?
                    && UsefulResult(n.mailbox[0].completion.value.weights, n.mailbox[0].completion.value.numSamples,
                                    length)
    case Resting => IdleNode(n)
    case _ => false
  }

  ghost predicate SharingShape(n: Node, g: GlobalUpdate) {
    IdleNode(n) && n.workers == map[] &&
    match StageOf(n)
    case ModelSent => n.link == [GlobalMsg(Some(g))] && n.mailbox == []
    case ModelArrived => n.mailbox == [GlobalMsg(Some(g))]
    case Resting => n.sensor.weights == g.weights && n.sensor.roundId == g.roundId
    case _ => false
  }

  // ── the invariant of the running round ───────────────────────────

  predicate UsefulUpdate(u: ModelUpdate, r: Round) {
    u.roundId == r.start.roundId && u.sensorId in r.sensors && UsefulResult(u.weights, u.numSamples, r.length)
  }

  ghost predicate HasAnswered(w: World, id: SensorId) {
    || id in w.coord.pendingUpdates
    || exists k :: 0 <= k < |w.inbox| && w.inbox[k].update.sensorId == id
  }

  ghost predicate RoundOk(w: World, r: Round) {
    && r.sensors != {} && w.coord.sensors.Keys == r.sensors && r.sensors <= w.nodes.Keys
    && (forall id :: id in w.nodes && id !in r.sensors ==> Empty(w.nodes[id]))
    && w.coord.pendingRound == w.coord.round == r.start.roundId
  }

  ghost predicate CollectedOk(w: World, r: Round) {
    && (forall id :: id in w.coord.pendingUpdates ==>
          w.coord.pendingUpdates[id].sensorId == id && UsefulUpdate(w.coord.pendingUpdates[id], r))
    && (forall k :: 0 <= k < |w.inbox| ==>
          UsefulUpdate(w.inbox[k].update, r) && w.inbox[k].update.sensorId !in w.coord.pendingUpdates)
    && (forall j, k :: 0 <= j < k < |w.inbox| ==> w.inbox[j].update.sensorId != w.inbox[k].update.sensorId)
  }

  ghost predicate CollectingNode(w: World, r: Round, id: SensorId)
    requires id in w.nodes
  {
    CollectingShape(w.nodes[id], r.start, r.length) && (StageOf(w.nodes[id]).Resting? <==> HasAnswered(w, id))
  }

  /** Not every sensor has been heard yet. */
  ghost predicate Collecting(w: World, r: Round) {
    && RoundOk(w, r) && CollectedOk(w, r) && w.crash.NoCrash?
    && w.coord.globalWeights.Some? && w.coord.globalWeights.value != []
    && w.aggregations == r.before && w.coord.pendingUpdates.Keys != r.sensors
    && (forall id :: id in r.sensors ==> CollectingNode(w, r, id))
  }

  /** The coordinator lives, unless the device step could not load vectors of that length. */
  ghost predicate CrashOk(w: World, length: nat) {
    !w.crash.IndexCrash? && (length >= DEVICE_CELLS ==> w.crash.NoCrash?)
  }

  /** The round has been aggregated and its result is on its way back. */
  ghost predicate Sharing(w: World, r: Round) {
    && RoundOk(w, r) && w.inbox == []
    && |w.aggregations| == |r.before| + 1 && w.aggregations[..|r.before|] == r.before
    && w.aggregations[|r.before|].result.roundId == r.start.roundId
    && w.coord.globalWeights == Some(w.aggregations[|r.before|].result.weights)
    && |w.aggregations[|r.before|].result.weights| == r.length && CrashOk(w, r.length)
    && (forall id :: id in r.sensors ==> SharingShape(w.nodes[id], w.aggregations[|r.before|].result))
  }

  ghost predicate Running(w: World, r: Round) { Collecting(w, r) || Sharing(w, r) }

  // ── the events of an undisturbed round ───────────────────────────

  /** No crash, loss, registration, foreign message or further start; the coordinator is found. */
  predicate Calm(e: Event) {
    e.Deliver? || (e.Process? && e.coordinatorFound) || e.Finish? || e.Accept?
  }

  ghost predicate CanTrain(trained: TrainingRelation, id: SensorId, s: StartTraining) {
    exists c :: trained(id, s, c)
  }

  /** Local training ends at every given sensor, counts at least one sample, and always sends back
      vectors of the given length, which need not be the length it was sent. */
  ghost predicate TrainsUsefully(trained: TrainingRelation, s: StartTraining, ids: set<SensorId>, length: nat) {
    && (forall id, c :: id in ids && trained(id, s, c) ==> UsefulResult(c.weights, c.numSamples, length))
    && (forall id :: id in ids ==> CanTrain(trained, id, s))
  }

  ghost predicate Trains(trained: TrainingRelation, r: Round) {
    TrainsUsefully(trained, r.start, r.sensors, r.length)
  }

  /** Everything is at rest: all registered sensors are idle and reachable, nothing is under way. */
  ghost predicate AtRest(w: World) {
    && w.coord.sensors.Keys != {} && w.coord.sensors.Keys <= w.nodes.Keys
    && (forall id :: id in w.nodes ==> Empty(w.nodes[id]))
    && (forall id :: id in w.coord.sensors ==> IdleNode(w.nodes[id]))
    && w.inbox == [] && w.crash.NoCrash?
    && w.coord.globalWeights.Some? && w.coord.globalWeights.value != []
  }

  ghost function RoundOf(w: World, length: nat): Round {
    Round(RoundStart(StartRoundStep(w.coord)), length, w.aggregations, w.coord.sensors.Keys)
  }

  lemma StartsRunning(w: World, length: nat)
    requires AtRest(w)
    ensures Collecting(StartRoundWorld(w), RoundOf(w, length))
  {
    var w', r := StartRoundWorld(w), RoundOf(w, length);
    forall id | id in r.sensors ensures CollectingNode(w', r, id) {
      assert w'.nodes[id].link == [StartMsg(Some(r.start))];
    }
  }

  // ── each step makes progress ─────────────────────────────────────

  /** One sensor changes and the others do not. */
  lemma OneRankFalls(w: World, w': World, r: Round, id: SensorId)
    requires id in r.sensors && r.sensors <= w.nodes.Keys && w'.nodes.Keys == w.nodes.Keys
    requires forall x :: x in r.sensors && x != id ==> w'.nodes[x] == w.nodes[x]
    requires w'.coord.pendingUpdates == w.coord.pendingUpdates && w'.aggregations == w.aggregations
    requires RankOf(w', |r.before|)(id) < RankOf(w, |r.before|)(id)
    ensures Measure(w', r) < Measure(w, r)
  {
    RankSumLe(RankOf(w', |r.before|), RankOf(w, |r.before|), r.sensors);
  }

  predicate Falls(n: Node, n': Node) {
    StageRank(StageOf(n'), false, false) < StageRank(StageOf(n), false, false)
  }

  lemma CollectingNodeStep(w: World, r: Round, id: SensorId, n': Node)
    requires Collecting(w, r) && id in r.sensors
    requires !StageOf(w.nodes[id]).Resting? && !StageOf(n').Resting? && CollectingShape(n', r.start, r.length)
             && Falls(w.nodes[id], n')
    ensures var w' := w.(nodes := w.nodes[id := n']); Collecting(w', r) && Measure(w', r) < Measure(w, r)
  {
    var w' := w.(nodes := w.nodes[id := n']);
    forall x | x in r.sensors ensures CollectingNode(w', r, x) {
      assert CollectingNode(w, r, x);
      assert HasAnswered(w', x) == HasAnswered(w, x);
    }
    OneRankFalls(w, w', r, id);
  }

  lemma SharingNodeStep(w: World, r: Round, id: SensorId, n': Node)
    requires Sharing(w, r) && id in r.sensors
    requires SharingShape(n', w.aggregations[|r.before|].result) && !StageOf(w.nodes[id]).Resting?
    requires StageOf(n').Resting? || Falls(w.nodes[id], n')
    ensures var w' := w.(nodes := w.nodes[id := n']); Sharing(w', r) && Measure(w', r) < Measure(w, r)
  {
    var w' := w.(nodes := w.nodes[id := n']);
    OneRankFalls(w, w', r, id);
  }

  lemma DeliverProgress(w: World, r: Round, id: SensorId)
    requires Running(w, r) && id in w.nodes && w.nodes[id].link != []
    ensures var w' := w.(nodes := w.nodes[id := DeliverNode(w.nodes[id])]);
            Running(w', r) && Measure(w', r) < Measure(w, r)
  {
    if Collecting(w, r) {
      assert CollectingNode(w, r, id);
      CollectingNodeStep(w, r, id, DeliverNode(w.nodes[id]));
    } else {
      SharingNodeStep(w, r, id, DeliverNode(w.nodes[id]));
    }
  }

  lemma FinishProgress(trained: TrainingRelation, w: World, r: Round, id: SensorId, k: nat, c: Completion)
    requires Trains(trained, r) && Running(w, r)
    requires id in w.nodes && k in w.nodes[id].workers && trained(id, w.nodes[id].workers[k], c)
    ensures var w' := w.(nodes := w.nodes[id := FinishNode(w.nodes[id], k, c)]);
            Running(w', r) && Measure(w', r) < Measure(w, r)
  {
    assert id in r.sensors && Collecting(w, r);
    assert CollectingNode(w, r, id);
    FinishShape(w.nodes[id], r.start, r.length, k, c);
    CollectingNodeStep(w, r, id, FinishNode(w.nodes[id], k, c));
  }

  lemma FinishShape(n: Node, s: StartTraining, length: nat, k: nat, c: Completion)
    requires CollectingShape(n, s, length) && k in n.workers
    requires UsefulResult(c.weights, c.numSamples, length)
    ensures var n' := FinishNode(n, k, c);
            && StageOf(n).Working? && StageOf(n').Trained? && CollectingShape(n', s, length)
            && Falls(n, n')
  {
  }

  lemma ProcessStart(id: SensorId, n: Node, s: StartTraining, length: nat)
    requires CollectingShape(n, s, length) && StageOf(n).StartArrived?
    ensures var n' := ProcessNode(id, n, true);
            CollectingShape(n', s, length) && Falls(n, n') && !StageOf(n').Resting? && SentBy(id, n, true) == []
  {
    var n' := ProcessNode(id, n, true);
    assert n'.mailbox == [] && n'.sensor.stack == [TrainingBehavior];
    assert n.inc in n'.workers && n'.workers == map[n.inc := s];
  }

  lemma ProcessGlobal(id: SensorId, n: Node, g: GlobalUpdate)
    requires SharingShape(n, g) && StageOf(n).ModelArrived?
    ensures var n' := ProcessNode(id, n, true);
            SharingShape(n', g) && StageOf(n').Resting? && SentBy(id, n, true) == []
  {
  }

  ghost predicate SentOne(w: World, id: SensorId, n': Node, e: Envelope, w': World) {
    id in w.nodes && w' == w.(nodes := w.nodes[id := n'], inbox := w.inbox + [e])
  }

  /** A sensor that has not answered answers. */
  lemma AnswerProgress(w: World, r: Round, id: SensorId, n': Node, e: Envelope, w': World)
    requires Collecting(w, r) && id in r.sensors && StageOf(w.nodes[id]).Trained? && SentOne(w, id, n', e, w')
    requires CollectingShape(n', r.start, r.length) && StageOf(n').Resting? && e.update.sensorId == id
             && UsefulUpdate(e.update, r)
    ensures Collecting(w', r) && Measure(w', r) < Measure(w, r)
  {
    assert CollectingNode(w, r, id);
    forall x | x in r.sensors ensures CollectingNode(w', r, x) {
      assert CollectingNode(w, r, x);
      AnswersAfter(w, w', e, x);
    }
    AnswerCollected(w, r, e, w');
    OneRankFalls(w, w', r, id);
  }

  lemma AnswerCollected(w: World, r: Round, e: Envelope, w': World)
    requires CollectedOk(w, r) && UsefulUpdate(e.update, r) && !HasAnswered(w, e.update.sensorId)
    requires w'.coord == w.coord && w'.inbox == w.inbox + [e]
    ensures CollectedOk(w', r)
  {
  }

  lemma AnswersAfter(w: World, w': World, e: Envelope, x: SensorId)
    requires w'.coord == w.coord && w'.inbox == w.inbox + [e]
    ensures HasAnswered(w', x) <==> HasAnswered(w, x) || x == e.update.sensorId
  {
    assert w'.inbox[|w.inbox|] == e;
    assert forall k :: 0 <= k < |w.inbox| ==> w'.inbox[k] == w.inbox[k];
  }

  lemma ProcessProgress(w: World, r: Round, id: SensorId)
    requires Running(w, r) && id in w.nodes && w.nodes[id].alive && w.nodes[id].mailbox != []
    ensures var w' := w.(nodes := w.nodes[id := ProcessNode(id, w.nodes[id], true)],
                         inbox := w.inbox + SentBy(id, w.nodes[id], true));
            Running(w', r) && Measure(w', r) < Measure(w, r)
  {
    var n, n' := w.nodes[id], ProcessNode(id, w.nodes[id], true);
    var sent := SentBy(id, n, true);
    if Sharing(w, r) {
      ProcessGlobal(id, n, w.aggregations[|r.before|].result);
      assert w.inbox + sent == w.inbox;
      SharingNodeStep(w, r, id, n');
    } else {
      assert CollectingNode(w, r, id);
      if StageOf(n).StartArrived? {
        ProcessStart(id, n, r.start, r.length);
        assert w.inbox + sent == w.inbox;
        CollectingNodeStep(w, r, id, n');
      } else {
        var w' := w.(nodes := w.nodes[id := n'], inbox := w.inbox + sent);
        assert sent == [sent[0]];
        AnswerProgress(w, r, id, n', sent[0], w');
      }
    }
  }

  // ── accepting an answer ──────────────────────────────────────────

  /** Either the round is still open after the answer, or it has been aggregated. */
  lemma AcceptOutcome(w: World, r: Round, k: nat)
    requires Collecting(w, r) && k < |w.inbox|
    ensures var u := w.inbox[k].update;
            var c := Collect(w.coord, u);
            && u.sensorId in r.sensors && u.roundId == w.coord.pendingRound
            && c.pendingUpdates.Keys == w.coord.pendingUpdates.Keys + {u.sensorId} && c.pendingUpdates.Keys <= r.sensors
            && (Completes(w.coord, u) <==> c.pendingUpdates.Keys == r.sensors)
  {
    var u := w.inbox[k].update;
    var c := Collect(w.coord, u);
    assert UsefulUpdate(u, r);
    assert |w.coord.sensors| == |w.coord.sensors.Keys| && |c.pendingUpdates| == |c.pendingUpdates.Keys|;
    if Completes(w.coord, u) { SameSize(c.pendingUpdates.Keys, r.sensors); }
  }

  lemma UsefulUpdatesFinish(c: CoordState, r: Round, order: seq<SensorId>)
    requires Lists(order, c.pendingUpdates)
    requires c.pendingUpdates.Keys != {}
    requires forall id :: id in c.pendingUpdates ==> UsefulUpdate(c.pendingUpdates[id], r)
    requires c.globalWeights.Some? && c.globalWeights.value != []
    ensures FinaliseOutcome(c, order).Finished? && |FinaliseOutcome(c, order).update.weights| == r.length
  {
    SampleTotalSign(c.pendingUpdates);
    ListedAverage(order, c.pendingUpdates, r.length);
  }

  lemma KeepCollecting(w: World, r: Round, k: nat, order: seq<SensorId>, device: bool)
    requires Collecting(w, r) && k < |w.inbox|
    ensures var w' := AcceptWorld(w, k, order, device);
            !Completes(w.coord, w.inbox[k].update) ==>
              && Collecting(w', r) && w'.nodes == w.nodes
              && w'.coord.pendingUpdates.Keys == w.coord.pendingUpdates.Keys + {w.inbox[k].update.sensorId}
  {
    var w' := AcceptWorld(w, k, order, device);
    AcceptOutcome(w, r, k);
    if !Completes(w.coord, w.inbox[k].update) {
      AcceptCollected(w, r, k, w');
      forall x | x in r.sensors ensures CollectingNode(w', r, x) {
        assert CollectingNode(w, r, x);
        AnswersKept(w, r, k, w', x);
      }
    }
  }

  lemma AcceptCollected(w: World, r: Round, k: nat, w': World)
    requires CollectedOk(w, r) && k < |w.inbox| && w'.inbox == Removed(w.inbox, k)
    requires w'.coord.pendingUpdates == Collect(w.coord, w.inbox[k].update).pendingUpdates
    ensures CollectedOk(w', r)
  {
    assert forall i :: 0 <= i < |w'.inbox| ==> w'.inbox[i] == w.inbox[if i < k then i else i + 1];
  }

  lemma AnswersKept(w: World, r: Round, k: nat, w': World, x: SensorId)
    requires k < |w.inbox| && w'.inbox == Removed(w.inbox, k)
    requires w'.coord.pendingUpdates == Collect(w.coord, w.inbox[k].update).pendingUpdates
    ensures HasAnswered(w', x) <==> HasAnswered(w, x)
  {
    assert forall i :: 0 <= i < |w'.inbox| ==> w'.inbox[i] == w.inbox[if i < k then i else i + 1];
    if j :| 0 <= j < |w.inbox| && w.inbox[j].update.sensorId == x && j != k {
      assert w'.inbox[if j < k then j else j - 1] == w.inbox[j];
    }
  }

  lemma OneLeft(w: World, r: Round, k: nat, j: nat)
    requires CollectedOk(w, r) && k < |w.inbox| && j < |w.inbox|
    requires w.coord.pendingUpdates.Keys + {w.inbox[k].update.sensorId} == r.sensors
    ensures j == k
  {
    assert UsefulUpdate(w.inbox[j].update, r);
  }

  /** When the last answer arrives nothing else is under way, so every sensor is at rest. */
  lemma AllResting(w: World, r: Round, k: nat)
    requires Collecting(w, r) && k < |w.inbox|
    requires w.coord.pendingUpdates.Keys + {w.inbox[k].update.sensorId} == r.sensors
    ensures w.inbox == [w.inbox[k]]
    ensures forall id :: id in r.sensors ==> StageOf(w.nodes[id]).Resting? && IdleNode(w.nodes[id])
  {
    OneLeft(w, r, k, 0);
    OneLeft(w, r, k, |w.inbox| - 1);
    forall id | id in r.sensors ensures StageOf(w.nodes[id]).Resting? && IdleNode(w.nodes[id]) {
      assert id in w.coord.pendingUpdates || w.inbox[k].update.sensorId == id;
      assert CollectingNode(w, r, id);
    }
  }

  /** What the last answer changes. */
  ghost predicate Aggregated(w: World, w': World, k: nat, g: GlobalUpdate, device: bool)
    requires k < |w.inbox|
  {
    && w'.coord.sensors == w.coord.sensors
    && w'.coord.round == w.coord.round && w'.coord.pendingRound == w.coord.pendingRound
    && w'.coord.globalWeights == Some(g.weights) && g.roundId == w.coord.round
    && w'.crash == CrashOf(Outcome.Finished(g), device)
    && w'.inbox == Removed(w.inbox, k)
    && w'.nodes == Send(w.nodes, w.coord.sensors.Keys, GlobalMsg(Some(g)))
    && |w'.aggregations| == |w.aggregations| + 1 && w'.aggregations[..|w.aggregations|] == w.aggregations
    && w'.aggregations[|w.aggregations|].result == g
  }

  ghost function Result(w: World, k: nat, order: seq<SensorId>): GlobalUpdate
    requires k < |w.inbox| && UpdateOutcome(w.coord, w.inbox[k].update, order).Finished?
  {
    UpdateOutcome(w.coord, w.inbox[k].update, order).update
  }

  lemma LastAnswer(w: World, r: Round, k: nat, order: seq<SensorId>, device: bool)
    requires Collecting(w, r) && k < |w.inbox| && Completes(w.coord, w.inbox[k].update)
    requires Lists(order, Collect(w.coord, w.inbox[k].update).pendingUpdates)
    ensures UpdateOutcome(w.coord, w.inbox[k].update, order).Finished?
    ensures Aggregated(w, AcceptWorld(w, k, order, device), k, Result(w, k, order), device)
    ensures |Result(w, k, order).weights| == r.length
    ensures w.coord.pendingUpdates.Keys + {w.inbox[k].update.sensorId} == r.sensors
  {
    AcceptOutcome(w, r, k);
    LastAnswerFinishes(w, r, k, order);
  }

  lemma LastAnswerFinishes(w: World, r: Round, k: nat, order: seq<SensorId>)
    requires CollectedOk(w, r) && k < |w.inbox| && Completes(w.coord, w.inbox[k].update)
    requires w.coord.globalWeights.Some? && w.coord.globalWeights.value != []
    requires Lists(order, Collect(w.coord, w.inbox[k].update).pendingUpdates)
    ensures var o := UpdateOutcome(w.coord, w.inbox[k].update, order);
            o.Finished? && |o.update.weights| == r.length
  {
    CollectedUseful(w, r, k);
    UsefulUpdatesFinish(Collect(w.coord, w.inbox[k].update), r, order);
  }

  lemma CollectedUseful(w: World, r: Round, k: nat)
    requires CollectedOk(w, r) && k < |w.inbox|
    ensures var m := Collect(w.coord, w.inbox[k].update).pendingUpdates;
            m.Keys != {} && forall id :: id in m ==> UsefulUpdate(m[id], r)
  {
    var u := w.inbox[k].update;
    assert UsefulUpdate(u, r);
    assert u.sensorId in Collect(w.coord, u).pendingUpdates.Keys;
  }

  lemma ModelGoesOut(w: World, r: Round, k: nat, w': World, g: GlobalUpdate, device: bool, id: SensorId)
    requires k < |w.inbox| && Aggregated(w, w', k, g, device) && id in w.coord.sensors && id in w.nodes
    requires StageOf(w.nodes[id]).Resting? && IdleNode(w.nodes[id])
    ensures id in w'.nodes && SharingShape(w'.nodes[id], g) && StageOf(w'.nodes[id]).ModelSent?
  {
    assert w'.nodes[id].link == [GlobalMsg(Some(g))];
  }

  lemma StartSharing(w: World, r: Round, k: nat, w': World, g: GlobalUpdate, device: bool)
    requires Collecting(w, r) && k < |w.inbox|
    requires w.coord.pendingUpdates.Keys + {w.inbox[k].update.sensorId} == r.sensors
    requires Aggregated(w, w', k, g, device) && |g.weights| == r.length
    ensures Sharing(w', r) && Measure(w', r) < Measure(w, r)
  {
    AllResting(w, r, k);
    SharingBegins(w, r, k, w', g, device);
    AllRanksFall(w, w', r);
  }

  lemma SharingBegins(w: World, r: Round, k: nat, w': World, g: GlobalUpdate, device: bool)
    requires k < |w.inbox| && w.inbox == [w.inbox[k]] && RoundOk(w, r) && w.aggregations == r.before
    requires forall id :: id in r.sensors ==> StageOf(w.nodes[id]).Resting? && IdleNode(w.nodes[id])
    requires Aggregated(w, w', k, g, device) && |g.weights| == r.length
    ensures Sharing(w', r) && forall id :: id in r.sensors ==> StageOf(w'.nodes[id]).ModelSent?
  {
    ModelsGoOut(w, r, k, w', g, device);
  }

  lemma ModelsGoOut(w: World, r: Round, k: nat, w': World, g: GlobalUpdate, device: bool)
    requires k < |w.inbox| && RoundOk(w, r) && Aggregated(w, w', k, g, device)
    requires forall id :: id in r.sensors ==> StageOf(w.nodes[id]).Resting? && IdleNode(w.nodes[id])
    ensures RoundOk(w', r)
    ensures forall id :: id in r.sensors ==> SharingShape(w'.nodes[id], g) && StageOf(w'.nodes[id]).ModelSent?
  {
    forall id | id in r.sensors
      ensures id in w'.nodes && SharingShape(w'.nodes[id], g) && StageOf(w'.nodes[id]).ModelSent?
    {
      ModelGoesOut(w, r, k, w', g, device, id);
    }
  }

  lemma AllRanksFall(w: World, w': World, r: Round)
    requires r.sensors != {} && r.sensors <= w.nodes.Keys && r.sensors <= w'.nodes.Keys && w.aggregations == r.before
    requires forall id :: id in r.sensors ==> StageOf(w.nodes[id]).Resting? && StageOf(w'.nodes[id]).ModelSent?
    ensures Measure(w', r) < Measure(w, r)
  {
    var f, f' := RankOf(w, |r.before|), RankOf(w', |r.before|);
    assert forall id :: id in r.sensors ==> f'(id) < f(id);
    RankSumLe(f', f, r.sensors);
  }

  lemma AcceptProgress(w: World, r: Round, k: nat, order: seq<SensorId>, device: bool)
    requires Running(w, r) && k < |w.inbox| && Lists(order, Collect(w.coord, w.inbox[k].update).pendingUpdates)
    ensures Running(AcceptWorld(w, k, order, device), r) && Measure(AcceptWorld(w, k, order, device), r) < Measure(w, r)
  {
    if Completes(w.coord, w.inbox[k].update) {
      LastAnswer(w, r, k, order, device);
      StartSharing(w, r, k, AcceptWorld(w, k, order, device), Result(w, k, order), device);
    } else {
      KeepCollecting(w, r, k, order, device);
      OneAnswerLess(w, AcceptWorld(w, k, order, device), r, k);
    }
  }

  lemma OneAnswerLess(w: World, w': World, r: Round, k: nat)
    requires Collecting(w, r) && k < |w.inbox|
    requires w'.nodes == w.nodes && w'.aggregations == w.aggregations
    requires w'.coord.pendingUpdates.Keys == w.coord.pendingUpdates.Keys + {w.inbox[k].update.sensorId}
    ensures Measure(w', r) < Measure(w, r)
  {
    var id := w.inbox[k].update.sensorId;
    assert UsefulUpdate(w.inbox[k].update, r);
    assert HasAnswered(w, id);
    assert CollectingNode(w, r, id);
    var f, f' := RankOf(w, |r.before|), RankOf(w', |r.before|);
    assert f'(id) < f(id);
    RankSumLe(f', f, r.sensors);
  }

  // ── the round ends ───────────────────────────────────────────────

  lemma StepProgress(trained: TrainingRelation, w: World, e: Event, r: Round)
    requires Trains(trained, r) && Running(w, r) && Enabled(trained, w, e) && Calm(e)
    ensures Running(Apply(trained, w, e), r) && Measure(Apply(trained, w, e), r) < Measure(w, r)
  {
    match e {
      case Deliver(id) => DeliverProgress(w, r, id);
      case Process(id, _) => ProcessProgress(w, r, id);
      case Finish(id, k, c) => FinishProgress(trained, w, r, id, k, c);
      case Accept(k, order, device) => AcceptProgress(w, r, k, order, device);
    }
  }

  /** No step of an undisturbed round is possible. */
  ghost predicate Stuck(trained: TrainingRelation, w: World) {
    forall e :: Calm(e) ==> !Enabled(trained, w, e)
  }

  /** The round has been aggregated once, and every sensor is idle with the new global weights. */
  ghost predicate RoundDone(w: World, before: World, length: nat) {
    && |w.aggregations| == |before.aggregations| + 1 && w.aggregations[..|before.aggregations|] == before.aggregations
    && var a := w.aggregations[|before.aggregations|];
       && a.result.roundId == w.coord.round == before.coord.round + 1
       && w.coord.globalWeights == Some(a.result.weights) && |a.result.weights| == length && CrashOk(w, length)
       && (forall id :: id in before.coord.sensors ==>
             && id in w.nodes && IdleNode(w.nodes[id]) && Empty(w.nodes[id])
             && w.nodes[id].sensor.weights == a.result.weights)
  }

  lemma StuckNode(trained: TrainingRelation, w: World, r: Round, id: SensorId, g: GlobalUpdate)
    requires Trains(trained, r) && Stuck(trained, w) && id in w.nodes && id in r.sensors
    requires CollectingShape(w.nodes[id], r.start, r.length) || SharingShape(w.nodes[id], g)
    ensures StageOf(w.nodes[id]).Resting?
  {
    var n := w.nodes[id];
    assert !Enabled(trained, w, Deliver(id));
    assert !Enabled(trained, w, Process(id, true));
    assert CanTrain(trained, id, r.start);
    var c :| trained(id, r.start, c);
    assert !Enabled(trained, w, Finish(id, n.inc, c));
  }

  lemma StuckIsSharing(trained: TrainingRelation, w: World, r: Round)
    requires Trains(trained, r) && Running(w, r) && Stuck(trained, w)
    ensures Sharing(w, r) && forall id :: id in r.sensors ==> StageOf(w.nodes[id]).Resting?
  {
    forall id | id in r.sensors ensures StageOf(w.nodes[id]).Resting? && (Collecting(w, r) ==> HasAnswered(w, id)) {
      assert Collecting(w, r) ==> CollectingNode(w, r, id);
      var g := if Collecting(w, r) then GlobalUpdate(0, [], 0.0) else w.aggregations[|r.before|].result;
      StuckNode(trained, w, r, id, g);
    }
    var order := if w.inbox == [] then [] else SomeListing(Collect(w.coord, w.inbox[0].update).pendingUpdates.Keys);
    assert !Enabled(trained, w, Accept(0, order, false));
  }

  /** A run of one undisturbed round. */
  ghost predicate RoundRun(trained: TrainingRelation, ws: seq<World>, es: seq<Event>) {
    && |ws| == |es| + 1 && |es| >= 1 && es[0].StartRound?
    && (forall i :: 0 <= i < |es| ==> Enabled(trained, ws[i], es[i]) && ws[i + 1] == Apply(trained, ws[i], es[i]))
    && (forall i :: 1 <= i < |es| ==> Calm(es[i]))
  }

  lemma RunProgress(trained: TrainingRelation, ws: seq<World>, es: seq<Event>, i: nat, r: Round)
    requires RoundRun(trained, ws, es) && 1 <= i < |es| && Trains(trained, r) && Running(ws[i], r)
    ensures Running(ws[i + 1], r) && Measure(ws[i + 1], r) < Measure(ws[i], r)
  {
    StepProgress(trained, ws[i], es[i], r);
  }

  lemma FirstMeasure(w: World, length: nat)
    requires AtRest(w)
    ensures Running(StartRoundWorld(w), RoundOf(w, length))
    ensures Measure(StartRoundWorld(w), RoundOf(w, length)) <= 8 * |w.coord.sensors|
  {
    StartsRunning(w, length);
    RankSumBound(RankOf(StartRoundWorld(w), |w.aggregations|), w.coord.sensors.Keys, 8);
  }

  lemma RunBegins(trained: TrainingRelation, ws: seq<World>, es: seq<Event>, length: nat)
    requires RoundRun(trained, ws, es) && AtRest(ws[0])
    ensures var r := RoundOf(ws[0], length); Running(ws[1], r) && Measure(ws[1], r) <= 8 * |ws[0].coord.sensors|
  {
    assert ws[1] == StartRoundWorld(ws[0]);
    FirstMeasure(ws[0], length);
  }

  lemma {:induction false} RoundRuns(trained: TrainingRelation, ws: seq<World>, es: seq<Event>, length: nat, i: nat)
    requires RoundRun(trained, ws, es) && AtRest(ws[0]) && Trains(trained, RoundOf(ws[0], length)) && 1 <= i < |ws|
    ensures Running(ws[i], RoundOf(ws[0], length))
    ensures Measure(ws[i], RoundOf(ws[0], length)) + i <= 8 * |ws[0].coord.sensors| + 1
  {
    var r := RoundOf(ws[0], length);
    if i == 1 {
      RunBegins(trained, ws, es, length);
    } else {
      RoundRuns(trained, ws, es, length, i - 1);
      RunProgress(trained, ws, es, i - 1, r);
    }
  }

  /** From a quiet system one undisturbed round takes at most 8 steps per sensor after its start, and
      it stops for want of a possible step exactly when it has finished. */
  lemma RoundFinishes(trained: TrainingRelation, ws: seq<World>, es: seq<Event>, length: nat)
    requires RoundRun(trained, ws, es) && AtRest(ws[0]) && Trains(trained, RoundOf(ws[0], length))
    ensures |es| <= 8 * |ws[0].coord.sensors| + 1
    ensures Stuck(trained, ws[|es|]) <==> RoundDone(ws[|es|], ws[0], length)
  {
    RoundRuns(trained, ws, es, length, |es|);
    StuckIffFinished(trained, ws[|es|], ws[0], length);
  }

  lemma StuckIffFinished(trained: TrainingRelation, w: World, before: World, length: nat)
    requires Trains(trained, RoundOf(before, length)) && Running(w, RoundOf(before, length))
    ensures Stuck(trained, w) <==> RoundDone(w, before, length)
  {
    var r := RoundOf(before, length);
    if Stuck(trained, w) { StuckIsSharing(trained, w, r); }
  }
}
