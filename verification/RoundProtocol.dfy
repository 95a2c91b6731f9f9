/** The federated-learning rounds as one distributed step machine: a coordinator, sensors that may
    crash and come back as a fresh incarnation, and lossy FIFO links between them. */
module RoundProtocol {
  import opened Basics
  import opened Counting
  import opened Messages
  import opened Sensor
  import opened Coordinator

  /** Which completions local training of a sensor may produce from a StartTraining payload. */
  type TrainingRelation = (SensorId, StartTraining, Completion) -> bool

  /** A model update on its way to the coordinator.  `origin` is auxiliary: the StartTraining payload
      that the update was really trained from. */
  datatype Envelope = Envelope(update: ModelUpdate, origin: StartTraining)

  /** One sensor.  `link` holds the coordinator's messages that have not reached it, `mailbox` those
      that have; both mailbox and behaviour stack belong to incarnation `inc`.  `workers` holds the
      running training goroutines, keyed by the incarnation whose mailbox they report to.  `lost` is
      auxiliary: a full mailbox has dropped this incarnation's completion. */
  datatype Node = Node(alive: bool, inc: nat, sensor: SensorState, mailbox: seq<SensorMsg>, link: seq<SensorMsg>,
                       workers: map<nat, StartTraining>, lost: bool)

  /** Auxiliary history: what round start sent, and how many aggregations preceded it. */
  datatype Broadcast = Broadcast(start: StartTraining, aggregationsBefore: nat)
  type Broadcasts = map<int, Broadcast>

  datatype Aggregation = Aggregation(updates: Updates, sensors: set<SensorId>, before: Weights, result: GlobalUpdate)

  /** `broadcasts`, `targets` (whom the pending round was sent to), `accepted` and `aggregations` are
      auxiliary history. */
  datatype World = World(coord: CoordState, nodes: map<SensorId, Node>, inbox: seq<Envelope>, crash: Crash,
                         broadcasts: Broadcasts, targets: set<SensorId>,
                         accepted: seq<Envelope>, aggregations: seq<Aggregation>)

  // ── what can happen to one sensor ────────────────────────────────

  /** The head of the link reaches the incarnation that is registered now, or nobody. */
  function DeliverNode(n: Node): Node
    requires n.link != []
  {
    if n.alive then n.(mailbox := n.mailbox + [n.link[0]], link := n.link[1..]) else n.(link := n.link[1..])
  }

  function DeadNode(n: Node): Node { n.(alive := false, mailbox := [], lost := false) }

  function ProcessNode(id: SensorId, n: Node, coordinatorFound: bool): Node
    requires n.alive && n.mailbox != []
  {
    var e := DispatchStep(id, n.sensor, n.mailbox[0], coordinatorFound);
    if e.panicked then DeadNode(n)
    else n.(sensor := e.state, mailbox := n.mailbox[1..],
            workers := if e.spawned.Some? then n.workers[n.inc := e.spawned.value] else n.workers)
  }

  /** A training goroutine reports to the mailbox it was started with; that of a dead incarnation
      is read by nobody. */
  function FinishNode(n: Node, k: nat, c: Completion): Node
    requires k in n.workers
  {
    var n' := n.(workers := n.workers - {k});
    if n.alive && k == n.inc then n'.(mailbox := n.mailbox + [CompleteMsg(Some(c), n.workers[k])]) else n'
  }

  function DropNode(n: Node, k: nat): Node
    requires k < |n.mailbox|
  {
    n.(mailbox := Removed(n.mailbox, k), lost := n.lost || n.mailbox[k].CompleteMsg?)
  }

  /** A fresh incarnation; the restored round number, weights and sample count are arbitrary. */
  function RespawnNode(n: Node, roundId: int, weights: Weights, samples: int): Node {
    n.(alive := true, inc := n.inc + 1, sensor := SensorState(Idle, roundId, weights, samples, []), mailbox := [],
        lost := false)
  }

  // ── the steps of the whole system ────────────────────────────────

  datatype Event =
    | Register(id: SensorId, info: SensorInfo)
    | StartRound
    | Accept(k: nat, order: seq<SensorId>, deviceFound: bool)
    | LoseUpdate(k: nat)
    | Deliver(id: SensorId)
    | LoseMessage(id: SensorId, k: nat)
    | Inject(id: SensorId, msg: SensorMsg)
    | Process(id: SensorId, coordinatorFound: bool)
    | Drop(id: SensorId, k: nat)
    | Finish(id: SensorId, k: nat, completion: Completion)
    | Kill(id: SensorId)
    | Respawn(id: SensorId, roundId: int, weights: Weights, samples: int)

  /** Messages that others than the coordinator send to a sensor. */
  predicate Foreign(msg: SensorMsg) {
    msg.StatusMsg? || msg.CrashMsg? || msg.LifecycleMsg? || msg.OtherMsg?
  }

  /** Events that concern one sensor only. */
  ghost predicate NodeEnabled(trained: TrainingRelation, n: Node, e: Event) {
    match e
    case Deliver(_) => n.link != []
    case LoseMessage(_, k) => k < |n.link|
    case Inject(_, msg) => n.alive && Foreign(msg)
    case Drop(_, k) => n.alive && k < |n.mailbox|
    case Finish(id, k, c) => k in n.workers && trained(id, n.workers[k], c)
    case Kill(_) => n.alive
    case Respawn(_, _, _, _) => !n.alive
    case _ => false
  }

  ghost function NodeAfter(trained: TrainingRelation, n: Node, e: Event): Node
    requires NodeEnabled(trained, n, e)
  {
    match e
    case Deliver(_) => DeliverNode(n)
    case LoseMessage(_, k) => n.(link := Removed(n.link, k))
    case Inject(_, msg) => n.(mailbox := n.mailbox + [msg])
    case Drop(_, k) => DropNode(n, k)
    case Finish(_, k, c) => FinishNode(n, k, c)
    case Kill(_) => DeadNode(n)
    case Respawn(_, r, weights, samples) => RespawnNode(n, r, weights, samples)
  }

  ghost predicate Enabled(trained: TrainingRelation, w: World, e: Event) {
    match e
    case Register(id, _) => w.crash.NoCrash? && id in w.nodes
    case StartRound => w.crash.NoCrash?
    case Accept(k, order, _) =>
      w.crash.NoCrash? && k < |w.inbox| && Lists(order, Collect(w.coord, w.inbox[k].update).pendingUpdates)
    case LoseUpdate(k) => k < |w.inbox|
    case Process(id, _) => id in w.nodes && w.nodes[id].alive && w.nodes[id].mailbox != []
    case _ => e.id in w.nodes && NodeEnabled(trained, w.nodes[e.id], e)
  }

  /** Every addressed sensor's link gets the message. */
  ghost function Send(nodes: map<SensorId, Node>, ids: set<SensorId>, msg: SensorMsg): map<SensorId, Node> {
    map id | id in nodes :: if id in ids then nodes[id].(link := nodes[id].link + [msg]) else nodes[id]
  }

  ghost function StartRoundWorld(w: World): World {
    var c := StartRoundStep(w.coord);
    w.(coord := c, nodes := Send(w.nodes, w.coord.sensors.Keys, StartMsg(Some(RoundStart(c)))),
       broadcasts := w.broadcasts[c.round := Broadcast(RoundStart(c), |w.aggregations|)],
       targets := w.coord.sensors.Keys)
  }

  ghost function Current(c: CoordState): Weights {
    if c.globalWeights.Some? then c.globalWeights.value else []
  }

  ghost function AcceptWorld(w: World, k: nat, order: seq<SensorId>, deviceFound: bool): World
    requires k < |w.inbox|
  {
    var env := w.inbox[k];
    var o := UpdateOutcome(w.coord, env.update, order);
    var c := UpdateStep(w.coord, env.update, order);
    var w' := w.(coord := c, inbox := Removed(w.inbox, k), crash := CrashOf(o, deviceFound),
                 accepted := if env.update.roundId == w.coord.pendingRound then w.accepted + [env] else w.accepted);
    if o.Finished? then
      w'.(nodes := Send(w.nodes, w.coord.sensors.Keys, GlobalMsg(Some(o.update))),
          aggregations := w.aggregations
                        + [Aggregation(c.pendingUpdates, w.coord.sensors.Keys, Current(w.coord), o.update)])
    else w'
  }

  /** The update, if any, that processing the next message sends to the coordinator. */
  ghost function SentBy(id: SensorId, n: Node, coordinatorFound: bool): seq<Envelope>
    requires n.alive && n.mailbox != []
  {
    var e := DispatchStep(id, n.sensor, n.mailbox[0], coordinatorFound);
    if e.sent.Some? && n.mailbox[0].CompleteMsg? then [Envelope(e.sent.value, n.mailbox[0].origin)] else []
  }

  ghost function ProcessWorld(w: World, id: SensorId, found: bool): World
    requires id in w.nodes && w.nodes[id].alive && w.nodes[id].mailbox != []
  {
    var n := w.nodes[id];
    w.(nodes := w.nodes[id := ProcessNode(id, n, found)], inbox := w.inbox + SentBy(id, n, found))
  }

  ghost function Apply(trained: TrainingRelation, w: World, e: Event): World
    requires Enabled(trained, w, e)
  {
    match e
    case Register(id, info) => w.(coord := RegisterStep(w.coord, id, info))
    case StartRound => StartRoundWorld(w)
    case Accept(k, order, device) => AcceptWorld(w, k, order, device)
    case LoseUpdate(k) => w.(inbox := Removed(w.inbox, k))
    case Process(id, found) => ProcessWorld(w, id, found)
    case _ => w.(nodes := w.nodes[e.id := NodeAfter(trained, w.nodes[e.id], e)])
  }

  /** A system before its first round: a fresh coordinator or one restored from disk, sensors idle or
      not yet spawned, nothing in flight. */
  ghost predicate Initial(w: World) {
    && w.coord.round >= 0 && w.coord.pendingRound == 0 && w.coord.pendingUpdates == map[]
    && w.coord.sensors.Keys <= w.nodes.Keys
    && (forall id :: id in w.nodes ==> InitialNode(w.nodes[id]))
    && w.inbox == [] && w.crash.NoCrash?
    && w.broadcasts == map[] && w.targets == {} && w.accepted == [] && w.aggregations == []
  }

  ghost predicate InitialNode(n: Node) {
    && n.sensor.phase == Idle && n.sensor.stack == []
    && n.mailbox == [] && n.link == [] && n.workers == map[] && !n.lost
  }

  /** A run: a sequence of worlds, each reached from the one before it by an enabled event. */
  ghost predicate Run(trained: TrainingRelation, ws: seq<World>, es: seq<Event>) {
    && |ws| == |es| + 1 && Initial(ws[0])
    && forall i :: 0 <= i < |es| ==> Enabled(trained, ws[i], es[i]) && ws[i + 1] == Apply(trained, ws[i], es[i])
  }

  // ── the invariant of one sensor ──────────────────────────────────

  predicate InTraining(n: Node) { n.alive && n.sensor.phase == Training }

  function Queue(n: Node): seq<SensorMsg> { n.mailbox + n.link }

  ghost function IsComplete(): SensorMsg -> bool { (m: SensorMsg) => m.CompleteMsg? }

  /** Unfinished training plus unread completions plus dropped ones. */
  ghost function Tokens(n: Node): nat {
    (if n.inc in n.workers then 1 else 0) + CountIf(IsComplete(), n.mailbox) + (if n.lost then 1 else 0)
  }

  ghost predicate StackOk(n: Node) {
    && (n.alive ==> Settled(n.sensor) && Tokens(n) == if InTraining(n) then 1 else 0)
    && (!n.alive ==> n.mailbox == [] && !n.lost)
    && (forall k :: k in n.workers ==> k <= n.inc)
  }

  /** A completion comes from training on what its sensor's current round sent. */
  ghost predicate GoodCompletion(trained: TrainingRelation, id: SensorId, r: int, b: Broadcasts, m: SensorMsg)
    requires m.CompleteMsg?
  {
    && r in b && m.origin == b[r].start
    && m.completion.Some? && trained(id, m.origin, m.completion.value)
  }

  ghost predicate LabelOk(trained: TrainingRelation, id: SensorId, n: Node, b: Broadcasts) {
    InTraining(n) ==>
      && n.sensor.roundId in b
      && (n.inc in n.workers ==> n.workers[n.inc] == b[n.sensor.roundId].start)
      && (forall i :: 0 <= i < |n.mailbox| && n.mailbox[i].CompleteMsg? ==>
            GoodCompletion(trained, id, n.sensor.roundId, b, n.mailbox[i]))
  }

  ghost predicate GoodStart(m: SensorMsg, b: Broadcasts)
    requires m.StartMsg?
  {
    m.start.Some? && m.start.value.roundId in b && m.start.value == b[m.start.value.roundId].start
  }

  /** Old global models come before round starts, and round starts come in increasing order. */
  ghost predicate QueueOk(q: seq<SensorMsg>, b: Broadcasts) {
    && (forall i :: 0 <= i < |q| && q[i].StartMsg? ==> GoodStart(q[i], b))
    && (forall i, j :: 0 <= i < j < |q| && q[i].StartMsg? ==>
          && !q[j].GlobalMsg?
          && (q[j].StartMsg? ==> q[i].start.value.roundId < q[j].start.value.roundId))
  }

  /** The key fact: no global model is under way to a sensor that is training, so its round number
      is not overwritten before it labels its update. */
  ghost predicate NothingOvertakes(q: seq<SensorMsg>, r: int) {
    forall i :: 0 <= i < |q| ==>
      !q[i].GlobalMsg? && (q[i].StartMsg? && q[i].start.Some? ==> r < q[i].start.value.roundId)
  }

  ghost predicate NoStart(q: seq<SensorMsg>) {
    forall i :: 0 <= i < |q| ==> !q[i].StartMsg?
  }

  ghost predicate NoStartOf(q: seq<SensorMsg>, r: int) {
    forall i :: 0 <= i < |q| && q[i].StartMsg? && q[i].start.Some? ==> q[i].start.value.roundId != r
  }

  /** What the coordinator's messages under way to a sensor look like.  `training` and `roundId` are
      the sensor's, `targeted` says that the pending round was sent to it, `answered` that it has
      already answered that round. */
  ghost predicate WireOk(q: seq<SensorMsg>, training: bool, roundId: int, b: Broadcasts, pending: int,
                         targeted: bool, answered: bool)
  {
    && QueueOk(q, b)
    && (training ==> NothingOvertakes(q, roundId))
    && (answered ==> !training && NoStart(q))
    && (!targeted ==> !(training && roundId == pending) && NoStartOf(q, pending))
  }

  ghost predicate LinkOk(link: seq<SensorMsg>) {
    forall i :: 0 <= i < |link| ==> link[i].StartMsg? || link[i].GlobalMsg?
  }

  /** What concerns the sensor's own state, mailbox and goroutines. */
  ghost predicate BoxOk(trained: TrainingRelation, id: SensorId, n: Node, b: Broadcasts) {
    StackOk(n) && LabelOk(trained, id, n, b) && LinkOk(n.link)
  }

  ghost predicate NodeInv(trained: TrainingRelation, id: SensorId, n: Node, pending: int, b: Broadcasts,
                          targets: set<SensorId>, answered: bool)
  {
    && BoxOk(trained, id, n, b)
    && WireOk(Queue(n), InTraining(n), n.sensor.roundId, b, pending, id in targets, answered)
  }

  // ── the invariant of the system ──────────────────────────────────

  ghost function CompletionOf(u: ModelUpdate): Completion { Completion(u.weights, u.loss, u.numSamples) }

  /** The update was trained from exactly what the round it is labelled with sent out. */
  ghost predicate TrainedFrom(trained: TrainingRelation, u: ModelUpdate, b: Broadcasts) {
    u.roundId in b && trained(u.sensorId, b[u.roundId].start, CompletionOf(u))
  }

  ghost predicate GoodEnvelope(trained: TrainingRelation, e: Envelope, b: Broadcasts) {
    TrainedFrom(trained, e.update, b) && e.origin == b[e.update.roundId].start
  }

  predicate Answers(e: Envelope, id: SensorId, pending: int) {
    e.update.sensorId == id && e.update.roundId == pending
  }

  ghost predicate Answered(w: World, id: SensorId) {
    || id in w.coord.pendingUpdates
    || exists k :: 0 <= k < |w.inbox| && Answers(w.inbox[k], id, w.coord.pendingRound)
  }

  ghost predicate InboxOk(trained: TrainingRelation, w: World) {
    && (forall k :: 0 <= k < |w.inbox| ==> GoodEnvelope(trained, w.inbox[k], w.broadcasts))
    && (forall k :: 0 <= k < |w.inbox| && w.inbox[k].update.roundId == w.coord.pendingRound ==>
          w.inbox[k].update.sensorId in w.targets && w.inbox[k].update.sensorId !in w.coord.pendingUpdates)
    && (forall j, k :: 0 <= j < k < |w.inbox| && w.inbox[k].update.roundId == w.coord.pendingRound ==>
          !Answers(w.inbox[j], w.inbox[k].update.sensorId, w.coord.pendingRound))
  }

  ghost predicate PendingOk(trained: TrainingRelation, w: World) {
    && w.coord.pendingUpdates.Keys <= w.targets <= w.coord.sensors.Keys <= w.nodes.Keys
    && (w.targets != {} ==> w.coord.pendingRound == w.coord.round && w.coord.pendingRound in w.broadcasts)
    && w.coord.pendingRound <= w.coord.round
    && (forall r :: r in w.broadcasts ==> r <= w.coord.pendingRound && w.broadcasts[r].start.roundId == r)
    && (forall id :: id in w.coord.pendingUpdates ==> PendingUpdateOk(trained, w, id))
  }

  ghost predicate PendingUpdateOk(trained: TrainingRelation, w: World, id: SensorId)
    requires id in w.coord.pendingUpdates
  {
    var u := w.coord.pendingUpdates[id];
    u.sensorId == id && u.roundId == w.coord.pendingRound && TrainedFrom(trained, u, w.broadcasts)
  }

  ghost predicate HistoryOk(trained: TrainingRelation, w: World) {
    && (forall k :: 0 <= k < |w.accepted| ==> GoodEnvelope(trained, w.accepted[k], w.broadcasts))
    && (forall k :: 0 <= k < |w.aggregations| ==> w.aggregations[k].updates.Keys == w.aggregations[k].sensors)
    && (forall j, k :: 0 <= j < k < |w.aggregations| ==>
          w.aggregations[j].result.roundId < w.aggregations[k].result.roundId)
    && (forall k :: 0 <= k < |w.aggregations| ==> w.aggregations[k].result.roundId <= w.coord.pendingRound)
    && (AggregatedPending(w) ==> w.targets <= w.coord.pendingUpdates.Keys)
    && (w.targets != {} && !AggregatedPending(w) && w.coord.pendingRound in w.broadcasts ==>
          w.broadcasts[w.coord.pendingRound].aggregationsBefore == |w.aggregations|)
  }

  /** The pending round has been aggregated. */
  ghost predicate AggregatedPending(w: World) {
    |w.aggregations| > 0 && w.aggregations[|w.aggregations| - 1].result.roundId == w.coord.pendingRound
  }

  ghost predicate NodeOk(trained: TrainingRelation, w: World, id: SensorId)
    requires id in w.nodes
  {
    NodeInv(trained, id, w.nodes[id], w.coord.pendingRound, w.broadcasts, w.targets, Answered(w, id))
  }

  ghost predicate NodesOk(trained: TrainingRelation, w: World) {
    forall id :: id in w.nodes ==> NodeOk(trained, w, id)
  }

  /** The part of the invariant that does not look inside the sensors. */
  ghost predicate CoreOk(trained: TrainingRelation, w: World) {
    InboxOk(trained, w) && PendingOk(trained, w) && HistoryOk(trained, w)
  }

  ghost predicate Inv(trained: TrainingRelation, w: World) {
    NodesOk(trained, w) && CoreOk(trained, w)
  }
}
