/** Every step of the round protocol keeps its invariant; hence, in every run, updates are labelled
    with the round they were trained for and each round is aggregated at most once. */
module RoundSafety {
  import opened Basics
  import opened Counting
  import opened Messages
  import opened Sensor
  import opened Coordinator
  import opened RoundProtocol

  // ── the messages under way to a sensor ───────────────────────────

  /** A message is lost or consumed. */
  lemma WireRemove(q: seq<SensorMsg>, k: nat, training: bool, r: int, b: Broadcasts, pending: int, targeted: bool,
                   ans: bool)
    requires WireOk(q, training, r, b, pending, targeted, ans) && k < |q|
    ensures WireOk(Removed(q, k), training, r, b, pending, targeted, ans)
  {
    var q' := Removed(q, k);
    forall i | 0 <= i < |q'| ensures q'[i] == q[if i < k then i else i + 1] {}
  }

  /** A message that is neither a round start nor a global model does not matter. */
  lemma WireInsert(front: seq<SensorMsg>, m: SensorMsg, back: seq<SensorMsg>, training: bool, r: int,
                   b: Broadcasts, pending: int, targeted: bool, ans: bool)
    requires !m.StartMsg? && !m.GlobalMsg? && WireOk(front + back, training, r, b, pending, targeted, ans)
    ensures WireOk(front + [m] + back, training, r, b, pending, targeted, ans)
  {
    var q, q' := front + back, front + [m] + back;
    forall i | 0 <= i < |q'| && i != |front| ensures q'[i] == q[if i < |front| then i else i - 1] {}
  }

  /** The incarnation dies, and its mailbox with it. */
  lemma WireSuffix(front: seq<SensorMsg>, back: seq<SensorMsg>, training: bool, r: int, b: Broadcasts,
                   pending: int, targeted: bool, ans: bool)
    requires WireOk(front + back, training, r, b, pending, targeted, ans)
    ensures WireOk(back, false, r, b, pending, targeted, ans)
  {
    var q := front + back;
    forall i | 0 <= i < |back| ensures back[i] == q[|front| + i] {}
  }

  /** A new round is announced to the sensor, or passes it by. */
  lemma WireStart(q: seq<SensorMsg>, training: bool, r: int, b: Broadcasts, pending: int, targeted: bool, ans: bool,
                  round: int, cast: Broadcast)
    requires WireOk(q, training, r, b, pending, targeted, ans)
    requires forall k :: k in b ==> k <= pending && b[k].start.roundId == k
    requires round > pending && cast.start.roundId == round && (training ==> r in b)
    ensures WireOk(q, training, r, b[round := cast], round, false, false)
    ensures WireOk(q + [StartMsg(Some(cast.start))], training, r, b[round := cast], round, true, false)
  {
    forall i | 0 <= i < |q| && q[i].StartMsg?
      ensures GoodStart(q[i], b[round := cast]) && q[i].start.value.roundId < round
    {
      assert GoodStart(q[i], b);
    }
  }

  // ── one sensor, one step ─────────────────────────────────────────

  lemma LinkRemove(mailbox: seq<SensorMsg>, link: seq<SensorMsg>, k: nat)
    requires k < |link|
    ensures LinkOk(link) ==> LinkOk(Removed(link, k))
    ensures mailbox + Removed(link, k) == Removed(mailbox + link, |mailbox| + k)
  {
    var l := Removed(link, k);
    forall i | 0 <= i < |l| ensures l[i] == link[if i < k then i else i + 1] {}
  }

  lemma LinkRemoveKeeps(trained: TrainingRelation, id: SensorId, n: Node, k: nat, pending: int, b: Broadcasts,
                        ts: set<SensorId>, ans: bool)
    requires NodeInv(trained, id, n, pending, b, ts, ans) && k < |n.link|
    ensures NodeInv(trained, id, n.(link := Removed(n.link, k)), pending, b, ts, ans)
  {
    LinkRemove(n.mailbox, n.link, k);
    WireRemove(Queue(n), |n.mailbox| + k, InTraining(n), n.sensor.roundId, b, pending, id in ts, ans);
  }

  /** A message that is no completion enters the mailbox. */
  lemma BoxAppend(trained: TrainingRelation, id: SensorId, n: Node, m: SensorMsg, b: Broadcasts)
    requires BoxOk(trained, id, n, b) && n.alive && !m.CompleteMsg?
    ensures BoxOk(trained, id, n.(mailbox := n.mailbox + [m]), b)
  {
    CountAppend(IsComplete(), n.mailbox, [m]);
  }

  lemma DeliverKeeps(trained: TrainingRelation, id: SensorId, n: Node, pending: int, b: Broadcasts,
                     ts: set<SensorId>, ans: bool)
    requires NodeInv(trained, id, n, pending, b, ts, ans) && n.link != []
    ensures NodeInv(trained, id, DeliverNode(n), pending, b, ts, ans)
  {
    if n.alive {
      assert Queue(DeliverNode(n)) == Queue(n);
      BoxAppend(trained, id, n, n.link[0], b);
    } else {
      LinkRemoveKeeps(trained, id, n, 0, pending, b, ts, ans);
      assert Removed(n.link, 0) == n.link[1..];
    }
  }

  lemma DropKeeps(trained: TrainingRelation, id: SensorId, n: Node, k: nat, pending: int, b: Broadcasts,
                  ts: set<SensorId>, ans: bool)
    requires NodeInv(trained, id, n, pending, b, ts, ans) && n.alive && k < |n.mailbox|
    ensures NodeInv(trained, id, DropNode(n, k), pending, b, ts, ans)
  {
    assert Queue(DropNode(n, k)) == Removed(Queue(n), k);
    WireRemove(Queue(n), k, InTraining(n), n.sensor.roundId, b, pending, id in ts, ans);
    CountRemove(IsComplete(), n.mailbox, k);
  }

  lemma InjectKeeps(trained: TrainingRelation, id: SensorId, n: Node, m: SensorMsg, pending: int, b: Broadcasts,
                    ts: set<SensorId>, ans: bool)
    requires NodeInv(trained, id, n, pending, b, ts, ans) && n.alive && Foreign(m)
    ensures NodeInv(trained, id, n.(mailbox := n.mailbox + [m]), pending, b, ts, ans)
  {
    BoxAppend(trained, id, n, m, b);
    WireInsert(n.mailbox, m, n.link, InTraining(n), n.sensor.roundId, b, pending, id in ts, ans);
  }

  lemma FinishKeeps(trained: TrainingRelation, id: SensorId, n: Node, k: nat, c: Completion, pending: int,
                    b: Broadcasts, ts: set<SensorId>, ans: bool)
    requires NodeInv(trained, id, n, pending, b, ts, ans) && k in n.workers && trained(id, n.workers[k], c)
    ensures NodeInv(trained, id, FinishNode(n, k, c), pending, b, ts, ans)
  {
    if n.alive && k == n.inc {
      var m := CompleteMsg(Some(c), n.workers[k]);
      WireInsert(n.mailbox, m, n.link, InTraining(n), n.sensor.roundId, b, pending, id in ts, ans);
      BoxFinish(trained, id, n, c, b);
    }
  }

  lemma BoxFinish(trained: TrainingRelation, id: SensorId, n: Node, c: Completion, b: Broadcasts)
    requires BoxOk(trained, id, n, b) && n.alive && n.inc in n.workers && trained(id, n.workers[n.inc], c)
    ensures BoxOk(trained, id, FinishNode(n, n.inc, c), b)
  {
    var m := CompleteMsg(Some(c), n.workers[n.inc]);
    CountAppend(IsComplete(), n.mailbox, [m]);
  }

  lemma KillKeeps(trained: TrainingRelation, id: SensorId, n: Node, pending: int, b: Broadcasts, ts: set<SensorId>,
                  ans: bool)
    requires NodeInv(trained, id, n, pending, b, ts, ans)
    ensures NodeInv(trained, id, DeadNode(n), pending, b, ts, ans)
  {
    assert Queue(DeadNode(n)) == n.link;
    WireSuffix(n.mailbox, n.link, InTraining(n), n.sensor.roundId, b, pending, id in ts, ans);
  }

  // ── a sensor processes its next message ──────────────────────────

  lemma NoCompletes(mailbox: seq<SensorMsg>)
    requires CountIf(IsComplete(), mailbox) == 0
    ensures forall i :: 0 <= i < |mailbox| ==> !mailbox[i].CompleteMsg?
  {
    forall i | 0 <= i < |mailbox| ensures !mailbox[i].CompleteMsg? {
      if mailbox[i].CompleteMsg? { CountPositive(IsComplete(), mailbox, i); }
    }
  }

  /** Taking the next message off the queue. */
  lemma NextOffQueue(n: Node, found: bool, id: SensorId)
    requires n.alive && n.mailbox != [] && !n.mailbox[0].CrashMsg? && Settled(n.sensor)
    ensures Queue(ProcessNode(id, n, found)) == Queue(n)[1..] == Removed(Queue(n), 0)
    ensures Queue(n)[0] == n.mailbox[0]
  {
    DispatchSettles(id, n.sensor, n.mailbox[0], found);
  }

  /** Processing the next message keeps the sensor's invariant.  A completion is labelled with the
      round it was trained for, and answers that round for the first and only time. */
  lemma ProcessKeeps(trained: TrainingRelation, id: SensorId, n: Node, found: bool, pending: int, b: Broadcasts,
                     ts: set<SensorId>, ans: bool)
    requires NodeInv(trained, id, n, pending, b, ts, ans) && n.alive && n.mailbox != []
    requires forall r :: r in b ==> r <= pending && b[r].start.roundId == r
    ensures var sent := SentBy(id, n, found);
            && |sent| <= 1
            && (|sent| == 1 ==>
                  && GoodEnvelope(trained, sent[0], b) && sent[0].update.sensorId == id
                  && (sent[0].update.roundId == pending ==> !ans && id in ts))
            && NodeInv(trained, id, ProcessNode(id, n, found), pending, b, ts,
                       ans || (|sent| == 1 && sent[0].update.roundId == pending))
  {
    var m := n.mailbox[0];
    if m.CrashMsg? {
      DispatchSettles(id, n.sensor, m, found);
      KillKeeps(trained, id, n, pending, b, ts, ans);
    } else if InTraining(n) && m.CompleteMsg? {
      CompleteKeeps(trained, id, n, found, pending, b, ts, ans);
    } else if !InTraining(n) && m.StartMsg? {
      StartKeeps(trained, id, n, found, pending, b, ts, ans);
    } else {
      OtherKeeps(trained, id, n, found, pending, b, ts, ans);
    }
  }

  lemma OtherKeeps(trained: TrainingRelation, id: SensorId, n: Node, found: bool, pending: int, b: Broadcasts,
                   ts: set<SensorId>, ans: bool)
    requires NodeInv(trained, id, n, pending, b, ts, ans) && n.alive && n.mailbox != []
    requires !n.mailbox[0].CrashMsg? && !n.mailbox[0].CompleteMsg?
    requires n.mailbox[0].StartMsg? ==> InTraining(n)
    ensures NodeInv(trained, id, ProcessNode(id, n, found), pending, b, ts, ans)
    ensures SentBy(id, n, found) == []
  {
    var m, n' := n.mailbox[0], ProcessNode(id, n, found);
    NextOffQueue(n, found, id);
    WireRemove(Queue(n), 0, InTraining(n), n.sensor.roundId, b, pending, id in ts, ans);
    DispatchSettles(id, n.sensor, m, found);
    if InTraining(n) {
      assert !m.GlobalMsg? && n'.sensor == n.sensor;
    }
  }

  lemma StartKeeps(trained: TrainingRelation, id: SensorId, n: Node, found: bool, pending: int, b: Broadcasts,
                   ts: set<SensorId>, ans: bool)
    requires NodeInv(trained, id, n, pending, b, ts, ans) && n.alive && n.mailbox != []
    requires n.mailbox[0].StartMsg? && !InTraining(n)
    ensures NodeInv(trained, id, ProcessNode(id, n, found), pending, b, ts, ans)
    ensures SentBy(id, n, found) == []
  {
    var m, n' := n.mailbox[0], ProcessNode(id, n, found);
    NextOffQueue(n, found, id);
    BoxStart(trained, id, n, found, b);
    WireBegin(Queue(n), n.sensor.roundId, b, pending, id in ts, ans);
  }

  lemma BoxStart(trained: TrainingRelation, id: SensorId, n: Node, found: bool, b: Broadcasts)
    requires BoxOk(trained, id, n, b) && n.alive && n.mailbox != []
    requires n.mailbox[0].StartMsg? && !InTraining(n) && GoodStart(n.mailbox[0], b)
    ensures BoxOk(trained, id, ProcessNode(id, n, found), b)
    ensures InTraining(ProcessNode(id, n, found)) && SentBy(id, n, found) == []
    ensures ProcessNode(id, n, found).sensor.roundId == n.mailbox[0].start.value.roundId
  {
    var m, n' := n.mailbox[0], ProcessNode(id, n, found);
    DispatchSettles(id, n.sensor, m, found);
    NoCompletes(n'.mailbox);
    assert n'.workers[n'.inc] == m.start.value;
  }

  /** An idle sensor takes the next start off its queue and trains for it. */
  lemma WireBegin(q: seq<SensorMsg>, roundId: int, b: Broadcasts, pending: int, targeted: bool, answered: bool)
    requires WireOk(q, false, roundId, b, pending, targeted, answered) && q != [] && q[0].StartMsg?
    ensures GoodStart(q[0], b)
    ensures WireOk(q[1..], true, q[0].start.value.roundId, b, pending, targeted, answered)
  {
  }

  lemma CompleteKeeps(trained: TrainingRelation, id: SensorId, n: Node, found: bool, pending: int, b: Broadcasts,
                      ts: set<SensorId>, ans: bool)
    requires NodeInv(trained, id, n, pending, b, ts, ans) && n.mailbox != []
    requires n.mailbox[0].CompleteMsg? && InTraining(n)
    requires forall r :: r in b ==> r <= pending && b[r].start.roundId == r
    ensures NodeInv(trained, id, ProcessNode(id, n, found), pending, b, ts, ans || n.sensor.roundId == pending)
    ensures var sent := SentBy(id, n, found);
            && !ans && |sent| <= 1
            && (|sent| == 1 ==>
                  && GoodEnvelope(trained, sent[0], b) && sent[0].update.sensorId == id
                  && sent[0].update.roundId == n.sensor.roundId
                  && (n.sensor.roundId == pending ==> id in ts))
  {
    var m, n' := n.mailbox[0], ProcessNode(id, n, found);
    assert GoodCompletion(trained, id, n.sensor.roundId, b, m);
    NextOffQueue(n, found, id);
    WireRemove(Queue(n), 0, true, n.sensor.roundId, b, pending, id in ts, ans);
    DispatchSettles(id, n.sensor, m, found);
    assert !InTraining(n');
  }

  // ── changes seen by all sensors at once ──────────────────────────

  /** A sensor's invariant survives news of other sensors' answers. */
  lemma AnsweredWeaker(trained: TrainingRelation, id: SensorId, n: Node, pending: int, b: Broadcasts,
                       ts: set<SensorId>, ans: bool, ans': bool)
    requires NodeInv(trained, id, n, pending, b, ts, ans) && (ans' ==> ans)
    ensures NodeInv(trained, id, n, pending, b, ts, ans')
  {
  }

  /** A new round reaches a sensor's link, or passes it by. */
  lemma RoundStartKeeps(trained: TrainingRelation, id: SensorId, n: Node, pending: int, b: Broadcasts,
                        ts: set<SensorId>, ans: bool,
                        r: int, cast: Broadcast, ts': set<SensorId>)
    requires NodeInv(trained, id, n, pending, b, ts, ans)
    requires forall k :: k in b ==> k <= pending && b[k].start.roundId == k
    requires r > pending && cast.start.roundId == r
    ensures var n' := if id in ts' then n.(link := n.link + [StartMsg(Some(cast.start))]) else n;
            NodeInv(trained, id, n', r, b[r := cast], ts', false)
  {
    var m := StartMsg(Some(cast.start));
    assert n.mailbox + (n.link + [m]) == Queue(n) + [m];
    WireStart(Queue(n), InTraining(n), n.sensor.roundId, b, pending, id in ts, ans, r, cast);
  }

  lemma GlobalKeeps(trained: TrainingRelation, id: SensorId, n: Node, pending: int, b: Broadcasts,
                    ts: set<SensorId>, g: GlobalUpdate)
    requires NodeInv(trained, id, n, pending, b, ts, true)
    ensures NodeInv(trained, id, n.(link := n.link + [GlobalMsg(Some(g))]), pending, b, ts, true)
  {
    var m := GlobalMsg(Some(g));
    assert n.mailbox + (n.link + [m]) == Queue(n) + [m];
  }

  // ── the whole system, one step ───────────────────────────────────

  /** Nothing but the sensors' own states changed. */
  lemma CoreIgnoresNodes(trained: TrainingRelation, w: World, nodes: map<SensorId, Node>)
    requires CoreOk(trained, w) && nodes.Keys == w.nodes.Keys
    ensures CoreOk(trained, w.(nodes := nodes))
  {
    var w' := w.(nodes := nodes);
    forall x | x in w'.coord.pendingUpdates ensures PendingUpdateOk(trained, w', x) {
      assert PendingUpdateOk(trained, w, x);
    }
  }

  /** A step that only changes node `id`, and neither the coordinator nor the messages to it. */
  lemma NodeStepKeeps(trained: TrainingRelation, w: World, id: SensorId, n': Node)
    requires Inv(trained, w) && id in w.nodes
    requires NodeInv(trained, id, n', w.coord.pendingRound, w.broadcasts, w.targets, Answered(w, id))
    ensures Inv(trained, w.(nodes := w.nodes[id := n']))
  {
    var w' := w.(nodes := w.nodes[id := n']);
    assert w'.nodes.Keys == w.nodes.Keys;
    assert forall x :: Answered(w', x) <==> Answered(w, x);
    CoreIgnoresNodes(trained, w, w'.nodes);
  }

  lemma RegisterKeeps(trained: TrainingRelation, w: World, id: SensorId, info: SensorInfo)
    requires Inv(trained, w) && id in w.nodes
    ensures Inv(trained, w.(coord := RegisterStep(w.coord, id, info)))
  {
    var w' := w.(coord := RegisterStep(w.coord, id, info));
    assert forall x :: Answered(w', x) <==> Answered(w, x);
    RegisterCore(trained, w, id, info);
  }

  lemma RegisterCore(trained: TrainingRelation, w: World, id: SensorId, info: SensorInfo)
    requires CoreOk(trained, w) && id in w.nodes
    ensures CoreOk(trained, w.(coord := RegisterStep(w.coord, id, info)))
  {
    var w' := w.(coord := RegisterStep(w.coord, id, info));
    forall x | x in w'.coord.pendingUpdates ensures PendingUpdateOk(trained, w', x) {
      assert PendingUpdateOk(trained, w, x);
    }
  }

  lemma InboxRemove(trained: TrainingRelation, w: World, k: nat)
    requires InboxOk(trained, w) && k < |w.inbox|
    ensures InboxOk(trained, w.(inbox := Removed(w.inbox, k)))
  {
    var w' := w.(inbox := Removed(w.inbox, k));
    forall i | 0 <= i < |w'.inbox| ensures w'.inbox[i] == w.inbox[if i < k then i else i + 1] {}
  }

  lemma LoseUpdateKeeps(trained: TrainingRelation, w: World, k: nat)
    requires Inv(trained, w) && k < |w.inbox|
    ensures Inv(trained, w.(inbox := Removed(w.inbox, k)))
  {
    var w' := w.(inbox := Removed(w.inbox, k));
    LoseUpdateCore(trained, w, k);
    forall x | x in w'.nodes ensures NodeOk(trained, w', x) {
      assert NodeOk(trained, w, x);
      AnsweredWeaker(trained, x, w.nodes[x], w.coord.pendingRound, w.broadcasts, w.targets, Answered(w, x),
                     Answered(w', x));
    }
  }

  lemma LoseUpdateCore(trained: TrainingRelation, w: World, k: nat)
    requires CoreOk(trained, w) && k < |w.inbox|
    ensures CoreOk(trained, w.(inbox := Removed(w.inbox, k)))
  {
    var w' := w.(inbox := Removed(w.inbox, k));
    InboxRemove(trained, w, k);
    forall x | x in w'.coord.pendingUpdates ensures PendingUpdateOk(trained, w', x) {
      assert PendingUpdateOk(trained, w, x);
    }
  }

  // ── a new round ──────────────────────────────────────────────────

  lemma StartRoundCore(trained: TrainingRelation, w: World)
    requires CoreOk(trained, w)
    ensures CoreOk(trained, StartRoundWorld(w))
    ensures forall id :: !Answered(StartRoundWorld(w), id)
  {
    var w' := StartRoundWorld(w);
    forall k | 0 <= k < |w.inbox|
      ensures GoodEnvelope(trained, w.inbox[k], w'.broadcasts) && w.inbox[k].update.roundId < w'.coord.round
    {
      assert GoodEnvelope(trained, w.inbox[k], w.broadcasts);
    }
    forall k | 0 <= k < |w.accepted| ensures GoodEnvelope(trained, w.accepted[k], w'.broadcasts) {
      assert GoodEnvelope(trained, w.accepted[k], w.broadcasts);
    }
    assert w'.nodes.Keys == w.nodes.Keys;
  }

  lemma StartRoundKeeps(trained: TrainingRelation, w: World)
    requires Inv(trained, w)
    ensures Inv(trained, StartRoundWorld(w))
  {
    StartRoundCore(trained, w);
    var w' := StartRoundWorld(w);
    forall id | id in w'.nodes ensures NodeOk(trained, w', id) {
      assert NodeOk(trained, w, id);
      RoundStartKeeps(trained, id, w.nodes[id], w.coord.pendingRound, w.broadcasts, w.targets, Answered(w, id),
                      w'.coord.round, w'.broadcasts[w'.coord.round], w'.targets);
    }
  }

  // ── a sensor processes a message ─────────────────────────────────

  lemma MoreAnswers(w: World, w': World, sent: seq<Envelope>, x: SensorId)
    requires |sent| <= 1 && w'.inbox == w.inbox + sent && w'.coord == w.coord
    ensures Answered(w', x) <==> Answered(w, x) || (|sent| == 1 && Answers(sent[0], x, w.coord.pendingRound))
  {
    var r := w.coord.pendingRound;
    if |sent| == 1 && Answers(sent[0], x, r) { assert Answers(w'.inbox[|w.inbox|], x, r); }
    if Answered(w, x) && x !in w.coord.pendingUpdates {
      var k :| 0 <= k < |w.inbox| && Answers(w.inbox[k], x, r);
      assert Answers(w'.inbox[k], x, r);
    }
  }

  lemma SentCore(trained: TrainingRelation, w: World, nodes: map<SensorId, Node>, sent: seq<Envelope>)
    requires CoreOk(trained, w) && nodes.Keys == w.nodes.Keys && |sent| <= 1
    requires |sent| == 1 ==>
               && GoodEnvelope(trained, sent[0], w.broadcasts)
               && (sent[0].update.roundId == w.coord.pendingRound ==>
                     !Answered(w, sent[0].update.sensorId) && sent[0].update.sensorId in w.targets)
    ensures CoreOk(trained, w.(nodes := nodes, inbox := w.inbox + sent))
  {
    var w' := w.(nodes := nodes, inbox := w.inbox + sent);
    var r := w.coord.pendingRound;
    assert |sent| == 1 && sent[0].update.roundId == r ==>
             forall j :: 0 <= j < |w.inbox| ==> !Answers(w.inbox[j], sent[0].update.sensorId, r);
    forall x | x in w'.coord.pendingUpdates ensures PendingUpdateOk(trained, w', x) {
      assert PendingUpdateOk(trained, w, x);
    }
  }

  lemma ProcessWorldKeeps(trained: TrainingRelation, w: World, id: SensorId, found: bool)
    requires Inv(trained, w) && id in w.nodes && w.nodes[id].alive && w.nodes[id].mailbox != []
    ensures Inv(trained, ProcessWorld(w, id, found))
  {
    var n, n', sent := w.nodes[id], ProcessNode(id, w.nodes[id], found), SentBy(id, w.nodes[id], found);
    assert NodeOk(trained, w, id);
    ProcessKeeps(trained, id, n, found, w.coord.pendingRound, w.broadcasts, w.targets, Answered(w, id));
    SentKeeps(trained, w, id, n', sent);
  }

  lemma SentKeeps(trained: TrainingRelation, w: World, id: SensorId, n': Node, sent: seq<Envelope>)
    requires Inv(trained, w) && id in w.nodes && |sent| <= 1
    requires |sent| == 1 ==>
               && GoodEnvelope(trained, sent[0], w.broadcasts) && sent[0].update.sensorId == id
               && (sent[0].update.roundId == w.coord.pendingRound ==> !Answered(w, id) && id in w.targets)
    requires NodeInv(trained, id, n', w.coord.pendingRound, w.broadcasts, w.targets,
                     Answered(w, id) || (|sent| == 1 && sent[0].update.roundId == w.coord.pendingRound))
    ensures Inv(trained, w.(nodes := w.nodes[id := n'], inbox := w.inbox + sent))
  {
    assert w.nodes[id := n'].Keys == w.nodes.Keys;
    SentCore(trained, w, w.nodes[id := n'], sent);
    SentNodes(trained, w, id, n', sent);
  }

  /** One sensor moves on and may send an answer; the others see no difference. */
  lemma SentNodes(trained: TrainingRelation, w: World, id: SensorId, n': Node, sent: seq<Envelope>)
    requires NodesOk(trained, w) && id in w.nodes && |sent| <= 1
    requires |sent| == 1 ==> sent[0].update.sensorId == id
    requires NodeInv(trained, id, n', w.coord.pendingRound, w.broadcasts, w.targets,
                     Answered(w, id) || (|sent| == 1 && sent[0].update.roundId == w.coord.pendingRound))
    ensures NodesOk(trained, w.(nodes := w.nodes[id := n'], inbox := w.inbox + sent))
  {
    var w' := w.(nodes := w.nodes[id := n'], inbox := w.inbox + sent);
    forall x ensures Answered(w', x) <==> Answered(w, x) || (|sent| == 1 && Answers(sent[0], x, w.coord.pendingRound)) {
      MoreAnswers(w, w', sent, x);
    }
  }

  // ── the coordinator takes an update ──────────────────────────────

  lemma AcceptInbox(trained: TrainingRelation, w: World, k: nat, order: seq<SensorId>, device: bool)
    requires InboxOk(trained, w) && k < |w.inbox| && w.inbox[k].update.roundId == w.coord.pendingRound
    ensures InboxOk(trained, AcceptWorld(w, k, order, device))
  {
    var w', id := AcceptWorld(w, k, order, device), w.inbox[k].update.sensorId;
    InboxRemove(trained, w, k);
    assert w'.coord.pendingUpdates == w.coord.pendingUpdates[id := w.inbox[k].update];
    forall i | 0 <= i < |w'.inbox| ensures w'.inbox[i] == w.inbox[if i < k then i else i + 1] {}
    forall i | 0 <= i < |w'.inbox| && w'.inbox[i].update.roundId == w.coord.pendingRound
      ensures w'.inbox[i].update.sensorId != id
    {
      if i < k {
        assert !Answers(w.inbox[i], id, w.coord.pendingRound);
      } else {
        assert !Answers(w.inbox[k], w.inbox[i + 1].update.sensorId, w.coord.pendingRound);
      }
    }
  }

  lemma AcceptPending(trained: TrainingRelation, w: World, k: nat, order: seq<SensorId>, device: bool)
    requires CoreOk(trained, w) && k < |w.inbox| && w.inbox[k].update.roundId == w.coord.pendingRound
    ensures PendingOk(trained, AcceptWorld(w, k, order, device))
  {
    var w', env := AcceptWorld(w, k, order, device), w.inbox[k];
    var id := env.update.sensorId;
    assert w'.coord.pendingUpdates == w.coord.pendingUpdates[id := env.update];
    assert w'.nodes.Keys == w.nodes.Keys;
    forall x | x in w'.coord.pendingUpdates ensures PendingUpdateOk(trained, w', x) {
      if x != id { assert PendingUpdateOk(trained, w, x); } else { assert GoodEnvelope(trained, env, w.broadcasts); }
    }
  }

  /** A round is complete only when exactly the registered sensors have answered. */
  lemma FinishedCovers(trained: TrainingRelation, w: World, k: nat)
    requires PendingOk(trained, w) && k < |w.inbox| && Completes(w.coord, w.inbox[k].update)
    requires w.inbox[k].update.sensorId in w.targets
    ensures Collect(w.coord, w.inbox[k].update).pendingUpdates.Keys == w.coord.sensors.Keys
  {
    var m := Collect(w.coord, w.inbox[k].update).pendingUpdates;
    assert |m.Keys| == |m|;
    assert |w.coord.sensors.Keys| == |w.coord.sensors|;
    SameSize(m.Keys, w.coord.sensors.Keys);
  }

  lemma AcceptHistory(trained: TrainingRelation, w: World, k: nat, order: seq<SensorId>, device: bool)
    requires CoreOk(trained, w) && k < |w.inbox| && w.inbox[k].update.roundId == w.coord.pendingRound
    ensures HistoryOk(trained, AcceptWorld(w, k, order, device))
    ensures UpdateOutcome(w.coord, w.inbox[k].update, order).Finished? ==>
              AcceptWorld(w, k, order, device).coord.pendingUpdates.Keys == w.coord.sensors.Keys
  {
    var w', env := AcceptWorld(w, k, order, device), w.inbox[k];
    assert env.update.sensorId in w.targets && env.update.sensorId !in w.coord.pendingUpdates;
    assert !AggregatedPending(w);
    assert GoodEnvelope(trained, env, w.broadcasts);
    if UpdateOutcome(w.coord, env.update, order).Finished? {
      FinishedCovers(trained, w, k);
      HistoryGrows(trained, w, w');
    }
  }

  lemma HistoryGrows(trained: TrainingRelation, w: World, w': World)
    requires HistoryOk(trained, w) && !AggregatedPending(w)
    requires w'.broadcasts == w.broadcasts && w'.targets == w.targets && w'.coord.pendingRound == w.coord.pendingRound
    requires |w'.aggregations| == |w.aggregations| + 1 && w'.aggregations[..|w.aggregations|] == w.aggregations
    requires var a := w'.aggregations[|w.aggregations|];
             a.updates.Keys == a.sensors && a.result.roundId == w.coord.pendingRound
    requires w'.targets <= w'.coord.pendingUpdates.Keys
    requires forall k :: 0 <= k < |w'.accepted| ==> GoodEnvelope(trained, w'.accepted[k], w'.broadcasts)
    ensures HistoryOk(trained, w')
  {
    forall k | 0 <= k < |w.aggregations| ensures w'.aggregations[k] == w.aggregations[k] {
      assert w'.aggregations[k] == w'.aggregations[..|w.aggregations|][k];
    }
    assert |w.aggregations| > 0 ==> w.aggregations[|w.aggregations| - 1].result.roundId < w.coord.pendingRound;
  }

  lemma AcceptedAnswers(w: World, k: nat, order: seq<SensorId>, device: bool, x: SensorId)
    requires k < |w.inbox| && w.inbox[k].update.roundId == w.coord.pendingRound
    ensures Answered(AcceptWorld(w, k, order, device), x) ==> Answered(w, x)
    ensures x in AcceptWorld(w, k, order, device).coord.pendingUpdates ==> Answered(w, x)
  {
    var w' := AcceptWorld(w, k, order, device);
    assert w'.coord.pendingUpdates == w.coord.pendingUpdates[w.inbox[k].update.sensorId := w.inbox[k].update];
    if x == w.inbox[k].update.sensorId {
      assert Answers(w.inbox[k], x, w.coord.pendingRound);
    }
  }

  lemma AcceptNodes(trained: TrainingRelation, w: World, k: nat, order: seq<SensorId>, device: bool)
    requires Inv(trained, w) && k < |w.inbox| && w.inbox[k].update.roundId == w.coord.pendingRound
    ensures NodesOk(trained, AcceptWorld(w, k, order, device))
  {
    var w' := AcceptWorld(w, k, order, device);
    forall x | x in w'.nodes ensures NodeOk(trained, w', x) {
      AcceptNode(trained, w, k, order, device, x);
    }
  }

  lemma AcceptNode(trained: TrainingRelation, w: World, k: nat, order: seq<SensorId>, device: bool, x: SensorId)
    requires Inv(trained, w) && k < |w.inbox| && w.inbox[k].update.roundId == w.coord.pendingRound
    requires x in w.nodes
    ensures NodeOk(trained, AcceptWorld(w, k, order, device), x)
  {
    var w', o := AcceptWorld(w, k, order, device), UpdateOutcome(w.coord, w.inbox[k].update, order);
    AcceptHistory(trained, w, k, order, device);
    AcceptedAnswers(w, k, order, device, x);
    assert NodeOk(trained, w, x);
    if o.Finished? && x in w.coord.sensors.Keys {
      GlobalKeeps(trained, x, w.nodes[x], w.coord.pendingRound, w.broadcasts, w.targets, o.update);
    }
    AnsweredWeaker(trained, x, w'.nodes[x], w.coord.pendingRound, w.broadcasts, w.targets, Answered(w, x),
        Answered(w', x));
  }

  lemma AcceptKeeps(trained: TrainingRelation, w: World, k: nat, order: seq<SensorId>, device: bool)
    requires Inv(trained, w) && k < |w.inbox|
    ensures Inv(trained, AcceptWorld(w, k, order, device))
  {
    if w.inbox[k].update.roundId != w.coord.pendingRound {
      LoseUpdateKeeps(trained, w, k);
      CrashUnseen(trained, w.(inbox := Removed(w.inbox, k)), AcceptWorld(w, k, order, device));
    } else {
      AcceptInbox(trained, w, k, order, device);
      AcceptPending(trained, w, k, order, device);
      AcceptHistory(trained, w, k, order, device);
      AcceptNodes(trained, w, k, order, device);
    }
  }

  lemma CrashUnseen(trained: TrainingRelation, w: World, w': World)
    requires Inv(trained, w) && w' == w.(crash := w'.crash)
    ensures Inv(trained, w')
  {
    assert forall x :: Answered(w', x) <==> Answered(w, x);
    CoreIgnoresCrash(trained, w, w');
  }

  lemma CoreIgnoresCrash(trained: TrainingRelation, w: World, w': World)
    requires CoreOk(trained, w) && w' == w.(crash := w'.crash)
    ensures CoreOk(trained, w')
  {
    forall x | x in w'.coord.pendingUpdates ensures PendingUpdateOk(trained, w', x) {
      assert PendingUpdateOk(trained, w, x);
    }
  }

  // ── every run ────────────────────────────────────────────────────

  /** Every enabled event keeps the invariant. */
  lemma StepKeepsInv(trained: TrainingRelation, w: World, e: Event)
    requires Inv(trained, w) && Enabled(trained, w, e)
    ensures Inv(trained, Apply(trained, w, e))
  {
    match e
    case Register(id, info) => RegisterKeeps(trained, w, id, info);
    case StartRound => StartRoundKeeps(trained, w);
    case Accept(k, order, device) => AcceptKeeps(trained, w, k, order, device);
    case LoseUpdate(k) => LoseUpdateKeeps(trained, w, k);
    case Process(id, found) => ProcessWorldKeeps(trained, w, id, found);
    case _ => SensorStepKeeps(trained, w, e);
  }

  /** The events that concern one sensor and nobody else. */
  lemma SensorStepKeeps(trained: TrainingRelation, w: World, e: Event)
    requires Inv(trained, w) && Enabled(trained, w, e)
    requires !e.Register? && !e.StartRound? && !e.Accept? && !e.LoseUpdate? && !e.Process?
    ensures Inv(trained, Apply(trained, w, e))
  {
    assert NodeOk(trained, w, e.id);
    NodeAfterKeeps(trained, w.nodes[e.id], e, w.coord.pendingRound, w.broadcasts, w.targets, Answered(w, e.id));
    NodeStepKeeps(trained, w, e.id, NodeAfter(trained, w.nodes[e.id], e));
  }

  lemma NodeAfterKeeps(trained: TrainingRelation, n: Node, e: Event, p: int, b: Broadcasts, ts: set<SensorId>,
                       ans: bool)
    requires NodeEnabled(trained, n, e) && NodeInv(trained, e.id, n, p, b, ts, ans)
    ensures NodeInv(trained, e.id, NodeAfter(trained, n, e), p, b, ts, ans)
  {
    match e {
      case Deliver(id) => DeliverKeeps(trained, id, n, p, b, ts, ans);
      case LoseMessage(id, k) => LinkRemoveKeeps(trained, id, n, k, p, b, ts, ans);
      case Inject(id, m) => InjectKeeps(trained, id, n, m, p, b, ts, ans);
      case Drop(id, k) => DropKeeps(trained, id, n, k, p, b, ts, ans);
      case Finish(id, k, c) => FinishKeeps(trained, id, n, k, c, p, b, ts, ans);
      case Kill(id) => KillKeeps(trained, id, n, p, b, ts, ans);
      case Respawn(_, _, _, _) =>
    }
  }

  lemma {:induction false} RunInv(trained: TrainingRelation, ws: seq<World>, es: seq<Event>, i: nat)
    requires Run(trained, ws, es) && i < |ws|
    ensures Inv(trained, ws[i])
  {
    if i == 0 {
    } else {
      RunInv(trained, ws, es, i - 1);
      StepKeepsInv(trained, ws[i - 1], es[i - 1]);
    }
  }

  // ── what the invariant gives in every run ────────────────────────

  /** No global model is ever handled while its sensor is training, so `roundId` is never
      relabelled mid-training. */
  lemma NoGlobalModelWhileTraining(trained: TrainingRelation, ws: seq<World>, es: seq<Event>, i: nat)
    requires Run(trained, ws, es) && i < |es| && es[i].Process?
    ensures InTraining(ws[i].nodes[es[i].id]) ==> !ws[i].nodes[es[i].id].mailbox[0].GlobalMsg?
  {
    RunInv(trained, ws, es, i);
    var n := ws[i].nodes[es[i].id];
    assert NodeOk(trained, ws[i], es[i].id);
    assert Queue(n)[0] == n.mailbox[0];
  }

  /** Between messages a sensor is idle exactly when its behaviour stack is empty, and training
      exactly when the stack is [training]; then one goroutine or one completion is outstanding,
      unless a full mailbox dropped the completion. */
  lemma SensorStackExact(trained: TrainingRelation, ws: seq<World>, es: seq<Event>, i: nat, id: SensorId)
    requires Run(trained, ws, es) && i < |ws| && id in ws[i].nodes && ws[i].nodes[id].alive
    ensures var n := ws[i].nodes[id];
            && (n.sensor.phase == Idle <==> n.sensor.stack == [])
            && (n.sensor.phase == Training <==> n.sensor.stack == [TrainingBehavior])
            && (n.sensor.phase == Idle || n.sensor.phase == Training)
            && Tokens(n) == if n.sensor.phase == Training then 1 else 0
  {
    RunInv(trained, ws, es, i);
    assert NodeOk(trained, ws[i], id);
  }

  /** Event j starts round r with message s: the next number, the global weights of that moment, and
      the rate and the epochs that the coordinator was configured with. */
  ghost predicate StartedAt(ws: seq<World>, es: seq<Event>, r: int, s: StartTraining, j: nat)
    requires |ws| == |es| + 1
  {
    && j < |es| && es[j].StartRound? && s.roundId == r == ws[j].coord.round + 1
    && s.weights == (if ws[j].coord.globalWeights.Some? then ws[j].coord.globalWeights.value else [])
    && s.learningRate == ws[0].coord.learningRate && s.epochs == ws[0].coord.numEpochs
  }

  lemma {:induction false} ConfigKept(trained: TrainingRelation, ws: seq<World>, es: seq<Event>, i: nat)
    requires Run(trained, ws, es) && i < |ws|
    ensures ws[i].coord.learningRate == ws[0].coord.learningRate && ws[i].coord.numEpochs == ws[0].coord.numEpochs
  {
    if i > 0 {
      ConfigKept(trained, ws, es, i - 1);
      assert ws[i] == Apply(trained, ws[i - 1], es[i - 1]);
    }
  }

  lemma {:induction false} BroadcastsAreRoundStarts(trained: TrainingRelation, ws: seq<World>, es: seq<Event>,
        i: nat, r: int) returns (j: nat)
    requires Run(trained, ws, es) && i < |ws| && r in ws[i].broadcasts
    decreases i
    ensures j < i && StartedAt(ws, es, r, ws[i].broadcasts[r].start, j)
  {
    BroadcastStep(trained, ws[i - 1], es[i - 1], r);
    if es[i - 1].StartRound? && r == ws[i].coord.round {
      ConfigKept(trained, ws, es, i - 1);
      j := i - 1;
    } else {
      j := BroadcastsAreRoundStarts(trained, ws, es, i - 1, r);
    }
  }

  lemma BroadcastStep(trained: TrainingRelation, w: World, e: Event, r: int)
    requires Enabled(trained, w, e) && r in Apply(trained, w, e).broadcasts
    ensures var w' := Apply(trained, w, e);
            if e.StartRound? && r == w'.coord.round then w'.broadcasts[r].start == RoundStart(w'.coord)
            else r in w.broadcasts && w.broadcasts[r] == w'.broadcasts[r]
  {
  }

  /** In every run, each update that the coordinator accepts for the pending round r was trained from
      exactly what round r's start sent to its sensor. */
  lemma AcceptedUpdatesAreLabelled(trained: TrainingRelation, ws: seq<World>, es: seq<Event>, i: nat) returns (j: nat)
    requires Run(trained, ws, es) && i < |es| && es[i].Accept?
    requires ws[i].inbox[es[i].k].update.roundId == ws[i].coord.pendingRound
    ensures var u, s := ws[i].inbox[es[i].k].update, ws[i].inbox[es[i].k].origin;
            j < i && StartedAt(ws, es, u.roundId, s, j) && trained(u.sensorId, s, CompletionOf(u))
  {
    RunInv(trained, ws, es, i);
    var env := ws[i].inbox[es[i].k];
    assert GoodEnvelope(trained, env, ws[i].broadcasts);
    j := BroadcastsAreRoundStarts(trained, ws, es, i, env.update.roundId);
  }

  lemma {:induction false} AggregationsGrow(trained: TrainingRelation, ws: seq<World>, es: seq<Event>, i: nat, j: nat)
    requires Run(trained, ws, es) && i <= j < |ws|
    ensures ws[i].aggregations <= ws[j].aggregations
    decreases j
  {
    if i < j {
      AggregationsGrow(trained, ws, es, i, j - 1);
    }
  }

  /** The outcome of the coordinator's handling of event i. */
  ghost function OutcomeAt(ws: seq<World>, es: seq<Event>, i: nat): Outcome
    requires |ws| == |es| + 1 && i < |es| && es[i].Accept? && es[i].k < |ws[i].inbox|
  {
    UpdateOutcome(ws[i].coord, ws[i].inbox[es[i].k].update, es[i].order)
  }

  ghost predicate AggregatesAt(trained: TrainingRelation, ws: seq<World>, es: seq<Event>, i: nat)
    requires Run(trained, ws, es)
  {
    i < |es| && es[i].Accept? && OutcomeAt(ws, es, i).Finished?
  }

  /** At each aggregation exactly the registered sensors have answered. */
  lemma AggregationCoversSensors(trained: TrainingRelation, ws: seq<World>, es: seq<Event>, i: nat)
    requires Run(trained, ws, es)
    ensures AggregatesAt(trained, ws, es, i) ==>
              && ws[i + 1].coord.pendingUpdates.Keys == ws[i].coord.sensors.Keys
              && OutcomeAt(ws, es, i).update.roundId == ws[i].coord.pendingRound
  {
    if AggregatesAt(trained, ws, es, i) {
      RunInv(trained, ws, es, i);
      CoversAt(trained, ws[i], es[i].k, es[i].order, es[i].deviceFound);
    }
  }

  lemma CoversAt(trained: TrainingRelation, w: World, k: nat, order: seq<SensorId>, device: bool)
    requires Inv(trained, w) && k < |w.inbox|
    ensures var o := UpdateOutcome(w.coord, w.inbox[k].update, order);
            o.Finished? ==>
              && AcceptWorld(w, k, order, device).coord.pendingUpdates.Keys == w.coord.sensors.Keys
              && o.update.roundId == w.coord.pendingRound
  {
    if UpdateOutcome(w.coord, w.inbox[k].update, order).Finished? { FinishedCovers(trained, w, k); }
  }

  /** Each round number is aggregated at most once, and the aggregated numbers strictly increase. */
  lemma AggregatedRoundsIncrease(trained: TrainingRelation, ws: seq<World>, es: seq<Event>, i: nat, j: nat)
    requires Run(trained, ws, es) && i < j
    ensures AggregatesAt(trained, ws, es, i) && AggregatesAt(trained, ws, es, j) ==>
              OutcomeAt(ws, es, i).update.roundId < OutcomeAt(ws, es, j).update.roundId
  {
    if AggregatesAt(trained, ws, es, i) && AggregatesAt(trained, ws, es, j) {
      var a, b := ws[i + 1].aggregations, ws[j + 1].aggregations;
      AggregationsGrow(trained, ws, es, i + 1, j);
      RunHistory(trained, ws, es, j + 1);
      AggregationRecorded(ws[i], es[i].k, es[i].order, es[i].deviceFound);
      AggregationRecorded(ws[j], es[j].k, es[j].order, es[j].deviceFound);
      assert |a| < |b| && b[|a| - 1] == a[|a| - 1];
    }
  }

  lemma RunHistory(trained: TrainingRelation, ws: seq<World>, es: seq<Event>, i: nat)
    requires Run(trained, ws, es) && i < |ws|
    ensures HistoryOk(trained, ws[i])
  {
    RunInv(trained, ws, es, i);
  }

  lemma AggregationRecorded(w: World, k: nat, order: seq<SensorId>, device: bool)
    requires k < |w.inbox|
    ensures var o, a := UpdateOutcome(w.coord, w.inbox[k].update, order), AcceptWorld(w, k, order, device).aggregations;
            o.Finished? ==> |a| == |w.aggregations| + 1 && w.aggregations <= a && a[|w.aggregations|].result == o.update
  {
  }
}
