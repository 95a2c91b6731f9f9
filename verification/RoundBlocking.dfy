/** When a disturbed round can no longer finish: a registered sensor that has not answered and will not
    train for the pending round blocks it until the next start. */
module RoundBlocking {
  import opened Basics
  import opened Messages
  import opened Sensor
  import opened Coordinator
  import opened RoundProtocol
  import opened RoundSafety

  /** The sensor does not train for round r, and no start of r is on its way to it. */
  ghost predicate Silent(n: Node, r: int) {
    !(InTraining(n) && n.sensor.roundId == r) && NoStartOf(Queue(n), r)
  }

  /** A registered sensor from which no answer to the pending round is there or can come. */
  ghost predicate Blocks(w: World, id: SensorId) {
    && id in w.coord.sensors && id in w.nodes
    && !Answered(w, id) && Silent(w.nodes[id], w.coord.pendingRound)
  }

  // ── one sensor ───────────────────────────────────────────────────

  lemma SilentQueue(q: seq<SensorMsg>, q': seq<SensorMsg>, r: int)
    requires NoStartOf(q, r)
    requires forall i :: 0 <= i < |q'| ==> q'[i] in q || !q'[i].StartMsg?
    ensures NoStartOf(q', r)
  {
  }

  lemma SilentAfter(trained: TrainingRelation, n: Node, e: Event, r: int)
    requires NodeEnabled(trained, n, e) && Silent(n, r)
    ensures Silent(NodeAfter(trained, n, e), r)
  {
    var n' := NodeAfter(trained, n, e);
    forall i | 0 <= i < |Queue(n')| ensures Queue(n')[i] in Queue(n) || !Queue(n')[i].StartMsg? {
      assert Queue(n')[i] == if i < |n'.mailbox| then n'.mailbox[i] else n'.link[i - |n'.mailbox|];
    }
    SilentQueue(Queue(n), Queue(n'), r);
  }

  /** A silent sensor stays silent when it processes a message, and sends no answer. */
  lemma SilentProcess(trained: TrainingRelation, id: SensorId, n: Node, found: bool, pending: int, b: Broadcasts,
                      ts: set<SensorId>, ans: bool)
    requires NodeInv(trained, id, n, pending, b, ts, ans) && n.alive && n.mailbox != [] && Silent(n, pending)
    ensures Silent(ProcessNode(id, n, found), pending)
    ensures forall k :: 0 <= k < |SentBy(id, n, found)| ==> !Answers(SentBy(id, n, found)[k], id, pending)
  {
    var m, n' := n.mailbox[0], ProcessNode(id, n, found);
    DispatchSettles(id, n.sensor, m, found);
    assert Queue(n)[0] == m;
    forall i | 0 <= i < |Queue(n')| ensures Queue(n')[i] in Queue(n) {
      if i < |n'.mailbox| {
        assert Queue(n')[i] == n.mailbox[i + 1] == Queue(n)[i + 1];
      } else {
        assert Queue(n')[i] == n.link[i - |n'.mailbox|] == Queue(n)[i - |n'.mailbox| + |n.mailbox|];
      }
    }
    SilentQueue(Queue(n), Queue(n'), pending);
  }

  // ── the whole system ─────────────────────────────────────────────

  lemma BlocksAccept(trained: TrainingRelation, w: World, k: nat, order: seq<SensorId>, device: bool, id: SensorId)
    requires Inv(trained, w) && k < |w.inbox| && Blocks(w, id)
    ensures Blocks(AcceptWorld(w, k, order, device), id)
    ensures !UpdateOutcome(w.coord, w.inbox[k].update, order).Finished?
  {
    var w' := AcceptWorld(w, k, order, device);
    if w.inbox[k].update.roundId == w.coord.pendingRound {
      AcceptedAnswers(w, k, order, device, id);
      CoversAt(trained, w, k, order, device);
    } else {
      BlocksLose(w, w', k, id);
    }
  }

  lemma BlocksLose(w: World, w': World, k: nat, id: SensorId)
    requires Blocks(w, id) && k < |w.inbox|
    requires w'.inbox == Removed(w.inbox, k) && w'.nodes == w.nodes && w'.coord == w.coord
    ensures Blocks(w', id)
  {
    forall i | 0 <= i < |w'.inbox| ensures !Answers(w'.inbox[i], id, w.coord.pendingRound) {
      assert w'.inbox[i] == w.inbox[if i < k then i else i + 1];
    }
  }

  lemma BlocksProcess(trained: TrainingRelation, w: World, x: SensorId, found: bool, id: SensorId)
    requires Inv(trained, w) && x in w.nodes && w.nodes[x].alive && w.nodes[x].mailbox != [] && Blocks(w, id)
    ensures Blocks(ProcessWorld(w, x, found), id)
  {
    var p, b, ts := w.coord.pendingRound, w.broadcasts, w.targets;
    var sent := SentBy(x, w.nodes[x], found);
    assert NodeOk(trained, w, x);
    ProcessKeeps(trained, x, w.nodes[x], found, p, b, ts, Answered(w, x));
    if x == id { SilentProcess(trained, id, w.nodes[id], found, p, b, ts, Answered(w, id)); }
    MoreAnswers(w, ProcessWorld(w, x, found), sent, id);
  }

  /** Only a new round start frees the round. */
  lemma BlocksStep(trained: TrainingRelation, w: World, e: Event, id: SensorId)
    requires Inv(trained, w) && Enabled(trained, w, e) && Blocks(w, id) && !e.StartRound?
    ensures Blocks(Apply(trained, w, e), id)
  {
    if e.Accept? {
      BlocksAccept(trained, w, e.k, e.order, e.deviceFound, id);
    } else if e.Process? {
      BlocksProcess(trained, w, e.id, e.coordinatorFound, id);
    } else {
      BlocksOther(trained, w, e, id);
    }
  }

  lemma BlocksOther(trained: TrainingRelation, w: World, e: Event, id: SensorId)
    requires Enabled(trained, w, e) && Blocks(w, id) && !e.StartRound? && !e.Accept? && !e.Process?
    ensures Blocks(Apply(trained, w, e), id)
  {
    if e.Register? {
      BlocksRegister(w, e.id, e.info, id);
    } else if e.LoseUpdate? {
      BlocksLose(w, w.(inbox := Removed(w.inbox, e.k)), e.k, id);
    } else {
      BlocksNode(trained, w, e, id);
    }
  }

  lemma BlocksRegister(w: World, x: SensorId, info: SensorInfo, id: SensorId)
    requires Blocks(w, id)
    ensures Blocks(w.(coord := RegisterStep(w.coord, x, info)), id)
  {
  }

  lemma BlocksNode(trained: TrainingRelation, w: World, e: Event, id: SensorId)
    requires Blocks(w, id)
    requires !e.Register? && !e.StartRound? && !e.Accept? && !e.LoseUpdate? && !e.Process?
    requires e.id in w.nodes && NodeEnabled(trained, w.nodes[e.id], e)
    ensures Blocks(w.(nodes := w.nodes[e.id := NodeAfter(trained, w.nodes[e.id], e)]), id)
  {
    if e.id == id { SilentAfter(trained, w.nodes[id], e, w.coord.pendingRound); }
  }

  lemma RunBlocksStep(trained: TrainingRelation, ws: seq<World>, es: seq<Event>, i: nat, id: SensorId)
    requires Run(trained, ws, es) && i < |es| && Blocks(ws[i], id) && !es[i].StartRound?
    ensures Blocks(ws[i + 1], id) && !AggregatesAt(trained, ws, es, i)
  {
    RunInv(trained, ws, es, i);
    BlocksStep(trained, ws[i], es[i], id);
    if es[i].Accept? { BlocksAccept(trained, ws[i], es[i].k, es[i].order, es[i].deviceFound, id); }
  }

  /** In every run, a blocking sensor still blocks at j if no round has started since i, and event j then
      aggregates nothing. */
  lemma BlockedUntilStart(trained: TrainingRelation, ws: seq<World>, es: seq<Event>, i: nat, j: nat, id: SensorId)
    requires Run(trained, ws, es) && i <= j < |ws| && Blocks(ws[i], id)
    requires forall k :: i <= k < j ==> !es[k].StartRound?
    ensures Blocks(ws[j], id) && !AggregatesAt(trained, ws, es, j)
  {
    var blocks := seq(|ws|, k requires 0 <= k < |ws| => Blocks(ws[k], id));
    forall k | i <= k < j && blocks[k] ensures blocks[k + 1] { RunBlocksStep(trained, ws, es, k, id); }
    StaysTrue(blocks, i, j);
    if j < |es| && !es[j].StartRound? { RunBlocksStep(trained, ws, es, j, id); }
  }

  lemma {:induction false} StaysTrue(holds: seq<bool>, i: nat, j: nat)
    requires i <= j < |holds| && holds[i]
    requires forall k :: i <= k < j && holds[k] ==> holds[k + 1]
    ensures holds[j]
    decreases j
  {
    if i < j { StaysTrue(holds, i, j - 1); }
  }

  /** A sensor that registers while a round is pending blocks it. */
  lemma LateRegistrationBlocks(trained: TrainingRelation, ws: seq<World>, es: seq<Event>, i: nat, id: SensorId)
    requires Run(trained, ws, es) && i < |ws| && id in ws[i].coord.sensors && id !in ws[i].targets
    ensures Blocks(ws[i], id)
  {
    RunInv(trained, ws, es, i);
    assert NodeOk(trained, ws[i], id);
  }

  /** So a round is aggregated only for exactly the sensors that it was sent to: none has missed it. */
  lemma NobodyMissesAggregation(trained: TrainingRelation, ws: seq<World>, es: seq<Event>, i: nat)
    requires Run(trained, ws, es)
    ensures AggregatesAt(trained, ws, es, i) ==> ws[i].coord.sensors.Keys == ws[i].targets
  {
    if AggregatesAt(trained, ws, es, i) {
      RunInv(trained, ws, es, i);
      forall id | id in ws[i].coord.sensors.Keys ensures id in ws[i].targets {
        if id !in ws[i].targets {
          LateRegistrationBlocks(trained, ws, es, i, id);
          BlocksAccept(trained, ws[i], es[i].k, es[i].order, es[i].deviceFound, id);
        }
      }
    }
  }
}
