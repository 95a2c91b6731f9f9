/** Which factory the supervisor holds for an actor: in every run it is the one that the last message or
    restart about the actor left, and a failure is answered with it. */
module FactoryHistory {
  import opened Lifecycle
  import opened Strategy
  import opened Supervision
  import opened SupervisionSafety

  ghost predicate HasFactory(s: SupState, x: ActorId, f: Factory) { x in s.factories && s.factories[x] == f }

  /** Event e handles the registration of x with factory f, or completes a restart of x with it. */
  ghost predicate Gives(w: World, e: Event, x: ActorId, f: Factory)
    requires SupEnabled(w, e)
  {
    (e.Handle? && w.queue[0] == RegisterMsg(x, f)) || (e.Settle? && w.pc == Respawned(x, f))
  }

  /** Event e handles the unregistration of x, or a failure of x after which the strategy stops because
      too many of the tracked failures lie in its window. */
  ghost predicate Takes(c: Config, w: World, e: Event, w': World, x: ActorId)
    requires SupEnabled(w, e)
  {
    e.Handle? && (w.queue[0] == UnregisterMsg(x)
                  || (w.queue[0] == Failed(x) && c.strategy.Escalation?
                      && TooMany(c.strategy.maxRetries, c.strategy.within, FailuresOf(w'.sup.failures, x), e.later)))
  }

  ghost predicate Touches(c: Config, w: World, e: Event, w': World, x: ActorId)
    requires SupEnabled(w, e)
  {
    Takes(c, w, e, w', x) || exists f :: Gives(w, e, x, f)
  }

  lemma FailureKeepsFactory(c: Config, w: World, x: ActorId, f: Factory, now: Time, later: Time, found: bool)
    requires w.pc.Waiting? && w.queue != [] && w.queue[0].Failed?
    ensures var e, w' := Handle(now, later, found), HandleWorld(c, w, now, later, found);
            HasFactory(w'.sup, x, f) <==> HasFactory(w.sup, x, f) && !Takes(c, w, e, w', x)
  {
    var id := w.queue[0].id;
    var (sup, r) := FailureStep(c.strategy, w.sup, id, now, later);
    assert React(c, w.(queue := w.queue[1..], sup := sup), id, r, found).sup == sup;
    if id in w.sup.factories && !c.strategy.ExponentialBackoff? {
      DecisionByCount(c.strategy, FailuresOf(sup.failures, id), later);
    }
  }

  lemma FactoryStep(c: Config, w: World, e: Event, x: ActorId, f: Factory)
    requires SupEnabled(w, e)
    ensures var w' := SupApply(c, w, e);
            HasFactory(w'.sup, x, f) <==> Gives(w, e, x, f) || (HasFactory(w.sup, x, f) && !Touches(c, w, e, w', x))
  {
    var w' := SupApply(c, w, e);
    if e.Handle? && w.queue[0].Failed? {
      FailureKeepsFactory(c, w, x, f, e.now, e.later, e.found);
    } else if e.Handle? && w.queue[0].RegisterMsg? && w.queue[0].id == x {
      assert Gives(w, e, x, w.queue[0].factory);
    } else if e.Settle? && w.pc.id == x {
      assert Gives(w, e, x, w.pc.factory);
    }
  }

  /** Event j gives x the factory f, and no event from there to i gives or takes x another. */
  ghost predicate GivenAt(c: Config, x: ActorId, f: Factory, ws: seq<World>, es: seq<Event>, i: nat, j: nat)
    requires FreeRun(c, ws, es) && i < |ws|
  {
    j < i && Gives(ws[j], es[j], x, f) && Untouched(c, x, ws, es, j + 1, i)
  }

  ghost predicate Untouched(c: Config, x: ActorId, ws: seq<World>, es: seq<Event>, j: nat, i: nat)
    requires FreeRun(c, ws, es) && i < |ws|
  {
    forall k :: j <= k < i ==> !TouchedAt(c, x, ws, es, k)
  }

  ghost predicate TouchedAt(c: Config, x: ActorId, ws: seq<World>, es: seq<Event>, k: int)
    requires FreeRun(c, ws, es) && 0 <= k < |es|
  {
    Touches(c, ws[k], es[k], ws[k + 1], x)
  }

  lemma {:induction false} KeptSince(c: Config, x: ActorId, f: Factory, ws: seq<World>, es: seq<Event>, j: nat, i: nat)
    requires FreeRun(c, ws, es) && j <= i < |ws| && Untouched(c, x, ws, es, j, i) && HasFactory(ws[j].sup, x, f)
    ensures HasFactory(ws[i].sup, x, f)
    decreases i
  {
    if j < i {
      KeptSince(c, x, f, ws, es, j, i - 1);
      StepOfRun(c, x, f, ws, es, i - 1);
    }
  }

  lemma StepOfRun(c: Config, x: ActorId, f: Factory, ws: seq<World>, es: seq<Event>, k: nat)
    requires FreeRun(c, ws, es) && k < |es|
    ensures HasFactory(ws[k + 1].sup, x, f) <==>
            Gives(ws[k], es[k], x, f) || (HasFactory(ws[k].sup, x, f) && !TouchedAt(c, x, ws, es, k))
  {
    FactoryStep(c, ws[k], es[k], x, f);
  }

  lemma {:induction false} ComesFrom(c: Config, x: ActorId, f: Factory, ws: seq<World>, es: seq<Event>, i: nat)
    requires FreeRun(c, ws, es) && i < |ws| && HasFactory(ws[i].sup, x, f)
    ensures (exists j: nat :: GivenAt(c, x, f, ws, es, i, j))
            || (Untouched(c, x, ws, es, 0, i) && HasFactory(ws[0].sup, x, f))
  {
    if i > 0 {
      var k: nat := i - 1;
      StepOfRun(c, x, f, ws, es, k);
      if Gives(ws[k], es[k], x, f) {
        assert GivenAt(c, x, f, ws, es, i, k);
      } else {
        ComesFrom(c, x, f, ws, es, k);
        if j: nat :| GivenAt(c, x, f, ws, es, k, j) { assert GivenAt(c, x, f, ws, es, i, j); }
      }
    }
  }

  /** In every run, the supervisor holds factory f for x iff the last registration, completed restart,
      unregistration or stop of x was a registration or a restart with f, or there was none and it has
      held f from the start. */
  lemma FactoryIff(c: Config, x: ActorId, f: Factory, ws: seq<World>, es: seq<Event>, i: nat)
    requires FreeRun(c, ws, es) && i < |ws|
    ensures HasFactory(ws[i].sup, x, f) <==>
            (exists j: nat :: GivenAt(c, x, f, ws, es, i, j))
            || (Untouched(c, x, ws, es, 0, i) && HasFactory(ws[0].sup, x, f))
  {
    if HasFactory(ws[i].sup, x, f) {
      ComesFrom(c, x, f, ws, es, i);
    } else if j: nat :| GivenAt(c, x, f, ws, es, i, j) {
      GivenIsHeld(c, x, f, ws, es, i, j);
    } else if Untouched(c, x, ws, es, 0, i) && HasFactory(ws[0].sup, x, f) {
      KeptSince(c, x, f, ws, es, 0, i);
    }
  }

  lemma GivenIsHeld(c: Config, x: ActorId, f: Factory, ws: seq<World>, es: seq<Event>, i: nat, j: nat)
    requires FreeRun(c, ws, es) && i < |ws| && GivenAt(c, x, f, ws, es, i, j)
    ensures HasFactory(ws[i].sup, x, f)
  {
    StepOfRun(c, x, f, ws, es, j);
    KeptSince(c, x, f, ws, es, j + 1, i);
  }

  /** A failure that is handled after a registration with f, with nothing else about x in between, is
      answered with f: at once or after the delay, whatever the strategy decides short of escalating. */
  lemma RestartsWithGiven(c: Config, x: ActorId, f: Factory, ws: seq<World>, es: seq<Event>, i: nat, j: nat)
    requires FreeRun(c, ws, es) && i < |es| && GivenAt(c, x, f, ws, es, i, j)
    requires es[i].Handle? && ws[i].queue[0] == Failed(x)
    ensures var known := FailuresOf(ws[i + 1].sup.failures, x);
            var d := Decide(c.strategy, known, es[i].later);
            && known == Recent(FailuresOf(ws[i].sup.failures, x) + [es[i].now], es[i].now - 30_000_000_000)
            && (d.Restart? && d.delay <= 0 ==> ws[i + 1].pc == Respawning(x, f) && ws[i + 1].timers == ws[i].timers)
            && (d.Restart? && d.delay > 0 ==>
                  ws[i + 1].pc == Waiting && ws[i + 1].timers == ws[i].timers + [Timer(x, f)])
  {
    GivenIsHeld(c, x, f, ws, es, i, j);
    assert ws[i + 1] == HandleWorld(c, ws[i], es[i].now, es[i].later, es[i].found);
    FailureReacts(c, ws[i], x, es[i].now, es[i].later, es[i].found);
  }

  lemma FailureReacts(c: Config, w: World, x: ActorId, now: Time, later: Time, found: bool)
    requires w.pc.Waiting? && w.queue != [] && w.queue[0] == Failed(x) && x in w.sup.factories
    ensures var w', f := HandleWorld(c, w, now, later, found), w.sup.factories[x];
            var known := FailuresOf(w'.sup.failures, x);
            var d := Decide(c.strategy, known, later);
            && known == Recent(FailuresOf(w.sup.failures, x) + [now], now - 30_000_000_000)
            && (d.Restart? && d.delay <= 0 ==> w'.pc == Respawning(x, f) && w'.timers == w.timers)
            && (d.Restart? && d.delay > 0 ==> w'.pc == Waiting && w'.timers == w.timers + [Timer(x, f)])
  {
  }

  /** With the supervisor as the only one who respawns x, every such failure is answered with f, if the
      strategy is not Escalation: OneForOne at once, ExponentialBackoff after its first delay. */
  lemma RegisteredIsRestarted(c: Config, x: ActorId, f: Factory, ws: seq<World>, es: seq<Event>, i: nat, j: nat)
    requires SupRun(c, x, ws, es) && i < |es| && GivenAt(c, x, f, ws, es, i, j) && !c.strategy.Escalation?
    requires es[i].Handle? && ws[i].queue[0] == Failed(x)
    ensures ws[i + 1].pc == Respawning(x, f) || ws[i + 1].timers == ws[i].timers + [Timer(x, f)]
    ensures c.strategy.OneForOne? ==> ws[i + 1].pc == Respawning(x, f)
  {
    GivenIsHeld(c, x, f, ws, es, i, j);
    RestartsWithGiven(c, x, f, ws, es, i, j);
    RunTokens(c, x, ws, es, i);
    RunHistory(c, x, ws, es, i);
    FailureIsAlone(ws[i], x);
    SingleFailure(es[i].now);
    SingleDecision(c.strategy, es[i].now, es[i].later);
  }
}
