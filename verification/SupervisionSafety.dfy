/** What supervision keeps under every interleaving: one token of life per supervised actor. */
module SupervisionSafety {
  import opened Basics
  import opened Counting
  import opened Lifecycle
  import opened Strategy
  import opened Supervision

  // ── counting ─────────────────────────────────────────────────────

  /** Incarnations of x that live, or that failed and have not told the supervisor yet. */
  ghost function Carries(x: ActorId): Entry -> bool {
    (en: Entry) => en.id == x && (Live(en.phase) || en.phase.Unnotified?)
  }

  /** Messages that can lead to a restart of x. */
  ghost function Asks(x: ActorId): SupMsg -> bool {
    (m: SupMsg) => (m.Failed? || m.Delayed?) && m.id == x
  }

  ghost function IsDelayed(x: ActorId): SupMsg -> bool { (m: SupMsg) => m.Delayed? && m.id == x }

  ghost function TimerOf(x: ActorId): Timer -> bool { (t: Timer) => t.id == x }

  ghost function AboutToSpawn(pc: Pc, x: ActorId): nat {
    if (pc.Respawning? || pc.Checked?) && pc.id == x then 1 else 0
  }

  /** Live incarnations, unreported failures, queued failures and delayed restarts, running timers,
      and the restart in progress. */
  ghost function Tokens(w: World, x: ActorId): nat {
    CountIf(Carries(x), w.sys.entries) + CountIf(Asks(x), w.queue) + CountIf(TimerOf(x), w.timers)
    + AboutToSpawn(w.pc, x)
  }

  // ── no step creates a token ──────────────────────────────────────

  lemma LifeTokens(c: Config, w: World, x: ActorId, step: Step, found: bool)
    requires Enabled(w.sys, step) && !(step.Spawn? && step.id == x)
    ensures Tokens(SupApply(c, w, Life(step, found)), x) <= Tokens(w, x)
  {
    var s, s', notice := w.sys, Apply(w.sys, step), Notice(c, w.sys, step, found);
    CountAppend(Asks(x), w.queue, notice);
    if step.Spawn? {
      var en := Entry(step.id, step.supervisor, Inserted);
      CountAppend(Carries(x), s.entries, [en]);
    } else if OfEntry(step) {
      CountUpdate(Carries(x), s.entries, step.e, s'.entries[step.e]);
    }
  }

  lemma QueueTokens(w: World, x: ActorId, k: nat, msg: SupMsg)
    ensures CountIf(Asks(x), w.queue + [msg]) == CountIf(Asks(x), w.queue) + if Asks(x)(msg) then 1 else 0
    ensures k < |w.queue| ==>
              CountIf(Asks(x), Removed(w.queue, k)) + (if Asks(x)(w.queue[k]) then 1 else 0)
              == CountIf(Asks(x), w.queue)
  {
    CountAppend(Asks(x), w.queue, [msg]);
    if k < |w.queue| { CountRemove(Asks(x), w.queue, k); }
  }

  lemma TimerTokens(w: World, x: ActorId, k: nat)
    requires k < |w.timers|
    ensures CountIf(TimerOf(x), Removed(w.timers, k)) + (if w.timers[k].id == x then 1 else 0)
            == CountIf(TimerOf(x), w.timers)
  {
    CountRemove(TimerOf(x), w.timers, k);
  }

  lemma ReactTokens(c: Config, w: World, x: ActorId, id: ActorId, r: Reaction, found: bool)
    requires w.pc.Waiting?
    ensures Tokens(React(c, w, id, r, found), x) <= Tokens(w, x) + if id == x then 1 else 0
  {
    if r.RestartLater? {
      CountAppend(TimerOf(x), w.timers, [Timer(id, r.factory)]);
    } else if r.EscalateTo? {
      QueueTokens(w, x, 0, Failed(id));
    }
  }

  lemma HandleTokens(c: Config, w: World, x: ActorId, now: Time, later: Time, found: bool)
    requires w.queue != [] && w.pc.Waiting?
    ensures Tokens(HandleWorld(c, w, now, later, found), x) <= Tokens(w, x)
  {
    var msg := w.queue[0];
    if msg.Failed? {
      var (sup, r) := FailureStep(c.strategy, w.sup, msg.id, now, later);
      ReactTokens(c, w.(queue := w.queue[1..], sup := sup), x, msg.id, r, found);
    }
  }

  lemma RespawnTokens(w: World, x: ActorId)
    requires w.pc.Checked?
    ensures Tokens(RespawnWorld(w), x) <= Tokens(w, x)
  {
    var en := Entry(w.pc.id, w.pc.factory.supervisor, Inserted);
    CountAppend(Carries(x), w.sys.entries, [en]);
  }

  lemma StepTokens(c: Config, w: World, x: ActorId, e: Event)
    requires SupEnabled(w, e) && SoleRespawner(e, x)
    ensures Tokens(SupApply(c, w, e), x) <= Tokens(w, x)
  {
    match e {
      case Life(step, found) => LifeTokens(c, w, x, step, found);
      case Post(msg) => QueueTokens(w, x, 0, msg);
      case Lose(k) => QueueTokens(w, x, k, w.queue[k]);
      case Handle(now, later, found) => HandleTokens(c, w, x, now, later, found);
      case Fire(k) =>
        TimerTokens(w, x, k);
        QueueTokens(w, x, 0, Delayed(w.timers[k].id, w.timers[k].factory));
      case Cancel(k) => TimerTokens(w, x, k);
      case Gate =>
      case Respawn => RespawnTokens(w, x);
      case Settle =>
    }
  }

  lemma StepValid(c: Config, w: World, e: Event)
    requires Valid(w.sys) && SupEnabled(w, e)
    ensures Valid(SupApply(c, w, e).sys)
  {
    if e.Life? {
      StepKeepsValid(w.sys, e.step);
    } else if e.Respawn? && w.pc.id !in w.sys.registry {
      InsertKeepsValid(w.sys, w.pc.id, w.pc.factory.supervisor);
    }
  }

  /** A valid registry holds at most one live incarnation. */
  lemma LiveOnce(s: System, x: ActorId)
    requires RegistryOk(s)
    requires forall e :: 0 <= e < |s.entries| && s.entries[e].id == x ==> !s.entries[e].phase.Unnotified?
    ensures CountIf(Carries(x), s.entries) <= 1
  {
    var p := Carries(x);
    if x in s.registry {
      var e := s.registry[x];
      assert Holds(s, x, e);
      CountRemove(p, s.entries, e);
      var rest := Removed(s.entries, e);
      forall k | 0 <= k < |rest| ensures !p(rest[k]) {
        assert rest[k] == s.entries[if k < e then k else k + 1];
      }
      CountZero(p, rest);
    } else {
      CountZero(p, s.entries);
    }
  }

  // ── the failure history stays short ──────────────────────────────

  /** Restarts of x that have been decided and not completed. */
  ghost function Decided(w: World, x: ActorId): nat {
    CountIf(IsDelayed(x), w.queue) + CountIf(TimerOf(x), w.timers) + (if !w.pc.Waiting? && w.pc.id == x then 1 else 0)
  }

  /** While x can still come back, its list holds no more failures than restarts under way. */
  ghost predicate ShortHistory(w: World, x: ActorId) {
    Tokens(w, x) > 0 ==> |FailuresOf(w.sup.failures, x)| <= Decided(w, x)
  }

  /** The strategy restarts after a single failure: all but Escalation do. */
  predicate RestartsFirst(s: RestartStrategy) { !s.Escalation? }

  lemma SingleFailure(now: Time)
    ensures Recorded([], MAX_AGE, now) == [now]
  {
    RecentPush([], now, now - MAX_AGE);
    assert [] + [now] == [now];
  }

  lemma SingleDecision(s: RestartStrategy, now: Time, later: Time)
    requires RestartsFirst(s)
    ensures Decide(s, [now], later) == Restart(if s.ExponentialBackoff? then BackoffDelay(s, 1) else 0)
  {
    if s.OneForOne? { RecentPush([], now, later - EffectiveWithin(s.within)); assert [] + [now] == [now]; }
  }

  lemma DecidedQueue(x: ActorId, q: seq<SupMsg>, k: nat, msg: SupMsg)
    ensures CountIf(IsDelayed(x), q + [msg]) == CountIf(IsDelayed(x), q) + if IsDelayed(x)(msg) then 1 else 0
    ensures k < |q| ==>
              CountIf(IsDelayed(x), Removed(q, k)) + (if IsDelayed(x)(q[k]) then 1 else 0) == CountIf(IsDelayed(x), q)
    ensures CountIf(IsDelayed(x), q) <= CountIf(Asks(x), q)
  {
    CountAppend(IsDelayed(x), q, [msg]);
    if k < |q| { CountRemove(IsDelayed(x), q, k); }
    CountLe(IsDelayed(x), Asks(x), q);
  }

  lemma LifeHistory(c: Config, w: World, x: ActorId, step: Step, found: bool)
    requires Enabled(w.sys, step) && !(step.Spawn? && step.id == x) && ShortHistory(w, x)
    ensures ShortHistory(SupApply(c, w, Life(step, found)), x)
  {
    LifeTokens(c, w, x, step, found);
    var notice := Notice(c, w.sys, step, found);
    if notice == [] {
      assert w.queue + notice == w.queue;
    } else {
      DecidedQueue(x, w.queue, 0, notice[0]);
    }
  }

  lemma LoseHistory(c: Config, w: World, x: ActorId, k: nat)
    requires k < |w.queue| && Tokens(w, x) <= 1 && ShortHistory(w, x)
    ensures ShortHistory(SupApply(c, w, Lose(k)), x)
  {
    QueueTokens(w, x, k, w.queue[k]);
    DecidedQueue(x, w.queue, k, w.queue[k]);
  }

  lemma TimerHistory(c: Config, w: World, x: ActorId, k: nat)
    requires k < |w.timers| && Tokens(w, x) <= 1 && ShortHistory(w, x)
    ensures ShortHistory(SupApply(c, w, Fire(k)), x) && ShortHistory(SupApply(c, w, Cancel(k)), x)
  {
    var msg := Delayed(w.timers[k].id, w.timers[k].factory);
    TimerTokens(w, x, k);
    QueueTokens(w, x, 0, msg);
    DecidedQueue(x, w.queue, 0, msg);
  }

  lemma RespawnHistory(w: World, x: ActorId)
    requires w.pc.Checked? && Tokens(w, x) <= 1 && ShortHistory(w, x)
    ensures ShortHistory(RespawnWorld(w), x)
  {
    RespawnTokens(w, x);
  }

  /** When a failure of x is next in line, the list of x is empty and nothing else of x is under way. */
  lemma FailureIsAlone(w: World, x: ActorId)
    requires w.pc.Waiting? && w.queue != [] && w.queue[0] == Failed(x) && Tokens(w, x) <= 1 && ShortHistory(w, x)
    ensures Tokens(w.(queue := w.queue[1..]), x) == 0
    ensures FailuresOf(w.sup.failures, x) == []
  {
    DecidedQueue(x, w.queue, 0, w.queue[0]);
    assert Removed(w.queue, 0) == w.queue[1..];
    DecidedQueue(x, w.queue[1..], 0, w.queue[0]);
  }

  /** Handled with an empty list, a failure leaves one entry and one decided restart. */
  lemma FailedHistory(c: Config, w: World, x: ActorId, now: Time, later: Time, found: bool)
    requires RestartsFirst(c.strategy) && w.pc.Waiting? && w.queue != [] && w.queue[0] == Failed(x)
    requires Tokens(w, x) <= 1 && ShortHistory(w, x)
    ensures ShortHistory(HandleWorld(c, w, now, later, found), x)
  {
    FailureIsAlone(w, x);
    SingleFailure(now);
    SingleDecision(c.strategy, now, later);
    if x in w.sup.factories {
      var f := w.sup.factories[x];
      CountAppend(TimerOf(x), w.timers, [Timer(x, f)]);
    }
  }

  lemma OtherFailure(c: Config, w: World, x: ActorId, id: ActorId, r: Reaction, found: bool)
    requires w.pc.Waiting? && id != x
    ensures Decided(React(c, w, id, r, found), x) == Decided(w, x)
  {
    if r.RestartLater? {
      CountAppend(TimerOf(x), w.timers, [Timer(id, r.factory)]);
    } else if r.EscalateTo? {
      DecidedQueue(x, w.queue, 0, Failed(id));
    }
  }

  lemma FailureElsewhere(strategy: RestartStrategy, s: SupState, id: ActorId, x: ActorId, now: Time, later: Time)
    requires id != x
    ensures FailuresOf(FailureStep(strategy, s, id, now, later).0.failures, x) == FailuresOf(s.failures, x)
  {
  }

  lemma OtherFailedHistory(c: Config, w: World, x: ActorId, now: Time, later: Time, found: bool)
    requires w.pc.Waiting? && w.queue != [] && w.queue[0].Failed? && w.queue[0].id != x && ShortHistory(w, x)
    ensures ShortHistory(HandleWorld(c, w, now, later, found), x)
  {
    var id := w.queue[0].id;
    var (sup, r) := FailureStep(c.strategy, w.sup, id, now, later);
    var w' := w.(queue := w.queue[1..], sup := sup);
    HandleTokens(c, w, x, now, later, found);
    DecidedQueue(x, w.queue, 0, w.queue[0]);
    assert Removed(w.queue, 0) == w.queue[1..];
    FailureElsewhere(c.strategy, w.sup, id, x, now, later);
    OtherFailure(c, w', x, id, r, found);
    assert HandleWorld(c, w, now, later, found) == React(c, w', id, r, found);
    assert React(c, w', id, r, found).sup == sup;
  }

  lemma HandleHistory(c: Config, w: World, x: ActorId, now: Time, later: Time, found: bool)
    requires RestartsFirst(c.strategy) && w.pc.Waiting? && w.queue != []
    requires Tokens(w, x) <= 1 && ShortHistory(w, x)
    ensures ShortHistory(HandleWorld(c, w, now, later, found), x)
  {
    var msg := w.queue[0];
    if msg == Failed(x) {
      FailedHistory(c, w, x, now, later, found);
    } else if msg.Failed? {
      OtherFailedHistory(c, w, x, now, later, found);
    } else {
      HandleTokens(c, w, x, now, later, found);
      DecidedQueue(x, w.queue, 0, msg);
      assert Removed(w.queue, 0) == w.queue[1..];
    }
  }

  lemma StepHistory(c: Config, w: World, x: ActorId, e: Event)
    requires RestartsFirst(c.strategy) && SupEnabled(w, e) && SoleRespawner(e, x)
    requires Tokens(w, x) <= 1 && ShortHistory(w, x)
    ensures ShortHistory(SupApply(c, w, e), x)
  {
    match e {
      case Life(step, found) => LifeHistory(c, w, x, step, found);
      case Post(msg) =>
        QueueTokens(w, x, 0, msg);
        DecidedQueue(x, w.queue, 0, msg);
      case Lose(k) => LoseHistory(c, w, x, k);
      case Handle(now, later, found) => HandleHistory(c, w, x, now, later, found);
      case Fire(k) => TimerHistory(c, w, x, k);
      case Cancel(k) => TimerHistory(c, w, x, k);
      case Gate =>
      case Respawn => RespawnHistory(w, x);
      case Settle =>
    }
  }

  // ── every run ────────────────────────────────────────────────────

  lemma {:induction false} RunTokens(c: Config, x: ActorId, ws: seq<World>, es: seq<Event>, i: nat)
    requires SupRun(c, x, ws, es) && i < |ws|
    ensures Valid(ws[i].sys) && Tokens(ws[i], x) <= 1
  {
    if i == 0 {
      LiveOnce(ws[0].sys, x);
    } else {
      RunTokens(c, x, ws, es, i - 1);
      StepValid(c, ws[i - 1], es[i - 1]);
      StepTokens(c, ws[i - 1], x, es[i - 1]);
    }
  }

  lemma {:induction false} RunHistory(c: Config, x: ActorId, ws: seq<World>, es: seq<Event>, i: nat)
    requires SupRun(c, x, ws, es) && i < |ws| && RestartsFirst(c.strategy)
    ensures ShortHistory(ws[i], x)
  {
    if i > 0 {
      RunTokens(c, x, ws, es, i - 1);
      RunHistory(c, x, ws, es, i - 1);
      StepHistory(c, ws[i - 1], x, es[i - 1]);
    }
  }

  /** Every restart that finds the system open then finds the ID free, and creates exactly one
      incarnation, also when the system has been closed in between. */
  lemma RestartFindsIdFree(c: Config, x: ActorId, ws: seq<World>, es: seq<Event>, i: nat)
    requires SupRun(c, x, ws, es) && i < |es| && es[i].Respawn? && ws[i].pc.id == x
    ensures x !in ws[i].sys.registry
    ensures var s, s' := ws[i].sys, ws[i + 1].sys;
            && s'.registry == s.registry[x := |s.entries|]
            && s'.entries == s.entries + [Entry(x, ws[i].pc.factory.supervisor, Inserted)]
            && forall e :: 0 <= e < |s'.entries| && s'.entries[e].id == x && Live(s'.entries[e].phase) ==>
                 e == |s.entries|
  {
    RunTokens(c, x, ws, es, i);
    RunTokens(c, x, ws, es, i + 1);
    var s := ws[i].sys;
    if x in s.registry {
      assert Holds(s, x, s.registry[x]);
      CountPositive(Carries(x), s.entries, s.registry[x]);
    }
  }

  /** Whenever a supervised failure is handled, the strategy sees exactly one failure, the new one:
      each restart clears the history.  So OneForOne never escalates, however often the actor
      fails, and ExponentialBackoff always waits for its first delay. */
  lemma EveryFailureLooksFirst(c: Config, x: ActorId, ws: seq<World>, es: seq<Event>, i: nat)
    requires SupRun(c, x, ws, es) && RestartsFirst(c.strategy)
    requires i < |es| && es[i].Handle? && ws[i].queue[0] == Failed(x) && x in ws[i].sup.factories
    ensures Recorded(FailuresOf(ws[i].sup.failures, x), MAX_AGE, es[i].now) == [es[i].now]
    ensures var f := ws[i].sup.factories[x];
            var delay := if c.strategy.ExponentialBackoff? then BackoffDelay(c.strategy, 1) else 0;
            FailureStep(c.strategy, ws[i].sup, x, es[i].now, es[i].later).1
              == if delay > 0 then RestartLater(f, delay) else RestartNow(f)
  {
    RunTokens(c, x, ws, es, i);
    RunHistory(c, x, ws, es, i);
    FailureIsAlone(ws[i], x);
    SingleFailure(es[i].now);
    SingleDecision(c.strategy, es[i].now, es[i].later);
  }

  // ── the Escalation strategy ──────────────────────────────────────

  /** The failure of x goes back to the end of the queue, and x keeps its factory. */
  ghost predicate GoesBack(w: World, w': World, x: ActorId) {
    w.queue != [] && w'.queue == w.queue[1..] + [Failed(x)] && w'.sup.factories == w.sup.factories
  }

  /** The failure of x is dropped, and so is its factory. */
  ghost predicate GivenUp(w: World, w': World, x: ActorId) {
    w.queue != [] && w'.queue == w.queue[1..] && w'.sup.factories == w.sup.factories - {x}
  }

  /** Escalation goes to the failed actor's own supervisor.  When that is the supervisor itself, the
      failure goes back to the end of its own queue, whatever else is queued, iff the strategy does not
      decide to stop; otherwise the factory is forgotten. */
  lemma EscalationReturnsIff(c: Config, w: World, x: ActorId, now: Time, later: Time)
    requires c.strategy.Escalation? && w.queue != [] && w.queue[0] == Failed(x)
    requires x in w.sup.factories && w.sup.factories[x].supervisor == Some(c.me)
    ensures var w' := HandleWorld(c, w, now, later, true);
            var known := FailuresOf(w'.sup.failures, x);
            && known == Recorded(FailuresOf(w.sup.failures, x), MAX_AGE, now)
            && if c.strategy.maxRetries > 0 && Exceeds(c.strategy.maxRetries, c.strategy.within, known, later)
               then GivenUp(w, w', x) else GoesBack(w, w', x)
  {
  }

  ghost function IsOf(x: ActorId): Entry -> bool { (en: Entry) => en.id == x }

  ghost predicate NoDelayed(q: seq<SupMsg>) { forall k :: 0 <= k < |q| ==> !q[k].Delayed? }

  lemma SameIncarnations(c: Config, w: World, x: ActorId, step: Step, found: bool)
    requires Enabled(w.sys, step) && !(step.Spawn? && step.id == x)
    ensures CountIf(IsOf(x), Apply(w.sys, step).entries) == CountIf(IsOf(x), w.sys.entries)
  {
    if step.Spawn? {
      CountAppend(IsOf(x), w.sys.entries, [Entry(step.id, step.supervisor, Inserted)]);
    } else if OfEntry(step) {
      CountUpdate(IsOf(x), w.sys.entries, step.e, Apply(w.sys, step).entries[step.e]);
    }
  }

  /** Under the Escalation strategy nothing is ever restarted: the number of incarnations of x, dead or
      alive, never changes. */
  lemma {:induction false} EscalationNeverRestarts(c: Config, x: ActorId, ws: seq<World>, es: seq<Event>, i: nat)
    requires SupRun(c, x, ws, es) && i < |ws| && c.strategy.Escalation?
    ensures ws[i].pc.Waiting? && ws[i].timers == [] && NoDelayed(ws[i].queue)
    ensures CountIf(IsOf(x), ws[i].sys.entries) == CountIf(IsOf(x), ws[0].sys.entries)
  {
    if i > 0 {
      EscalationNeverRestarts(c, x, ws, es, i - 1);
      var w, e := ws[i - 1], es[i - 1];
      assert ws[i] == SupApply(c, w, e);
      if e.Life? { SameIncarnations(c, w, x, e.step, e.found); }
    }
  }
}
