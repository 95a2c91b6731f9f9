/** Exactly when unregistering an actor ends its supervision for good. */
module Unregister {
  import opened Basics
  import opened Counting
  import opened Lifecycle
  import opened Strategy
  import opened Supervision
  import opened SupervisionSafety

  predicate Registers(msg: SupMsg, x: ActorId) { msg.RegisterMsg? && msg.id == x }

  ghost predicate NoRegistration(q: seq<SupMsg>, x: ActorId) {
    forall k :: 0 <= k < |q| ==> !Registers(q[k], x)
  }

  /** Nobody registers x again, and only the supervisor spawns it. */
  predicate LeavesAlone(e: Event, x: ActorId) {
    SoleRespawner(e, x) && !(e.Post? && Registers(e.msg, x))
  }

  /** The run goes on from w in any way in which nobody registers x again. */
  ghost predicate Continues(c: Config, x: ActorId, w: World, ws: seq<World>, es: seq<Event>) {
    && |ws| == |es| + 1 && ws[0] == w
    && forall i :: 0 <= i < |es| ==>
         && SupEnabled(ws[i], es[i]) && LeavesAlone(es[i], x)
         && ws[i + 1] == SupApply(c, ws[i], es[i])
  }

  /** x has no factory, and no incarnation of it is created. */
  ghost predicate StaysOut(x: ActorId, ws: seq<World>) {
    forall j :: 0 <= j < |ws| ==>
      x !in ws[j].sup.factories && CountIf(IsOf(x), ws[j].sys.entries) == CountIf(IsOf(x), ws[0].sys.entries)
  }

  // ── without a decided restart, or on a closed system, x stays out ─

  /** The supervisor has found the system open for a restart of x that is not completed. */
  predicate PastGate(pc: Pc, x: ActorId) { (pc.Checked? || pc.Respawned?) && pc.id == x }

  /** Nothing can bring x back. */
  ghost predicate Out(w: World, x: ActorId) {
    && x !in w.sup.factories && NoRegistration(w.queue, x)
    && (Decided(w, x) == 0 || (w.sys.closed && !PastGate(w.pc, x)))
  }

  /** A failure leaves x without a factory, and so decides nothing about x. */
  lemma FailureDecidesNothing(c: Config, w: World, x: ActorId, now: Time, later: Time, found: bool)
    requires w.pc.Waiting? && w.queue != [] && w.queue[0].Failed? && x !in w.sup.factories
    ensures var w' := HandleWorld(c, w, now, later, found);
            x !in w'.sup.factories && Decided(w', x) == Decided(w, x) && w'.sys == w.sys && !PastGate(w'.pc, x)
  {
    var id := w.queue[0].id;
    var (sup, r) := FailureStep(c.strategy, w.sup, id, now, later);
    var w1 := w.(queue := w.queue[1..], sup := sup);
    DecidedQueue(x, w.queue, 0, w.queue[0]);
    assert Removed(w.queue, 0) == w.queue[1..];
    assert Decided(w1, x) == Decided(w, x);
    assert HandleWorld(c, w, now, later, found) == React(c, w1, id, r, found);
    ReactElsewhere(c, w1, x, id, r, found);
  }

  lemma ReactElsewhere(c: Config, w: World, x: ActorId, id: ActorId, r: Reaction, found: bool)
    requires w.pc.Waiting? && (id != x || r.Nothing?)
    ensures var w' := React(c, w, id, r, found);
            w'.sup == w.sup && w'.sys == w.sys && !PastGate(w'.pc, x) && Decided(w', x) == Decided(w, x)
  {
    if id != x { OtherFailure(c, w, x, id, r, found); }
  }

  lemma HandleDecides(c: Config, w: World, x: ActorId, now: Time, later: Time, found: bool)
    requires w.pc.Waiting? && w.queue != [] && x !in w.sup.factories && !Registers(w.queue[0], x)
    ensures var w' := HandleWorld(c, w, now, later, found);
            x !in w'.sup.factories && Decided(w', x) == Decided(w, x) && w'.sys == w.sys && !PastGate(w'.pc, x)
  {
    if w.queue[0].Failed? {
      FailureDecidesNothing(c, w, x, now, later, found);
    } else {
      DecidedQueue(x, w.queue, 0, w.queue[0]);
      assert Removed(w.queue, 0) == w.queue[1..];
    }
  }

  lemma HandleOut(c: Config, w: World, x: ActorId, now: Time, later: Time, found: bool)
    requires Out(w, x) && w.pc.Waiting? && w.queue != []
    ensures Out(HandleWorld(c, w, now, later, found), x) && HandleWorld(c, w, now, later, found).sys == w.sys
  {
    HandleDecides(c, w, x, now, later, found);
  }

  lemma LifeOut(c: Config, w: World, x: ActorId, step: Step, found: bool)
    requires Enabled(w.sys, step) && !(step.Spawn? && step.id == x)
    ensures Decided(SupApply(c, w, Life(step, found)), x) == Decided(w, x)
    ensures w.sys.closed ==> Apply(w.sys, step).closed
    ensures CountIf(IsOf(x), Apply(w.sys, step).entries) == CountIf(IsOf(x), w.sys.entries)
  {
    SameIncarnations(c, w, x, step, found);
    var notice := Notice(c, w.sys, step, found);
    if notice == [] { assert w.queue + notice == w.queue; } else { DecidedQueue(x, w.queue, 0, notice[0]); }
  }

  lemma TimerOut(c: Config, w: World, x: ActorId, k: nat)
    requires k < |w.timers|
    ensures Decided(SupApply(c, w, Fire(k)), x) == Decided(w, x)
            && Decided(SupApply(c, w, Cancel(k)), x) <= Decided(w, x)
  {
    TimerTokens(w, x, k);
    DecidedQueue(x, w.queue, 0, Delayed(w.timers[k].id, w.timers[k].factory));
  }

  lemma RespawnOut(w: World, x: ActorId)
    requires w.pc.Checked? && w.pc.id != x
    ensures var w' := RespawnWorld(w);
            && w'.sys.closed == w.sys.closed && !PastGate(w'.pc, x) && Decided(w', x) <= Decided(w, x)
            && CountIf(IsOf(x), w'.sys.entries) == CountIf(IsOf(x), w.sys.entries)
  {
    var en := Entry(w.pc.id, w.pc.factory.supervisor, Inserted);
    CountAppend(IsOf(x), w.sys.entries, [en]);
  }

  lemma OutStep(c: Config, w: World, x: ActorId, e: Event)
    requires Out(w, x) && SupEnabled(w, e) && LeavesAlone(e, x)
    ensures Out(SupApply(c, w, e), x)
    ensures CountIf(IsOf(x), SupApply(c, w, e).sys.entries) == CountIf(IsOf(x), w.sys.entries)
  {
    match e {
      case Life(step, found) => LifeOut(c, w, x, step, found);
      case Post(msg) => DecidedQueue(x, w.queue, 0, msg);
      case Lose(k) => DecidedQueue(x, w.queue, k, w.queue[k]);
      case Handle(now, later, found) => HandleOut(c, w, x, now, later, found);
      case Fire(k) => TimerOut(c, w, x, k);
      case Cancel(k) => TimerOut(c, w, x, k);
      case Gate =>
      case Respawn => RespawnOut(w, x);
      case Settle =>
    }
  }

  lemma {:induction false} OutThroughout(c: Config, x: ActorId, w: World, ws: seq<World>, es: seq<Event>, j: nat)
    requires Out(w, x) && Continues(c, x, w, ws, es) && j < |ws|
    ensures Out(ws[j], x) && CountIf(IsOf(x), ws[j].sys.entries) == CountIf(IsOf(x), ws[0].sys.entries)
  {
    if j > 0 {
      OutThroughout(c, x, w, ws, es, j - 1);
      OutStep(c, ws[j - 1], x, es[j - 1]);
    }
  }

  // ── otherwise some continuation brings it back ───────────────────

  lemma Prepend(c: Config, x: ActorId, w: World, e: Event, ws: seq<World>, es: seq<Event>)
    requires SupEnabled(w, e) && LeavesAlone(e, x) && Continues(c, x, SupApply(c, w, e), ws, es)
    ensures Continues(c, x, w, [w] + ws, [e] + es)
  {
    var ws', es' := [w] + ws, [e] + es;
    forall i | 0 <= i < |es'|
      ensures SupEnabled(ws'[i], es'[i]) && LeavesAlone(es'[i], x) && ws'[i + 1] == SupApply(c, ws'[i], es'[i])
    {
      if i > 0 { assert es'[i] == es[i - 1] && ws'[i] == ws[i - 1] && ws'[i + 1] == ws[i]; }
    }
  }

  /** The system is open and in order. */
  ghost predicate Ready(w: World, x: ActorId) {
    !w.sys.closed && Valid(w.sys) && Tokens(w, x) <= 1
  }

  /** With a restart of x queued, x is not registered. */
  lemma IdIsFree(w: World, x: ActorId, k: nat)
    requires Valid(w.sys) && Tokens(w, x) <= 1 && k < |w.queue| && Asks(x)(w.queue[k])
    ensures x !in w.sys.registry
  {
    CountPositive(Asks(x), w.queue, k);
    if x in w.sys.registry {
      assert Holds(w.sys, x, w.sys.registry[x]);
      CountPositive(Carries(x), w.sys.entries, w.sys.registry[x]);
    }
  }

  /** x is registered in the system again and has its factory back. */
  ghost predicate BackIn(w: World, x: ActorId) { x in w.sup.factories && x in w.sys.registry }

  /** The supervisor handles the queued restart of x and completes it. */
  lemma RestartNext(c: Config, x: ActorId, w: World) returns (ws: seq<World>, es: seq<Event>)
    requires Ready(w, x) && w.pc.Waiting? && w.queue != [] && IsDelayed(x)(w.queue[0])
    ensures Continues(c, x, w, ws, es) && BackIn(ws[|es|], x)
  {
    IdIsFree(w, x, 0);
    var w1 := SupApply(c, w, Handle(0, 0, true));
    var w2 := SupApply(c, w1, Gate);
    var w3 := SupApply(c, w2, Respawn);
    var w4 := SupApply(c, w3, Settle);
    ws, es := [w, w1, w2, w3, w4], [Handle(0, 0, true), Gate, Respawn, Settle];
  }

  /** What the supervisor does next of its own accord. */
  function NextEvent(w: World): Event {
    match w.pc
    case Waiting => Handle(0, 0, true)
    case Respawning(_, _) => Gate
    case Checked(_, _) => Respawn
    case Respawned(_, _) => Settle
  }

  function PcRank(pc: Pc): nat {
    match pc
    case Waiting => 0
    case Respawning(_, _) => 3
    case Checked(_, _) => 2
    case Respawned(_, _) => 1
  }

  lemma QueueMoves(c: Config, w: World, k: nat)
    requires k < |w.queue| && (w.pc.Waiting? ==> k > 0)
    ensures var w' := SupApply(c, w, NextEvent(w));
            var k' := if w.pc.Waiting? then k - 1 else k;
            && k' < |w'.queue| && w'.queue[k'] == w.queue[k] && w'.sys.closed == w.sys.closed
            && (w.pc.Waiting? || PcRank(w'.pc) < PcRank(w.pc))
  {
  }

  /** Left to itself, the supervisor works through its queue until it restarts x. */
  lemma {:induction false} QueuedRestart(c: Config, x: ActorId, w: World, k: nat)
          returns (ws: seq<World>, es: seq<Event>)
    requires Ready(w, x) && k < |w.queue| && IsDelayed(x)(w.queue[k])
    ensures Continues(c, x, w, ws, es) && BackIn(ws[|es|], x)
    decreases k, PcRank(w.pc)
  {
    if w.pc.Waiting? && k == 0 {
      ws, es := RestartNext(c, x, w);
    } else {
      var e := NextEvent(w);
      var w' := SupApply(c, w, e);
      QueueMoves(c, w, k);
      StepTokens(c, w, x, e);
      StepValid(c, w, e);
      var ws', es' := QueuedRestart(c, x, w', if w.pc.Waiting? then k - 1 else k);
      Prepend(c, x, w, e, ws', es');
      ws, es := [w] + ws', [e] + es';
    }
  }

  lemma CountWitness<T>(p: T -> bool, s: seq<T>) returns (k: nat)
    requires CountIf(p, s) > 0
    ensures k < |s| && p(s[k])
  {
    if forall i :: 0 <= i < |s| ==> !p(s[i]) { CountZero(p, s); }
    k :| k < |s| && p(s[k]);
  }

  lemma DecidedRestart(c: Config, x: ActorId, w: World) returns (ws: seq<World>, es: seq<Event>)
    requires Ready(w, x) && w.pc.Waiting? && Decided(w, x) > 0
    ensures Continues(c, x, w, ws, es) && BackIn(ws[|es|], x)
  {
    if CountIf(IsDelayed(x), w.queue) > 0 {
      var k := CountWitness(IsDelayed(x), w.queue);
      ws, es := QueuedRestart(c, x, w, k);
    } else {
      var k := CountWitness(TimerOf(x), w.timers);
      var w' := SupApply(c, w, Fire(k));
      StepTokens(c, w, x, Fire(k));
      var ws', es' := QueuedRestart(c, x, w', |w.queue|);
      Prepend(c, x, w, Fire(k), ws', es');
      ws, es := [w] + ws', [Fire(k)] + es';
    }
  }

  // ── the exact condition ──────────────────────────────────────────

  /** Event i handles the unregistration of x, and no registration of x is queued behind it. */
  ghost predicate UnregistersAt(c: Config, x: ActorId, ws: seq<World>, es: seq<Event>, i: nat)
    requires SupRun(c, x, ws, es) && i < |es|
  {
    es[i].Handle? && ws[i].queue[0] == UnregisterMsg(x) && NoRegistration(ws[i + 1].queue, x)
  }

  /** However the run goes on from w, x stays out. */
  ghost predicate OutForever(c: Config, x: ActorId, w: World) {
    forall ws, es :: Continues(c, x, w, ws, es) ==> StaysOut(x, ws)
  }

  /** Unregistering x ends its supervision for good, whatever happens next, iff no restart of x has
      been decided (no timer runs and no delayed restart is queued) or the system is closed. */
  lemma UnregisterHoldsIff(c: Config, x: ActorId, ws: seq<World>, es: seq<Event>, i: nat)
    requires SupRun(c, x, ws, es) && i < |es| && UnregistersAt(c, x, ws, es, i)
    ensures OutForever(c, x, ws[i + 1]) <==> Decided(ws[i + 1], x) == 0 || ws[i + 1].sys.closed
  {
    var w := ws[i + 1];
    RunTokens(c, x, ws, es, i + 1);
    assert w.pc.Waiting? && x !in w.sup.factories;
    if Decided(w, x) == 0 || w.sys.closed {
      forall ws', es' | Continues(c, x, w, ws', es') ensures StaysOut(x, ws') { OutForGood(c, x, w, ws', es'); }
    } else {
      var ws', es' := DecidedRestart(c, x, w);
      assert Continues(c, x, w, ws', es') && !StaysOut(x, ws') by { assert x in ws'[|es'|].sup.factories; }
    }
  }

  lemma OutForGood(c: Config, x: ActorId, w: World, ws: seq<World>, es: seq<Event>)
    requires Out(w, x) && Continues(c, x, w, ws, es)
    ensures StaysOut(x, ws)
  {
    forall j | 0 <= j < |ws|
      ensures x !in ws[j].sup.factories && CountIf(IsOf(x), ws[j].sys.entries) == CountIf(IsOf(x), ws[0].sys.entries)
    {
      OutThroughout(c, x, w, ws, es, j);
    }
  }
}
