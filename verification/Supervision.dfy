/** The supervisor (actor-framework/supervision/supervisor.go) on top of the actor lifecycle: failure
    messages, restart decisions, delayed restarts and the spawning of fresh incarnations, interleaved
    with everything that the actors themselves do. */
module Supervision {
  import opened Basics
  import opened Lifecycle
  import opened Strategy

  /** A registered factory builds actors of the ID that it is registered under; its spawn options
      name the supervisor of the new incarnation. */
  datatype Factory = Factory(supervisor: Option<ActorId>)

  datatype SupMsg =
    | Failed(id: ActorId)
    | Delayed(id: ActorId, factory: Factory)
    | RegisterMsg(id: ActorId, factory: Factory)
    | UnregisterMsg(id: ActorId)

  datatype SupState = SupState(factories: map<ActorId, Factory>, failures: map<ActorId, seq<Time>>)

  /** What a failure makes the supervisor do next. */
  datatype Reaction =
    | Nothing
    | RestartNow(factory: Factory)
    | RestartLater(factory: Factory, delay: Duration)
    | EscalateTo(supervisor: ActorId)

  function RegisterStep(s: SupState, id: ActorId, f: Factory): SupState { s.(factories := s.factories[id := f]) }

  function UnregisterStep(s: SupState, id: ActorId): SupState {
    SupState(s.factories - {id}, s.failures - {id})
  }

  /** `now` is the tracker's clock reading, `later` the strategy's. */
  function FailureStep(strategy: RestartStrategy, s: SupState, id: ActorId, now: Time, later: Time)
    : (SupState, Reaction)
  {
    if id !in s.factories then (s, Nothing)
    else
      var recent := Recorded(FailuresOf(s.failures, id), MAX_AGE, now);
      var s' := s.(failures := s.failures[id := recent]);
      var f := s.factories[id];
      match Decide(strategy, recent, later)
      case Restart(delay) => (s', if delay > 0 then RestartLater(f, delay) else RestartNow(f))
      case Escalate => (s', if f.supervisor.Some? then EscalateTo(f.supervisor.value) else Nothing)
      case Stop => (s'.(factories := s'.factories - {id}), Nothing)
  }

  /** After a successful restart the factory is stored again and the failure history is cleared. */
  function RestartedStep(s: SupState, id: ActorId, f: Factory): SupState {
    SupState(s.factories[id := f], s.failures - {id})
  }

  class SupervisorActor {
    const strategy: RestartStrategy
    const tracker: FailureTracker
    var factories: map<ActorId, Factory>

    ghost function State(): SupState
      reads this, tracker
    {
      SupState(factories, tracker.failures)
    }

    constructor (strategy: RestartStrategy)
      ensures this.strategy == strategy && fresh(tracker) && State() == SupState(map[], map[])
    {
      this.strategy := strategy;
      tracker := new FailureTracker();
      factories := map[];
    }

    method HandleRegister(id: ActorId, f: Factory)
      modifies this
      ensures State() == RegisterStep(old(State()), id, f)
      ensures factories == old(factories)[id := f] && tracker.failures == old(tracker.failures)
    {
      factories := factories[id := f];
    }

    method HandleUnregister(id: ActorId)
      modifies this, tracker
      ensures State() == UnregisterStep(old(State()), id)
      ensures factories == old(factories) - {id} && tracker.failures == old(tracker.failures) - {id}
    {
      factories := factories - {id};
      tracker.Reset(id);
    }

    method HandleFailure(id: ActorId, now: Time, later: Time) returns (r: Reaction)
      modifies this, tracker
      ensures (State(), r) == FailureStep(strategy, old(State()), id, now, later)
      ensures id !in old(factories) ==> r.Nothing? && tracker.failures == old(tracker.failures)
      ensures id in old(factories) ==>
                var known := Recent(FailuresOf(old(tracker.failures), id) + [now], now - 30_000_000_000);
                var d, f := Decide(strategy, known, later), old(factories)[id];
                && tracker.failures == old(tracker.failures)[id := known]
                && (d.Restart? ==> r == if d.delay > 0 then RestartLater(f, d.delay) else RestartNow(f))
                && (d.Escalate? ==> r == if f.supervisor.Some? then EscalateTo(f.supervisor.value) else Nothing)
                && (d.Stop? ==> r.Nothing?)
                && factories == if d.Stop? then old(factories) - {id} else old(factories)
    {
      if id !in factories { return Nothing; }
      var entry := factories[id];
      var failures := tracker.Record(id, 30 * SECOND, now);
      var decision := OnFailure(strategy, failures, later);
      match decision {
        case Restart(delay) =>
          r := if delay > 0 then RestartLater(entry, delay) else RestartNow(entry);
        case Escalate =>
          r := if entry.supervisor.Some? then EscalateTo(entry.supervisor.value) else Nothing;
        case Stop =>
          factories := factories - {id};
          r := Nothing;
      }
    }

    /** doRestart up to its bookkeeping; on an error nothing is stored and the history stays. */
    method DoRestart(system: ActorSystem, id: ActorId, f: Factory) returns (entry: Option<nat>)
      requires RegistryOk(system.State())
      modifies this, tracker, system
      ensures entry.Some? <==> CanSpawn(old(system.State()), id)
      ensures system.State() ==
              if entry.Some? then SpawnedWhole(old(system.State()), id, f.supervisor) else old(system.State())
      ensures State() == if entry.Some? then RestartedStep(old(State()), id, f) else old(State())
      ensures entry.Some? ==> factories == old(factories)[id := f] && tracker.failures == old(tracker.failures) - {id}
    {
      var stopped;
      stopped, entry := system.RestartActor(id, f.supervisor);
      if entry.Some? {
        factories := factories[id := f];
        tracker.Reset(id);
      }
    }
  }

  // ── supervisor and actors together ───────────────────────────────

  datatype Timer = Timer(id: ActorId, factory: Factory)

  /** Where the supervisor's goroutine stands: waiting for a message, about to call Spawn, past the
      closed check of that call, or having spawned a fresh incarnation and not yet cleared the failure
      history. */
  datatype Pc =
    | Waiting
    | Respawning(id: ActorId, factory: Factory)
    | Checked(id: ActorId, factory: Factory)
    | Respawned(id: ActorId, factory: Factory)

  datatype Config = Config(me: ActorId, strategy: RestartStrategy)

  datatype World = World(sys: System, sup: SupState, queue: seq<SupMsg>, timers: seq<Timer>, pc: Pc)

  datatype Event =
    | Life(step: Step, found: bool)
    | Post(msg: SupMsg)
    | Lose(k: nat)
    | Handle(now: Time, later: Time, found: bool)
    | Fire(k: nat)
    | Cancel(k: nat)
    | Gate
    | Respawn
    | Settle

  predicate SupEnabled(w: World, e: Event) {
    match e
    case Life(step, _) => Enabled(w.sys, step)
    case Post(msg) => msg.RegisterMsg? || msg.UnregisterMsg?
    case Lose(k) => k < |w.queue|
    case Handle(_, _, _) => w.pc.Waiting? && w.queue != []
    case Fire(k) => k < |w.timers|
    case Cancel(k) => k < |w.timers|
    case Gate => w.pc.Respawning?
    case Respawn => w.pc.Checked?
    case Settle => w.pc.Respawned?
  }

  /** A failed actor's own notification, if its supervisor is this one and is found. */
  function Notice(c: Config, s: System, step: Step, found: bool): seq<SupMsg>
    requires Enabled(s, step)
  {
    if step.Notify? && found && s.entries[step.e].supervisor == Some(c.me) then [Failed(s.entries[step.e].id)] else []
  }

  function React(c: Config, w: World, id: ActorId, r: Reaction, found: bool): World {
    match r
    case Nothing => w
    case RestartNow(f) => w.(pc := Respawning(id, f))
    case RestartLater(f, _) => w.(timers := w.timers + [Timer(id, f)])
    case EscalateTo(s) => if s == c.me && found then w.(queue := w.queue + [Failed(id)]) else w
  }

  function HandleWorld(c: Config, w: World, now: Time, later: Time, found: bool): World
    requires w.queue != []
  {
    var w' := w.(queue := w.queue[1..]);
    match w.queue[0]
    case RegisterMsg(id, f) => w'.(sup := RegisterStep(w.sup, id, f))
    case UnregisterMsg(id) => w'.(sup := UnregisterStep(w.sup, id))
    case Delayed(id, f) => w'.(pc := Respawning(id, f))
    case Failed(id) =>
      var (sup, r) := FailureStep(c.strategy, w.sup, id, now, later);
      React(c, w'.(sup := sup), id, r, found)
  }

  function GateWorld(w: World): World
    requires w.pc.Respawning?
  {
    w.(pc := if w.sys.closed then Waiting else Checked(w.pc.id, w.pc.factory))
  }

  function RespawnWorld(w: World): World
    requires w.pc.Checked?
  {
    if w.pc.id !in w.sys.registry then
      w.(sys := Insert(w.sys, w.pc.id, w.pc.factory.supervisor), pc := Respawned(w.pc.id, w.pc.factory))
    else w.(pc := Waiting)
  }

  function SupApply(c: Config, w: World, e: Event): World
    requires SupEnabled(w, e)
  {
    match e
    case Life(step, found) => w.(sys := Apply(w.sys, step), queue := w.queue + Notice(c, w.sys, step, found))
    case Post(msg) => w.(queue := w.queue + [msg])
    case Lose(k) => w.(queue := Removed(w.queue, k))
    case Handle(now, later, found) => HandleWorld(c, w, now, later, found)
    case Fire(k) =>
      w.(timers := Removed(w.timers, k), queue := w.queue + [Delayed(w.timers[k].id, w.timers[k].factory)])
    case Cancel(k) => w.(timers := Removed(w.timers, k))
    case Gate => GateWorld(w)
    case Respawn => RespawnWorld(w)
    case Settle => w.(sup := RestartedStep(w.sup, w.pc.id, w.pc.factory), pc := Waiting)
  }

  /** Only the supervisor spawns actor x again. */
  predicate SoleRespawner(e: Event, x: ActorId) {
    !(e.Life? && e.step.Spawn? && e.step.id == x)
  }

  /** Supervision begins: at most one incarnation of x runs, and nothing is under way. */
  ghost predicate Begins(w: World, x: ActorId) {
    && Valid(w.sys) && w.queue == [] && w.timers == [] && w.pc == Waiting && FailuresOf(w.sup.failures, x) == []
    && forall e :: 0 <= e < |w.sys.entries| && w.sys.entries[e].id == x ==> !w.sys.entries[e].phase.Unnotified?
  }

  /** Any run of supervisor and actors, from any state. */
  ghost predicate FreeRun(c: Config, ws: seq<World>, es: seq<Event>) {
    && |ws| == |es| + 1
    && forall i :: 0 <= i < |es| ==> SupEnabled(ws[i], es[i]) && ws[i + 1] == SupApply(c, ws[i], es[i])
  }

  /** Any run in which the list of x is empty at the start.  Others may spawn x too. */
  ghost predicate OpenRun(c: Config, x: ActorId, ws: seq<World>, es: seq<Event>) {
    FreeRun(c, ws, es) && FailuresOf(ws[0].sup.failures, x) == []
  }

  /** A run in which only the supervisor respawns x. */
  ghost predicate SupRun(c: Config, x: ActorId, ws: seq<World>, es: seq<Event>) {
    && OpenRun(c, x, ws, es) && Begins(ws[0], x)
    && forall i :: 0 <= i < |es| ==> SoleRespawner(es[i], x)
  }
}
