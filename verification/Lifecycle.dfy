/** Actor incarnations between spawn and removal (actor-framework/system.go), as small steps that
    interleave freely.  The registry is keyed by actor ID, and removal deletes by ID. */
module Lifecycle {
  import opened Basics
  import opened Counting

  type ActorId = string

  /** Inserted: in the registry, goroutine not yet started.  Starting: in OnPreStart.  Receiving: in
      the message loop.  Stopping: in OnPostStop.  Failing: in OnPreRestart, after a panic or a failed
      start.  Unnotified: removed after a failure, supervisor not yet told.  Leaving: nothing left but
      the wait group. */
  datatype Phase = Inserted | Starting | Receiving | Stopping | Failing | Unnotified | Leaving | Gone

  datatype Entry = Entry(id: ActorId, supervisor: Option<ActorId>, phase: Phase)

  /** Every incarnation ever spawned, the registry, the wait group, the closed flag, and how many calls
      of Spawn have found the system open and not yet taken the lock. */
  datatype System = System(entries: seq<Entry>, registry: map<ActorId, nat>, wg: int, closed: bool, admitted: nat)

  /** A call of Spawn is a Check, then a Spawn or a Reject, then a Launch. */
  datatype Step =
    | Check
    | Spawn(id: ActorId, supervisor: Option<ActorId>)
    | Reject(id: ActorId)
    | Launch(e: nat)
    | Started(e: nat)
    | Halt(e: nat)
    | Fail(e: nat)
    | Remove(e: nat)
    | Notify(e: nat)
    | Leave(e: nat)
    | Shutdown

  /** The step concerns an incarnation that is there already. */
  predicate OfEntry(step: Step) { !step.Check? && !step.Spawn? && !step.Reject? && !step.Shutdown? }

  predicate InPhase(s: System, e: nat, p: Phase) { e < |s.entries| && s.entries[e].phase == p }

  /** An uninterrupted call of Spawn succeeds. */
  predicate CanSpawn(s: System, id: ActorId) { !s.closed && id !in s.registry }

  /** A panic can strike in OnPreStart, in a handler and in OnPostStop. */
  predicate Enabled(s: System, step: Step) {
    match step
    case Check => !s.closed
    case Spawn(id, _) => s.admitted > 0 && id !in s.registry
    case Reject(id) => s.admitted > 0 && id in s.registry
    case Launch(e) => InPhase(s, e, Inserted)
    case Started(e) => InPhase(s, e, Starting)
    case Halt(e) => InPhase(s, e, Receiving)
    case Fail(e) => InPhase(s, e, Starting) || InPhase(s, e, Receiving) || InPhase(s, e, Stopping)
    case Remove(e) => InPhase(s, e, Stopping) || InPhase(s, e, Failing)
    case Notify(e) => InPhase(s, e, Unnotified)
    case Leave(e) => InPhase(s, e, Leaving)
    case Shutdown => true
  }

  function Moved(s: System, e: nat, p: Phase): System
    requires e < |s.entries|
  {
    s.(entries := s.entries[e := s.entries[e].(phase := p)])
  }

  function Insert(s: System, id: ActorId, supervisor: Option<ActorId>): System {
    s.(entries := s.entries + [Entry(id, supervisor, Inserted)], registry := s.registry[id := |s.entries|])
  }

  function Apply(s: System, step: Step): System
    requires Enabled(s, step)
  {
    match step
    case Check => s.(admitted := s.admitted + 1)
    case Spawn(id, sup) => Insert(s, id, sup).(admitted := s.admitted - 1)
    case Reject(_) => s.(admitted := s.admitted - 1)
    case Launch(e) => Moved(s, e, Starting).(wg := s.wg + 1)
    case Started(e) => Moved(s, e, Receiving)
    case Halt(e) => Moved(s, e, Stopping)
    case Fail(e) => Moved(s, e, Failing)
    case Remove(e) =>
      Moved(s, e, if s.entries[e].phase.Failing? then Unnotified else Leaving)
        .(registry := s.registry - {s.entries[e].id})
    case Notify(e) => Moved(s, e, Leaving)
    case Leave(e) => Moved(s, e, Gone).(wg := s.wg - 1)
    case Shutdown => s.(closed := true)
  }

  // ── the invariant ────────────────────────────────────────────────

  /** Between its insertion into the registry and its own removal. */
  predicate Live(p: Phase) { p.Inserted? || p.Starting? || p.Receiving? || p.Stopping? || p.Failing? }

  /** Its goroutine has been counted and has not finished. */
  ghost function HasGoroutine(): Entry -> bool {
    (en: Entry) => !en.phase.Inserted? && !en.phase.Gone?
  }

  /** The registry lists exactly the live incarnations. */
  ghost predicate RegistryOk(s: System) {
    && (forall id :: id in s.registry ==> Holds(s, id, s.registry[id]))
    && (forall e :: 0 <= e < |s.entries| && Live(s.entries[e].phase) ==>
          s.entries[e].id in s.registry && s.registry[s.entries[e].id] == e)
  }

  predicate Holds(s: System, id: ActorId, e: nat) {
    e < |s.entries| && s.entries[e].id == id && Live(s.entries[e].phase)
  }

  ghost predicate WaitGroupOk(s: System) { s.wg == CountIf(HasGoroutine(), s.entries) }

  ghost predicate Valid(s: System) { RegistryOk(s) && WaitGroupOk(s) }

  const EMPTY: System := System([], map[], 0, false, 0)

  lemma SpawnKeepsRegistry(s: System, id: ActorId, supervisor: Option<ActorId>)
    requires RegistryOk(s) && id !in s.registry
    ensures RegistryOk(Insert(s, id, supervisor))
  {
    var s' := Insert(s, id, supervisor);
    assert forall f :: 0 <= f < |s.entries| ==> s'.entries[f] == s.entries[f];
  }

  lemma InsertKeepsValid(s: System, id: ActorId, supervisor: Option<ActorId>)
    requires Valid(s) && id !in s.registry
    ensures Valid(Insert(s, id, supervisor))
  {
    SpawnKeepsRegistry(s, id, supervisor);
    CountAppend(HasGoroutine(), s.entries, [Entry(id, supervisor, Inserted)]);
  }

  lemma StepKeepsRegistry(s: System, step: Step)
    requires RegistryOk(s) && Enabled(s, step)
    ensures RegistryOk(Apply(s, step))
  {
    match step {
      case Spawn(id, sup) => SpawnKeepsRegistry(s, id, sup);
      case Remove(e) => RemoveKeepsRegistry(s, e);
      case Check =>
      case Reject(_) =>
      case Shutdown =>
      case _ => MoveKeepsRegistry(s, step.e, Apply(s, step));
    }
  }

  lemma MoveKeepsRegistry(s: System, e: nat, s': System)
    requires RegistryOk(s) && e < |s.entries| == |s'.entries| && s'.registry == s.registry
    requires s'.entries == s.entries[e := s.entries[e].(phase := s'.entries[e].phase)]
    requires Live(s'.entries[e].phase) == Live(s.entries[e].phase)
    ensures RegistryOk(s')
  {
  }

  lemma RemoveKeepsRegistry(s: System, e: nat)
    requires RegistryOk(s) && Enabled(s, Remove(e))
    ensures RegistryOk(Apply(s, Remove(e)))
  {
  }

  lemma StepKeepsWaitGroup(s: System, step: Step)
    requires WaitGroupOk(s) && Enabled(s, step)
    ensures WaitGroupOk(Apply(s, step))
  {
    var s' := Apply(s, step);
    if step.Spawn? {
      CountAppend(HasGoroutine(), s.entries, [Entry(step.id, step.supervisor, Inserted)]);
    } else if OfEntry(step) {
      CountUpdate(HasGoroutine(), s.entries, step.e, s'.entries[step.e]);
    }
  }

  lemma StepKeepsValid(s: System, step: Step)
    requires Valid(s) && Enabled(s, step)
    ensures Valid(Apply(s, step))
  {
    StepKeepsRegistry(s, step);
    StepKeepsWaitGroup(s, step);
  }

  /** The system goes on from s in any way. */
  ghost predicate GoesOn(s: System, ss: seq<System>, steps: seq<Step>) {
    && |ss| == |steps| + 1 && ss[0] == s
    && forall i :: 0 <= i < |steps| ==> Enabled(ss[i], steps[i]) && ss[i + 1] == Apply(ss[i], steps[i])
  }

  ghost predicate Run(ss: seq<System>, steps: seq<Step>) { GoesOn(EMPTY, ss, steps) }

  lemma {:induction false} RunValid(ss: seq<System>, steps: seq<Step>, i: nat)
    requires Run(ss, steps) && i < |ss|
    ensures Valid(ss[i])
  {
    if i > 0 {
      RunValid(ss, steps, i - 1);
      StepKeepsValid(ss[i - 1], steps[i - 1]);
    }
  }

  // ── what holds under every interleaving ──────────────────────────

  /** At most one incarnation of an ID is between insertion and its own removal, so two incarnations
      never process messages at once. */
  lemma OneIncarnation(ss: seq<System>, steps: seq<Step>, i: nat, e: nat, f: nat)
    requires Run(ss, steps) && i < |ss| && e < |ss[i].entries| && f < |ss[i].entries|
    requires ss[i].entries[e].id == ss[i].entries[f].id
    requires Live(ss[i].entries[e].phase) && Live(ss[i].entries[f].phase)
    ensures e == f && ss[i].entries[e].id in ss[i].registry && ss[i].registry[ss[i].entries[e].id] == e
  {
    RunValid(ss, steps, i);
  }

  function WithoutEntry(registry: map<ActorId, nat>, e: nat): map<ActorId, nat> {
    map id | id in registry && registry[id] != e :: registry[id]
  }

  /** Deleting by ID always removes the deleter's own entry and no other, also after a panic in
      OnPostStop, and each incarnation deletes only once. */
  lemma RemovalHitsOwnEntry(ss: seq<System>, steps: seq<Step>, i: nat)
    requires Run(ss, steps) && i < |steps| && steps[i].Remove?
    ensures var e := steps[i].e;
            var id := ss[i].entries[e].id;
            && id in ss[i].registry && ss[i].registry[id] == e
            && ss[i + 1].registry == WithoutEntry(ss[i].registry, e)
            && !Live(ss[i + 1].entries[e].phase)
  {
    RunValid(ss, steps, i);
  }

  lemma {:induction false} PhaseStays(ss: seq<System>, steps: seq<Step>, i: nat, j: nat, e: nat)
    requires Run(ss, steps) && i <= j < |ss| && e < |ss[i].entries|
    ensures e < |ss[j].entries| && ss[j].entries[e].id == ss[i].entries[e].id
    ensures !Live(ss[i].entries[e].phase) ==> !Live(ss[j].entries[e].phase)
    decreases j
  {
    if i < j {
      PhaseStays(ss, steps, i, j - 1, e);
      assert ss[j] == Apply(ss[j - 1], steps[j - 1]);
    }
  }

  /** No incarnation is removed twice. */
  lemma RemovedOnce(ss: seq<System>, steps: seq<Step>, i: nat, j: nat)
    requires Run(ss, steps) && i < |steps| && j < |steps| && steps[i].Remove? && steps[j].Remove?
             && steps[i].e == steps[j].e
    ensures i == j
  {
    var e := steps[i].e;
    if i < j { PhaseStays(ss, steps, i + 1, j, e); }
    if j < i { PhaseStays(ss, steps, j + 1, i, e); }
  }

  /** When the wait group is back to zero and no spawn is half done, every incarnation has finished
      and the registry is empty: what Shutdown waits for. */
  lemma WaitGroupZero(ss: seq<System>, steps: seq<Step>, i: nat)
    requires Run(ss, steps) && i < |ss|
    requires forall e :: 0 <= e < |ss[i].entries| ==> !ss[i].entries[e].phase.Inserted?
    ensures ss[i].wg >= 0
    ensures ss[i].wg == 0 <==> forall e :: 0 <= e < |ss[i].entries| ==> ss[i].entries[e].phase.Gone?
    ensures ss[i].wg == 0 ==> ss[i].registry == map[]
  {
    var s := ss[i];
    RunValid(ss, steps, i);
    if s.wg == 0 {
      forall e | 0 <= e < |s.entries| ensures s.entries[e].phase.Gone? {
        if HasGoroutine()(s.entries[e]) { CountPositive(HasGoroutine(), s.entries, e); }
      }
      assert forall id :: id in s.registry ==> Holds(s, id, s.registry[id]);
    }
    if forall e :: 0 <= e < |s.entries| ==> s.entries[e].phase.Gone? {
      CountZero(HasGoroutine(), s.entries);
    }
  }

  // ── after Shutdown ───────────────────────────────────────────────

  /** However a closed system goes on, each further incarnation uses up one call that was admitted. */
  lemma {:induction false} LateSpawns(s: System, ss: seq<System>, steps: seq<Step>, j: nat)
    requires s.closed && GoesOn(s, ss, steps) && j < |ss|
    ensures ss[j].closed && |ss[j].entries| + ss[j].admitted <= |s.entries| + s.admitted
    ensures |ss[j].entries| >= |s.entries|
  {
    if j > 0 {
      LateSpawns(s, ss, steps, j - 1);
      assert ss[j] == Apply(ss[j - 1], steps[j - 1]);
    }
  }

  /** However the system goes on, nothing runs any more. */
  ghost predicate StoppedForGood(s: System) {
    forall ss, steps :: GoesOn(s, ss, steps) ==> AllZero(ss)
  }

  ghost predicate AllZero(ss: seq<System>) { forall j :: 0 <= j < |ss| ==> ss[j].wg == 0 }

  /** No call of Spawn is half done. */
  ghost predicate NoneHalfDone(s: System) {
    s.admitted == 0 && forall e :: 0 <= e < |s.entries| ==> !s.entries[e].phase.Inserted?
  }

  lemma FreshId(ids: set<ActorId>) returns (id: ActorId)
    ensures id !in ids && forall x :: x in ids ==> |x| < |id|
  {
    id := "a";
    if ids != {} {
      var x :| x in ids;
      var id' := FreshId(ids - {x});
      id := if |x| < |id'| then id' else x + "a";
    }
  }

  lemma GoneIsIdle(s: System)
    requires Valid(s) && s.wg == 0 && NoneHalfDone(s)
    ensures forall e :: 0 <= e < |s.entries| ==> s.entries[e].phase.Gone?
  {
    forall e | 0 <= e < |s.entries| ensures s.entries[e].phase.Gone? {
      if HasGoroutine()(s.entries[e]) { CountPositive(HasGoroutine(), s.entries, e); }
    }
  }

  lemma {:induction false} StaysStopped(s: System, ss: seq<System>, steps: seq<Step>, j: nat)
    requires Valid(s) && s.closed && s.wg == 0 && NoneHalfDone(s) && GoesOn(s, ss, steps) && j < |ss|
    ensures ss[j] == s
  {
    if j > 0 {
      StaysStopped(s, ss, steps, j - 1);
      GoneIsIdle(s);
      assert ss[j] == Apply(ss[j - 1], steps[j - 1]);
    }
  }

  /** A half-done call of Spawn can go on to start its goroutine. */
  lemma CanLaunch(s: System) returns (ss: seq<System>, steps: seq<Step>)
    requires !NoneHalfDone(s)
    ensures GoesOn(s, ss, steps) && ss[|steps|].wg == s.wg + 1
  {
    if s.admitted > 0 {
      var id := FreshId(s.registry.Keys);
      var s1 := Apply(s, Spawn(id, None));
      ss, steps := [s, s1, Apply(s1, Launch(|s.entries|))], [Spawn(id, None), Launch(|s.entries|)];
    } else {
      var e :| 0 <= e < |s.entries| && s.entries[e].phase.Inserted?;
      ss, steps := [s, Apply(s, Launch(e))], [Launch(e)];
    }
  }

  /** Shutdown returns when the wait group is zero.  Nothing runs from then on, whatever happens, iff no
      call of Spawn was half done at that moment. */
  lemma ShutdownHoldsIff(s: System)
    requires Valid(s) && s.closed && s.wg == 0
    ensures StoppedForGood(s) <==> NoneHalfDone(s)
  {
    if NoneHalfDone(s) {
      forall ss: seq<System>, steps: seq<Step> | GoesOn(s, ss, steps) ensures AllZero(ss) {
        forall j | 0 <= j < |ss| ensures ss[j].wg == 0 { StaysStopped(s, ss, steps, j); }
      }
    } else {
      var ss, steps := CanLaunch(s);
      assert !AllZero(ss);
    }
  }

  /** Spawn without interruption: the insertion and the start of the goroutine. */
  function SpawnedWhole(s: System, id: ActorId, supervisor: Option<ActorId>): System {
    Moved(Insert(s, id, supervisor), |s.entries|, Starting).(wg := s.wg + 1)
  }

  // ── the system object: one method per critical section ───────────

  class ActorSystem {
    var entries: seq<Entry>
    var registry: map<ActorId, nat>
    var wg: int
    var closed: bool
    ghost var admitted: nat

    ghost function State(): System
      reads this
    {
      System(entries, registry, wg, closed, admitted)
    }

    constructor ()
      ensures State() == EMPTY
    {
      entries, registry, wg, closed, admitted := [], map[], 0, false, 0;
    }

    /** The first check of Spawn, which does not hold the lock. */
    method CheckOpen() returns (ok: bool)
      modifies this
      ensures ok == Enabled(old(State()), Check)
      ensures State() == if ok then Apply(old(State()), Check) else old(State())
    {
      ok := !closed;
      if ok { admitted := admitted + 1; }
    }

    /** The section of Spawn that holds the lock. */
    method InsertIfFree(id: ActorId, supervisor: Option<ActorId>) returns (entry: Option<nat>)
      requires admitted > 0
      modifies this
      ensures entry.Some? <==> Enabled(old(State()), Spawn(id, supervisor))
      ensures State() == Apply(old(State()), if entry.Some? then Spawn(id, supervisor) else Reject(id))
      ensures entry.Some? ==>
                && entry.value == |old(entries)| && registry == old(registry)[id := entry.value]
                && entries == old(entries) + [Entry(id, supervisor, Inserted)]
    {
      admitted := admitted - 1;
      if id in registry { return None; }
      entry := Some(|entries|);
      registry := registry[id := |entries|];
      entries := entries + [Entry(id, supervisor, Inserted)];
    }

    /** The two sections in a row. */
    method TrySpawn(id: ActorId, supervisor: Option<ActorId>) returns (entry: Option<nat>)
      modifies this
      ensures entry.Some? <==> CanSpawn(old(State()), id)
      ensures State() == if entry.Some? then Insert(old(State()), id, supervisor) else old(State())
      ensures entry.Some? ==>
                && entry.value == |old(entries)| && registry == old(registry)[id := entry.value]
                && entries == old(entries) + [Entry(id, supervisor, Inserted)]
    {
      var ok := CheckOpen();
      if !ok { return None; }
      entry := InsertIfFree(id, supervisor);
    }

    /** The rest of Spawn: count the goroutine and start it. */
    method StartGoroutine(e: nat)
      requires Enabled(State(), Launch(e))
      modifies this
      ensures State() == Apply(old(State()), Launch(e))
      ensures wg == old(wg) + 1 && registry == old(registry)
    {
      wg := wg + 1;
      entries := entries[e := entries[e].(phase := Starting)];
    }

    method Lookup(id: ActorId) returns (entry: Option<nat>)
      requires RegistryOk(State())
      ensures entry.Some? <==> exists e :: 0 <= e < |entries| && entries[e].id == id && Live(entries[e].phase)
      ensures entry.Some? ==> Holds(State(), id, entry.value)
    {
      if id !in registry { return None; }
      entry := Some(registry[id]);
      assert Holds(State(), id, registry[id]);
    }

    /** The critical section at the end of runActor and in handleActorFailure. */
    method DeleteById(e: nat)
      requires RegistryOk(State()) && Enabled(State(), Remove(e))
      modifies this
      ensures State() == Apply(old(State()), Remove(e)) && RegistryOk(State())
      ensures old(registry)[entries[e].id] == e && registry == old(registry) - {old(entries[e].id)} && wg == old(wg)
    {
      assert Live(entries[e].phase);
      registry := registry - {entries[e].id};
      entries := entries[e := entries[e].(phase := if entries[e].phase.Failing? then Unnotified else Leaving)];
    }

    /** RestartActor: whoever is registered gets a stop message, then a fresh incarnation is spawned. */
    method RestartActor(id: ActorId, supervisor: Option<ActorId>) returns (stopped: Option<nat>, entry: Option<nat>)
      requires RegistryOk(State())
      modifies this
      ensures stopped.Some? <==> id in old(registry)
      ensures entry.Some? <==> stopped.None? && !old(closed)
      ensures State() == if entry.Some? then SpawnedWhole(old(State()), id, supervisor) else old(State())
      ensures entry.Some? ==>
                && entries == old(entries) + [Entry(id, supervisor, Starting)]
                && registry == old(registry)[id := |old(entries)|] && wg == old(wg) + 1
    {
      stopped := Lookup(id);
      entry := TrySpawn(id, supervisor);
      if entry.Some? { StartGoroutine(entry.value); }
    }
  }
}
