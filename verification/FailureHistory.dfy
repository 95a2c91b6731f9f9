/** The failure list as a history: what a strategy sees in every run, also one in which others than
    the supervisor spawn the actor, and when it therefore escalates or stops. */
module FailureHistory {
  import opened Basics
  import opened Counting
  import opened Lifecycle
  import opened Strategy
  import opened Supervision
  import opened SupervisionSafety

  // ── the list is the history ──────────────────────────────────────

  /** Event i delivers a failure of x that the supervisor records. */
  ghost predicate Records(ws: seq<World>, es: seq<Event>, x: ActorId, i: nat)
    requires |ws| == |es| + 1 && i < |es| && SupEnabled(ws[i], es[i])
  {
    es[i].Handle? && ws[i].queue[0] == Failed(x) && x in ws[i].sup.factories
  }

  /** Event i completes a restart of x or unregisters it. */
  ghost predicate Clears(ws: seq<World>, es: seq<Event>, x: ActorId, i: nat)
    requires |ws| == |es| + 1 && i < |es| && SupEnabled(ws[i], es[i])
  {
    (es[i].Handle? && ws[i].queue[0] == UnregisterMsg(x)) || (es[i].Settle? && ws[i].pc.id == x)
  }

  /** The times of the failures of x recorded since its last restart or unregistration. */
  ghost function History(c: Config, x: ActorId, ws: seq<World>, es: seq<Event>, i: nat): seq<Time>
    requires OpenRun(c, x, ws, es) && i < |ws|
  {
    if i == 0 then []
    else if Records(ws, es, x, i - 1) then History(c, x, ws, es, i - 1) + [es[i - 1].now]
    else if Clears(ws, es, x, i - 1) then []
    else History(c, x, ws, es, i - 1)
  }

  lemma ListStep(c: Config, w: World, x: ActorId, e: Event)
    requires SupEnabled(w, e)
    ensures var known, known' := FailuresOf(w.sup.failures, x), FailuresOf(SupApply(c, w, e).sup.failures, x);
            if e.Handle? && w.queue[0] == Failed(x) && x in w.sup.factories
            then known' == Recorded(known, MAX_AGE, e.now)
            else if (e.Handle? && w.queue[0] == UnregisterMsg(x)) || (e.Settle? && w.pc.id == x) then known' == []
            else known' == known
  {
    if e.Handle? && w.queue[0].Failed? {
      var id := w.queue[0].id;
      var (sup, r) := FailureStep(c.strategy, w.sup, id, e.now, e.later);
      assert React(c, w.(queue := w.queue[1..], sup := sup), id, r, e.found).sup == sup;
      if id != x { FailureElsewhere(c.strategy, w.sup, id, x, e.now, e.later); }
    }
  }

  /** In every run the tracker's list is the repeatedly pruned history. */
  lemma {:induction false} ListIsTrackedHistory(c: Config, x: ActorId, ws: seq<World>, es: seq<Event>, i: nat)
    requires OpenRun(c, x, ws, es) && i < |ws|
    ensures FailuresOf(ws[i].sup.failures, x) == Tracked(History(c, x, ws, es, i), MAX_AGE)
  {
    if i > 0 {
      ListIsTrackedHistory(c, x, ws, es, i - 1);
      ListStep(c, ws[i - 1], x, es[i - 1]);
      if Records(ws, es, x, i - 1) { TrackedPush(History(c, x, ws, es, i - 1), es[i - 1].now, MAX_AGE); }
    }
  }

  /** The clock readings of a run never go back. */
  ghost predicate ClockMonotone(es: seq<Event>) {
    && (forall i :: 0 <= i < |es| && es[i].Handle? ==> es[i].now <= es[i].later)
    && (forall i, j :: 0 <= i < j < |es| && es[i].Handle? && es[j].Handle? ==> es[i].later <= es[j].now)
  }

  ghost predicate NotBefore(es: seq<Event>, i: nat, t: Time)
    requires i <= |es|
  {
    forall k :: 0 <= k < i && es[k].Handle? ==> es[k].now <= t
  }

  lemma {:induction false} HistoryIsMonotone(c: Config, x: ActorId, ws: seq<World>, es: seq<Event>, i: nat, t: Time)
    requires OpenRun(c, x, ws, es) && i < |ws| && ClockMonotone(es) && NotBefore(es, i, t)
    ensures ClockOk(History(c, x, ws, es, i), t)
    decreases i
  {
    if i > 0 {
      var h := History(c, x, ws, es, i - 1);
      HistoryIsMonotone(c, x, ws, es, i - 1, t);
      if Records(ws, es, x, i - 1) { HistoryIsMonotone(c, x, ws, es, i - 1, es[i - 1].now); }
    }
  }

  /** With a monotone clock, the list that the strategy sees is exactly the failures since the last
      restart or unregistration that are less than 30 seconds old. */
  lemma ListIsRecentHistory(c: Config, x: ActorId, ws: seq<World>, es: seq<Event>, i: nat)
    requires OpenRun(c, x, ws, es) && i < |es| && ClockMonotone(es) && Records(ws, es, x, i)
    ensures FailuresOf(ws[i + 1].sup.failures, x) == Recent(History(c, x, ws, es, i + 1), es[i].now - MAX_AGE)
  {
    ListIsTrackedHistory(c, x, ws, es, i + 1);
    RecordedInOrder(c, x, ws, es, i);
    TrackedUpTo(History(c, x, ws, es, i + 1), FailuresOf(ws[i + 1].sup.failures, x), es[i].now);
  }

  lemma TrackedUpTo(h: seq<Time>, list: seq<Time>, last: Time)
    requires Monotone(h) && h != [] && h[|h| - 1] == last && list == Tracked(h, MAX_AGE)
    ensures list == Recent(h, last - MAX_AGE)
  {
    TrackedIsRecent(h, MAX_AGE);
  }

  /** With a monotone clock and a window of at most 30 seconds, each decision is the one that the whole
      history since the last restart or unregistration calls for. */
  lemma DecisionUsesWholeHistory(c: Config, x: ActorId, ws: seq<World>, es: seq<Event>, i: nat)
    requires OpenRun(c, x, ws, es) && i < |es| && ClockMonotone(es) && Records(ws, es, x, i)
    requires !c.strategy.ExponentialBackoff? && EffectiveWithin(c.strategy.within) <= MAX_AGE
    ensures Decide(c.strategy, FailuresOf(ws[i + 1].sup.failures, x), es[i].later)
         == Decide(c.strategy, History(c, x, ws, es, i + 1), es[i].later)
  {
    ListIsTrackedHistory(c, x, ws, es, i + 1);
    RecordedInOrder(c, x, ws, es, i);
    WindowInside(c.strategy, History(c, x, ws, es, i + 1), es[i].later);
  }

  lemma RecordedInOrder(c: Config, x: ActorId, ws: seq<World>, es: seq<Event>, i: nat)
    requires OpenRun(c, x, ws, es) && i < |es| && ClockMonotone(es) && Records(ws, es, x, i)
    ensures var h := History(c, x, ws, es, i + 1);
            ClockOk(h, es[i].later) && h != [] && h[|h| - 1] == es[i].now
  {
    HistoryIsMonotone(c, x, ws, es, i + 1, es[i].later);
  }

  // ── when OneForOne escalates, and how long an escalated failure circles ──

  /** A failure at time t counts at event i: it is less than 30 seconds old and lies in the strategy's
      window, which is ten seconds long if none is given. */
  predicate Counted(s: RestartStrategy, t: Time, now: Time, later: Time)
    requires !s.ExponentialBackoff?
  {
    t > now - 30_000_000_000 && t > later - if s.within > 0 then s.within else 10_000_000_000
  }

  /** The strategy does not count, or at most maxRetries of the failures count. */
  ghost predicate WithinLimit(s: RestartStrategy, history: seq<Time>, now: Time, later: Time)
    requires !s.ExponentialBackoff?
  {
    s.maxRetries <= 0 || |set i | 0 <= i < |history| && Counted(s, history[i], now, later)| <= s.maxRetries
  }

  lemma CountedFailures(s: RestartStrategy, h: seq<Time>, known: seq<Time>, now: Time, later: Time)
    requires !s.ExponentialBackoff? && known == Recent(h, now - MAX_AGE)
    ensures WithinLimit(s, h, now, later) <==> !(s.maxRetries > 0 && Exceeds(s.maxRetries, s.within, known, later))
  {
    var a, b := now - MAX_AGE, later - EffectiveWithin(s.within);
    RecentBoth(h, a, b);
    RecentCounts(h, if a <= b then b else a);
    assert (set i | 0 <= i < |h| && Counted(s, h[i], now, later))
        == set i | 0 <= i < |h| && h[i] > if a <= b then b else a;
  }

  /** The supervisor goes on to restart x with the factory it has. */
  ghost predicate RestartsNext(w: World, w': World, x: ActorId) {
    x in w.sup.factories && w'.pc == Respawning(x, w.sup.factories[x])
  }

  /** The failure of x is passed on to its own supervisor, which may be this one; x is not restarted
      and keeps its factory. */
  ghost predicate PassedOn(c: Config, w: World, w': World, x: ActorId, found: bool) {
    && w.queue != [] && x in w.sup.factories
    && w'.pc.Waiting? && w'.timers == w.timers && w'.sys == w.sys && w'.sup.factories == w.sup.factories
    && w'.queue == w.queue[1..] + if w.sup.factories[x].supervisor == Some(c.me) && found then [Failed(x)] else []
  }

  /** OneForOne restarts at once unless the recorded list exceeds its limit; then it escalates. */
  lemma OneForOneReacts(c: Config, w: World, x: ActorId, now: Time, later: Time, found: bool)
    requires c.strategy.OneForOne? && w.pc.Waiting? && w.queue != [] && w.queue[0] == Failed(x) && x in w.sup.factories
    ensures var w' := HandleWorld(c, w, now, later, found);
            var known := FailuresOf(w'.sup.failures, x);
            && known == Recorded(FailuresOf(w.sup.failures, x), MAX_AGE, now)
            && if c.strategy.maxRetries > 0 && Exceeds(c.strategy.maxRetries, c.strategy.within, known, later)
               then PassedOn(c, w, w', x, found) else RestartsNext(w, w', x)
  {
  }

  lemma OneForOneByHistory(c: Config, w: World, w': World, x: ActorId, h: seq<Time>, now: Time, later: Time,
                           found: bool)
    requires c.strategy.OneForOne? && w.pc.Waiting? && w.queue != [] && w.queue[0] == Failed(x) && x in w.sup.factories
    requires w' == HandleWorld(c, w, now, later, found) && FailuresOf(w'.sup.failures, x) == Recent(h, now - MAX_AGE)
    ensures if WithinLimit(c.strategy, h, now, later) then RestartsNext(w, w', x) else PassedOn(c, w, w', x, found)
  {
    CountedFailures(c.strategy, h, FailuresOf(w'.sup.failures, x), now, later);
    OneForOneReacts(c, w, x, now, later, found);
  }

  /** In every run with a monotone clock, OneForOne does not restart but escalates exactly when it counts
      and more than maxRetries of the failures since the last restart or unregistration are still
      tracked and in the window. */
  lemma OneForOneEscalatesIff(c: Config, x: ActorId, ws: seq<World>, es: seq<Event>, i: nat)
    requires OpenRun(c, x, ws, es) && i < |es| && ClockMonotone(es) && Records(ws, es, x, i)
    requires c.strategy.OneForOne?
    ensures if WithinLimit(c.strategy, History(c, x, ws, es, i + 1), es[i].now, es[i].later)
            then RestartsNext(ws[i], ws[i + 1], x) else PassedOn(c, ws[i], ws[i + 1], x, es[i].found)
  {
    ListIsRecentHistory(c, x, ws, es, i);
    assert ws[i].pc.Waiting? && ws[i + 1] == HandleWorld(c, ws[i], es[i].now, es[i].later, es[i].found);
    OneForOneByHistory(c, ws[i], ws[i + 1], x, History(c, x, ws, es, i + 1), es[i].now, es[i].later, es[i].found);
  }

  /** Event i handles a failure of x at a supervisor that escalates to itself. */
  ghost predicate EscalatesToItself(c: Config, x: ActorId, ws: seq<World>, es: seq<Event>, i: nat)
    requires OpenRun(c, x, ws, es) && i < |es|
  {
    && c.strategy.Escalation? && Records(ws, es, x, i) && es[i].found
    && ws[i].sup.factories[x].supervisor == Some(c.me)
  }

  /** In every run, such a failure goes back to the queue as long as the strategy does not count or at
      most maxRetries of the handlings since the last unregistration lie in the window; at the first
      handling that exceeds this it is dropped and the factory is forgotten. */
  lemma EscalationCirclesIff(c: Config, x: ActorId, ws: seq<World>, es: seq<Event>, i: nat)
    requires OpenRun(c, x, ws, es) && i < |es| && ClockMonotone(es) && EscalatesToItself(c, x, ws, es, i)
    ensures if WithinLimit(c.strategy, History(c, x, ws, es, i + 1), es[i].now, es[i].later)
            then GoesBack(ws[i], ws[i + 1], x) else GivenUp(ws[i], ws[i + 1], x)
  {
    ListIsRecentHistory(c, x, ws, es, i);
    EscalationByHistory(c, ws[i], ws[i + 1], x, History(c, x, ws, es, i + 1), es[i].now, es[i].later);
  }

  lemma EscalationByHistory(c: Config, w: World, w': World, x: ActorId, h: seq<Time>, now: Time, later: Time)
    requires c.strategy.Escalation? && w.queue != [] && w.queue[0] == Failed(x)
    requires x in w.sup.factories && w.sup.factories[x].supervisor == Some(c.me)
    requires w' == HandleWorld(c, w, now, later, true) && FailuresOf(w'.sup.failures, x) == Recent(h, now - MAX_AGE)
    ensures if WithinLimit(c.strategy, h, now, later) then GoesBack(w, w', x) else GivenUp(w, w', x)
  {
    CountedFailures(c.strategy, h, FailuresOf(w'.sup.failures, x), now, later);
    EscalationReturnsIff(c, w, x, now, later);
  }

  ghost predicate AllCounted(s: RestartStrategy, h: seq<Time>, now: Time, later: Time)
    requires !s.ExponentialBackoff?
  {
    forall k :: 0 <= k < |h| ==> Counted(s, h[k], now, later)
  }

  lemma AllIndices(s: RestartStrategy, h: seq<Time>, now: Time, later: Time)
    requires !s.ExponentialBackoff? && AllCounted(s, h, now, later)
    ensures |set i | 0 <= i < |h| && Counted(s, h[i], now, later)| == |h|
  {
    var cutoff := now - 30_000_000_000;
    RecentAll(h, cutoff);
    RecentCounts(h, cutoff);
    assert (set i | 0 <= i < |h| && Counted(s, h[i], now, later)) == set i | 0 <= i < |h| && h[i] > cutoff;
  }

  /** While all handlings so far lie in the window, the failure is given up exactly at handling number
      maxRetries + 1. */
  lemma EscalationStopsAfter(c: Config, x: ActorId, ws: seq<World>, es: seq<Event>, i: nat)
    requires OpenRun(c, x, ws, es) && i < |es| && ClockMonotone(es) && EscalatesToItself(c, x, ws, es, i)
    requires c.strategy.maxRetries > 0
    requires AllCounted(c.strategy, History(c, x, ws, es, i + 1), es[i].now, es[i].later)
    ensures if |History(c, x, ws, es, i + 1)| <= c.strategy.maxRetries
            then GoesBack(ws[i], ws[i + 1], x) else GivenUp(ws[i], ws[i + 1], x)
  {
    EscalationCirclesIff(c, x, ws, es, i);
    AllIndices(c.strategy, History(c, x, ws, es, i + 1), es[i].now, es[i].later);
  }

  // ── a history that grows ─────────────────────────────────────────

  const WITNESS: Config := Config("supervisor", OneForOne(1, 10 * SECOND))
  const OWN: Factory := Factory(Some("supervisor"))

  function Incarnation(p: Phase): Entry { Entry("actor", Some("supervisor"), p) }

  /** The actor fails; before the supervisor restarts it, somebody else spawns it again, so the restart
      is refused and the history is kept; then it fails once more. */
  const WITNESS_EVENTS: seq<Event> :=
    [Life(Check, true), Life(Spawn("actor", Some("supervisor")), true), Life(Launch(0), true), Life(Fail(0), true),
     Life(Lifecycle.Remove(0), true), Life(Notify(0), true),
     Life(Check, true), Life(Spawn("actor", Some("supervisor")), true), Handle(0, 0, true), Gate, Respawn,
     Life(Launch(1), true), Life(Fail(1), true), Life(Lifecycle.Remove(1), true), Life(Notify(1), true),
     Handle(1, 1, true)]

  function WitnessEntries(k: nat): seq<Entry> {
    match k
    case 0 => []
    case 1 => []
    case 2 => [Incarnation(Inserted)]
    case 3 => [Incarnation(Starting)]
    case 4 => [Incarnation(Failing)]
    case 5 => [Incarnation(Unnotified)]
    case 6 => [Incarnation(Leaving)]
    case 7 => [Incarnation(Leaving)]
    case 12 => [Incarnation(Leaving), Incarnation(Starting)]
    case 13 => [Incarnation(Leaving), Incarnation(Failing)]
    case 14 => [Incarnation(Leaving), Incarnation(Unnotified)]
    case _ => [Incarnation(Leaving), Incarnation(if k < 12 then Inserted else Leaving)]
  }

  function WitnessWorld(k: nat): World {
    World(System(WitnessEntries(k),
                 if 2 <= k <= 4 then map["actor" := 0] else if 8 <= k <= 13 then map["actor" := 1] else map[],
                 if k < 3 then 0 else if k < 12 then 1 else 2, false, if k == 1 || k == 7 then 1 else 0),
          SupState(map["actor" := OWN],
                   if k < 9 then map[] else if k < 16 then map["actor" := [0]] else map["actor" := [0, 1]]),
          if 6 <= k <= 8 || k >= 15 then [Failed("actor")] else [], [],
          if k == 9 then Respawning("actor", OWN) else if k == 10 then Checked("actor", OWN) else Waiting)
  }

  lemma RecentOne(a: Time, cutoff: Time)
    requires a > cutoff
    ensures Recent([a], cutoff) == [a]
  {
    RecentAll([a], cutoff);
  }

  lemma RecentTwo(a: Time, b: Time, cutoff: Time)
    requires a > cutoff && b > cutoff
    ensures Recent([a, b], cutoff) == [a, b]
  {
    RecentAll([a, b], cutoff);
  }

  lemma SecondRecorded(a: Time, now: Time)
    requires a > now - MAX_AGE
    ensures Recorded([a], MAX_AGE, now) == [a, now]
  {
    assert [a] + [now] == [a, now];
    RecentTwo(a, now, now - MAX_AGE);
  }

  /** With one retry allowed, a single failure is restarted and a second one within the window passed on. */
  lemma OneRetry(a: Time, b: Time, later: Time)
    requires a > later - 10 * SECOND && b > later - 10 * SECOND
    ensures Decide(WITNESS.strategy, [a], later) == Restart(0)
    ensures Decide(WITNESS.strategy, [a, b], later) == Escalate
  {
    RecentOne(a, later - 10 * SECOND);
    RecentTwo(a, b, later - 10 * SECOND);
  }

  lemma WitnessLife(k: nat)
    requires k < 16 && WITNESS_EVENTS[k].Life?
    ensures var w, e := WitnessWorld(k), WITNESS_EVENTS[k];
            SupEnabled(w, e) && WitnessWorld(k + 1) == SupApply(WITNESS, w, e)
  {
    assert map["actor" := 0] - {"actor"} == map[] && map["actor" := 1] - {"actor"} == map[];
  }

  lemma WitnessRestart()
    ensures var w, e := WitnessWorld(8), WITNESS_EVENTS[8];
            SupEnabled(w, e) && WitnessWorld(9) == SupApply(WITNESS, w, e)
  {
    SingleFailure(0);
    OneRetry(0, 0, 0);
  }

  lemma WitnessRefused(k: nat)
    requires k == 9 || k == 10
    ensures var w, e := WitnessWorld(k), WITNESS_EVENTS[k];
            SupEnabled(w, e) && WitnessWorld(k + 1) == SupApply(WITNESS, w, e)
  {
  }

  lemma WitnessEscalates()
    ensures var w, e := WitnessWorld(15), WITNESS_EVENTS[15];
            SupEnabled(w, e) && WitnessWorld(16) == SupApply(WITNESS, w, e)
  {
    SecondRecorded(0, 1);
    OneRetry(0, 1, 1);
    assert map["actor" := [0]]["actor" := [0, 1]] == map["actor" := [0, 1]];
  }

  lemma WitnessStep(k: nat)
    requires k < 16
    ensures SupEnabled(WitnessWorld(k), WITNESS_EVENTS[k])
    ensures WitnessWorld(k + 1) == SupApply(WITNESS, WitnessWorld(k), WITNESS_EVENTS[k])
  {
    if k == 8 {
      WitnessRestart();
    } else if k == 9 || k == 10 {
      WitnessRefused(k);
    } else if k == 15 {
      WitnessEscalates();
    } else {
      WitnessLife(k);
    }
  }

  lemma WitnessEnds()
    ensures Begins(WitnessWorld(0), "actor") && ClockMonotone(WITNESS_EVENTS)
    ensures WITNESS_EVENTS[15].Handle? && WitnessWorld(15).queue == [Failed("actor")]
    ensures FailuresOf(WitnessWorld(16).sup.failures, "actor") == [0, 1]
    ensures WitnessWorld(16).pc == Waiting && WitnessWorld(16).queue == [Failed("actor")]
  {
    assert CountIf(HasGoroutine(), []) == 0;
  }

  /** A run in which OneForOne does escalate: with one retry allowed, the second failure is passed on. */
  lemma GrowingHistory() returns (ws: seq<World>)
    ensures OpenRun(WITNESS, "actor", ws, WITNESS_EVENTS) && Begins(ws[0], "actor") && ClockMonotone(WITNESS_EVENTS)
    ensures Records(ws, WITNESS_EVENTS, "actor", 15) && FailuresOf(ws[16].sup.failures, "actor") == [0, 1]
    ensures ws[16].pc == Waiting && ws[16].queue == [Failed("actor")]
  {
    ws := seq(17, k requires 0 <= k < 17 => WitnessWorld(k));
    WitnessEnds();
    WitnessSteps(ws);
  }

  lemma WitnessSteps(ws: seq<World>)
    requires |ws| == 17 && forall k :: 0 <= k < 17 ==> ws[k] == WitnessWorld(k)
    ensures OpenRun(WITNESS, "actor", ws, WITNESS_EVENTS)
  {
    forall k | 0 <= k < 16
      ensures SupEnabled(ws[k], WITNESS_EVENTS[k]) && ws[k + 1] == SupApply(WITNESS, ws[k], WITNESS_EVENTS[k])
    {
      WitnessStep(k);
    }
  }
}
