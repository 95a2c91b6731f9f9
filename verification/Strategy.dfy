/** Failure tracking and restart strategies (actor-framework/supervision/strategy.go).  Times and
    durations are nanoseconds; the clock reading is a parameter. */
module Strategy {
  import opened Lifecycle

  type Time = int
  type Duration = int

  const SECOND: Duration := 1_000_000_000

  // ── the failure list ─────────────────────────────────────────────

  /** The entries strictly after the cutoff, in order. */
  function Recent(s: seq<Time>, cutoff: Time): seq<Time> {
    if s == [] then []
    else
      var last := s[|s| - 1];
      Recent(s[..|s| - 1], cutoff) + if last > cutoff then [last] else []
  }

  lemma RecentPush(s: seq<Time>, t: Time, cutoff: Time)
    ensures Recent(s + [t], cutoff) == Recent(s, cutoff) + if t > cutoff then [t] else []
  {
    assert (s + [t])[..|s|] == s;
  }

  /** Filtering twice is filtering by the later cutoff. */
  lemma {:induction false} RecentTwice(s: seq<Time>, early: Time, late: Time)
    requires early <= late
    ensures Recent(Recent(s, early), late) == Recent(s, late)
    decreases |s|
  {
    if s != [] {
      var init, t := s[..|s| - 1], s[|s| - 1];
      RecentTwice(init, early, late);
      if t > early {
        assert Recent(s, early) == Recent(init, early) + [t];
        RecentPush(Recent(init, early), t, late);
      } else {
        assert Recent(s, early) == Recent(init, early) && Recent(s, late) == Recent(init, late);
      }
    }
  }

  /** Filtering twice, whichever cutoff is later. */
  lemma RecentBoth(s: seq<Time>, a: Time, b: Time)
    ensures Recent(Recent(s, a), b) == Recent(s, if a <= b then b else a)
  {
    if a <= b {
      RecentTwice(s, a, b);
    } else {
      RecentAfter(s, a);
      RecentAll(Recent(s, a), b);
    }
  }

  predicate AllAfter(s: seq<Time>, cutoff: Time) { forall i :: 0 <= i < |s| ==> s[i] > cutoff }

  lemma {:induction false} RecentAfter(s: seq<Time>, cutoff: Time)
    ensures AllAfter(Recent(s, cutoff), cutoff)
    decreases |s|
  {
    if s != [] { RecentAfter(s[..|s| - 1], cutoff); }
  }

  lemma {:induction false} RecentAll(s: seq<Time>, cutoff: Time)
    requires AllAfter(s, cutoff)
    ensures Recent(s, cutoff) == s
    decreases |s|
  {
    if s != [] { RecentAll(s[..|s| - 1], cutoff); }
  }

  /** Keeps the entries after the cutoff at the front of the slice, overwriting it as it is read. */
  method PruneInPlace(buf: array<Time>, cutoff: Time) returns (m: nat)
    modifies buf
    ensures m <= buf.Length && buf[..m] == Recent(old(buf[..]), cutoff)
  {
    m := 0;
    ghost var was := buf[..];
    for r := 0 to buf.Length
      invariant m <= r && buf[..m] == Recent(was[..r], cutoff)
      invariant forall k :: r <= k < buf.Length ==> buf[k] == was[k]
    {
      assert was[..r + 1] == was[..r] + [was[r]];
      RecentPush(was[..r], was[r], cutoff);
      ghost var kept := buf[..m];
      if buf[r] > cutoff {
        buf[m] := buf[r];
        m := m + 1;
        assert buf[..m] == kept + [was[r]];
      }
    }
    assert was[..buf.Length] == was;
  }

  class FailureTracker {
    var failures: map<ActorId, seq<Time>>

    constructor ()
      ensures failures == map[]
    {
      failures := map[];
    }

    method Record(id: ActorId, maxAge: Duration, now: Time) returns (recent: seq<Time>)
      modifies this
      ensures failures == old(failures)[id := recent]
      ensures recent == Recorded(FailuresOf(old(failures), id), maxAge, now)
    {
      var known := if id in failures then failures[id] else [];
      var all := known + [now];
      var buf := new Time[|all|](i requires 0 <= i < |all| => all[i]);
      assert buf[..] == all;
      var m := PruneInPlace(buf, now - maxAge);
      recent := buf[..m];
      failures := failures[id := recent];
    }

    method Reset(id: ActorId)
      modifies this
      ensures failures == old(failures) - {id} && FailuresOf(failures, id) == []
    {
      failures := failures - {id};
    }
  }

  function FailuresOf(failures: map<ActorId, seq<Time>>, id: ActorId): seq<Time> {
    if id in failures then failures[id] else []
  }

  /** The list after one more failure at time `now`. */
  function Recorded(known: seq<Time>, maxAge: Duration, now: Time): seq<Time> {
    Recent(known + [now], now - maxAge)
  }

  /** The list after failures at all the given times, starting from a reset. */
  function Tracked(history: seq<Time>, maxAge: Duration): seq<Time> {
    if history == [] then []
    else Recorded(Tracked(history[..|history| - 1], maxAge), maxAge, history[|history| - 1])
  }

  predicate Monotone(s: seq<Time>) {
    forall i, j :: 0 <= i < j < |s| ==> s[i] <= s[j]
  }

  /** Recording on a pruned list gives the same as pruning the full one. */
  lemma RecordedOnPruned(full: seq<Time>, cutoff: Time, maxAge: Duration, now: Time)
    requires cutoff <= now - maxAge
    ensures Recorded(Recent(full, cutoff), maxAge, now) == Recent(full + [now], now - maxAge)
  {
    RecentPush(Recent(full, cutoff), now, now - maxAge);
    RecentPush(full, now, now - maxAge);
    RecentTwice(full, cutoff, now - maxAge);
  }

  lemma TrackedPush(before: seq<Time>, now: Time, maxAge: Duration)
    ensures Tracked(before + [now], maxAge) == Recorded(Tracked(before, maxAge), maxAge, now)
  {
    assert (before + [now])[..|before|] == before;
  }

  /** With a monotone clock, repeated pruning keeps exactly the recent part of the full history. */
  lemma {:induction false} TrackedIsRecent(history: seq<Time>, maxAge: Duration)
    requires Monotone(history) && history != []
    ensures Tracked(history, maxAge) == Recent(history, history[|history| - 1] - maxAge)
    decreases |history|
  {
    var k := |history| - 1;
    var before, last := history[..k], history[k];
    assert history == before + [last];
    TrackedPush(before, last, maxAge);
    if k == 0 {
      assert before == [] && Tracked(before, maxAge) == [];
    } else {
      TrackedIsRecent(before, maxAge);
      RecordedOnPruned(before, before[k - 1] - maxAge, maxAge, last);
    }
  }

  // ── the strategies ───────────────────────────────────────────────

  datatype Decision = Restart(delay: Duration) | Escalate | Stop

  datatype RestartStrategy =
    | OneForOne(maxRetries: int, within: Duration)
    | ExponentialBackoff(initialDelay: Duration, maxDelay: Duration, factor: real)
    | Escalation(maxRetries: int, within: Duration)

  function EffectiveWithin(within: Duration): Duration { if within <= 0 then 10 * SECOND else within }

  /** More than maxRetries failures lie within the window that ends now. */
  predicate Exceeds(maxRetries: int, within: Duration, failures: seq<Time>, now: Time) {
    |Recent(failures, now - EffectiveWithin(within))| > maxRetries
  }

  function Pow(f: real, k: nat): real { if k == 0 then 1.0 else f * Pow(f, k - 1) }

  /** A float duration cut to whole nanoseconds; all delays are positive before the cut. */
  function BackoffDelay(s: RestartStrategy, n: nat): Duration
    requires s.ExponentialBackoff?
  {
    var initial := if s.initialDelay <= 0 then SECOND else s.initialDelay;
    var most := if s.maxDelay <= 0 then 30 * SECOND else s.maxDelay;
    var factor := if s.factor <= 0.0 then 2.0 else s.factor;
    Capped(initial, if n == 0 then 1.0 / factor else Pow(factor, n - 1), most)
  }

  function Capped(initial: Duration, scale: real, most: Duration): Duration {
    var delay := (initial as real * scale).Floor;
    if delay > most then most else delay
  }

  function Decide(s: RestartStrategy, failures: seq<Time>, now: Time): Decision {
    match s
    case OneForOne(retries, within) =>
      if retries > 0 && Exceeds(retries, within, failures, now) then Escalate else Restart(0)
    case ExponentialBackoff(_, _, _) => Restart(BackoffDelay(s, |failures|))
    case Escalation(retries, within) =>
      if retries > 0 && Exceeds(retries, within, failures, now) then Stop else Escalate
  }

  /** The counting loop of OneForOne and Escalation. */
  method CountRecent(failures: seq<Time>, cutoff: Time) returns (count: nat)
    ensures count == |Recent(failures, cutoff)|
  {
    count := 0;
    for i := 0 to |failures|
      invariant count == |Recent(failures[..i], cutoff)|
    {
      assert failures[..i + 1] == failures[..i] + [failures[i]];
      RecentPush(failures[..i], failures[i], cutoff);
      if failures[i] > cutoff { count := count + 1; }
    }
    assert failures[..|failures|] == failures;
  }

  /** The power that scales the initial delay; without a failure the exponent is -1. */
  method Power(f: real, k: int) returns (p: real)
    requires f != 0.0 && k >= -1
    ensures p == if k < 0 then 1.0 / f else Pow(f, k)
  {
    if k < 0 { return 1.0 / f; }
    p := 1.0;
    for i := 0 to k
      invariant p == Pow(f, i)
    {
      p := f * p;
    }
  }

  /** The arithmetic of ExponentialBackoff, with its three defaults. */
  method Backoff(s: RestartStrategy, n: nat) returns (delay: Duration)
    requires s.ExponentialBackoff?
    ensures delay == BackoffDelay(s, n)
  {
    var initial, most, factor := s.initialDelay, s.maxDelay, s.factor;
    if initial <= 0 { initial := SECOND; }
    if most <= 0 { most := 30 * SECOND; }
    if factor <= 0.0 { factor := 2.0; }
    var scale := Power(factor, n - 1);
    delay := CapDelay(initial, scale, most);
  }

  method CapDelay(initial: Duration, scale: real, most: Duration) returns (delay: Duration)
    ensures delay == Capped(initial, scale, most)
  {
    delay := (initial as real * scale).Floor;
    if delay > most { delay := most; }
  }

  // ── the decision, told by the list and the clock ─────────────────

  /** Recent keeps one entry for each index after the cutoff. */
  lemma {:induction false} RecentCounts(s: seq<Time>, cutoff: Time)
    ensures |Recent(s, cutoff)| == |set i | 0 <= i < |s| && s[i] > cutoff|
    decreases |s|
  {
    if s != [] {
      var k := |s| - 1;
      RecentCounts(s[..k], cutoff);
      var before := set i | 0 <= i < k && s[i] > cutoff;
      assert before == set i | 0 <= i < k && s[..k][i] > cutoff;
      assert (set i | 0 <= i < |s| && s[i] > cutoff) == if s[k] > cutoff then before + {k} else before;
    }
  }

  /** r lists the entries of s after the cutoff, in their order; `kept` are their indices. */
  ghost predicate Filters(kept: seq<nat>, r: seq<Time>, s: seq<Time>, cutoff: Time) {
    && |kept| == |r|
    && (forall k :: 0 <= k < |kept| ==> kept[k] < |s| && r[k] == s[kept[k]])
    && (forall j, k :: 0 <= j < k < |kept| ==> kept[j] < kept[k])
    && (forall i: nat :: i < |s| ==> (s[i] > cutoff <==> i in kept))
  }

  lemma FilterPush(kept: seq<nat>, r: seq<Time>, s: seq<Time>, t: Time, cutoff: Time)
    requires Filters(kept, r, s, cutoff)
    ensures t > cutoff ==> Filters(kept + [|s|], r + [t], s + [t], cutoff)
    ensures t <= cutoff ==> Filters(kept, r, s + [t], cutoff)
  {
  }

  lemma {:induction false} RecentIsFilter(s: seq<Time>, cutoff: Time) returns (kept: seq<nat>)
    ensures Filters(kept, Recent(s, cutoff), s, cutoff)
    decreases |s|
  {
    kept := [];
    if s != [] {
      var init, t := s[..|s| - 1], s[|s| - 1];
      kept := RecentIsFilter(init, cutoff);
      FilterPush(kept, Recent(init, cutoff), init, t, cutoff);
      assert s == init + [t];
      if t > cutoff { kept := kept + [|init|]; } else { assert Recent(s, cutoff) == Recent(init, cutoff); }
    }
  }

  /** More than maxRetries of the failures lie in the window; without a window it is ten seconds long. */
  ghost predicate TooMany(maxRetries: int, within: Duration, failures: seq<Time>, now: Time) {
    && maxRetries > 0
    && |set i | 0 <= i < |failures| && failures[i] > now - if within > 0 then within else 10_000_000_000| > maxRetries
  }

  /** OneForOne escalates, and Escalation stops, exactly when too many failures lie in the window. */
  lemma DecisionByCount(s: RestartStrategy, failures: seq<Time>, now: Time)
    requires !s.ExponentialBackoff?
    ensures Decide(s, failures, now) ==
            if TooMany(s.maxRetries, s.within, failures, now) then (if s.OneForOne? then Escalate else Stop)
            else if s.OneForOne? then Restart(0) else Escalate
  {
    RecentCounts(failures, now - if s.within > 0 then s.within else 10_000_000_000);
  }

  method OnFailure(s: RestartStrategy, failures: seq<Time>, now: Time) returns (d: Decision)
    ensures d == Decide(s, failures, now)
    ensures s.OneForOne? ==> d == if TooMany(s.maxRetries, s.within, failures, now) then Escalate else Restart(0)
    ensures s.ExponentialBackoff? ==> d == Restart(BackoffDelay(s, |failures|))
    ensures s.Escalation? ==> d == if TooMany(s.maxRetries, s.within, failures, now) then Stop else Escalate
  {
    if !s.ExponentialBackoff? { DecisionByCount(s, failures, now); }
    match s {
      case ExponentialBackoff(_, _, _) =>
        var delay := Backoff(s, |failures|);
        d := Restart(delay);
      case OneForOne(retries, within) =>
        if retries <= 0 { return Restart(0); }
        var count := CountRecent(failures, now - EffectiveWithin(within));
        d := if count > retries then Escalate else Restart(0);
      case Escalation(retries, within) =>
        if retries <= 0 { return Escalate; }
        var count := CountRecent(failures, now - EffectiveWithin(within));
        d := if count > retries then Stop else Escalate;
    }
  }

  // ── deciding on the pruned list or on the whole history ──────────

  /** The age at which the supervisor lets failures be pruned. */
  const MAX_AGE: Duration := 30 * SECOND

  /** The clock readings of the failures since the last reset, and of the decision. */
  predicate ClockOk(history: seq<Time>, now: Time) {
    Monotone(history) && forall i :: 0 <= i < |history| ==> history[i] <= now
  }

  predicate SameDecision(s: RestartStrategy, history: seq<Time>, now: Time) {
    Decide(s, Tracked(history, MAX_AGE), now) == Decide(s, history, now)
  }

  lemma WindowInside(s: RestartStrategy, history: seq<Time>, now: Time)
    requires !s.ExponentialBackoff? && EffectiveWithin(s.within) <= MAX_AGE && ClockOk(history, now)
    ensures SameDecision(s, history, now)
  {
    if history != [] {
      TrackedIsRecent(history, MAX_AGE);
      RecentTwice(history, history[|history| - 1] - MAX_AGE, now - EffectiveWithin(s.within));
    }
  }

  /** One failure, then `retries` failures at the moment when the first is exactly MAX_AGE old. */
  function Witness(retries: nat): seq<Time> { [0] + seq(retries, _ => MAX_AGE) }

  lemma {:induction false} TrackedWitness(retries: nat)
    requires retries > 0
    ensures Monotone(Witness(retries)) && Tracked(Witness(retries), MAX_AGE) == Witness(retries)[1..]
  {
    var h := Witness(retries);
    TrackedIsRecent(h, MAX_AGE);
    RecentTail(h);
  }

  lemma RecentTail(h: seq<Time>)
    requires h != [] && h[0] <= 0 && forall i :: 1 <= i < |h| ==> h[i] > 0
    ensures Recent(h, 0) == h[1..]
    decreases |h|
  {
    if |h| > 1 {
      RecentTail(h[..|h| - 1]);
      assert h[1..] == h[..|h| - 1][1..] + [h[|h| - 1]];
    }
  }

  lemma WindowOutside(s: RestartStrategy)
    requires !s.ExponentialBackoff? && s.maxRetries > 0 && EffectiveWithin(s.within) > MAX_AGE
    ensures ClockOk(Witness(s.maxRetries), MAX_AGE) && !SameDecision(s, Witness(s.maxRetries), MAX_AGE)
  {
    var h := Witness(s.maxRetries);
    var cutoff := MAX_AGE - EffectiveWithin(s.within);
    TrackedWitness(s.maxRetries);
    RecentAll(h, cutoff);
    RecentAll(h[1..], cutoff);
    assert Exceeds(s.maxRetries, s.within, h, MAX_AGE) && !Exceeds(s.maxRetries, s.within, h[1..], MAX_AGE);
  }

  /** A windowed strategy decides on the pruned list as it would on the full history, for every
      history, exactly when its window is at most the 30 seconds that the tracker keeps, or it does
      not count at all. */
  lemma PruningInvisibleIff(s: RestartStrategy)
    requires !s.ExponentialBackoff?
    ensures (forall history, now :: ClockOk(history, now) ==> SameDecision(s, history, now))
            <==> s.maxRetries <= 0 || s.within <= 30_000_000_000
  {
    if s.maxRetries > 0 && EffectiveWithin(s.within) > MAX_AGE {
      WindowOutside(s);
    } else if s.maxRetries > 0 {
      forall history, now | ClockOk(history, now) ensures SameDecision(s, history, now) {
        WindowInside(s, history, now);
      }
    }
  }

  // ── the backoff ──────────────────────────────────────────────────

  lemma {:induction false} PowGrows(f: real, k: nat)
    requires f > 0.0
    ensures Pow(f, k) > 0.0
    ensures f >= 1.0 ==> Pow(f, k) <= Pow(f, k + 1)
  {
    if k > 0 {
      PowGrows(f, k - 1);
    } else {
      assert Pow(f, 1) == f * Pow(f, 0);
    }
  }

  /** p lists the powers of f. */
  predicate Powers(p: seq<real>, f: real) {
    p != [] && p[0] == 1.0 && forall k: nat :: k + 1 < |p| ==> p[k + 1] == p[k] * f
  }

  lemma {:induction false} PowIsPower(p: seq<real>, f: real, k: nat)
    requires Powers(p, f) && k < |p|
    ensures p[k] == Pow(f, k)
  {
    if k > 0 { PowIsPower(p, f, k - 1); }
  }

  /** The n-th failure in a row waits for the initial delay times the (n-1)-st power of the factor, cut to
      whole nanoseconds and to the maximum.  The defaults are a second, thirty seconds and two. */
  lemma BackoffIsGeometric(s: RestartStrategy, p: seq<real>, n: nat)
    requires s.ExponentialBackoff? && 1 <= n <= |p| && Powers(p, if s.factor > 0.0 then s.factor else 2.0)
    ensures var initial := if s.initialDelay > 0 then s.initialDelay else 1_000_000_000;
            var most := if s.maxDelay > 0 then s.maxDelay else 30_000_000_000;
            var exact := initial as real * p[n - 1];
            var d := BackoffDelay(s, n);
            if exact >= (most + 1) as real then d == most
            else d <= most && d as real <= exact < (d + 1) as real
  {
    PowIsPower(p, if s.factor > 0.0 then s.factor else 2.0, n - 1);
  }

  /** The first failure waits for the initial delay, no delay exceeds the maximum, and with a factor
      of at least one the delay does not shrink as failures pile up. */
  lemma BackoffShape(s: RestartStrategy, n: nat)
    requires s.ExponentialBackoff? && n >= 1
    ensures var initial := if s.initialDelay <= 0 then SECOND else s.initialDelay;
            var most := if s.maxDelay <= 0 then 30 * SECOND else s.maxDelay;
            && 0 <= BackoffDelay(s, n) <= most
            && BackoffDelay(s, 1) == (if initial < most then initial else most)
            && (s.factor <= 0.0 || s.factor >= 1.0 ==> BackoffDelay(s, n) <= BackoffDelay(s, n + 1))
  {
    var initial := if s.initialDelay <= 0 then SECOND else s.initialDelay;
    var most := if s.maxDelay <= 0 then 30 * SECOND else s.maxDelay;
    var factor := if s.factor <= 0.0 then 2.0 else s.factor;
    PowGrows(factor, n - 1);
    CappedShape(initial, Pow(factor, n - 1), Pow(factor, n), most);
  }

  lemma CappedShape(initial: Duration, a: real, b: real, most: Duration)
    requires initial > 0 && a > 0.0 && most > 0
    ensures 0 <= Capped(initial, a, most) <= most
    ensures Capped(initial, 1.0, most) == if initial < most then initial else most
    ensures a <= b ==> Capped(initial, a, most) <= Capped(initial, b, most)
  {
    var x, y := initial as real * a, initial as real * b;
    assert x > 0.0 && (a <= b ==> x <= y);
    FloorGrows(x, y);
    assert Capped(initial, 1.0, most) == if initial < most then initial else most;
  }

  lemma FloorGrows(x: real, y: real)
    ensures x > 0.0 ==> x.Floor >= 0
    ensures x <= y ==> x.Floor <= y.Floor
  {
  }
}
