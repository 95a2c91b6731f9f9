/** One producer that drops the oldest, next to a consumer that may step in at any moment: when its
    call ends, what the channel then holds, and exactly when the call has the effect of an
    uninterrupted one. */
module LoneProducer {
  import opened Counting
  import opened Mailbox
  import opened SharedChannel

  ghost predicate LoneRun<M>(ss: seq<Shared<M>>, acts: seq<Action<M>>) {
    SharedRun(ss, acts) && ss[0].strategy.DropOldest? && ss[0].capacity > 0 && |ss[0].producers| == 1
  }

  ghost predicate Lone<M>(s: Shared<M>) {
    && SharedOk(s) && s.strategy.DropOldest? && s.capacity > 0 && |s.producers| == 1
    && (s.producers[0].Drained? ==> |s.ch| < s.capacity)
  }

  lemma {:induction false} LoneInv<M>(ss: seq<Shared<M>>, acts: seq<Action<M>>, i: nat)
    requires LoneRun(ss, acts) && i < |ss|
    ensures Lone(ss[i]) && ss[i].capacity == ss[0].capacity
  {
    SharedInv(ss, acts, i);
    if i > 0 { LoneInv(ss, acts, i - 1); }
  }

  // ── the call ends ────────────────────────────────────────────────

  /** At most this many steps of its own separate the producer from the end of its call. */
  function StepsLeft<M>(s: Shared<M>): nat
    requires |s.producers| == 1
  {
    match s.producers[0]
    case Outside => 0
    case Trying(_) => if Accepts(s) then 1 else 4
    case MustDrain(_) => 3
    case Drained(_) => 2
    case Refused(_) => 1
  }

  ghost function IsOwn<M>(): Action<M> -> bool { (a: Action<M>) => !a.Consume? && !a.Await? }

  ghost predicate InsideFrom<M>(ss: seq<Shared<M>>, i: nat, j: nat) {
    i <= j <= |ss| && forall k :: i <= k < j ==> |ss[k].producers| == 1 && !ss[k].producers[0].Outside?
  }

  /** However often the consumer steps in, a lone DropOldest call takes at most four steps of its own. */
  lemma LoneCallEnds<M>(ss: seq<Shared<M>>, acts: seq<Action<M>>, i: nat, j: nat)
    requires LoneRun(ss, acts) && i <= j < |ss| && InsideFrom(ss, i, j)
    ensures |ss[i].producers| == |ss[j].producers| == 1
    ensures CountIf(IsOwn<M>(), acts[i..j]) + StepsLeft(ss[j]) <= StepsLeft(ss[i]) <= 4
  {
    var left := seq(|ss|, k requires 0 <= k < |ss| => if |ss[k].producers| == 1 then StepsLeft(ss[k]) else 0);
    forall k | i <= k < j ensures left[k + 1] + (if IsOwn<M>()(acts[k]) then 1 else 0) <= left[k] {
      RunOwnStep(ss, acts, k);
    }
    OwnStepsCount(left, acts, i, j);
    OneProducer(ss, acts, i);
    OneProducer(ss, acts, j);
  }

  lemma {:induction false} OwnStepsCount<M>(left: seq<nat>, acts: seq<Action<M>>, i: nat, j: nat)
    requires i <= j < |left| == |acts| + 1
    requires forall k :: i <= k < j ==> left[k + 1] + (if IsOwn<M>()(acts[k]) then 1 else 0) <= left[k]
    ensures CountIf(IsOwn<M>(), acts[i..j]) + left[j] <= left[i]
    decreases j
  {
    if i == j {
      assert acts[i..j] == [];
    } else {
      OwnStepsCount(left, acts, i, j - 1);
      CountLast(IsOwn<M>(), acts, i, j);
      assert left[j - 1 + 1] + (if IsOwn<M>()(acts[j - 1]) then 1 else 0) <= left[j - 1];
    }
  }

  lemma OneProducer<M>(ss: seq<Shared<M>>, acts: seq<Action<M>>, i: nat)
    requires LoneRun(ss, acts) && i < |ss|
    ensures |ss[i].producers| == 1 && StepsLeft(ss[i]) <= 4
  {
    LoneInv(ss, acts, i);
  }

  lemma RunOwnStep<M>(ss: seq<Shared<M>>, acts: seq<Action<M>>, k: nat)
    requires LoneRun(ss, acts) && k < |acts| && |ss[k].producers| == 1 && !ss[k].producers[0].Outside?
    ensures |ss[k + 1].producers| == 1
    ensures StepsLeft(ss[k + 1]) + (if IsOwn<M>()(acts[k]) then 1 else 0) <= StepsLeft(ss[k])
  {
    LoneInv(ss, acts, k);
    assert ss[k + 1] == Act(ss[k], acts[k]);
  }

  lemma CountLast<T>(p: T -> bool, s: seq<T>, i: nat, j: nat)
    requires i < j <= |s|
    ensures CountIf(p, s[i..j]) == CountIf(p, s[i..j - 1]) + if p(s[j - 1]) then 1 else 0
  {
    assert s[i..j] == s[i..j - 1] + [s[j - 1]];
    CountAppend(p, s[i..j - 1], [s[j - 1]]);
  }

  /** The producer's next step. */
  function NextOwn<M>(s: Shared<M>): Action<M>
    requires |s.producers| == 1
  {
    if s.producers[0].MustDrain? then Drain(0)
    else if s.producers[0].Drained? then CountDrain(0)
    else if s.producers[0].Refused? then CountRefusal(0)
    else TrySend(0)
  }

  /** Inside its call a lone DropOldest producer is never blocked. */
  lemma LoneNeverBlocked<M>(ss: seq<Shared<M>>, acts: seq<Action<M>>, i: nat)
    requires LoneRun(ss, acts) && i < |ss|
    ensures |ss[i].producers| == 1 && (!ss[i].producers[0].Outside? ==> CanAct(ss[i], NextOwn(ss[i])))
  {
    LoneInv(ss, acts, i);
  }

  // ── the channel is the end of what was sent ──────────────────────

  /** What entered the channel is every finished call's message, in order. */
  ghost predicate AllEnter<M>(s: Shared<M>)
    requires |s.producers| == |s.calls| == 1
  {
    && |s.entered| + (if s.producers[0].Outside? then 0 else 1) == s.calls[0]
    && forall q :: 0 <= q < |s.entered| ==> s.entered[q].number == q
  }

  lemma {:induction false} AllEnterAt<M>(ss: seq<Shared<M>>, acts: seq<Action<M>>, i: nat)
    requires LoneRun(ss, acts) && i < |ss|
    ensures |ss[i].producers| == |ss[i].calls| == 1 && AllEnter(ss[i])
  {
    if i > 0 {
      AllEnterAt(ss, acts, i - 1);
      LoneInv(ss, acts, i - 1);
      assert ss[i] == Act(ss[i - 1], acts[i - 1]);
    }
  }

  /** The channel always holds the newest of the messages sent so far, without a gap: a suffix. */
  lemma ChannelIsSuffix<M>(ss: seq<Shared<M>>, acts: seq<Action<M>>, i: nat)
    requires LoneRun(ss, acts) && i < |ss|
    ensures |ss[i].producers| == |ss[i].calls| == 1 && AllEnter(ss[i])
    ensures ss[i].removed <= |ss[i].entered| && ss[i].ch == ss[i].entered[ss[i].removed..]
  {
    AllEnterAt(ss, acts, i);
    LoneInv(ss, acts, i);
  }

  // ── how one call looks from inside ───────────────────────────────

  /** Since the call began the consumer has taken x messages; if the producer has drained one (at event
      `at`), the consumer has taken y more after that. */
  datatype View = View(x: nat, y: nat, drained: bool, at: nat)

  predicate DrainsOne<M>(s: Shared<M>, a: Action<M>) { a.Drain? && s.ch != [] }

  function NextView<M>(v: View, s: Shared<M>, a: Action<M>, k: nat): View {
    if DrainsOne(s, a) then View(v.x, 0, true, k)
    else if !a.Consume? then v
    else if v.drained then v.(y := v.y + 1)
    else v.(x := v.x + 1)
  }

  /** The call's view at event k when it began at event i. */
  function ViewAt<M>(ss: seq<Shared<M>>, acts: seq<Action<M>>, i: nat, k: nat): View
    requires i <= k < |ss| == |acts| + 1
  {
    if k == i then View(0, 0, false, 0) else NextView(ViewAt(ss, acts, i, k - 1), ss[k - 1], acts[k - 1], k - 1)
  }

  /** The positions that the consumer takes: x from b on, then y more after skipping one. */
  ghost function Taken(b: nat, x: nat, y: nat): seq<nat> {
    seq(x + y, q => if q < x then b + q else b + q + 1)
  }

  /** The producer is inside the call that began at `base`. */
  ghost predicate InCall<M>(base: Shared<M>, s: Shared<M>, v: View) {
    && |base.producers| == |s.producers| == 1
    && !base.producers[0].Outside? && !s.producers[0].Outside? && s.producers[0].item == base.producers[0].item
    && s.entered == base.entered && s.capacity == base.capacity
    && s.removed == base.removed + v.x + v.y + (if v.drained then 1 else 0)
    && s.positions == base.positions + Taken(base.removed, v.x, v.y)
    && (if v.drained then
          && |base.ch| == base.capacity && v.x < base.capacity && |s.ch| < s.capacity
          && (s.producers[0].Drained? || s.producers[0].Trying?)
          && s.dropped == base.dropped + (if s.producers[0].Trying? then 1 else 0)
        else
          && v.y == 0 && s.dropped == base.dropped
          && (s.producers[0].Trying? || (s.producers[0].MustDrain? && |base.ch| == base.capacity)))
  }

  /** One step inside the call; a drain happens at most once, from what the consumer has left. */
  lemma CallStep<M>(base: Shared<M>, s: Shared<M>, a: Action<M>, v: View, k: nat)
    requires Lone(base) && Lone(s) && CanAct(s, a) && InCall(base, s, v)
    requires !Act(s, a).producers[0].Outside?
    ensures InCall(base, Act(s, a), NextView(v, s, a, k))
    ensures DrainsOne(s, a) ==> !v.drained && |s.ch| == base.capacity - v.x
  {
    assert |s.ch| == |s.entered| - s.removed && |base.ch| == |base.entered| - base.removed;
    assert s.positions + [s.removed] == base.positions + (Taken(base.removed, v.x, v.y) + [s.removed]);
  }

  /** The only drain of the call is the one at `at`. */
  ghost predicate DrainsAsSeen<M>(ss: seq<Shared<M>>, acts: seq<Action<M>>, i: nat, k: nat, v: View)
    requires i <= k < |ss| == |acts| + 1
  {
    && (v.drained ==> i <= v.at < k && DrainsOne(ss[v.at], acts[v.at]) && |ss[v.at].ch| == ss[i].capacity - v.x)
    && (forall d :: i <= d < k && DrainsOne(ss[d], acts[d]) ==> v.drained && d == v.at)
  }

  ghost predicate Seen<M>(ss: seq<Shared<M>>, acts: seq<Action<M>>, i: nat, k: nat, v: View)
    requires i <= k < |ss| == |acts| + 1
  {
    InCall(ss[i], ss[k], v) && DrainsAsSeen(ss, acts, i, k, v)
  }

  lemma CallShape<M>(ss: seq<Shared<M>>, acts: seq<Action<M>>, i: nat, k: nat)
    requires LoneRun(ss, acts) && i <= k < |ss| && InsideFrom(ss, i, k + 1) && ss[i].producers[0].Trying?
    ensures Seen(ss, acts, i, k, ViewAt(ss, acts, i, k))
  {
    ShapeStart(ss, acts, i);
    forall j | i < j <= k ensures SeesOn(ss, acts, i, j) {
      if Seen(ss, acts, i, j - 1, ViewAt(ss, acts, i, j - 1)) { ShapeStep(ss, acts, i, j, ViewAt(ss, acts, i, j - 1)); }
    }
    SeenThroughout(ss, acts, i, k);
  }

  /** Event j - 1 keeps the view of the call correct. */
  ghost predicate SeesOn<M>(ss: seq<Shared<M>>, acts: seq<Action<M>>, i: nat, j: nat)
    requires i < j < |ss| == |acts| + 1
  {
    Seen(ss, acts, i, j - 1, ViewAt(ss, acts, i, j - 1)) ==> Seen(ss, acts, i, j, ViewAt(ss, acts, i, j))
  }

  lemma {:induction false} SeenThroughout<M>(ss: seq<Shared<M>>, acts: seq<Action<M>>, i: nat, k: nat)
    requires i <= k < |ss| == |acts| + 1 && Seen(ss, acts, i, i, View(0, 0, false, 0))
    requires forall j :: i < j <= k ==> SeesOn(ss, acts, i, j)
    ensures Seen(ss, acts, i, k, ViewAt(ss, acts, i, k))
    decreases k
  {
    if i < k {
      SeenThroughout(ss, acts, i, k - 1);
      assert SeesOn(ss, acts, i, k);
    }
  }

  lemma ShapeStart<M>(ss: seq<Shared<M>>, acts: seq<Action<M>>, i: nat)
    requires i < |ss| == |acts| + 1 && |ss[i].producers| == 1 && ss[i].producers[0].Trying?
    ensures Seen(ss, acts, i, i, View(0, 0, false, 0))
  {
    assert Taken(ss[i].removed, 0, 0) == [];
  }

  lemma ShapeStep<M>(ss: seq<Shared<M>>, acts: seq<Action<M>>, i: nat, k: nat, v: View)
    requires LoneRun(ss, acts) && i < k < |ss| && |ss[k].producers| == 1 && !ss[k].producers[0].Outside?
    requires Seen(ss, acts, i, k - 1, v)
    ensures Seen(ss, acts, i, k, NextView(v, ss[k - 1], acts[k - 1], k - 1))
  {
    var s, a := ss[k - 1], acts[k - 1];
    LoneInv(ss, acts, i);
    LoneInv(ss, acts, k - 1);
    assert ss[k] == Act(s, a);
    CallStep(ss[i], s, a, v, k - 1);
    DrainStep(ss, acts, i, k, v);
  }

  lemma DrainStep<M>(ss: seq<Shared<M>>, acts: seq<Action<M>>, i: nat, k: nat, v: View)
    requires i < k < |ss| == |acts| + 1 && DrainsAsSeen(ss, acts, i, k - 1, v)
    requires DrainsOne(ss[k - 1], acts[k - 1]) ==> !v.drained && |ss[k - 1].ch| == ss[i].capacity - v.x
    ensures DrainsAsSeen(ss, acts, i, k, NextView(v, ss[k - 1], acts[k - 1], k - 1))
  {
  }

  // ── what the call did, and what an uninterrupted one would have done ─

  /** What the consumer got during the call, what the channel holds at its end, and how many messages
      the call dropped. */
  datatype Outcome<M> = Outcome(delivered: seq<Item<M>>, ch: seq<Item<M>>, dropped: int)

  ghost function OutcomeOf<M>(base: Shared<M>, s: Shared<M>): Outcome<M>
    requires ChannelOk(s) && |base.positions| <= |s.positions|
  {
    Outcome(seq(|s.positions| - |base.positions|,
                q requires 0 <= q < |s.positions| - |base.positions| => Delivered(s, |base.positions| + q)),
            s.ch, s.dropped - base.dropped)
  }

  /** The first k of all messages were delivered, the others are in the channel. */
  ghost function SplitAt<M>(all: seq<Item<M>>, k: nat, dropped: int): Outcome<M>
    requires k <= |all|
  {
    Outcome(all[..k], all[k..], dropped)
  }

  /** The consumer takes t messages, then an uninterrupted Enqueue of m runs, then the consumer goes on. */
  ghost function Orderly<M>(ch: seq<Item<M>>, m: Item<M>, capacity: nat, t: nat): seq<Item<M>>
    requires t <= |ch|
  {
    ch[..t] + Kept(DropOldest, capacity, ch[t..] + [m])
  }

  /** Some such order of the consumer's steps and an uninterrupted Enqueue has this outcome. */
  ghost predicate Atomic<M>(ch: seq<Item<M>>, m: Item<M>, capacity: nat, o: Outcome<M>) {
    exists t: nat, k: nat :: OrderedBy(ch, m, capacity, o, t, k)
  }

  ghost predicate OrderedBy<M>(ch: seq<Item<M>>, m: Item<M>, capacity: nat, o: Outcome<M>, t: nat, k: nat) {
    && t <= |ch| && t <= k <= |Orderly(ch, m, capacity, t)|
    && o == SplitAt(Orderly(ch, m, capacity, t), k, |ch| + 1 - |Orderly(ch, m, capacity, t)|)
  }

  /** What is left when the message at x is drained, or none. */
  ghost function Survivors<M>(ch: seq<Item<M>>, m: Item<M>, v: View): seq<Item<M>>
    requires v.drained ==> v.x < |ch|
  {
    if v.drained then ch[..v.x] + ch[v.x + 1..] + [m] else ch + [m]
  }

  /** The last, successful try of the call. */
  lemma ReturnShape<M>(base: Shared<M>, s: Shared<M>, v: View)
    requires Lone(base) && Lone(s) && InCall(base, s, v) && CanAct(s, TrySend(0)) && Accepts(s)
    ensures var s', all := Act(s, TrySend(0)), Survivors(base.ch, base.producers[0].item, v);
            var k := |s'.positions| - |base.positions|;
            && ChannelOk(s') && v.x + v.y <= k <= |all|
            && OutcomeOf(base, s') == SplitAt(all, k, if v.drained then 1 else 0)
  {
    assert |s.ch| == |s.entered| - s.removed && |base.ch| == |base.entered| - base.removed;
    ChannelAfter(base, s, v);
    DeliveredAfter(base, s, Act(s, TrySend(0)), v);
  }

  lemma DeliveredAfter<M>(base: Shared<M>, s: Shared<M>, s': Shared<M>, v: View)
    requires Lone(base) && Lone(s) && InCall(base, s, v) && CanAct(s, TrySend(0)) && Accepts(s)
    requires |s.ch| == |s.entered| - s.removed && |base.ch| == |base.entered| - base.removed
    requires s' == Act(s, TrySend(0)) && ChannelOk(s') && |base.positions| <= |s'.positions|
    requires |s'.positions| - |base.positions| <= |Survivors(base.ch, base.producers[0].item, v)|
    ensures OutcomeOf(base, s').delivered
         == Survivors(base.ch, base.producers[0].item, v)[..|s'.positions| - |base.positions|]
  {
    var all := Survivors(base.ch, base.producers[0].item, v);
    forall q | 0 <= q < |s'.positions| - |base.positions| ensures PicksAs(base, s', all, q) {
      TakenFrom(base, s, s', v, q);
    }
    DeliveredIs(base, s', all);
  }

  ghost predicate PicksAs<M>(base: Shared<M>, s: Shared<M>, all: seq<Item<M>>, q: int)
    requires 0 <= q < |s.positions| - |base.positions|
  {
    q < |all| && s.positions[|base.positions| + q] < |s.entered| && Delivered(s, |base.positions| + q) == all[q]
  }

  lemma DeliveredIs<M>(base: Shared<M>, s: Shared<M>, all: seq<Item<M>>)
    requires ChannelOk(s) && |base.positions| <= |s.positions| && |s.positions| - |base.positions| <= |all|
    requires forall q :: 0 <= q < |s.positions| - |base.positions| ==> PicksAs(base, s, all, q)
    ensures OutcomeOf(base, s).delivered == all[..|s.positions| - |base.positions|]
  {
    var d := OutcomeOf(base, s).delivered;
    forall q | 0 <= q < |d| ensures d[q] == all[q] {
      assert PicksAs(base, s, all, q);
    }
  }

  lemma TakenFrom<M>(base: Shared<M>, s: Shared<M>, s': Shared<M>, v: View, q: int)
    requires Lone(base) && Lone(s) && InCall(base, s, v) && CanAct(s, TrySend(0)) && Accepts(s)
    requires s' == Act(s, TrySend(0)) && 0 <= q < |s'.positions| - |base.positions|
    requires |s.ch| == |s.entered| - s.removed && |base.ch| == |base.entered| - base.removed
    ensures PicksAs(base, s', Survivors(base.ch, base.producers[0].item, v), q)
  {
  }

  lemma ChannelAfter<M>(base: Shared<M>, s: Shared<M>, v: View)
    requires Lone(base) && Lone(s) && InCall(base, s, v) && CanAct(s, TrySend(0)) && Accepts(s)
    requires |s.ch| == |s.entered| - s.removed && |base.ch| == |base.entered| - base.removed
    ensures var s', all := Act(s, TrySend(0)), Survivors(base.ch, base.producers[0].item, v);
            var k := |s'.positions| - |base.positions|;
            v.x + v.y <= k <= |all| && s'.ch == all[k..]
  {
    var E, b, m := base.entered, base.removed, base.producers[0].item;
    assert base.ch == E[b..] && s.ch == E[s.removed..];
    assert !s.waiting ==> Act(s, TrySend(0)).ch == s.ch + [m];
    assert s.waiting ==> s.removed == |E|;
  }

  // ── exactly when the call is like an uninterrupted one ───────────

  lemma UndrainedIsAtomic<M>(ch: seq<Item<M>>, m: Item<M>, capacity: nat, v: View, k: nat)
    requires !v.drained && v.x <= k <= |ch| + 1 && v.x <= |ch| && |ch| - v.x < capacity
    ensures Atomic(ch, m, capacity, SplitAt(Survivors(ch, m, v), k, 0))
  {
    assert Orderly(ch, m, capacity, v.x) == ch + [m];
    assert OrderedBy(ch, m, capacity, SplitAt(ch + [m], k, 0), v.x, k);
  }

  lemma EarlyDrainIsAtomic<M>(ch: seq<Item<M>>, m: Item<M>, capacity: nat, v: View, k: nat)
    requires v.drained && v.x == 0 && |ch| == capacity > 0 && k <= |ch|
    ensures Atomic(ch, m, capacity, SplitAt(Survivors(ch, m, v), k, 1))
  {
    assert Orderly(ch, m, capacity, 0) == Survivors(ch, m, v);
    assert OrderedBy(ch, m, capacity, SplitAt(Survivors(ch, m, v), k, 1), 0, k);
  }

  /** When the consumer has taken the oldest message and another one is drained all the same, no order
      of an uninterrupted Enqueue and the consumer's steps explains it. */
  lemma LateDrainIsNotAtomic<M>(ch: seq<Item<M>>, m: Item<M>, capacity: nat, v: View, k: nat)
    requires v.drained && 0 < v.x < |ch| == capacity && v.x <= k <= |ch|
    requires ch[0] != m && forall r :: 0 < r < |ch| ==> ch[r] != ch[0]
    ensures !Atomic(ch, m, capacity, SplitAt(Survivors(ch, m, v), k, 1))
  {
    var o := SplitAt(Survivors(ch, m, v), k, 1);
    assert o.delivered[0] == ch[0];
    forall t: nat, j: nat ensures !OrderedBy(ch, m, capacity, o, t, j) {
      if 0 < t <= |ch| {
        assert Orderly(ch, m, capacity, t) == ch + [m];
      } else if t == 0 {
        assert Orderly(ch, m, capacity, 0) == ch[1..] + [m];
        assert (ch[1..] + [m])[0] != ch[0];
      }
    }
  }

  /** Whatever the call drains, it drains from a full channel, unless the consumer has emptied it:
      nothing is consumed between the refused try and the drain, or everything. */
  ghost predicate TimelyDrains<M>(ss: seq<Shared<M>>, acts: seq<Action<M>>, i: nat, j: nat)
    requires i <= j < |ss| == |acts| + 1
  {
    forall d :: i <= d < j && acts[d].Drain? ==> ss[d].ch == [] || |ss[d].ch| == ss[i].capacity
  }

  /** A whole call: it begins at event i and has just ended at j. */
  ghost predicate WholeCall<M>(ss: seq<Shared<M>>, acts: seq<Action<M>>, i: nat, j: nat) {
    && LoneRun(ss, acts) && 0 < i < j < |ss| && acts[i - 1].Call? && InsideFrom(ss, i, j) && IsOutside(ss[j], 0)
  }

  lemma CallReturns<M>(ss: seq<Shared<M>>, acts: seq<Action<M>>, i: nat, j: nat)
    requires WholeCall(ss, acts, i, j)
    ensures ss[i].producers[0].Trying? && acts[j - 1] == TrySend(0)
    ensures Lone(ss[i]) && Lone(ss[j - 1]) && Accepts(ss[j - 1])
  {
    LoneInv(ss, acts, i - 1);
    LoneInv(ss, acts, i);
    LoneInv(ss, acts, j - 1);
    assert ss[i] == Act(ss[i - 1], acts[i - 1]);
    LeavesIff(ss[j - 1], acts[j - 1], 0);
  }

  /** The call that began at `base` and ended at `s` has the effect of an uninterrupted one, placed
      somewhere among the consumer's steps. */
  ghost predicate CallAtomic<M>(base: Shared<M>, s: Shared<M>) {
    && |base.producers| == 1 && !base.producers[0].Outside? && ChannelOk(s) && |base.positions| <= |s.positions|
    && Atomic(base.ch, base.producers[0].item, base.capacity, OutcomeOf(base, s))
  }

  lemma AtomicByView<M>(base: Shared<M>, s: Shared<M>, v: View)
    requires Lone(base) && Lone(s) && InCall(base, s, v) && CanAct(s, TrySend(0)) && Accepts(s)
    ensures CallAtomic(base, Act(s, TrySend(0))) <==> !v.drained || v.x == 0
  {
    var m, k := base.producers[0].item, |Act(s, TrySend(0)).positions| - |base.positions|;
    ReturnShape(base, s, v);
    if !v.drained {
      assert |s.ch| == |s.entered| - s.removed && |base.ch| == |base.entered| - base.removed;
      UndrainedIsAtomic(base.ch, m, base.capacity, v, k);
    } else if v.x == 0 {
      EarlyDrainIsAtomic(base.ch, m, base.capacity, v, k);
    } else {
      LateDrainIsNotAtomic(base.ch, m, base.capacity, v, k);
    }
  }

  lemma TimelyByView<M>(ss: seq<Shared<M>>, acts: seq<Action<M>>, i: nat, j: nat, v: View)
    requires i < j < |ss| == |acts| + 1 && acts[j - 1].TrySend? && DrainsAsSeen(ss, acts, i, j - 1, v)
    requires v.drained ==> v.x < ss[i].capacity
    ensures TimelyDrains(ss, acts, i, j) <==> !v.drained || v.x == 0
  {
    if v.drained && v.x > 0 { assert acts[v.at].Drain?; }
  }

  /** A lone DropOldest call has the effect of an uninterrupted one iff its drains are timely. */
  lemma LoneCallAtomicIff<M>(ss: seq<Shared<M>>, acts: seq<Action<M>>, i: nat, j: nat)
    requires WholeCall(ss, acts, i, j)
    ensures CallAtomic(ss[i], ss[j]) <==> TimelyDrains(ss, acts, i, j)
  {
    CallReturns(ss, acts, i, j);
    CallShape(ss, acts, i, j - 1);
    AtomicByView(ss[i], ss[j - 1], ViewAt(ss, acts, i, j - 1));
    TimelyByView(ss, acts, i, j, ViewAt(ss, acts, i, j - 1));
  }

  /** m is the last message in the channel, or the channel is empty and m was delivered last. */
  ghost predicate EndsIn<M>(s: Shared<M>, m: Item<M>) {
    if s.ch != [] then s.ch[|s.ch| - 1] == m
    else if s.positions == [] then false
    else s.positions[|s.positions| - 1] < |s.entered| && Delivered(s, |s.positions| - 1) == m
  }

  // ── what a caller can know beforehand ────────────────────────────

  /** A call that meets a free slot, or whose channel has a single slot, is always atomic. */
  lemma RoomIsAtomic<M>(ss: seq<Shared<M>>, acts: seq<Action<M>>, i: nat, j: nat)
    requires WholeCall(ss, acts, i, j) && (|ss[i].ch| < ss[i].capacity || ss[i].capacity == 1)
    ensures CallAtomic(ss[i], ss[j])
  {
    CallReturns(ss, acts, i, j);
    CallShape(ss, acts, i, j - 1);
    assert InCall(ss[i], ss[j - 1], ViewAt(ss, acts, i, j - 1));
    TimelyByView(ss, acts, i, j, ViewAt(ss, acts, i, j - 1));
    LoneCallAtomicIff(ss, acts, i, j);
  }

  /** acts' and ss' continue the run, and its last call has ended at j. */
  ghost predicate EndsAt<M>(ss: seq<Shared<M>>, acts: seq<Action<M>>, ss': seq<Shared<M>>, acts': seq<Action<M>>,
                            j: nat)
  {
    ss <= ss' && acts <= acts' && WholeCall(ss', acts', |acts|, j)
  }

  /** However the run goes on, the call that has just begun is atomic. */
  ghost predicate SurelyAtomic<M(!new)>(ss: seq<Shared<M>>, acts: seq<Action<M>>) {
    forall ss', acts', j :: EndsAt(ss, acts, ss', acts', j) ==> CallAtomic(ss'[|acts|], ss'[j])
  }

  /** Refused, overtaken by the consumer, and then draining all the same. */
  function Overtaken<M>(): seq<Action<M>> { [TrySend(0), Consume, Drain(0), CountDrain(0), TrySend(0)] }

  ghost predicate StepsOn<M>(tail: seq<Shared<M>>, acts: seq<Action<M>>) {
    && |tail| == |acts| + 1
    && forall k :: 0 <= k < |acts| ==> CanAct(tail[k], acts[k]) && tail[k + 1] == Act(tail[k], acts[k])
  }

  /** `tail` goes through the overtaken call. */
  ghost predicate Overtakes<M>(tail: seq<Shared<M>>) {
    && StepsOn(tail, Overtaken<M>()) && InsideFrom(tail, 0, 5) && IsOutside(tail[5], 0)
    && 0 < |tail[2].ch| < tail[0].capacity
  }

  lemma CanOvertake<M>(s: Shared<M>) returns (tail: seq<Shared<M>>)
    requires Lone(s) && s.producers[0].Trying? && |s.ch| == s.capacity >= 2
    ensures Overtakes(tail) && tail[0] == s
  {
    var s1 := Act(s, TrySend(0));
    var s2 := Act(s1, Consume);
    var s3 := Act(s2, Drain(0));
    var s4 := Act(s3, CountDrain(0));
    tail := [s, s1, s2, s3, s4, Act(s4, TrySend(0))];
  }

  lemma RunGoesOn<M>(ss: seq<Shared<M>>, acts: seq<Action<M>>, tail: seq<Shared<M>>, more: seq<Action<M>>)
    requires SharedRun(ss, acts) && StepsOn(tail, more) && tail[0] == ss[|acts|]
    ensures SharedRun(ss + tail[1..], acts + more)
  {
    var ss', acts' := ss + tail[1..], acts + more;
    forall k | 0 <= k < |acts'| ensures CanAct(ss'[k], acts'[k]) && ss'[k + 1] == Act(ss'[k], acts'[k]) {
      if k >= |acts| {
        assert ss'[k] == tail[k - |acts|] && ss'[k + 1] == tail[k - |acts| + 1] && acts'[k] == more[k - |acts|];
      }
    }
  }

  /** A call that meets a full channel of two or more slots can lose a message beside a free slot. */
  lemma FullCanClash<M>(ss: seq<Shared<M>>, acts: seq<Action<M>>)
    requires LoneRun(ss, acts) && acts != [] && acts[|acts| - 1].Call?
    requires |ss[|acts|].ch| == ss[|acts|].capacity >= 2
    ensures exists ss', acts', j :: EndsAt(ss, acts, ss', acts', j) && !CallAtomic(ss'[|acts|], ss'[j])
  {
    var i := |acts|;
    BeginsTrying(ss, acts);
    var tail := CanOvertake(ss[i]);
    RunGoesOn(ss, acts, tail, Overtaken());
    EndsOvertaken(ss, acts, tail);
    LateDrainClashes(ss + tail[1..], acts + Overtaken(), i, i + 5, i + 2);
  }

  lemma LateDrainClashes<M>(ss: seq<Shared<M>>, acts: seq<Action<M>>, i: nat, j: nat, d: nat)
    requires WholeCall(ss, acts, i, j) && i <= d < j && acts[d].Drain? && 0 < |ss[d].ch| < ss[i].capacity
    ensures !CallAtomic(ss[i], ss[j])
  {
    LoneCallAtomicIff(ss, acts, i, j);
  }

  lemma BeginsTrying<M>(ss: seq<Shared<M>>, acts: seq<Action<M>>)
    requires LoneRun(ss, acts) && acts != [] && acts[|acts| - 1].Call?
    ensures Lone(ss[|acts|]) && ss[|acts|].producers[0].Trying?
  {
    LoneInv(ss, acts, |acts|);
    LoneInv(ss, acts, |acts| - 1);
    assert ss[|acts|] == Act(ss[|acts| - 1], acts[|acts| - 1]);
  }

  lemma EndsOvertaken<M>(ss: seq<Shared<M>>, acts: seq<Action<M>>, tail: seq<Shared<M>>)
    requires LoneRun(ss, acts) && acts != [] && acts[|acts| - 1].Call? && Overtakes(tail) && tail[0] == ss[|acts|]
    requires SharedRun(ss + tail[1..], acts + Overtaken())
    ensures EndsAt(ss, acts, ss + tail[1..], acts + Overtaken(), |acts| + 5)
    ensures var ss', i := ss + tail[1..], |acts|;
            (acts + Overtaken())[i + 2].Drain? && 0 < |ss'[i + 2].ch| < ss'[i].capacity
  {
    var i, ss' := |acts|, ss + tail[1..];
    assert ss'[i + 2] == tail[2] && ss'[i] == tail[0];
    forall k | i <= k < i + 5 ensures |ss'[k].producers| == 1 && !ss'[k].producers[0].Outside? {
      assert ss'[k] == tail[k - i];
    }
    assert ss'[i + 5] == tail[5];
  }

  /** The caller can be sure of an atomic effect, whatever the consumer does, iff the channel has a free
      slot when the call begins, or only one slot at all. */
  lemma SurelyAtomicIff<M(!new)>(ss: seq<Shared<M>>, acts: seq<Action<M>>)
    requires LoneRun(ss, acts) && acts != [] && acts[|acts| - 1].Call?
    ensures SurelyAtomic(ss, acts) <==> |ss[|acts|].ch| < ss[|acts|].capacity || ss[|acts|].capacity == 1
  {
    LoneInv(ss, acts, |acts|);
    if |ss[|acts|].ch| < ss[|acts|].capacity || ss[|acts|].capacity == 1 {
      forall ss', acts', j | EndsAt(ss, acts, ss', acts', j) ensures CallAtomic(ss'[|acts|], ss'[j]) {
        assert ss'[|acts|] == ss[|acts|];
        RoomIsAtomic(ss', acts', |acts|, j);
      }
    } else {
      FullCanClash(ss, acts);
    }
  }

  /** Timely or not, the call leaves its own message last in the channel, or has handed it to the
      consumer as the last one delivered. */
  lemma CallLeavesMessage<M>(ss: seq<Shared<M>>, acts: seq<Action<M>>, i: nat, j: nat)
    requires WholeCall(ss, acts, i, j)
    ensures |ss[i].producers| == 1 && ss[i].producers[0].Trying?
    ensures EndsIn(ss[j], ss[i].producers[0].item)
  {
    CallReturns(ss, acts, i, j);
    CallShape(ss, acts, i, j - 1);
    LastOfAll(ss[j - 1], ss[i].producers[0].item);
  }

  lemma LastOfAll<M>(s: Shared<M>, m: Item<M>)
    requires Lone(s) && CanAct(s, TrySend(0)) && Accepts(s) && s.producers[0].item == m
    ensures EndsIn(Act(s, TrySend(0)), m)
  {
  }

  // ── an untimely drain ────────────────────────────────────────────

  const LATE_ACTS: seq<Action<char>> :=
    [Call(0, 'a'), TrySend(0), Call(0, 'b'), TrySend(0), Call(0, 'c'), TrySend(0),
     Consume, Drain(0), CountDrain(0), TrySend(0)]

  /** With two slots holding a and b, the try to send c is refused; then the consumer takes a, and the
      drain throws b away although a slot is free. */
  function LateState(k: nat): Shared<char> {
    var a, b, c := Item(0, 0, 'a'), Item(0, 1, 'b'), Item(0, 2, 'c');
    match k
    case 0 => Shared(2, DropOldest, [], false, 0, 0, [Outside], [0], [], 0, [])
    case 1 => Shared(2, DropOldest, [], false, 1, 0, [Trying(a)], [1], [], 0, [])
    case 2 => Shared(2, DropOldest, [a], false, 1, 0, [Outside], [1], [a], 0, [])
    case 3 => Shared(2, DropOldest, [a], false, 2, 0, [Trying(b)], [2], [a], 0, [])
    case 4 => Shared(2, DropOldest, [a, b], false, 2, 0, [Outside], [2], [a, b], 0, [])
    case 5 => Shared(2, DropOldest, [a, b], false, 3, 0, [Trying(c)], [3], [a, b], 0, [])
    case 6 => Shared(2, DropOldest, [a, b], false, 3, 0, [MustDrain(c)], [3], [a, b], 0, [])
    case 7 => Shared(2, DropOldest, [b], false, 3, 0, [MustDrain(c)], [3], [a, b], 1, [0])
    case 8 => Shared(2, DropOldest, [], false, 3, 0, [Drained(c)], [3], [a, b], 2, [0])
    case 9 => Shared(2, DropOldest, [], false, 3, 1, [Trying(c)], [3], [a, b], 2, [0])
    case _ => Shared(2, DropOldest, [c], false, 3, 1, [Outside], [3], [a, b, c], 2, [0])
  }

  lemma LateStep(k: nat)
    requires k < 10
    ensures CanAct(LateState(k), LATE_ACTS[k]) && LateState(k + 1) == Act(LateState(k), LATE_ACTS[k])
  {
  }

  lemma LateDrainRun() returns (ss: seq<Shared<char>>)
    ensures WholeCall(ss, LATE_ACTS, 5, 10) && !TimelyDrains(ss, LATE_ACTS, 5, 10) && !CallAtomic(ss[5], ss[10])
    ensures ss[10] == LateState(10) && ss[10].ch == [Item(0, 2, 'c')] && ss[10].dropped == 1 && ss[10].positions == [0]
  {
    ss := seq(11, k requires 0 <= k < 11 => LateState(k));
    forall k | 0 <= k < 10 ensures CanAct(ss[k], LATE_ACTS[k]) && ss[k + 1] == Act(ss[k], LATE_ACTS[k]) { LateStep(k); }
    assert SharedRun(ss, LATE_ACTS);
    assert InsideFrom(ss, 5, 10);
    assert LATE_ACTS[7].Drain? && |ss[7].ch| == 1 && ss[5].capacity == 2;
    LoneCallAtomicIff(ss, LATE_ACTS, 5, 10);
  }
}
