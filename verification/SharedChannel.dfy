/** A bounded mailbox shared by concurrent producers and one consumer (actor-framework/mailbox.go), as
    interleaved steps on a Go channel: a send is handed straight to a receiver that is waiting,
    otherwise it needs a free slot, so a channel without slots takes a message only when a receiver waits. */
module SharedChannel {
  import opened Counting
  import opened Mailbox

  /** The `number`-th message that `producer` sends. */
  datatype Item<M> = Item(producer: nat, number: nat, msg: M)

  /** Where a producer stands inside Enqueue, up to its last counter update. */
  datatype Pc<M> =
    | Outside
    | Trying(item: Item<M>)
    | Refused(item: Item<M>)
    | MustDrain(item: Item<M>)
    | Drained(item: Item<M>)

  /** `waiting` says that the consumer is blocked in its receive; `producers` are the program counters,
      `calls` how often each producer has called.  The rest is auxiliary: `entered` lists what got into
      the channel, `removed` how many of those have left it, and `positions` which of them the
      consumer received. */
  datatype Shared<M> = Shared(
    capacity: nat, strategy: Strategy, ch: seq<Item<M>>, waiting: bool, enqueued: nat, dropped: nat,
    producers: seq<Pc<M>>, calls: seq<nat>,
    entered: seq<Item<M>>, removed: nat, positions: seq<nat>)

  datatype Action<M> =
    | Call(p: nat, msg: M)
    | TrySend(p: nat)
    | CountRefusal(p: nat)
    | Drain(p: nat)
    | CountDrain(p: nat)
    | Consume
    | Await

  /** A send succeeds at once. */
  predicate Accepts<M>(s: Shared<M>) { s.waiting || |s.ch| < s.capacity }

  predicate CanAct<M>(s: Shared<M>, a: Action<M>) {
    match a
    case Call(p, _) => p < |s.producers| && p < |s.calls| && s.producers[p].Outside?
    case TrySend(p) => p < |s.producers| && s.producers[p].Trying? && (s.strategy.BlockSender? ==> Accepts(s))
    case CountRefusal(p) => p < |s.producers| && s.producers[p].Refused?
    case Drain(p) => p < |s.producers| && s.producers[p].MustDrain?
    case CountDrain(p) => p < |s.producers| && s.producers[p].Drained?
    case Consume => s.ch != [] && !s.waiting
    case Await => s.ch == [] && !s.waiting
  }

  function Act<M>(s: Shared<M>, a: Action<M>): Shared<M>
    requires CanAct(s, a)
  {
    match a
    case Call(p, msg) =>
      s.(enqueued := s.enqueued + 1, calls := s.calls[p := s.calls[p] + 1],
         producers := s.producers[p := Trying(Item(p, s.calls[p], msg))])
    case TrySend(p) =>
      var item := s.producers[p].item;
      if s.waiting then
        s.(waiting := false, entered := s.entered + [item], removed := s.removed + 1,
           positions := s.positions + [s.removed], producers := s.producers[p := Outside])
      else if |s.ch| < s.capacity then
        s.(ch := s.ch + [item], entered := s.entered + [item], producers := s.producers[p := Outside])
      else if s.strategy.DropNewest? then s.(producers := s.producers[p := Refused(item)])
      else s.(producers := s.producers[p := MustDrain(item)])
    case CountRefusal(p) => s.(dropped := s.dropped + 1, producers := s.producers[p := Outside])
    case Drain(p) =>
      var item := s.producers[p].item;
      if s.ch == [] then s.(producers := s.producers[p := Trying(item)])
      else s.(ch := s.ch[1..], removed := s.removed + 1, producers := s.producers[p := Drained(item)])
    case CountDrain(p) => s.(dropped := s.dropped + 1, producers := s.producers[p := Trying(s.producers[p].item)])
    case Consume =>
      s.(ch := s.ch[1..], removed := s.removed + 1, positions := s.positions + [s.removed])
    case Await => s.(waiting := true)
  }

  /** A run of a shared mailbox from its creation. */
  ghost predicate SharedRun<M>(ss: seq<Shared<M>>, acts: seq<Action<M>>) {
    && |ss| == |acts| + 1 && Fresh(ss[0])
    && forall i :: 0 <= i < |acts| ==> CanAct(ss[i], acts[i]) && ss[i + 1] == Act(ss[i], acts[i])
  }

  ghost predicate Fresh<M>(s: Shared<M>) {
    && s.ch == [] && !s.waiting && s.enqueued == 0 && s.dropped == 0
    && s.entered == [] && s.removed == 0 && s.positions == []
    && |s.producers| == |s.calls| && (forall p :: 0 <= p < |s.producers| ==> s.producers[p].Outside? && s.calls[p] == 0)
  }

  // ── what every interleaving keeps ────────────────────────────────

  ghost function InEnqueue<M>(): Pc<M> -> bool { (pc: Pc<M>) => !pc.Outside? }

  ghost function HoldsDrained<M>(): Pc<M> -> bool { (pc: Pc<M>) => pc.Drained? }

  /** Messages in producers' hands: the one being sent, and one drained but not yet counted. */
  ghost function InFlight<M>(s: Shared<M>): nat {
    CountIf(InEnqueue<M>(), s.producers) + CountIf(HoldsDrained<M>(), s.producers)
  }

  /** Every message that was ever enqueued is somewhere exactly once. */
  ghost predicate Conserved<M>(s: Shared<M>) {
    s.enqueued == |s.positions| + s.dropped + |s.ch| + InFlight(s)
  }

  ghost predicate ChannelOk<M>(s: Shared<M>) {
    && |s.ch| <= s.capacity && (s.waiting ==> s.ch == [])
    && s.removed <= |s.entered| && s.entered[s.removed..] == s.ch
    && (forall i, j :: 0 <= i < j < |s.positions| ==> s.positions[i] < s.positions[j])
    && (forall i :: 0 <= i < |s.positions| ==> s.positions[i] < s.removed)
  }

  /** Each strategy uses only its own branches. */
  ghost predicate StrategyOk<M>(s: Shared<M>) {
    && (!s.strategy.DropOldest? ==>
          && |s.positions| == s.removed
          && forall p :: 0 <= p < |s.producers| ==> !s.producers[p].MustDrain? && !s.producers[p].Drained?)
    && (!s.strategy.DropNewest? ==> forall p :: 0 <= p < |s.producers| ==> !s.producers[p].Refused?)
  }

  ghost predicate NumbersOk<M>(s: Shared<M>) {
    && |s.producers| == |s.calls|
    && (forall i :: 0 <= i < |s.entered| ==>
          s.entered[i].producer < |s.calls| && Sent(s, s.entered[i].producer, s.entered[i].number))
    && (forall p :: 0 <= p < |s.producers| && !s.producers[p].Outside? ==>
          s.producers[p].item.producer == p && s.producers[p].item.number + 1 == s.calls[p])
    && (forall i, j :: 0 <= i < j < |s.entered| && s.entered[i].producer == s.entered[j].producer ==>
          s.entered[i].number < s.entered[j].number)
  }

  /** Producer p has finished its call number n, whatever became of it. */
  predicate Sent<M>(s: Shared<M>, p: nat, n: nat)
    requires p < |s.calls| && |s.producers| == |s.calls|
  {
    n + (if s.producers[p].Outside? then 1 else 2) <= s.calls[p]
  }

  lemma StepConserves<M>(s: Shared<M>, a: Action<M>)
    requires Conserved(s) && CanAct(s, a)
    ensures Conserved(Act(s, a))
  {
    if !a.Consume? && !a.Await? {
      CountUpdate(InEnqueue<M>(), s.producers, a.p, Act(s, a).producers[a.p]);
      CountUpdate(HoldsDrained<M>(), s.producers, a.p, Act(s, a).producers[a.p]);
    }
  }

  lemma EnterNumbers<M>(s: Shared<M>, s': Shared<M>, p: nat)
    requires NumbersOk(s) && p < |s.producers| && !s.producers[p].Outside?
    requires s'.calls == s.calls && s'.producers == s.producers[p := Outside]
    requires s'.entered == s.entered + [s.producers[p].item]
    ensures NumbersOk(s')
  {
  }

  lemma MoveNumbers<M>(s: Shared<M>, s': Shared<M>, p: nat)
    requires NumbersOk(s) && p < |s.producers| && !s.producers[p].Outside? && s'.calls == s.calls
             && s'.entered == s.entered
    requires |s'.producers| == |s.producers| && s'.producers == s.producers[p := s'.producers[p]]
    requires s'.producers[p].Outside? || s'.producers[p].item == s.producers[p].item
    ensures NumbersOk(s')
  {
  }

  lemma StepNumbers<M>(s: Shared<M>, a: Action<M>)
    requires NumbersOk(s) && CanAct(s, a)
    ensures NumbersOk(Act(s, a))
  {
    if a.TrySend? && Accepts(s) {
      EnterNumbers(s, Act(s, a), a.p);
    } else if !a.Call? && !a.Consume? && !a.Await? {
      MoveNumbers(s, Act(s, a), a.p);
    }
  }

  ghost predicate SharedOk<M>(s: Shared<M>) {
    Conserved(s) && ChannelOk(s) && StrategyOk(s) && NumbersOk(s)
  }

  lemma {:induction false} SharedInv<M>(ss: seq<Shared<M>>, acts: seq<Action<M>>, i: nat)
    requires SharedRun(ss, acts) && i < |ss|
    ensures SharedOk(ss[i])
    ensures ss[i].capacity == ss[0].capacity && ss[i].strategy == ss[0].strategy
    ensures |ss[i].producers| == |ss[0].producers|
  {
    if i == 0 {
      CountZero(InEnqueue<M>(), ss[0].producers);
      CountZero(HoldsDrained<M>(), ss[0].producers);
    } else {
      SharedInv(ss, acts, i - 1);
      StepOk(ss[i - 1], acts[i - 1]);
    }
  }

  lemma StepOk<M>(s: Shared<M>, a: Action<M>)
    requires SharedOk(s) && CanAct(s, a)
    ensures SharedOk(Act(s, a))
    ensures Act(s, a).capacity == s.capacity && Act(s, a).strategy == s.strategy
    ensures |Act(s, a).producers| == |s.producers|
  {
    StepConserves(s, a);
    StepNumbers(s, a);
  }

  /** The k-th message that the consumer received. */
  ghost function Delivered<M>(s: Shared<M>, k: nat): Item<M>
    requires k < |s.positions| && s.positions[k] < |s.entered|
  {
    s.entered[s.positions[k]]
  }

  /** Under every interleaving: messages are conserved, the channel stays within capacity and holds
      what has entered and not left, and each producer's messages are delivered in the order in
      which it sent them, each at most once. */
  lemma SharedMailboxSafe<M>(ss: seq<Shared<M>>, acts: seq<Action<M>>, i: nat)
    requires SharedRun(ss, acts) && i < |ss|
    ensures var s := ss[i];
            && s.enqueued == |s.positions| + s.dropped + |s.ch| + InFlight(s) && |s.ch| <= s.capacity
            && s.removed <= |s.entered| && s.ch == s.entered[s.removed..]
            && (forall j, k :: 0 <= j < k < |s.positions| ==>
                  && s.positions[j] < s.positions[k] < |s.entered|
                  && (Delivered(s, j).producer == Delivered(s, k).producer ==>
                        Delivered(s, j).number < Delivered(s, k).number))
  {
    SharedInv(ss, acts, i);
  }

  /** Unless it drops the oldest, a mailbox delivers exactly what entered it, in order: once a message
      is in the channel it is not lost. */
  lemma AcceptedIsDelivered<M>(ss: seq<Shared<M>>, acts: seq<Action<M>>, i: nat)
    requires SharedRun(ss, acts) && i < |ss| && !ss[i].strategy.DropOldest?
    ensures |ss[i].entered| == |ss[i].positions| + |ss[i].ch|
    ensures forall k :: 0 <= k < |ss[i].positions| ==> ss[i].positions[k] == k
  {
    SharedInv(ss, acts, i);
    forall k | 0 <= k < |ss[i].positions| ensures ss[i].positions[k] == k {
      PositionsAreAll(ss[i].positions, k);
    }
  }

  lemma {:induction false} CountersGrow<M>(ss: seq<Shared<M>>, acts: seq<Action<M>>, i: nat, j: nat)
    requires SharedRun(ss, acts) && i <= j < |ss|
    ensures ss[i].enqueued <= ss[j].enqueued && ss[i].dropped <= ss[j].dropped
    decreases j
  {
    if i < j {
      CountersGrow(ss, acts, i, j - 1);
      assert ss[j] == Act(ss[j - 1], acts[j - 1]);
    }
  }

  /** Stats reads its three numbers one after another, at events i, j and k.  Each is an exact reading
      of its own moment, and together they never claim more than has been enqueued by the last one. */
  lemma SnapshotBounds<M>(ss: seq<Shared<M>>, acts: seq<Action<M>>, i: nat, j: nat, k: nat)
    requires SharedRun(ss, acts) && i <= j <= k < |ss|
    ensures var s := Stats(ss[i].enqueued, ss[j].dropped, |ss[k].ch|);
            && s.pending <= ss[k].capacity && s.enqueued <= ss[k].enqueued
            && s.dropped + s.pending + |ss[k].positions| <= ss[k].enqueued
            && (i == k && InFlight(ss[k]) == 0 ==> s.enqueued == |ss[k].positions| + s.dropped + s.pending)
  {
    SharedInv(ss, acts, k);
    CountersGrow(ss, acts, i, k);
    CountersGrow(ss, acts, j, k);
  }

  // ── what becomes of a refused message ────────────────────────────

  /** A step of producer p. */
  predicate StepOf<M>(a: Action<M>, p: nat) { !a.Consume? && !a.Await? && a.p == p }

  lemma {:induction false} StaysRefused<M>(ss: seq<Shared<M>>, acts: seq<Action<M>>, i: nat, j: nat, p: nat)
    requires SharedRun(ss, acts) && i <= j < |ss| && p < |ss[i].producers| && ss[i].producers[p].Refused?
    requires forall k :: i <= k < j ==> !StepOf(acts[k], p)
    ensures p < |ss[j].producers| && ss[j].producers[p].Refused?
    decreases j
  {
    if i < j {
      StaysRefused(ss, acts, i, j - 1, p);
      assert ss[j] == Act(ss[j - 1], acts[j - 1]);
    }
  }

  lemma CountsNext<M(!new)>(s: Shared<M>, p: nat)
    requires p < |s.producers| && s.producers[p].Refused?
    ensures forall a :: StepOf(a, p) && CanAct(s, a) ==> a == CountRefusal(p)
    ensures CanAct(s, CountRefusal(p))
    ensures var s' := Act(s, CountRefusal(p));
            s'.producers[p].Outside? && s'.dropped == s.dropped + 1 && s'.ch == s.ch
  {
  }

  /** A DropNewest call whose try finds neither a waiting receiver nor a free slot leaves the channel
      alone, counts its message as dropped with its next step, whatever the others do in between, and
      has then returned. */
  lemma RefusalIsCounted<M(!new)>(ss: seq<Shared<M>>, acts: seq<Action<M>>, i: nat, j: nat, p: nat)
    requires SharedRun(ss, acts) && ss[0].strategy.DropNewest? && i < j < |ss| && acts[i] == TrySend(p)
    requires !ss[i].waiting && |ss[i].ch| >= ss[i].capacity
    requires forall k :: i < k < j ==> !StepOf(acts[k], p)
    ensures ss[i + 1].ch == ss[i].ch && ss[i + 1].entered == ss[i].entered && ss[i + 1].dropped == ss[i].dropped
    ensures p < |ss[j].producers| && forall a :: StepOf(a, p) && CanAct(ss[j], a) ==> a == CountRefusal(p)
    ensures CanAct(ss[j], CountRefusal(p))
    ensures var s' := Act(ss[j], CountRefusal(p));
            s'.producers[p].Outside? && s'.dropped == ss[j].dropped + 1 && s'.ch == ss[j].ch
  {
    SharedInv(ss, acts, i);
    assert ss[i + 1] == Act(ss[i], acts[i]);
    StaysRefused(ss, acts, i + 1, j, p);
    CountsNext(ss[j], p);
  }

  // ── when a DropOldest call returns ───────────────────────────────

  /** At event k producer p tries to send and succeeds. */
  ghost predicate GoodTry<M>(ss: seq<Shared<M>>, acts: seq<Action<M>>, k: nat, p: nat) {
    k < |ss| && k < |acts| && acts[k] == TrySend(p) && Accepts(ss[k])
  }

  ghost predicate IsOutside<M>(s: Shared<M>, p: nat) { p < |s.producers| && s.producers[p].Outside? }

  /** One step takes a producer out of its DropOldest call exactly when it is a successful try. */
  lemma LeavesIff<M>(s: Shared<M>, a: Action<M>, p: nat)
    requires StrategyOk(s) && s.strategy.DropOldest? && CanAct(s, a) && p < |s.producers| && !s.producers[p].Outside?
    ensures IsOutside(Act(s, a), p) <==> a == TrySend(p) && Accepts(s)
  {
  }

  /** Under every interleaving a DropOldest call has returned by event j iff one of its tries found a
      waiting receiver or a free slot. */
  lemma DropOldestReturnsIff<M>(ss: seq<Shared<M>>, acts: seq<Action<M>>, i: nat, j: nat, p: nat)
    requires SharedRun(ss, acts) && i <= j < |ss| && ss[0].strategy.DropOldest?
    requires p < |ss[i].producers| && !ss[i].producers[p].Outside?
    ensures (exists k :: i < k <= j && IsOutside(ss[k], p)) <==> (exists k :: i <= k < j && GoodTry(ss, acts, k, p))
  {
    var out := seq(|ss|, k requires 0 <= k < |ss| => IsOutside(ss[k], p));
    var good := seq(|acts|, k requires 0 <= k < |acts| => GoodTry(ss, acts, k, p));
    SharedInv(ss, acts, i);
    forall k | 0 <= k < |acts| ensures (out[k] ==> !good[k]) && (!out[k] ==> (out[k + 1] <==> good[k])) {
      RunLeavesIff(ss, acts, k, p);
    }
    FirstReturn(out, good, i, j);
    assert forall k :: 0 <= k < |ss| ==> (out[k] <==> IsOutside(ss[k], p));
    assert forall k :: 0 <= k < |acts| ==> (good[k] <==> GoodTry(ss, acts, k, p));
  }

  /** Without slots, the call returns exactly at a try during which a receiver waits, and the message
      is then delivered at once. */
  lemma ZeroCapacityReturnsIff<M>(ss: seq<Shared<M>>, acts: seq<Action<M>>, k: nat, p: nat)
    requires SharedRun(ss, acts) && k < |acts| && ss[0].strategy.DropOldest? && ss[0].capacity == 0
    requires p < |ss[k].producers| && !ss[k].producers[p].Outside?
    ensures IsOutside(ss[k + 1], p) <==> acts[k] == TrySend(p) && ss[k].waiting
    ensures IsOutside(ss[k + 1], p) ==>
              && |ss[k + 1].positions| == |ss[k].positions| + 1
              && ss[k + 1].positions[|ss[k].positions|] < |ss[k + 1].entered|
              && Delivered(ss[k + 1], |ss[k].positions|) == ss[k].producers[p].item
  {
    SharedInv(ss, acts, k);
    LeavesIff(ss[k], acts[k], p);
  }

  // ── steps towards the above ──────────────────────────────────────

  lemma {:induction false} PositionsAreAll(ps: seq<nat>, k: nat)
    requires k < |ps| && (forall i :: 0 <= i < |ps| ==> ps[i] < |ps|)
    requires forall i, j :: 0 <= i < j < |ps| ==> ps[i] < ps[j]
    ensures ps[k] == k
  {
    AtLeast(ps, k);
    AtMost(ps, k);
  }

  lemma {:induction false} AtLeast(ps: seq<nat>, k: nat)
    requires k < |ps| && forall i, j :: 0 <= i < j < |ps| ==> ps[i] < ps[j]
    ensures k <= ps[k]
  {
    if k > 0 { AtLeast(ps, k - 1); }
  }

  lemma {:induction false} AtMost(ps: seq<nat>, k: nat)
    requires k < |ps| && (forall i :: 0 <= i < |ps| ==> ps[i] < |ps|)
    requires forall i, j :: 0 <= i < j < |ps| ==> ps[i] < ps[j]
    ensures ps[k] <= k
    decreases |ps| - k
  {
    if k + 1 < |ps| { AtMost(ps, k + 1); }
  }

  lemma RunLeavesIff<M>(ss: seq<Shared<M>>, acts: seq<Action<M>>, k: nat, p: nat)
    requires SharedRun(ss, acts) && k < |acts| && ss[0].strategy.DropOldest? && p < |ss[0].producers|
    ensures IsOutside(ss[k], p) ==> !GoodTry(ss, acts, k, p)
    ensures !IsOutside(ss[k], p) ==> (IsOutside(ss[k + 1], p) <==> GoodTry(ss, acts, k, p))
  {
    SharedInv(ss, acts, k);
    assert ss[k + 1] == Act(ss[k], acts[k]);
    if !IsOutside(ss[k], p) { LeavesIff(ss[k], acts[k], p); }
  }

  lemma {:induction false} FirstReturn(out: seq<bool>, good: seq<bool>, i: nat, j: nat)
    requires i <= j < |out| == |good| + 1 && !out[i]
    requires forall k :: 0 <= k < |good| ==> (out[k] ==> !good[k]) && (!out[k] ==> (out[k + 1] <==> good[k]))
    ensures (exists k :: i < k <= j && out[k]) <==> (exists k :: i <= k < j && good[k])
    decreases j
  {
    if i < j {
      FirstReturn(out, good, i, j - 1);
      if !out[j - 1] { assert out[j - 1 + 1] <==> good[j - 1]; }
    }
  }
}
