/** The actor mailbox (actor-framework/mailbox.go): a bounded channel with three overflow strategies,
    and an unbounded one behind a relay pump. */
module Mailbox {
  datatype Strategy = DropNewest | DropOldest | BlockSender

  function Newest<M>(s: seq<M>, n: nat): seq<M> { if |s| <= n then s else s[|s| - n..] }

  function Oldest<M>(s: seq<M>, n: nat): seq<M> { if |s| <= n then s else s[..n] }

  /** What a channel of the given capacity keeps of its messages and a new one. */
  function Kept<M>(strategy: Strategy, capacity: nat, all: seq<M>): seq<M> {
    if strategy.DropOldest? then Newest(all, capacity) else Oldest(all, capacity)
  }

  // ── a bounded mailbox used by one producer ───────────────────────

  datatype Stats = Stats(enqueued: nat, dropped: nat, pending: nat)

  class BoundedMailbox<M> {
    const capacity: nat
    const strategy: Strategy
    var ch: seq<M>
    var enqueued: nat
    var dropped: nat
    ghost var delivered: seq<M>

    ghost predicate Valid()
      reads this
    {
      |ch| <= capacity && enqueued == |delivered| + dropped + |ch|
    }

    constructor (capacity: nat, strategy: Strategy)
      ensures Valid() && this.capacity == capacity && this.strategy == strategy && ch == [] && delivered == []
    {
      this.capacity, this.strategy := capacity, strategy;
      ch, enqueued, dropped, delivered := [], 0, 0, [];
    }

    /** A call that nothing interrupts and for which no receiver waits.  A blocking sender without
        room waits for the consumer first; dropping the oldest needs a slot to drop from.  What
        becomes of a call when the consumer steps in between is told by SharedChannel. */
    method Enqueue(msg: M)
      requires Valid()
      requires strategy.BlockSender? ==> |ch| < capacity
      requires strategy.DropOldest? ==> capacity > 0
      modifies this
      ensures Valid() && enqueued == old(enqueued) + 1 && delivered == old(delivered)
      ensures ch == Kept(strategy, capacity, old(ch) + [msg])
      ensures dropped == old(dropped) + |old(ch)| + 1 - |ch|
      ensures |old(ch)| < capacity ==> ch == old(ch) + [msg] && dropped == old(dropped)
      ensures |old(ch)| == capacity && strategy.DropOldest? ==>
                ch == old(ch)[1..] + [msg] && dropped == old(dropped) + 1
      ensures |old(ch)| == capacity && strategy.DropNewest? ==> ch == old(ch) && dropped == old(dropped) + 1
    {
      enqueued := enqueued + 1;
      match strategy {
        case BlockSender => ch := ch + [msg];
        case DropNewest =>
          if |ch| < capacity { ch := ch + [msg]; } else { dropped := dropped + 1; }
        case DropOldest =>
          while |ch| >= capacity
            invariant |ch| <= capacity
            invariant (ch == old(ch) && dropped == old(dropped))
              || (old(|ch|) == capacity && ch == old(ch)[1..] && dropped == old(dropped) + 1)
            invariant enqueued == old(enqueued) + 1 && delivered == old(delivered)
            decreases |ch|
          {
            if |ch| > 0 { ch := ch[1..]; dropped := dropped + 1; }
          }
          ch := ch + [msg];
      }
    }

    method Dequeue() returns (msg: M)
      requires Valid() && ch != []
      modifies this
      ensures Valid() && [msg] + ch == old(ch) && delivered == old(delivered) + [msg]
      ensures enqueued == old(enqueued) && dropped == old(dropped)
    {
      msg := ch[0];
      ch := ch[1..];
      delivered := delivered + [msg];
    }

    method GetStats() returns (s: Stats)
      requires Valid()
      ensures s.enqueued == |delivered| + s.dropped + s.pending && s.pending <= capacity && s.pending == |ch|
      ensures s.enqueued == enqueued && s.dropped == dropped
    {
      s := Stats(enqueued, dropped, |ch|);
    }
  }

  /** The channel after a burst of sends to which no consumer reacts. */
  function AfterBurst<M>(strategy: Strategy, capacity: nat, ch: seq<M>, burst: seq<M>): seq<M> {
    if burst == [] then ch
    else
      Kept(strategy, capacity, AfterBurst(strategy, capacity, ch, burst[..|burst| - 1]) + [burst[|burst| - 1]])
  }

  lemma {:induction false} BurstIsKept<M>(strategy: Strategy, capacity: nat, ch: seq<M>, burst: seq<M>)
    requires |ch| <= capacity
    ensures AfterBurst(strategy, capacity, ch, burst) == Kept(strategy, capacity, ch + burst)
    decreases |burst|
  {
    if burst == [] {
      assert ch + burst == ch;
    } else {
      var k := |burst| - 1;
      BurstIsKept(strategy, capacity, ch, burst[..k]);
      assert ch + burst == ch + burst[..k] + [burst[k]];
      KeptAgain(strategy, capacity, ch + burst[..k], burst[k]);
    }
  }

  lemma KeptAgain<M>(strategy: Strategy, capacity: nat, s: seq<M>, m: M)
    ensures Kept(strategy, capacity, Kept(strategy, capacity, s) + [m]) == Kept(strategy, capacity, s + [m])
  {
    if |s| > capacity {
      assert Newest(s, capacity) + [m] == (s + [m])[|s| - capacity..];
      assert (Oldest(s, capacity) + [m])[..capacity] == (s + [m])[..capacity];
    }
  }

  /** A burst leaves exactly the newest messages up to capacity, or exactly the oldest. */
  lemma BurstKeeps<M>(strategy: Strategy, capacity: nat, ch: seq<M>, burst: seq<M>)
    requires |ch| <= capacity
    ensures var all, left := ch + burst, AfterBurst(strategy, capacity, ch, burst);
            if |all| <= capacity then left == all
            else if strategy.DropOldest? then left == all[|all| - capacity..]
            else left == all[..capacity]
  {
    BurstIsKept(strategy, capacity, ch, burst);
  }

  // ── the unbounded mailbox and its pump ───────────────────────────

  const CHANNEL_SIZE: nat := 256

  datatype Relay<M> = Relay(input: seq<M>, buffer: seq<M>, ch: seq<M>)

  datatype RelayStep<M> = Send(msg: M) | PumpTake | PumpForward | Receive

  /** A full input channel makes the sender wait; the pump receives whenever there is input, and
      forwards when it holds a message and the consumer's channel has room. */
  predicate CanRelay<M>(s: Relay<M>, a: RelayStep<M>) {
    match a
    case Send(_) => |s.input| < CHANNEL_SIZE
    case PumpTake => s.input != []
    case PumpForward => s.buffer != [] && |s.ch| < CHANNEL_SIZE
    case Receive => s.ch != []
  }

  function DoRelay<M>(s: Relay<M>, a: RelayStep<M>): Relay<M>
    requires CanRelay(s, a)
  {
    match a
    case Send(m) => s.(input := s.input + [m])
    case PumpTake => s.(input := s.input[1..], buffer := s.buffer + [s.input[0]])
    case PumpForward => s.(buffer := s.buffer[1..], ch := s.ch + [s.buffer[0]])
    case Receive => s.(ch := s.ch[1..])
  }

  ghost predicate RelayRun<M>(ss: seq<Relay<M>>, steps: seq<RelayStep<M>>) {
    && |ss| == |steps| + 1 && ss[0] == Relay([], [], [])
    && forall i :: 0 <= i < |steps| ==> CanRelay(ss[i], steps[i]) && ss[i + 1] == DoRelay(ss[i], steps[i])
  }

  /** What the first n steps sent, and what they handed to the consumer. */
  ghost function SentBy<M>(steps: seq<RelayStep<M>>, n: nat): seq<M>
    requires n <= |steps|
  {
    if n == 0 then [] else SentBy(steps, n - 1) + if steps[n - 1].Send? then [steps[n - 1].msg] else []
  }

  ghost function ReceivedBy<M>(ss: seq<Relay<M>>, steps: seq<RelayStep<M>>, n: nat): seq<M>
    requires RelayRun(ss, steps) && n <= |steps|
  {
    if n == 0 then [] else ReceivedBy(ss, steps, n - 1) + if steps[n - 1].Receive? then [ss[n - 1].ch[0]] else []
  }

  function Held<M>(s: Relay<M>): seq<M> { s.ch + s.buffer + s.input }

  /** Nothing is lost, duplicated or reordered at any moment of any interleaving. */
  lemma {:induction false} RelayKeepsOrder<M>(ss: seq<Relay<M>>, steps: seq<RelayStep<M>>, n: nat)
    requires RelayRun(ss, steps) && n <= |steps|
    ensures ReceivedBy(ss, steps, n) + Held(ss[n]) == SentBy(steps, n)
    ensures |ss[n].ch| <= 256 && |ss[n].input| <= 256
  {
    if n > 0 {
      RelayKeepsOrder(ss, steps, n - 1);
      OneStepInOrder(ss[n - 1], steps[n - 1], ReceivedBy(ss, steps, n - 1), SentBy(steps, n - 1));
    }
  }

  lemma OneStepInOrder<M>(s: Relay<M>, a: RelayStep<M>, received: seq<M>, sent: seq<M>)
    requires CanRelay(s, a) && received + Held(s) == sent
    ensures var s' := DoRelay(s, a);
            received + (if a.Receive? then [s.ch[0]] else []) + Held(s') == sent + if a.Send? then [a.msg] else []
  {
    var s' := DoRelay(s, a);
    HeldAfter(s, a);
    match a {
      case Send(m) => assert received + (Held(s) + [m]) == (received + Held(s)) + [m];
      case Receive => assert received + ([s.ch[0]] + Held(s')) == received + [s.ch[0]] + Held(s');
      case _ => assert received + [] == received && sent + [] == sent;
    }
  }

  /** Seen from outside the mailbox is one FIFO queue: pump steps do not show. */
  lemma HeldAfter<M>(s: Relay<M>, a: RelayStep<M>)
    requires CanRelay(s, a)
    ensures var s' := DoRelay(s, a);
            match a
            case Send(m) => Held(s') == Held(s) + [m]
            case Receive => Held(s) == [s.ch[0]] + Held(s')
            case _ => Held(s') == Held(s)
  {
    match a {
      case Send(m) => assert s.ch + s.buffer + (s.input + [m]) == s.ch + s.buffer + s.input + [m];
      case PumpTake => assert s.input == [s.input[0]] + s.input[1..];
      case PumpForward => assert s.buffer == [s.buffer[0]] + s.buffer[1..];
      case Receive => assert s.ch == [s.ch[0]] + s.ch[1..];
    }
  }

  /** n pump steps that only take input. */
  function TakeAll<M>(s: Relay<M>, n: nat): (t: Relay<M>)
    requires n <= |s.input|
    ensures |t.input| == |s.input| - n
  {
    if n == 0 then s else DoRelay(TakeAll(s, n - 1), PumpTake)
  }

  /** Even if the consumer never reads, the pump can take every waiting message, one step each, and
      then any sender can go on. */
  lemma {:induction false} PumpNeverStuck<M>(s: Relay<M>, n: nat)
    requires n <= |s.input|
    ensures TakeAll(s, n).input == s.input[n..] && TakeAll(s, n).ch == s.ch
    ensures n > 0 && |s.input| <= 256 ==> forall m :: CanRelay(TakeAll(s, n), Send(m))
    ensures forall m :: CanRelay(s, Send(m)) <==> |s.input| < 256
  {
    if n > 0 { PumpNeverStuck(s, n - 1); }
  }

  /** When neither the pump nor the consumer can move, everything sent has been received. */
  lemma QuietIsDelivered<M>(ss: seq<Relay<M>>, steps: seq<RelayStep<M>>)
    requires RelayRun(ss, steps)
    requires var s := ss[|steps|]; !CanRelay(s, PumpTake) && !CanRelay(s, PumpForward) && !CanRelay(s, Receive)
    ensures ReceivedBy(ss, steps, |steps|) == SentBy(steps, |steps|)
  {
    RelayKeepsOrder(ss, steps, |steps|);
    assert Held(ss[|steps|]) == [];
  }

  /** The steps lead from s to t. */
  ghost predicate Leads<M>(s: Relay<M>, steps: seq<RelayStep<M>>, t: Relay<M>)
    decreases |steps|
  {
    if steps == [] then s == t else CanRelay(s, steps[0]) && Leads(DoRelay(s, steps[0]), steps[1..], t)
  }

  lemma {:induction false} LeadsOn<M>(s: Relay<M>, steps: seq<RelayStep<M>>, t: Relay<M>, a: RelayStep<M>)
    requires Leads(s, steps, t) && CanRelay(t, a)
    ensures Leads(s, steps + [a], DoRelay(t, a))
    decreases |steps|
  {
    if steps == [] {
      assert Leads(DoRelay(s, a), [a][1..], DoRelay(t, a));
    } else {
      assert (steps + [a])[1..] == steps[1..] + [a];
      LeadsOn(DoRelay(s, steps[0]), steps[1..], t, a);
    }
  }

  /** The unbounded mailbox itself. */
  class UnboundedMailbox<M> {
    var unboundedIn: seq<M>
    var unboundedBuf: seq<M>
    var ch: seq<M>

    ghost function State(): Relay<M>
      reads this
    {
      Relay(unboundedIn, unboundedBuf, ch)
    }

    constructor ()
      ensures State() == Relay([], [], [])
    {
      unboundedIn, unboundedBuf, ch := [], [], [];
    }

    /** Called when the input channel has room; before that the sender waits. */
    method Enqueue(msg: M)
      requires CanRelay(State(), Send(msg))
      modifies this
      ensures State() == DoRelay(old(State()), Send(msg))
    {
      unboundedIn := unboundedIn + [msg];
    }

    /** One turn of the pump loop, as far as it gets without waiting: with an empty buffer it first
        receives, then it forwards or receives once more.  `forward` is the choice that select makes
        when both are possible. */
    method PumpTurn(forward: bool) returns (steps: seq<RelayStep<M>>)
      modifies this
      ensures Leads(old(State()), steps, State()) && Held(State()) == Held(old(State()))
      ensures forall k :: 0 <= k < |steps| ==> steps[k].PumpTake? || steps[k].PumpForward?
      ensures old(unboundedIn) != [] && |old(ch)| >= CHANNEL_SIZE ==> |unboundedIn| < |old(unboundedIn)|
      ensures steps == [] ==>
                && State() == old(State()) && unboundedIn == []
                && (unboundedBuf == [] || |ch| >= CHANNEL_SIZE)
    {
      steps := [];
      if |unboundedBuf| == 0 {
        if |unboundedIn| == 0 { return; }
        HeldAfter(State(), PumpTake);
        LeadsOn(old(State()), steps, State(), PumpTake);
        unboundedBuf, unboundedIn := unboundedBuf + [unboundedIn[0]], unboundedIn[1..];
        steps := steps + [PumpTake];
      }
      if |ch| < CHANNEL_SIZE && (forward || |unboundedIn| == 0) {
        HeldAfter(State(), PumpForward);
        LeadsOn(old(State()), steps, State(), PumpForward);
        ch, unboundedBuf := ch + [unboundedBuf[0]], unboundedBuf[1..];
        steps := steps + [PumpForward];
      } else if |unboundedIn| > 0 {
        HeldAfter(State(), PumpTake);
        LeadsOn(old(State()), steps, State(), PumpTake);
        unboundedBuf, unboundedIn := unboundedBuf + [unboundedIn[0]], unboundedIn[1..];
        steps := steps + [PumpTake];
      }
    }

    method Receive() returns (msg: M)
      requires CanRelay(State(), RelayStep.Receive)
      modifies this
      ensures State() == DoRelay(old(State()), RelayStep.Receive) && [msg] + Held(State()) == Held(old(State()))
    {
      HeldAfter(State(), RelayStep.Receive);
      msg := ch[0];
      ch := ch[1..];
    }
  }
}
