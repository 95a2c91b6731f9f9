/** The sensor half of the round protocol (smart-home/actors/sensor.go) on the behaviour stack of
    actor-framework/context.go. */
module Sensor {
  import opened Basics
  import opened Messages

  datatype Phase = Idle | Training | Sending

  /** The behaviours a sensor pushes; with an empty stack its Receive method is active. */
  datatype Behavior = TrainingBehavior | SendingBehavior

  datatype SensorState = SensorState(phase: Phase, roundId: int, weights: Weights, samples: int, stack: seq<Behavior>)

  /** A handler's effects: the new state, the training goroutine it started, the update it sent
      to the coordinator, and whether it panicked. */
  datatype Effect = Effect(state: SensorState, spawned: Option<StartTraining>, sent: Option<ModelUpdate>,
      panicked: bool)

  function Quiet(st: SensorState): Effect { Effect(st, None, None, false) }

  function Push(stack: seq<Behavior>, b: Behavior): seq<Behavior> { stack + [b] }

  /** Popping the empty stack is a no-op. */
  function Pop(stack: seq<Behavior>): seq<Behavior> {
    if stack == [] then [] else stack[..|stack| - 1]
  }

  function GlobalModelUpdateStep(st: SensorState, p: Option<GlobalUpdate>): SensorState {
    if p.None? then st else st.(weights := p.value.weights, roundId := p.value.roundId)
  }

  function StartTrainingStep(st: SensorState, p: Option<StartTraining>): Effect {
    if p.None? then Quiet(st)
    else Effect(SensorState(Training, p.value.roundId, p.value.weights, st.samples, Push(st.stack, TrainingBehavior)),
                p, None, false)
  }

  /** The default handler. */
  function ReceiveStep(st: SensorState, msg: SensorMsg): Effect {
    match msg
    case StartMsg(p) => StartTrainingStep(st, p)
    case GlobalMsg(p) => Quiet(GlobalModelUpdateStep(st, p))
    case CrashMsg => Effect(st, None, None, true)
    case _ => Quiet(st)
  }

  /** Sending the results; the update carries the sensor's current roundId. */
  function SendResultsStep(id: SensorId, st: SensorState, c: Option<Completion>, coordinatorFound: bool): Effect {
    if c.None? then Quiet(st)
    else
      var st' := st.(samples := c.value.numSamples);
      if !coordinatorFound then Quiet(st')
      else Effect(st', None,
                  Some(ModelUpdate(id, st.roundId, c.value.weights, c.value.numSamples, c.value.loss)), false)
  }

  /** The handler that is active while the training goroutine runs. */
  function TrainingStep(id: SensorId, st: SensorState, msg: SensorMsg, coordinatorFound: bool): Effect {
    match msg
    case CompleteMsg(c, _) =>
      var e := SendResultsStep(id, st.(phase := Sending, stack := Push(st.stack, SendingBehavior)), c,
          coordinatorFound);
      e.(state := e.state.(phase := Idle, stack := Pop(Pop(e.state.stack))))
    case GlobalMsg(p) => Quiet(GlobalModelUpdateStep(st, p))
    case CrashMsg => Effect(st, None, None, true)
    case _ => Quiet(st)
  }

  /** Lifecycle messages always go to Receive; all others to the top behaviour, if there is one. */
  function DispatchStep(id: SensorId, st: SensorState, msg: SensorMsg, coordinatorFound: bool): Effect {
    if msg.LifecycleMsg? || st.stack == [] then ReceiveStep(st, msg)
    else if st.stack[|st.stack| - 1].TrainingBehavior? then TrainingStep(id, st, msg, coordinatorFound)
    else Quiet(st)
  }

  /** The state between messages: idle with an empty stack, or training with exactly [training]. */
  predicate Settled(st: SensorState) {
    (st.phase == Idle && st.stack == []) || (st.phase == Training && st.stack == [TrainingBehavior])
  }

  /** Every path through every handler returns to a settled state, including a failed coordinator
      lookup, a malformed payload, a duplicate start and lifecycle messages.  A goroutine starts
      exactly on the way into training, and training ends exactly on a completion. */
  lemma DispatchSettles(id: SensorId, st: SensorState, msg: SensorMsg, coordinatorFound: bool)
    requires Settled(st)
    ensures var e := DispatchStep(id, st, msg, coordinatorFound);
            && Settled(e.state)
            && (e.spawned.Some? <==> st.phase == Idle && msg.StartMsg? && msg.start.Some?)
            && (e.spawned.Some? ==> e.state.phase == Training && e.spawned == msg.start)
            && (st.phase == Training ==> (e.state.phase == Idle <==> msg.CompleteMsg?))
            && (st.phase == Idle && e.spawned.None? ==> e.state.phase == Idle)
            && (e.sent.Some? <==> st.phase == Training && msg.CompleteMsg? && msg.completion.Some? && coordinatorFound)
            && (e.sent.Some? ==> e.sent.value.roundId == st.roundId && e.sent.value.sensorId == id)
            && (e.panicked <==> msg.CrashMsg?)
    ensures var e := DispatchStep(id, st, msg, coordinatorFound);
            && (e.spawned.Some? ==>
                  e.state.roundId == msg.start.value.roundId && e.state.weights == msg.start.value.weights)
            && (e.sent.Some? ==> var c := msg.completion.value;
                  e.sent.value == ModelUpdate(id, st.roundId, c.weights, c.numSamples, c.loss))
            && (msg.GlobalMsg? && msg.global.Some? ==>
                  e.state.roundId == msg.global.value.roundId && e.state.weights == msg.global.value.weights)
            && (e.spawned.None? && !(msg.GlobalMsg? && msg.global.Some?) ==>
                  e.state.roundId == st.roundId && e.state.weights == st.weights)
            && e.state.samples == if st.phase == Training && msg.CompleteMsg? && msg.completion.Some?
                                  then msg.completion.value.numSamples else st.samples
  {
    assert Pop(Pop(Push([TrainingBehavior], SendingBehavior))) == [];
  }

  class SensorActor {
    const id: SensorId
    var phase: Phase
    var roundId: int
    var weights: Weights
    var samples: int
    var behaviorStack: seq<Behavior>

    ghost function State(): SensorState
      reads this
    {
      SensorState(phase, roundId, weights, samples, behaviorStack)
    }

    constructor (id: SensorId)
      ensures this.id == id && State() == SensorState(Idle, 0, [], 0, [])
    {
      this.id := id;
      phase, roundId, weights, samples, behaviorStack := Idle, 0, [], 0, [];
    }

    method Become(b: Behavior)
      modifies this`behaviorStack
      ensures behaviorStack == Push(old(behaviorStack), b) == old(behaviorStack) + [b]
    {
      behaviorStack := behaviorStack + [b];
    }

    method Unbecome()
      modifies this`behaviorStack
      ensures behaviorStack == Pop(old(behaviorStack))
      ensures old(behaviorStack) == [] ==> behaviorStack == []
      ensures old(behaviorStack) != [] ==>
                behaviorStack + [old(behaviorStack)[|old(behaviorStack)| - 1]] == old(behaviorStack)
    {
      if |behaviorStack| == 0 { return; }
      behaviorStack := behaviorStack[..|behaviorStack| - 1];
    }

    method CurrentBehavior() returns (b: Option<Behavior>)
      ensures b == if behaviorStack == [] then None else Some(behaviorStack[|behaviorStack| - 1])
    {
      if |behaviorStack| == 0 { return None; }
      b := Some(behaviorStack[|behaviorStack| - 1]);
    }

    /** Delivers one message and reports what the handlers did besides changing the state. */
    method Dispatch(msg: SensorMsg, coordinatorFound: bool)
      returns (spawned: Option<StartTraining>, sent: Option<ModelUpdate>, panicked: bool)
      modifies this
      ensures Effect(State(), spawned, sent, panicked) == DispatchStep(id, old(State()), msg, coordinatorFound)
    {
      spawned, sent, panicked := None, None, false;
      var behavior := CurrentBehavior();
      if msg.LifecycleMsg? || behavior.None? {
        spawned, panicked := Receive(msg);
      } else if behavior.value.TrainingBehavior? {
        sent, panicked := WhileTraining(msg, coordinatorFound);
      }
    }

    method Receive(msg: SensorMsg) returns (spawned: Option<StartTraining>, panicked: bool)
      modifies this
      ensures Effect(State(), spawned, None, panicked) == ReceiveStep(old(State()), msg)
    {
      spawned, panicked := None, false;
      match msg {
        case StartMsg(p) => spawned := HandleStartTraining(p);
        case GlobalMsg(p) => HandleGlobalModelUpdate(p);
        case CrashMsg => panicked := true;
        case _ =>
      }
    }

    method HandleStartTraining(p: Option<StartTraining>) returns (spawned: Option<StartTraining>)
      modifies this
      ensures Effect(State(), spawned, None, false) == StartTrainingStep(old(State()), p)
      ensures spawned == p && (p.None? ==> State() == old(State()))
      ensures p.Some? ==>
                && phase == Training && roundId == p.value.roundId && weights == p.value.weights
                && samples == old(samples) && behaviorStack == old(behaviorStack) + [TrainingBehavior]
    {
      if p.None? { return None; }
      phase, roundId, weights := Training, p.value.roundId, p.value.weights;
      Become(TrainingBehavior);
      spawned := p;
    }

    method HandleGlobalModelUpdate(p: Option<GlobalUpdate>)
      modifies this
      ensures State() == GlobalModelUpdateStep(old(State()), p)
      ensures phase == old(phase) && samples == old(samples) && behaviorStack == old(behaviorStack)
      ensures p.Some? ==> weights == p.value.weights && roundId == p.value.roundId
      ensures p.None? ==> weights == old(weights) && roundId == old(roundId)
    {
      if p.None? { return; }
      weights, roundId := p.value.weights, p.value.roundId;
    }

    method WhileTraining(msg: SensorMsg, coordinatorFound: bool) returns (sent: Option<ModelUpdate>, panicked: bool)
      modifies this
      ensures Effect(State(), None, sent, panicked) == TrainingStep(id, old(State()), msg, coordinatorFound)
    {
      sent, panicked := None, false;
      match msg {
        case CompleteMsg(c, _) =>
          phase := Sending;
          Become(SendingBehavior);
          sent := ProcessSendResults(c, coordinatorFound);
          Unbecome();
          Unbecome();
          phase := Idle;
        case GlobalMsg(p) => HandleGlobalModelUpdate(p);
        case CrashMsg => panicked := true;
        case _ =>
      }
    }

    method ProcessSendResults(c: Option<Completion>, coordinatorFound: bool) returns (sent: Option<ModelUpdate>)
      modifies this
      ensures Effect(State(), None, sent, false) == SendResultsStep(id, old(State()), c, coordinatorFound)
      ensures State() == old(State()).(samples := if c.Some? then c.value.numSamples else old(samples))
      ensures sent.Some? <==> c.Some? && coordinatorFound
      ensures sent.Some? ==>
                sent.value == ModelUpdate(id, roundId, c.value.weights, c.value.numSamples, c.value.loss)
    {
      if c.None? { return None; }
      samples := c.value.numSamples;
      if !coordinatorFound { return None; }
      sent := Some(ModelUpdate(id, roundId, c.value.weights, c.value.numSamples, c.value.loss));
    }
  }
}
