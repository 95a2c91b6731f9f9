# Federated learning on actors: a verified model

The repository trains a small neural network federatedly on a home-made actor runtime. A coordinator
numbers rounds, sends the global weights to its sensors, collects their locally trained weights and
averages them. The actors live in a registry, talk through mailboxes, and are restarted by a
supervisor when they panic. This project models that system in Dafny and proves what it keeps.

| part | files |
|---|---|
| round protocol as a distributed step machine | `Messages`, `Sensor`, `Coordinator`, `RoundProtocol`, `RoundSafety`, `RoundBlocking`, `RoundWeights`, `RoundLiveness`, `LocalRounds`, `CoordinatorCrash` |
| numeric core over the reals | `Sums`, `Mlp`, `NetworkLaws`, `Backprop`, `HiddenSymmetry`, `FedAvg`, `UpdateMeans`, `ModelTraining`, `Rounding`, `Metrics` |
| actor lifecycle and supervision as interleaved steps | `Lifecycle`, `Strategy`, `Supervision`, `SupervisionSafety`, `FailureHistory`, `FactoryHistory`, `Unregister` |
| mailboxes, and how they provide the links of the round protocol | `Mailbox`, `SharedChannel`, `LoneProducer`, `MailboxLink` |
| helpers | `Basics`, `Counting` |

Code that changes state is modelled by classes and loops (`MLP`, `FedAvg`, `CoordinatorActor`,
`SensorActor`, `FailureTracker`, `SupervisorActor`, `ActorSystem`, the mailboxes), and each method is
proved against a pure specification. The step machines of the round protocol, of the lifecycle and of
supervision are built from the same step functions as the handlers, so what is proved about every run
is proved about the handlers. Where a method runs concurrently with others in the source, its contract
tells what it does when nothing interrupts it, and the interleaved machine tells the rest. A run is a
sequence of worlds, each reached from the one before by an enabled event; the events interleave freely.

In the round protocol, links between coordinator and sensors are FIFO and may lose anything, updates
may overtake one another on their way to the coordinator, full mailboxes may drop anything, sensors
may crash and come back as a fresh incarnation with a fresh mailbox and an arbitrary restored state,
rounds may be abandoned by starting the next one, and sensors may register at any time. Local training
is a relation between a start message and a completion, and the order in which Go lists the update
map is part of the event, so the protocol theorems hold for every kind of training, also one that
changes the length of the vectors. So is whether the coordinator finds its device controller after an
aggregation. The assumptions are: only the coordinator sends `StartTraining`, only the training
goroutine sends `TrainingComplete`, nothing kills the coordinator but its own two panics (FedAvg
indexes out of range, or the device step cannot load the vector) and it then stays dead, weights are
reals.

What the proofs show about the code that its comments do not say:

- `OneForOne` promises to escalate after more than `MaxRetries` failures within `Within`
  (actor-framework/supervision/strategy.go:41-42). It escalates exactly when that many of the failures
  since the last completed restart are tracked and in the window (`FailureHistory.OneForOneEscalatesIff`).
- Every successful restart clears the failure history (actor-framework/supervision/supervisor.go:195).
  With the supervisor as the only one who respawns an actor, each failure therefore looks like the
  first one: `OneForOne` never escalates and `ExponentialBackoff` never waits longer than its first
  delay (`SupervisionSafety.EveryFailureLooksFirst`). The history grows only when somebody else takes the
  ID, so that the supervisor's restart fails (`FailureHistory.GrowingHistory` is such a run).
- Unregistering ends supervision for good exactly when no restart of the actor has been decided (no
  timer runs, no delayed restart is queued) or the system is closed. Otherwise the scheduled restart
  can still spawn the actor and put its factory back (`Unregister.UnregisterHoldsIff`).
- Escalation goes to the failed actor's own supervisor. If that is the same supervisor, the failure goes
  back into its own queue: for ever when `MaxRetries` is zero or less, and otherwise until more than
  `MaxRetries` handlings lie in the window, whereupon the factory is forgotten
  (`FailureHistory.EscalationCirclesIff`). Under `Escalation` nothing is ever restarted
  (`SupervisionSafety.EscalationNeverRestarts`).
- The tracker keeps 30 seconds, so a retry window longer than that is not honoured
  (`Strategy.PruningInvisibleIff` gives the exact condition).
- `FedAvg` is independent of the order of its clients exactly when all vectors have one length
  (`FederatedAveraging.OrderIndependentIff`). In a run of the repository's own sensors they have if the
  coordinator's `numWeights` is the size of the networks, or all sensors are stubs; with another
  `numWeights` real sensors change the length, or cannot load the vector at all
  (`LocalRounds.LocalKeepsLengthIff`).
- After an aggregation the coordinator loads the result into a 5-8-3 network if it finds a device
  controller, and a vector of fewer than 72 cells makes it panic. With networks of that shape no run
  crashes the coordinator iff its vector has 75 cells, or none, or all sensors train for real, or all are
  stubs and the vector has at least 72 cells (`CoordinatorCrash.NeverCrashesIff`).
- A sensor that registers while a round is pending blocks it: that round is never aggregated
  (`RoundBlocking.LateRegistrationBlocks`, `RoundBlocking.BlockedUntilStart`). The same
  holds for one that crashes and loses its start. So at an aggregation there are no sensors that missed the
  round, although the broadcast means to reach them too (smart-home/actors/coordinator.go:297-298): every
  registered sensor was addressed (`RoundBlocking.NobodyMissesAggregation`) and has answered
  (`RoundSafety.AggregationCoversSensors`).
- When every sensor trains for real, all hidden units stay identical for ever from the coordinator's
  uniform start of 0.01 (`RoundWeights.HiddenUnitsStayIdentical`), and such a hidden layer computes what a
  single unit computes (`HiddenSymmetry.AlikeIsOneUnit`). A stub sensor breaks the symmetry.
- `Spawn` looks at the closed flag before it takes the lock, and counts its goroutine after it has left
  it, so an actor can start after `Shutdown` has returned: nothing runs any more iff no call of `Spawn`
  was half done at that moment (`Lifecycle.ShutdownHoldsIff`).
- `RestartActor` asks a registered actor to stop but does not wait for it, so called on an actor that
  is still registered it fails (`Lifecycle.ActorSystem.RestartActor`); its comment promises a fresh
  instance.
- `DropOldest` can drop a message although a slot is free: when the consumer takes a message between the
  refused try and the drain. `LoneProducer.LoneCallAtomicIff` says exactly when a call is like an
  uninterrupted one, and `LoneProducer.LateDrainRun` shows a run in which it is not. A caller can be sure
  of it beforehand iff the channel has a free slot or only one slot at all
  (`LoneProducer.SurelyAtomicIff`).

## Model

| member | source | states |
|---|---|---|
| `RoundSafety.NoGlobalModelWhileTraining` | smart-home/actors/sensor.go:118-141 | in every run, with any crash, loss, late registration or abandoned round, no global model is ever handled by a sensor that is training, so its round number is never overwritten before it labels its update |
| `RoundSafety.AcceptedUpdatesAreLabelled` | smart-home/actors/coordinator.go:260-286 | in every run, each update accepted for the pending round was trained from exactly the message that the start of that round sent: the lemma returns the start event, whose message carries that round's number, the global weights of that moment and the configured rate and epochs |
| `RoundSafety.SensorStackExact` | smart-home/actors/sensor.go:102-170 | in every run, between messages a live incarnation is idle iff its behaviour stack is empty and training iff the stack is [training], and then exactly one of goroutine, unread completion and dropped completion exists; idle means none |
| `RoundSafety.AggregationCoversSensors` | smart-home/actors/coordinator.go:275-301 | at every aggregation of every run the keys of the collected updates are exactly the registered sensors, and the aggregated round is the pending one |
| `RoundSafety.AggregatedRoundsIncrease` | smart-home/actors/coordinator.go:268-325 | of two aggregations in a run the later has the larger round number, although the pending updates are not cleared: no round is aggregated twice |
| `RoundSafety.StepKeepsInv` | smart-home/actors/coordinator.go:213-344 | every one of the twelve kinds of event preserves the protocol invariant: queue order, labels, answers, pending updates and history |
| `RoundSafety.BroadcastsAreRoundStarts` | smart-home/actors/coordinator.go:213-256 | every entry of the broadcast history is the message of an actual round start of the run: its number is the next one, its weights are the global weights of that moment, its rate and epochs the configured ones |
| `RoundSafety.ConfigKept` | smart-home/actors/coordinator.go:139-145 | no event of a run changes the learning rate or the number of epochs |
| `RoundBlocking.BlockedUntilStart` | smart-home/actors/coordinator.go:275-286 | in every run a registered sensor that has not answered the pending round, does not train for it and has no start of it under way stays so, whatever is lost, crashed or registered, and nothing is aggregated until the next round start |
| `RoundBlocking.LateRegistrationBlocks` | smart-home/actors/coordinator.go:162-182 | in every run a registered sensor that the pending round was not sent to is such a sensor |
| `RoundBlocking.NobodyMissesAggregation` | smart-home/actors/coordinator.go:275-301 | at every aggregation of every run the registered sensors are exactly those that the round was sent to, so nobody gets a global model of a round that it missed |
| `RoundLiveness.StepProgress` | smart-home/actors/coordinator.go:213-344 | in an undisturbed round, whatever one length the trained vectors have, every step strictly decreases the sum of the sensors' ranks and keeps the round's invariant |
| `RoundLiveness.RoundFinishes` | smart-home/actors/coordinator.go:213-344 | for every training that ends with vectors of one length, from a system at rest one round start is followed by at most 8 steps per sensor, and no step is possible iff the round has been aggregated exactly once and every sensor is idle with the new global weights |
| `RoundWeights.RunWeights` | smart-home/actors/coordinator.go:290-325 | induction over aggregations: a property of weights that training and averaging carry along holds of the global model in every run; FedAvg never indexes out of range, and with vectors of at least 72 cells the device step does not panic either |
| `RoundWeights.GlobalLengthKept` | smart-home/actors/coordinator.go:290-325 | for every kind of training that keeps the length of its vector, in every run the global vector keeps its length and FedAvg never indexes out of range |
| `LocalRounds.LocalKeepsLengthIff` | smart-home/actors/sensor.go:172-233 | a mix of stub sensors and real sensors of one shape keeps vectors of length n at that length iff n is the number of parameters, or no sensor is real, or n is too short to be loaded at all |
| `LocalRounds.LocalLengthKept` | smart-home/actors/sensor.go:172-233 | under that condition on the coordinator's vector, every run of the repository's own sensors keeps the length and FedAvg never indexes out of range |
| `LocalRounds.LocalTrainsIff` | smart-home/actors/sensor.go:172-233 | every one of a round's sensors completes, all with vectors of one length, iff none of them is real, or the round sends one cell per parameter, or all are real and can load what it sends |
| `LocalRounds.LocalRoundFinishes` | smart-home/actors/coordinator.go:213-344 | under that condition an undisturbed round of the repository's own sensors takes at most 8 steps per sensor, and ends only aggregated, with every sensor idle and holding the result |
| `CoordinatorCrash.NeverCrashesIff` | smart-home/actors/coordinator.go:303-380 | with 5-8-3 networks, no run of the repository's own sensors crashes the coordinator, in FedAvg or in the device step, iff its vector has 75 cells or none, or all sensors are real, or all are stubs and it has at least 72 |
| `LocalRounds.LocalCases` | smart-home/actors/sensor.go:172-178 | with data everywhere the repository's training is real training only, with data nowhere it is the stub only, so the next two results apply to it |
| `RoundWeights.StubClosedForm` | smart-home/actors/sensor.go:215-233 | with stub sensors only, after k aggregations in any run weight i is exactly 0.01 + k * 0.01 * (i mod 3 - 1), whatever the samples, sensors, order and abandoned rounds |
| `RoundWeights.HiddenUnitsStayIdentical` | smart-home/actors/coordinator.go:170-175 | with real training from the uniform start, in every run all hidden units of the global model are identical |
| `RoundWeights.AggregationInHull` | smart-home/actors/coordinator.go:303-325 | at every aggregation of every run with non-negative samples each new weight lies between the clients' weights in that cell and the announced loss between the clients' losses; total samples times the weight, and times the loss, are the sums of the clients' weights and losses, each times its samples |
| `Coordinator.CoordinatorActor.HandleRegisterSensor` | smart-home/actors/coordinator.go:162-182 | registers the sensor and, the first time, fills the global weights with 0.01 |
| `Coordinator.CoordinatorActor.HandleStartRound` | smart-home/actors/coordinator.go:213-256 | next round number, cleared updates, and for every registered sensor the same message with that number, the global weights, the rate and the epochs |
| `Coordinator.CoordinatorActor.SetTrainingConfig` | smart-home/actors/coordinator.go:139-145 | sets rate and epochs and nothing else |
| `Coordinator.OutcomeIs` | smart-home/actors/coordinator.go:290-344 | an aggregation is skipped iff the samples add up to zero or there are no weights, fails iff some collected vector is shorter than the first listed one, and otherwise announces this round with a vector as long as that one |
| `Coordinator.FinishedIsWeighed` | smart-home/actors/coordinator.go:303-325 | total samples times each announced cell, and times the announced loss, are the sums of the clients' own cells and losses, each times its samples |
| `Coordinator.CoordinatorActor.HandleModelUpdate` | smart-home/actors/coordinator.go:260-286 | ignores other rounds, stores the update under its sensor, and aggregates, in some order of the map, when at least as many updates as sensors are there; it panics where the aggregation does |
| `Coordinator.CoordinatorActor.AggregateAndFinalise` | smart-home/actors/coordinator.go:290-380 | the new weights are FedAvg of some listing of the map and the loss is the mean over the map; zero samples or no weights change nothing; a shorter later vector panics in FedAvg, and a result of fewer than 72 cells panics after the broadcast if a device controller is found |
| `Coordinator.RegularOutcome` | smart-home/actors/coordinator.go:290-344 | with vectors of the global length every listing finishes, all with the same weights and loss, which weigh the clients' own cells and losses by their samples |
| `Coordinator.AverageLoss` | smart-home/actors/coordinator.go:320-324 | total samples times the accumulated loss is the sum of the clients' losses, each times its samples |
| `Coordinator.ListedAverage` | smart-home/actors/coordinator.go:293-319 | FedAvg on any listing of the update map gives the average over the map |
| `Sensor.DispatchSettles` | smart-home/actors/sensor.go:102-170 | every handler path returns to idle with an empty stack or training with [training], including failed lookup, bad payload, duplicate start and lifecycle messages; goroutines start and updates are sent exactly when stated, and round number, weights, sample count and the update's content are exactly those of the messages |
| `Sensor.SensorActor.Dispatch` | actor-framework/context.go:140-167 | lifecycle messages go to Receive, others to the top behaviour; state, goroutine, update and panic are those of the step function |
| `Sensor.SensorActor.WhileTraining` | smart-home/actors/sensor.go:118-141 | the training behaviour with its push and two pops refines the step function |
| `Sensor.SensorActor.ProcessSendResults` | smart-home/actors/sensor.go:252-303 | the update carries the sensor's current round number; a failed lookup sends nothing |
| `Sensor.SensorActor.HandleStartTraining` | smart-home/actors/sensor.go:153-170 | takes over round and weights, pushes the training behaviour, starts one goroutine |
| `Sensor.SensorActor.HandleGlobalModelUpdate` | smart-home/actors/sensor.go:307-316 | overwrites weights and round number in any state |
| `Sensor.SensorActor.Become` | actor-framework/context.go:117-120 | pushes on the behaviour stack |
| `Sensor.SensorActor.Unbecome` | actor-framework/context.go:122-128 | pops the behaviour stack, and leaves an empty one alone |
| `Sensor.SensorActor.CurrentBehavior` | actor-framework/context.go:130-135 | the top of the stack, or none |
| `Mlp.MLP.Train` | smart-home/model/mlp.go:80-133 | the in-place loops perform one simultaneous step theta - lr * grad(theta) with all gradients at the old parameters, each flat cell touched once, and return the old loss, or none where the source divides zero by zero |
| `Mlp.UpdateMatrix` | smart-home/model/mlp.go:113-117 | the nested update loop over i*cols+j subtracts lr times the outer product from the whole matrix |
| `Mlp.MLP.HiddenGradient` | smart-home/model/mlp.go:100-110 | backpropagated error per hidden unit, zero where the unit is inactive |
| `Mlp.MLP.HiddenLayer` | smart-home/model/mlp.go:64-74 | rectified input sums per hidden unit |
| `Mlp.MLP.Predict` | smart-home/model/mlp.go:51-62 | the forward pass |
| `NetworkLaws.UnitInput` | smart-home/model/mlp.go:64-74 | the input of a hidden unit is its bias plus the weighted inputs |
| `NetworkLaws.OutputIsActiveSum` | smart-home/model/mlp.go:51-74 | a predicted value is the output bias plus, for each unit with a positive input, that input times its weight |
| `NetworkLaws.InactiveOutput` | smart-home/model/mlp.go:51-74 | with no active unit the prediction is the output bias |
| `NetworkLaws.LossIsMeanSquare` | smart-home/model/mlp.go:84-92 | the loss times the number of outputs is the sum of the squared errors |
| `NetworkLaws.StepIsAgainstGradient` | smart-home/model/mlp.go:94-133 | a training step lowers every single parameter by the rate times its component of the gradient, which Backprop shows to be the loss's |
| `Mlp.MLP.Weights` | smart-home/model/mlp.go:138-147 | the four layers flattened in order |
| `Mlp.MLP.SetWeights` | smart-home/model/mlp.go:150-156 | copies a flat vector back, for any vector that reaches the last layer; a shorter one is out of slice bounds in the source |
| `Mlp.UnflattenCells` | smart-home/model/mlp.go:138-156 | after loading a vector, parameter k in flat order is cell k of the vector, or what it was if the vector ends before |
| `Mlp.UnflattenFlatten` | smart-home/model/mlp.go:138-156 | loading a network's own vector into any network of its shape reproduces it |
| `Mlp.FlattenUnflatten` | smart-home/model/mlp.go:138-156 | reading a loaded vector back gives it unchanged iff it has one cell per parameter |
| `Backprop.OutputLayerGradient` | smart-home/model/mlp.go:80-133 | for every perturbation of W2 and B2 the loss changes by the inner product with the gradient that Train subtracts plus exactly the mean squared output change |
| `Backprop.HiddenLayerGradient` | smart-home/model/mlp.go:80-133 | the same for every perturbation of W1 and B1 that keeps this input's active hidden units |
| `HiddenSymmetry.TrainCommutesWithRenaming` | smart-home/model/mlp.go:80-133 | training a network with permuted hidden units is permuting the trained network |
| `HiddenSymmetry.RenamedOutput` | smart-home/model/mlp.go:51-74 | Predict is invariant under every permutation of hidden units |
| `HiddenSymmetry.TrainKeepsAlike` | smart-home/model/mlp.go:80-133 | one SGD step keeps identical hidden units identical |
| `HiddenSymmetry.AlikeIsOneUnit` | smart-home/model/mlp.go:51-74 | a network with identical hidden units predicts what a network with one of them predicts, its outgoing weights multiplied by the number of units |
| `ModelTraining.RealTraining` | smart-home/actors/sensor.go:180-201 | the network goes through a chain of epochs * samples + 1 networks that starts with the received weights, each the training step of the one before on the next sample in turn; the completion carries the last one's weights, its rounded loss and the number of samples |
| `ModelTraining.TrainedByChain` | smart-home/actors/sensor.go:180-187 | any such chain ends in the network that the round protocol takes for the trained one |
| `ModelTraining.ReportsMeanLoss` | smart-home/actors/sensor.go:203-213 | the reported loss is the rounded mean of the samples' losses times outputs / 3 |
| `ModelTraining.ComputeLoss` | smart-home/actors/sensor.go:203-213 | squared error over all samples, divided by three per sample whatever the outputs, rounded to six digits |
| `ModelTraining.TrainedLength` | smart-home/actors/sensor.go:180-201 | real training sends back one cell per parameter, however many it was sent |
| `ModelTraining.TrainedIgnoresOldContents` | smart-home/actors/sensor.go:180-191 | what a sensor sends back depends on the received weights and its data, not on what earlier rounds left in its network |
| `ModelTraining.TrainingKeepsAlike` | smart-home/actors/sensor.go:180-201 | any number of epochs over any data keeps identical hidden units identical in the flat vector |
| `ModelTraining.StubTraining` | smart-home/actors/sensor.go:215-233 | shifts weight i by 0.01 * (i mod 3 - 1), reports 80 to 119 samples and the loss 0.5 - 0.02 * round |
| `UpdateMeans.AverageKeepsAlike` | smart-home/model/fedavg.go:24-33 | averaging networks with identical hidden units gives one |
| `UpdateMeans.FinishedInHull` | smart-home/actors/coordinator.go:303-325 | the aggregate keeps to the clients' own bounds, in each cell and in the loss, and conserves the sample-weighted sums of both |
| `FederatedAveraging.FedAvg` | smart-home/model/fedavg.go:8-36 | the accumulating loops give the weighted mean of every coordinate, nil for empty, mismatched or zero-sample input, an index failure when a later vector is shorter than the first |
| `FederatedAveraging.AverageIs` | smart-home/model/fedavg.go:8-35 | nil iff there is no client, the counts do not match or the samples add up to zero; a failure iff a later vector is shorter; otherwise as many cells as the first vector |
| `FederatedAveraging.AverageCellIs` | smart-home/model/fedavg.go:24-33 | total samples times a cell is the sum of the clients' cells, each times its samples |
| `FederatedAveraging.MeanConserves` | smart-home/model/fedavg.go:28-33 | total samples times the mean is the sample-weighted sum |
| `FederatedAveraging.MeanInHull` | smart-home/model/fedavg.go:28-33 | with non-negative samples every coordinate lies between the clients' bounds |
| `FederatedAveraging.OrderIndependentIff` | smart-home/model/fedavg.go:16-35 | with a non-zero total the result is the same for every order of the clients iff all vectors have one length |
| `FederatedAveraging.HierarchicalAverage` | smart-home/model/fedavg.go:16-35 | averaging group averages weighted by group totals is averaging all clients at once |
| `Lifecycle.OneIncarnation` | actor-framework/system.go:94-138 | under every interleaving at most one incarnation of an ID lies between insertion and its own removal, and the registry points to it |
| `Lifecycle.RemovalHitsOwnEntry` | actor-framework/system.go:198-223 | delete-by-ID always removes exactly the deleter's own entry, also after a panic in OnPostStop |
| `Lifecycle.RemovedOnce` | actor-framework/system.go:153-223 | no incarnation is removed twice |
| `Lifecycle.WaitGroupZero` | actor-framework/system.go:312-332 | with no spawn half done, the wait group is zero iff every incarnation has finished, and then the registry is empty |
| `Lifecycle.ShutdownHoldsIff` | actor-framework/system.go:310-332 | when Shutdown returns (closed, wait group zero), no goroutine ever runs again in any continuation iff no call of Spawn is between its closed check and its insertion or between insertion and start |
| `Lifecycle.LateSpawns` | actor-framework/system.go:94-100 | in every continuation of a closed system the new incarnations are at most the calls of Spawn that had passed the closed check |
| `Lifecycle.StepKeepsValid` | actor-framework/system.go:94-244 | every step keeps the registry equal to the live incarnations and the wait group equal to the running goroutines |
| `Lifecycle.ActorSystem.CheckOpen` | actor-framework/system.go:95-99 | the check without the lock passes iff the system is open |
| `Lifecycle.ActorSystem.InsertIfFree` | actor-framework/system.go:103-129 | the locked section inserts iff the ID is free, also when the system has been closed since the check |
| `Lifecycle.ActorSystem.TrySpawn` | actor-framework/system.go:94-129 | the two in a row insert iff the system is open and the ID is free, otherwise change nothing |
| `Lifecycle.ActorSystem.DeleteById` | actor-framework/system.go:220-223 | the critical section of removal; the entry it deletes is its own |
| `Lifecycle.ActorSystem.Lookup` | actor-framework/system.go:252-261 | finds an entry iff an incarnation of that ID is live |
| `Lifecycle.ActorSystem.RestartActor` | actor-framework/system.go:287-304 | run without interruption it spawns iff nobody was registered and the system is open |
| `Strategy.PruneInPlace` | actor-framework/supervision/strategy.go:164-171 | overwriting the slice while reading it keeps exactly the entries after the cutoff, in order |
| `Strategy.FailureTracker.Record` | actor-framework/supervision/strategy.go:158-174 | the new list is the old one plus now, filtered by age; other actors' lists stay |
| `Strategy.FailureTracker.Reset` | actor-framework/supervision/strategy.go:177-181 | empties one actor's list |
| `Strategy.TrackedIsRecent` | actor-framework/supervision/strategy.go:158-174 | with a monotone clock repeated pruning leaves exactly the recent part of the full history |
| `Strategy.OnFailure` | actor-framework/supervision/strategy.go:50-140 | OneForOne escalates, and Escalation stops, iff MaxRetries is positive and more than MaxRetries of the listed failures lie less than Within before now, ten seconds if none is given; otherwise OneForOne restarts at once and Escalation escalates; the backoff restarts after its delay |
| `Strategy.DecisionByCount` | actor-framework/supervision/strategy.go:50-140 | the same for the decision function that the run theorems use, by a count of list positions |
| `Strategy.RecentIsFilter` | actor-framework/supervision/strategy.go:164-171 | the kept list is the list at exactly the positions whose time is after the cutoff, in order |
| `Strategy.BackoffIsGeometric` | actor-framework/supervision/strategy.go:86-105 | the delay is the initial delay times the (n-1)-st power of the factor, cut to whole nanoseconds and to the maximum, with the three defaults |
| `Strategy.PruningInvisibleIff` | actor-framework/supervision/strategy.go:50-140 | OneForOne and Escalation decide on the pruned list as on the full history, for every monotone history, iff they do not count or their window is at most 30 s |
| `Strategy.BackoffShape` | actor-framework/supervision/strategy.go:86-105 | delays lie between zero and the maximum, the first is the initial delay or the maximum, and they do not shrink for factors of at least one |
| `Supervision.SupervisorActor.HandleFailure` | actor-framework/supervision/supervisor.go:146-184 | records, decides and reacts; unknown actors are ignored, Stop forgets the factory |
| `Supervision.SupervisorActor.HandleRegister` | actor-framework/supervision/supervisor.go:123-132 | stores the factory and leaves the failure history |
| `FactoryHistory.FactoryIff` | actor-framework/supervision/supervisor.go:123-197 | in every run the supervisor holds factory f for an actor iff the last registration, completed restart, unregistration or stop of it was a registration or restart with f, or there was none and it held f at the start |
| `FactoryHistory.RestartsWithGiven` | actor-framework/supervision/supervisor.go:146-184 | a failure handled after a registration with f, and nothing else about the actor since, leads to a restart with f, at once or by a timer, whenever the strategy decides to restart |
| `FactoryHistory.RegisteredIsRestarted` | actor-framework/supervision/supervisor.go:146-184 | with the supervisor as sole respawner and OneForOne or ExponentialBackoff it always does |
| `Supervision.SupervisorActor.HandleUnregister` | actor-framework/supervision/supervisor.go:134-144 | forgets factory and failure history |
| `Supervision.SupervisorActor.DoRestart` | actor-framework/supervision/supervisor.go:186-197 | spawns iff the ID is free and the system open; only then the factory is stored and the history cleared |
| `SupervisionSafety.RunTokens` | actor-framework/supervision/supervisor.go:146-262 | with the supervisor as sole respawner, live incarnations plus unreported failures plus queued failures and delayed restarts plus timers plus the restart in progress never exceed one in any run |
| `SupervisionSafety.RestartFindsIdFree` | actor-framework/supervision/supervisor.go:186-212 | every restart that passes the closed check finds the ID free and creates exactly one incarnation, also when the system is closed in between |
| `SupervisionSafety.EveryFailureLooksFirst` | actor-framework/supervision/supervisor.go:162-196 | in every run each handled failure is the only one in the list, so OneForOne never escalates and the backoff never grows |
| `FailureHistory.ListIsRecentHistory` | actor-framework/supervision/supervisor.go:162-164 | in every run, also when others spawn the actor, with a monotone clock the list that the strategy sees is exactly the failures since the last restart or unregistration that are less than 30 s old |
| `FailureHistory.DecisionUsesWholeHistory` | actor-framework/supervision/supervisor.go:162-164 | with a window of at most 30 s every decision of a run is the one that the whole history calls for |
| `FailureHistory.OneForOneEscalatesIff` | actor-framework/supervision/strategy.go:41-70 | in every run with a monotone clock a handled failure is passed on instead of restarted iff MaxRetries is positive and more than MaxRetries of the failures since the last restart or unregistration are still tracked and in the window |
| `FailureHistory.GrowingHistory` | actor-framework/supervision/supervisor.go:186-197 | a run in which somebody else takes the ID, the restart fails, the history stays, and OneForOne(1, 10 s) escalates the second failure |
| `SupervisionSafety.EscalationNeverRestarts` | actor-framework/supervision/strategy.go:120-140 | under Escalation no run ever creates another incarnation |
| `SupervisionSafety.EscalationReturnsIff` | actor-framework/supervision/supervisor.go:214-237 | with any queue behind it, a failure that escalates to its own supervisor goes back to the end of the queue iff the strategy does not decide to stop; otherwise the factory is forgotten |
| `FailureHistory.EscalationCirclesIff` | actor-framework/supervision/strategy.go:120-140 | in every run with a monotone clock that happens iff MaxRetries is not positive or at most MaxRetries of the handlings since the last unregistration are still tracked and in the window |
| `FailureHistory.EscalationStopsAfter` | actor-framework/supervision/strategy.go:120-140 | while all handlings lie in the window, the failure is given up exactly at handling MaxRetries + 1 |
| `Unregister.UnregisterHoldsIff` | actor-framework/supervision/supervisor.go:134-144 | after any run that unregisters an actor, every continuation that does not register it again leaves it without a factory and creates no incarnation of it iff no restart of it was decided or the system is closed |
| `Unregister.OutStep` | actor-framework/supervision/supervisor.go:146-262 | no step brings an unregistered actor back when no restart of it is decided |
| `Unregister.QueuedRestart` | actor-framework/supervision/supervisor.go:239-262 | from any open state with a queued delayed restart, the supervisor's own next steps end with the actor spawned and its factory stored again |
| `Mailbox.BoundedMailbox.Enqueue` | actor-framework/mailbox.go:106-141 | a call that nothing interrupts keeps the newest or the oldest messages up to capacity and counts exactly the overflow as dropped; the DropOldest loop ends |
| `Mailbox.BoundedMailbox.Dequeue` | actor-framework/mailbox.go:147-151 | the consumer takes the head of the channel and the counters still balance |
| `Mailbox.BoundedMailbox.GetStats` | actor-framework/mailbox.go:174-180 | read at one moment it returns the counters and the length of the channel; enqueued = delivered + dropped + pending, and pending is at most the capacity |
| `Mailbox.BurstKeeps` | actor-framework/mailbox.go:114-141 | a lone producer's burst into a mailbox that nobody reads leaves exactly the newest messages up to capacity with DropOldest, exactly the oldest otherwise |
| `SharedChannel.SharedMailboxSafe` | actor-framework/mailbox.go:106-141 | in every state of every interleaving of producers and consumer, enqueued = delivered + dropped + pending + in flight, pending is at most the capacity, the channel is what has entered and not left, and each producer's messages are delivered in the order sent, each at most once |
| `SharedChannel.AcceptedIsDelivered` | actor-framework/mailbox.go:114-126 | with BlockSender or DropNewest the consumer gets exactly what entered the channel, in order |
| `SharedChannel.RefusalIsCounted` | actor-framework/mailbox.go:119-126 | under every interleaving a DropNewest call that finds neither a receiver nor a free slot leaves the channel alone, can only count its message as dropped next, and has then returned |
| `SharedChannel.SnapshotBounds` | actor-framework/mailbox.go:174-180 | read at three moments, the numbers of Stats never claim more than has been enqueued by the last one, and they balance when read at once with nothing in flight |
| `SharedChannel.DropOldestReturnsIff` | actor-framework/mailbox.go:127-139 | under every interleaving a DropOldest call has returned iff one of its tries found a waiting receiver or a free slot |
| `SharedChannel.ZeroCapacityReturnsIff` | actor-framework/mailbox.go:127-139 | without slots it returns exactly at a try during which a receiver waits, and the message is then delivered at once |
| `LoneProducer.LoneCallEnds` | actor-framework/mailbox.go:127-139 | a lone DropOldest call takes at most four steps of its own, however often the consumer steps in |
| `LoneProducer.LoneNeverBlocked` | actor-framework/mailbox.go:127-139 | inside its call a lone DropOldest producer always has an enabled step |
| `LoneProducer.ChannelIsSuffix` | actor-framework/mailbox.go:127-139 | with a lone DropOldest producer every finished call's message enters, and the channel is always a suffix of what was sent |
| `LoneProducer.CallLeavesMessage` | actor-framework/mailbox.go:127-139 | when the call returns its message is last in the channel or has just been delivered |
| `LoneProducer.LoneCallAtomicIff` | actor-framework/mailbox.go:106-141 | delivered messages, channel and drop count of a lone DropOldest call are those of an uninterrupted Enqueue placed somewhere among the consumer's steps iff each drain is made from a full or an empty channel |
| `LoneProducer.SurelyAtomicIff` | actor-framework/mailbox.go:127-139 | at the start of a lone DropOldest call, every way in which the run can go on ends the call with that effect iff a slot is free or the channel has a single slot |
| `LoneProducer.LateDrainRun` | actor-framework/mailbox.go:127-139 | a run with two slots in which the drain drops a message although a slot is free |
| `Mailbox.RelayKeepsOrder` | actor-framework/mailbox.go:76-112 | under every interleaving of producers, pump and consumer, delivered, channel, buffer and input concatenate to the sent sequence |
| `Mailbox.HeldAfter` | actor-framework/mailbox.go:76-99 | from outside the unbounded mailbox is one FIFO queue: pump steps do not show |
| `Mailbox.PumpNeverStuck` | actor-framework/mailbox.go:76-99 | the pump can take every waiting message even if the consumer never reads, after which any sender can go on |
| `Mailbox.QuietIsDelivered` | actor-framework/mailbox.go:76-99 | when neither pump nor consumer can move, everything sent has been received in order |
| `Mailbox.UnboundedMailbox.PumpTurn` | actor-framework/mailbox.go:76-99 | one turn of the pump loop is a sequence of pump steps, loses nothing, and takes input even if the consumer's channel is full |
| `MailboxLink.RelayIsMailbox` | actor-framework/mailbox.go:76-112 | each step of an unbounded mailbox is a step on a sensor's mailbox in the round protocol: an arrival, the processing of the head, or nothing |
| `MailboxLink.SharedIsMailbox` | actor-framework/mailbox.go:106-141 | each step of a bounded one is an arrival, an arrival with its processing, an arrival dropped at once (also that of a completion) or a loss on the link, a drop of the head, the processing of the head, or nothing |
| `Metrics.Calculate` | smart-home/evaluation/metrics.go:18-54 | the loops compute MSE, RMSE, MAE and R2, rounded to six digits; empty or mismatched input gives zeros |
| `Metrics.MeanErrorsAre` | smart-home/evaluation/metrics.go:31-41 | MSE and MAE times the number of values are the sums of the squared and of the absolute differences |
| `Metrics.R2Is` | smart-home/evaluation/metrics.go:43-46 | 1 - R2 times the spread around the mean is the sum of the squared differences if the spread exceeds 1e-12; otherwise R2 is one, whatever the error |
| `Rounding.NearestIff` | smart-home/evaluation/metrics.go:48-53 | rounding picks the nearest whole number, and moves away from zero half way |
| `Rounding.Round6Close` | smart-home/evaluation/metrics.go:48-53 | a reported number has six decimals and is off by at most half of the last one |
| `Metrics.MaeBelowMse` | smart-home/evaluation/metrics.go:31-41 | MAE squared is at most MSE, with equality iff all errors have one size |
| `Metrics.R2AtMostOne` | smart-home/evaluation/metrics.go:43-46 | R2 is at most one, and with enough variation it is one iff the prediction is exact |
| `Metrics.ConstantPredictor` | smart-home/evaluation/metrics.go:43-46 | with enough variation a constant prediction has R2 at most zero, with equality iff it is the mean |
| `Metrics.RoundedRelations` | smart-home/evaluation/metrics.go:48-53 | the reported numbers keep 0 <= MAE <= RMSE and R2 <= 1, are perfect for an exact prediction, and give R2 <= 0 for a constant one with enough variation |

## Left out

- gRPC transport, protobuf and JSON payloads: library wrappers; only lossy FIFO links remain of them.
- Persistence: a restored sensor has an arbitrary round number, weights and sample count; a restored coordinator is an initial state.
- Coordinator restore in the middle of a run: it can reuse the number of an abandoned round, so a crashed coordinator stays dead here.
- The device step after an aggregation: only whether loading the weights panics is modelled, not the settings that it sends.
- IEEE-754 rounding, NaN and infinity, overflow of a float delay: arithmetic is over the reals.
- Integer widths: rounds, sample counts and mailbox counters are unbounded.
- Random initial weights of a network: a parameter of the constructor.
- ModelTraining.RealTraining: requires samples and weights long enough for the network, as the source's indexing does; the sanitising of NaN and infinity before sending is not modelled.
- ModelTraining.StubTraining: the clock reading that the sample count comes from is a parameter, and the delay is not modelled.
- Metrics.Calculate: the square root is a parameter with the defining property of one.
- Mailbox.BoundedMailbox.Enqueue: a call during which the consumer steps in is described by LoneProducer and SharedChannel, not by this contract; a blocked sender is modelled by the precondition that there is room.
- Mailbox.BoundedMailbox.GetStats: the source reads the three counters one after another; SharedChannel.SnapshotBounds says what holds then.
- Mailbox.BurstKeeps: speaks of a burst during which nobody reads; LoneProducer.LoneCallAtomicIff speaks of the others.
- SharedChannel.SharedMailboxSafe: order is per producer, because concurrent calls may enter the channel in another order than they began.
- Lifecycle.ActorSystem.TrySpawn: covers a call that nothing interrupts; CheckOpen and InsertIfFree are its sections, and the interleaved machine takes them separately.
- Lifecycle.ActorSystem.RestartActor: covers a call that nothing interrupts; SupervisionSafety.RestartFindsIdFree covers the supervisor's restarts under every interleaving.
- Mailbox behaviour after Close: nothing calls Close, and pump would drop its buffer.
- Panics raised by OnPreRestart or by an error value's own Error method while a failure is being handled.
- The supervisor's own failure, heartbeats, and the log message after a restart.
- A change of the training configuration between the rounds of a run: rate and epochs are set before it.
- Status requests, the logger, device controller and evaluator actors, the dataset generator, tables and charts, and the command-line programs: I/O or bookkeeping that would only add easy members.
