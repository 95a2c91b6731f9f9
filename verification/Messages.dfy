/** The messages of the federated-learning rounds (smart-home/actors/messages.go). */
module Messages {
  import opened Basics

  type SensorId = string
  type Weights = seq<real>

  datatype StartTraining = StartTraining(roundId: int, weights: Weights, learningRate: real, epochs: int)

  datatype Completion = Completion(weights: Weights, loss: real, numSamples: int)

  datatype ModelUpdate = ModelUpdate(sensorId: SensorId, roundId: int, weights: Weights, numSamples: int, loss: real)

  datatype GlobalUpdate = GlobalUpdate(roundId: int, weights: Weights, loss: real)

  /** What can lie in a sensor's mailbox.  A payload of None is one that fails the type cast.
      `origin` is auxiliary: it records the StartTraining payload that the finished training
      goroutine was given, and no handler reads it. */
  datatype SensorMsg =
    | StartMsg(start: Option<StartTraining>)
    | GlobalMsg(global: Option<GlobalUpdate>)
    | CompleteMsg(completion: Option<Completion>, origin: StartTraining)
    | StatusMsg
    | CrashMsg
    | LifecycleMsg
    | OtherMsg
}
