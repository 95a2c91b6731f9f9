/** The rounds of the repository's own sensors: with data they train a network, without they run the
    stub.  When their vectors keep their length, and when a round of theirs finishes. */
module LocalRounds {
  import opened Mlp
  import opened ModelTraining
  import opened Messages
  import opened RoundProtocol
  import opened RoundWeights
  import opened RoundLiveness

  // ── vectors keep their length ────────────────────────────────────

  /** What fills the first three layers; a shorter vector cannot be loaded. */
  ghost function Needed(shape: Net): nat { |shape.w1| + |shape.b1| + |shape.w2| }

  /** A sensor with data trains a network of the given shape, one without runs the stub.  Loading a
      vector that is too short ends the process, so nothing is completed then. */
  ghost function LocalTraining(shape: Net, data: SensorData): TrainingRelation {
    (id: SensorId, s: StartTraining, c: Completion) =>
      if data(id) == [] then
        c.weights == StubWeights(s.weights) && 80 <= c.numSamples < 120 && c.loss == 0.5 - s.roundId as real * 0.02
      else if |s.weights| < Needed(shape) then false
      else
        && c.weights == TrainedWeights(shape, data(id), s) && c.numSamples == |data(id)|
        && c.loss == ReportedLoss(TrainedNet(shape, data(id), s), data(id))
  }

  ghost predicate NobodyReal(data: SensorData) { forall id :: data(id) == [] }

  /** Stub and real sensors together keep vectors of length n at that length iff n is the number of
      parameters, or no sensor is real, or n is too short to be loaded at all. */
  lemma LocalKeepsLengthIff(shape: Net, data: SensorData, n: nat)
    requires shape.WellFormed()
    ensures KeepsLength(LocalTraining(shape, data), n)
            <==> n == |Flatten(shape)| || NobodyReal(data) || n < Needed(shape)
  {
    var trained := LocalTraining(shape, data);
    if n == |Flatten(shape)| || NobodyReal(data) || n < Needed(shape) {
      forall id, s: StartTraining, c: Completion | trained(id, s, c) && |s.weights| == n ensures |c.weights| == n {
        if data(id) == [] {
          assert c.weights == StubWeights(s.weights);
        } else {
          TrainedLength(shape, data(id), s);
        }
      }
    } else {
      var id :| data(id) != [];
      var s := StartTraining(0, seq(n, _ => 0.0), 0.0, 0);
      var net := TrainedNet(shape, data(id), s);
      var c := Completion(TrainedWeights(shape, data(id), s), ReportedLoss(net, data(id)), |data(id)|);
      TrainedLength(shape, data(id), s);
      assert trained(id, s, c) && |s.weights| == n && |c.weights| != n;
    }
  }

  /** So in every run of the repository's own sensors, real and stub, whose coordinator was given the
      networks' size (or whose sensors are all stubs), the length stays and FedAvg never indexes out
      of range. */
  lemma LocalLengthKept(shape: Net, data: SensorData, ws: seq<World>, es: seq<Event>, i: nat)
    requires Run(LocalTraining(shape, data), ws, es) && i < |ws| && shape.WellFormed()
    requires StartLength(ws[0]) == |Flatten(shape)| || NobodyReal(data) || StartLength(ws[0]) < Needed(shape)
    requires ws[0].coord.globalWeights.None? ==> ws[0].coord.sensors.Keys == {}
    ensures !ws[i].crash.IndexCrash?
    ensures ws[i].coord.globalWeights.Some? ==> |ws[i].coord.globalWeights.value| == StartLength(ws[0])
  {
    LocalKeepsLengthIff(shape, data, StartLength(ws[0]));
    GlobalLengthKept(LocalTraining(shape, data), ws, es, i);
  }

  /** The repository's training with data everywhere, or nowhere. */
  lemma LocalCases(shape: Net, data: SensorData)
    requires shape.WellFormed()
    ensures (forall id :: data(id) != []) ==> RealOnly(LocalTraining(shape, data), shape, data)
    ensures NobodyReal(data) ==> StubOnly(LocalTraining(shape, data))
  {
  }

  // ── a round finishes ─────────────────────────────────────────────

  ghost predicate NoneRealIn(data: SensorData, ids: set<SensorId>) { forall id :: id in ids ==> data(id) == [] }

  ghost predicate AllRealIn(data: SensorData, ids: set<SensorId>) { forall id :: id in ids ==> data(id) != [] }

  lemma CompletionExists(shape: Net, data: SensorData, id: SensorId, s: StartTraining) returns (c: Completion)
    requires shape.WellFormed() && (data(id) != [] ==> |s.weights| >= Needed(shape))
    ensures LocalTraining(shape, data)(id, s, c) && c.numSamples > 0
    ensures |c.weights| == if data(id) == [] then |s.weights| else |Flatten(shape)|
  {
    if data(id) == [] {
      c := Completion(StubWeights(s.weights), 0.5 - s.roundId as real * 0.02, 80);
    } else {
      var net := TrainedNet(shape, data(id), s);
      c := Completion(TrainedWeights(shape, data(id), s), ReportedLoss(net, data(id)), |data(id)|);
      TrainedLength(shape, data(id), s);
    }
  }

  /** The length of what the sensors send back, if they all send back the same. */
  ghost function ReturnLength(shape: Net, data: SensorData, ids: set<SensorId>, s: StartTraining): nat {
    if NoneRealIn(data, ids) then |s.weights| else |Flatten(shape)|
  }

  /** Every one of the given sensors completes, with vectors of one length, iff none of them is real, or
      the vector it is sent has one cell per parameter, or all are real and can load it. */
  lemma LocalTrainsIff(shape: Net, data: SensorData, ids: set<SensorId>, s: StartTraining)
    requires shape.WellFormed() && ids != {}
    ensures (exists n :: TrainsUsefully(LocalTraining(shape, data), s, ids, n))
            <==> NoneRealIn(data, ids) || |s.weights| == |Flatten(shape)|
                 || (AllRealIn(data, ids) && |s.weights| >= Needed(shape))
    ensures NoneRealIn(data, ids) || |s.weights| == |Flatten(shape)|
            || (AllRealIn(data, ids) && |s.weights| >= Needed(shape)) ==>
              TrainsUsefully(LocalTraining(shape, data), s, ids, ReturnLength(shape, data, ids, s))
  {
    if NoneRealIn(data, ids) || |s.weights| == |Flatten(shape)|
       || (AllRealIn(data, ids) && |s.weights| >= Needed(shape))
    {
      LocalTrains(shape, data, ids, s);
    } else if n :| TrainsUsefully(LocalTraining(shape, data), s, ids, n) {
      OneLengthOnly(shape, data, ids, s, n);
    }
  }

  lemma LocalTrains(shape: Net, data: SensorData, ids: set<SensorId>, s: StartTraining)
    requires shape.WellFormed()
    requires NoneRealIn(data, ids) || |s.weights| == |Flatten(shape)|
             || (AllRealIn(data, ids) && |s.weights| >= Needed(shape))
    ensures TrainsUsefully(LocalTraining(shape, data), s, ids, ReturnLength(shape, data, ids, s))
  {
    var trained, n := LocalTraining(shape, data), ReturnLength(shape, data, ids, s);
    forall id, c: Completion | id in ids && trained(id, s, c) ensures UsefulResult(c.weights, c.numSamples, n) {
      if data(id) == [] {
        assert c.weights == StubWeights(s.weights);
      } else {
        TrainedLength(shape, data(id), s);
      }
    }
    forall id | id in ids ensures CanTrain(trained, id, s) {
      var c := CompletionExists(shape, data, id, s);
    }
  }

  /** A real sensor that cannot load the vector completes nothing, and a stub beside a real sensor sends
      back a vector of another length. */
  lemma OneLengthOnly(shape: Net, data: SensorData, ids: set<SensorId>, s: StartTraining, n: nat)
    requires shape.WellFormed() && ids != {} && TrainsUsefully(LocalTraining(shape, data), s, ids, n)
    ensures NoneRealIn(data, ids) || |s.weights| == |Flatten(shape)|
            || (AllRealIn(data, ids) && |s.weights| >= Needed(shape))
  {
    var trained := LocalTraining(shape, data);
    if b :| b in ids && data(b) != [] {
      assert CanTrain(trained, b, s);
      assert |s.weights| >= Needed(shape);
      var d := CompletionExists(shape, data, b, s);
      if a :| a in ids && data(a) == [] {
        var c := CompletionExists(shape, data, a, s);
        assert UsefulResult(c.weights, c.numSamples, n) && UsefulResult(d.weights, d.numSamples, n);
      }
    }
  }

  /** So an undisturbed round of the repository's own sensors finishes under that condition. */
  lemma LocalRoundFinishes(shape: Net, data: SensorData, ws: seq<World>, es: seq<Event>)
    requires shape.WellFormed() && RoundRun(LocalTraining(shape, data), ws, es) && AtRest(ws[0])
    requires var ids, n := ws[0].coord.sensors.Keys, |ws[0].coord.globalWeights.value|;
             NoneRealIn(data, ids) || n == |Flatten(shape)| || (AllRealIn(data, ids) && n >= Needed(shape))
    ensures |es| <= 8 * |ws[0].coord.sensors| + 1
    ensures var r := RoundOf(ws[0], 0);
            Stuck(LocalTraining(shape, data), ws[|es|])
            <==> RoundDone(ws[|es|], ws[0], ReturnLength(shape, data, r.sensors, r.start))
  {
    var r := RoundOf(ws[0], 0);
    LocalTrainsIff(shape, data, r.sensors, r.start);
    RoundFinishes(LocalTraining(shape, data), ws, es, ReturnLength(shape, data, r.sensors, r.start));
  }
}
