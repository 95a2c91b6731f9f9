/** What a network computes, told by its weights alone: the prediction, the loss and the training step. */
module NetworkLaws {
  import opened Sums
  import opened Mlp

  /** f(k) is what input k adds to hidden unit i. */
  ghost predicate FeedsUnit(f: int -> real, net: Net, x: seq<real>, i: int) {
    forall k :: 0 <= k < net.inDim && k < |x| && 0 <= k * net.hidDim + i < |net.w1| ==>
                  f(k) == x[k] * net.w1[k * net.hidDim + i]
  }

  /** A hidden unit is fed with its bias and the weighted inputs. */
  lemma UnitInput(net: Net, x: seq<real>, i: int, f: int -> real)
    requires net.WellFormed() && |x| >= net.inDim && 0 <= i < net.hidDim && FeedsUnit(f, net, x, i)
    ensures Pre(net, x, i) == net.b1[i] + Sum(f, net.inDim)
  {
    forall k | 0 <= k < net.inDim ensures ColumnTerm(x, net.w1, net.hidDim, i)(k) == f(k) {
      FlatIndex(k, i, net.inDim, net.hidDim);
    }
    SumEq(ColumnTerm(x, net.w1, net.hidDim, i), f, net.inDim);
  }

  /** f(i) is what hidden unit i adds to output j: its input times its weight if that input is positive,
      and nothing otherwise. */
  ghost predicate ActiveFeeds(f: int -> real, net: Net, x: seq<real>, j: int) {
    forall i :: 0 <= i < net.hidDim && 0 <= i * net.outDim + j < |net.w2| ==>
                  f(i) == if Pre(net, x, i) > 0.0 then Pre(net, x, i) * net.w2[i * net.outDim + j] else 0.0
  }

  /** A prediction is the bias plus the contributions of the active units. */
  lemma OutputIsActiveSum(net: Net, x: seq<real>, j: int, f: int -> real)
    requires net.WellFormed() && 0 <= j < net.outDim && ActiveFeeds(f, net, x, j)
    ensures Output(net, x)[j] == net.b2[j] + Sum(f, net.hidDim)
  {
    var g := ColumnTerm(Hidden(net, x), net.w2, net.outDim, j);
    forall i | 0 <= i < net.hidDim ensures g(i) == f(i) {
      FlatIndex(i, j, net.hidDim, net.outDim);
    }
    SumEq(g, f, net.hidDim);
  }

  /** When no unit is active, the prediction is the bias, whatever the input. */
  lemma InactiveOutput(net: Net, x: seq<real>)
    requires net.WellFormed() && forall i :: 0 <= i < net.hidDim ==> Pre(net, x, i) <= 0.0
    ensures Output(net, x) == net.b2
  {
    var zero := (i: int) => 0.0;
    forall j | 0 <= j < net.outDim ensures Output(net, x)[j] == net.b2[j] {
      OutputIsActiveSum(net, x, j, zero);
      SumScale(0.0, zero, zero, net.hidDim);
    }
  }

  /** f(j) is the squared error of output j. */
  ghost predicate SquaresErrors(f: int -> real, o: seq<real>, t: seq<real>) {
    forall j :: 0 <= j < |o| && j < |t| ==> f(j) == (o[j] - t[j]) * (o[j] - t[j])
  }

  /** The loss times the number of outputs is the sum of the squared errors. */
  lemma LossIsMeanSquare(net: Net, x: seq<real>, t: seq<real>, f: int -> real)
    requires net.outDim > 0 && |t| >= net.outDim && SquaresErrors(f, Output(net, x), t)
    ensures net.outDim as real * Loss(net, x, t) == Sum(f, net.outDim)
  {
    SumEq(SquaredError(Output(net, x), t), f, net.outDim);
  }

  ghost predicate StepsBack(v': seq<real>, v: seq<real>, g: seq<real>, lr: real) {
    |v'| == |v| == |g| && forall c :: 0 <= c < |v| ==> v'[c] == v[c] - lr * g[c]
  }

  /** A training step moves every parameter against the gradient, all at once. */
  lemma StepIsAgainstGradient(net: Net, x: seq<real>, t: seq<real>, lr: real)
    requires net.WellFormed()
    ensures var net', g := TrainStep(net, x, t, lr), Gradient(net, x, t);
            && net'.inDim == net.inDim && net'.hidDim == net.hidDim && net'.outDim == net.outDim
            && StepsBack(net'.w1, net.w1, g.w1, lr) && StepsBack(net'.b1, net.b1, g.b1, lr)
            && StepsBack(net'.w2, net.w2, g.w2, lr) && StepsBack(net'.b2, net.b2, g.b2, lr)
  {
    var g := Gradient(net, x, t);
    AwayStepsBack(net.w1, g.w1, lr);
    AwayStepsBack(net.b1, g.b1, lr);
    AwayStepsBack(net.w2, g.w2, lr);
    AwayStepsBack(net.b2, g.b2, lr);
  }

  lemma AwayStepsBack(v: seq<real>, g: seq<real>, lr: real)
    requires |v| == |g|
    ensures StepsBack(Away(v, g, lr), v, g, lr)
  {
  }
}
