/** A feed-forward network: a chain of layers where layer k maps
    sizes[k] inputs to sizes[k + 1] outputs. */
module Networks {
  import opened Matrices
  import opened Layers

  /** m is a column vector of n elements. */
  predicate IsColumn(m: Matrix, n: nat) {
    m.rows == n && m.cols == 1
  }

  /** ss is a chain of well-shaped layer states whose widths are `sizes`:
      layer k maps sizes[k] to sizes[k + 1]. */
  predicate Fits(ss: seq<LayerState>, sizes: seq<nat>) {
    && |sizes| == |ss| + 1
    && forall k {:trigger ss[k]} :: 0 <= k < |ss| ==>
         ss[k].WellShaped() && ss[k].InSize() == sizes[k] && ss[k].OutSize() == sizes[k + 1]
  }

  /** t is well shaped with the same widths as s. */
  predicate SameShape(s: LayerState, t: LayerState) {
    t.WellShaped() && t.InSize() == s.InSize() && t.OutSize() == s.OutSize()
  }

  /** A chain changed layer by layer without changing any width still fits. */
  lemma FitsKept(ss: seq<LayerState>, r: seq<LayerState>, sizes: seq<nat>)
    requires Fits(ss, sizes) && |r| == |ss|
    requires forall i :: 0 <= i < |ss| ==> SameShape(ss[i], r[i])
    ensures Fits(r, sizes)
  {
  }

  /** Every input is an input-width column. */
  predicate InputsFit(xs: seq<Matrix>, sizes: seq<nat>)
    requires |sizes| > 0
  {
    forall x :: x in xs ==> IsColumn(x, sizes[0])
  }

  /** Every target has at least one column and at least as many rows as
      the network has outputs: the loss gradient reads t(j, 0) for each
      output j. */
  predicate TargetsFit(ts: seq<Matrix>, sizes: seq<nat>)
    requires |sizes| > 0
  {
    forall t :: t in ts ==> t.rows >= sizes[|sizes| - 1] && t.cols >= 1
  }

  /** The vector entering layer k when x is fed to the network; Signal
      at |ss| is the network's output. */
  function Signal(ss: seq<LayerState>, sizes: seq<nat>, x: Matrix, k: nat): (v: Matrix)
    requires Fits(ss, sizes) && IsColumn(x, sizes[0]) && k <= |ss|
    ensures IsColumn(v, sizes[k])
    decreases k
  {
    if k == 0 then x else Forwarded(ss[k - 1], Signal(ss, sizes, x, k - 1)).outputs
  }

  /** The layer states after forward(x) has gone through layers 0 .. k-1:
      each of those caches the signal that reached it and its own output,
      the others are untouched. */
  function ForwardedAll(ss: seq<LayerState>, sizes: seq<nat>, x: Matrix, k: nat): (r: seq<LayerState>)
    requires Fits(ss, sizes) && IsColumn(x, sizes[0]) && k <= |ss|
    ensures Fits(r, sizes)
    ensures forall i :: 0 <= i < k ==> r[i] == Forwarded(ss[i], Signal(ss, sizes, x, i))
    ensures forall i :: k <= i < |ss| ==> r[i] == ss[i]
  {
    var r := seq(|ss|, i requires 0 <= i < |ss| => if i < k then Forwarded(ss[i], Signal(ss, sizes, x, i)) else ss[i]);
    assert forall i :: 0 <= i < |ss| ==> SameShape(ss[i], r[i]);
    FitsKept(ss, r, sizes);
    r
  }

  /** The loss gradient: cost_deriv(out_j, target_j) for every output j. */
  function LossGradient(costDeriv: (real, real) -> real, out: Matrix, t: Matrix): (g: Matrix)
    requires out.cols == 1 && t.rows >= out.rows && t.cols >= 1
    ensures IsColumn(g, out.rows)
    ensures forall j: nat {:trigger At(g, j, 0)} :: j < out.rows ==> At(g, j, 0) == costDeriv(At(out, j, 0), At(t, j, 0))
  {
    Build(out.rows, 1, (j: nat, c: nat) requires j < out.rows && c < 1 => costDeriv(At(out, j, 0), At(t, j, 0)))
  }

  /** The gradient arriving at the output of layer k - 1 when g arrives at
      the network's output: each layer hands W^T delta to its predecessor. */
  function Upstream(ss: seq<LayerState>, sizes: seq<nat>, g: Matrix, k: nat): (v: Matrix)
    requires Fits(ss, sizes) && IsColumn(g, sizes[|ss|]) && k <= |ss|
    ensures IsColumn(v, sizes[k])
    decreases |ss| - k
  {
    if k == |ss| then g else InputGradient(ss[k], Upstream(ss, sizes, g, k + 1))
  }

  /** The layer states after the backward pass has gone through layers
      |ss|-1 down to k: each of those has its deltas set from the gradient
      its successor handed down, the others are untouched. */
  function BackpropagatedAll(ss: seq<LayerState>, sizes: seq<nat>, g: Matrix, k: nat): (r: seq<LayerState>)
    requires Fits(ss, sizes) && IsColumn(g, sizes[|ss|]) && k <= |ss|
    ensures Fits(r, sizes)
    ensures forall i :: k <= i < |ss| ==> r[i] == Backpropagated(ss[i], Upstream(ss, sizes, g, i + 1))
    ensures forall i :: 0 <= i < k ==> r[i] == ss[i]
  {
    var r := seq(|ss|, i requires 0 <= i < |ss| => if k <= i then Backpropagated(ss[i], Upstream(ss, sizes, g, i + 1)) else ss[i]);
    forall i | k <= i < |ss| ensures r[i] == Backpropagated(ss[i], Upstream(ss, sizes, g, i + 1)) {
      var u := Upstream(ss, sizes, g, i + 1);
      assert r[i] == Backpropagated(ss[i], u);
    }
    assert forall i :: 0 <= i < |ss| ==> SameShape(ss[i], r[i]);
    FitsKept(ss, r, sizes);
    r
  }

  /** The layer states after update(lr) has been applied to layers 0 .. k-1. */
  function UpdatedAll(ss: seq<LayerState>, sizes: seq<nat>, lr: real, k: nat): (r: seq<LayerState>)
    requires Fits(ss, sizes) && k <= |ss|
    ensures Fits(r, sizes)
    ensures forall i :: 0 <= i < k ==> r[i] == Updated(ss[i], lr)
    ensures forall i :: k <= i < |ss| ==> r[i] == ss[i]
  {
    var r := seq(|ss|, i requires 0 <= i < |ss| => if i < k then Updated(ss[i], lr) else ss[i]);
    assert forall i :: 0 <= i < |ss| ==> SameShape(ss[i], r[i]);
    FitsKept(ss, r, sizes);
    r
  }

  /** One training example: forward x, take the loss gradient against t,
      backward through every layer from the last, then update every layer. */
  function StepOn(ss: seq<LayerState>, sizes: seq<nat>, lr: real, costDeriv: (real, real) -> real,
                  x: Matrix, t: Matrix): (r: seq<LayerState>)
    requires Fits(ss, sizes) && IsColumn(x, sizes[0]) && t.rows >= sizes[|ss|] && t.cols >= 1
    ensures Fits(r, sizes)
  {
    var f := ForwardedAll(ss, sizes, x, |ss|);
    var g := LossGradient(costDeriv, Signal(ss, sizes, x, |ss|), t);
    UpdatedAll(BackpropagatedAll(f, sizes, g, 0), sizes, lr, |ss|)
  }

  /** The training step as a total function on network states: StepOn
      where it is defined, no change elsewhere. */
  function Stepper(sizes: seq<nat>, lr: real, costDeriv: (real, real) -> real):
    (seq<LayerState>, Matrix, Matrix) -> seq<LayerState>
  {
    (ss: seq<LayerState>, x: Matrix, t: Matrix) =>
      if Fits(ss, sizes) && IsColumn(x, sizes[0]) && t.rows >= sizes[|ss|] && t.cols >= 1
      then StepOn(ss, sizes, lr, costDeriv, x, t) else ss
  }

  /** On a fitting chain and example, the step is StepOn. */
  lemma StepperSteps(ss: seq<LayerState>, sizes: seq<nat>, lr: real, costDeriv: (real, real) -> real,
                     x: Matrix, t: Matrix)
    requires Fits(ss, sizes) && IsColumn(x, sizes[0]) && t.rows >= sizes[|ss|] && t.cols >= 1
    ensures Stepper(sizes, lr, costDeriv)(ss, x, t) == StepOn(ss, sizes, lr, costDeriv, x, t)
  {
  }

  /** One pass over the examples, in order. */
  function TrainedOn(ss: seq<LayerState>, sizes: seq<nat>, lr: real, costDeriv: (real, real) -> real,
                     xs: seq<Matrix>, ts: seq<Matrix>): seq<LayerState>
    requires |xs| == |ts|
  {
    Fold(Stepper(sizes, lr, costDeriv), ss, xs, ts, |xs|)
  }

  /** `epochs` passes over the examples. */
  function TrainedFor(ss: seq<LayerState>, sizes: seq<nat>, lr: real, costDeriv: (real, real) -> real,
                      xs: seq<Matrix>, ts: seq<Matrix>, epochs: nat): seq<LayerState>
    requires |xs| == |ts|
  {
    Epochs(Stepper(sizes, lr, costDeriv), ss, xs, ts, epochs)
  }

  // ---------------------------------------------------------------------
  // The order of training: the two nested loops of train, for any step

  /** step applied to the first n pairs (xs[i], ys[i]), in increasing i. */
  function Fold<S, X, Y>(step: (S, X, Y) -> S, s: S, xs: seq<X>, ys: seq<Y>, n: nat): S
    requires |xs| == |ys| && n <= |xs|
  {
    if n == 0 then s else step(Fold(step, s, xs, ys, n - 1), xs[n - 1], ys[n - 1])
  }

  /** `epochs` folds over all the pairs, one after another. */
  function Epochs<S, X, Y>(step: (S, X, Y) -> S, s: S, xs: seq<X>, ys: seq<Y>, epochs: nat): S
    requires |xs| == |ys|
  {
    if epochs == 0 then s else Fold(step, Epochs(step, s, xs, ys, epochs - 1), xs, ys, |xs|)
  }

  /** e copies of s, one after another. */
  function Repeat<T>(s: seq<T>, e: nat): (r: seq<T>)
    ensures |r| == e * |s|
  {
    if e == 0 then [] else Repeat(s, e - 1) + s
  }

  /** The first n pairs of xs1 + xs2, for n up to |xs1|, are those of xs1. */
  lemma {:induction false} FoldPrefix<S, X, Y>(step: (S, X, Y) -> S, s: S,
                                               xs1: seq<X>, ys1: seq<Y>, xs2: seq<X>, ys2: seq<Y>, n: nat)
    requires |xs1| == |ys1| && |xs2| == |ys2| && n <= |xs1|
    ensures Fold(step, s, xs1 + xs2, ys1 + ys2, n) == Fold(step, s, xs1, ys1, n)
  {
    if n > 0 {
      FoldPrefix(step, s, xs1, ys1, xs2, ys2, n - 1);
    }
  }

  /** Folding over xs1 and then over the first n pairs of xs2 is folding
      over the first |xs1| + n pairs of the concatenation. */
  lemma {:induction false} FoldAppend<S, X, Y>(step: (S, X, Y) -> S, s: S,
                                               xs1: seq<X>, ys1: seq<Y>, xs2: seq<X>, ys2: seq<Y>, n: nat)
    requires |xs1| == |ys1| && |xs2| == |ys2| && n <= |xs2|
    ensures Fold(step, s, xs1 + xs2, ys1 + ys2, |xs1| + n) == Fold(step, Fold(step, s, xs1, ys1, |xs1|), xs2, ys2, n)
  {
    if n == 0 {
      FoldPrefix(step, s, xs1, ys1, xs2, ys2, |xs1|);
    } else {
      FoldAppend(step, s, xs1, ys1, xs2, ys2, n - 1);
    }
  }

  /** `epochs` passes are one pass over the pairs repeated `epochs` times:
      epochs * |xs| steps, in order. */
  lemma {:induction false} EpochsAreRepeat<S, X, Y>(step: (S, X, Y) -> S, s: S, xs: seq<X>, ys: seq<Y>, epochs: nat)
    requires |xs| == |ys|
    ensures |Repeat(xs, epochs)| == |Repeat(ys, epochs)| == epochs * |xs|
    ensures Epochs(step, s, xs, ys, epochs) == Fold(step, s, Repeat(xs, epochs), Repeat(ys, epochs), |Repeat(xs, epochs)|)
  {
    if epochs > 0 {
      var rx, ry := Repeat(xs, epochs - 1), Repeat(ys, epochs - 1);
      EpochsAreRepeat(step, s, xs, ys, epochs - 1);
      FoldAppend(step, s, rx, ry, xs, ys, |xs|);
      assert Repeat(xs, epochs) == rx + xs && Repeat(ys, epochs) == ry + ys;
    }
  }

  /** With no epochs or no pairs, nothing happens. */
  lemma {:induction false} EpochsOfNothing<S, X, Y>(step: (S, X, Y) -> S, s: S, xs: seq<X>, ys: seq<Y>, epochs: nat)
    requires |xs| == |ys|
    requires epochs == 0 || |xs| == 0
    ensures Epochs(step, s, xs, ys, epochs) == s
  {
    if epochs > 0 {
      EpochsOfNothing(step, s, xs, ys, epochs - 1);
    }
  }

  /** An independent statement of what the network computes: apply the
      first layer's phi(W x + b), then feed the rest of the chain. */
  function FeedForward(ss: seq<LayerState>, sizes: seq<nat>, x: Matrix): (v: Matrix)
    requires Fits(ss, sizes) && IsColumn(x, sizes[0])
    ensures IsColumn(v, sizes[|ss|])
    decreases |ss|
  {
    if |ss| == 0 then x
    else
      var s := ss[0];
      FeedForward(ss[1..], sizes[1..], Activate(s.act.phi, SumOf(ProductOf(s.weights, x), s.biases)))
  }

  /** After forward(x) every layer caches the output of the layer before
      it as its input, the first caches x, and the last caches the
      network's output. */
  lemma {:induction false} ForwardChain(ss: seq<LayerState>, sizes: seq<nat>, x: Matrix)
    requires Fits(ss, sizes) && IsColumn(x, sizes[0]) && |ss| > 0
    ensures ForwardedAll(ss, sizes, x, |ss|)[0].inputs == x
    ensures forall i :: 0 < i < |ss| ==>
      ForwardedAll(ss, sizes, x, |ss|)[i].inputs == ForwardedAll(ss, sizes, x, |ss|)[i - 1].outputs
    ensures ForwardedAll(ss, sizes, x, |ss|)[|ss| - 1].outputs == Signal(ss, sizes, x, |ss|)
  {
    var r := ForwardedAll(ss, sizes, x, |ss|);
    forall i | 0 < i < |ss|
      ensures r[i].inputs == r[i - 1].outputs
    {
      assert r[i].inputs == Signal(ss, sizes, x, i);
    }
  }

  /** forward through layer i changes entry i of the states and nothing
      else. */
  lemma {:induction false} ForwardedAllNext(ss: seq<LayerState>, sizes: seq<nat>, x: Matrix, i: nat)
    requires Fits(ss, sizes) && IsColumn(x, sizes[0]) && i < |ss|
    ensures ForwardedAll(ss, sizes, x, i)[i] == ss[i]
    ensures ForwardedAll(ss, sizes, x, i + 1) ==
      ForwardedAll(ss, sizes, x, i)[i := Forwarded(ss[i], Signal(ss, sizes, x, i))]
  {
    var a := ForwardedAll(ss, sizes, x, i);
    var b := ForwardedAll(ss, sizes, x, i + 1);
    assert forall k :: 0 <= k < |ss| ==> b[k] == a[i := Forwarded(ss[i], Signal(ss, sizes, x, i))][k];
  }

  /** Before the backward pass no layer has changed. */
  lemma {:induction false} BackpropagatedNone(ss: seq<LayerState>, sizes: seq<nat>, g: Matrix)
    requires Fits(ss, sizes) && IsColumn(g, sizes[|ss|])
    ensures BackpropagatedAll(ss, sizes, g, |ss|) == ss
  {
    var r := BackpropagatedAll(ss, sizes, g, |ss|);
    assert forall i :: 0 <= i < |ss| ==> r[i] == ss[i];
  }

  /** backward through layer l, with the gradient handed down from layer
      l + 1, changes entry l of the states and nothing else. */
  lemma {:induction false} BackpropagatedAllNext(ss: seq<LayerState>, sizes: seq<nat>, g: Matrix, l: nat)
    requires Fits(ss, sizes) && IsColumn(g, sizes[|ss|]) && l < |ss|
    ensures BackpropagatedAll(ss, sizes, g, l + 1)[l] == ss[l]
    ensures BackpropagatedAll(ss, sizes, g, l) ==
      BackpropagatedAll(ss, sizes, g, l + 1)[l := Backpropagated(ss[l], Upstream(ss, sizes, g, l + 1))]
  {
    var a := BackpropagatedAll(ss, sizes, g, l + 1);
    var b := BackpropagatedAll(ss, sizes, g, l);
    assert forall k :: 0 <= k < |ss| ==> b[k] == a[l := Backpropagated(ss[l], Upstream(ss, sizes, g, l + 1))][k];
  }

  /** Before the update loop no layer has changed. */
  lemma {:induction false} UpdatedNone(ss: seq<LayerState>, sizes: seq<nat>, lr: real)
    requires Fits(ss, sizes)
    ensures UpdatedAll(ss, sizes, lr, 0) == ss
  {
    var r := UpdatedAll(ss, sizes, lr, 0);
    assert forall i :: 0 <= i < |ss| ==> r[i] == ss[i];
  }

  /** update on layer i changes entry i of the states and nothing else. */
  lemma {:induction false} UpdatedAllNext(ss: seq<LayerState>, sizes: seq<nat>, lr: real, i: nat)
    requires Fits(ss, sizes) && i < |ss|
    ensures UpdatedAll(ss, sizes, lr, i)[i] == ss[i]
    ensures UpdatedAll(ss, sizes, lr, i + 1) == UpdatedAll(ss, sizes, lr, i)[i := Updated(ss[i], lr)]
  {
  }

  /** The number of training steps in `epochs` passes over n examples,
      counted one pass at a time. */
  function StepCount(epochs: nat, n: nat): nat {
    if epochs == 0 then 0 else StepCount(epochs - 1, n) + n
  }

  /** One more epoch is n more steps. */
  lemma {:induction false} StepCountNext(epochs: nat, n: nat)
    ensures StepCount(epochs + 1, n) == StepCount(epochs, n) + n
  {
  }

  /** `epochs` passes over n examples are epochs * n steps. */
  lemma {:induction false} StepCountIsProduct(epochs: nat, n: nat)
    ensures StepCount(epochs, n) == epochs * n
  {
    if epochs > 0 {
      StepCountIsProduct(epochs - 1, n);
    }
  }

  /** Every count raised by c. */
  function AddEach(u: seq<nat>, c: nat): (r: seq<nat>)
    ensures |r| == |u| && forall k :: 0 <= k < |u| ==> r[k] == u[k] + c
  {
    seq(|u|, k requires 0 <= k < |u| => u[k] + c)
  }

  /** Raising every count by zero changes nothing. */
  lemma {:induction false} AddEachNone(u: seq<nat>)
    ensures AddEach(u, 0) == u
  {
  }

  /** Raising every count by a and then by b raises it by a + b. */
  lemma {:induction false} AddEachTwice(u: seq<nat>, a: nat, b: nat)
    ensures AddEach(AddEach(u, a), b) == AddEach(u, a + b)
  {
  }

  /** The first i counts raised by one. */
  function RaisedBelow(u: seq<nat>, i: nat): (r: seq<nat>)
    ensures |r| == |u|
    ensures forall k :: 0 <= k < |u| ==> r[k] == if k < i then u[k] + 1 else u[k]
  {
    seq(|u|, k requires 0 <= k < |u| => if k < i then u[k] + 1 else u[k])
  }

  /** Before the update loop, no count is raised. */
  lemma {:induction false} RaisedBelowNone(u: seq<nat>)
    ensures RaisedBelow(u, 0) == u
  {
  }

  /** Updating layer i raises its count and no other. */
  lemma {:induction false} RaisedBelowNext(u: seq<nat>, i: nat)
    requires i < |u|
    ensures RaisedBelow(u, i + 1) == RaisedBelow(u, i)[i := RaisedBelow(u, i)[i] + 1]
  {
  }

  /** After the update loop, every count is raised by one. */
  lemma {:induction false} RaisedBelowAll(u: seq<nat>)
    ensures RaisedBelow(u, |u|) == AddEach(u, 1)
  {
  }

  /** Feeding the signal at layer k to the rest of the chain gives the
      whole network's output. */
  lemma {:induction false} FeedForwardFrom(ss: seq<LayerState>, sizes: seq<nat>, x: Matrix, k: nat)
    requires Fits(ss, sizes) && IsColumn(x, sizes[0]) && k <= |ss|
    ensures Fits(ss[k..], sizes[k..])
    ensures FeedForward(ss[k..], sizes[k..], Signal(ss, sizes, x, k)) == FeedForward(ss, sizes, x)
    decreases k
  {
    if k > 0 {
      FeedForwardFrom(ss, sizes, x, k - 1);
      assert ss[k - 1..][1..] == ss[k..];
      assert sizes[k - 1..][1..] == sizes[k..];
    }
  }

  /** forward is the composition of the layers in index order. */
  lemma {:induction false} ForwardIsFeedForward(ss: seq<LayerState>, sizes: seq<nat>, x: Matrix)
    requires Fits(ss, sizes) && IsColumn(x, sizes[0])
    ensures Signal(ss, sizes, x, |ss|) == FeedForward(ss, sizes, x)
  {
    FeedForwardFrom(ss, sizes, x, |ss|);
  }

  /** train with no epochs or no examples leaves every layer and every
      update count as it was. */
  lemma {:induction false} TrainedForNothing(ss: seq<LayerState>, sizes: seq<nat>, lr: real,
                                             costDeriv: (real, real) -> real,
                                             xs: seq<Matrix>, ts: seq<Matrix>, epochs: nat, u: seq<nat>)
    requires |xs| == |ts| && (epochs == 0 || |xs| == 0)
    ensures TrainedFor(ss, sizes, lr, costDeriv, xs, ts, epochs) == ss
    ensures AddEach(u, StepCount(epochs, |xs|)) == u
  {
    EpochsOfNothing(Stepper(sizes, lr, costDeriv), ss, xs, ts, epochs);
    StepCountIsProduct(epochs, |xs|);
    AddEachNone(u);
  }

  /** train is epochs * |xs| training steps, one per example, taking the
      examples in order and starting over at every epoch; every layer
      receives that many updates. */
  lemma {:induction false} TrainedForIsSteps(ss: seq<LayerState>, sizes: seq<nat>, lr: real,
                                             costDeriv: (real, real) -> real,
                                             xs: seq<Matrix>, ts: seq<Matrix>, epochs: nat)
    requires |xs| == |ts|
    ensures |Repeat(xs, epochs)| == |Repeat(ts, epochs)| == StepCount(epochs, |xs|) == epochs * |xs|
    ensures TrainedFor(ss, sizes, lr, costDeriv, xs, ts, epochs) ==
      Fold(Stepper(sizes, lr, costDeriv), ss, Repeat(xs, epochs), Repeat(ts, epochs), epochs * |xs|)
  {
    EpochsAreRepeat(Stepper(sizes, lr, costDeriv), ss, xs, ts, epochs);
    StepCountIsProduct(epochs, |xs|);
  }

  // ---------------------------------------------------------------------
  // The network object

  /** The learning rate a network gets when none is given. */
  const DefaultLearningRate: real := 0.01

  /** The loss-gradient loop of train: a fresh out.rows x 1 column filled
      with cost_deriv(out(j, 0), t(j, 0)) top to bottom. */
  method ComputeLossGradient(costDeriv: (real, real) -> real, out: Matrix, t: Matrix) returns (g: Matrix)
    requires out.cols == 1 && t.rows >= out.rows && t.cols >= 1
    ensures g == LossGradient(costDeriv, out, t)
  {
    ghost var want := LossGradient(costDeriv, out, t);
    g := Zeros(out.rows, 1);
    for j := 0 to out.rows
      invariant g.rows == out.rows && g.cols == 1
      invariant forall j': nat, c: nat :: j' < out.rows && c < 1 ==>
        At(g, j', c) == if j' < j then At(want, j', c) else 0.0
    {
      g := Store(g, j, 0, costDeriv(At(out, j, 0), At(t, j, 0)));
    }
    Extensionality(g, want);
  }

  /** l is a layer as its constructor leaves it: sized inSize -> outSize
      with the given activation pair, weights read from draws row by row,
      biases, outputs, inputs and deltas zero, never updated. */
  ghost predicate Initial(l: Layer, inSize: nat, outSize: nat, activation: real -> real,
                          activationDeriv: real -> real, draws: seq<real>)
    reads l
  {
    && l.Valid() && l.inSize == inSize && l.outSize == outSize
    && l.activation == activation && l.activationDeriv == activationDeriv
    && |draws| >= outSize * inSize && l.weights.data == draws[..outSize * inSize]
    && l.biases == Zeros(outSize, 1) && l.deltas == Zeros(outSize, 1)
    && l.outputs == Zeros(outSize, 1) && l.inputs == Zeros(inSize, 1)
    && l.updates == 0
  }

  /** The layer loop of the network constructor: one fresh layer per
      consecutive pair of sizes, in order. */
  method BuildLayers(sizes: seq<nat>, activations: seq<real -> real>, activationDerivs: seq<real -> real>,
                     draws: seq<seq<real>>) returns (built: seq<Layer>)
    requires |sizes| >= 2
    requires |activations| >= |sizes| - 1 && |activationDerivs| >= |sizes| - 1 && |draws| >= |sizes| - 1
    requires forall i :: 0 <= i < |sizes| - 1 ==> |draws[i]| >= sizes[i + 1] * sizes[i]
    requires forall i, k :: 0 <= i < |draws| && 0 <= k < |draws[i]| ==> -1.0 <= draws[i][k] <= 1.0
    ensures |built| == |sizes| - 1
    ensures forall k :: 0 <= k < |built| ==> fresh(built[k])
    ensures forall j, k :: 0 <= j < k < |built| ==> built[j] != built[k]
    ensures forall k :: 0 <= k < |built| ==>
      Initial(built[k], sizes[k], sizes[k + 1], activations[k], activationDerivs[k], draws[k])
  {
    built := [];
    for i := 0 to |sizes| - 1
      invariant |built| == i
      invariant forall k :: 0 <= k < i ==> fresh(built[k])
      invariant forall j, k :: 0 <= j < k < i ==> built[j] != built[k]
      invariant forall k :: 0 <= k < i ==>
        Initial(built[k], sizes[k], sizes[k + 1], activations[k], activationDerivs[k], draws[k])
    {
      var layer := new Layer(sizes[i], sizes[i + 1], activations[i], activationDerivs[i], draws[i]);
      built := built + [layer];
    }
  }

  /** A network of |sizes| - 1 layers; layer k maps sizes[k] inputs to
      sizes[k + 1] outputs. The layers are distinct objects owned by the
      network. */
  class Network {
    const layers: seq<Layer>
    const learningRate: real
    const cost: (real, real) -> real
    const costDeriv: (real, real) -> real
    ghost const sizes: seq<nat>

    /** The network's invariant. It is stated through WellFormed, one
        definition level down, so that proofs unfold the per-layer
        quantifiers only where they need them. */
    ghost predicate Valid()
      reads this, layers
    {
      WellFormed()
    }

    /** Sizes chain up, each layer is valid with the sizes it is given,
        and no layer appears twice. */
    ghost predicate WellFormed()
      reads this, layers
    {
      && |sizes| >= 2
      && |layers| == |sizes| - 1
      && (forall k {:trigger layers[k]} :: 0 <= k < |layers| ==>
            layers[k].Valid() && layers[k].inSize == sizes[k] && layers[k].outSize == sizes[k + 1])
      && (forall j, k :: 0 <= j < k < |layers| ==> layers[j] != layers[k])
    }

    /** The states of all layers, in order. */
    ghost function States(): (ss: seq<LayerState>)
      reads this, layers
      ensures |ss| == |layers|
      ensures forall k {:trigger ss[k]} :: 0 <= k < |layers| ==> ss[k] == layers[k].State()
      ensures Valid() ==> Fits(ss, sizes)
    {
      seq(|layers|, k reads layers requires 0 <= k < |layers| => layers[k].State())
    }

    /** How many updates each layer has received, in order. */
    ghost function Updates(): (u: seq<nat>)
      reads this, layers
      ensures |u| == |layers|
      ensures forall k {:trigger u[k]} :: 0 <= k < |layers| ==> u[k] == layers[k].updates
    {
      seq(|layers|, k reads layers requires 0 <= k < |layers| => layers[k].updates)
    }

    /** Builds layer i for sizes[i] -> sizes[i + 1] with activations[i],
        its weights taken from draws[i]. */
    constructor (sizes: seq<nat>, activations: seq<real -> real>, activationDerivs: seq<real -> real>,
                 cost: (real, real) -> real, costDeriv: (real, real) -> real, learningRate: real,
                 draws: seq<seq<real>>)
      requires |sizes| >= 2
      requires |activations| >= |sizes| - 1 && |activationDerivs| >= |sizes| - 1 && |draws| >= |sizes| - 1
      requires forall i :: 0 <= i < |sizes| - 1 ==> |draws[i]| >= sizes[i + 1] * sizes[i]
      requires forall i, k :: 0 <= i < |draws| && 0 <= k < |draws[i]| ==> -1.0 <= draws[i][k] <= 1.0
      ensures Valid() && this.sizes == sizes
      ensures this.learningRate == learningRate && this.cost == cost && this.costDeriv == costDeriv
      ensures forall k :: 0 <= k < |layers| ==> fresh(layers[k])
      ensures forall k :: 0 <= k < |layers| ==>
        Initial(layers[k], sizes[k], sizes[k + 1], activations[k], activationDerivs[k], draws[k])
    {
      var built := BuildLayers(sizes, activations, activationDerivs, draws);
      layers := built;
      this.learningRate := learningRate;
      this.cost := cost;
      this.costDeriv := costDeriv;
      this.sizes := sizes;
      new;
      forall k | 0 <= k < |layers|
        ensures layers[k].Valid() && layers[k].inSize == sizes[k] && layers[k].outSize == sizes[k + 1]
      {
        assert Initial(layers[k], sizes[k], sizes[k + 1], activations[k], activationDerivs[k], draws[k]);
      }
    }

    /** When layer i alone has changed and is still valid, the network is
        still valid and only entry i of its states differs. */
    twostate lemma {:induction false} OnlyLayerChanged(i: nat)
      requires old(Valid()) && i < |layers|
      requires forall k :: 0 <= k < |layers| && k != i ==> unchanged(layers[k])
      requires layers[i].Valid()
      ensures Valid()
      ensures States() == old(States())[i := layers[i].State()]
      ensures Updates() == old(Updates())[i := layers[i].updates]
    {
    }

    /** The first iteration of forward's layer loop, the only one that
        can reject its argument. */
    method ForwardFirst(input: Matrix) returns (r: Result<Matrix>)
      requires Valid()
      modifies layers[0]
      ensures Valid()
      ensures Updates() == old(Updates())
      ensures !IsColumn(input, sizes[0]) ==> r == Err(InvalidArgument) && States() == old(States())
      ensures IsColumn(input, sizes[0]) ==>
        && States() == ForwardedAll(old(States()), sizes, input, 1)
        && r == Ok(Signal(old(States()), sizes, input, 1))
    {
      ghost var ss := States();
      if IsColumn(input, sizes[0]) {
        ForwardedAllNext(ss, sizes, input, 0);
      }
      r := layers[0].Forward(input);
      OnlyLayerChanged(0);
    }

    /** One iteration of forward's layer loop: layer i takes the signal
        that reached it and hands on its output. */
    method ForwardLayer(i: nat, x: Matrix, ghost ss: seq<LayerState>, ghost input: Matrix) returns (y: Matrix)
      requires Valid() && i < |layers| && Fits(ss, sizes) && IsColumn(input, sizes[0])
      requires x == Signal(ss, sizes, input, i) && States() == ForwardedAll(ss, sizes, input, i)
      modifies layers[i]
      ensures Valid()
      ensures y == Signal(ss, sizes, input, i + 1) && States() == ForwardedAll(ss, sizes, input, i + 1)
      ensures Updates() == old(Updates())
    {
      ForwardedAllNext(ss, sizes, input, i);
      var o := layers[i].Forward(x);
      OnlyLayerChanged(i);
      y := o.value;
    }

    /** One iteration of train's backward loop: layer l takes the gradient
        handed down by layer l + 1 and returns the one for layer l - 1. */
    method BackwardLayer(l: nat, grad: Matrix, ghost ss: seq<LayerState>, ghost g: Matrix) returns (next: Matrix)
      requires Valid() && l < |layers| && Fits(ss, sizes) && IsColumn(g, sizes[|ss|])
      requires grad == Upstream(ss, sizes, g, l + 1) && States() == BackpropagatedAll(ss, sizes, g, l + 1)
      modifies layers[l]
      ensures Valid()
      ensures next == Upstream(ss, sizes, g, l) && States() == BackpropagatedAll(ss, sizes, g, l)
      ensures Updates() == old(Updates())
    {
      BackpropagatedAllNext(ss, sizes, g, l);
      var r := layers[l].Backward(grad);
      OnlyLayerChanged(l);
      next := r.value;
    }

    /** The backward loop of train: from the last layer down to layer 0,
        each layer receiving the gradient its successor returned. */
    method BackwardPass(g: Matrix)
      requires Valid() && IsColumn(g, sizes[|layers|])
      modifies layers
      ensures Valid()
      ensures States() == BackpropagatedAll(old(States()), sizes, g, 0)
      ensures Updates() == old(Updates())
    {
      ghost var ss := States();
      BackpropagatedNone(ss, sizes, g);
      var grad := g;
      for l := |layers| downto 0
        invariant Valid()
        invariant grad == Upstream(ss, sizes, g, l)
        invariant States() == BackpropagatedAll(ss, sizes, g, l)
        invariant Updates() == old(Updates())
      {
        grad := BackwardLayer(l, grad, ss, g);
      }
    }

    /** One iteration of train's update loop; u holds the update counts
        from before the loop. */
    method UpdateLayer(i: nat, ghost ss: seq<LayerState>, ghost u: seq<nat>)
      requires Valid() && i < |layers| && Fits(ss, sizes) && |u| == |layers|
      requires States() == UpdatedAll(ss, sizes, learningRate, i) && Updates() == RaisedBelow(u, i)
      modifies layers[i]
      ensures Valid()
      ensures States() == UpdatedAll(ss, sizes, learningRate, i + 1) && Updates() == RaisedBelow(u, i + 1)
    {
      UpdatedAllNext(ss, sizes, learningRate, i);
      RaisedBelowNext(u, i);
      layers[i].Update(learningRate);
      OnlyLayerChanged(i);
    }

    /** The update loop of train: update(learning_rate) on every layer,
        in index order. */
    method UpdatePass()
      requires Valid()
      modifies layers
      ensures Valid()
      ensures States() == UpdatedAll(old(States()), sizes, learningRate, |layers|)
      ensures Updates() == AddEach(old(Updates()), 1)
    {
      ghost var ss := States();
      ghost var u := Updates();
      RaisedBelowNone(u);
      UpdatedNone(ss, sizes, learningRate);
      for i := 0 to |layers|
        invariant Valid()
        invariant States() == UpdatedAll(ss, sizes, learningRate, i)
        invariant Updates() == RaisedBelow(u, i)
      {
        UpdateLayer(i, ss, u);
      }
      RaisedBelowAll(u);
    }

    /** The first half of one example of train: forward, then the loss
        gradient cost_deriv(out_j, target_j) for every output j. */
    method ForwardAndLoss(x: Matrix, t: Matrix) returns (lossGrad: Matrix)
      requires Valid() && IsColumn(x, sizes[0]) && t.rows >= sizes[|layers|] && t.cols >= 1
      modifies layers
      ensures Valid() && Updates() == old(Updates())
      ensures States() == ForwardedAll(old(States()), sizes, x, |layers|)
      ensures lossGrad == LossGradient(costDeriv, Signal(old(States()), sizes, x, |layers|), t)
    {
      var out := Forward(x);
      lossGrad := ComputeLossGradient(costDeriv, out.value, t);
    }

    /** One example of train: forward, the loss gradient against the
        target, the backward loop, then the update loop. */
    method TrainStep(x: Matrix, t: Matrix)
      requires Valid() && IsColumn(x, sizes[0]) && t.rows >= sizes[|layers|] && t.cols >= 1
      modifies layers
      ensures Valid()
      ensures States() == StepOn(old(States()), sizes, learningRate, costDeriv, x, t)
      ensures Updates() == AddEach(old(Updates()), 1)
    {
      ghost var s0 := States();
      var lossGrad := ForwardAndLoss(x, t);
      ghost var s1 := States();
      BackwardPass(lossGrad);
      ghost var s2 := States();
      UpdatePass();
      assert States() == UpdatedAll(s2, sizes, learningRate, |s0|);
    }

    /** Example i of one epoch: with the layers as the first i examples
        left them, TrainStep on (inputs[i], targets[i]). */
    method TrainExample(inputs: seq<Matrix>, targets: seq<Matrix>, i: nat,
                        ghost s0: seq<LayerState>, ghost u0: seq<nat>)
      requires Valid() && |inputs| == |targets| && i < |inputs|
      requires InputsFit(inputs, sizes) && TargetsFit(targets, sizes)
      requires States() == Fold(Stepper(sizes, learningRate, costDeriv), s0, inputs, targets, i)
      requires Updates() == AddEach(u0, i)
      modifies layers
      ensures Valid()
      ensures States() == Fold(Stepper(sizes, learningRate, costDeriv), s0, inputs, targets, i + 1)
      ensures Updates() == AddEach(u0, i + 1)
    {
      assert inputs[i] in inputs && targets[i] in targets;
      StepperSteps(States(), sizes, learningRate, costDeriv, inputs[i], targets[i]);
      TrainStep(inputs[i], targets[i]);
      AddEachTwice(u0, i, 1);
    }

    /** One epoch of train: TrainStep on every (input, target) pair, in
        order. */
    method TrainEpoch(inputs: seq<Matrix>, targets: seq<Matrix>)
      requires Valid() && |inputs| == |targets|
      requires InputsFit(inputs, sizes) && TargetsFit(targets, sizes)
      modifies layers
      ensures Valid()
      ensures States() == TrainedOn(old(States()), sizes, learningRate, costDeriv, inputs, targets)
      ensures Updates() == AddEach(old(Updates()), |inputs|)
    {
      ghost var s0 := States();
      ghost var u0 := Updates();
      AddEachNone(u0);
      for i := 0 to |inputs|
        invariant Valid()
        invariant States() == Fold(Stepper(sizes, learningRate, costDeriv), s0, inputs, targets, i)
        invariant Updates() == AddEach(u0, i)
      {
        TrainExample(inputs, targets, i, s0, u0);
      }
    }

    /** Epoch number `epoch` of train: with the layers as the earlier
        epochs left them, one more pass over the pairs. */
    method TrainNextEpoch(inputs: seq<Matrix>, targets: seq<Matrix>, epoch: nat,
                          ghost s0: seq<LayerState>, ghost u0: seq<nat>)
      requires Valid() && |inputs| == |targets|
      requires InputsFit(inputs, sizes) && TargetsFit(targets, sizes)
      requires States() == TrainedFor(s0, sizes, learningRate, costDeriv, inputs, targets, epoch)
      requires Updates() == AddEach(u0, StepCount(epoch, |inputs|))
      modifies layers
      ensures Valid()
      ensures States() == TrainedFor(s0, sizes, learningRate, costDeriv, inputs, targets, epoch + 1)
      ensures Updates() == AddEach(u0, StepCount(epoch + 1, |inputs|))
    {
      TrainEpoch(inputs, targets);
      AddEachTwice(u0, StepCount(epoch, |inputs|), |inputs|);
      StepCountNext(epoch, |inputs|);
    }

    /** The epoch loop of train: `epochs` passes over the pairs. */
    method TrainEpochs(inputs: seq<Matrix>, targets: seq<Matrix>, epochs: nat)
      requires Valid() && |inputs| == |targets|
      requires InputsFit(inputs, sizes) && TargetsFit(targets, sizes)
      modifies layers
      ensures Valid()
      ensures States() == TrainedFor(old(States()), sizes, learningRate, costDeriv, inputs, targets, epochs)
      ensures Updates() == AddEach(old(Updates()), StepCount(epochs, |inputs|))
    {
      ghost var s0 := States();
      ghost var u0 := Updates();
      AddEachNone(u0);
      for epoch := 0 to epochs
        invariant Valid()
        invariant States() == TrainedFor(s0, sizes, learningRate, costDeriv, inputs, targets, epoch)
        invariant Updates() == AddEach(u0, StepCount(epoch, |inputs|))
      {
        TrainNextEpoch(inputs, targets, epoch, s0, u0);
      }
    }

    /** train(inputs, targets, epochs): a length mismatch is rejected
        before any layer changes; otherwise `epochs` passes over the pairs,
        each layer receiving one update per example. The pairs need to fit
        the network only when some epoch reads them. */
    method Train(inputs: seq<Matrix>, targets: seq<Matrix>, epochs: nat) returns (r: Result<()>)
      requires Valid()
      requires |inputs| == |targets| && epochs > 0 ==> InputsFit(inputs, sizes) && TargetsFit(targets, sizes)
      modifies layers
      ensures Valid()
      ensures |inputs| != |targets| ==>
        r == Err(InvalidArgument) && States() == old(States()) && Updates() == old(Updates())
      ensures |inputs| == |targets| ==>
        && r == Ok(())
        && States() == TrainedFor(old(States()), sizes, learningRate, costDeriv, inputs, targets, epochs)
        && Updates() == AddEach(old(Updates()), StepCount(epochs, |inputs|))
    {
      if |inputs| != |targets| {
        return Err(InvalidArgument);
      }
      if epochs == 0 {
        // the epoch loop does not run, so nothing is read or changed
        TrainedForNothing(States(), sizes, learningRate, costDeriv, inputs, targets, epochs, Updates());
      } else {
        TrainEpochs(inputs, targets, epochs);
      }
      r := Ok(());
    }

    /** Construction as a whole: fewer than two sizes is rejected before
        any layer is built. */
    static method Create(sizes: seq<nat>, activations: seq<real -> real>, activationDerivs: seq<real -> real>,
                         cost: (real, real) -> real, costDeriv: (real, real) -> real, learningRate: real,
                         draws: seq<seq<real>>) returns (r: Result<Network>)
      requires |activations| >= |sizes| - 1 && |activationDerivs| >= |sizes| - 1 && |draws| >= |sizes| - 1
      requires forall i :: 0 <= i < |sizes| - 1 ==> |draws[i]| >= sizes[i + 1] * sizes[i]
      requires forall i, k :: 0 <= i < |draws| && 0 <= k < |draws[i]| ==> -1.0 <= draws[i][k] <= 1.0
      ensures |sizes| < 2 <==> r.Err?
      ensures r.Err? ==> r.error == InvalidArgument
      ensures r.Ok? ==> fresh(r.value) && r.value.Valid() && r.value.sizes == sizes
      ensures r.Ok? ==> forall k :: 0 <= k < |r.value.layers| ==>
        fresh(r.value.layers[k])
        && Initial(r.value.layers[k], sizes[k], sizes[k + 1], activations[k], activationDerivs[k], draws[k])
      ensures r.Ok? ==> r.value.learningRate == learningRate && r.value.costDeriv == costDeriv
    {
      if |sizes| < 2 {
        return Err(InvalidArgument);
      }
      var n := new Network(sizes, activations, activationDerivs, cost, costDeriv, learningRate, draws);
      return Ok(n);
    }

    /** Construction without a learning rate: the rate is 0.01. */
    static method CreateWithDefaultRate(sizes: seq<nat>, activations: seq<real -> real>,
                                        activationDerivs: seq<real -> real>,
                                        cost: (real, real) -> real, costDeriv: (real, real) -> real,
                                        draws: seq<seq<real>>) returns (r: Result<Network>)
      requires |activations| >= |sizes| - 1 && |activationDerivs| >= |sizes| - 1 && |draws| >= |sizes| - 1
      requires forall i :: 0 <= i < |sizes| - 1 ==> |draws[i]| >= sizes[i + 1] * sizes[i]
      requires forall i, k :: 0 <= i < |draws| && 0 <= k < |draws[i]| ==> -1.0 <= draws[i][k] <= 1.0
      ensures |sizes| < 2 <==> r.Err?
      ensures r.Err? ==> r.error == InvalidArgument
      ensures r.Ok? ==> fresh(r.value) && r.value.Valid() && r.value.sizes == sizes
      ensures r.Ok? ==> forall k :: 0 <= k < |r.value.layers| ==>
        fresh(r.value.layers[k])
        && Initial(r.value.layers[k], sizes[k], sizes[k + 1], activations[k], activationDerivs[k], draws[k])
      ensures r.Ok? ==> r.value.learningRate == 0.01 && r.value.costDeriv == costDeriv
    {
      r := Create(sizes, activations, activationDerivs, cost, costDeriv, DefaultLearningRate, draws);
    }

    /** forward(input): the input goes through the layers in index order,
        each layer's output feeding the next. An input that is not a
        sizes[0] x 1 column is rejected by the first layer, before any
        layer changes. */
    method Forward(input: Matrix) returns (r: Result<Matrix>)
      requires Valid()
      modifies layers
      ensures Valid()
      ensures Updates() == old(Updates())
      ensures !IsColumn(input, sizes[0]) ==> r == Err(InvalidArgument) && States() == old(States())
      ensures IsColumn(input, sizes[0]) ==>
        && States() == ForwardedAll(old(States()), sizes, input, |layers|)
        && r == Ok(Signal(old(States()), sizes, input, |layers|))
    {
      ghost var ss := States();
      var first := ForwardFirst(input);
      if first.Err? {
        return first;
      }
      var out := first.value;
      for i := 1 to |layers|
        invariant Valid()
        invariant out == Signal(ss, sizes, input, i)
        invariant States() == ForwardedAll(ss, sizes, input, i)
        invariant Updates() == old(Updates())
      {
        out := ForwardLayer(i, out, ss, input);
      }
      r := Ok(out);
    }
  }
}
