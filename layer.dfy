/** One fully connected layer: weights, biases, and the caches that
    forward and backward leave behind for the next call. */
module Layers {
  import opened Matrices

  /** An activation function together with its derivative. */
  datatype Activation = Activation(phi: real -> real, dphi: real -> real)

  /** The five matrices of a layer together with its activation pair,
      as one value. */
  datatype LayerState = LayerState(
    weights: Matrix,
    biases: Matrix,
    outputs: Matrix,
    inputs: Matrix,
    deltas: Matrix,
    act: Activation)
  {
    function InSize(): nat { weights.cols }
    function OutSize(): nat { weights.rows }

    /** weights out x in; biases, outputs, deltas out x 1; inputs in x 1. */
    predicate WellShaped() {
      && biases.rows == OutSize() && biases.cols == 1
      && outputs.rows == OutSize() && outputs.cols == 1
      && deltas.rows == OutSize() && deltas.cols == 1
      && inputs.rows == InSize() && inputs.cols == 1
    }
  }

  /** The activation applied to every element. */
  function Activate(phi: real -> real, z: Matrix): (r: Matrix)
    ensures r.rows == z.rows && r.cols == z.cols
    ensures forall i: nat, j: nat {:trigger At(r, i, j)} :: i < z.rows && j < z.cols ==> At(r, i, j) == phi(At(z, i, j))
  {
    Build(z.rows, z.cols, (i: nat, j: nat) requires i < z.rows && j < z.cols => phi(At(z, i, j)))
  }

  /** The state after forward(x): x is cached and outputs = phi(W x + b). */
  function Forwarded(s: LayerState, x: Matrix): (t: LayerState)
    requires s.WellShaped() && x.rows == s.InSize() && x.cols == 1
    ensures t.WellShaped() && t.weights == s.weights && t.biases == s.biases && t.deltas == s.deltas
    ensures t.act == s.act
    ensures t.inputs == x
    ensures forall i: nat {:trigger At(t.outputs, i, 0)} :: i < s.OutSize() ==>
      At(t.outputs, i, 0) == s.act.phi(Dot(s.weights, x, i, 0, s.InSize()) + At(s.biases, i, 0))
  {
    s.(inputs := x, outputs := Activate(s.act.phi, SumOf(ProductOf(s.weights, x), s.biases)))
  }

  /** delta_i = phi'(outputs_i) * g_i, the derivative taken at the cached
      post-activation value. */
  function DeltasOf(s: LayerState, g: Matrix): (d: Matrix)
    requires s.WellShaped() && g.rows == s.OutSize() && g.cols == 1
    ensures d.rows == s.OutSize() && d.cols == 1
    ensures forall i: nat {:trigger At(d, i, 0)} :: i < s.OutSize() ==> At(d, i, 0) == s.act.dphi(At(s.outputs, i, 0)) * At(g, i, 0)
  {
    Build(s.OutSize(), 1, (i: nat, j: nat) requires i < s.OutSize() && j < 1 =>
      s.act.dphi(At(s.outputs, i, 0)) * At(g, i, 0))
  }

  /** The state after backward(g): only the deltas change. */
  function Backpropagated(s: LayerState, g: Matrix): (t: LayerState)
    requires s.WellShaped() && g.rows == s.OutSize() && g.cols == 1
    ensures t.WellShaped() && t.weights == s.weights && t.biases == s.biases
    ensures t.outputs == s.outputs && t.inputs == s.inputs
    ensures t.act == s.act
    ensures t.deltas == DeltasOf(s, g)
  {
    s.(deltas := DeltasOf(s, g))
  }

  /** What backward(g) returns: W^T times the new deltas, in x 1. */
  function InputGradient(s: LayerState, g: Matrix): (r: Matrix)
    requires s.WellShaped() && g.rows == s.OutSize() && g.cols == 1
    ensures r.rows == s.InSize() && r.cols == 1
    ensures forall j: nat {:trigger At(r, j, 0)} :: j < s.InSize() ==>
      At(r, j, 0) == Dot(Transposed(s.weights), DeltasOf(s, g), j, 0, s.OutSize())
  {
    ProductOf(Transposed(s.weights), DeltasOf(s, g))
  }

  /** One gradient-descent step, elementwise: m - lr * g. */
  function Descend(m: Matrix, lr: real, g: Matrix): (r: Matrix)
    requires g.rows == m.rows && g.cols == m.cols
    ensures r.rows == m.rows && r.cols == m.cols
    ensures forall i: nat, j: nat {:trigger At(r, i, j)} :: i < m.rows && j < m.cols ==> At(r, i, j) == At(m, i, j) - lr * At(g, i, j)
  {
    Build(m.rows, m.cols, (i: nat, j: nat) requires i < m.rows && j < m.cols => At(m, i, j) - lr * At(g, i, j))
  }

  /** The weight gradient deltas * inputs^T, out x in: the outer product
      of the cached deltas and inputs. */
  function WeightGradient(s: LayerState): (g: Matrix)
    requires s.WellShaped()
    ensures g.rows == s.OutSize() && g.cols == s.InSize()
    ensures forall i: nat, j: nat {:trigger At(g, i, j)} :: i < s.OutSize() && j < s.InSize() ==>
      At(g, i, j) == At(s.deltas, i, 0) * At(s.inputs, j, 0)
  {
    var g := ProductOf(s.deltas, Transposed(s.inputs));
    assert forall i: nat, j: nat :: i < s.OutSize() && j < s.InSize() ==>
      At(g, i, j) == At(s.deltas, i, 0) * At(s.inputs, j, 0) by {
      forall i: nat, j: nat | i < s.OutSize() && j < s.InSize()
        ensures At(g, i, j) == At(s.deltas, i, 0) * At(s.inputs, j, 0)
      {
        OuterProductAt(s.deltas, s.inputs, i, j);
      }
    }
    g
  }

  /** The state after update(lr): one gradient-descent step on weights and
      biases from the cached deltas and inputs; nothing else changes. */
  function Updated(s: LayerState, lr: real): (t: LayerState)
    requires s.WellShaped()
    ensures t.WellShaped() && t.InSize() == s.InSize() && t.OutSize() == s.OutSize()
    ensures t.outputs == s.outputs && t.inputs == s.inputs && t.deltas == s.deltas
    ensures t.act == s.act
    ensures forall i: nat, j: nat {:trigger At(t.weights, i, j)} :: i < s.OutSize() && j < s.InSize() ==>
      At(t.weights, i, j) == At(s.weights, i, j) - lr * At(WeightGradient(s), i, j)
    ensures forall i: nat {:trigger At(t.biases, i, 0)} :: i < s.OutSize() ==> At(t.biases, i, 0) == At(s.biases, i, 0) - lr * At(s.deltas, i, 0)
  {
    s.(weights := Descend(s.weights, lr, WeightGradient(s)), biases := Descend(s.biases, lr, s.deltas))
  }

  /** The activation loop of forward: each z(i, 0) := phi(z(i, 0)),
      top to bottom. */
  method ActivateColumn(phi: real -> real, z: Matrix) returns (r: Matrix)
    requires z.cols == 1
    ensures r == Activate(phi, z)
  {
    ghost var t := Activate(phi, z);
    r := z;
    for i := 0 to r.rows
      invariant r.rows == z.rows && r.cols == 1
      invariant forall i': nat, j': nat :: i' < z.rows && j' < 1 ==>
        At(r, i', j') == if i' < i then At(t, i', j') else At(z, i', j')
    {
      r := Store(r, i, 0, phi(At(r, i, 0)));
    }
    Extensionality(r, t);
  }

  /** The delta loop of backward: starting from a copy of the outputs,
      each d(i, 0) := phi'(outputs(i, 0)) * g(i, 0). */
  method ComputeDeltas(s: LayerState, g: Matrix) returns (d: Matrix)
    requires s.WellShaped() && g.rows == s.OutSize() && g.cols == 1
    ensures d == DeltasOf(s, g)
  {
    ghost var t := DeltasOf(s, g);
    d := s.outputs;
    for i := 0 to d.rows
      invariant d.rows == s.OutSize() && d.cols == 1
      invariant forall i': nat, j': nat :: i' < s.OutSize() && j' < 1 ==>
        At(d, i', j') == if i' < i then At(t, i', j') else At(s.outputs, i', j')
    {
      d := Store(d, i, 0, s.act.dphi(At(s.outputs, i, 0)) * At(g, i, 0));
    }
    Extensionality(d, t);
  }

  /** The weight loop of update: every w(i, j) -= lr * g(i, j), row by row. */
  method DescendWeights(m: Matrix, lr: real, g: Matrix) returns (r: Matrix)
    requires g.rows == m.rows && g.cols == m.cols
    ensures r == Descend(m, lr, g)
  {
    ghost var t := Descend(m, lr, g);
    r := m;
    for i := 0 to r.rows
      invariant r.rows == m.rows && r.cols == m.cols
      invariant forall i': nat, j': nat :: i' < m.rows && j' < m.cols ==>
        At(r, i', j') == if i' < i then At(t, i', j') else At(m, i', j')
    {
      for j := 0 to r.cols
        invariant r.rows == m.rows && r.cols == m.cols
        invariant forall i': nat, j': nat :: i' < m.rows && j' < m.cols ==>
          At(r, i', j') == if i' < i || (i' == i && j' < j) then At(t, i', j') else At(m, i', j')
      {
        r := Store(r, i, j, At(r, i, j) - lr * At(g, i, j));
      }
    }
    Extensionality(r, t);
  }

  /** The bias loop of update: every b(i) -= lr * d(i) on a column. */
  method DescendBiases(b: Matrix, lr: real, d: Matrix) returns (r: Matrix)
    requires b.cols == 1 && d.rows == b.rows && d.cols == 1
    ensures r == Descend(b, lr, d)
  {
    ghost var t := Descend(b, lr, d);
    r := b;
    for i := 0 to r.rows
      invariant r.rows == b.rows && r.cols == 1
      invariant forall i': nat, j': nat :: i' < b.rows && j' < 1 ==>
        At(r, i', j') == if i' < i then At(t, i', j') else At(b, i', j')
    {
      r := Store(r, i, 0, At(r, i, 0) - lr * At(d, i, 0));
    }
    Extensionality(r, t);
  }

  /** The weight gradient deltas * inputs^T is the outer product. */
  lemma {:induction false} OuterProductAt(d: Matrix, x: Matrix, i: nat, j: nat)
    requires d.cols == 1 && x.cols == 1 && i < d.rows && j < x.rows
    ensures At(ProductOf(d, Transposed(x)), i, j) == At(d, i, 0) * At(x, j, 0)
  {
    var xt := Transposed(x);
    var p := ProductOf(d, xt);
    calc {
      At(p, i, j);
      Dot(d, xt, i, j, 1);
      At(d, i, 0) * At(xt, 0, j);
      At(d, i, 0) * At(x, j, 0);
    }
  }

  /** A zero gradient gives zero deltas and a zero gradient for the layer
      below. */
  lemma {:induction false} BackwardOfZero(s: LayerState)
    requires s.WellShaped()
    ensures DeltasOf(s, Zeros(s.OutSize(), 1)) == Zeros(s.OutSize(), 1)
    ensures InputGradient(s, Zeros(s.OutSize(), 1)) == Zeros(s.InSize(), 1)
  {
    var z := Zeros(s.OutSize(), 1);
    Extensionality(DeltasOf(s, z), z);
    ProductZeroRight(Transposed(s.weights), 1);
  }

  /** With zero deltas an update leaves weights and biases as they were. */
  lemma {:induction false} UpdateWithZeroDeltas(s: LayerState, lr: real)
    requires s.WellShaped() && s.deltas == Zeros(s.OutSize(), 1)
    ensures Updated(s, lr) == s
  {
    var t := Updated(s, lr);
    Extensionality(t.weights, s.weights);
    Extensionality(t.biases, s.biases);
  }

  /** The inner weight loop of the constructor: row i of w takes the next
      inSize draws, and no other row changes. */
  method DrawRow(w0: Matrix, i: nat, drawn: Matrix) returns (w: Matrix)
    requires i < w0.rows && drawn.rows == w0.rows && drawn.cols == w0.cols
    ensures w.rows == w0.rows && w.cols == w0.cols
    ensures forall i': nat, j: nat :: i' < w.rows && i' != i && j < w.cols ==> At(w, i', j) == At(w0, i', j)
    ensures forall j: nat :: j < w.cols ==> At(w, i, j) == At(drawn, i, j)
  {
    w := w0;
    for j := 0 to w0.cols
      invariant w.rows == w0.rows && w.cols == w0.cols
      invariant forall i': nat, j': nat :: i' < w.rows && i' != i && j' < w.cols ==> At(w, i', j') == At(w0, i', j')
      invariant forall j': nat :: j' < j ==> At(w, i, j') == At(drawn, i, j')
    {
      w := Store(w, i, j, At(drawn, i, j));
    }
  }

  /** The first out * in draws, read as an out x in matrix, lie in [-1, 1]. */
  lemma {:induction false} DrawnInRange(outSize: nat, inSize: nat, draws: seq<real>)
    requires |draws| >= outSize * inSize
    requires forall k :: 0 <= k < |draws| ==> -1.0 <= draws[k] <= 1.0
    ensures forall i: nat, j: nat :: i < outSize && j < inSize ==>
      -1.0 <= At(RawMatrix(outSize, inSize, draws[..outSize * inSize]), i, j) <= 1.0
  {
    var drawn: Matrix := RawMatrix(outSize, inSize, draws[..outSize * inSize]);
    forall i: nat, j: nat | i < outSize && j < inSize
      ensures -1.0 <= At(drawn, i, j) <= 1.0
    {
      FlatBound(i, j, outSize, inSize);
      assert At(drawn, i, j) == draws[i * inSize + j];
    }
  }

  /** The weight loops of the constructor: w(i, j) takes the next draw,
      row by row, so the buffer is the first out * in draws in order and
      every weight lies in [-1, 1]. */
  method DrawWeights(outSize: nat, inSize: nat, draws: seq<real>) returns (w: Matrix)
    requires |draws| >= outSize * inSize
    requires forall k :: 0 <= k < |draws| ==> -1.0 <= draws[k] <= 1.0
    ensures w.rows == outSize && w.cols == inSize && w.data == draws[..outSize * inSize]
    ensures forall i: nat, j: nat :: i < outSize && j < inSize ==> -1.0 <= At(w, i, j) <= 1.0
  {
    var drawn: Matrix := RawMatrix(outSize, inSize, draws[..outSize * inSize]);
    w := Zeros(outSize, inSize);
    for i := 0 to outSize
      invariant w.rows == outSize && w.cols == inSize
      invariant forall i': nat, j': nat :: i' < i && j' < inSize ==> At(w, i', j') == At(drawn, i', j')
    {
      w := DrawRow(w, i, drawn);
    }
    Extensionality(w, drawn);
    DrawnInRange(outSize, inSize, draws);
  }

  /** A layer object: its matrices are overwritten by forward, backward and
      update, and never change shape. */
  class Layer {
    var weights: Matrix
    var biases: Matrix
    var outputs: Matrix
    var inputs: Matrix
    var deltas: Matrix
    const activation: real -> real
    const activationDeriv: real -> real
    ghost const inSize: nat
    ghost const outSize: nat
    /** How many times update has been applied. */
    ghost var updates: nat

    function State(): LayerState
      reads this
    {
      LayerState(weights, biases, outputs, inputs, deltas, Activation(activation, activationDeriv))
    }

    ghost predicate Valid()
      reads this
    {
      State().WellShaped() && weights.rows == outSize && weights.cols == inSize
    }

    /** Weights come from `draws`, the values the random source yields in
        the order the loops consume them, each in [-1, 1]; biases and all
        caches start at zero. */
    constructor (inSize: nat, outSize: nat, activation: real -> real, activationDeriv: real -> real,
                 draws: seq<real>)
      requires |draws| >= outSize * inSize
      requires forall k :: 0 <= k < |draws| ==> -1.0 <= draws[k] <= 1.0
      ensures Valid() && this.inSize == inSize && this.outSize == outSize
      ensures this.activation == activation && this.activationDeriv == activationDeriv
      ensures weights.data == draws[..outSize * inSize]
      ensures forall i: nat, j: nat :: i < outSize && j < inSize ==> -1.0 <= At(weights, i, j) <= 1.0
      ensures biases == Zeros(outSize, 1) && outputs == Zeros(outSize, 1)
      ensures inputs == Zeros(inSize, 1) && deltas == Zeros(outSize, 1)
      ensures updates == 0
    {
      var w := DrawWeights(outSize, inSize, draws);
      weights := w;
      biases := Zeros(outSize, 1);
      inputs := Zeros(inSize, 1);
      outputs := Zeros(outSize, 1);
      deltas := Zeros(outSize, 1);
      this.activation := activation;
      this.activationDeriv := activationDeriv;
      this.inSize := inSize;
      this.outSize := outSize;
      updates := 0;
    }

    /** forward(input): rejects anything but an in x 1 column before any
        field changes; otherwise caches the input and the activated
        outputs, and returns the outputs. */
    method Forward(input: Matrix) returns (r: Result<Matrix>)
      requires Valid()
      modifies this
      ensures Valid()
      ensures (input.rows != inSize || input.cols != 1) ==> r == Err(InvalidArgument) && unchanged(this)
      ensures (input.rows == inSize && input.cols == 1) ==>
        State() == Forwarded(old(State()), input) && r == Ok(outputs)
      ensures updates == old(updates)
    {
      if input.rows != weights.cols || input.cols != 1 {
        return Err(InvalidArgument);
      }
      inputs := input;
      var wx := Multiply(weights, input);
      var z := Add(wx.value, biases);
      outputs := ActivateColumn(activation, z.value);
      return Ok(outputs);
    }

    /** backward(g): rejects anything but an out x 1 column before any
        field changes; otherwise overwrites the deltas and returns the
        gradient for the layer below. */
    method Backward(grad: Matrix) returns (r: Result<Matrix>)
      requires Valid()
      modifies this
      ensures Valid()
      ensures (grad.rows != outSize || grad.cols != 1) ==> r == Err(InvalidArgument) && unchanged(this)
      ensures (grad.rows == outSize && grad.cols == 1) ==>
        State() == Backpropagated(old(State()), grad) && r == Ok(InputGradient(old(State()), grad))
      ensures updates == old(updates)
    {
      if grad.rows != outputs.rows || grad.cols != 1 {
        return Err(InvalidArgument);
      }
      deltas := ComputeDeltas(State(), grad);
      var wt := Transpose(weights);
      r := Multiply(wt, deltas);
    }

    /** update(lr): W(i, j) -= lr * (deltas inputs^T)(i, j), then
        b(i) -= lr * deltas(i), in place. */
    method Update(learningRate: real)
      requires Valid()
      modifies this
      ensures Valid()
      ensures State() == Updated(old(State()), learningRate)
      ensures updates == old(updates) + 1
    {
      var xt := Transpose(inputs);
      var g := Multiply(deltas, xt);
      var gradW := g.value;
      assert gradW == WeightGradient(old(State()));
      weights := DescendWeights(weights, learningRate, gradW);
      biases := DescendBiases(biases, learningRate, deltas);
      updates := updates + 1;
    }

    /** The cached outputs, read-only. */
    function GetOutput(): (m: Matrix)
      reads this
      requires Valid()
      ensures m.rows == outSize && m.cols == 1
    {
      outputs
    }

    /** The cached deltas, read-only. */
    function GetDelta(): (m: Matrix)
      reads this
      requires Valid()
      ensures m.rows == outSize && m.cols == 1
    {
      deltas
    }
  }
}
