# dumbrons core in Dafny

A model of the engine of dumbrons, a small feed-forward neural network library written in C++. The model covers three pieces:

- `matrix.dfy` (module `Matrices`) models the dense row-major matrix `Matrix`: bounds-checked element access, `row`, `col`, `transpose`, `identity`, `+`, `+=` and `*`.
- `layer.dfy` (module `Layers`) models the fully connected `Layer`:
  - its constructor, with random weights in [-1, 1] and zero biases and caches;
  - `forward`, which computes phi(W x + b) and caches the input and the outputs;
  - `backward`, which sets delta_i = phi'(outputs_i) * g_i and returns W^T delta;
  - `update`, which takes one gradient-descent step on W and b;
  - the two getters.
- `network.dfy` (module `Networks`) models `Network`:
  - the constructor, which builds one layer per consecutive pair of sizes;
  - `forward`, which runs the layers in order;
  - `train`: for each epoch and each example in order, forward, the loss gradient `cost_deriv(out_j, target_j)`, backward from the last layer to the first, then `update(learning_rate)` on every layer in index order.

A `Matrix` is a C++ value: it is copied on assignment and on return. The model therefore makes it an immutable value, a datatype holding `rows`, `cols` and a flat `seq<real>` with element (i, j) at index i * cols + j. Each matrix operation is a method that keeps the source's nested loops, and is proved equal to a specification function (`Transposed`, `IdentityOf`, `SumOf`, `ProductOf`).

`Layer` and `Network` are classes whose fields their methods overwrite:

- `Layer.State()` reads the five matrices and the activation pair as a `LayerState` value.
- Every `Layer` method is proved to take `old(State())` to a specification function of it (`Forwarded`, `Backpropagated`, `Updated`).
- `Network.States()` is the sequence of its layers' states.
- `Network.Updates()` counts, per layer, how many updates have been applied, as a ghost field of each layer.

Training is specified as a fold of one training step (`StepOn`) over the examples, repeated once per epoch (`Fold`, `Epochs`, `TrainedFor`). Lemmas show three things:

- this is epochs * |inputs| steps taken in order;
- each layer receives one update per step;
- with no epochs or no examples nothing changes.

Exceptions are `Result` values: `Err(OutOfRange)` stands for `std::out_of_range` and `Err(InvalidArgument)` for `std::invalid_argument`. Every error path is shown to leave the receiver unchanged.

Three facts about the code shape the model:

- the update loop of `train` runs over the layers in index order, from the first layer to the last (network.cpp:76-78);
- construction with fewer than two sizes throws `std::invalid_argument` before any layer is built (network.cpp:18-19);
- the constructor indexes the activation and derivative lists without checking their length against the number of layers (network.cpp:23-24), so those lengths are a precondition here.

## Model

| member | source | states |
|---|---|---|
| Matrices.Make | matrix.cpp:9-12 | a rows x cols matrix whose rows * cols elements all equal the fill value |
| Matrices.Store | matrix.cpp:14-22 | writing through (i, j) in bounds changes element (i, j) to v and no other element, shape kept |
| Matrices.Get | matrix.cpp:24-29 | out_of_range exactly when i >= rows or j >= cols; otherwise the buffer element at i * cols + j |
| Matrices.Set | matrix.cpp:14-22 | out_of_range exactly when the index is out of bounds; otherwise the same shape with buffer element i * cols + j replaced |
| Matrices.GetAfterSet | matrix.cpp:14-29 | reading after a write gives the written value at that index and the old value (or the old error) everywhere else |
| Matrices.Row | matrix.cpp:44-55 | out_of_range exactly when i >= rows; otherwise a 1 x cols matrix whose element j is element (i, j) |
| Matrices.Col | matrix.cpp:57-68 | out_of_range exactly when j >= cols; otherwise a rows x 1 matrix whose element i is element (i, j) |
| Matrices.Transposed | matrix.h:73-75 | the cols x rows matrix with element (j, i) equal to element (i, j) |
| Matrices.Transpose | matrix.cpp:70-80 | the double loop m(j, i) = a(i, j) yields the transpose |
| Matrices.TransposeInvolution | matrix.cpp:70-80 | transposing twice gives back the original matrix |
| Matrices.IdentityOf | matrix.h:77-83 | n x n with 1 on the diagonal and 0 elsewhere |
| Matrices.Identity | matrix.cpp:82-90 | the zero matrix with m(i, i) = 1 written for every i is the identity |
| Matrices.SumOf | matrix.h:85-92 | same shape, element (i, j) is a(i, j) + b(i, j) |
| Matrices.Add | matrix.cpp:92-105 | invalid_argument exactly on a shape mismatch; otherwise the elementwise sum |
| Matrices.AddAssign | matrix.cpp:125-137 | invalid_argument exactly on a shape mismatch (the receiver keeps its value); otherwise the receiver becomes the elementwise sum, same shape |
| Matrices.SumZero | matrix.cpp:92-105 | adding the zero matrix of the same shape changes nothing |
| Matrices.ProductOf | matrix.h:94-101 | shape rows(a) x cols(b), element (i, j) is the sum over k < cols(a) of a(i, k) * b(k, j) |
| Matrices.AccumulateEntry | matrix.cpp:116-118 | the k loop leaves m(i, j) equal to that sum and every other element as it was |
| Matrices.MultiplyRow | matrix.cpp:115-119 | the j loop fills row i with the product's row i and leaves every other row as it was |
| Matrices.Multiply | matrix.cpp:107-123 | invalid_argument exactly when cols(a) != rows(b); otherwise the product |
| Matrices.ProductIdentityRight | matrix.cpp:82-123 | A * identity(cols(A)) == A |
| Matrices.ProductIdentityLeft | matrix.cpp:82-123 | identity(rows(A)) * A == A |
| Matrices.ProductZeroRight | matrix.cpp:107-123 | A times a zero matrix is the zero matrix of the product's shape |
| Matrices.MatrixTestCases | testmatrix.cpp:11-59 | the driver's fixed cases: the write/read, transpose, identity, sum and += values, and the 2x3 twos times the 3x2 ones giving 6 at (0, 0) |
| Matrices.MatrixTestDriver | testmatrix.cpp:11-59 | the driver's cases run through Row, Col, Transpose, Identity, Add, AddAssign and Multiply: row 1 is 1 x 3 ending in 1, column 1 starts with 5, the transpose has 5 at (1, 0), all nine identity(3) entries, the sum and += values, and a 2 x 2 product with 6 at (0, 0) |
| Layers.Activate | layer.cpp:52-57 | same shape, each element is phi of the original |
| Layers.Forwarded | layer.cpp:36-60 | after forward(x): the input cache is x, outputs_i = phi(sum_j W(i, j) x_j + b_i), weights, biases and deltas unchanged |
| Layers.DeltasOf | layer.cpp:70-74 | an out x 1 column with delta_i = phi'(outputs_i) * g_i |
| Layers.Backpropagated | layer.cpp:62-81 | after backward(g) only the deltas differ, and they are DeltasOf |
| Layers.InputGradient | layer.cpp:76-80 | an in x 1 column whose element j is the sum over i of W(i, j) * delta_i |
| Layers.Descend | layer.cpp:90-102 | each element becomes m(i, j) - lr * g(i, j) |
| Layers.WeightGradient | layer.cpp:88 | the out x in outer product, element (i, j) = delta_i * input_j |
| Layers.OuterProductAt | layer.cpp:88 | deltas * inputs^T at (i, j) equals delta_i * input_j |
| Layers.Updated | layer.cpp:83-103 | after update(lr): W(i, j) - lr * delta_i * input_j and b_i - lr * delta_i, caches unchanged, shapes kept |
| Layers.ActivateColumn | layer.cpp:55-57 | the in-place loop outputs(i, 0) = phi(outputs(i, 0)) yields Activate |
| Layers.ComputeDeltas | layer.cpp:68-74 | copying the outputs, then writing each delta_i, yields DeltasOf |
| Layers.DescendWeights | layer.cpp:90-96 | the double loop w(i, j) -= lr * g(i, j) yields Descend |
| Layers.DescendBiases | layer.cpp:98-102 | the loop b(i, 0) -= lr * delta(i, 0) yields Descend |
| Layers.BackwardOfZero | layer.cpp:62-81 | a zero gradient gives zero deltas and a zero gradient for the layer below |
| Layers.UpdateWithZeroDeltas | layer.cpp:83-103 | with zero deltas an update leaves the layer as it was |
| Layers.DrawRow | layer.cpp:30-32 | the inner constructor loop fills row i from the draws and no other row |
| Layers.DrawnInRange | layer.cpp:26-33 | draws in [-1, 1] give weights in [-1, 1] |
| Layers.DrawWeights | layer.cpp:28-33 | the weights' buffer is the first out * in draws in loop order, each in [-1, 1] |
| Layers.Layer.constructor | layer.cpp:11-34 | weights out x in from the draws, each in [-1, 1]; biases, outputs, inputs and deltas zero columns of the right heights; activation pair stored |
| Layers.Layer.Forward | layer.cpp:36-60 | a non-column or wrong-height input gives invalid_argument before any field changes; otherwise the state becomes Forwarded and the new outputs are returned |
| Layers.Layer.Backward | layer.cpp:62-81 | a gradient that is not an out x 1 column gives invalid_argument with nothing changed; otherwise only the deltas change (Backpropagated) and W^T delta is returned |
| Layers.Layer.Update | layer.cpp:83-103 | the state becomes Updated: only weights and biases change; one more update is counted |
| Layers.Layer.GetOutput | layer.h:75 | reads the cached outputs, an out x 1 column, changing nothing |
| Layers.Layer.GetDelta | layer.h:76 | reads the cached deltas, an out x 1 column, changing nothing |
| Networks.Signal | network.cpp:28-38 | the column of height sizes[k] entering layer k: the input, then each layer's phi(W x + b) |
| Networks.FeedForward | network.cpp:28-38 | independent recursive definition of the network's output: the first layer, then the rest of the chain |
| Networks.FeedForwardFrom | network.cpp:33-35 | feeding the signal at layer k through the remaining layers gives the network's output |
| Networks.ForwardIsFeedForward | network.cpp:28-38 | the left fold over the layers equals the recursive definition |
| Networks.ForwardedAll | network.cpp:33-35 | after forward has reached layer k, layers below k cache their signal and output, the others are untouched, and all shapes still chain |
| Networks.ForwardedAllNext | network.cpp:33-35 | one more iteration changes layer k alone |
| Networks.ForwardChain | network.cpp:33-35 | after forward, layer 0 caches the input, each later layer caches the previous layer's output as its input, and the last layer's output is the network's output |
| Networks.LossGradient | network.cpp:58-63 | an out x 1 column with element j equal to cost_deriv(out_j, target_j) |
| Networks.ComputeLossGradient | network.cpp:58-63 | the loop writing loss_grad(j, 0) yields LossGradient |
| Networks.Upstream | network.cpp:69-72 | the gradient reaching layer k - 1: the loss gradient handed down through W^T delta of every layer from the last down to k |
| Networks.BackpropagatedAll | network.cpp:69-72 | layers from k up have their deltas set from the gradient their successor returned; layers below k are untouched |
| Networks.BackpropagatedNone | network.cpp:69-72 | before the backward loop no layer has changed |
| Networks.BackpropagatedAllNext | network.cpp:70-72 | backward on layer l changes layer l alone |
| Networks.UpdatedAll | network.cpp:76-78 | layers below k are updated with the learning rate; the others are untouched |
| Networks.UpdatedNone | network.cpp:76-78 | before the update loop no layer has changed |
| Networks.UpdatedAllNext | network.cpp:76-78 | update on layer i changes layer i alone |
| Networks.RaisedBelowNext | network.cpp:76-78 | updating layer i raises layer i's update count and no other |
| Networks.RaisedBelowAll | network.cpp:76-78 | after the update loop every layer has exactly one more update |
| Networks.StepOn | network.cpp:52-78 | one example (forward, loss gradient, backward, update) keeps the chain of shapes |
| Networks.EpochsAreRepeat | network.cpp:49-51 | `epochs` passes over the pairs are one fold over the pairs repeated `epochs` times, epochs times the number of pairs steps in order |
| Networks.EpochsOfNothing | network.cpp:49-51 | with no epochs or no pairs the state is unchanged |
| Networks.StepCountIsProduct | network.cpp:49-51 | the steps counted pass by pass number epochs * n |
| Networks.TrainedForNothing | network.cpp:49-51 | train with epochs = 0 or no examples changes no layer and no update count |
| Networks.TrainedForIsSteps | network.cpp:49-79 | train is epochs times the number of inputs training steps over the examples in order, repeated per epoch, and every layer gets that many updates |
| Networks.BuildLayers | network.cpp:22-25 | sizes - 1 fresh, distinct layers; layer k maps sizes[k] to sizes[k + 1] with activation pair k and starts as its constructor leaves it |
| Networks.Network.constructor | network.cpp:9-26 | fresh layers chained by the sizes, each as the layer constructor leaves it; learning rate and cost derivative stored |
| Networks.Network.Create | network.cpp:15-20 | invalid_argument exactly when there are fewer than two sizes, before any layer is built; otherwise a valid network with those sizes whose layers are each fresh, built with activation pair k and weights from draws[k], as the layer constructor leaves them |
| Networks.Network.CreateWithDefaultRate | network.h:38-43 | the learning rate defaults to 0.01; otherwise as Create, fresh layers as their constructor leaves them included |
| Networks.Network.ForwardFirst | network.cpp:33-35 | the first layer rejects a wrong input before any layer changes; otherwise only layer 0 has run forward |
| Networks.Network.ForwardLayer | network.cpp:34 | layer i takes the signal that reached it and hands on its output; only layer i changes |
| Networks.Network.Forward | network.cpp:28-38 | invalid_argument on an input that is not a sizes[0] x 1 column, with no layer changed; otherwise every layer has run forward in order and the result is the network's output |
| Networks.Network.BackwardLayer | network.cpp:71 | layer l takes the gradient from layer l + 1 and returns the one for layer l - 1 |
| Networks.Network.BackwardPass | network.cpp:69-72 | the backward loop from the last layer down to 0 gives BackpropagatedAll, with no update counted |
| Networks.Network.UpdateLayer | network.cpp:77 | layer i is updated with the network's learning rate; only its update count rises |
| Networks.Network.UpdatePass | network.cpp:76-78 | every layer is updated in index order, and each receives exactly one update |
| Networks.Network.ForwardAndLoss | network.cpp:53-63 | forward on x, then the loss gradient against the target |
| Networks.Network.TrainStep | network.cpp:52-78 | one example takes the network states to StepOn and gives every layer one more update |
| Networks.Network.TrainExample | network.cpp:51-79 | example i of an epoch advances the fold over the examples by one step |
| Networks.Network.TrainEpoch | network.cpp:51-79 | one epoch is the fold of the step over all examples in order, with one update per example for each layer |
| Networks.Network.TrainNextEpoch | network.cpp:49-80 | one more iteration of the epoch loop is one more pass |
| Networks.Network.TrainEpochs | network.cpp:49-80 | the epoch loop gives TrainedFor, with StepCount(epochs, number of inputs) updates per layer |
| Networks.Network.Train | network.cpp:40-81 | inputs and targets of different lengths give invalid_argument with no layer and no update count changed; otherwise the layers end as TrainedFor and each received epochs times the number of inputs updates; with no epochs nothing changes whatever the pairs |

## Left out

- Printing (`Matrix::print`) and the command-line driver `main.cpp` are left out. They only do I/O.
- Floating point is left out: `double` is modelled as `real`, so rounding, overflow and NaN are not modelled.
- Randomness is left out. The `std::mt19937` generator seeded from `std::random_device` becomes a parameter: a sequence of draws per layer, consumed in the order of the constructor's loops.
- Layers.Layer.constructor: each draw is assumed to lie in the closed interval [-1, 1]. `std::uniform_real_distribution(-1, 1)` yields the half-open [-1, 1), so the bound the model proves is slightly weaker.
- Layers.DrawWeights: states the closed interval [-1, 1] for the same reason.
- The `cost` function stored by the network is left out of every computation, because the source never calls it. Only `cost_deriv` takes part in training.
- Networks.Network.Train: when the lengths match and there is at least one epoch, requires every input to be a sizes[0] x 1 column and every target to have at least one column and at least as many rows as the last layer's width.
  - In the source, an ill-shaped example throws from `Layer::forward` or from `Matrix::operator()` in the middle of training. Layers already trained on earlier examples stay trained.
  - That partial-training error path is not modelled.
- Networks.Network.Create: requires as many activations, derivatives and draw sequences as there are layers. The source does not check these lengths, and reading past the end of a `std::vector` is undefined behaviour, not an error.
- Networks.Network.Forward: stops at the first layer's error. Later layers cannot fail, because the shapes chain.
- Aliasing between matrices is left out. C++ `Matrix` has value semantics, so `+=` is modelled as the receiver's new value (`Matrices.AddAssign`) rather than as an update through a reference.
- Size arithmetic is left out. `size_t` and the loop counter `int l` are unbounded here, so wrap-around of `rows * cols` or of the backward loop counter is not modelled.
- Concurrency is left out. The source is single-threaded.
