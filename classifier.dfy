/**
 * The Keras side of the experiment. `create_model` is a pure builder and is
 * modelled as the description of the network it builds; training and
 * evaluation happen inside the library and are given to the runner as
 * functions.
 */
module Classifier {
  import opened Wrappers
  import opened Tables

  datatype Activation = Sigmoid
  datatype Loss = BinaryCrossentropy
  datatype Optimizer = RMSprop(learningRate: real)

  /**
   * One named scalar input per feature, concatenated and fed to a dense layer
   * of `units` neurons.
   */
  datatype Model = Model(
    inputs: seq<string>,
    layerName: string,
    units: nat,
    activation: Activation,
    optimizer: Optimizer,
    loss: Loss,
    metrics: seq<string>)

  /** Trainable parameters of the dense layer: one weight per input and unit, one bias per unit. */
  function ParameterCount(m: Model): nat {
    |m.inputs| * m.units + m.units
  }

  /** The name `create_model` gives its dense layer. */
  const DenseLayerName: string := "dense_layer"

  /** Why Keras refuses to build the network. */
  datatype BuildError =
    | NoInputs                         // `Concatenate` called on an empty list
    | DuplicateLayerName(name: string) // an input named like the dense layer

  /**
   * `create_model(input_features, learning_rate)`: a single sigmoid neuron
   * over one scalar input per feature, in the given order, trained with
   * RMSprop at the given rate on binary cross-entropy and reporting accuracy.
   * Keras refuses the network when there are no inputs to concatenate, and
   * then when an input carries the dense layer's name, since layer names must
   * be unique within a model.
   */
  function CreateModel(inputFeatures: seq<string>, learningRate: real): (r: Result<Model, BuildError>)
    ensures r.Failure? <==> |inputFeatures| == 0 || DenseLayerName in inputFeatures
    ensures r.Failure? ==> r.error == if |inputFeatures| == 0 then NoInputs else DuplicateLayerName(DenseLayerName)
    ensures r.Success? ==> r.value.inputs == inputFeatures && r.value.layerName !in inputFeatures
    ensures r.Success? ==> ParameterCount(r.value) == |inputFeatures| + 1
    ensures r.Success? ==> r.value.activation == Sigmoid && r.value.loss == BinaryCrossentropy
    ensures r.Success? ==> r.value.optimizer == RMSprop(learningRate) && r.value.metrics == ["accuracy"]
  {
    if |inputFeatures| == 0 then Failure(NoInputs)
    else if DenseLayerName in inputFeatures then Failure(DuplicateLayerName(DenseLayerName))
    else Success(Model(inputFeatures, DenseLayerName, 1, Sigmoid, RMSprop(learningRate), BinaryCrossentropy, ["accuracy"]))
  }

  /** The per-feature input mapping Keras is fed: feature name to its column of values. */
  type Inputs = map<string, seq<Value>>

  /** Arguments of `model.fit` other than the data. */
  datatype FitConfig = FitConfig(batchSize: nat, epochs: nat, validationSplit: real)

  /**
   * The samples `fit` keeps for training out of n when it holds out a
   * validation share of 0.2: floor(n * (1 - 0.2)).
   */
  function TrainingShare(n: nat): (k: nat)
    ensures 5 * k <= 4 * n < 5 * k + 5
  {
    4 * n / 5
  }

  /** `fit` raises unless both the kept share and the held-out share are non-empty. */
  predicate CanHoldOutValidation(n: nat) {
    0 < TrainingShare(n) < n
  }

  /** A validation share can be held out exactly when there are at least two samples. */
  lemma HoldOutNeedsTwoSamples(n: nat)
    ensures CanHoldOutValidation(n) <==> n >= 2
  {
    if n >= 2 {
      assert 4 * n >= 5;
    }
  }

  /** What `model.fit` leaves behind: the trained weights and `history.history`. */
  datatype Fitted = Fitted(weights: seq<real>, history: map<string, seq<real>>)

  /** `model.evaluate` returns the test loss and the test accuracy. */
  datatype Evaluation = Evaluation(loss: real, accuracy: real)

  type FitFunction = (Model, Inputs, seq<int>, FitConfig) -> Fitted
  type EvaluateFunction = (Model, seq<real>, Inputs, seq<int>) -> Evaluation
}
