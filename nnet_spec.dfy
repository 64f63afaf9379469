/** Value-level specification of the `nnet` package's NeuralNetwork:
    the network's buffers as sequences, and one function per operation
    giving the state that operation leaves behind. The class in module
    NNet is proved against these functions. */
module NNetSpec {

  /** The learning rate every new network starts with. */
  const DefaultLearningRate: real := 0.2

  function Abs(x: real): (r: real)
    ensures r >= 0.0 && (r == x || r == -x)
  {
    if x < 0.0 then -x else x
  }

  /** The open interval (0, 1). */
  type UnitInterval = r: real | 0.0 < r < 1.0 witness 0.5

  /** The logistic function 1 / (1 + e^-x), left uninterpreted: real
      exponentiation is not available, and the model relies on nothing
      about it beyond its range. */
  const Logistic: real -> UnitInterval

  /** The activation function of every unit. */
  function Sigmoid(x: real): (r: real)
    ensures 0.0 < r < 1.0
  {
    Logistic(x)
  }

  /** The network's buffers. `inputWeights[i][h]` is the weight of the
      edge from input i to hidden unit h; `hiddenWeights[h][o]` the one
      from hidden unit h to output o. */
  datatype NetState = NetState(
    inputs: seq<real>,
    inputWeights: seq<seq<real>>,
    hidden: seq<real>,
    hiddenThresholds: seq<real>,
    hiddenWeights: seq<seq<real>>,
    outputs: seq<real>,
    outputThresholds: seq<real>,
    learningRate: real)

  predicate IsMatrix(m: seq<seq<real>>, rows: nat, cols: nat)
  {
    |m| == rows && forall i :: 0 <= i < rows ==> |m[i]| == cols
  }

  /** Every buffer has the size that the three layer widths give it. */
  predicate WellFormed(s: NetState)
  {
    && IsMatrix(s.inputWeights, |s.inputs|, |s.hidden|)
    && |s.hiddenThresholds| == |s.hidden|
    && IsMatrix(s.hiddenWeights, |s.hidden|, |s.outputs|)
    && |s.outputThresholds| == |s.outputs|
  }

  /** The two states have the same layer widths. */
  predicate SameShape(s: NetState, t: NetState)
  {
    |s.inputs| == |t.inputs| && |s.hidden| == |t.hidden| && |s.outputs| == |t.outputs|
  }

  /** The two states agree on every weight, threshold and the rate. */
  predicate SameParameters(s: NetState, t: NetState)
  {
    && s.inputWeights == t.inputWeights
    && s.hiddenWeights == t.hiddenWeights
    && s.hiddenThresholds == t.hiddenThresholds
    && s.outputThresholds == t.outputThresholds
    && s.learningRate == t.learningRate
  }

  // ---------------------------------------------------------------------
  // Construction: New and connect

  /** All buffers of the given widths, filled with zeros, at the
      default learning rate: the network before `connect` runs. */
  function Zeroed(nInputs: nat, nHidden: nat, nOutputs: nat): (s: NetState)
    ensures WellFormed(s)
    ensures |s.inputs| == nInputs && |s.hidden| == nHidden && |s.outputs| == nOutputs
    ensures s.learningRate == DefaultLearningRate
  {
    NetState(
      seq(nInputs, _ => 0.0),
      seq(nInputs, _ => seq(nHidden, _ => 0.0)),
      seq(nHidden, _ => 0.0),
      seq(nHidden, _ => 0.0),
      seq(nHidden, _ => seq(nOutputs, _ => 0.0)),
      seq(nOutputs, _ => 0.0),
      seq(nOutputs, _ => 0.0),
      DefaultLearningRate)
  }

  /** Index of the draw `connect` makes for inputWeights[i][h]. */
  function InputDraw(nHidden: nat, i: nat, h: nat): nat
  {
    i * nHidden + h
  }

  /** Index of the draw `connect` makes for the first hidden-to-output
      weight of hidden unit h: the input weights take nInputs * nHidden
      draws, then each hidden unit takes three per output and two for
      its own threshold. */
  function HiddenDrawBase(nInputs: nat, nHidden: nat, nOutputs: nat, h: nat): nat
  {
    nInputs * nHidden + h * (3 * nOutputs + 2)
  }

  /** The draw indices advance one by one along a row of input weights
      and on to the next row. */
  lemma InputDrawNextRow(nHidden: nat, i: nat)
    ensures InputDraw(nHidden, i, nHidden) == InputDraw(nHidden, i + 1, 0)
  {
    assert (i + 1) * nHidden == i * nHidden + nHidden;
  }

  /** Hidden unit h takes 3 * nOutputs + 2 draws. */
  lemma HiddenDrawBaseNext(nInputs: nat, nHidden: nat, nOutputs: nat, h: nat)
    ensures HiddenDrawBase(nInputs, nHidden, nOutputs, h + 1)
         == HiddenDrawBase(nInputs, nHidden, nOutputs, h) + 3 * nOutputs + 2
  {
    assert (h + 1) * (3 * nOutputs + 2) == h * (3 * nOutputs + 2) + 3 * nOutputs + 2;
  }

  /** No draw of the generator is zero (the thresholds divide by draws). */
  ghost predicate NonZeroDraws(rnd: nat -> real)
  {
    forall k :: rnd(k) != 0.0
  }

  /** `rand() / rand()` when the two draws are the k-th and the (k+1)-th;
      Go evaluates the numerator first. */
  function DrawnRatio(rnd: nat -> real, k: nat): real
    requires rnd(k + 1) != 0.0
  {
    rnd(k) / rnd(k + 1)
  }

  /** The state `connect` leaves when rnd(k) is the k-th value drawn from
      the generator. Input weights are drawn row by row; then, for each
      hidden unit h in turn, every output o draws hiddenWeights[h][o] and
      a ratio for outputThresholds[o] (numerator first), and h draws a
      ratio for its own threshold. Output thresholds are redrawn for every
      hidden unit, so only the last one's draws survive, and with no hidden
      unit they keep their previous value. */
  function Connected(s: NetState, rnd: nat -> real): (t: NetState)
    requires WellFormed(s) && NonZeroDraws(rnd)
    ensures WellFormed(t) && SameShape(s, t)
    ensures t.inputs == s.inputs && t.hidden == s.hidden && t.outputs == s.outputs
    ensures t.learningRate == s.learningRate
    ensures |s.hidden| == 0 ==> t.outputThresholds == s.outputThresholds
  {
    var nI, nH, nO := |s.inputs|, |s.hidden|, |s.outputs|;
    s.(
      inputWeights := seq(nI, i requires 0 <= i < nI => seq(nH, h requires 0 <= h < nH =>
        rnd(InputDraw(nH, i, h)))),
      hiddenWeights := seq(nH, h requires 0 <= h < nH => seq(nO, o requires 0 <= o < nO =>
        rnd(HiddenDrawBase(nI, nH, nO, h) + 3 * o))),
      outputThresholds := seq(nO, o requires 0 <= o < nO =>
        if nH == 0 then s.outputThresholds[o]
        else DrawnRatio(rnd, HiddenDrawBase(nI, nH, nO, nH - 1) + 3 * o + 1)),
      hiddenThresholds := seq(nH, h requires 0 <= h < nH =>
        DrawnRatio(rnd, HiddenDrawBase(nI, nH, nO, h) + 3 * nO)))
  }

  /** The weights and thresholds `connect` draws, entry by entry, make up
      the state `Connected` gives. */
  lemma ConnectedByEntries(s: NetState, rnd: nat -> real, iw: seq<seq<real>>, hw: seq<seq<real>>,
                           ht: seq<real>, ot: seq<real>)
    requires WellFormed(s) && NonZeroDraws(rnd)
    requires IsMatrix(iw, |s.inputs|, |s.hidden|) && IsMatrix(hw, |s.hidden|, |s.outputs|)
    requires |ht| == |s.hidden| && |ot| == |s.outputs|
    requires forall i, h :: 0 <= i < |s.inputs| && 0 <= h < |s.hidden| ==>
      iw[i][h] == rnd(InputDraw(|s.hidden|, i, h))
    requires forall h, o :: 0 <= h < |s.hidden| && 0 <= o < |s.outputs| ==>
      hw[h][o] == rnd(HiddenDrawBase(|s.inputs|, |s.hidden|, |s.outputs|, h) + 3 * o)
    requires forall h :: 0 <= h < |s.hidden| ==>
      ht[h] == DrawnRatio(rnd, HiddenDrawBase(|s.inputs|, |s.hidden|, |s.outputs|, h) + 3 * |s.outputs|)
    requires |s.hidden| == 0 ==> ot == s.outputThresholds
    requires |s.hidden| > 0 ==> forall o :: 0 <= o < |s.outputs| ==>
      ot[o] == DrawnRatio(rnd, HiddenDrawBase(|s.inputs|, |s.hidden|, |s.outputs|, |s.hidden| - 1) + 3 * o + 1)
    ensures Connected(s, rnd) == s.(inputWeights := iw, hiddenWeights := hw, hiddenThresholds := ht, outputThresholds := ot)
  {
    var t := Connected(s, rnd);
    forall i | 0 <= i < |iw| ensures iw[i] == t.inputWeights[i] { }
    forall h | 0 <= h < |hw| ensures hw[h] == t.hiddenWeights[h] { }
  }

  /** The network `New(nInputs, nHidden, nOutputs)` returns. */
  function Created(nInputs: nat, nHidden: nat, nOutputs: nat, rnd: nat -> real): (s: NetState)
    requires NonZeroDraws(rnd)
    ensures WellFormed(s)
    ensures |s.inputs| == nInputs && |s.hidden| == nHidden && |s.outputs| == nOutputs
    ensures s.learningRate == DefaultLearningRate
    ensures forall i :: 0 <= i < nInputs ==> s.inputs[i] == 0.0
    ensures forall h :: 0 <= h < nHidden ==> s.hidden[h] == 0.0
    ensures forall o :: 0 <= o < nOutputs ==> s.outputs[o] == 0.0
    ensures nHidden == 0 ==> forall o :: 0 <= o < nOutputs ==> s.outputThresholds[o] == 0.0
  {
    Connected(Zeroed(nInputs, nHidden, nOutputs), rnd)
  }

  // ---------------------------------------------------------------------
  // LearningRate and Input

  /** The state after `LearningRate(lr)`: the rate changes exactly when
      0 < lr < 1. */
  function WithLearningRate(s: NetState, lr: real): (t: NetState)
    ensures t.learningRate == (if 0.0 < lr < 1.0 then lr else s.learningRate)
    ensures t.(learningRate := s.learningRate) == s
  {
    if 0.0 < lr && lr < 1.0 then s.(learningRate := lr) else s
  }

  /** The state after `Input(v)`: the vector is copied in when its length
      is the number of inputs, and nothing changes otherwise. */
  function LoadInputs(s: NetState, v: seq<real>): (t: NetState)
    ensures |v| == |s.inputs| ==> t.inputs == v
    ensures |v| != |s.inputs| ==> t == s
    ensures t.(inputs := s.inputs) == s
    ensures WellFormed(s) ==> WellFormed(t)
  {
    if |v| == |s.inputs| then s.(inputs := v) else s
  }

  // ---------------------------------------------------------------------
  // Activate

  /** Σ_{r < n} w[r][col] * x[r], summed in index order. */
  function WeightedSum(w: seq<seq<real>>, x: seq<real>, col: nat, n: nat): real
    requires n <= |x| && n <= |w|
    requires forall r :: 0 <= r < n ==> col < |w[r]|
  {
    if n == 0 then 0.0 else WeightedSum(w, x, col, n - 1) + w[n - 1][col] * x[n - 1]
  }

  /** A unit whose inputs are all zero receives a zero weighted sum,
      whatever the weights. */
  lemma {:induction false} WeightedSumOfZeros(w: seq<seq<real>>, x: seq<real>, col: nat, n: nat)
    requires n <= |x| && n <= |w|
    requires forall r :: 0 <= r < n ==> col < |w[r]|
    requires forall r :: 0 <= r < n ==> x[r] == 0.0
    ensures WeightedSum(w, x, col, n) == 0.0
  {
    if n > 0 {
      WeightedSumOfZeros(w, x, col, n - 1);
    }
  }

  /** The activation of hidden unit h for the current inputs. */
  function HiddenActivation(s: NetState, h: nat): (a: real)
    requires WellFormed(s) && h < |s.hidden|
    ensures 0.0 < a < 1.0
  {
    Sigmoid(WeightedSum(s.inputWeights, s.inputs, h, |s.inputs|) - s.hiddenThresholds[h])
  }

  /** The activation of output o when the hidden layer holds `hid`. */
  function OutputActivation(s: NetState, hid: seq<real>, o: nat): (a: real)
    requires WellFormed(s) && |hid| == |s.hidden| && o < |s.outputs|
    ensures 0.0 < a < 1.0
  {
    Sigmoid(WeightedSum(s.hiddenWeights, hid, o, |hid|) - s.outputThresholds[o])
  }

  /** The first n hidden activations, unit by unit. */
  function HiddenLayer(s: NetState, n: nat): (r: seq<real>)
    requires WellFormed(s) && n <= |s.hidden|
    ensures |r| == n
    ensures forall h :: 0 <= h < n ==> 0.0 < r[h] < 1.0
  {
    if n == 0 then [] else HiddenLayer(s, n - 1) + [HiddenActivation(s, n - 1)]
  }

  /** The first n output activations when the hidden layer holds `hid`. */
  function OutputLayer(s: NetState, hid: seq<real>, n: nat): (r: seq<real>)
    requires WellFormed(s) && |hid| == |s.hidden| && n <= |s.outputs|
    ensures |r| == n
    ensures forall o :: 0 <= o < n ==> 0.0 < r[o] < 1.0
  {
    if n == 0 then [] else OutputLayer(s, hid, n - 1) + [OutputActivation(s, hid, n - 1)]
  }

  lemma {:induction false} HiddenLayerAt(s: NetState, n: nat, h: nat)
    requires WellFormed(s) && h < n <= |s.hidden|
    ensures HiddenLayer(s, n)[h] == HiddenActivation(s, h)
  {
    if h < n - 1 {
      HiddenLayerAt(s, n - 1, h);
    }
  }

  lemma {:induction false} OutputLayerAt(s: NetState, hid: seq<real>, n: nat, o: nat)
    requires WellFormed(s) && |hid| == |s.hidden| && o < n <= |s.outputs|
    ensures OutputLayer(s, hid, n)[o] == OutputActivation(s, hid, o)
  {
    if o < n - 1 {
      OutputLayerAt(s, hid, n - 1, o);
    }
  }

  /** The state after `Activate`: the hidden layer from the inputs, the
      outputs from the new hidden layer; nothing else changes. */
  function Forward(s: NetState): (t: NetState)
    requires WellFormed(s)
    ensures WellFormed(t) && SameShape(s, t) && SameParameters(s, t) && t.inputs == s.inputs
    ensures forall h :: 0 <= h < |t.hidden| ==> 0.0 < t.hidden[h] < 1.0
    ensures forall o :: 0 <= o < |t.outputs| ==> 0.0 < t.outputs[o] < 1.0
  {
    var hid := HiddenLayer(s, |s.hidden|);
    s.(hidden := hid, outputs := OutputLayer(s, hid, |s.outputs|))
  }

  /** After `Activate`, hidden unit h holds the sigmoid of its weighted
      inputs less its threshold, and output o the sigmoid of its weighted
      new hidden activations less its threshold. */
  lemma ForwardUnits(s: NetState)
    requires WellFormed(s)
    ensures forall h :: 0 <= h < |s.hidden| ==> Forward(s).hidden[h] == HiddenActivation(s, h)
    ensures forall o :: 0 <= o < |s.outputs| ==>
      Forward(s).outputs[o] == OutputActivation(s, Forward(s).hidden, o)
  {
    forall h | 0 <= h < |s.hidden| ensures Forward(s).hidden[h] == HiddenActivation(s, h) {
      HiddenLayerAt(s, |s.hidden|, h);
    }
    forall o | 0 <= o < |s.outputs| ensures Forward(s).outputs[o] == OutputActivation(s, Forward(s).hidden, o) {
      OutputLayerAt(s, Forward(s).hidden, |s.outputs|, o);
    }
  }

  /** Activation is a function of inputs, weights and thresholds alone:
      activating twice gives what activating once gives. */
  /** With every input at zero, each hidden unit's activation depends on
      its threshold alone: it is the sigmoid of minus the threshold. */
  lemma ForwardOfZeroInputs(s: NetState)
    requires WellFormed(s)
    requires forall i :: 0 <= i < |s.inputs| ==> s.inputs[i] == 0.0
    ensures forall h :: 0 <= h < |s.hidden| ==> Forward(s).hidden[h] == Sigmoid(-s.hiddenThresholds[h])
  {
    ForwardUnits(s);
    forall h | 0 <= h < |s.hidden|
      ensures Forward(s).hidden[h] == Sigmoid(-s.hiddenThresholds[h])
    {
      WeightedSumOfZeros(s.inputWeights, s.inputs, h, |s.inputs|);
    }
  }

  lemma ForwardIdempotent(s: NetState)
    requires WellFormed(s)
    ensures Forward(Forward(s)) == Forward(s)
  {
    var t := Forward(s);
    var u := Forward(t);
    ForwardUnits(s);
    ForwardUnits(t);
    assert u.hidden == t.hidden by {
      forall h | 0 <= h < |t.hidden| ensures u.hidden[h] == t.hidden[h] {
        assert HiddenActivation(t, h) == HiddenActivation(s, h);
      }
    }
    assert u.outputs == t.outputs by {
      forall o | 0 <= o < |t.outputs| ensures u.outputs[o] == t.outputs[o] {
        assert OutputActivation(t, u.hidden, o) == OutputActivation(s, t.hidden, o);
      }
    }
  }

  // ---------------------------------------------------------------------
  // Train

  predicate Trainable(s: NetState, e: seq<real>)
  {
    WellFormed(s) && |e| == |s.outputs|
  }

  /** The output unit's gradient: sigmoid derivative times its error. */
  function OutputGradient(s: NetState, e: seq<real>, o: nat): (g: real)
    requires Trainable(s, e) && o < |s.outputs|
    ensures e[o] == s.outputs[o] ==> g == 0.0
    ensures 0.0 < s.outputs[o] < 1.0 ==> (g == 0.0 <==> e[o] == s.outputs[o])
  {
    var y, d := s.outputs[o], e[o] - s.outputs[o];
    if 0.0 < y < 1.0 && d != 0.0 then
      ProductNonZero(y, 1.0 - y, y * (1.0 - y));
      ProductNonZero(y * (1.0 - y), d, y * (1.0 - y) * d);
      y * (1.0 - y) * d
    else y * (1.0 - y) * d
  }

  /** hiddenWeights[h][o] once step (o, h) of the backward pass has added
      its delta: each such weight is written exactly once per Train. */
  function UpdatedHiddenWeight(s: NetState, e: seq<real>, h: nat, o: nat): (w: real)
    requires Trainable(s, e) && h < |s.hidden| && o < |s.outputs|
    ensures e[o] == s.outputs[o] ==> w == s.hiddenWeights[h][o]
  {
    s.hiddenWeights[h][o] + s.learningRate * s.hidden[h] * OutputGradient(s, e, o)
  }

  /** The hidden unit's gradient at step (o, h). It reads the hidden-to-
      output weight AFTER that step has updated it. */
  function HiddenGradient(s: NetState, e: seq<real>, h: nat, o: nat): (g: real)
    requires Trainable(s, e) && h < |s.hidden| && o < |s.outputs|
    ensures e[o] == s.outputs[o] ==> g == 0.0
  {
    s.hidden[h] * (1.0 - s.hidden[h]) * OutputGradient(s, e, o) * UpdatedHiddenWeight(s, e, h, o)
  }

  /** The gradient textbook backpropagation uses, on the weight before
      the update. */
  function PreUpdateHiddenGradient(s: NetState, e: seq<real>, h: nat, o: nat): real
    requires Trainable(s, e) && h < |s.hidden| && o < |s.outputs|
  {
    s.hidden[h] * (1.0 - s.hidden[h]) * OutputGradient(s, e, o) * s.hiddenWeights[h][o]
  }

  /** The sum of the deltas steps (0, h) .. (k-1, h) add to inputWeights[i][h]. */
  function InputWeightShift(s: NetState, e: seq<real>, i: nat, h: nat, k: nat): real
    requires Trainable(s, e) && i < |s.inputs| && h < |s.hidden| && k <= |s.outputs|
  {
    if k == 0 then 0.0
    else InputWeightShift(s, e, i, h, k - 1) + s.learningRate * s.inputs[i] * HiddenGradient(s, e, h, k - 1)
  }

  /** The sum of the deltas steps (0, h) .. (k-1, h) add to hiddenThresholds[h]. */
  function HiddenThresholdShift(s: NetState, e: seq<real>, h: nat, k: nat): real
    requires Trainable(s, e) && h < |s.hidden| && k <= |s.outputs|
  {
    if k == 0 then 0.0
    else HiddenThresholdShift(s, e, h, k - 1) + s.learningRate * HiddenGradient(s, e, h, k - 1) * -1.0
  }

  /** One more output step adds its delta to the shifts; lr, x and g
      stand for the rate, the input and the hidden gradient. */
  lemma InputShiftStep(s: NetState, e: seq<real>, i: nat, h: nat, o: nat, lr: real, x: real, g: real)
    requires Trainable(s, e) && i < |s.inputs| && h < |s.hidden| && o < |s.outputs|
    requires lr == s.learningRate && x == s.inputs[i] && g == HiddenGradient(s, e, h, o)
    ensures InputWeightShift(s, e, i, h, o + 1) == InputWeightShift(s, e, i, h, o) + lr * x * g
  { }

  lemma ThresholdShiftStep(s: NetState, e: seq<real>, h: nat, o: nat, lr: real, g: real)
    requires Trainable(s, e) && h < |s.hidden| && o < |s.outputs|
    requires lr == s.learningRate && g == HiddenGradient(s, e, h, o)
    ensures HiddenThresholdShift(s, e, h, o + 1) == HiddenThresholdShift(s, e, h, o) + lr * g * -1.0
  { }

  /** x², as `math.Pow(x, 2)` computes it. */
  function Square(x: real): real
  {
    x * x
  }

  /** Σ_{o < k} (e[o] - outputs[o])², summed in index order. */
  function SquaredError(s: NetState, e: seq<real>, k: nat): (r: real)
    requires k <= |s.outputs| && k <= |e|
    ensures r >= 0.0
  {
    if k == 0 then 0.0
    else
      SquareZeroIff(e[k - 1] - s.outputs[k - 1]);
      SquaredError(s, e, k - 1) + Square(e[k - 1] - s.outputs[k - 1])
  }

  /** The error `Train(e)` returns. */
  function TrainError(s: NetState, e: seq<real>): (r: real)
    requires |e| == |s.outputs|
    ensures r >= 0.0
  {
    SquaredError(s, e, |s.outputs|)
  }

  /** The state after `Train(e)`, one online backpropagation step. Only
      weights and thresholds change; inputs, activations, the rate and
      every dimension stay as they were. */
  function Trained(s: NetState, e: seq<real>): (t: NetState)
    requires Trainable(s, e)
    ensures WellFormed(t) && SameShape(s, t)
    ensures t.inputs == s.inputs && t.hidden == s.hidden && t.outputs == s.outputs
    ensures t.learningRate == s.learningRate
  {
    var nI, nH, nO := |s.inputs|, |s.hidden|, |s.outputs|;
    s.(
      inputWeights := seq(nI, i requires 0 <= i < nI => seq(nH, h requires 0 <= h < nH =>
        s.inputWeights[i][h] + InputWeightShift(s, e, i, h, nO))),
      hiddenWeights := seq(nH, h requires 0 <= h < nH => seq(nO, o requires 0 <= o < nO =>
        UpdatedHiddenWeight(s, e, h, o))),
      hiddenThresholds := seq(nH, h requires 0 <= h < nH =>
        s.hiddenThresholds[h] + HiddenThresholdShift(s, e, h, nO)),
      outputThresholds := seq(nO, o requires 0 <= o < nO =>
        s.outputThresholds[o] + s.learningRate * OutputGradient(s, e, o) * -1.0))
  }

  /** The hidden gradient differs from the textbook one by exactly the
      contribution of the weight update made just before it. */
  lemma HiddenGradientReadsUpdatedWeight(s: NetState, e: seq<real>, h: nat, o: nat)
    requires Trainable(s, e) && h < |s.hidden| && o < |s.outputs|
    ensures HiddenGradient(s, e, h, o)
         == PreUpdateHiddenGradient(s, e, h, o)
          + s.hidden[h] * (1.0 - s.hidden[h]) * OutputGradient(s, e, o)
            * (s.learningRate * s.hidden[h] * OutputGradient(s, e, o))
  {
    var c := s.hidden[h] * (1.0 - s.hidden[h]) * OutputGradient(s, e, o);
    var d := s.learningRate * s.hidden[h] * OutputGradient(s, e, o);
    assert HiddenGradient(s, e, h, o) == c * (s.hiddenWeights[h][o] + d);
  }

  // Z3 loses the link between a square and its value when the square
  // reaches it through a function's definition, so the three facts
  // below take the square as a separate parameter.
  lemma ProductWithSelfNonNegative(x: real, q: real)
    requires q == x * x
    ensures q >= 0.0
  { }

  lemma ProductNonZero(x: real, y: real, q: real)
    requires q == x * y
    requires x != 0.0
    requires y != 0.0
    ensures q != 0.0
  { }

  lemma ProductWithSelfZero(x: real, q: real)
    requires q == x * x
    requires x == 0.0
    ensures q == 0.0
  { }

  lemma SquareZeroIff(d: real)
    ensures Square(d) >= 0.0
    ensures Square(d) == 0.0 <==> d == 0.0
  {
    ProductWithSelfNonNegative(d, Square(d));
    if d != 0.0 {
      ProductNonZero(d, d, Square(d));
    } else {
      ProductWithSelfZero(d, Square(d));
    }
  }

  /** The squared error over the first k outputs is zero exactly when the
      expected values equal the outputs there. */
  lemma {:induction false} SquaredErrorZeroIff(s: NetState, e: seq<real>, k: nat)
    requires k <= |s.outputs| && k <= |e|
    ensures SquaredError(s, e, k) == 0.0 <==> e[..k] == s.outputs[..k]
  {
    if k > 0 {
      SquaredErrorZeroIff(s, e, k - 1);
      var d := e[k - 1] - s.outputs[k - 1];
      SquareZeroIff(d);
      assert e[..k] == e[..k - 1] + [e[k - 1]];
      assert s.outputs[..k] == s.outputs[..k - 1] + [s.outputs[k - 1]];
      if e[..k] == s.outputs[..k] {
        assert e[..k - 1] == e[..k][..k - 1];
        assert s.outputs[..k - 1] == s.outputs[..k][..k - 1];
        assert e[k - 1] == e[..k][k - 1];
      }
    }
  }

  /** With zero output error every gradient vanishes, so the shifts of
      the first k output steps are zero. */
  lemma {:induction false} InputShiftVanishes(s: NetState, i: nat, h: nat, k: nat)
    requires Trainable(s, s.outputs) && i < |s.inputs| && h < |s.hidden| && k <= |s.outputs|
    ensures InputWeightShift(s, s.outputs, i, h, k) == 0.0
  {
    if k > 0 {
      InputShiftVanishes(s, i, h, k - 1);
      assert OutputGradient(s, s.outputs, k - 1) == 0.0;
      assert HiddenGradient(s, s.outputs, h, k - 1) == 0.0;
    }
  }

  lemma {:induction false} ThresholdShiftVanishes(s: NetState, h: nat, k: nat)
    requires Trainable(s, s.outputs) && h < |s.hidden| && k <= |s.outputs|
    ensures HiddenThresholdShift(s, s.outputs, h, k) == 0.0
  {
    if k > 0 {
      ThresholdShiftVanishes(s, h, k - 1);
      assert OutputGradient(s, s.outputs, k - 1) == 0.0;
      assert HiddenGradient(s, s.outputs, h, k - 1) == 0.0;
    }
  }

  /** Training towards the outputs the network already produces changes
      nothing and reports no error. */
  lemma TrainFixedPoint(s: NetState)
    requires WellFormed(s)
    ensures Trained(s, s.outputs) == s
    ensures TrainError(s, s.outputs) == 0.0
  {
    var e := s.outputs;
    var t := Trained(s, e);
    SquaredErrorZeroIff(s, e, |e|);
    assert e[..|e|] == s.outputs[..|e|];
    forall o | 0 <= o < |s.outputs| ensures OutputGradient(s, e, o) == 0.0 { }
    assert t.hiddenWeights == s.hiddenWeights by {
      forall h | 0 <= h < |s.hidden| ensures t.hiddenWeights[h] == s.hiddenWeights[h] {
        forall o | 0 <= o < |s.outputs| ensures t.hiddenWeights[h][o] == s.hiddenWeights[h][o] {
          assert OutputGradient(s, e, o) == 0.0;
        }
      }
    }
    assert t.outputThresholds == s.outputThresholds by {
      forall o | 0 <= o < |s.outputs| ensures t.outputThresholds[o] == s.outputThresholds[o] {
        assert OutputGradient(s, e, o) == 0.0;
      }
    }
    assert t.hiddenThresholds == s.hiddenThresholds by {
      forall h | 0 <= h < |s.hidden| ensures t.hiddenThresholds[h] == s.hiddenThresholds[h] {
        ThresholdShiftVanishes(s, h, |s.outputs|);
      }
    }
    assert t.inputWeights == s.inputWeights by {
      forall i | 0 <= i < |s.inputs| ensures t.inputWeights[i] == s.inputWeights[i] {
        forall h | 0 <= h < |s.hidden| ensures t.inputWeights[i][h] == s.inputWeights[i][h] {
          InputShiftVanishes(s, i, h, |s.outputs|);
        }
      }
    }
  }

  /** The squared error reads only the outputs. */
  lemma {:induction false} SquaredErrorOfOutputs(s: NetState, t: NetState, e: seq<real>, k: nat)
    requires k <= |s.outputs| && k <= |e| && t.outputs == s.outputs
    ensures SquaredError(t, e, k) == SquaredError(s, e, k)
  {
    if k > 0 {
      SquaredErrorOfOutputs(s, t, e, k - 1);
    }
  }

  /** `Train` does not re-activate the network, so training twice in a
      row on the same expected values reports the same error twice. */
  lemma RetrainSameError(s: NetState, e: seq<real>)
    requires Trainable(s, e)
    ensures TrainError(Trained(s, e), e) == TrainError(s, e)
  {
    SquaredErrorOfOutputs(s, Trained(s, e), e, |e|);
  }

  /** The error is zero exactly when the outputs already are the
      expected values, and positive otherwise. */
  lemma TrainErrorZeroIff(s: NetState, e: seq<real>)
    requires |e| == |s.outputs|
    ensures TrainError(s, e) >= 0.0
    ensures TrainError(s, e) == 0.0 <==> e == s.outputs
  {
    SquaredErrorZeroIff(s, e, |e|);
    assert e[..|e|] == e && s.outputs[..|e|] == s.outputs;
  }
}
