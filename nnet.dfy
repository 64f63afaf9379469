/** The `nnet` package's NeuralNetwork: a fixed-shape aggregate of
    buffers updated in place. Each method is proved against the function
    of module NNetSpec that gives the state it leaves behind. */
module NNet {
  import opened NNetSpec

  /** A 2-D array as a sequence of rows. */
  ghost function Rows(m: array2<real>): (r: seq<seq<real>>)
    reads m
    ensures IsMatrix(r, m.Length0, m.Length1)
    ensures forall i, j :: 0 <= i < m.Length0 && 0 <= j < m.Length1 ==> r[i][j] == m[i, j]
  {
    seq(m.Length0, i requires 0 <= i < m.Length0 reads m =>
      seq(m.Length1, j requires 0 <= j < m.Length1 reads m => m[i, j]))
  }

  lemma RowsAre(m: array2<real>, f: seq<seq<real>>)
    requires IsMatrix(f, m.Length0, m.Length1)
    requires forall i, j :: 0 <= i < m.Length0 && 0 <= j < m.Length1 ==> f[i][j] == m[i, j]
    ensures Rows(m) == f
  {
    var r := Rows(m);
    forall i | 0 <= i < m.Length0 ensures r[i] == f[i] { }
  }

  /** `initMatrix(x, y)`: an x-by-y matrix of zeros. */
  method InitMatrix(x: nat, y: nat) returns (m: array2<real>)
    ensures fresh(m) && m.Length0 == x && m.Length1 == y
    ensures forall i, j :: 0 <= i < x && 0 <= j < y ==> m[i, j] == 0.0
  {
    m := new real[x, y]((_, _) => 0.0);
  }

  class NeuralNetwork {
    const inputs: array<real>
    const inputWeights: array2<real>
    const hidden: array<real>
    const hiddenThresholds: array<real>
    const hiddenWeights: array2<real>
    const outputs: array<real>
    const outputThresholds: array<real>
    var learningRate: real

    /** The buffers have matching sizes and are distinct objects. */
    ghost predicate Valid()
    {
      && inputWeights.Length0 == inputs.Length && inputWeights.Length1 == hidden.Length
      && hiddenThresholds.Length == hidden.Length
      && hiddenWeights.Length0 == hidden.Length && hiddenWeights.Length1 == outputs.Length
      && outputThresholds.Length == outputs.Length
      && inputs != hidden && inputs != hiddenThresholds && inputs != outputs && inputs != outputThresholds
      && hidden != hiddenThresholds && hidden != outputs && hidden != outputThresholds
      && hiddenThresholds != outputs && hiddenThresholds != outputThresholds
      && outputs != outputThresholds
      && inputWeights != hiddenWeights
    }

    /** The network's buffers as a value. */
    ghost function State(): (s: NetState)
      requires Valid()
      reads this, inputs, inputWeights, hidden, hiddenThresholds, hiddenWeights, outputs, outputThresholds
      ensures WellFormed(s)
      ensures |s.inputs| == inputs.Length && |s.hidden| == hidden.Length && |s.outputs| == outputs.Length
    {
      NetState(inputs[..], Rows(inputWeights), hidden[..], hiddenThresholds[..],
               Rows(hiddenWeights), outputs[..], outputThresholds[..], learningRate)
    }

    /** `New(nInputs, nHidden, nOutputs)`, where rnd(k) is the k-th value
        the generator hands to `connect`. */
    constructor (nInputs: nat, nHidden: nat, nOutputs: nat, rnd: nat -> real)
      requires NonZeroDraws(rnd)
      ensures Valid()
      ensures fresh(inputs) && fresh(inputWeights) && fresh(hidden) && fresh(hiddenThresholds)
      ensures fresh(hiddenWeights) && fresh(outputs) && fresh(outputThresholds)
      ensures State() == Created(nInputs, nHidden, nOutputs, rnd)
    {
      inputs := new real[nInputs](_ => 0.0);
      hidden := new real[nHidden](_ => 0.0);
      hiddenThresholds := new real[nHidden](_ => 0.0);
      outputs := new real[nOutputs](_ => 0.0);
      outputThresholds := new real[nOutputs](_ => 0.0);
      var iw := InitMatrix(nInputs, nHidden);
      var hw := InitMatrix(nHidden, nOutputs);
      inputWeights := iw;
      hiddenWeights := hw;
      learningRate := DefaultLearningRate;
      new;
      var z := Zeroed(nInputs, nHidden, nOutputs);
      assert inputs[..] == z.inputs && hidden[..] == z.hidden && outputs[..] == z.outputs;
      assert hiddenThresholds[..] == z.hiddenThresholds && outputThresholds[..] == z.outputThresholds;
      RowsAre(inputWeights, z.inputWeights);
      RowsAre(hiddenWeights, z.hiddenWeights);
      assert State() == z;
      Connect(rnd);
    }

    /** `connect`: draws every weight and threshold from the generator,
        in the order the nested loops visit them. */
    method Connect(rnd: nat -> real)
      requires Valid() && NonZeroDraws(rnd)
      modifies inputWeights, hiddenWeights, hiddenThresholds, outputThresholds
      ensures State() == Connected(old(State()), rnd)
    {
      ConnectInputWeights(rnd);
      ConnectHiddenUnits(rnd);
      ConnectedByEntries(old(State()), rnd, Rows(inputWeights), Rows(hiddenWeights),
                         hiddenThresholds[..], outputThresholds[..]);
    }

    /** The second loop nest of `connect`: one pass per hidden unit. The
        output thresholds are redrawn on every pass, so the last pass's
        draws are the ones that remain. */
    method ConnectHiddenUnits(rnd: nat -> real)
      requires Valid() && NonZeroDraws(rnd)
      modifies hiddenWeights, hiddenThresholds, outputThresholds
      ensures forall h, o :: 0 <= h < hidden.Length && 0 <= o < outputs.Length ==>
        hiddenWeights[h, o] == rnd(HiddenDrawBase(inputs.Length, hidden.Length, outputs.Length, h) + 3 * o)
      ensures forall h :: 0 <= h < hidden.Length ==>
        hiddenThresholds[h] == DrawnRatio(rnd, HiddenDrawBase(inputs.Length, hidden.Length, outputs.Length, h) + 3 * outputs.Length)
      ensures hidden.Length == 0 ==> outputThresholds[..] == old(outputThresholds[..])
      ensures hidden.Length > 0 ==> forall o :: 0 <= o < outputs.Length ==>
        outputThresholds[o] == DrawnRatio(rnd, HiddenDrawBase(inputs.Length, hidden.Length, outputs.Length, hidden.Length - 1) + 3 * o + 1)
    {
      var nI, nH, nO := inputs.Length, hidden.Length, outputs.Length;
      var h := 0;
      while h < nH
        invariant 0 <= h <= nH
        invariant forall h', o :: 0 <= h' < h && 0 <= o < nO ==>
          hiddenWeights[h', o] == rnd(HiddenDrawBase(nI, nH, nO, h') + 3 * o)
        invariant forall h' :: 0 <= h' < h ==>
          hiddenThresholds[h'] == DrawnRatio(rnd, HiddenDrawBase(nI, nH, nO, h') + 3 * nO)
        invariant h == 0 ==> outputThresholds[..] == old(outputThresholds[..])
        invariant h > 0 ==> forall o :: 0 <= o < nO ==>
          outputThresholds[o] == DrawnRatio(rnd, HiddenDrawBase(nI, nH, nO, h - 1) + 3 * o + 1)
      {
        ConnectHiddenUnit(rnd, h);
        h := h + 1;
      }
    }

    /** The first loop nest of `connect`: the input weights, row by row. */
    method ConnectInputWeights(rnd: nat -> real)
      requires Valid()
      modifies inputWeights
      ensures forall i, h :: 0 <= i < inputs.Length && 0 <= h < hidden.Length ==>
        inputWeights[i, h] == rnd(InputDraw(hidden.Length, i, h))
    {
      var nI, nH := inputs.Length, hidden.Length;
      var k := 0;
      var i := 0;
      while i < nI
        invariant 0 <= i <= nI
        invariant k == InputDraw(nH, i, 0)
        invariant forall i', h :: 0 <= i' < i && 0 <= h < nH ==> inputWeights[i', h] == rnd(InputDraw(nH, i', h))
      {
        var h := 0;
        while h < nH
          invariant 0 <= h <= nH
          invariant k == InputDraw(nH, i, h)
          invariant forall i', h' :: 0 <= i' < i && 0 <= h' < nH ==> inputWeights[i', h'] == rnd(InputDraw(nH, i', h'))
          invariant forall h' :: 0 <= h' < h ==> inputWeights[i, h'] == rnd(InputDraw(nH, i, h'))
        {
          inputWeights[i, h] := rnd(k);
          k := k + 1;
          h := h + 1;
        }
        InputDrawNextRow(nH, i);
        i := i + 1;
      }
    }

    /** One pass of the second loop nest of `connect`: hidden unit h draws
        its outgoing weights and a threshold for every output, three draws
        per output, then a threshold of its own. */
    method ConnectHiddenUnit(rnd: nat -> real, h: nat)
      requires Valid() && NonZeroDraws(rnd) && h < hidden.Length
      modifies hiddenWeights, hiddenThresholds, outputThresholds
      ensures forall h', o :: 0 <= h' < hidden.Length && 0 <= o < outputs.Length ==>
        hiddenWeights[h', o] ==
          if h' == h then rnd(HiddenDrawBase(inputs.Length, hidden.Length, outputs.Length, h) + 3 * o)
          else old(hiddenWeights[h', o])
      ensures forall o :: 0 <= o < outputs.Length ==>
        outputThresholds[o] == DrawnRatio(rnd, HiddenDrawBase(inputs.Length, hidden.Length, outputs.Length, h) + 3 * o + 1)
      ensures forall h' :: 0 <= h' < hidden.Length ==>
        hiddenThresholds[h'] ==
          if h' == h then DrawnRatio(rnd, HiddenDrawBase(inputs.Length, hidden.Length, outputs.Length, h) + 3 * outputs.Length)
          else old(hiddenThresholds[h'])
    {
      var nO := outputs.Length;
      var k := HiddenDrawBase(inputs.Length, hidden.Length, nO, h);
      ghost var base := k;
      var o := 0;
      while o < nO
        modifies hiddenWeights, outputThresholds
        invariant 0 <= o <= nO
        invariant k == base + 3 * o
        invariant forall h', o' :: 0 <= h' < hidden.Length && 0 <= o' < nO ==>
          hiddenWeights[h', o'] == if h' == h && o' < o then rnd(base + 3 * o') else old(hiddenWeights[h', o'])
        invariant forall o' :: 0 <= o' < o ==> outputThresholds[o'] == DrawnRatio(rnd, base + 3 * o' + 1)
      {
        hiddenWeights[h, o] := rnd(k);
        outputThresholds[o] := rnd(k + 1) / rnd(k + 2);
        assert outputThresholds[o] == DrawnRatio(rnd, k + 1);
        k := k + 3;
        o := o + 1;
      }
      hiddenThresholds[h] := rnd(k) / rnd(k + 1);
      assert hiddenThresholds[h] == DrawnRatio(rnd, k);
    }

    /** `LearningRate(lr)`: returns the rate in force before the call and
        adopts lr only when 0 < lr < 1. */
    method LearningRate(lr: real) returns (current: real)
      requires Valid()
      modifies this
      ensures current == old(learningRate)
      ensures State() == WithLearningRate(old(State()), lr)
    {
      current := learningRate;
      if lr > 0.0 && lr < 1.0 {
        learningRate := lr;
      }
    }

    /** `Input(v)`: copies v into the input buffer; fails, changing
        nothing, when v has the wrong length. */
    method Input(v: seq<real>) returns (ok: bool)
      requires Valid()
      modifies inputs
      ensures ok <==> |v| == inputs.Length
      ensures State() == LoadInputs(old(State()), v)
    {
      if |v| != inputs.Length {
        return false;
      }
      var i := 0;
      while i < |v|
        invariant 0 <= i <= |v|
        invariant forall j :: 0 <= j < i ==> inputs[j] == v[j]
      {
        inputs[i] := v[i];
        i := i + 1;
      }
      assert inputs[..] == v;
      return true;
    }

    /** `Activate`: recomputes the hidden layer from the inputs, then the
        outputs from the new hidden layer. */
    method Activate()
      requires Valid()
      modifies hidden, outputs
      ensures State() == Forward(old(State()))
    {
      ghost var s0 := State();
      ActivateHidden();
      ghost var s1 := State();
      assert s1 == s0.(hidden := Forward(s0).hidden);
      ActivateOutputs();
      ForwardUnits(s0);
      assert outputs[..] == Forward(s0).outputs by {
        forall o | 0 <= o < outputs.Length ensures outputs[o] == Forward(s0).outputs[o] {
          assert OutputActivation(s1, s1.hidden, o) == OutputActivation(s0, s1.hidden, o);
        }
      }
    }

    /** The first loop of `Activate`: every hidden unit from the inputs. */
    method ActivateHidden()
      requires Valid()
      modifies hidden
      ensures hidden[..] == Forward(old(State())).hidden
    {
      ghost var s0 := State();
      var h := 0;
      while h < hidden.Length
        invariant 0 <= h <= hidden.Length
        invariant forall h' :: 0 <= h' < h ==> hidden[h'] == HiddenActivation(s0, h')
      {
        var weighted := 0.0;
        var i := 0;
        while i < inputs.Length
          invariant 0 <= i <= inputs.Length
          invariant weighted == WeightedSum(s0.inputWeights, s0.inputs, h, i)
        {
          weighted := weighted + inputWeights[i, h] * inputs[i];
          i := i + 1;
        }
        weighted := weighted - hiddenThresholds[h];
        hidden[h] := Sigmoid(weighted);
        h := h + 1;
      }
      ForwardUnits(s0);
    }

    /** The second loop of `Activate`: every output from the hidden layer. */
    method ActivateOutputs()
      requires Valid()
      modifies outputs
      ensures forall o :: 0 <= o < outputs.Length ==>
        outputs[o] == OutputActivation(old(State()), old(hidden[..]), o)
    {
      ghost var s0 := State();
      var o := 0;
      while o < outputs.Length
        invariant 0 <= o <= outputs.Length
        invariant forall o' :: 0 <= o' < o ==> outputs[o'] == OutputActivation(s0, s0.hidden, o')
      {
        var weighted := 0.0;
        var h := 0;
        while h < hidden.Length
          invariant 0 <= h <= hidden.Length
          invariant weighted == WeightedSum(s0.hiddenWeights, s0.hidden, o, h)
        {
          weighted := weighted + hiddenWeights[h, o] * hidden[h];
          h := h + 1;
        }
        weighted := weighted - outputThresholds[o];
        outputs[o] := Sigmoid(weighted);
        o := o + 1;
      }
    }

    /** `Train(e)`: one backpropagation step towards the expected outputs
        e, returning the squared error; fails, changing nothing and
        returning 0, when e has the wrong length. For each output o, and
        within it each hidden unit h, the hidden-to-output weight is
        updated first and the hidden gradient then reads the new weight. */
    method Train(e: seq<real>) returns (sos: real, ok: bool)
      requires Valid()
      modifies inputWeights, hiddenWeights, hiddenThresholds, outputThresholds
      ensures ok <==> |e| == outputs.Length
      ensures !ok ==> sos == 0.0 && State() == old(State())
      ensures ok ==> Trainable(old(State()), e)
      ensures ok ==> State() == Trained(old(State()), e) && sos == TrainError(old(State()), e)
    {
      if |e| != outputs.Length {
        return 0.0, false;
      }
      ghost var s0 := State();
      sos := TrainOutputUnits(e, s0);
      StepsDoneIsTrained(s0, e);
      return sos, true;
    }

    /** The outer loop of `Train(e)`, started from s0: every output in turn,
        summing the squared errors. */
    method TrainOutputUnits(e: seq<real>, ghost s0: NetState) returns (sos: real)
      requires Valid() && |e| == outputs.Length && s0 == State()
      modifies inputWeights, hiddenWeights, hiddenThresholds, outputThresholds
      ensures Tracks(s0, e) && sos == TrainError(s0, e)
      ensures StepsDone(s0, e, outputs.Length, 0)
    {
      sos := 0.0;
      var o := 0;
      while o < outputs.Length
        invariant 0 <= o <= outputs.Length
        invariant sos == SquaredError(s0, e, o)
        invariant StepsDone(s0, e, o, 0)
      {
        var sq := TrainOutputUnit(o, e, s0);
        sos := sos + sq;
        o := o + 1;
      }
    }

    /** Once every output has been processed, the buffers hold the state
        `Trained` gives. */
    lemma StepsDoneIsTrained(s0: NetState, e: seq<real>)
      requires Tracks(s0, e) && StepsDone(s0, e, outputs.Length, 0)
      requires s0.inputs == inputs[..] && s0.hidden == hidden[..] && s0.outputs == outputs[..]
      requires s0.learningRate == learningRate
      ensures State() == Trained(s0, e)
    {
      var t := Trained(s0, e);
      var o := outputs.Length;
      assert InputWeightsAt(s0, e, o, 0);
      RowsAre(inputWeights, t.inputWeights);
      assert HiddenWeightsAt(s0, e, o, 0);
      RowsAre(hiddenWeights, t.hiddenWeights);
      assert HiddenThresholdsAt(s0, e, o, 0);
      assert hiddenThresholds[..] == t.hiddenThresholds;
      assert OutputThresholdsAt(s0, e, o);
      assert outputThresholds[..] == t.outputThresholds by {
        forall o' | 0 <= o' < outputs.Length ensures outputThresholds[o'] == t.outputThresholds[o'] { }
      }
    }

    /** s0 is a state of this network's shape and e fits its outputs. */
    ghost predicate Tracks(s0: NetState, e: seq<real>)
      reads this
    {
      && Valid() && Trainable(s0, e)
      && |s0.inputs| == inputs.Length && |s0.hidden| == hidden.Length && |s0.outputs| == outputs.Length
    }

    // Where `Train(e)`, started from s0, stands once it has finished the
    // outputs before o and, for output o, the hidden units before h.

    ghost predicate HiddenWeightsAt(s0: NetState, e: seq<real>, o: nat, h: nat)
      requires Tracks(s0, e) && o <= outputs.Length
      reads this, hiddenWeights
    {
      forall h', o' :: 0 <= h' < hidden.Length && 0 <= o' < outputs.Length ==>
        hiddenWeights[h', o'] ==
          if o' < o || (o' == o && h' < h) then UpdatedHiddenWeight(s0, e, h', o') else s0.hiddenWeights[h'][o']
    }

    ghost predicate InputWeightsAt(s0: NetState, e: seq<real>, o: nat, h: nat)
      requires Tracks(s0, e) && o <= outputs.Length && (h == 0 || o < outputs.Length)
      reads this, inputWeights
    {
      forall i, h' :: 0 <= i < inputs.Length && 0 <= h' < hidden.Length ==>
        inputWeights[i, h'] == s0.inputWeights[i][h'] + InputWeightShift(s0, e, i, h', if h' < h then o + 1 else o)
    }

    ghost predicate HiddenThresholdsAt(s0: NetState, e: seq<real>, o: nat, h: nat)
      requires Tracks(s0, e) && o <= outputs.Length && (h == 0 || o < outputs.Length)
      reads this, hiddenThresholds
    {
      forall h' :: 0 <= h' < hidden.Length ==>
        hiddenThresholds[h'] == s0.hiddenThresholds[h'] + HiddenThresholdShift(s0, e, h', if h' < h then o + 1 else o)
    }

    ghost predicate OutputThresholdsAt(s0: NetState, e: seq<real>, o: nat)
      requires Tracks(s0, e) && o <= outputs.Length
      reads this, outputThresholds
    {
      forall o' :: 0 <= o' < outputs.Length ==>
        outputThresholds[o'] ==
          if o' < o then s0.outputThresholds[o'] + s0.learningRate * OutputGradient(s0, e, o') * -1.0
          else s0.outputThresholds[o']
    }

    ghost predicate StepsDone(s0: NetState, e: seq<real>, o: nat, h: nat)
      requires Tracks(s0, e) && o <= outputs.Length && (h == 0 || o < outputs.Length)
      reads this, inputWeights, hiddenWeights, hiddenThresholds, outputThresholds
    {
      && HiddenWeightsAt(s0, e, o, h) && InputWeightsAt(s0, e, o, h)
      && HiddenThresholdsAt(s0, e, o, h) && OutputThresholdsAt(s0, e, o)
    }

    /** The body of `Train`'s outer loop for output o, when Train started
        from s0: o's squared error, then every hidden unit in turn, then
        o's threshold. */
    method TrainOutputUnit(o: nat, e: seq<real>, ghost s0: NetState) returns (sq: real)
      requires Tracks(s0, e) && o < outputs.Length
      requires s0.inputs == inputs[..] && s0.hidden == hidden[..] && s0.outputs == outputs[..]
      requires s0.learningRate == learningRate
      requires StepsDone(s0, e, o, 0)
      modifies inputWeights, hiddenWeights, hiddenThresholds, outputThresholds
      ensures sq == Square(e[o] - s0.outputs[o])
      ensures StepsDone(s0, e, o + 1, 0)
    {
      var absError := e[o] - outputs[o];
      sq := Square(absError);
      var oGradient := outputs[o] * (1.0 - outputs[o]) * absError;
      assert oGradient == OutputGradient(s0, e, o);
      var h := 0;
      while h < hidden.Length
        modifies inputWeights, hiddenWeights, hiddenThresholds
        invariant 0 <= h <= hidden.Length
        invariant HiddenWeightsAt(s0, e, o, h) && InputWeightsAt(s0, e, o, h) && HiddenThresholdsAt(s0, e, o, h)
      {
        TrainHiddenUnit(o, h, oGradient, s0, e);
        h := h + 1;
      }
      var delta := learningRate * oGradient * -1.0;
      outputThresholds[o] := outputThresholds[o] + delta;
      assert HiddenWeightsAt(s0, e, o + 1, 0) by {
        forall h', o' | 0 <= h' < hidden.Length && 0 <= o' < outputs.Length
          ensures hiddenWeights[h', o'] ==
            if o' < o + 1 then UpdatedHiddenWeight(s0, e, h', o') else s0.hiddenWeights[h'][o']
        {
          assert HiddenWeightsAt(s0, e, o, hidden.Length);
        }
      }
      assert InputWeightsAt(s0, e, o + 1, 0) by {
        assert InputWeightsAt(s0, e, o, hidden.Length);
      }
      assert HiddenThresholdsAt(s0, e, o + 1, 0) by {
        assert HiddenThresholdsAt(s0, e, o, hidden.Length);
      }
    }

    /** The body of `Train`'s middle loop for output o and hidden unit h,
        when Train started from s0: the hidden-to-output weight takes its
        delta, and the hidden gradient, read from the updated weight,
        moves every incoming weight of h and h's threshold. */
    method TrainHiddenUnit(o: nat, h: nat, oGradient: real, ghost s0: NetState, ghost e: seq<real>)
      requires Tracks(s0, e) && o < outputs.Length && h < hidden.Length
      requires learningRate == s0.learningRate && inputs[..] == s0.inputs && hidden[..] == s0.hidden
      requires oGradient == OutputGradient(s0, e, o)
      requires HiddenWeightsAt(s0, e, o, h) && InputWeightsAt(s0, e, o, h) && HiddenThresholdsAt(s0, e, o, h)
      modifies inputWeights, hiddenWeights, hiddenThresholds
      ensures HiddenWeightsAt(s0, e, o, h + 1) && InputWeightsAt(s0, e, o, h + 1) && HiddenThresholdsAt(s0, e, o, h + 1)
    {
      assert hidden[h] == s0.hidden[h];
      assert hiddenWeights[h, o] == s0.hiddenWeights[h][o];
      var delta := learningRate * hidden[h] * oGradient;
      hiddenWeights[h, o] := hiddenWeights[h, o] + delta;
      assert hiddenWeights[h, o] == UpdatedHiddenWeight(s0, e, h, o);
      assert HiddenWeightsAt(s0, e, o, h + 1) by {
        forall h', o' | 0 <= h' < hidden.Length && 0 <= o' < outputs.Length
          ensures hiddenWeights[h', o'] ==
            if o' < o || (o' == o && h' < h + 1) then UpdatedHiddenWeight(s0, e, h', o') else s0.hiddenWeights[h'][o']
        {
          if h' != h || o' != o {
            assert hiddenWeights[h', o'] == old(hiddenWeights[h', o']);
          }
        }
      }
      var hGradient := hidden[h] * (1.0 - hidden[h]) * oGradient * hiddenWeights[h, o];
      assert hGradient == HiddenGradient(s0, e, h, o);
      MoveIncomingWeights(o, h, hGradient, s0, e);
      MoveHiddenThreshold(o, h, hGradient, s0, e);
    }

    /** Hidden unit h's incoming weights take their step for output o. */
    method MoveIncomingWeights(o: nat, h: nat, hGradient: real, ghost s0: NetState, ghost e: seq<real>)
      requires Tracks(s0, e) && o < outputs.Length && h < hidden.Length
      requires learningRate == s0.learningRate && inputs[..] == s0.inputs
      requires hGradient == HiddenGradient(s0, e, h, o)
      requires InputWeightsAt(s0, e, o, h)
      modifies inputWeights
      ensures InputWeightsAt(s0, e, o, h + 1)
    {
      UpdateIncomingWeights(h, hGradient);
      forall i', h' | 0 <= i' < inputs.Length && 0 <= h' < hidden.Length
        ensures inputWeights[i', h'] == s0.inputWeights[i'][h'] + InputWeightShift(s0, e, i', h', if h' < h + 1 then o + 1 else o)
      {
        assert old(inputWeights[i', h']) == s0.inputWeights[i'][h'] + InputWeightShift(s0, e, i', h', if h' < h then o + 1 else o);
        if h' == h {
          InputShiftStep(s0, e, i', h, o, learningRate, inputs[i'], hGradient);
        }
      }
    }

    /** Hidden unit h's threshold takes its step for output o. */
    method MoveHiddenThreshold(o: nat, h: nat, hGradient: real, ghost s0: NetState, ghost e: seq<real>)
      requires Tracks(s0, e) && o < outputs.Length && h < hidden.Length
      requires learningRate == s0.learningRate
      requires hGradient == HiddenGradient(s0, e, h, o)
      requires HiddenThresholdsAt(s0, e, o, h)
      modifies hiddenThresholds
      ensures HiddenThresholdsAt(s0, e, o, h + 1)
    {
      var tDelta := learningRate * hGradient * -1.0;
      hiddenThresholds[h] := hiddenThresholds[h] + tDelta;
      forall h' | 0 <= h' < hidden.Length
        ensures hiddenThresholds[h'] == s0.hiddenThresholds[h'] + HiddenThresholdShift(s0, e, h', if h' < h + 1 then o + 1 else o)
      {
        assert old(hiddenThresholds[h']) == s0.hiddenThresholds[h'] + HiddenThresholdShift(s0, e, h', if h' < h then o + 1 else o);
        if h' == h {
          ThresholdShiftStep(s0, e, h, o, learningRate, hGradient);
        }
      }
    }

    /** The innermost loop of `Train`: every weight into hidden unit h
        moves by the rate times its input times the hidden gradient. */
    method UpdateIncomingWeights(h: nat, hGradient: real)
      requires Valid() && h < hidden.Length
      modifies inputWeights
      ensures forall i, h' :: 0 <= i < inputs.Length && 0 <= h' < hidden.Length ==>
        inputWeights[i, h'] ==
          if h' == h then old(inputWeights[i, h']) + learningRate * inputs[i] * hGradient
          else old(inputWeights[i, h'])
    {
      var i := 0;
      while i < inputs.Length
        invariant 0 <= i <= inputs.Length
        invariant forall i', h' :: 0 <= i' < inputs.Length && 0 <= h' < hidden.Length ==>
          inputWeights[i', h'] ==
            if h' == h && i' < i then old(inputWeights[i', h']) + learningRate * inputs[i'] * hGradient
            else old(inputWeights[i', h'])
      {
        var delta := learningRate * inputs[i] * hGradient;
        inputWeights[i, h] := inputWeights[i, h] + delta;
        i := i + 1;
      }
    }

    /** `Results`: a fresh copy of the outputs. */
    method Results() returns (r: array<real>)
      requires Valid()
      ensures fresh(r) && r[..] == outputs[..]
    {
      r := new real[outputs.Length];
      var o := 0;
      while o < outputs.Length
        invariant 0 <= o <= outputs.Length
        invariant forall j :: 0 <= j < o ==> r[j] == outputs[j]
      {
        r[o] := outputs[o];
        o := o + 1;
      }
    }
  }
}
