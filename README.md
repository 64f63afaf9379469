# cyonn in Dafny

A model of the numeric core of cyonn, a small Go program that trains a
feed-forward network with one hidden layer on XOR. The model covers:

- the `nnet` package's `NeuralNetwork`: its construction and random
  connection, the learning-rate setter, `Input`, `Activate`, one online
  backpropagation step `Train`, and `Results`;
- the `main` package's training driver: `round`, the XOR training set,
  the XOR test, the stagnation detector of `XORTrainUntilSuccess`, and
  `parseConfig`.

Four modules, one per file:

- `nnet_spec.dfy` (module `NNetSpec`) gives the network's buffers as a
  value, `NetState`. Each operation is a function from one state to the
  next: `Created`, `Connected`, `WithLearningRate`, `LoadInputs`,
  `Forward` and `Trained`. The lemmas state what these functions keep
  and compute.
- `nnet.dfy` (module `NNet`) holds the class `NeuralNetwork`. Its fields
  are arrays that its methods update in place, loop by loop, in the
  source's order. Each method is proved to leave `State()` equal to the
  spec function applied to the old state.
- `xor.dfy` (module `Xor`) first gives, on `NetState` values, what each
  driver function does to the network and what it reports:
  - `TrainingSetResult` for the training set;
  - `XORTestRun` for the test;
  - `Supervise` and `Run` for the train-until-success loop.

  Then come the driver's methods on a `NeuralNetwork` object, proved
  against those functions.
- `config.dfy` (module `Config`) has `strings.Split` for a
  one-character separator, `strconv.Atoi`, and `parseConfig`. Neither
  `Join` nor `Itoa` (decimal printing) models anything the core calls.
  They are there as round-trip partners: `Join` of `Split` (`JoinSplit`,
  `SplitJoin`), `Itoa` of `Atoi` (`AtoiItoa`), and both together for the
  whole configuration (`ConfigOfDims`).

Some lemmas are proof steps, not statements about the program, and have
no row below:

- They unfold a definition by one step: `NNetSpec.InputShiftStep`,
  `NNetSpec.ThresholdShiftStep`, `NNetSpec.ConnectedByEntries`,
  `Xor.SuperviseStops`, `Xor.SuperviseContinues` and
  `Xor.TestRunUnrolled`.
- `NNetSpec.WeightedSumOfZeros` is the induction behind
  `NNetSpec.ForwardOfZeroInputs`.
- They restate a function's contract as a predicate on a function value:
  `Xor.XORIterationKeepsSingleOutput` and `Xor.XORPassKeepsTestable`.
- They state that agreeing function values give the same result:
  `Xor.IterateAgree` and `Xor.SuperviseAgree`.

The same goes for `Activated`, `KeepsSingleOutput`, `StepsAgree`,
`KeepsTestable`, `PassesAgree` and the two `Handle` lemmas. They pass the
iteration and the pass to the driver's methods as function values known
only through those predicates, which keeps the solver from unfolding the
whole network computation at every call.

Some behaviours of the source show up in the model:

- Inside `Train`, the hidden gradient reads the hidden-to-output weight
  after it has been updated.
  `NNetSpec.HiddenGradientReadsUpdatedWeight` states how this differs
  from the textbook gradient.
- `Train` does not re-activate the network. So training (1,1) twice in
  a row reports the same error both times (`NNetSpec.RetrainSameError`).
- The loop variable in `XORTrainingSet` shadows the returned count, so
  the count is 0 on every normal return.
- Only the first `Train` of the first iteration can fail.

## Model

| member | source | states |
|---|---|---|
| NNetSpec.Sigmoid | nnet/nn.go:110 | the activation lies strictly between 0 and 1 |
| NNetSpec.Zeroed | nnet/nn.go:44-54 | the buffers `New` allocates before connecting: well formed (weight matrices nI×nH and nH×nO), every width as requested, rate 0.2 |
| NNetSpec.Connected | nnet/nn.go:69-84 | `connect` changes only weights and thresholds; with no hidden unit the output thresholds keep their values |
| NNetSpec.Created | nnet/nn.go:44-57 | `New(nI, nH, nO)` gives a well-formed network of exactly those widths at rate 0.2, with zero inputs, hidden and outputs |
| NNetSpec.WithLearningRate | nnet/nn.go:61-67 | the rate becomes lr exactly when 0 < lr < 1; nothing else changes |
| NNetSpec.LoadInputs | nnet/nn.go:87-97 | on a matching length the inputs become v; no other field changes, and nothing changes on a mismatch |
| NNetSpec.ForwardOfZeroInputs | nnet/nn.go:103-111 | with every input at zero, `Activate` sets each hidden unit to the sigmoid of minus its threshold, whatever the input weights |
| NNetSpec.HiddenActivation | nnet/nn.go:104-110 | hidden unit h's activation, the sigmoid of its weighted inputs less its threshold, lies in (0, 1) |
| NNetSpec.OutputActivation | nnet/nn.go:114-120 | output o's activation over a given hidden layer, the sigmoid of its weighted hidden values less its threshold, lies in (0, 1) |
| NNetSpec.Forward | nnet/nn.go:100-122 | `Activate` changes only `hidden` and `outputs`, and every new activation lies in (0, 1) |
| NNetSpec.ForwardUnits | nnet/nn.go:103-121 | hidden[h] is the sigmoid of Σ_i inputWeights[i][h]·inputs[i] − hiddenThresholds[h]; outputs[o] is the same over the new hidden layer |
| NNetSpec.ForwardIdempotent | nnet/nn.go:100-122 | activating twice gives the same state as activating once |
| NNetSpec.Trained | nnet/nn.go:126-157 | `Train` keeps inputs, activations, the rate and every dimension |
| NNetSpec.OutputGradient | nnet/nn.go:134-136 | the output gradient is 0 when the output already equals the expected value, and for an output in (0, 1) only then |
| NNetSpec.UpdatedHiddenWeight | nnet/nn.go:139-140 | the hidden-to-output weight after its delta; it stays put when the output already equals the expected value |
| NNetSpec.HiddenGradient | nnet/nn.go:141 | the hidden gradient, read from the updated weight, is 0 when the output already equals the expected value |
| NNetSpec.HiddenGradientReadsUpdatedWeight | nnet/nn.go:139-141 | the hidden gradient equals the textbook one plus the term that the just-made weight update adds |
| NNetSpec.SquaredError | nnet/nn.go:133-135 | the squared error accumulated over the first k outputs is never negative |
| NNetSpec.TrainError | nnet/nn.go:132-156 | the error `Train` returns, the sum over every output, is never negative |
| NNetSpec.SquaredErrorZeroIff | nnet/nn.go:133-135 | the squared error over the first k outputs is zero iff the expected values equal the outputs there |
| NNetSpec.TrainErrorZeroIff | nnet/nn.go:132-156 | the error `Train` returns is ≥ 0, and 0 iff the outputs already equal the expected values |
| NNetSpec.TrainFixedPoint | nnet/nn.go:132-156 | training towards the current outputs changes no weight or threshold and reports error 0 |
| NNetSpec.RetrainSameError | nnet/nn.go:132-156 | `Train` does not re-activate, so a second `Train` on the same values reports the same error |
| NNet.InitMatrix | nnet/nn.go:33-40 | a fresh x-by-y matrix of zeros |
| NNet.NeuralNetwork.constructor | nnet/nn.go:44-57 | fresh buffers whose state is `Created(nI, nH, nO, rnd)` |
| NNet.NeuralNetwork.Connect | nnet/nn.go:69-84 | the new state is `Connected(old state, rnd)` |
| NNet.NeuralNetwork.ConnectInputWeights | nnet/nn.go:70-74 | inputWeights[i][h] is draw i·nH + h |
| NNet.NeuralNetwork.ConnectHiddenUnits | nnet/nn.go:76-83 | hidden-to-output weights and both kinds of threshold get the draws of `Connected`; output thresholds keep the last hidden unit's draws |
| NNet.NeuralNetwork.ConnectHiddenUnit | nnet/nn.go:77-82 | one hidden unit's pass draws its outgoing weights, every output threshold and its own threshold; no other entry changes |
| NNet.NeuralNetwork.LearningRate | nnet/nn.go:61-67 | returns the previous rate; the new state is `WithLearningRate(old, lr)` |
| NNet.NeuralNetwork.Input | nnet/nn.go:87-97 | succeeds iff the length matches; the new state is `LoadInputs(old, v)` |
| NNet.NeuralNetwork.Activate | nnet/nn.go:100-122 | the new state is `Forward(old)` |
| NNet.NeuralNetwork.ActivateHidden | nnet/nn.go:103-111 | the hidden buffer becomes `Forward(old).hidden` |
| NNet.NeuralNetwork.ActivateOutputs | nnet/nn.go:113-121 | each output is the sigmoid of its weighted hidden activations less its threshold |
| NNet.NeuralNetwork.Train | nnet/nn.go:126-157 | fails iff the lengths differ, and then returns 0 and changes nothing; otherwise the new state is `Trained(old, e)` and the result is the summed squared error |
| NNet.NeuralNetwork.TrainOutputUnits | nnet/nn.go:132-156 | the outer loop returns the summed squared error and completes every (o, h) step |
| NNet.NeuralNetwork.StepsDoneIsTrained | nnet/nn.go:132-156 | once every output has been processed, the buffers hold `Trained(s0, e)` |
| NNet.NeuralNetwork.TrainOutputUnit | nnet/nn.go:133-153 | output o's pass returns (e[o] − outputs[o])² and completes its steps: weights, then hidden thresholds, then its own threshold |
| NNet.NeuralNetwork.TrainHiddenUnit | nnet/nn.go:138-150 | step (o, h) updates hiddenWeights[h][o], then the inputs' weights into h and h's threshold, using the gradient from the updated weight |
| NNet.NeuralNetwork.MoveIncomingWeights | nnet/nn.go:143-146 | the weights into hidden unit h advance by one output step; the others stay put |
| NNet.NeuralNetwork.MoveHiddenThreshold | nnet/nn.go:148-149 | hidden threshold h advances by one output step; the others stay put |
| NNet.NeuralNetwork.UpdateIncomingWeights | nnet/nn.go:143-146 | every weight into h moves by lr·inputs[i]·hGradient; every other weight is unchanged |
| NNet.NeuralNetwork.Results | nnet/nn.go:160-166 | a fresh array equal to the outputs |
| Xor.Round | nn.go:20-25 | 0 exactly below one half, 1 otherwise |
| Xor.RoundBoundary | nn.go:20-25 | 0.5 rounds to 1 |
| Xor.Present | nn.go:40-41 | `Input` then `Activate` keeps weights, thresholds and shape; it loads v when the length fits and gives outputs in (0, 1) |
| Xor.PresentIs | nn.go:40-41 | presenting is `Forward` after `LoadInputs` |
| Xor.TrainOn | nn.go:40-46 | presenting and then training towards 0 or 1 keeps the shape and rate and reports a positive error |
| Xor.XORIteration | nn.go:33-93 | one iteration keeps a one-output network one of the same shape and rate |
| Xor.XORIterationError | nn.go:76-93 | the iteration's error is the mean of the three single errors and the (1,1) activation's error, and it is positive |
| Xor.Iterate | nn.go:32-94 | n applications of an iteration keep one output, the shape and the rate |
| Xor.XORTraining | nn.go:32-94 | n iterations of the training set keep shape and rate |
| Xor.XORTrainingErrorPositive | nn.go:33-93 | after at least one iteration the reported error is positive in the model (over the reals), so there `improvement` never divides by zero after a real pass |
| Xor.TrainingSetResult | nn.go:27-97 | whether it fails after (0,0) is presented or runs every iteration, the training set keeps the network well formed, its shape and its rate |
| Xor.TrainingSetError | nn.go:27-97 | the returned error is ≥ 0, and 0 iff no iteration completed; a failed run changes no weight or threshold |
| Xor.Hit | nn.go:105-107 | one test counts 0 or 1 |
| Xor.TestFrom | nn.go:99-130 | presenting the remaining test examples never changes a weight, a threshold or the shape |
| Xor.XORTestRun | nn.go:99-131 | the test keeps the network well formed and of the same shape |
| Xor.XORTestScore | nn.go:99-131 | the score is one of 0, 1/4, 1/2, 3/4, 1; it exceeds 0.9 iff all four round correctly; no parameter changes |
| Xor.Improved | nn.go:155 | `improvement(err, lastErr) > 0.001` over the reals, with float64's outcome for a zero current error: the infinity counts as improved and NaN as not improved; an improvement always means the error changed |
| Xor.Improvement | nn.go:133-135 | the relative change is ≥ 0, and 0 iff the error did not change |
| Xor.Decide | nn.go:150-170 | success iff score > 0.9 and err < 0.01; stagnation iff no success, no improvement and more than 10000 iterations since the last one; `lastChangeAt` and `lastErr` change together, and only on improvement |
| Xor.DecideKeepsWindow | nn.go:155-167 | the gap between `iterations` and `lastChangeAt` stays within [0, 10001] |
| Xor.XORPass | nn.go:149-150 | one pass trains one iteration and tests, keeping a testable network testable |
| Xor.Supervise | nn.go:142-169 | the loop for at most `fuel` passes of a given pass function: stop on success or stagnation, otherwise update the counters and go on; the network it leaves stays testable |
| Xor.Run | nn.go:142-169 | the same loop with the XOR pass (`XORTrainingSet(1, …)` then `XORTest`); the network it leaves stays testable |
| Xor.SuperviseOutcome | nn.go:137-173 | success is reported only after score > 0.9 and err < 0.01, with that pass's count; stagnation only without improvement and after a gap over 10000; every pass counts one iteration |
| Xor.RunFromStart | nn.go:137-173 | from zero counters, stagnation needs more than 10001 passes, and a reported count is never negative, so −1 is unambiguous |
| Xor.PresentExample | nn.go:102-103 | the new state is `Present(old, v)` |
| Xor.TrainExample | nn.go:40-46 | fails iff the network does not have one output; otherwise the new state and error are `TrainOn` |
| Xor.XORIterationStep | nn.go:33-93 | one loop body gives the iteration's state and error, or fails after (0,0) with error 0 |
| Xor.XORTrainingSet | nn.go:27-97 | returns count 0 and, with the new state, exactly `TrainingSetResult(old, iterations)` |
| Xor.CheckExample | nn.go:102-107 | one test block presents v and reports whether the first output rounds to the label |
| Xor.XORTest | nn.go:99-131 | the score and the new state are `XORTestRun(old)` |
| Xor.TrainAndTest | nn.go:149-150 | one pass's score, error and new state are what `XORPass` gives |
| Xor.SupervisedTraining | nn.go:140-172 | the loop ends as `Supervise` does: the final state, the success count, or −1 on stagnation |
| Xor.XORTrainUntilSuccess | nn.go:137-173 | within `fuel` passes: the final state is `Run(old, Start, fuel)`'s, the result is the iteration count on success and −1 on stagnation |
| Config.Split | nn.go:176 | `strings.Split` gives at least one piece, and no piece contains the separator |
| Config.SplitCount | nn.go:176-179 | n separators give n + 1 pieces |
| Config.JoinSplit | nn.go:176 | joining the pieces with the separator gives back the string |
| Config.SplitJoin | nn.go:176 | splitting pieces free of the separator, once joined, gives back the pieces |
| Config.Atoi | nn.go:181 | an accepted value fits in an int64, and a negative one needs a leading '-' |
| Config.AtoiItoa | nn.go:181 | every int64 survives printing in decimal and parsing back |
| Config.AtoiOfDigits | nn.go:181-194 | a digit string, with or without '+', parses to its decimal value when that fits |
| Config.ConfigFields | nn.go:176-196 | three numbers are found only in a string with exactly two '-' |
| Config.ConfigDims | nn.go:175-198 | a configuration without exactly two '-' gives 2-2-1 |
| Config.ConfigOfDims | nn.go:175-198 | "i-h-o" written in decimal gives exactly the widths i, h, o |
| Config.ConfigWithBadField | nn.go:181-194 | any field that is not a number gives 2-2-1, whatever the others hold |
| Config.ParseConfig | nn.go:175-198 | builds a fresh network, with fresh buffers a caller may go on to update, whose state is `Created` for `ConfigDims(config)` |

## Left out

- Floating point. Values are `real`, so IEEE rounding, infinities and NaN are not modelled, except that `Improved` gives the float comparison for a zero current error: an infinity counts as an improvement and NaN does not.
- `math.Pow(math.E, -x)` is not modelled. The sigmoid is an uninterpreted function into (0, 1), and the model relies on nothing else about it. In float64 the sigmoid can round to exactly 0.0 or 1.0, for example when 1 + e^-x rounds to 1. Every positive-error result (`Xor.TrainOn`, `Xor.XORIterationError`, `Xor.XORTrainingErrorPositive`) depends on the open range (0, 1), so the Go program can in principle report an error of 0.
- Random numbers. nnet/util.go is not part of this model. `rand()` becomes a sequence of draws `rnd(k)`, and every draw is required to be non-zero, because thresholds divide by draws.
- Printing is not modelled: `StateLine`, `errorf`, every `fmt` call, `main` and its flags. `printEvery` and `updateAt` only choose when to print, so they are dropped.
- Xor.XORTrainUntilSuccess: the source's loop need not terminate. The model takes at most `fuel` passes and reports `finished == false` when the budget runs out first.
- Xor.XORTest: requires at least one output, because Go panics on `out[0]` otherwise.
- Xor.Improvement: requires a non-zero current error. The driver's comparison is `Improved`, which covers the zero case.
- Config.Atoi: syntax errors and range errors are both `None`, because `parseConfig` only checks whether there was an error. A platform with 32-bit `int` is not modelled.
- Layer widths are natural numbers. `parseConfig` cannot produce a negative width, since no field contains '-'. Go's panic on a negative `make` size, and allocation failure for huge sizes, are not modelled.
- Xor.Present: its body is `Activated(..., 2)`, a count-down that only keeps the solver from expanding presentations. `Xor.PresentIs` states that it is `Forward` after `LoadInputs`.
