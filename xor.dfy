/** The training driver of the `main` package: the XOR training set, the
    XOR test, and training until success or stagnation. The functions
    give, on network values, what each driver does to the network and
    what it reports; the methods run the same steps on a NeuralNetwork
    object and are proved against them. */
module Xor {
  import opened NNetSpec
  import NNet

  /** `round`: 0 below one half, 1 from one half up. */
  function Round(f: real): (r: int)
    ensures r == 0 || r == 1
    ensures r == 0 <==> f < 0.5
  {
    if f < 0.5 then 0 else 1
  }

  /** The boundary case: one half rounds up. */
  lemma RoundBoundary()
    ensures Round(0.5) == 1 && Round(0.4999) == 0
  { }

  // ---------------------------------------------------------------------
  // Presenting an example

  /** The four XOR inputs. */
  const In00: seq<real> := [0.0, 0.0]
  const In01: seq<real> := [0.0, 1.0]
  const In10: seq<real> := [1.0, 0.0]
  const In11: seq<real> := [1.0, 1.0]

  /** `Input(v)` followed by `Activate()`; the error `Input` reports on a
      length mismatch is ignored by every caller in the driver, so the
      activation then runs on the inputs already loaded. */
  function Present(s: NetState, v: seq<real>): (t: NetState)
    requires WellFormed(s)
    ensures WellFormed(t) && SameShape(s, t) && SameParameters(s, t)
    ensures |v| == |s.inputs| ==> t.inputs == v
    ensures |v| != |s.inputs| ==> t.inputs == s.inputs
    ensures forall o :: 0 <= o < |t.outputs| ==> 0.0 < t.outputs[o] < 1.0
  {
    Activated(LoadInputs(s, v), 2)
  }

  /** `Forward(s)`, reached through n empty steps. The count keeps the
      solver from expanding a presentation in the driver's proofs, which
      need only the facts stated above; `PresentIs` expands it. */
  function Activated(s: NetState, n: nat): (t: NetState)
    requires WellFormed(s)
    ensures WellFormed(t) && SameShape(s, t) && SameParameters(s, t) && t.inputs == s.inputs
    ensures forall o :: 0 <= o < |t.outputs| ==> 0.0 < t.outputs[o] < 1.0
  {
    if n == 0 then Forward(s) else Activated(s, n - 1)
  }

  /** A presentation loads the inputs and activates the network. */
  lemma PresentIs(s: NetState, v: seq<real>)
    requires WellFormed(s)
    ensures Present(s, v) == Forward(LoadInputs(s, v))
  {
    var x := LoadInputs(s, v);
    assert Activated(x, 2) == Activated(x, 1) == Activated(x, 0);
  }

  /** A network state together with the error a driver reports. */
  datatype Pass = Pass(net: NetState, err: real)

  /** One example of the training set: present v, then `Train` towards
      the single expected value. */
  function TrainOn(s: NetState, v: seq<real>, expected: real): (p: Pass)
    requires WellFormed(s) && |s.outputs| == 1
    ensures WellFormed(p.net) && SameShape(s, p.net)
    ensures p.net.learningRate == s.learningRate
    ensures (expected == 0.0 || expected == 1.0) ==> p.err > 0.0
  {
    var a := Present(s, v);
    TrainErrorZeroIff(a, [expected]);
    Pass(Trained(a, [expected]), TrainError(a, [expected]))
  }

  /** One iteration of `XORTrainingSet`'s loop when the network has one
      output: (0,0)→0, (0,1)→1, (1,0)→1, then (1,1)→0 trained twice in a
      row, the first of those two errors discarded; the iteration's error
      is the mean of the four recorded errors. */
  function XORIteration(s: NetState): (p: Pass)
    requires WellFormed(s) && |s.outputs| == 1
    ensures WellFormed(p.net) && SameShape(s, p.net)
    ensures p.net.learningRate == s.learningRate
  {
    var p1 := TrainOn(s, In00, 0.0);
    var p2 := TrainOn(p1.net, In01, 1.0);
    var p3 := TrainOn(p2.net, In10, 1.0);
    var a := Present(p3.net, In11);
    var first := Trained(a, [0.0]);
    Pass(Trained(first, [0.0]), (p1.err + p2.err + p3.err + TrainError(first, [0.0])) / 4.0)
  }

  /** The error an iteration reports for (1,1) is the error of the (1,1)
      activation itself: the discarded first `Train` changes weights but
      not the outputs the second one measures. Every recorded error is
      positive, and so is the iteration's mean. */
  lemma XORIterationError(s: NetState)
    requires WellFormed(s) && |s.outputs| == 1
    ensures var p1 := TrainOn(s, In00, 0.0);
            var p2 := TrainOn(p1.net, In01, 1.0);
            var p3 := TrainOn(p2.net, In10, 1.0);
            var a := Present(p3.net, In11);
            XORIteration(s).err == (p1.err + p2.err + p3.err + TrainError(a, [0.0])) / 4.0
    ensures XORIteration(s).err > 0.0
  {
    var p1 := TrainOn(s, In00, 0.0);
    var p2 := TrainOn(p1.net, In01, 1.0);
    var p3 := TrainOn(p2.net, In10, 1.0);
    var a := Present(p3.net, In11);
    RetrainSameError(a, [0.0]);
    TrainErrorZeroIff(a, [0.0]);
    assert [0.0] != a.outputs by {
      assert a.outputs[0] > 0.0;
    }
  }

  /** A network the training set can train: it has exactly one output. */
  predicate SingleOutput(s: NetState)
  {
    WellFormed(s) && |s.outputs| == 1
  }

  /** The step runs on every network with one output and leaves one of the
      same shape and learning rate. */
  ghost predicate KeepsSingleOutput(step: NetState --> Pass)
  {
    forall t {:trigger step.requires(t)} {:trigger step(t)} :: SingleOutput(t) ==>
      step.requires(t) && SingleOutput(step(t).net) && SameShape(t, step(t).net) &&
      step(t).net.learningRate == t.learningRate
  }

  /** The two steps agree on every network with one output. */
  ghost predicate StepsAgree(p: NetState --> Pass, q: NetState --> Pass)
  {
    forall t {:trigger q(t)} :: SingleOutput(t) ==> p.requires(t) && q.requires(t) && p(t) == q(t)
  }

  /** The loop of `XORTrainingSet` for any loop body: n applications of
      the step; the error is the last application's alone. */
  function Iterate(step: NetState --> Pass, s: NetState, n: nat): (p: Pass)
    requires KeepsSingleOutput(step) && SingleOutput(s)
    ensures SingleOutput(p.net) && SameShape(s, p.net) && p.net.learningRate == s.learningRate
  {
    if n == 0 then Pass(s, 0.0) else step(Iterate(step, s, n - 1).net)
  }

  /** Iterating two steps that agree gives the same result. */
  lemma {:induction false} IterateAgree(p: NetState --> Pass, q: NetState --> Pass, s: NetState, n: nat)
    requires KeepsSingleOutput(p) && KeepsSingleOutput(q) && StepsAgree(p, q) && SingleOutput(s)
    ensures Iterate(p, s, n) == Iterate(q, s, n)
  {
    if n > 0 {
      IterateAgree(p, q, s, n - 1);
      var t := Iterate(q, s, n - 1).net;
      assert p(t) == q(t);
    }
  }

  /** One XOR iteration keeps a one-output network one of the same shape. */
  lemma XORIterationKeepsSingleOutput()
    ensures KeepsSingleOutput(XORIteration)
  { }

  /** n iterations of the training set on a one-output network; the error
      is the last iteration's alone. */
  function XORTraining(s: NetState, n: nat): (p: Pass)
    requires SingleOutput(s)
    ensures WellFormed(p.net) && SameShape(s, p.net)
    ensures p.net.learningRate == s.learningRate
  {
    XORIterationKeepsSingleOutput();
    Iterate(XORIteration, s, n)
  }

  /** A handle on the XOR iteration that callers know only through the
      facts above. */
  lemma XORIterationHandle() returns (step: NetState --> Pass)
    ensures KeepsSingleOutput(step) && StepsAgree(step, XORIteration)
  {
    XORIterationKeepsSingleOutput();
    step := XORIteration;
  }

  /** After at least one iteration the reported error is positive, so the
      relative improvement the driver computes from it never divides by
      zero. */
  lemma {:induction false} XORTrainingErrorPositive(s: NetState, n: nat)
    requires WellFormed(s) && |s.outputs| == 1 && n > 0
    ensures XORTraining(s, n).err > 0.0
  {
    XORIterationKeepsSingleOutput();
    XORIterationError(Iterate(XORIteration, s, n - 1).net);
  }

  /** What `XORTrainingSet(iterations, _, net)` leaves in the network and
      returns as its error. With no iteration the network is untouched.
      When the network does not have exactly one output, the first
      `Train` of the first iteration fails after (0,0) has been presented,
      and the error so far, zero, is returned. */
  function TrainingSetResult(s: NetState, iterations: int): (p: Pass)
    requires WellFormed(s)
    ensures WellFormed(p.net) && SameShape(s, p.net)
    ensures p.net.learningRate == s.learningRate
  {
    if iterations <= 0 then Pass(s, 0.0)
    else if |s.outputs| != 1 then Pass(Present(s, In00), 0.0)
    else XORTraining(s, iterations)
  }

  /** The error `XORTrainingSet` returns is never negative, is zero
      exactly when no iteration completed, and a failed run changes no
      weight or threshold. */
  lemma TrainingSetError(s: NetState, iterations: int)
    requires WellFormed(s)
    ensures TrainingSetResult(s, iterations).err >= 0.0
    ensures TrainingSetResult(s, iterations).err == 0.0 <==> iterations <= 0 || |s.outputs| != 1
    ensures iterations <= 0 || |s.outputs| != 1 ==> SameParameters(s, TrainingSetResult(s, iterations).net)
  {
    if iterations > 0 && |s.outputs| == 1 {
      XORTrainingErrorPositive(s, iterations);
    }
  }

  // ---------------------------------------------------------------------
  // XORTest

  /** The four XOR examples in the order `XORTest` presents them, and the
      value the first output should round to for each. */
  function TestInput(k: nat): seq<real>
  {
    if k == 0 then In00 else if k == 1 then In01 else if k == 2 then In10 else In11
  }
  function TestLabel(k: nat): int
  {
    if k == 0 || k == 3 then 0 else 1
  }

  /** 1 when the first output rounds to the expected value, else 0. */
  function Hit(s: NetState, expected: int): (r: nat)
    requires |s.outputs| >= 1
    ensures r <= 1
  {
    if Round(s.outputs[0]) == expected then 1 else 0
  }

  /** What `XORTest` returns, and the network it leaves: the fraction of
      the four examples whose first output rounds to its label. */
  datatype TestResult = TestResult(score: real, net: NetState)

  /** The examples from index `k` on presented in turn, with `hits`
      correct answers counted so far. */
  function TestFrom(s: NetState, k: nat, hits: nat): (r: TestResult)
    requires WellFormed(s) && |s.outputs| >= 1 && k <= 4
    ensures WellFormed(r.net) && SameShape(s, r.net) && SameParameters(s, r.net)
    decreases 4 - k
  {
    if k == 4 then TestResult(hits as real / 4.0, s)
    else
      var a := Present(s, TestInput(k));
      TestFrom(a, k + 1, hits + Hit(a, TestLabel(k)))
  }

  function XORTestRun(s: NetState): (r: TestResult)
    requires WellFormed(s) && |s.outputs| >= 1
    ensures WellFormed(r.net) && SameShape(s, r.net)
  {
    TestFrom(s, 0, 0)
  }

  /** Presenting the examples one after the other: the four states the
      network passes through, and the score they make. */
  lemma {:induction false} TestRunUnrolled(s: NetState)
    requires WellFormed(s) && |s.outputs| >= 1
    ensures var a := Present(s, In00);
            var b := Present(a, In01);
            var c := Present(b, In10);
            var d := Present(c, In11);
            XORTestRun(s) == TestResult((Hit(a, 0) + Hit(b, 1) + Hit(c, 1) + Hit(d, 0)) as real / 4.0, d)
  {
    var a := Present(s, In00);
    var b := Present(a, In01);
    var c := Present(b, In10);
    var d := Present(c, In11);
    var h := Hit(a, 0) + Hit(b, 1) + Hit(c, 1) + Hit(d, 0);
    assert TestFrom(d, 4, h) == TestResult(h as real / 4.0, d);
    assert TestFrom(c, 3, Hit(a, 0) + Hit(b, 1) + Hit(c, 1)) == TestFrom(d, 4, h);
    assert TestFrom(b, 2, Hit(a, 0) + Hit(b, 1)) == TestFrom(c, 3, Hit(a, 0) + Hit(b, 1) + Hit(c, 1));
    assert TestFrom(a, 1, Hit(a, 0)) == TestFrom(b, 2, Hit(a, 0) + Hit(b, 1));
  }

  /** `XORTest` never trains: weights, thresholds and rate are as they
      were. Its score is a number of quarters, and it exceeds 0.9 exactly
      when all four examples round to their labels. */
  lemma XORTestScore(s: NetState)
    requires WellFormed(s) && |s.outputs| >= 1
    ensures SameParameters(s, XORTestRun(s).net)
    ensures XORTestRun(s).score in {0.0, 0.25, 0.5, 0.75, 1.0}
    ensures var a := Present(s, In00);
            var b := Present(a, In01);
            var c := Present(b, In10);
            var d := Present(c, In11);
            XORTestRun(s).score > 0.9 <==>
              Round(a.outputs[0]) == 0 && Round(b.outputs[0]) == 1 &&
              Round(c.outputs[0]) == 1 && Round(d.outputs[0]) == 0
  {
    TestRunUnrolled(s);
    var a := Present(s, In00);
    var b := Present(a, In01);
    var c := Present(b, In10);
    var d := Present(c, In11);
    var n := Hit(a, 0) + Hit(b, 1) + Hit(c, 1) + Hit(d, 0);
    assert n == 0 || n == 1 || n == 2 || n == 3 || n == 4;
  }

  // ---------------------------------------------------------------------
  // XORTrainUntilSuccess

  /** `improvement(cur, prev)`: the change of the error relative to the
      current one. */
  function Improvement(cur: real, prev: real): (r: real)
    requires cur != 0.0
    ensures r >= 0.0
    ensures r == 0.0 <==> cur == prev
  {
    Abs((cur - prev) / cur)
  }

  /** `improvement(cur, prev) > 0.001` in float64. When cur is zero the
      quotient is an infinity if prev is not zero (counted as an
      improvement) and NaN if it is (compares false). */
  predicate Improved(cur: real, prev: real)
    ensures Improved(cur, prev) ==> cur != prev
  {
    if cur == 0.0 then prev != 0.0 else Improvement(cur, prev) > 0.001
  }

  /** The loop counters of `XORTrainUntilSuccess`. */
  datatype Control = Control(iterations: int, lastChangeAt: int, lastErr: real)

  /** Where the loop starts: all counters zero. */
  const Start := Control(0, 0, 0.0)

  /** What one pass of the loop decides after training and testing. */
  datatype Verdict = Continue(next: Control) | Success | Stagnation

  /** One pass of `XORTrainUntilSuccess`'s loop after the test: stop on
      success; otherwise record an improvement, or stop when none has
      been recorded for more than 10000 iterations; then count the
      iteration. */
  function Decide(c: Control, success: real, err: real): (v: Verdict)
    ensures v == Success <==> success > 0.9 && err < 0.01
    ensures v == Stagnation <==>
      !(success > 0.9 && err < 0.01) && !Improved(err, c.lastErr) && c.iterations - c.lastChangeAt > 10000
    ensures v.Continue? ==> v.next.iterations == c.iterations + 1
    ensures v.Continue? ==>
      if Improved(err, c.lastErr) then v.next.lastChangeAt == c.iterations && v.next.lastErr == err
      else v.next.lastChangeAt == c.lastChangeAt && v.next.lastErr == c.lastErr
  {
    if success > 0.9 && err < 0.01 then Success
    else if Improved(err, c.lastErr) then Continue(Control(c.iterations + 1, c.iterations, err))
    else if c.iterations - c.lastChangeAt > 10000 then Stagnation
    else Continue(c.(iterations := c.iterations + 1))
  }

  /** The loop never runs more than 10001 iterations past the last
      recorded improvement: the gap between the counters stays within
      [0, 10001] on every pass that continues. */
  lemma DecideKeepsWindow(c: Control, success: real, err: real)
    requires 0 <= c.lastChangeAt <= c.iterations <= c.lastChangeAt + 10001
    ensures Decide(c, success, err).Continue? ==>
      var n := Decide(c, success, err).next;
      0 <= n.lastChangeAt <= n.iterations <= n.lastChangeAt + 10001
  { }

  /** How a run of `XORTrainUntilSuccess` ends: success after a number of
      iterations (the value returned), with the score and error of that
      last pass; stagnation (-1 returned), with the counters and the error
      of the last pass; or, in the model only, the pass budget running
      out. */
  datatype Outcome =
    | Succeeded(iterations: int, score: real, err: real)
    | Stagnated(control: Control, err: real)
    | Exhausted(control: Control)

  datatype RunResult = RunResult(outcome: Outcome, net: NetState)

  /** A network the driver can test: it has a first output to round. */
  predicate Testable(s: NetState)
  {
    WellFormed(s) && |s.outputs| >= 1
  }

  /** What one pass of the loop observes: the test score, the training
      error, and the network it leaves. */
  datatype Observation = Observation(score: real, err: real, net: NetState)

  /** One pass of `XORTrainUntilSuccess`'s loop before the verdict:
      `XORTrainingSet(1, ...)`, then `XORTest`. */
  function XORPass(s: NetState): (ob: Observation)
    requires Testable(s)
    ensures Testable(ob.net) && SameShape(s, ob.net)
  {
    var p := TrainingSetResult(s, 1);
    var t := XORTestRun(p.net);
    Observation(t.score, p.err, t.net)
  }

  /** The pass can run on every testable network and leaves one. */
  ghost predicate KeepsTestable(pass: NetState --> Observation)
  {
    forall t {:trigger pass.requires(t)} {:trigger pass(t)} :: Testable(t) ==> pass.requires(t) && Testable(pass(t).net)
  }

  /** The loop of `XORTrainUntilSuccess` for at most `fuel` passes from
      counters c, for any pass function: the stagnation detector depends
      on the network only through what each pass observes. */
  function Supervise(pass: NetState --> Observation, s: NetState, c: Control, fuel: nat): (r: RunResult)
    requires KeepsTestable(pass)
    requires Testable(s)
    ensures Testable(r.net)
    decreases fuel
  {
    if fuel == 0 then RunResult(Exhausted(c), s)
    else
      var ob := pass(s);
      match Decide(c, ob.score, ob.err)
      case Success => RunResult(Succeeded(c.iterations, ob.score, ob.err), ob.net)
      case Stagnation => RunResult(Stagnated(c, ob.err), ob.net)
      case Continue(next) => Supervise(pass, ob.net, next, fuel - 1)
  }

  /** The XOR pass can run again on every network it leaves. */
  lemma XORPassKeepsTestable()
    ensures KeepsTestable(XORPass)
  { }

  /** A pass whose verdict is to stop ends the supervised run with what
      that pass observed. */
  lemma SuperviseStops(pass: NetState --> Observation, s: NetState, c: Control, fuel: nat, ob: Observation)
    requires KeepsTestable(pass)
    requires Testable(s) && fuel > 0 && pass(s) == ob
    ensures Decide(c, ob.score, ob.err) == Success ==>
      Supervise(pass, s, c, fuel) == RunResult(Succeeded(c.iterations, ob.score, ob.err), ob.net)
    ensures Decide(c, ob.score, ob.err) == Stagnation ==>
      Supervise(pass, s, c, fuel) == RunResult(Stagnated(c, ob.err), ob.net)
  { }

  /** A pass whose verdict is to go on leaves the rest of the run to the
      network it produced, with the updated counters and one pass fewer. */
  lemma SuperviseContinues(pass: NetState --> Observation, s: NetState, c: Control, fuel: nat, ob: Observation, next: Control)
    requires KeepsTestable(pass)
    requires Testable(s) && fuel > 0 && pass(s) == ob
    requires Decide(c, ob.score, ob.err) == Continue(next)
    ensures Supervise(pass, s, c, fuel) == Supervise(pass, ob.net, next, fuel - 1)
  { }

  /** At most `fuel` passes of `XORTrainUntilSuccess`'s loop on the XOR
      training set, from counters c. */
  function Run(s: NetState, c: Control, fuel: nat): (r: RunResult)
    requires Testable(s)
    ensures Testable(r.net)
  {
    XORPassKeepsTestable();
    Supervise(XORPass, s, c, fuel)
  }

  /** The two passes agree on every testable network. */
  ghost predicate PassesAgree(p: NetState --> Observation, q: NetState --> Observation)
  {
    forall t {:trigger q(t)} :: Testable(t) ==> p.requires(t) && q.requires(t) && p(t) == q(t)
  }

  /** Supervising two passes that agree gives the same run. */
  lemma {:induction false} SuperviseAgree(p: NetState --> Observation, q: NetState --> Observation,
                                          s: NetState, c: Control, fuel: nat)
    requires KeepsTestable(p) && KeepsTestable(q) && PassesAgree(p, q) && Testable(s)
    ensures Supervise(p, s, c, fuel) == Supervise(q, s, c, fuel)
    decreases fuel
  {
    if fuel > 0 {
      var ob := q(s);
      assert p(s) == ob;
      match Decide(c, ob.score, ob.err)
      case Success =>
      case Stagnation =>
      case Continue(next) =>
        SuperviseAgree(p, q, ob.net, next, fuel - 1);
    }
  }

  /** A handle on the XOR pass that callers know only through the facts
      above. */
  lemma XORPassHandle() returns (pass: NetState --> Observation)
    ensures KeepsTestable(pass) && PassesAgree(pass, XORPass)
  {
    XORPassKeepsTestable();
    pass := XORPass;
  }

  /** How a supervised run ends. A success is reported only after a pass
      whose test scored above 0.9 with an error below 0.01, and the number
      it reports is that pass's iteration count. Stagnation is reported
      only after a pass that showed no improvement more than 10000
      iterations after the last recorded one. Every pass counts one
      iteration. */
  lemma {:induction false} SuperviseOutcome(pass: NetState --> Observation, s: NetState, c: Control, fuel: nat)
    requires KeepsTestable(pass)
    requires Testable(s)
    requires 0 <= c.lastChangeAt <= c.iterations
    ensures var o := Supervise(pass, s, c, fuel).outcome;
      && (o.Succeeded? ==>
            o.score > 0.9 && o.err < 0.01 && c.iterations <= o.iterations < c.iterations + fuel)
      && (o.Stagnated? ==>
            && !Improved(o.err, o.control.lastErr)
            && 0 <= o.control.lastChangeAt && o.control.iterations - o.control.lastChangeAt > 10000
            && c.iterations <= o.control.iterations < c.iterations + fuel)
      && (o.Exhausted? ==> o.control.iterations == c.iterations + fuel)
    decreases fuel
  {
    if fuel > 0 {
      var ob := pass(s);
      match Decide(c, ob.score, ob.err)
      case Success =>
      case Stagnation =>
      case Continue(next) =>
        SuperviseOutcome(pass, ob.net, next, fuel - 1);
    }
  }

  /** From the initial counters, stagnation cannot be reported before the
      10002nd pass, and a reported iteration count is never negative, so
      -1 is unambiguous. */
  lemma RunFromStart(s: NetState, fuel: nat)
    requires Testable(s)
    ensures Run(s, Start, fuel).outcome.Stagnated? ==> fuel > 10001
    ensures Run(s, Start, fuel).outcome.Succeeded? ==> Run(s, Start, fuel).outcome.iterations >= 0
  {
    XORPassKeepsTestable();
    SuperviseOutcome(XORPass, s, Start, fuel);
  }

  // ---------------------------------------------------------------------
  // The driver, on a NeuralNetwork object

  /** `net.Input(v)` followed by `net.Activate()`, the error of `Input`
      ignored as the driver ignores it. */
  method PresentExample(net: NNet.NeuralNetwork, v: seq<real>)
    requires net.Valid()
    modifies net.inputs, net.hidden, net.outputs
    ensures net.State() == Present(old(net.State()), v)
  {
    ghost var s := net.State();
    var loaded := net.Input(v);
    net.Activate();
    PresentIs(s, v);
  }

  /** Present v, then `net.Train([expected])`; the call fails exactly when
      the network does not have one output, and then only the
      presentation has taken place. */
  method TrainExample(net: NNet.NeuralNetwork, v: seq<real>, expected: real) returns (sos: real, ok: bool)
    requires net.Valid()
    modifies net.inputs, net.hidden, net.outputs
    modifies net.inputWeights, net.hiddenWeights, net.hiddenThresholds, net.outputThresholds
    ensures ok <==> net.outputs.Length == 1
    ensures ok ==> Pass(net.State(), sos) == TrainOn(old(net.State()), v, expected)
    ensures !ok ==> net.State() == Present(old(net.State()), v) && sos == 0.0
  {
    PresentExample(net, v);
    sos, ok := net.Train([expected]);
  }

  /** One pass of `XORTrainingSet`'s loop body: the four examples, (1,1)
      trained twice with the first error discarded, and the mean of the
      recorded errors. Only the first `Train` can fail, when the network
      does not have one output; the pass then stops with the error summed
      so far, zero. */
  method XORIterationStep(net: NNet.NeuralNetwork, ghost step: NetState --> Pass) returns (sosError: real, ok: bool)
    requires net.Valid()
    requires KeepsSingleOutput(step) && StepsAgree(step, XORIteration)
    modifies net.inputs, net.hidden, net.outputs
    modifies net.inputWeights, net.hiddenWeights, net.hiddenThresholds, net.outputThresholds
    ensures ok <==> net.outputs.Length == 1
    ensures ok ==> Pass(net.State(), sosError) == step(old(net.State()))
    ensures !ok ==> net.State() == Present(old(net.State()), In00) && sosError == 0.0
  {
    ghost var s := net.State();
    sosError := 0.0;
    var sos;
    sos, ok := TrainExample(net, In00, 0.0);
    if !ok {
      return;
    }
    ghost var p1 := Pass(net.State(), sos);
    sosError := sosError + sos;
    sos, ok := TrainExample(net, In01, 1.0);
    if !ok {
      assert false;
      return;
    }
    ghost var p2 := Pass(net.State(), sos);
    sosError := sosError + sos;
    sos, ok := TrainExample(net, In10, 1.0);
    if !ok {
      assert false;
      return;
    }
    ghost var p3 := Pass(net.State(), sos);
    sosError := sosError + sos;
    PresentExample(net, In11);
    ghost var a := net.State();
    var discardedSos, discardedOk := net.Train([0.0]);
    ghost var first := net.State();
    sos, ok := net.Train([0.0]);
    if !ok {
      assert false;
      return;
    }
    sosError := sosError + sos;
    sosError := sosError / 4.0;
    assert p1 == TrainOn(s, In00, 0.0) && p2 == TrainOn(p1.net, In01, 1.0) && p3 == TrainOn(p2.net, In10, 1.0);
    assert a == Present(p3.net, In11) && first == Trained(a, [0.0]);
    assert net.State() == Trained(first, [0.0]) && sos == TrainError(first, [0.0]);
    ghost var xor: NetState --> Pass := XORIteration;
    assert step(s) == xor(s);
  }

  /** `XORTrainingSet(iterations, printEvery, net)` without the printing.
      The count it returns is the function's outer `i`, which the loop's
      own `i` shadows: it is 0 on a normal return. A failed `Train`
      returns the loop's `i` and the error summed so far. */
  method XORTrainingSet(iterations: int, net: NNet.NeuralNetwork) returns (count: int, err: real)
    requires net.Valid()
    modifies net.inputs, net.hidden, net.outputs
    modifies net.inputWeights, net.hiddenWeights, net.hiddenThresholds, net.outputThresholds
    ensures count == 0
    ensures Pass(net.State(), err) == TrainingSetResult(old(net.State()), iterations)
  {
    ghost var s0 := net.State();
    ghost var step := XORIterationHandle();
    var outerI := 0;
    var sosError := 0.0;
    var i := 0;
    while i < iterations
      invariant 0 <= i && (i == 0 || i <= iterations)
      invariant i == 0 ==> net.State() == s0 && sosError == 0.0
      invariant i > 0 ==> SingleOutput(s0) && Pass(net.State(), sosError) == Iterate(step, s0, i)
    {
      var ok;
      sosError, ok := XORIterationStep(net, step);
      if !ok {
        return i, sosError;
      }
      i := i + 1;
    }
    if i > 0 {
      XORIterationKeepsSingleOutput();
      IterateAgree(step, XORIteration, s0, i);
      assert i == iterations;
    }
    return outerI, sosError;
  }

  /** One block of `XORTest`: present v and report whether the first
      output rounds to the expected value. */
  method CheckExample(net: NNet.NeuralNetwork, v: seq<real>, expected: int) returns (correct: bool)
    requires net.Valid() && net.outputs.Length >= 1
    modifies net.inputs, net.hidden, net.outputs
    ensures net.State() == Present(old(net.State()), v)
    ensures correct <==> Hit(net.State(), expected) == 1
  {
    PresentExample(net, v);
    var out := net.Results();
    correct := Round(out[0]) == expected;
  }

  /** `XORTest(net)`: presents the four inputs in turn and counts the
      first outputs that round to their labels. */
  method XORTest(net: NNet.NeuralNetwork) returns (success: real)
    requires net.Valid() && net.outputs.Length >= 1
    modifies net.inputs, net.hidden, net.outputs
    ensures success == XORTestRun(old(net.State())).score
    ensures net.State() == XORTestRun(old(net.State())).net
  {
    ghost var s0 := net.State();
    var hits := 0;
    var correct := CheckExample(net, In00, 0);
    ghost var a := net.State();
    if correct {
      hits := hits + 1;
    }
    correct := CheckExample(net, In01, 1);
    ghost var b := net.State();
    if correct {
      hits := hits + 1;
    }
    correct := CheckExample(net, In10, 1);
    ghost var c := net.State();
    if correct {
      hits := hits + 1;
    }
    correct := CheckExample(net, In11, 0);
    if correct {
      hits := hits + 1;
    }
    success := hits as real / 4.0;
    TestRunUnrolled(s0);
    assert hits == Hit(a, 0) + Hit(b, 1) + Hit(c, 1) + Hit(net.State(), 0);
  }

  /** The first half of a pass of `XORTrainUntilSuccess`'s loop: one
      iteration of the training set, then the test. */
  method TrainAndTest(net: NNet.NeuralNetwork, ghost pass: NetState --> Observation) returns (success: real, err: real)
    requires net.Valid() && net.outputs.Length >= 1
    requires KeepsTestable(pass) && PassesAgree(pass, XORPass)
    modifies net.inputs, net.hidden, net.outputs
    modifies net.inputWeights, net.hiddenWeights, net.hiddenThresholds, net.outputThresholds
    ensures Observation(success, err, net.State()) == pass(old(net.State()))
  {
    ghost var s := net.State();
    ghost var xor: NetState --> Observation := XORPass;
    assert pass(s) == xor(s);
    var ignored;
    ignored, err := XORTrainingSet(1, net);
    success := XORTest(net);
  }

  /** The loop of `XORTrainUntilSuccess`, for at most `fuel` passes, with
      each pass given by `pass`, a handle that agrees with `XORPass` on
      every testable network: returns the iteration count on success and
      -1 on stagnation, with `finished` set; `finished` is false when the
      budget ran out first. */
  method SupervisedTraining(net: NNet.NeuralNetwork, fuel: nat, ghost pass: NetState --> Observation) returns (result: int, finished: bool)
    requires net.Valid() && net.outputs.Length >= 1
    requires KeepsTestable(pass) && PassesAgree(pass, XORPass)
    modifies net.inputs, net.hidden, net.outputs
    modifies net.inputWeights, net.hiddenWeights, net.hiddenThresholds, net.outputThresholds
    ensures var r := Supervise(pass, old(net.State()), Start, fuel);
      && net.State() == r.net
      && finished == !r.outcome.Exhausted?
      && (r.outcome.Succeeded? ==> result == r.outcome.iterations)
      && (r.outcome.Stagnated? ==> result == -1)
  {
    ghost var s0 := net.State();
    var iterations, lastChangeAt, lastErr := 0, 0, 0.0;
    var remaining := fuel;
    while remaining > 0
      invariant Supervise(pass, s0, Start, fuel) == Supervise(pass, net.State(), Control(iterations, lastChangeAt, lastErr), remaining)
    {
      ghost var s := net.State();
      ghost var c := Control(iterations, lastChangeAt, lastErr);
      var success, err := TrainAndTest(net, pass);
      ghost var ob := Observation(success, err, net.State());
      SuperviseStops(pass, s, c, remaining, ob);
      if success > 0.9 && err < 0.01 {
        return iterations, true;
      }
      if Improved(err, lastErr) {
        lastChangeAt := iterations;
        lastErr := err;
      } else if iterations - lastChangeAt > 10000 {
        return -1, true;
      }
      iterations := iterations + 1;
      SuperviseContinues(pass, s, c, remaining, ob, Control(iterations, lastChangeAt, lastErr));
      remaining := remaining - 1;
    }
    return iterations, false;
  }
  /** `XORTrainUntilSuccess(updateAt, net)` without the printing, for at
      most `fuel` passes: returns the iteration count on success and -1 on
      stagnation, with `finished` set; `finished` is false when the budget
      ran out first. */
  method XORTrainUntilSuccess(net: NNet.NeuralNetwork, fuel: nat) returns (result: int, finished: bool)
    requires net.Valid() && net.outputs.Length >= 1
    modifies net.inputs, net.hidden, net.outputs
    modifies net.inputWeights, net.hiddenWeights, net.hiddenThresholds, net.outputThresholds
    ensures var r := Run(old(net.State()), Start, fuel);
      && net.State() == r.net
      && finished == !r.outcome.Exhausted?
      && (r.outcome.Succeeded? ==> result == r.outcome.iterations)
      && (r.outcome.Stagnated? ==> result == -1)
  {
    ghost var s0 := net.State();
    ghost var pass := XORPassHandle();
    result, finished := SupervisedTraining(net, fuel, pass);
    XORPassKeepsTestable();
    SuperviseAgree(pass, XORPass, s0, Start, fuel);
  }
}
