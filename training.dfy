/** The perceptron learning rule as pure functions: the activation, the
    training-time misclassification test, one sample's update, one epoch (an
    in-order pass over the samples), the epoch loop with its early exit, and
    the inference rule. The class in `Classifier` is proved against these. */
module Training {
  import opened Vectors

  datatype Option<T> = None | Some(value: T)

  /** A two-dimensional feature array of shape (|rows|, nFeatures). */
  datatype Matrix = Matrix(nFeatures: nat, rows: seq<seq<real>>) {
    predicate Valid() {
      forall i :: 0 <= i < |rows| ==> |rows[i]| == nFeatures
    }
  }

  /** The learned parameters: the weight vector and the bias. */
  datatype Weights = Weights(w: seq<real>, b: real)

  /** The parameters after a pass, and how many samples in it were counted as errors. */
  datatype EpochResult = EpochResult(model: Weights, errors: nat)

  /** The parameters when training stops, and the 1-based epoch at which it
      converged, if it did. */
  datatype Outcome = Outcome(model: Weights, convergedAt: Option<nat>)

  /** Labels drawn from {-1, +1} only. */
  predicate BinaryLabels(y: seq<int>) {
    forall i :: 0 <= i < |y| ==> y[i] == 1 || y[i] == -1
  }

  /** How many (row, label) pairs `zip(X, y)` yields: it stops at the shorter of the two. */
  function SampleCount(X: Matrix, y: seq<int>): (n: nat)
    ensures n <= |X.rows| && n <= |y|
    ensures n == |X.rows| || n == |y|
  {
    if |X.rows| <= |y| then |X.rows| else |y|
  }

  /** dot(x, w) + b. */
  function Activation(x: seq<real>, m: Weights): real
    requires |x| == |m.w|
  {
    Dot(x, m.w) + m.b
  }

  /** target * (dot(x, w) + b): positive when the sample lies strictly on
      the side of its label. */
  function Margin(x: seq<real>, t: int, m: Weights): real
    requires |x| == |m.w|
  {
    (t as real) * Activation(x, m)
  }

  /** The training-time error test. A sample exactly on the decision boundary
      (activation 0) counts as an error, whatever its label. */
  predicate Misclassified(x: seq<real>, t: int, m: Weights)
    requires |x| == |m.w|
  {
    Margin(x, t, m) <= 0.0
  }

  /** The inference rule: +1 when the activation is at least 0, otherwise -1. */
  function PredictOne(x: seq<real>, m: Weights): (r: int)
    requires |x| == |m.w|
    ensures r == 1 || r == -1
    ensures r == 1 <==> Activation(x, m) >= 0.0
  {
    if Activation(x, m) >= 0.0 then 1 else -1
  }

  /** One sample's effect on the parameters: with update = lr * t, an error
      adds update * x to the weights and update to the bias; a correctly
      classified sample leaves them as they are. */
  function Step(m: Weights, lr: real, x: seq<real>, t: int): (r: Weights)
    requires |x| == |m.w|
    ensures |r.w| == |m.w|
    ensures !Misclassified(x, t, m) ==> r == m
  {
    if Misclassified(x, t, m) then
      Weights(AddScaled(m.w, lr * (t as real), x), m.b + lr * (t as real))
    else
      m
  }

  /** The in-place update `w += lr * t * x; b += lr * t` yields what Step
      gives for an error. */
  lemma UpdateIsStep(m: Weights, lr: real, x: seq<real>, t: int, update: real, w': seq<real>, b': real)
    requires |x| == |m.w| && Misclassified(x, t, m) && update == lr * (t as real)
    requires w' == AddScaled(m.w, update, x) && b' == m.b + update
    ensures Step(m, lr, x, t) == Weights(w', b')
  {
  }

  /** A sample changes the parameters only when it is an error, and then
      by exactly w[k] += lr * t * x[k] for every k and b += lr * t. */
  lemma StepEffect(m: Weights, lr: real, x: seq<real>, t: int)
    requires |x| == |m.w|
    ensures Step(m, lr, x, t) != m ==> Misclassified(x, t, m)
    ensures Misclassified(x, t, m) ==>
              && Step(m, lr, x, t).b == m.b + lr * (t as real)
              && |Step(m, lr, x, t).w| == |m.w|
              && forall k :: 0 <= k < |m.w| ==> Step(m, lr, x, t).w[k] == m.w[k] + lr * (t as real) * x[k]
  {
  }

  /** The first `i` samples of one pass, in order, starting from `m`; each
      sample sees the parameters left by the one before it. */
  function Epoch(X: Matrix, y: seq<int>, lr: real, m: Weights, i: nat): (r: EpochResult)
    requires X.Valid() && |m.w| == X.nFeatures && i <= SampleCount(X, y)
    ensures |r.model.w| == X.nFeatures
    ensures r.errors <= i
    ensures r.errors == 0 ==> r.model == m
    decreases i
  {
    if i == 0 then
      EpochResult(m, 0)
    else
      var prev := Epoch(X, y, lr, m, i - 1);
      var x, t := X.rows[i - 1], y[i - 1];
      EpochResult(Step(prev.model, lr, x, t),
                  prev.errors + if Misclassified(x, t, prev.model) then 1 else 0)
  }

  /** The epoch loop from 0-based epoch `epoch` on: a pass with no error stops
      training and reports its 1-based number; after `maxEpochs` passes it
      stops without converging. */
  function TrainFrom(X: Matrix, y: seq<int>, lr: real, maxEpochs: int, epoch: nat, m: Weights): (r: Outcome)
    requires X.Valid() && |m.w| == X.nFeatures
    ensures |r.model.w| == X.nFeatures
    ensures r.convergedAt.Some? ==> epoch < r.convergedAt.value <= maxEpochs
    decreases maxEpochs - epoch
  {
    if maxEpochs <= epoch then
      Outcome(m, None)
    else
      var e := Epoch(X, y, lr, m, SampleCount(X, y));
      if e.errors == 0 then Outcome(e.model, Some(epoch + 1))
      else TrainFrom(X, y, lr, maxEpochs, epoch + 1, e.model)
  }

  /** The parameters every training run starts from. */
  function Initial(X: Matrix): (m: Weights)
    ensures |m.w| == X.nFeatures && m.b == 0.0
    ensures forall k :: 0 <= k < |m.w| ==> m.w[k] == 0.0
  {
    Weights(Zeros(X.nFeatures), 0.0)
  }

  /** A whole training run: reset to zero weights and bias, then the epoch loop. */
  function Train(X: Matrix, y: seq<int>, lr: real, maxEpochs: int): (r: Outcome)
    requires X.Valid()
    ensures |r.model.w| == X.nFeatures
    ensures r.convergedAt.Some? ==> 1 <= r.convergedAt.value <= maxEpochs
  {
    TrainFrom(X, y, lr, maxEpochs, 0, Initial(X))
  }

  /** Reference definition without the early exit: the parameters after `k`
      full passes from zero. */
  function ModelAfter(X: Matrix, y: seq<int>, lr: real, k: nat): (m: Weights)
    requires X.Valid()
    ensures |m.w| == X.nFeatures
  {
    if k == 0 then Initial(X)
    else Epoch(X, y, lr, ModelAfter(X, y, lr, k - 1), SampleCount(X, y)).model
  }

  /** How many errors the pass with 0-based number `k` counts, when no epoch is skipped. */
  function EpochErrors(X: Matrix, y: seq<int>, lr: real, k: nat): nat
    requires X.Valid()
  {
    Epoch(X, y, lr, ModelAfter(X, y, lr, k), SampleCount(X, y)).errors
  }

  /** One more sample of a pass: Step on the parameters so far, and one more
      error when that sample is misclassified by them. */
  lemma EpochExtend(X: Matrix, y: seq<int>, lr: real, m: Weights, i: nat)
    requires X.Valid() && |m.w| == X.nFeatures && i < SampleCount(X, y)
    ensures var prev := Epoch(X, y, lr, m, i);
            Epoch(X, y, lr, m, i + 1) ==
              EpochResult(Step(prev.model, lr, X.rows[i], y[i]),
                          prev.errors + if Misclassified(X.rows[i], y[i], prev.model) then 1 else 0)
  {
  }

  /** Every sample is strictly on the side of its label. */
  predicate Separates(X: Matrix, y: seq<int>, m: Weights)
    requires X.Valid() && |m.w| == X.nFeatures
  {
    forall i :: 0 <= i < SampleCount(X, y) ==> Margin(X.rows[i], y[i], m) > 0.0
  }

  // ---------------------------------------------------------------------
  // One sample

  /** The asymmetric tie-break: an activation of exactly 0 is an error in
      training for every label, yet predicts +1. */
  lemma TieIsErrorButPredictsPositive(x: seq<real>, t: int, m: Weights)
    requires |x| == |m.w| && Activation(x, m) == 0.0
    ensures Misclassified(x, t, m)
    ensures PredictOne(x, m) == 1
  {
  }

  /** An update moves the sample's margin t * activation by exactly
      lr * t^2 * (|x|^2 + 1). */
  lemma {:induction false} StepMarginGain(m: Weights, lr: real, x: seq<real>, t: int)
    requires |x| == |m.w| && Misclassified(x, t, m)
    ensures Margin(x, t, Step(m, lr, x, t))
            == Margin(x, t, m) + lr * ((t as real) * (t as real)) * (Dot(x, x) + 1.0)
  {
    var c := lr * (t as real);
    var s := Weights(AddScaled(m.w, c, x), m.b + c);
    UpdateIsStep(m, lr, x, t, c, s.w, s.b);
    ActivationAfterUpdate(m, c, x);
    MarginOfUpdate(m, s, lr, x, t);
  }

  /** The margin form of ActivationAfterUpdate. */
  lemma MarginOfUpdate(m: Weights, s: Weights, lr: real, x: seq<real>, t: int)
    requires |x| == |m.w| == |s.w|
    requires Activation(x, s) == Activation(x, m) + (lr * (t as real)) * (Dot(x, x) + 1.0)
    ensures Margin(x, t, s) == Margin(x, t, m) + lr * ((t as real) * (t as real)) * (Dot(x, x) + 1.0)
  {
    MarginIdentity(t as real, lr, Dot(x, x), Activation(x, m), Activation(x, s));
  }

  /** Adding c * x to the weights and c to the bias raises x's activation by
      c * (|x|^2 + 1). */
  lemma ActivationAfterUpdate(m: Weights, c: real, x: seq<real>)
    requires |x| == |m.w|
    ensures Activation(x, Weights(AddScaled(m.w, c, x), m.b + c)) == Activation(x, m) + c * (Dot(x, x) + 1.0)
  {
    DotAddScaled(x, m.w, c, x);
  }

  /** With a positive learning rate and a non-zero label, an update strictly
      improves the margin of the sample that triggered it. */
  lemma StepImprovesMargin(m: Weights, lr: real, x: seq<real>, t: int)
    requires |x| == |m.w| && Misclassified(x, t, m) && lr > 0.0 && t != 0
    ensures Margin(x, t, Step(m, lr, x, t)) > Margin(x, t, m)
  {
    StepMarginGain(m, lr, x, t);
    DotSelfNonNegative(x);
    PositiveGain(t as real, lr, Dot(x, x));
  }

  /** The margin form of the update's activation gain: multiplying the new
      activation by t gives the old margin plus lr * t^2 * (d + 1). */
  lemma MarginIdentity(t: real, lr: real, d: real, a: real, a': real)
    requires a' == a + (lr * t) * (d + 1.0)
    ensures t * a' == t * a + lr * (t * t) * (d + 1.0)
  {
  }

  /** The arithmetic behind StepImprovesMargin: the gain is positive. */
  lemma PositiveGain(t: real, lr: real, d: real)
    requires t != 0.0 && lr > 0.0 && d >= 0.0
    ensures lr * (t * t) * (d + 1.0) > 0.0
  {
    assert t * t > 0.0 by {
      if t < 0.0 { assert t * t == (-t) * (-t); }
    }
    assert lr * (t * t) > 0.0;
  }

  /** A sample strictly on the side of a label in {-1, +1} is predicted as that label. */
  lemma MarginPredictsLabel(x: seq<real>, t: int, m: Weights)
    requires |x| == |m.w| && (t == 1 || t == -1)
    requires Margin(x, t, m) > 0.0
    ensures PredictOne(x, m) == t
  {
  }

  // ---------------------------------------------------------------------
  // One epoch

  /** A pass counts no error exactly when every sample in it is correctly
      classified by the parameters the pass started from. */
  lemma {:induction false} EpochZeroErrorsIff(X: Matrix, y: seq<int>, lr: real, m: Weights, i: nat)
    requires X.Valid() && |m.w| == X.nFeatures && i <= SampleCount(X, y)
    ensures Epoch(X, y, lr, m, i).errors == 0 <==>
            forall j :: 0 <= j < i ==> !Misclassified(X.rows[j], y[j], m)
  {
    if i > 0 {
      EpochZeroErrorsIff(X, y, lr, m, i - 1);
    }
  }

  /** Because a boundary sample counts as an error, the first sample of the
      first pass (activation 0 under the zero start) is always an error: a
      run over at least one sample never converges in epoch 1. */
  lemma NeverConvergesInFirstEpoch(X: Matrix, y: seq<int>, lr: real, maxEpochs: int)
    requires X.Valid() && SampleCount(X, y) >= 1
    ensures Train(X, y, lr, maxEpochs).convergedAt != Some(1)
  {
    var m0 := Initial(X);
    DotZeros(X.rows[0]);
    assert Activation(X.rows[0], m0) == 0.0;
    EpochZeroErrorsIff(X, y, lr, m0, SampleCount(X, y));
  }

  // ---------------------------------------------------------------------
  // The epoch loop

  /** When the loop leaves through the zero-error branch, the parameters it
      returns put every training sample strictly on the side of its label. */
  lemma {:induction false} TrainFromConvergedSeparates(X: Matrix, y: seq<int>, lr: real, maxEpochs: int, epoch: nat, m: Weights)
    requires X.Valid() && |m.w| == X.nFeatures
    ensures TrainFrom(X, y, lr, maxEpochs, epoch, m).convergedAt.Some? ==>
              Separates(X, y, TrainFrom(X, y, lr, maxEpochs, epoch, m).model)
    decreases maxEpochs - epoch
  {
    if epoch < maxEpochs {
      var n := SampleCount(X, y);
      var e := Epoch(X, y, lr, m, n);
      if e.errors == 0 {
        EpochZeroErrorsIff(X, y, lr, m, n);
        forall i | 0 <= i < n
          ensures Margin(X.rows[i], y[i], e.model) > 0.0
        {
          assert !Misclassified(X.rows[i], y[i], m);
        }
      } else {
        TrainFromConvergedSeparates(X, y, lr, maxEpochs, epoch + 1, e.model);
      }
    }
  }

  /** A converged training run strictly separates its training samples. */
  lemma ConvergedSeparates(X: Matrix, y: seq<int>, lr: real, maxEpochs: int)
    requires X.Valid() && Train(X, y, lr, maxEpochs).convergedAt.Some?
    ensures Separates(X, y, Train(X, y, lr, maxEpochs).model)
  {
    TrainFromConvergedSeparates(X, y, lr, maxEpochs, 0, Initial(X));
  }

  /** With labels in {-1, +1}, the parameters of a converged run predict
      every training sample's label. */
  lemma ConvergedPredictsLabels(X: Matrix, y: seq<int>, lr: real, maxEpochs: int)
    requires X.Valid() && BinaryLabels(y) && Train(X, y, lr, maxEpochs).convergedAt.Some?
    ensures forall i :: 0 <= i < SampleCount(X, y) ==>
              PredictOne(X.rows[i], Train(X, y, lr, maxEpochs).model) == y[i]
  {
    var m := Train(X, y, lr, maxEpochs).model;
    ConvergedSeparates(X, y, lr, maxEpochs);
    forall i | 0 <= i < SampleCount(X, y)
      ensures PredictOne(X.rows[i], m) == y[i]
    {
      MarginPredictsLabel(X.rows[i], y[i], m);
    }
  }

  /** A pass with no error is a fixed point: every later full pass leaves
      the parameters where they are. */
  lemma {:induction false} ModelAfterFixpoint(X: Matrix, y: seq<int>, lr: real, j: nat, k: nat)
    requires X.Valid() && j <= k && EpochErrors(X, y, lr, j) == 0
    ensures ModelAfter(X, y, lr, k) == ModelAfter(X, y, lr, j)
    decreases k
  {
    if k > j {
      ModelAfterFixpoint(X, y, lr, j, k - 1);
    }
  }

  /** The loop started at epoch `epoch` from the parameters of `epoch` full
      passes, when none of those passes converged: it ends with the parameters
      of max(epoch, maxEpochs) full passes, and it reports the first pass
      with no error, or none if there is none before maxEpochs. */
  lemma {:induction false} TrainFromIsFullRun(X: Matrix, y: seq<int>, lr: real, maxEpochs: int, epoch: nat)
    requires X.Valid()
    requires forall j :: 0 <= j < epoch ==> EpochErrors(X, y, lr, j) > 0
    ensures var r := TrainFrom(X, y, lr, maxEpochs, epoch, ModelAfter(X, y, lr, epoch));
            && r.model == ModelAfter(X, y, lr, if maxEpochs <= epoch then epoch else maxEpochs)
            && (r.convergedAt.Some? ==>
                  && EpochErrors(X, y, lr, r.convergedAt.value - 1) == 0
                  && forall j :: 0 <= j < r.convergedAt.value - 1 ==> EpochErrors(X, y, lr, j) > 0)
            && (r.convergedAt.None? ==>
                  forall j :: 0 <= j < maxEpochs ==> EpochErrors(X, y, lr, j) > 0)
    decreases maxEpochs - epoch
  {
    if epoch < maxEpochs {
      if EpochErrors(X, y, lr, epoch) == 0 {
        ModelAfterFixpoint(X, y, lr, epoch, maxEpochs);
        ModelAfterFixpoint(X, y, lr, epoch, epoch + 1);
      } else {
        TrainFromIsFullRun(X, y, lr, maxEpochs, epoch + 1);
      }
    }
  }

  /** Stopping early changes nothing: a run ends with the parameters of
      max_epochs full passes (none for a non-positive max_epochs), whether or
      not it converged. */
  lemma EarlyExitMatchesFullRun(X: Matrix, y: seq<int>, lr: real, maxEpochs: int)
    requires X.Valid()
    ensures Train(X, y, lr, maxEpochs).model == ModelAfter(X, y, lr, if maxEpochs <= 0 then 0 else maxEpochs)
  {
    TrainFromIsFullRun(X, y, lr, maxEpochs, 0);
  }

  /** A run reports convergence at epoch k exactly when k lies in
      1..maxEpochs, pass k counts no error and every earlier pass counts
      some; it reports none exactly when every pass within the bound counts
      an error. */
  lemma ConvergedAtIff(X: Matrix, y: seq<int>, lr: real, maxEpochs: int, k: nat)
    requires X.Valid()
    ensures Train(X, y, lr, maxEpochs).convergedAt == Some(k) <==>
              && 1 <= k <= maxEpochs
              && EpochErrors(X, y, lr, k - 1) == 0
              && forall j :: 0 <= j < k - 1 ==> EpochErrors(X, y, lr, j) > 0
    ensures Train(X, y, lr, maxEpochs).convergedAt == None <==>
              forall j :: 0 <= j < maxEpochs ==> EpochErrors(X, y, lr, j) > 0
  {
    TrainFromIsFullRun(X, y, lr, maxEpochs, 0);
    var r := Train(X, y, lr, maxEpochs);
    if r.convergedAt.Some? && r.convergedAt.value != k && 1 <= k <= maxEpochs && EpochErrors(X, y, lr, k - 1) == 0 {
      var c := r.convergedAt.value;
      assert c - 1 < k - 1 || k - 1 < c - 1;
    }
  }
}

