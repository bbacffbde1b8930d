/** The OR-gate example of the repository's main block: four two-feature
    points, labels -1 for (0, 0) and +1 otherwise, learning rate 0.1 and at
    most 10 epochs. */
module OrGate {
  import opened Training
  import opened Classifier

  function Inputs(): Matrix {
    Matrix(2, [[0.0, 0.0], [0.0, 1.0], [1.0, 0.0], [1.0, 1.0]])
  }

  function Labels(): seq<int> {
    [-1, 1, 1, 1]
  }

  /** A pass over four samples, given the parameters after each sample and
      which samples were errors. */
  lemma FourSamplePass(X: Matrix, y: seq<int>, lr: real, m: Weights, m1: Weights, m2: Weights,
                       m3: Weights, m4: Weights, e1: bool, e2: bool, e3: bool, e4: bool)
    requires X.Valid() && |m.w| == X.nFeatures && SampleCount(X, y) == 4
    requires |m1.w| == |m2.w| == |m3.w| == X.nFeatures
    requires Step(m, lr, X.rows[0], y[0]) == m1 && Misclassified(X.rows[0], y[0], m) == e1
    requires Step(m1, lr, X.rows[1], y[1]) == m2 && Misclassified(X.rows[1], y[1], m1) == e2
    requires Step(m2, lr, X.rows[2], y[2]) == m3 && Misclassified(X.rows[2], y[2], m2) == e3
    requires Step(m3, lr, X.rows[3], y[3]) == m4 && Misclassified(X.rows[3], y[3], m3) == e4
    ensures Epoch(X, y, lr, m, 4) ==
            EpochResult(m4, (if e1 then 1 else 0) + (if e2 then 1 else 0) + (if e3 then 1 else 0) + (if e4 then 1 else 0))
  {
    EpochExtend(X, y, lr, m, 0);
    EpochExtend(X, y, lr, m, 1);
    EpochExtend(X, y, lr, m, 2);
    EpochExtend(X, y, lr, m, 3);
  }

  /** One epoch of the loop that found errors hands over to the next. */
  lemma NextEpoch(X: Matrix, y: seq<int>, lr: real, maxEpochs: int, epoch: nat, m: Weights, m': Weights, errors: nat)
    requires X.Valid() && |m.w| == X.nFeatures && epoch < maxEpochs
    requires Epoch(X, y, lr, m, SampleCount(X, y)) == EpochResult(m', errors) && errors > 0
    ensures TrainFrom(X, y, lr, maxEpochs, epoch, m) == TrainFrom(X, y, lr, maxEpochs, epoch + 1, m')
  {
  }

  /** The six passes of the run, one lemma each: the effect of every point
      on the parameters (or that it is classified correctly), and the
      resulting hand-over of the epoch loop from one pass to the next. The
      data come in as parameters pinned by `requires` rather than as the
      literals `Inputs()` and `Labels()`, which keeps the verifier from
      unfolding the whole run on literal arguments. */
  lemma PassOne(X: Matrix, y: seq<int>)
    requires X == Inputs() && y == Labels()
    ensures Epoch(X, y, 0.1, Weights([0.0, 0.0], 0.0), 4) == EpochResult(Weights([0.1, 0.1], 0.1), 3)
    ensures TrainFrom(X, y, 0.1, 10, 0, Weights([0.0, 0.0], 0.0)) == TrainFrom(X, y, 0.1, 10, 1, Weights([0.1, 0.1], 0.1))
  {
    assert Step(Weights([0.0, 0.0], 0.0), 0.1, [0.0, 0.0], -1) == Weights([0.0, 0.0], -0.1);
    assert Step(Weights([0.0, 0.0], -0.1), 0.1, [0.0, 1.0], 1) == Weights([0.0, 0.1], 0.0);
    assert Step(Weights([0.0, 0.1], 0.0), 0.1, [1.0, 0.0], 1) == Weights([0.1, 0.1], 0.1);
    assert !Misclassified([1.0, 1.0], 1, Weights([0.1, 0.1], 0.1));
    FourSamplePass(X, y, 0.1, Weights([0.0, 0.0], 0.0), Weights([0.0, 0.0], -0.1), Weights([0.0, 0.1], 0.0),
                   Weights([0.1, 0.1], 0.1), Weights([0.1, 0.1], 0.1), true, true, true, false);
    NextEpoch(X, y, 0.1, 10, 0, Weights([0.0, 0.0], 0.0), Weights([0.1, 0.1], 0.1), 3);
  }

  lemma PassTwo(X: Matrix, y: seq<int>)
    requires X == Inputs() && y == Labels()
    ensures Epoch(X, y, 0.1, Weights([0.1, 0.1], 0.1), 4) == EpochResult(Weights([0.1, 0.1], 0.0), 1)
    ensures TrainFrom(X, y, 0.1, 10, 1, Weights([0.1, 0.1], 0.1)) == TrainFrom(X, y, 0.1, 10, 2, Weights([0.1, 0.1], 0.0))
  {
    assert Step(Weights([0.1, 0.1], 0.1), 0.1, [0.0, 0.0], -1) == Weights([0.1, 0.1], 0.0);
    assert !Misclassified([0.0, 1.0], 1, Weights([0.1, 0.1], 0.0));
    assert !Misclassified([1.0, 0.0], 1, Weights([0.1, 0.1], 0.0));
    assert !Misclassified([1.0, 1.0], 1, Weights([0.1, 0.1], 0.0));
    FourSamplePass(X, y, 0.1, Weights([0.1, 0.1], 0.1), Weights([0.1, 0.1], 0.0), Weights([0.1, 0.1], 0.0),
                   Weights([0.1, 0.1], 0.0), Weights([0.1, 0.1], 0.0), true, false, false, false);
    NextEpoch(X, y, 0.1, 10, 1, Weights([0.1, 0.1], 0.1), Weights([0.1, 0.1], 0.0), 1);
  }

  lemma PassThree(X: Matrix, y: seq<int>)
    requires X == Inputs() && y == Labels()
    ensures Epoch(X, y, 0.1, Weights([0.1, 0.1], 0.0), 4) == EpochResult(Weights([0.1, 0.2], 0.0), 2)
    ensures TrainFrom(X, y, 0.1, 10, 2, Weights([0.1, 0.1], 0.0)) == TrainFrom(X, y, 0.1, 10, 3, Weights([0.1, 0.2], 0.0))
  {
    assert Step(Weights([0.1, 0.1], 0.0), 0.1, [0.0, 0.0], -1) == Weights([0.1, 0.1], -0.1);
    assert Step(Weights([0.1, 0.1], -0.1), 0.1, [0.0, 1.0], 1) == Weights([0.1, 0.2], 0.0);
    assert !Misclassified([1.0, 0.0], 1, Weights([0.1, 0.2], 0.0));
    assert !Misclassified([1.0, 1.0], 1, Weights([0.1, 0.2], 0.0));
    FourSamplePass(X, y, 0.1, Weights([0.1, 0.1], 0.0), Weights([0.1, 0.1], -0.1), Weights([0.1, 0.2], 0.0),
                   Weights([0.1, 0.2], 0.0), Weights([0.1, 0.2], 0.0), true, true, false, false);
    NextEpoch(X, y, 0.1, 10, 2, Weights([0.1, 0.1], 0.0), Weights([0.1, 0.2], 0.0), 2);
  }

  lemma PassFour(X: Matrix, y: seq<int>)
    requires X == Inputs() && y == Labels()
    ensures Epoch(X, y, 0.1, Weights([0.1, 0.2], 0.0), 4) == EpochResult(Weights([0.2, 0.2], 0.0), 2)
    ensures TrainFrom(X, y, 0.1, 10, 3, Weights([0.1, 0.2], 0.0)) == TrainFrom(X, y, 0.1, 10, 4, Weights([0.2, 0.2], 0.0))
  {
    assert Step(Weights([0.1, 0.2], 0.0), 0.1, [0.0, 0.0], -1) == Weights([0.1, 0.2], -0.1);
    assert !Misclassified([0.0, 1.0], 1, Weights([0.1, 0.2], -0.1));
    assert Step(Weights([0.1, 0.2], -0.1), 0.1, [1.0, 0.0], 1) == Weights([0.2, 0.2], 0.0);
    assert !Misclassified([1.0, 1.0], 1, Weights([0.2, 0.2], 0.0));
    FourSamplePass(X, y, 0.1, Weights([0.1, 0.2], 0.0), Weights([0.1, 0.2], -0.1), Weights([0.1, 0.2], -0.1),
                   Weights([0.2, 0.2], 0.0), Weights([0.2, 0.2], 0.0), true, false, true, false);
    NextEpoch(X, y, 0.1, 10, 3, Weights([0.1, 0.2], 0.0), Weights([0.2, 0.2], 0.0), 2);
  }

  lemma PassFive(X: Matrix, y: seq<int>)
    requires X == Inputs() && y == Labels()
    ensures Epoch(X, y, 0.1, Weights([0.2, 0.2], 0.0), 4) == EpochResult(Weights([0.2, 0.2], -0.1), 1)
    ensures TrainFrom(X, y, 0.1, 10, 4, Weights([0.2, 0.2], 0.0)) == TrainFrom(X, y, 0.1, 10, 5, Weights([0.2, 0.2], -0.1))
  {
    assert Step(Weights([0.2, 0.2], 0.0), 0.1, [0.0, 0.0], -1) == Weights([0.2, 0.2], -0.1);
    assert !Misclassified([0.0, 1.0], 1, Weights([0.2, 0.2], -0.1));
    assert !Misclassified([1.0, 0.0], 1, Weights([0.2, 0.2], -0.1));
    assert !Misclassified([1.0, 1.0], 1, Weights([0.2, 0.2], -0.1));
    FourSamplePass(X, y, 0.1, Weights([0.2, 0.2], 0.0), Weights([0.2, 0.2], -0.1), Weights([0.2, 0.2], -0.1),
                   Weights([0.2, 0.2], -0.1), Weights([0.2, 0.2], -0.1), true, false, false, false);
    NextEpoch(X, y, 0.1, 10, 4, Weights([0.2, 0.2], 0.0), Weights([0.2, 0.2], -0.1), 1);
  }

  lemma PassSix(X: Matrix, y: seq<int>)
    requires X == Inputs() && y == Labels()
    ensures Epoch(X, y, 0.1, Weights([0.2, 0.2], -0.1), 4) == EpochResult(Weights([0.2, 0.2], -0.1), 0)
    ensures TrainFrom(X, y, 0.1, 10, 5, Weights([0.2, 0.2], -0.1)) == Outcome(Weights([0.2, 0.2], -0.1), Some(6))
  {
    var m := Weights([0.2, 0.2], -0.1);
    assert !Misclassified([0.0, 0.0], -1, m);
    assert !Misclassified([0.0, 1.0], 1, m);
    assert !Misclassified([1.0, 0.0], 1, m);
    assert !Misclassified([1.0, 1.0], 1, m);
    FourSamplePass(X, y, 0.1, m, m, m, m, m, false, false, false, false);
  }

  /** Training converges in the sixth pass with w = (0.2, 0.2) and b = -0.1,
      after passes counting 3, 1, 2, 2 and 1 errors. */
  lemma OrGateTraining(X: Matrix, y: seq<int>)
    requires X == Inputs() && y == Labels()
    ensures X.Valid()
    ensures Train(X, y, 0.1, 10) == Outcome(Weights([0.2, 0.2], -0.1), Some(6))
  {
    assert X.Valid();
    assert Initial(X) == Weights([0.0, 0.0], 0.0);
    PassOne(X, y);
    PassTwo(X, y);
    PassThree(X, y);
    PassFour(X, y);
    PassFive(X, y);
    PassSix(X, y);
  }

  /** The same run through the classifier object: it reports convergence in
      epoch 6, ends with w = (0.2, 0.2) and b = -0.1, and then reproduces the
      labels on its training points. */
  method OrGateDemo() returns (convergedAt: Option<nat>, weights: seq<real>, bias: real, predictions: seq<int>)
    ensures convergedAt == Some(6)
    ensures weights == [0.2, 0.2] && bias == -0.1
    ensures predictions == Labels()
  {
    var X, y := Inputs(), Labels();
    assert BinaryLabels(y) && |y| == |X.rows|;
    OrGateTraining(X, y);
    var p := new Perceptron(0.1, 10);
    convergedAt := p.Fit(X, y);
    weights, bias := p.w, p.b;
    predictions := p.Predict(X);
  }
}
