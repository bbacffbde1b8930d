/** The classifier object: hyperparameters fixed at construction, learned
    weights and bias that `Fit` resets and retrains in place, and `Predict`,
    which only reads them. */
module Classifier {
  import opened Vectors
  import opened Training

  class Perceptron {
    /** The learning rate and the epoch bound; no method reassigns them. */
    const lr: real
    const maxEpochs: int

    /** The learned parameters, meaningful once `fitted` holds. */
    var w: seq<real>
    var b: real
    var fitted: bool

    /** A fresh, unfitted classifier that keeps its hyperparameters as given. */
    constructor (learningRate: real := 0.1, maxEpochs: int := 1000)
      ensures lr == learningRate && this.maxEpochs == maxEpochs
      ensures !fitted
    {
      lr := learningRate;
      this.maxEpochs := maxEpochs;
      w := [];
      b := 0.0;
      fitted := false;
    }

    /** Resets the parameters to zero and runs up to maxEpochs in-order
        passes over the (row, label) pairs, stopping after the first pass
        with no error; returns the 1-based number of that pass, if any. */
    method Fit(X: Matrix, y: seq<int>) returns (convergedAt: Option<nat>)
      requires X.Valid()
      modifies this
      ensures fitted && |w| == X.nFeatures
      ensures Train(X, y, lr, maxEpochs) == Outcome(Weights(w, b), convergedAt)
      ensures convergedAt.Some? ==> 1 <= convergedAt.value <= maxEpochs
      ensures convergedAt.Some? ==> Separates(X, y, Weights(w, b))
      ensures convergedAt.Some? && BinaryLabels(y) && |y| == |X.rows| ==> Predict(X) == y
    {
      w := Zeros(X.nFeatures);
      b := 0.0;
      fitted := true;
      convergedAt := None;
      var epoch: nat := 0;
      while epoch < maxEpochs
        invariant epoch <= maxEpochs || epoch == 0
        invariant fitted && |w| == X.nFeatures && convergedAt == None
        invariant TrainFrom(X, y, lr, maxEpochs, epoch, Weights(w, b)) == Train(X, y, lr, maxEpochs)
        decreases maxEpochs - epoch
      {
        ghost var start := Weights(w, b);
        var errors := TrainEpoch(X, y);
        assert TrainFrom(X, y, lr, maxEpochs, epoch, start) ==
               if errors == 0 then Outcome(Weights(w, b), Some(epoch + 1))
               else TrainFrom(X, y, lr, maxEpochs, epoch + 1, Weights(w, b));
        if errors == 0 {
          convergedAt := Some(epoch + 1);
          break;
        }
        epoch := epoch + 1;
      }
      if convergedAt.Some? {
        ConvergedSeparates(X, y, lr, maxEpochs);
        if BinaryLabels(y) && |y| == |X.rows| {
          ConvergedPredictsLabels(X, y, lr, maxEpochs);
        }
      }
    }

    /** One pass of the inner loop of `fit`: each (row, label) pair in order,
        updating the parameters in place whenever the pair is an error, and
        counting the errors. */
    method TrainEpoch(X: Matrix, y: seq<int>) returns (errors: nat)
      requires X.Valid() && |w| == X.nFeatures
      modifies this`w, this`b
      ensures |w| == X.nFeatures
      ensures Epoch(X, y, lr, old(Weights(w, b)), SampleCount(X, y)) == EpochResult(Weights(w, b), errors)
    {
      ghost var start := Weights(w, b);
      var n := SampleCount(X, y);
      errors := 0;
      var i := 0;
      while i < n
        invariant i <= n
        invariant |w| == X.nFeatures
        invariant Epoch(X, y, lr, start, i) == EpochResult(Weights(w, b), errors)
      {
        var xi, target := X.rows[i], y[i];
        ghost var before := Weights(w, b);
        var update := lr * (target as real);
        if Misclassified(xi, target, Weights(w, b)) {
          w := AddScaled(w, update, xi);
          b := b + update;
          errors := errors + 1;
          UpdateIsStep(before, lr, xi, target, update, w, b);
        }
        i := i + 1;
      }
    }

    /** One label per row, in row order: +1 where dot(row, w) + b is at
        least 0 (a tie included), -1 where it is negative. */
    function Predict(X: Matrix): (r: seq<int>)
      reads this
      requires fitted && X.Valid() && X.nFeatures == |w|
      ensures |r| == |X.rows|
      ensures forall i :: 0 <= i < |r| ==>
                (r[i] == 1 <==> Activation(X.rows[i], Weights(w, b)) >= 0.0) &&
                (r[i] == -1 <==> Activation(X.rows[i], Weights(w, b)) < 0.0)
    {
      var m := Weights(w, b);
      seq(|X.rows|, i requires 0 <= i < |X.rows| => PredictOne(X.rows[i], m))
    }
  }
}
