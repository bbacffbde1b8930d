# Perceptron

A Dafny model of the `Perceptron` class in `perceptron.py`. This is a binary
linear classifier trained by the classical perceptron rule.

- Construction stores a learning rate and an epoch bound.
- `fit` resets the weights and bias to zero. It then runs up to `max_epochs`
  in-order passes over the `(row, label)` pairs. Each sample with
  `target * (dot(x, w) + b) <= 0` counts as an error and triggers the in-place
  update `w += lr * target * x`, `b += lr * target`. Training stops after the
  first pass with no error.
- `predict` maps each row to +1 when `dot(x, w) + b >= 0` and to -1 otherwise.

The files are:

- `vectors.dfy`: the vector operations. These are dot product, zeros and
  `w + c * x`, with their linearity lemmas.
- `training.dfy`: the learning rule as pure functions. These are one sample
  (`Step`), one pass (`Epoch`), the epoch loop with its early exit
  (`TrainFrom`, `Train`), a reference definition without early exit
  (`ModelAfter`), and the inference rule (`PredictOne`). It also holds the
  lemmas about them.
- `perceptron.dfy`: the class `Classifier.Perceptron`. Its `Fit`
  updates the fields `w`, `b` and `fitted` in place with nested loops, and is
  proved against `Train`. `Predict` only reads the fields.
- `or_gate.dfy`: the OR-gate example of the module's main block, worked
  through to its exact result.

Numbers are exact reals in place of float64. The printed convergence notice
becomes the value `Fit` returns: `Some(epoch + 1)` if training converged,
`None` otherwise.

## Model

| member | source | states |
|---|---|---|
| Classifier.Perceptron.constructor | perceptron.py:4-8 | the learning rate and epoch bound are stored as given; they are `const`, so no method can change them; the model starts unfitted |
| Classifier.Perceptron.Fit | perceptron.py:10-30 | afterwards `w` has exactly `n_features` entries; `(w, b, convergedAt)` is exactly `Train(X, y, lr, maxEpochs)`, so the result depends only on the inputs and hyperparameters and never on an earlier fit; a reported epoch lies in 1..maxEpochs; on convergence the parameters strictly separate the training samples and `Predict(X) == y` for {-1, +1} labels |
| Classifier.Perceptron.TrainEpoch | perceptron.py:21-27 | one in-place pass over the `zip(X, y)` pairs leaves the fields and the error count exactly as `Epoch` describes |
| Classifier.Perceptron.Predict | perceptron.py:32-38 | one label per row, in row order; label +1 exactly when the activation is >= 0 and -1 exactly when it is < 0; it reads the fields and changes nothing |
| Training.Matrix.Valid | perceptron.py:16 | `X` as a two-dimensional array: every row has exactly `nFeatures` entries, the `n_features` of `X.shape` |
| Training.Activation | perceptron.py:24 | `np.dot(xi, self.w) + self.b`, defined for a row of the same length as `w` |
| Training.Misclassified | perceptron.py:24 | the update guard: the margin `target * (dot(x, w) + b)` is `<= 0`, ties included |
| Training.Initial | perceptron.py:17-18 | the reset: `n_features` zero weights and a zero bias |
| Training.Margin | perceptron.py:24 | `target * (np.dot(xi, self.w) + self.b)`: positive exactly when the sample lies strictly on the side of its label |
| Training.SampleCount | perceptron.py:22 | `zip` yields min(|rows|, |y|) pairs: at most each length and equal to one of them |
| Training.PredictOne | perceptron.py:37-38 | the result is +1 or -1, and +1 exactly when dot(x, w) + b >= 0 |
| Training.Step | perceptron.py:23-26 | keeps the weight length; a sample that is not misclassified leaves the parameters unchanged |
| Training.StepEffect | perceptron.py:23-26 | a sample changes the parameters only if `target * activation <= 0`; it then changes them by exactly `w[k] += lr * target * x[k]` for every k and `b += lr * target` |
| Training.UpdateIsStep | perceptron.py:23-26 | the in-place update with `update = lr * target` gives exactly `Step`'s result for an error |
| Training.Epoch | perceptron.py:21-27 | a pass over the first i samples keeps the weight length; it counts at most i errors; a pass with zero errors leaves the parameters unchanged |
| Training.EpochExtend | perceptron.py:22-27 | each further sample of a pass applies `Step` to the parameters left by the previous sample, and counts one more error exactly when it is misclassified by them |
| Training.EpochZeroErrorsIff | perceptron.py:21-28 | a pass counts no error if and only if every sample is correctly classified by the parameters the pass started with |
| Training.TrainFrom | perceptron.py:20-30 | the epoch loop keeps the weight length; a reported epoch is greater than the starting epoch and at most maxEpochs |
| Training.Train | perceptron.py:16-30 | a run from zero weights and bias keeps the weight length n_features; a reported epoch lies in 1..maxEpochs |
| Training.ModelAfter | perceptron.py:20-27 | reference definition without the early exit: k full passes from zero, each keeping the weight length |
| Training.TieIsErrorButPredictsPositive | perceptron.py:24-38 | an activation of exactly 0 is a training error for every label, yet predicts +1 |
| Training.StepMarginGain | perceptron.py:23-26 | an update raises the sample's margin `target * activation` by exactly lr * target² * (\|x\|² + 1) |
| Training.ActivationAfterUpdate | perceptron.py:25-26 | adding c * x to w and c to b raises x's activation by c * (\|x\|² + 1) |
| Training.StepImprovesMargin | perceptron.py:23-26 | with lr > 0 and a non-zero label, an update strictly improves the margin of the sample that triggered it |
| Training.MarginPredictsLabel | perceptron.py:37-38 | a sample with label in {-1, +1} and a positive margin is predicted as its label |
| Training.NeverConvergesInFirstEpoch | perceptron.py:17-28 | if there is at least one sample, the run never converges in epoch 1, because the first sample has activation 0 under the zero start |
| Training.TrainFromConvergedSeparates | perceptron.py:20-30 | when the loop exits through the zero-error branch, its parameters give every sample a strictly positive margin |
| Training.ConvergedSeparates | perceptron.py:16-30 | a converged run strictly separates its training samples |
| Training.ConvergedPredictsLabels | perceptron.py:24-38 | with labels in {-1, +1}, a converged run predicts every training label |
| Training.ModelAfterFixpoint | perceptron.py:21-28 | once a full pass counts no error, later full passes leave the parameters where they are |
| Training.TrainFromIsFullRun | perceptron.py:20-30 | started after `epoch` non-converging passes, the loop ends with the parameters of max(epoch, maxEpochs) full passes; a reported epoch is the first pass with no error, and `None` means every pass within the bound counted one |
| Training.EarlyExitMatchesFullRun | perceptron.py:20-30 | breaking out early changes nothing: a run ends with the parameters of maxEpochs full passes (none when maxEpochs <= 0) |
| Training.ConvergedAtIff | perceptron.py:20-30 | the run reports epoch k if and only if k is in 1..maxEpochs, pass k counts no error and every earlier pass counts some; it reports none if and only if every pass within the bound counts an error |
| Vectors.Dot | perceptron.py:24 | `np.dot` of two vectors, defined only when they have the same length: the sum of x[k] * y[k] |
| Vectors.Zeros | perceptron.py:17 | `np.zeros(n)`: n entries, all 0 |
| Vectors.AddScaled | perceptron.py:25 | `w + c * x`: the same length, and entry k is w[k] + c * x[k] |
| Vectors.DotZeros | perceptron.py:17-24 | every vector has dot product 0 with the zero vector |
| Vectors.DotAddScaled | perceptron.py:24-25 | the dot product is linear in its second argument |
| Vectors.DotSelfNonNegative | perceptron.py:24-25 | the squared norm dot(x, x) is never negative |
| OrGate.Inputs | perceptron.py:44-47 | the four two-feature OR-gate points (0, 0), (0, 1), (1, 0), (1, 1) |
| OrGate.Labels | perceptron.py:48 | the labels -1, 1, 1, 1 |
| OrGate.FourSamplePass | perceptron.py:22-27 | a pass over four samples ends with the parameters after the fourth sample and counts one error per misclassified sample |
| OrGate.NextEpoch | perceptron.py:20-30 | a pass that counts errors hands the loop on to the next epoch with its parameters |
| OrGate.PassOne | perceptron.py:44-51 | first pass of the OR-gate run from (0, 0), 0: 3 errors, ending at w = (0.1, 0.1), b = 0.1, so the run moves on to epoch 1 there |
| OrGate.PassTwo | perceptron.py:44-51 | second pass: 1 error, ending at w = (0.1, 0.1), b = 0, so the run moves on to epoch 2 there |
| OrGate.PassThree | perceptron.py:44-51 | third pass: 2 errors, ending at w = (0.1, 0.2), b = 0, so the run moves on to epoch 3 there |
| OrGate.PassFour | perceptron.py:44-51 | fourth pass: 2 errors, ending at w = (0.2, 0.2), b = 0, so the run moves on to epoch 4 there |
| OrGate.PassFive | perceptron.py:44-51 | fifth pass: 1 error, ending at w = (0.2, 0.2), b = -0.1, so the run moves on to epoch 5 there |
| OrGate.PassSix | perceptron.py:44-51 | sixth pass: no error and unchanged parameters, so training converges in epoch 6 |
| OrGate.OrGateTraining | perceptron.py:44-51 | training on the OR gate with lr 0.1 and at most 10 epochs converges in epoch 6 with w = (0.2, 0.2), b = -0.1 |
| OrGate.OrGateDemo | perceptron.py:42-58 | through the class: convergence is reported at epoch 6; the weights are (0.2, 0.2) and the bias is -0.1; the predictions are [-1, 1, 1, 1], the training labels |

## Left out

- Floating point: all arithmetic is over exact reals, so float64 rounding is not modelled. The OR-gate figures are the exact-real values; float64 sums such as 0.1 + 0.1 are only approximations of them.
- numpy mechanics: `X.shape`, broadcasting, `np.dot` of a matrix and `np.where` are modelled as operations on sequences. `X` is a `Matrix` value that carries its feature count, so an empty `X` still fixes the length of `w`.
- The printed convergence notice (perceptron.py:29) and the prints of the main block (perceptron.py:53-58): output is I/O. `Fit` returns the epoch number instead, and `OrGateDemo` returns the printed values.
- The unset state `w = b = None` is modelled as the `fitted` flag. Calling `predict` before `fit` and feature-count mismatches fail in numpy; here they are `requires` clauses of `Predict`.
- Input validation: `perceptron.py` raises no errors of its own. It checks no shapes, labels or hyperparameters, so the model has no error paths. Labels are modelled as integers; the docstring (perceptron.py:14) allows only -1 and +1, and numpy would also accept other numbers, floats included. The learning rate is any real and `max_epochs` any integer (a negative bound gives no pass). Properties that need labels in {-1, +1}, such as `Training.ConvergedPredictsLabels`, take that as a hypothesis.
- A length mismatch between `X` and `y` is not rejected. Like `zip`, training uses the first min(|rows|, |y|) pairs. `Classifier.Perceptron.Fit` promises `Predict(X) == y` only when the lengths agree, since otherwise the predictions and labels differ in length.
- The perceptron convergence theorem (a mistake bound for linearly separable data) is not modelled, and the code does not promise it. `Training.StepImprovesMargin` shows only that an update moves the triggering sample toward its label; the convergence theorem needs a different argument.
- The sample loop of `fit` is the separate method `Classifier.Perceptron.TrainEpoch`, which `Fit` calls once per epoch. The update test is written with the `Misclassified` predicate, which is exactly `target * (dot(x, w) + b) <= 0`.
- The integer bias `0` that `fit` starts from (perceptron.py:18) is the real 0.0. After its first update numpy turns it into a float; with exact reals there is no difference.
