/** Dense real vectors: the handful of numpy operations the perceptron uses
    (`np.zeros`, `np.dot` of two rows, and the in-place `w += c * x`), over
    exact reals standing in for float64. */
module Vectors {

  /** The dot product of two vectors of equal length. */
  function Dot(x: seq<real>, y: seq<real>): real
    requires |x| == |y|
    decreases |x|
  {
    if |x| == 0 then 0.0 else x[0] * y[0] + Dot(x[1..], y[1..])
  }

  /** A vector of `n` zeros. */
  function Zeros(n: nat): (r: seq<real>)
    ensures |r| == n
    ensures forall k :: 0 <= k < n ==> r[k] == 0.0
  {
    if n == 0 then [] else [0.0] + Zeros(n - 1)
  }

  /** The vector `w + c * x`, computed elementwise. */
  function AddScaled(w: seq<real>, c: real, x: seq<real>): (r: seq<real>)
    requires |w| == |x|
    ensures |r| == |w|
    ensures forall k :: 0 <= k < |w| ==> r[k] == w[k] + c * x[k]
  {
    if |w| == 0 then [] else [w[0] + c * x[0]] + AddScaled(w[1..], c, x[1..])
  }

  /** Any vector is orthogonal to the zero vector. */
  lemma {:induction false} DotZeros(x: seq<real>)
    ensures Dot(x, Zeros(|x|)) == 0.0
  {
    if |x| > 0 {
      assert Zeros(|x|)[1..] == Zeros(|x| - 1);
      DotZeros(x[1..]);
    }
  }

  /** The dot product is linear in its second argument. */
  lemma {:induction false} DotAddScaled(x: seq<real>, w: seq<real>, c: real, v: seq<real>)
    requires |x| == |w| == |v|
    ensures Dot(x, AddScaled(w, c, v)) == Dot(x, w) + c * Dot(x, v)
  {
    if |x| > 0 {
      var s := AddScaled(w, c, v);
      var tail := AddScaled(w[1..], c, v[1..]);
      assert s[1..] == tail by {
        assert forall k :: 0 <= k < |tail| ==> s[1..][k] == tail[k];
      }
      DotAddScaled(x[1..], w[1..], c, v[1..]);
      var a, d := Dot(x[1..], w[1..]), Dot(x[1..], v[1..]);
      assert Dot(x, s) == x[0] * s[0] + (a + c * d);
      assert x[0] * s[0] == x[0] * w[0] + c * (x[0] * v[0]);
    }
  }

  /** The squared norm of a vector is never negative. */
  lemma {:induction false} DotSelfNonNegative(x: seq<real>)
    ensures Dot(x, x) >= 0.0
  {
    if |x| > 0 {
      DotSelfNonNegative(x[1..]);
      assert x[0] * x[0] >= 0.0 by {
        if x[0] < 0.0 {
          assert x[0] * x[0] == (-x[0]) * (-x[0]);
        }
      }
    }
  }
}
