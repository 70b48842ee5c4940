/** `MLService.predictFallProbability`: a logistic model when one was loaded, else a clamped heuristic. */
module MLScore {
  import opened Wrappers
  import opened Arith
  import opened Events

  /** What `load` leaves in the fields `lrWeights`, `lrBias` and `lrThreshold`. */
  datatype Descriptor = Descriptor(weights: Option<seq<real>>, bias: real, threshold: real)

  /** The field initialisers: no weights, bias 0, threshold 0.6. */
  const Unloaded := Descriptor(None, 0.0, 0.6)

  /** The logistic branch needs weights of length exactly two. */
  predicate UsesLogistic(d: Descriptor)
  {
    d.weights.Some? && |d.weights.value| == 2
  }

  /** The linear part the logistic branch feeds to the sigmoid. */
  function Logit(d: Descriptor, accelMag: real, gyroMag: real): real
    requires UsesLogistic(d)
  {
    d.weights.value[0] * accelMag + d.weights.value[1] * gyroMag + d.bias
  }

  /** A squashing function stands for `1 / (1 + exp(-z))` when it maps every input into [0,1]. */
  ghost predicate IsProbability(sigmoid: real -> real)
  {
    forall z :: 0.0 <= sigmoid(z) <= 1.0
  }

  /** Acceleration beyond 12 contributes linearly, reaching 1 at 27. */
  function AccelTerm(accelMag: Magnitude): (t: real)
    ensures t >= 0.0
    ensures accelMag <= 12.0 ==> t == 0.0
    ensures accelMag >= 27.0 ==> t >= 1.0
  {
    MaxReal(0.0, accelMag - 12.0) / 15.0
  }

  /** Rotation contributes up to one half, saturating at 300. */
  function GyroTerm(gyroMag: Magnitude): (t: real)
    ensures 0.0 <= t <= 0.5
    ensures gyroMag >= 300.0 ==> t == 0.5
  {
    MinReal(gyroMag, 300.0) / 300.0 * 0.5
  }

  /** The heuristic before clamping. */
  function RawFallback(accelMag: Magnitude, gyroMag: Magnitude): real
  {
    AccelTerm(accelMag) + GyroTerm(gyroMag)
  }

  function Clamp01(x: real): (r: real)
    ensures 0.0 <= r <= 1.0
    ensures 0.0 <= x <= 1.0 ==> r == x
    ensures x > 1.0 ==> r == 1.0
    ensures x < 0.0 ==> r == 0.0
  {
    MaxReal(0.0, MinReal(1.0, x))
  }

  /** The fallback score, the probability-like value in [0,1] the doc comment promises. */
  function Fallback(accelMag: Magnitude, gyroMag: Magnitude): (score: real)
    ensures 0.0 <= score <= 1.0
  {
    Clamp01(RawFallback(accelMag, gyroMag))
  }

  /** The prediction; `sigmoid` stands for the logistic function, which is not computed here. */
  function Predict(d: Descriptor, sigmoid: real -> real, accelMag: Magnitude, gyroMag: Magnitude): (p: real)
    ensures !UsesLogistic(d) ==> 0.0 <= p <= 1.0
    ensures IsProbability(sigmoid) ==> 0.0 <= p <= 1.0
  {
    if UsesLogistic(d) then sigmoid(Logit(d, accelMag, gyroMag))
    else Fallback(accelMag, gyroMag)
  }

  /** Without a usable model the score comes from the heuristic; with one, from the sigmoid alone. */
  lemma BranchSelection(d: Descriptor, sigmoid: real -> real, accelMag: Magnitude, gyroMag: Magnitude)
    ensures UsesLogistic(d) ==> Predict(d, sigmoid, accelMag, gyroMag) == sigmoid(Logit(d, accelMag, gyroMag))
    ensures !UsesLogistic(d) ==> Predict(d, sigmoid, accelMag, gyroMag) == Fallback(accelMag, gyroMag)
    ensures Predict(Unloaded, sigmoid, accelMag, gyroMag) == Fallback(accelMag, gyroMag)
  {
  }

  /** The loaded decision threshold is never consulted by the prediction. */
  lemma ThresholdIgnored(d: Descriptor, threshold: real, sigmoid: real -> real, accelMag: Magnitude, gyroMag: Magnitude)
    ensures Predict(d.(threshold := threshold), sigmoid, accelMag, gyroMag) == Predict(d, sigmoid, accelMag, gyroMag)
  {
    var d' := d.(threshold := threshold);
    assert UsesLogistic(d') == UsesLogistic(d);
    if UsesLogistic(d) {
      assert Logit(d', accelMag, gyroMag) == Logit(d, accelMag, gyroMag);
    }
  }

  /** Calm acceleration caps the fallback at one half, whatever the rotation. */
  lemma CalmAccelerationCapsScore(accelMag: Magnitude, gyroMag: Magnitude)
    requires accelMag <= 12.0
    ensures RawFallback(accelMag, gyroMag) == GyroTerm(gyroMag)
    ensures Fallback(accelMag, gyroMag) <= 0.5
  {
  }

  /** Acceleration of 27 or more saturates the fallback at exactly 1. */
  lemma StrongAccelerationSaturates(accelMag: Magnitude, gyroMag: Magnitude)
    requires accelMag >= 27.0
    ensures RawFallback(accelMag, gyroMag) >= 1.0
    ensures Fallback(accelMag, gyroMag) == 1.0
  {
  }

  /** More acceleration or more rotation never lowers the fallback score. */
  lemma FallbackMonotone(a1: Magnitude, g1: Magnitude, a2: Magnitude, g2: Magnitude)
    requires a1 <= a2 && g1 <= g2
    ensures Fallback(a1, g1) <= Fallback(a2, g2)
  {
    assert AccelTerm(a1) <= AccelTerm(a2);
    assert GyroTerm(g1) <= GyroTerm(g2);
  }
}
