/** The population variance that `DetectionService.variance` computes with two accumulator loops. */
module Stats {

  /** Sum of the values, accumulated from the first to the last as the running total `m` is. */
  function Sum(s: seq<real>): real
  {
    if |s| == 0 then 0.0 else Sum(s[..|s| - 1]) + s[|s| - 1]
  }

  function Mean(s: seq<real>): real
    requires |s| > 0
  {
    Sum(s) / (|s| as real)
  }

  /** Sum of the squared deviations from `m`, accumulated in the same order as `s`. */
  function SquaredDeviations(s: seq<real>, m: real): (r: real)
    ensures r >= 0.0
  {
    if |s| == 0 then 0.0
    else
      var d := s[|s| - 1] - m;
      SquaredDeviations(s[..|s| - 1], m) + d * d
  }

  /** Population variance; zero for fewer than two values. */
  function PopulationVariance(s: seq<real>): (v: real)
    ensures v >= 0.0
    ensures |s| < 2 ==> v == 0.0
  {
    if |s| < 2 then 0.0 else SquaredDeviations(s, Mean(s)) / (|s| as real)
  }

  lemma {:induction false} SumOfConstant(s: seq<real>, c: real)
    requires forall i :: 0 <= i < |s| ==> s[i] == c
    ensures Sum(s) == (|s| as real) * c
  {
    if |s| > 0 {
      SumOfConstant(s[..|s| - 1], c);
    }
  }

  lemma {:induction false} DeviationsOfConstant(s: seq<real>, c: real)
    requires forall i :: 0 <= i < |s| ==> s[i] == c
    ensures SquaredDeviations(s, c) == 0.0
  {
    if |s| > 0 {
      DeviationsOfConstant(s[..|s| - 1], c);
    }
  }

  /** Samples that do not move at all have no variance: the resting phone the drop detector looks for. */
  lemma ConstantHasNoVariance(s: seq<real>, c: real)
    requires forall i :: 0 <= i < |s| ==> s[i] == c
    ensures PopulationVariance(s) == 0.0
  {
    if |s| >= 2 {
      SumOfConstant(s, c);
      assert Mean(s) == c;
      DeviationsOfConstant(s, c);
    }
  }
}
