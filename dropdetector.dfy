/** `DetectionService.isLikelyDeviceDrop` and `variance`: flags impacts that look like the phone fell. */
module DropDetector {
  import opened Wrappers
  import opened Arith
  import opened Events
  import opened Stats
  import opened Text

  /** A stored sample lies in the window when it is at most 4000 ms older than the current one. */
  predicate InWindow(ev: Sample, current: Sample)
  {
    current.timestamp - 4000 <= ev.timestamp <= current.timestamp
  }

  /** The stream filter over the recent samples; it keeps their order. */
  function Window(recent: seq<Sample>, current: Sample): (w: seq<Sample>)
    ensures |w| <= |recent|
    ensures forall ev :: ev in w <==> ev in recent && InWindow(ev, current)
  {
    if |recent| == 0 then []
    else
      var rest := Window(recent[1..], current);
      assert forall ev :: ev in recent <==> ev == recent[0] || ev in recent[1..];
      if InWindow(recent[0], current) then [recent[0]] + rest else rest
  }

  /** The filter keeps order and multiplicity: it distributes over concatenation. */
  lemma {:induction false} WindowAppend(a: seq<Sample>, b: seq<Sample>, current: Sample)
    ensures Window(a + b, current) == Window(a, current) + Window(b, current)
    decreases |a|
  {
    if |a| == 0 {
      assert a + b == b;
    } else {
      assert (a + b)[0] == a[0];
      assert (a + b)[1..] == a[1..] + b;
      WindowAppend(a[1..], b, current);
    }
  }

  /** A single sample is kept exactly when it lies in the window. */
  lemma WindowOfOne(ev: Sample, current: Sample)
    ensures Window([ev], current) == if InWindow(ev, current) then [ev] else []
  {
  }

  /** The impact candidate: the first index whose magnitude beats every earlier one and 0, or -1. */
  function PeakIndex(w: seq<Sample>): (k: int)
    ensures -1 <= k < |w|
    ensures k == -1 ==> forall j :: 0 <= j < |w| ==> w[j].accelMag == 0.0
    ensures k >= 0 ==> w[k].accelMag > 0.0
    ensures k >= 0 ==> forall j :: 0 <= j < |w| ==> w[j].accelMag <= w[k].accelMag
    ensures k >= 0 ==> forall j :: 0 <= j < k ==> w[j].accelMag < w[k].accelMag
  {
    if |w| == 0 then -1
    else
      var k := PeakIndex(w[..|w| - 1]);
      var peak := if k < 0 then 0.0 else w[k].accelMag;
      if w[|w| - 1].accelMag > peak then |w| - 1 else k
  }

  /** The impact magnitude, 0 when no sample moved. */
  function PeakValue(w: seq<Sample>): (p: real)
    ensures p >= 0.0
    ensures forall j :: 0 <= j < |w| ==> w[j].accelMag <= p
    ensures PeakIndex(w) < 0 ==> p == 0.0
    ensures PeakIndex(w) >= 0 ==> p == w[PeakIndex(w)].accelMag
  {
    var k := PeakIndex(w);
    if k < 0 then 0.0 else w[k].accelMag
  }

  /** The "post-impact" slice: up to 4 samples at the indices right after the peak. */
  function PostSlice(w: seq<Sample>, idx: int): (p: seq<Sample>)
    requires 0 <= idx < |w|
    ensures |p| <= 4
    ensures p == w[idx + 1..Min(idx + 5, |w|)]
  {
    var start := Min(idx + 1, |w|);
    var end := Min(start + 4, |w|);
    var n := Max(0, end - start);
    w[start..start + n]
  }

  function AccelMags(p: seq<Sample>): (r: seq<real>)
    ensures |r| == |p| && forall i :: 0 <= i < |p| ==> r[i] == p[i].accelMag
  {
    seq(|p|, i requires 0 <= i < |p| => p[i].accelMag)
  }

  function GyroMags(p: seq<Sample>): (r: seq<real>)
    ensures |r| == |p| && forall i :: 0 <= i < |p| ==> r[i] == p[i].gyroMag
  {
    seq(|p|, i requires 0 <= i < |p| => p[i].gyroMag)
  }

  /** The context names a resting surface. */
  predicate SurfaceContext(context: Option<string>)
  {
    context.Some? && (Contains(context.value, "face_down") || Contains(context.value, "still_side"))
  }

  /** The detector's verdict: a strong peak, quiet samples after it, and a surface-like context.
      `recent` is `None` when the sample query failed. */
  predicate DropLike(current: Sample, recent: Option<seq<Sample>>)
    ensures DropLike(current, recent) ==>
      recent.Some? && Window(recent.value, current) != [] && SurfaceContext(current.context)
  {
    if recent.None? then false
    else
      var w := Window(recent.value, current);
      var k := PeakIndex(w);
      if k < 0 then false
      else
        var post := PostSlice(w, k);
        && w[k].accelMag > 18.0
        && PopulationVariance(AccelMags(post)) < 0.4
        && PopulationVariance(GyroMags(post)) < 25.0
        && SurfaceContext(current.context)
  }

  /** A drop verdict needs every one of its conditions. */
  lemma DropLikeNeedsEveryCondition(current: Sample, recent: Option<seq<Sample>>)
    requires DropLike(current, recent)
    ensures recent.Some? && Window(recent.value, current) != []
    ensures exists ev :: ev in recent.value && InWindow(ev, current) && ev.accelMag > 18.0
    ensures current.context.Some?
    ensures Contains(current.context.value, "face_down") || Contains(current.context.value, "still_side")
    ensures var w := Window(recent.value, current);
            var k := PeakIndex(w);
            && 0 <= k < |w|
            && PopulationVariance(AccelMags(PostSlice(w, k))) < 0.4
            && PopulationVariance(GyroMags(PostSlice(w, k))) < 25.0
  {
    var w := Window(recent.value, current);
    var k := PeakIndex(w);
    assert w[k] in w;
  }

  /** A failed query or an empty window fails safe to no drop. */
  lemma NoWindowIsNotDrop(current: Sample, recent: Option<seq<Sample>>)
    requires recent.None? || forall ev :: ev in recent.value ==> !InWindow(ev, current)
    ensures !DropLike(current, recent)
  {
    if recent.Some? {
      WindowOfOutsiders(recent.value, current);
    }
  }

  lemma {:induction false} WindowOfOutsiders(recent: seq<Sample>, current: Sample)
    requires forall ev :: ev in recent ==> !InWindow(ev, current)
    ensures Window(recent, current) == []
  {
    if |recent| > 0 {
      assert recent[0] in recent;
      assert forall ev :: ev in recent[1..] ==> ev in recent;
      WindowOfOutsiders(recent[1..], current);
    }
  }

  /** Without an impact above 18 in the window there is no drop. */
  lemma SoftWindowIsNotDrop(current: Sample, recent: seq<Sample>)
    requires forall ev :: ev in recent && InWindow(ev, current) ==> ev.accelMag <= 18.0
    ensures !DropLike(current, Some(recent))
  {
    var w := Window(recent, current);
    var k := PeakIndex(w);
    if k >= 0 {
      assert w[k] in w;
    }
  }

  /** Without a surface-like context there is no drop. */
  lemma NoSurfaceIsNotDrop(current: Sample, recent: Option<seq<Sample>>)
    requires !SurfaceContext(current.context)
    ensures !DropLike(current, recent)
  {
  }

  /** Samples that all lie in the window pass the filter unchanged. */
  lemma {:induction false} WindowOfInsiders(recent: seq<Sample>, current: Sample)
    requires forall i :: 0 <= i < |recent| ==> InWindow(recent[i], current)
    ensures Window(recent, current) == recent
  {
    if |recent| > 0 {
      WindowOfInsiders(recent[1..], current);
      assert [recent[0]] + recent[1..] == recent;
    }
  }

  /** The impact of the face-down scenario below is its second sample. */
  lemma FaceDownScenarioPeak(current: Sample, impact: Sample, quiet1: Sample, quiet2: Sample)
    requires current.accelMag == 9.8 && impact.accelMag == 19.0
    requires quiet1.accelMag == 9.8 && quiet2.accelMag == 10.4
    ensures PeakIndex([current, impact, quiet1, quiet2]) == 1
  {
    var recent := [current, impact, quiet1, quiet2];
    assert recent[..3] == [current, impact, quiet1];
    assert recent[..3][..2] == [current, impact];
    assert recent[..3][..2][..1] == [current];
    assert PeakIndex([current, impact]) == 1;
  }

  /** On a newest-first window the "post-impact" slice holds samples stored before the peak. */
  lemma PostSliceIsOlder(w: seq<Sample>, idx: int)
    requires 0 <= idx < |w|
    requires forall i, j :: 0 <= i < j < |w| ==> w[j].timestamp < w[i].timestamp
    ensures forall ev :: ev in PostSlice(w, idx) ==> ev.timestamp < w[idx].timestamp
  {
    forall ev | ev in PostSlice(w, idx)
      ensures ev.timestamp < w[idx].timestamp
    {
      var p := PostSlice(w, idx);
      var j :| 0 <= j < |p| && p[j] == ev;
      assert ev == w[idx + 1 + j];
    }
  }

  /** The variance of two values is the square of half their distance. */
  lemma VarianceOfTwo(x: real, y: real)
    ensures PopulationVariance([x, y]) == (x - y) * (x - y) / 4.0
  {
    assert [x, y][..1] == [x] && [x][..0] == [];
    assert Sum([x]) == x;
    assert Sum([x, y]) == x + y;
    var m := (x + y) / 2.0;
    assert Mean([x, y]) == m;
    assert SquaredDeviations([x], m) == (x - m) * (x - m);
    assert SquaredDeviations([x, y], m) == (x - m) * (x - m) + (y - m) * (y - m);
    var h := (x - y) / 2.0;
    assert x - m == h && y - m == -h;
    assert (x - m) * (x - m) + (y - m) * (y - m) == 2.0 * (h * h);
    assert h * h == (x - y) * (x - y) / 4.0;
  }

  /** Every sample of the face-down scenario below lies in its window. */
  lemma FaceDownScenarioWindow(current: Sample, impact: Sample, quiet1: Sample, quiet2: Sample)
    requires current.timestamp == 10000 && impact.timestamp == 9500
    requires quiet1.timestamp == 9000 && quiet2.timestamp == 8500
    ensures Window([current, impact, quiet1, quiet2], current) == [current, impact, quiet1, quiet2]
  {
    WindowOfInsiders([current, impact, quiet1, quiet2], current);
  }

  /** The magnitudes in the slice after the peak index of the face-down scenario below. */
  lemma FaceDownScenarioAfterPeak(current: Sample, impact: Sample, quiet1: Sample, quiet2: Sample)
    requires quiet1.accelMag == 9.8 && quiet2.accelMag == 10.4
    requires quiet1.gyroMag == 1.0 && quiet2.gyroMag == 5.0
    ensures AccelMags(PostSlice([current, impact, quiet1, quiet2], 1)) == [9.8, 10.4]
    ensures GyroMags(PostSlice([current, impact, quiet1, quiet2], 1)) == [1.0, 5.0]
  {
    var recent := [current, impact, quiet1, quiet2];
    assert recent[2..] == [quiet1, quiet2];
    MagsOfPair(quiet1, quiet2);
  }

  /** The magnitudes of two samples, in order. */
  lemma MagsOfPair(x: Sample, y: Sample)
    ensures AccelMags([x, y]) == [x.accelMag, y.accelMag]
    ensures GyroMags([x, y]) == [x.gyroMag, y.gyroMag]
  {
  }

  /** The scenario's accelerometer readings in the post-peak slice are still enough. */
  lemma QuietAccel()
    ensures PopulationVariance([9.8, 10.4]) < 0.4
  {
    VarianceOfTwo(9.8, 10.4);
  }

  /** The scenario's gyroscope readings in the post-peak slice are still enough. */
  lemma QuietGyro()
    ensures PopulationVariance([1.0, 5.0]) < 25.0
  {
    VarianceOfTwo(1.0, 5.0);
  }

  /** A face-down phone whose stored samples, newest first, are the current reading, a 19.0 spike
      500 ms earlier, and two quiet samples stored BEFORE the spike (accelerometer variance 0.09,
      gyroscope variance 4.0). The slice after the peak index runs toward older samples, so the
      stillness that makes this drop-like is the stillness before the impact. */
  lemma QuietBeforeSpikeIsDrop()
    ensures
      var tag := Some("face_down");
      var current := Sample(10000, 9.8, 1.0, None, None, tag);
      var impact := Sample(9500, 19.0, 40.0, None, None, tag);
      var quiet1 := Sample(9000, 9.8, 1.0, None, None, tag);
      var quiet2 := Sample(8500, 10.4, 5.0, None, None, tag);
      DropLike(current, Some([current, impact, quiet1, quiet2]))
  {
    var tag := Some("face_down");
    var current := Sample(10000, 9.8, 1.0, None, None, tag);
    var impact := Sample(9500, 19.0, 40.0, None, None, tag);
    var quiet1 := Sample(9000, 9.8, 1.0, None, None, tag);
    var quiet2 := Sample(8500, 10.4, 5.0, None, None, tag);
    FaceDownScenarioWindow(current, impact, quiet1, quiet2);
    FaceDownScenarioPeak(current, impact, quiet1, quiet2);
    FaceDownScenarioAfterPeak(current, impact, quiet1, quiet2);
    QuietAccel();
    QuietGyro();
    ContainsPrefix("face_down", "");
    assert "face_down" + "" == "face_down";
  }

  /** `variance`: 0 for a missing array or fewer than two values, else the population variance. */
  method Variance(arr: array?<real>) returns (v: real)
    ensures arr == null ==> v == 0.0
    ensures arr != null ==> v == PopulationVariance(arr[..])
  {
    if arr == null || arr.Length < 2 {
      return 0.0;
    }
    var m := 0.0;
    for i := 0 to arr.Length
      invariant m == Sum(arr[..i])
    {
      assert arr[..i + 1][..i] == arr[..i];
      m := m + arr[i];
    }
    assert arr[..arr.Length] == arr[..];
    m := m / (arr.Length as real);
    var s := 0.0;
    for i := 0 to arr.Length
      invariant s == SquaredDeviations(arr[..i], m)
    {
      assert arr[..i + 1][..i] == arr[..i];
      var d := arr[i] - m;
      s := s + d * d;
    }
    assert arr[..arr.Length] == arr[..];
    v := s / (arr.Length as real);
  }

  /** The peak search loop: strict `>` keeps the first index of the largest magnitude. */
  method FindPeak(w: seq<Sample>) returns (peakA: real, idxImpact: int)
    ensures idxImpact == PeakIndex(w)
    ensures peakA == PeakValue(w)
  {
    peakA, idxImpact := 0.0, -1;
    for i := 0 to |w|
      invariant idxImpact == PeakIndex(w[..i])
      invariant peakA == PeakValue(w[..i])
    {
      assert w[..i + 1][..i] == w[..i];
      if w[i].accelMag > peakA {
        peakA, idxImpact := w[i].accelMag, i;
      }
    }
    assert w[..|w|] == w;
  }

  /** Lines filling `a` and `g` from the slice after the peak and taking their variances. */
  method PostImpactVariances(w: seq<Sample>, idxImpact: int) returns (postVarA: real, postVarG: real)
    requires 0 <= idxImpact < |w|
    ensures postVarA == PopulationVariance(AccelMags(PostSlice(w, idxImpact)))
    ensures postVarG == PopulationVariance(GyroMags(PostSlice(w, idxImpact)))
  {
    postVarA, postVarG := 0.0, 0.0;
    var start := Min(idxImpact + 1, |w|);
    var end := Min(start + 4, |w|);
    var n := Max(0, end - start);
    ghost var post := PostSlice(w, idxImpact);
    assert post == w[start..start + n];
    if n >= 2 {
      var a := new real[n];
      var g := new real[n];
      for j := 0 to n
        invariant forall i :: 0 <= i < j ==> a[i] == post[i].accelMag
        invariant forall i :: 0 <= i < j ==> g[i] == post[i].gyroMag
      {
        a[j] := w[start + j].accelMag;
        g[j] := w[start + j].gyroMag;
      }
      assert a[..] == AccelMags(post);
      assert g[..] == GyroMags(post);
      postVarA := Variance(a);
      postVarG := Variance(g);
    }
  }

  /** `isLikelyDeviceDrop`; a failed sample query (`None`) fails safe to `false`. */
  method IsLikelyDeviceDrop(current: Sample, recent: Option<seq<Sample>>) returns (drop: bool)
    ensures drop == DropLike(current, recent)
  {
    if recent.None? {
      return false;
    }
    var w := Window(recent.value, current);
    if |w| == 0 {
      return false;
    }
    var peakA, idxImpact := FindPeak(w);
    var postVarA, postVarG := 0.0, 0.0;
    if idxImpact >= 0 {
      postVarA, postVarG := PostImpactVariances(w, idxImpact);
    }
    var highImpact := peakA > 18.0;
    var quicklyStill := postVarA < 0.4 && postVarG < 25.0;
    var contextSuggestsSurface := current.context.Some? && (
      Contains(current.context.value, "face_down") || Contains(current.context.value, "still_side"));
    drop := highImpact && quicklyStill && contextSuggestsSurface;
  }
}
