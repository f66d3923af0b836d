/** The stroke detector of the backend: threshold-and-sign-change detection
    over gyroscope rows, min-gap filtering of the detected indices and
    fixed-width window slicing around each kept index.

    `backend/analyzers/tennis_stroke_analyzer.py` (`_detect_stroke_timestamps`,
    `_filter_timestamps`, `_extract_stroke_slices`) and
    `backend/single_imu_stroke_detector.py` (`detect_stroke_timestamps`,
    `filter_timestamps`, `extract_stroke_slices`) carry the same three
    routines, so one definition models both copies. They differ only in
    the default threshold (300 against 300.0) and in the slicer: the
    analyser converts each slice with `tolist()`, while the standalone
    detector keeps numpy arrays and can plot them. The slices hold the
    same rows either way.

    Each routine is a loop `method` proved equal to a specification
    function over a prefix of its input; the lemmas state what the
    specification functions mean. Sensor values are `real`. */
module StrokeDetection {

  /** One row of an (n, 3) numpy array of accelerometer or gyroscope samples. */
  datatype Vec3 = Vec3(x: real, y: real, z: real)

  function Abs(v: real): (r: real)
    ensures r >= 0.0 && (r == v || r == -v)
  {
    if v < 0.0 then -v else v
  }

  /** `np.sign`. */
  function Sign(v: real): (s: int)
    ensures s == 1 <==> v > 0.0
    ensures s == -1 <==> v < 0.0
    ensures s == 0 <==> v == 0.0
  {
    if v > 0.0 then 1 else if v < 0.0 then -1 else 0
  }

  /** The number of rows of `np.diff(s, axis=0)`. */
  function DiffRows(s: seq<Vec3>): (k: nat)
    ensures k < |s| || (k == 0 && s == [])
    ensures |s| > 0 ==> k == |s| - 1
  {
    if |s| == 0 then 0 else |s| - 1
  }

  // ---------------------------------------------------------------------------
  // Detection

  /** Row `j` of `np.diff(np.sign(s), axis=0)` has a non-zero entry. */
  predicate SignFlip(s: seq<Vec3>, j: nat)
    requires j + 1 < |s|
  {
    Sign(s[j + 1].x) != Sign(s[j].x) || Sign(s[j + 1].y) != Sign(s[j].y) || Sign(s[j + 1].z) != Sign(s[j].z)
  }

  /** `np.any(np.abs(np.diff(np.sign(s), axis=0)[start:end]) > 0)` for
      non-negative bounds: the slice is clipped to the rows the diff has. */
  predicate FlipWithin(s: seq<Vec3>, start: nat, end: nat) {
    exists j: nat :: start <= j < end && j + 1 < |s| && SignFlip(s, j)
  }

  /** `np.any(np.abs(np.diff(gyro, axis=0))[i] > threshold)`. */
  predicate Jump(gyro: seq<Vec3>, i: nat, threshold: real)
    requires i + 1 < |gyro|
  {
    Abs(gyro[i + 1].x - gyro[i].x) > threshold
    || Abs(gyro[i + 1].y - gyro[i].y) > threshold
    || Abs(gyro[i + 1].z - gyro[i].z) > threshold
  }

  /** `max(0, i - 3)`. */
  function WindowLow(i: nat): (lo: nat)
    ensures lo <= i && (i >= 3 ==> lo == i - 3) && (i < 3 ==> lo == 0)
  {
    if i >= 3 then i - 3 else 0
  }

  /** `min(len(gyro_sign_change), i + 3)`; the same bound serves the
      accelerometer's sign changes. */
  function WindowHigh(gyro: seq<Vec3>, i: nat): (hi: nat)
    ensures hi <= DiffRows(gyro) && hi <= i + 3
    ensures hi == DiffRows(gyro) || hi == i + 3
  {
    if DiffRows(gyro) <= i + 3 then DiffRows(gyro) else i + 3
  }

  /** The detector reports index `i + 1`: some gyroscope axis jumps by
      more than the threshold from row `i` to row `i + 1`, and both the
      gyroscope and the accelerometer flip a sign somewhere in the window
      of diff rows `[max(0, i - 3), min(n - 1, i + 3))`. */
  predicate StrokeAt(gyro: seq<Vec3>, acc: seq<Vec3>, threshold: real, i: nat)
    requires i + 1 < |gyro|
  {
    Jump(gyro, i, threshold)
    && FlipWithin(gyro, WindowLow(i), WindowHigh(gyro, i))
    && FlipWithin(acc, WindowLow(i), WindowHigh(gyro, i))
  }

  /** The indices the detection loop has appended after its first `k` rounds. */
  function DetectedUpTo(gyro: seq<Vec3>, acc: seq<Vec3>, threshold: real, k: nat): seq<int>
    requires k <= DiffRows(gyro)
  {
    if k == 0 then []
    else DetectedUpTo(gyro, acc, threshold, k - 1) + (if StrokeAt(gyro, acc, threshold, k - 1) then [k] else [])
  }

  function Detected(gyro: seq<Vec3>, acc: seq<Vec3>, threshold: real): seq<int> {
    DetectedUpTo(gyro, acc, threshold, DiffRows(gyro))
  }

  predicate Increasing(s: seq<int>) {
    forall a, b :: 0 <= a < b < |s| ==> s[a] < s[b]
  }

  predicate NonDecreasing(s: seq<int>) {
    forall a, b :: 0 <= a <= b < |s| ==> s[a] <= s[b]
  }

  /** After `k` rounds the detector holds, in increasing order, exactly the
      indices `t` in `[1, k]` whose step `t - 1` is a stroke. */
  lemma DetectedUpToShape(gyro: seq<Vec3>, acc: seq<Vec3>, threshold: real, k: nat)
    requires k <= DiffRows(gyro)
    ensures Increasing(DetectedUpTo(gyro, acc, threshold, k))
    ensures forall t :: t in DetectedUpTo(gyro, acc, threshold, k) <==>
                          1 <= t <= k && StrokeAt(gyro, acc, threshold, t - 1)
  {
    DetectedMembers(gyro, acc, threshold, k);
    DetectedIncreasing(gyro, acc, threshold, k);
  }

  lemma {:induction false} DetectedMembers(gyro: seq<Vec3>, acc: seq<Vec3>, threshold: real, k: nat)
    requires k <= DiffRows(gyro)
    ensures forall t :: t in DetectedUpTo(gyro, acc, threshold, k) <==>
                          1 <= t <= k && StrokeAt(gyro, acc, threshold, t - 1)
  {
    if k > 0 {
      DetectedMembers(gyro, acc, threshold, k - 1);
    }
  }

  lemma {:induction false} DetectedIncreasing(gyro: seq<Vec3>, acc: seq<Vec3>, threshold: real, k: nat)
    requires k <= DiffRows(gyro)
    ensures Increasing(DetectedUpTo(gyro, acc, threshold, k))
  {
    if k > 0 {
      DetectedIncreasing(gyro, acc, threshold, k - 1);
      DetectedMembers(gyro, acc, threshold, k - 1);
      var prev := DetectedUpTo(gyro, acc, threshold, k - 1);
      forall a | 0 <= a < |prev|
        ensures prev[a] < k
      {
        assert prev[a] in prev;
      }
    }
  }

  /** `_detect_stroke_timestamps` / `detect_stroke_timestamps`. */
  method DetectStrokeTimestamps(gyro: seq<Vec3>, acc: seq<Vec3>, threshold: real) returns (indices: seq<int>)
    ensures indices == Detected(gyro, acc, threshold)
    ensures Increasing(indices)
    ensures forall t :: t in indices <==> 1 <= t < |gyro| && StrokeAt(gyro, acc, threshold, t - 1)
  {
    indices := [];
    var i: nat := 0;
    while i < DiffRows(gyro)
      invariant i <= DiffRows(gyro)
      invariant indices == DetectedUpTo(gyro, acc, threshold, i)
    {
      if Jump(gyro, i, threshold) {
        var start := WindowLow(i);
        var end := WindowHigh(gyro, i);
        var hasChange := FlipWithin(gyro, start, end) && FlipWithin(acc, start, end);
        if hasChange {
          indices := indices + [i + 1];
        }
      }
      i := i + 1;
    }
    DetectedUpToShape(gyro, acc, threshold, i);
  }

  // ---------------------------------------------------------------------------
  // Filtering

  /** Element `i` survives: it is the first one, or it lies at least `gap`
      after its predecessor in the input (not in the output). */
  predicate KeptAt(t: seq<int>, gap: int, i: nat)
    requires i < |t|
  {
    i == 0 || t[i] - t[i - 1] >= gap
  }

  /** The positions of the surviving elements among the first `k`. */
  function KeptUpTo(t: seq<int>, gap: int, k: nat): (idx: seq<nat>)
    requires k <= |t|
    ensures |idx| <= k
    ensures forall j :: 0 <= j < |idx| ==> idx[j] < k
  {
    if k == 0 then [] else KeptUpTo(t, gap, k - 1) + (if KeptAt(t, gap, k - 1) then [k - 1] else [])
  }

  function KeptIndices(t: seq<int>, gap: int): (idx: seq<nat>)
    ensures forall j :: 0 <= j < |idx| ==> idx[j] < |t|
  {
    KeptUpTo(t, gap, |t|)
  }

  /** The elements of `t` at the positions `idx`. */
  function Pick(t: seq<int>, idx: seq<nat>): (r: seq<int>)
    requires forall j :: 0 <= j < |idx| ==> idx[j] < |t|
    ensures |r| == |idx| && forall j :: 0 <= j < |idx| ==> r[j] == t[idx[j]]
  {
    seq(|idx|, j requires 0 <= j < |idx| => t[idx[j]])
  }

  /** The list the filter loop has built after looking at the first `k` elements. */
  function FilteredUpTo(t: seq<int>, gap: int, k: nat): seq<int>
    requires k <= |t|
  {
    if k == 0 then [] else FilteredUpTo(t, gap, k - 1) + (if KeptAt(t, gap, k - 1) then [t[k - 1]] else [])
  }

  function Filtered(t: seq<int>, gap: int): seq<int> {
    FilteredUpTo(t, gap, |t|)
  }

  /** The filter keeps, in order, the elements at the positions that survive,
      and a position survives exactly when `KeptAt` says so. */
  lemma FilteredUpToPicks(t: seq<int>, gap: int, k: nat)
    requires k <= |t|
    ensures FilteredUpTo(t, gap, k) == Pick(t, KeptUpTo(t, gap, k))
    ensures Increasing(KeptUpTo(t, gap, k))
    ensures forall i: nat :: i in KeptUpTo(t, gap, k) <==> i < k && KeptAt(t, gap, i)
  {
    FilteredUpToIsPick(t, gap, k);
    KeptUpToIncreasing(t, gap, k);
    KeptUpToMembers(t, gap, k);
  }

  lemma {:induction false} FilteredUpToIsPick(t: seq<int>, gap: int, k: nat)
    requires k <= |t|
    ensures FilteredUpTo(t, gap, k) == Pick(t, KeptUpTo(t, gap, k))
  {
    if k > 0 {
      FilteredUpToIsPick(t, gap, k - 1);
      var prev := KeptUpTo(t, gap, k - 1);
      if KeptAt(t, gap, k - 1) {
        assert Pick(t, prev + [k - 1]) == Pick(t, prev) + [t[k - 1]];
      } else {
        assert KeptUpTo(t, gap, k) == prev;
      }
    }
  }

  lemma {:induction false} KeptUpToIncreasing(t: seq<int>, gap: int, k: nat)
    requires k <= |t|
    ensures Increasing(KeptUpTo(t, gap, k))
  {
    if k > 0 {
      KeptUpToIncreasing(t, gap, k - 1);
    }
  }

  lemma {:induction false} KeptUpToMembers(t: seq<int>, gap: int, k: nat)
    requires k <= |t|
    ensures forall i: nat :: i in KeptUpTo(t, gap, k) <==> i < k && KeptAt(t, gap, i)
  {
    if k > 0 {
      KeptUpToMembers(t, gap, k - 1);
    }
  }

  /** `_filter_timestamps` is a subsequence of its input picked by `KeptAt`;
      it starts with the input's first element; for a non-decreasing
      input, consecutive outputs lie at least `gap` apart. */
  lemma FilteredMeaning(t: seq<int>, gap: int)
    ensures Filtered(t, gap) == Pick(t, KeptIndices(t, gap))
    ensures Increasing(KeptIndices(t, gap))
    ensures forall i: nat :: i in KeptIndices(t, gap) <==> i < |t| && KeptAt(t, gap, i)
    ensures t == [] <==> Filtered(t, gap) == []
    ensures t != [] ==> Filtered(t, gap)[0] == t[0]
    ensures NonDecreasing(t) ==>
              forall j :: 0 <= j < |Filtered(t, gap)| - 1 ==> Filtered(t, gap)[j + 1] - Filtered(t, gap)[j] >= gap
    ensures Increasing(t) ==> Increasing(Filtered(t, gap))
  {
    FilteredUpToPicks(t, gap, |t|);
    var idx := KeptIndices(t, gap);
    var f := Filtered(t, gap);
    if t != [] {
      assert 0 in idx;
      assert idx[0] == 0 by {
        var m :| 0 <= m < |idx| && idx[m] == 0;
        assert idx[0] <= idx[m];
      }
    }
    if NonDecreasing(t) {
      forall j | 0 <= j < |f| - 1
        ensures f[j + 1] - f[j] >= gap
      {
        var a, b := idx[j], idx[j + 1];
        assert a < b;
        assert b in idx;
        assert KeptAt(t, gap, b);
        assert t[a] <= t[b - 1];
      }
    }
  }

  /** `_filter_timestamps` / `filter_timestamps`. */
  method FilterTimestamps(t: seq<int>, gap: int) returns (filtered: seq<int>)
    ensures filtered == Filtered(t, gap)
    ensures filtered == Pick(t, KeptIndices(t, gap))
    ensures |filtered| <= |t|
  {
    if |t| == 0 {
      return [];
    }
    filtered := [t[0]];
    for i := 1 to |t|
      invariant filtered == FilteredUpTo(t, gap, i)
    {
      if t[i] - t[i - 1] >= gap {
        filtered := filtered + [t[i]];
      }
    }
    FilteredUpToPicks(t, gap, |t|);
  }

  // ---------------------------------------------------------------------------
  // Window slicing

  /** `max(t - window_size // 2, 0)`; Python's `//` and Dafny's `/` agree
      for the positive divisor 2. */
  function WindowStart(t: int, w: int): int {
    if t - w / 2 >= 0 then t - w / 2 else 0
  }

  /** `min(t + window_size // 2, len(acc))`. */
  function WindowEnd(t: int, w: int, n: nat): int {
    if t + w / 2 <= n then t + w / 2 else n
  }

  /** The clipped window has exactly `window_size` rows. */
  predicate Fits(t: int, w: int, n: nat) {
    WindowEnd(t, w, n) - WindowStart(t, w) == w
  }

  /** Python's normalisation of a slice bound against a length `n`:
      a negative bound counts from the end, and both ends are clipped. */
  function PyBound(i: int, n: nat): (b: nat)
    ensures b <= n
    ensures 0 <= i <= n ==> b == i
  {
    if i < 0 then (if i + n < 0 then 0 else i + n) else if i > n then n else i
  }

  /** numpy's `a[start:end]` on the first axis. */
  function PySlice(s: seq<Vec3>, start: int, end: int): seq<Vec3> {
    var lo := PyBound(start, |s|);
    var hi := PyBound(end, |s|);
    if lo < hi then s[lo..hi] else []
  }

  /** A negative window can still fit and keep rows: window -4 at t = 1
      gives the slice `[3:-1]`, which on six rows keeps rows 3 and 4. */
  lemma NegativeWindowKeepsRows(s: seq<Vec3>)
    requires |s| == 6
    ensures Fits(1, -4, 6)
    ensures PySlice(s, WindowStart(1, -4), WindowEnd(1, -4, 6)) == s[3..5]
  {
  }

  /** The slices the extraction loop has appended from `src` after the
      first `k` timestamps, the window being clipped against `n`, the
      accelerometer's length. */
  function SlicesUpTo(src: seq<Vec3>, ts: seq<int>, w: int, n: nat, k: nat): (r: seq<seq<Vec3>>)
    requires k <= |ts|
    ensures |r| <= k
  {
    if k == 0 then []
    else SlicesUpTo(src, ts, w, n, k - 1)
         + (if Fits(ts[k - 1], w, n) then [PySlice(src, WindowStart(ts[k - 1], w), WindowEnd(ts[k - 1], w, n))] else [])
  }

  /** The positions of the timestamps whose window fits, among the first `k`. */
  function FitUpTo(ts: seq<int>, w: int, n: nat, k: nat): (idx: seq<nat>)
    requires k <= |ts|
    ensures forall j :: 0 <= j < |idx| ==> idx[j] < k
  {
    if k == 0 then [] else FitUpTo(ts, w, n, k - 1) + (if Fits(ts[k - 1], w, n) then [k - 1] else [])
  }

  /** Slice `j` is cut around the `j`-th timestamp whose window fits, and
      the number of slices is the number of such timestamps, whatever the
      source array. */
  lemma SlicesUpToShape(src: seq<Vec3>, ts: seq<int>, w: int, n: nat, k: nat)
    requires k <= |ts|
    ensures |SlicesUpTo(src, ts, w, n, k)| == |FitUpTo(ts, w, n, k)|
    ensures forall j :: 0 <= j < |FitUpTo(ts, w, n, k)| ==>
              var t := ts[FitUpTo(ts, w, n, k)[j]];
              SlicesUpTo(src, ts, w, n, k)[j] == PySlice(src, WindowStart(t, w), WindowEnd(t, w, n))
    ensures forall i: nat :: i in FitUpTo(ts, w, n, k) <==> i < k && Fits(ts[i], w, n)
  {
    SlicesCount(src, ts, w, n, k);
    SlicesContents(src, ts, w, n, k);
    FitMembers(ts, w, n, k);
  }

  lemma {:induction false} SlicesCount(src: seq<Vec3>, ts: seq<int>, w: int, n: nat, k: nat)
    requires k <= |ts|
    ensures |SlicesUpTo(src, ts, w, n, k)| == |FitUpTo(ts, w, n, k)|
  {
    if k > 0 {
      SlicesCount(src, ts, w, n, k - 1);
    }
  }

  lemma {:induction false} SlicesContents(src: seq<Vec3>, ts: seq<int>, w: int, n: nat, k: nat)
    requires k <= |ts|
    ensures |SlicesUpTo(src, ts, w, n, k)| == |FitUpTo(ts, w, n, k)|
    ensures forall j :: 0 <= j < |FitUpTo(ts, w, n, k)| ==>
              var t := ts[FitUpTo(ts, w, n, k)[j]];
              SlicesUpTo(src, ts, w, n, k)[j] == PySlice(src, WindowStart(t, w), WindowEnd(t, w, n))
  {
    SlicesCount(src, ts, w, n, k);
    if k > 0 {
      SlicesContents(src, ts, w, n, k - 1);
    }
  }

  lemma {:induction false} FitMembers(ts: seq<int>, w: int, n: nat, k: nat)
    requires k <= |ts|
    ensures forall i: nat :: i in FitUpTo(ts, w, n, k) <==> i < k && Fits(ts[i], w, n)
  {
    if k > 0 {
      FitMembers(ts, w, n, k - 1);
    }
  }

  /** For an even, non-negative window size the window fits exactly when it
      needs no clipping: `half <= t` and `t + half <= n`. */
  lemma FitsIff(t: int, w: int, n: nat)
    requires w >= 0 && w % 2 == 0
    ensures Fits(t, w, n) <==> w / 2 <= t && t + w / 2 <= n
  {
  }

  /** An odd window size never fits: the clipped window has at most
      `2 * (w // 2) = w - 1` rows. */
  lemma OddWindowNeverFits(t: int, w: int, n: nat)
    requires w % 2 == 1
    ensures !Fits(t, w, n)
  {
  }

  lemma {:induction false} OddWindowNoSlices(src: seq<Vec3>, ts: seq<int>, w: int, n: nat, k: nat)
    requires k <= |ts| && w % 2 == 1
    ensures SlicesUpTo(src, ts, w, n, k) == []
  {
    if k > 0 {
      OddWindowNoSlices(src, ts, w, n, k - 1);
      OddWindowNeverFits(ts[k - 1], w, n);
    }
  }

  /** A fitting window of non-negative size lies inside the array, and its
      slice is the plain subsequence of `w` rows starting at the window's
      start. */
  lemma FittingSliceInBounds(src: seq<Vec3>, t: int, w: int, n: nat)
    requires w >= 0 && Fits(t, w, n) && n <= |src|
    ensures 0 <= WindowStart(t, w) && WindowStart(t, w) + w <= n
    ensures PySlice(src, WindowStart(t, w), WindowEnd(t, w, n)) == src[WindowStart(t, w)..WindowStart(t, w) + w]
  {
  }

  /** Every slice of a non-negative window size is the `w` consecutive
      rows of the source that start at its timestamp's window start, and
      they lie within the first `n` rows. */
  lemma SlicesInBounds(src: seq<Vec3>, ts: seq<int>, w: int, n: nat)
    requires w >= 0 && n <= |src|
    ensures |SlicesUpTo(src, ts, w, n, |ts|)| == |FitUpTo(ts, w, n, |ts|)|
    ensures forall j :: 0 <= j < |FitUpTo(ts, w, n, |ts|)| ==>
              var start := WindowStart(ts[FitUpTo(ts, w, n, |ts|)[j]], w);
              0 <= start && start + w <= n && SlicesUpTo(src, ts, w, n, |ts|)[j] == src[start..start + w]
  {
    SlicesContents(src, ts, w, n, |ts|);
    FitMembers(ts, w, n, |ts|);
    var idx := FitUpTo(ts, w, n, |ts|);
    forall j | 0 <= j < |idx|
      ensures var start := WindowStart(ts[idx[j]], w);
              0 <= start && start + w <= n && SlicesUpTo(src, ts, w, n, |ts|)[j] == src[start..start + w]
    {
      assert idx[j] in idx;
      FittingSliceInBounds(src, ts[idx[j]], w, n);
    }
  }

  /** A slice of a non-negative window has `w` rows. */
  lemma SliceLengths(src: seq<Vec3>, ts: seq<int>, w: int, n: nat)
    requires w >= 0 && n <= |src|
    ensures forall j :: 0 <= j < |SlicesUpTo(src, ts, w, n, |ts|)| ==> |SlicesUpTo(src, ts, w, n, |ts|)[j]| == w
  {
    SlicesInBounds(src, ts, w, n);
  }

  /** `_extract_stroke_slices` / `extract_stroke_slices` (without plotting). */
  method ExtractStrokeSlices(acc: seq<Vec3>, gyro: seq<Vec3>, ts: seq<int>, w: int)
    returns (accSlices: seq<seq<Vec3>>, gyroSlices: seq<seq<Vec3>>)
    ensures accSlices == SlicesUpTo(acc, ts, w, |acc|, |ts|)
    ensures gyroSlices == SlicesUpTo(gyro, ts, w, |acc|, |ts|)
    ensures |accSlices| == |gyroSlices| <= |ts|
    ensures w % 2 == 1 ==> accSlices == [] && gyroSlices == []
    ensures w >= 0 ==> forall j :: 0 <= j < |accSlices| ==> |accSlices[j]| == w
    ensures w >= 0 && |acc| <= |gyro| ==> forall j :: 0 <= j < |gyroSlices| ==> |gyroSlices[j]| == w
  {
    accSlices, gyroSlices := [], [];
    var half := w / 2;
    for k := 0 to |ts|
      invariant accSlices == SlicesUpTo(acc, ts, w, |acc|, k)
      invariant gyroSlices == SlicesUpTo(gyro, ts, w, |acc|, k)
    {
      var t := ts[k];
      var start := if t - half >= 0 then t - half else 0;
      var end := if t + half <= |acc| then t + half else |acc|;
      if end - start == w {
        accSlices := accSlices + [PySlice(acc, start, end)];
        gyroSlices := gyroSlices + [PySlice(gyro, start, end)];
      }
    }
    SlicesCount(acc, ts, w, |acc|, |ts|);
    SlicesCount(gyro, ts, w, |acc|, |ts|);
    if w % 2 == 1 {
      OddWindowNoSlices(acc, ts, w, |acc|, |ts|);
      OddWindowNoSlices(gyro, ts, w, |acc|, |ts|);
    }
    if w >= 0 {
      SliceLengths(acc, ts, w, |acc|);
      if |acc| <= |gyro| {
        SliceLengths(gyro, ts, w, |acc|);
      }
    }
  }

  // ---------------------------------------------------------------------------
  // The three steps together

  /** The gap both callers filter with. */
  const MinGap: int := 75

  datatype Strokes = Strokes(timestamps: seq<int>, accSlices: seq<seq<Vec3>>, gyroSlices: seq<seq<Vec3>>)

  /** Detect, filter with `min_gap=75`, and slice. */
  function Pipeline(acc: seq<Vec3>, gyro: seq<Vec3>, threshold: real, w: int): Strokes {
    var ts := Filtered(Detected(gyro, acc, threshold), MinGap);
    Strokes(ts, SlicesUpTo(acc, ts, w, |acc|, |ts|), SlicesUpTo(gyro, ts, w, |acc|, |ts|))
  }

  /** The reported timestamps are detected strokes, strictly increasing, in
      `[1, n - 1]`, at least 75 rows apart; there is at most one slice pair
      per timestamp. */
  lemma PipelineShape(acc: seq<Vec3>, gyro: seq<Vec3>, threshold: real, w: int)
    ensures var p := Pipeline(acc, gyro, threshold, w);
            && Increasing(p.timestamps)
            && (forall t :: t in p.timestamps ==> t in Detected(gyro, acc, threshold) && 1 <= t < |gyro|)
            && (forall j :: 0 <= j < |p.timestamps| - 1 ==> p.timestamps[j + 1] - p.timestamps[j] >= MinGap)
            && |p.accSlices| == |p.gyroSlices| <= |p.timestamps|
  {
    var d := Detected(gyro, acc, threshold);
    DetectedUpToShape(gyro, acc, threshold, DiffRows(gyro));
    assert NonDecreasing(d) by {
      forall a, b | 0 <= a <= b < |d| ensures d[a] <= d[b] {
        if a < b {
          assert d[a] < d[b];
        }
      }
    }
    FilteredMeaning(d, MinGap);
    var p := Pipeline(acc, gyro, threshold, w);
    var idx := KeptIndices(d, MinGap);
    forall t | t in p.timestamps
      ensures t in d && 1 <= t < |gyro|
    {
      var j :| 0 <= j < |p.timestamps| && p.timestamps[j] == t;
      assert t == d[idx[j]];
    }
    SlicesCount(acc, p.timestamps, w, |acc|, |p.timestamps|);
    SlicesCount(gyro, p.timestamps, w, |acc|, |p.timestamps|);
  }
}
