/**
 * ChartDataHelper: statistics over a time series, the bounded history buffer
 * (append, evict the oldest), x-axis time labels, linear interpolation between
 * samples and a centred moving average. Samples are reals; the source's float
 * rounding is not modelled.
 */
module ChartData {
  import opened Wrappers
  import opened Text
  import opened Numerics

  /** The default capacity of a history buffer (AddToHistory's maxSize). */
  const DefaultMaxSize: int := 300

  // ------------------------------------------------------------ statistics

  function Sum(s: seq<real>): real
    decreases |s|
  {
    if |s| == 0 then 0.0 else Sum(s[..|s| - 1]) + s[|s| - 1]
  }

  /** Enumerable.Min of a non-empty series. */
  function Minimum(s: seq<real>): real
    requires |s| > 0
    decreases |s|
  {
    if |s| == 1 then s[0] else MinReal(Minimum(s[..|s| - 1]), s[|s| - 1])
  }

  /** The minimum is an element of the series and no larger than any other. */
  lemma {:induction false} MinimumIsLeast(s: seq<real>)
    requires |s| > 0
    ensures Minimum(s) in s
    ensures forall i :: 0 <= i < |s| ==> Minimum(s) <= s[i]
    decreases |s|
  {
    if |s| > 1 {
      var p := s[..|s| - 1];
      MinimumIsLeast(p);
      assert forall i :: 0 <= i < |p| ==> p[i] == s[i];
      assert Minimum(p) in s;
    }
  }

  /** Enumerable.Max of a non-empty series. */
  function Maximum(s: seq<real>): real
    requires |s| > 0
    decreases |s|
  {
    if |s| == 1 then s[0] else MaxReal(Maximum(s[..|s| - 1]), s[|s| - 1])
  }

  /** The maximum is an element of the series and no smaller than any other. */
  lemma {:induction false} MaximumIsGreatest(s: seq<real>)
    requires |s| > 0
    ensures Maximum(s) in s
    ensures forall i :: 0 <= i < |s| ==> s[i] <= Maximum(s)
    decreases |s|
  {
    if |s| > 1 {
      var p := s[..|s| - 1];
      MaximumIsGreatest(p);
      assert forall i :: 0 <= i < |p| ==> p[i] == s[i];
      assert Maximum(p) in s;
    }
  }

  /** Enumerable.Average of a non-empty series. */
  function Average(s: seq<real>): real
    requires |s| > 0
  {
    Sum(s) / (|s| as real)
  }

  /** A sum of values between lo and hi lies between |s|*lo and |s|*hi. */
  lemma {:induction false} SumBounds(s: seq<real>, lo: real, hi: real)
    requires forall i :: 0 <= i < |s| ==> lo <= s[i] <= hi
    ensures (|s| as real) * lo <= Sum(s) <= (|s| as real) * hi
    decreases |s|
  {
    if |s| > 0 {
      var p := s[..|s| - 1];
      assert forall i :: 0 <= i < |p| ==> p[i] == s[i];
      SumBounds(p, lo, hi);
    }
  }

  /** The sum of n copies of c. */
  lemma {:induction false} SumConstant(s: seq<real>, c: real)
    requires forall i :: 0 <= i < |s| ==> s[i] == c
    ensures Sum(s) == (|s| as real) * c
    decreases |s|
  {
    if |s| > 0 {
      var p := s[..|s| - 1];
      assert forall i :: 0 <= i < |p| ==> p[i] == s[i];
      SumConstant(p, c);
    }
  }

  /** Dividing by a positive n keeps a bound n * c on x as a bound c on x / n. */
  lemma DivideBounds(x: real, n: real, lo: real, hi: real)
    requires n > 0.0 && n * lo <= x <= n * hi
    ensures lo <= x / n <= hi
    ensures (x / n) * n == x
  {
    assert x / n - lo == (x - n * lo) / n;
    assert hi - x / n == (n * hi - x) / n;
  }

  /** The average of values between lo and hi lies between lo and hi, and times n gives the sum. */
  lemma AverageWithin(s: seq<real>, lo: real, hi: real)
    requires |s| > 0
    requires forall i :: 0 <= i < |s| ==> lo <= s[i] <= hi
    ensures lo <= Average(s) <= hi
    ensures Average(s) * (|s| as real) == Sum(s)
  {
    var n, x := |s| as real, Sum(s);
    SumBounds(s, lo, hi);
    DivideBounds(x, n, lo, hi);
  }

  /** The average of a series lies between its minimum and its maximum. */
  lemma AverageBetween(s: seq<real>)
    requires |s| > 0
    ensures Minimum(s) <= Average(s) <= Maximum(s)
    ensures Average(s) * (|s| as real) == Sum(s)
  {
    MinimumIsLeast(s);
    MaximumIsGreatest(s);
    AverageWithin(s, Minimum(s), Maximum(s));
  }

  /** The tuple CalculateStatistics returns. */
  datatype Statistics = Statistics(current: real, min: real, max: real, average: real)

  /** CalculateStatistics: all zero for an empty series, otherwise last, min, max and mean. */
  function CalculateStatistics(data: seq<real>): (st: Statistics)
    ensures |data| == 0 ==> st == Statistics(0.0, 0.0, 0.0, 0.0)
  {
    if |data| == 0 then Statistics(0.0, 0.0, 0.0, 0.0)
    else Statistics(data[|data| - 1], Minimum(data), Maximum(data), Average(data))
  }

  /**
   * For a non-empty series the statistics are the last sample, the least and
   * greatest samples, and the mean, which lies between them.
   */
  lemma StatisticsMeaning(data: seq<real>)
    requires |data| > 0
    ensures var st := CalculateStatistics(data);
      && st.current == data[|data| - 1]
      && st.min in data && st.max in data
      && (forall i :: 0 <= i < |data| ==> st.min <= data[i] <= st.max)
      && st.min <= st.current <= st.max
      && st.min <= st.average <= st.max
      && st.average == Sum(data) / (|data| as real)
  {
    MinimumIsLeast(data);
    MaximumIsGreatest(data);
    AverageBetween(data);
  }

  /** Three samples 10, 20, 30 give current 30, min 10, max 30 and average 20. */
  lemma StatisticsExample()
    ensures CalculateStatistics([10.0, 20.0, 30.0]) == Statistics(30.0, 10.0, 30.0, 20.0)
  {
    var s := [10.0, 20.0, 30.0];
    assert s[..2] == [10.0, 20.0];
    assert s[..2][..1] == [10.0];
    assert [10.0][..0] == [];
    assert Sum([10.0]) == 10.0;
    assert Sum(s[..2]) == 30.0;
    assert Sum(s) == 60.0;
    assert Minimum(s[..2]) == 10.0;
    assert Minimum(s) == 10.0;
    assert Maximum(s[..2]) == 20.0;
    assert Maximum(s) == 30.0;
    assert Average(s) == 20.0;
  }

  // --------------------------------------------------------- bounded buffer

  /** An ObservableCollection<float> that is appended to and trimmed in place. */
  class History {
    var values: seq<real>

    constructor ()
      ensures values == []
    {
      values := [];
    }
  }

  /** The last n elements of s (all of s when it is shorter). */
  function LastN<T>(s: seq<T>, n: nat): (r: seq<T>)
    ensures |r| == if |s| <= n then |s| else n
    ensures forall i :: 0 <= i < |r| ==> r[i] == s[|s| - |r| + i]
  {
    if |s| <= n then s else s[|s| - n..]
  }

  /**
   * TrimHistory: removes the oldest element while the buffer is longer than
   * maxSize. For a negative maxSize the buffer empties and the next RemoveAt(0)
   * throws (threw); the elements removed before the throw stay removed.
   */
  method TrimHistory(history: History, maxSize: int) returns (threw: bool)
    modifies history
    ensures maxSize >= 0 ==> !threw && history.values == LastN(old(history.values), maxSize)
    ensures maxSize < 0 ==> threw && history.values == []
  {
    threw := false;
    ghost var s := history.values;
    while |history.values| > maxSize
      invariant |history.values| <= |s|
      invariant history.values == s[|s| - |history.values|..]
      invariant |history.values| == |s| || |history.values| >= maxSize
      decreases |history.values|
    {
      if |history.values| == 0 {
        threw := true;
        return;
      }
      history.values := history.values[1..];
    }
  }

  /** The buffer after appending value and evicting the oldest element if it is then over maxSize. */
  function Appended<T>(s: seq<T>, value: T, maxSize: int): seq<T>
  {
    var t := s + [value];
    if |t| > maxSize then t[1..] else t
  }

  /** AddToHistory: appends value, then removes the first element if the count exceeds maxSize. */
  method AddToHistory(history: History, value: real, maxSize: int)
    modifies history
    ensures history.values == Appended(old(history.values), value, maxSize)
  {
    history.values := history.values + [value];
    if |history.values| > maxSize {
      history.values := history.values[1..];
    }
  }

  /**
   * One append ends with the new value (unless the capacity is not positive),
   * drops at most the oldest element, and keeps a buffer that was within a
   * non-negative capacity within it.
   */
  lemma AppendedFacts<T>(s: seq<T>, value: T, maxSize: int)
    ensures var r := Appended(s, value, maxSize);
      && (|r| > 0 ==> r[|r| - 1] == value)
      && (maxSize >= 1 ==> |r| > 0 && r[|r| - 1] == value)
      && (|r| == |s| + 1 || |r| == |s|)
      && (|r| == |s| + 1 <==> |s| + 1 <= maxSize)
      && (|r| == |s| && |s| > 0 ==> r == s[1..] + [value])
      && (|s| <= maxSize ==> |r| <= maxSize)
  {
  }

  /** Appending to a buffer within capacity n keeps exactly the last n values seen. */
  lemma AppendedIsWindow<T>(s: seq<T>, value: T, n: nat)
    requires |s| <= n
    ensures Appended(s, value, n) == LastN(s + [value], n)
  {
  }

  /** The buffer after appending each of vs in turn to an empty buffer of capacity n. */
  function AppendAll<T>(vs: seq<T>, n: int): seq<T>
    decreases |vs|
  {
    if |vs| == 0 then [] else Appended(AppendAll(vs[..|vs| - 1], n), vs[|vs| - 1], n)
  }

  /** A buffer filled by AddToHistory holds exactly the last n values appended, oldest first. */
  lemma {:induction false} AppendAllIsLastN<T>(vs: seq<T>, n: nat)
    ensures AppendAll(vs, n) == LastN(vs, n)
    decreases |vs|
  {
    if |vs| > 0 {
      var p, x := vs[..|vs| - 1], vs[|vs| - 1];
      assert p + [x] == vs;
      calc {
        AppendAll(vs, n);
        Appended(AppendAll(p, n), x, n);
        { AppendAllIsLastN(p, n); }
        Appended(LastN(p, n), x, n);
        { AppendedIsWindow(LastN(p, n), x, n); }
        LastN(LastN(p, n) + [x], n);
        { LastNOfLastN(p, x, n); }
        LastN(vs, n);
      }
    }
  }

  /** Keeping the last n before appending one more changes nothing about the last n after. */
  lemma LastNOfLastN<T>(p: seq<T>, x: T, n: nat)
    ensures LastN(LastN(p, n) + [x], n) == LastN(p + [x], n)
  {
    var a := LastN(LastN(p, n) + [x], n);
    var b := LastN(p + [x], n);
    assert |a| == |b|;
    forall i | 0 <= i < |a|
      ensures a[i] == b[i]
    {
      if i == |a| - 1 {
        assert a[i] == x && b[i] == x;
      }
    }
  }

  // ------------------------------------------------------------ time labels

  /** "{elapsed / 60}:{elapsed % 60:D2}" with C#'s truncating division. */
  function TimeLabel(elapsed: int): string
  {
    IntToString(TruncDiv(elapsed, 60)) + ":" + D2(TruncMod(elapsed, 60))
  }

  /**
   * GenerateTimeLabels: one label per data point; label i shows the time
   * (n-1-i)*interval before the newest point.
   */
  method GenerateTimeLabels(dataPointCount: int, intervalSeconds: int) returns (labels: seq<string>)
    ensures |labels| == if dataPointCount > 0 then dataPointCount else 0
    ensures forall i :: 0 <= i < |labels| ==>
      labels[i] == TimeLabel((dataPointCount - 1 - i) * intervalSeconds)
  {
    labels := [];
    var totalSeconds := (dataPointCount - 1) * intervalSeconds;
    var i := 0;
    while i < dataPointCount
      invariant 0 <= i <= (if dataPointCount > 0 then dataPointCount else 0)
      invariant |labels| == i
      invariant forall t :: 0 <= t < i ==> labels[t] == TimeLabel((dataPointCount - 1 - t) * intervalSeconds)
    {
      var seconds := i * intervalSeconds;
      var elapsed := totalSeconds - seconds;
      assert elapsed == (dataPointCount - 1 - i) * intervalSeconds;
      var minutes := TruncDiv(elapsed, 60);
      var secs := TruncMod(elapsed, 60);
      labels := labels + [IntToString(minutes) + ":" + D2(secs)];
      i := i + 1;
    }
  }

  /** The newest point's label is "0:00". */
  lemma NewestLabel()
    ensures TimeLabel(0) == "0:00"
  {
    assert IntToString(0) == "0";
    assert D2(0) == "00";
  }

  /**
   * A label for a non-negative elapsed time splits at ':' into a minute count
   * and exactly two second digits that together give the elapsed time back.
   */
  lemma TimeLabelDecodes(elapsed: nat)
    ensures var parts := Split(TimeLabel(elapsed), ':');
      && |parts| == 2 && |parts[0]| >= 1 && |parts[1]| == 2
      && (forall k :: 0 <= k < |parts[0]| ==> IsDigit(parts[0][k]))
      && (forall k :: 0 <= k < |parts[1]| ==> IsDigit(parts[1][k]))
      && 60 * ParseNat(parts[0]) + ParseNat(parts[1]) == elapsed
  {
    TruncDivModFacts(elapsed, 60);
    var m := NatToString(elapsed / 60);
    var s := D2(elapsed % 60);
    assert IntToString(elapsed / 60) == m;
    assert forall k :: 0 <= k < |m| ==> m[k] != ':';
    assert forall k :: 0 <= k < |s| ==> s[k] != ':';
    assert Join([m, s], ':') == TimeLabel(elapsed);
    SplitJoin([m, s], ':');
    ParseNatToString(elapsed / 60);
  }

  // ----------------------------------------------------------- interpolation

  /** Points contributed per original sample: the factor, or 1 when the factor is below 2. */
  function Width(k: int): nat
  {
    if k > 1 then k else 1
  }

  /** current + (next - current) * (j / k). */
  function Between(a: real, b: real, j: int, k: int): real
    requires k != 0
  {
    a + (b - a) * (j as real / k as real)
  }

  /** A sample followed by the k-1 evenly spaced points towards the next sample. */
  function Segment(a: real, b: real, k: int): (r: seq<real>)
    ensures |r| == Width(k) && r[0] == a
  {
    [a] + seq(Width(k) - 1, m requires 0 <= m < Width(k) - 1 => Between(a, b, m + 1, k))
  }

  /** The segments of the first i samples. */
  function Segments(s: seq<real>, k: int, i: nat): seq<real>
    requires i < |s|
  {
    if i == 0 then [] else Segments(s, k, i - 1) + Segment(s[i - 1], s[i], k)
  }

  /** What InterpolateData returns: all segments, then the last sample. */
  function Interpolated(s: seq<real>, k: int): seq<real>
  {
    if |s| == 0 then [] else Segments(s, k, |s| - 1) + [s[|s| - 1]]
  }

  /** The prefix of a segment grows by the point j/k of the way along. */
  lemma SegmentPrefixStep(a: real, b: real, k: int, j: int)
    requires 1 <= j < Width(k)
    ensures Segment(a, b, k)[..j + 1] == Segment(a, b, k)[..j] + [Between(a, b, j, k)]
  {
    assert Segment(a, b, k)[j] == Between(a, b, j, k);
  }

  /** InterpolateData: builds the interpolated series with two nested loops. */
  method InterpolateData(original: seq<real>, interpolationFactor: int) returns (interpolated: seq<real>)
    ensures interpolated == Interpolated(original, interpolationFactor)
  {
    var k := interpolationFactor;
    interpolated := [];
    var i := 0;
    while i < |original| - 1
      invariant 0 <= i && (|original| > 0 ==> i < |original|)
      invariant |original| > 0 ==> interpolated == Segments(original, k, i)
      invariant |original| == 0 ==> interpolated == []
    {
      var current := original[i];
      var next := original[i + 1];
      interpolated := interpolated + [current];
      var j := 1;
      while j < k
        invariant 1 <= j <= Width(k)
        invariant interpolated == Segments(original, k, i) + Segment(current, next, k)[..j]
      {
        var ratio := j as real / k as real;
        var interpolatedValue := current + (next - current) * ratio;
        SegmentPrefixStep(current, next, k, j);
        assert interpolatedValue == Between(current, next, j, k);
        assert Segments(original, k, i) + Segment(current, next, k)[..j + 1]
            == (Segments(original, k, i) + Segment(current, next, k)[..j]) + [interpolatedValue];
        interpolated := interpolated + [interpolatedValue];
        j := j + 1;
      }
      assert Segment(current, next, k)[..j] == Segment(current, next, k);
      assert Segments(original, k, i + 1) == Segments(original, k, i) + Segment(current, next, k);
      i := i + 1;
    }
    if |original| > 0 {
      interpolated := interpolated + [original[|original| - 1]];
    }
  }

  /** Segment t of the first i starts at offset t * Width(k). */
  lemma {:induction false} SegmentsAt(s: seq<real>, k: int, i: nat, t: nat, m: nat)
    requires i < |s| && t < i && m < Width(k)
    ensures |Segments(s, k, i)| == i * Width(k)
    ensures t * Width(k) + m < i * Width(k)
    ensures Segments(s, k, i)[t * Width(k) + m] == Segment(s[t], s[t + 1], k)[m]
    decreases i
  {
    var w := Width(k);
    SegmentsLength(s, k, i - 1);
    assert (i - 1) * w + w == i * w;
    if t < i - 1 {
      SegmentsAt(s, k, i - 1, t, m);
    } else {
      assert t * w + m == (i - 1) * w + m;
    }
  }

  lemma {:induction false} SegmentsLength(s: seq<real>, k: int, i: nat)
    requires i < |s|
    ensures |Segments(s, k, i)| == i * Width(k)
    decreases i
  {
    if i > 0 {
      SegmentsLength(s, k, i - 1);
      assert (i - 1) * Width(k) + Width(k) == i * Width(k);
    }
  }

  /**
   * On n >= 1 samples the result has (n-1)*w+1 points (w the factor, at least
   * 1) and keeps every original sample at a multiple of w; no input gives no output.
   */
  lemma InterpolatedShape(s: seq<real>, k: int)
    ensures |s| == 0 ==> Interpolated(s, k) == []
    ensures |s| > 0 ==> |Interpolated(s, k)| == (|s| - 1) * Width(k) + 1
    ensures forall t :: 0 <= t < |s| ==>
      (t * Width(k) < |Interpolated(s, k)| && Interpolated(s, k)[t * Width(k)] == s[t])
  {
    if |s| > 0 {
      var n := |s|;
      var r := Interpolated(s, k);
      SegmentsLength(s, k, n - 1);
      forall t | 0 <= t < n
        ensures t * Width(k) < |r| && r[t * Width(k)] == s[t]
      {
        if t < n - 1 {
          SegmentsAt(s, k, n - 1, t, 0);
        } else {
          assert t * Width(k) == (n - 1) * Width(k);
        }
      }
    }
  }

  /** A factor below 2 adds no points: the series comes back unchanged. */
  lemma InterpolatedIdentity(s: seq<real>, k: int)
    requires k <= 1
    ensures Interpolated(s, k) == s
  {
    InterpolatedShape(s, k);
  }

  /** j/k of the way from a to b, for 0 < j < k, lies between a and b. */
  lemma BetweenBounds(a: real, b: real, j: int, k: int)
    requires 0 < j < k
    ensures MinReal(a, b) <= Between(a, b, j, k) <= MaxReal(a, b)
  {
    var r := j as real / k as real;
    assert 0.0 < r < 1.0;
    if a <= b {
      assert (b - a) * (1.0 - r) >= 0.0;
      assert 0.0 <= (b - a) * r <= b - a;
    } else {
      assert (a - b) * (1.0 - r) >= 0.0;
      assert a - b >= (a - b) * r >= 0.0;
    }
  }

  /** Every inserted point lies between the two samples it was interpolated from. */
  lemma InterpolatedBetween(s: seq<real>, k: int, t: nat, m: nat)
    requires t + 1 < |s| && 0 < m < Width(k)
    ensures t * Width(k) + m < |Interpolated(s, k)|
    ensures MinReal(s[t], s[t + 1]) <= Interpolated(s, k)[t * Width(k) + m] <= MaxReal(s[t], s[t + 1])
  {
    SegmentsAt(s, k, |s| - 1, t, m);
    BetweenBounds(s[t], s[t + 1], m, k);
  }

  // ---------------------------------------------------------- moving average

  /** Window start: Math.Max(0, i - w/2). */
  function WindowStart(i: int, w: int): int
  {
    if i - TruncDiv(w, 2) > 0 then i - TruncDiv(w, 2) else 0
  }

  /** Window end (exclusive): Math.Min(n, i + w/2 + 1). */
  function WindowEnd(n: int, i: int, w: int): int
  {
    if n < i + TruncDiv(w, 2) + 1 then n else i + TruncDiv(w, 2) + 1
  }

  /** For a window size of at least -1 every window is a non-empty slice around i. */
  lemma WindowNonEmpty(n: int, i: int, w: int)
    requires 0 <= i < n && w >= -1
    ensures 0 <= WindowStart(i, w) <= i < WindowEnd(n, i, w) <= n
  {
    TruncDivModFacts(w, 2);
  }

  /** The average of window i. */
  function WindowAverage(s: seq<real>, i: int, w: int): real
    requires 0 <= i < |s| && w >= -1
  {
    WindowNonEmpty(|s|, i, w);
    Average(s[WindowStart(i, w)..WindowEnd(|s|, i, w)])
  }

  /** What SmoothData returns when no window is empty. */
  function Smoothed(s: seq<real>, w: int): (r: seq<real>)
    requires w >= -1
    ensures |r| == |s|
  {
    seq(|s|, i requires 0 <= i < |s| => WindowAverage(s, i, w))
  }

  /** Averaging an empty window: Enumerable.Average throws InvalidOperationException. */
  datatype ChartError = EmptyWindow

  /**
   * SmoothData: the centred moving average. A window size below -1 makes the
   * first window empty, so a non-empty series fails.
   */
  method SmoothData(data: seq<real>, windowSize: int) returns (r: Result<seq<real>, ChartError>)
    ensures windowSize >= -1 ==> r == Success(Smoothed(data, windowSize))
    ensures windowSize < -1 && |data| == 0 ==> r == Success([])
    ensures windowSize < -1 && |data| > 0 ==> r == Failure(EmptyWindow)
  {
    TruncDivModFacts(windowSize, 2);
    var smoothed := [];
    var i := 0;
    while i < |data|
      invariant 0 <= i <= |data| && |smoothed| == i
      invariant windowSize < -1 ==> i == 0
      invariant windowSize >= -1 ==> forall t :: 0 <= t < i ==> smoothed[t] == WindowAverage(data, t, windowSize)
    {
      var start := MaxInt(0, i - TruncDiv(windowSize, 2));
      var end := MinInt(|data|, i + TruncDiv(windowSize, 2) + 1);
      if end - start <= 0 {
        return Failure(EmptyWindow);
      }
      if windowSize >= -1 {
        WindowNonEmpty(|data|, i, windowSize);
      }
      var average := Average(data[start..end]);
      smoothed := smoothed + [average];
      i := i + 1;
    }
    if windowSize >= -1 {
      assert smoothed == Smoothed(data, windowSize);
    }
    r := Success(smoothed);
  }

  function MaxInt(a: int, b: int): int
  {
    if a >= b then a else b
  }

  function MinInt(a: int, b: int): int
  {
    if a <= b then a else b
  }

  /** A window size of -1, 0 or 1 averages each sample alone: the series is unchanged. */
  lemma SmoothedIdentity(s: seq<real>, w: int)
    requires -1 <= w <= 1
    ensures Smoothed(s, w) == s
  {
    assert TruncDiv(w, 2) == 0;
    forall i | 0 <= i < |s|
      ensures Smoothed(s, w)[i] == s[i]
    {
      assert WindowStart(i, w) == i && WindowEnd(|s|, i, w) == i + 1;
      assert s[i..i + 1] == [s[i]];
      assert [s[i]][..0] == [];
      assert Sum([s[i]]) == s[i];
      assert Average([s[i]]) == s[i];
    }
  }

  /** A constant series stays constant under smoothing. */
  lemma SmoothedConstant(s: seq<real>, w: int, c: real)
    requires w >= -1
    requires forall i :: 0 <= i < |s| ==> s[i] == c
    ensures forall i :: 0 <= i < |s| ==> Smoothed(s, w)[i] == c
  {
    forall i | 0 <= i < |s|
      ensures Smoothed(s, w)[i] == c
    {
      WindowNonEmpty(|s|, i, w);
      var win := s[WindowStart(i, w)..WindowEnd(|s|, i, w)];
      SumConstant(win, c);
      assert Sum(win) / (|win| as real) == c;
    }
  }

  /** Smoothing never leaves the range of the original series. */
  lemma SmoothedBounded(s: seq<real>, w: int)
    requires w >= -1 && |s| > 0
    ensures forall i :: 0 <= i < |s| ==> Minimum(s) <= Smoothed(s, w)[i] <= Maximum(s)
  {
    forall i | 0 <= i < |s|
      ensures Minimum(s) <= Smoothed(s, w)[i] <= Maximum(s)
    {
      WindowNonEmpty(|s|, i, w);
      var lo := WindowStart(i, w);
      var win := s[lo..WindowEnd(|s|, i, w)];
      AverageBetween(win);
      MinimumIsLeast(s);
      MaximumIsGreatest(s);
      MinimumIsLeast(win);
      MaximumIsGreatest(win);
      assert win[0] == s[lo];
      assert Minimum(s) <= Minimum(win) by {
        var k :| 0 <= k < |win| && win[k] == Minimum(win);
        assert win[k] == s[lo + k];
      }
      assert Maximum(win) <= Maximum(s) by {
        var k :| 0 <= k < |win| && win[k] == Maximum(win);
        assert win[k] == s[lo + k];
      }
    }
  }
}
