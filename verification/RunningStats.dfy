/**
 Incremental statistics against their batch definitions: the moving average (common/utils.py), the service frequency
 tracker built on it (cereal/messaging/__init__.py) and the running mean and variance (common/stat_live.py). Exact reals.
 */
module RunningStats {
  import opened Wrappers
  import opened Numbers

  /** The last `n` entries. */
  function Last<T>(xs: seq<T>, n: nat): seq<T> {
    if |xs| <= n then xs else xs[|xs| - n..]
  }

  // ---------------------------------------------------------------- moving average

  function Zeros(n: nat): seq<real> {
    seq(n, _ => 0.0)
  }

  lemma {:induction false} SumZeros(n: nat)
    ensures Sum(Zeros(n)) == 0.0
  {
    if n > 0 {
      SumZeros(n - 1);
      assert Zeros(n)[..n - 1] == Zeros(n - 1);
    }
  }

  /** The last `n` entries, zeros standing for those before the start. */
  function Padded(history: seq<real>, n: nat): (r: seq<real>)
    ensures |r| == n
  {
    if |history| < n then Zeros(n - |history|) + history else history[|history| - n..]
  }

  lemma PaddedShifts(history: seq<real>, n: nat, x: real)
    requires n > 0
    ensures Padded(history + [x], n) == Padded(history, n)[1..] + [x]
  {
    if |history| < n {
      var z := n - |history|;
      assert Zeros(z)[1..] == Zeros(z - 1);
      assert (Zeros(z) + history)[1..] == Zeros(z - 1) + history;
    }
  }

  lemma SumPadded(history: seq<real>, n: nat)
    ensures Sum(Padded(history, n)) == Sum(Last(history, n))
  {
    if |history| < n {
      SumZeros(n - |history|);
      SumAppend(Zeros(n - |history|), history);
    }
  }

  /** A ring read from its oldest slot on. */
  function Rotated(ring: seq<real>, index: nat): seq<real>
    requires index <= |ring|
  {
    ring[index..] + ring[..index]
  }

  lemma OverwriteRotates(ring: seq<real>, index: nat, x: real)
    requires index < |ring|
    ensures var next := if index + 1 == |ring| then 0 else index + 1;
            Rotated(ring[index := x], next) == Rotated(ring, index)[1..] + [x]
  {
    var after := ring[index := x];
    assert after[index + 1..] == ring[index + 1..] && after[..index + 1] == ring[..index] + [x];
    assert Rotated(ring, index)[1..] == ring[index + 1..] + ring[..index];
    if index + 1 == |ring| {
      assert after[0..] == after && after[..0] == [];
    }
  }

  lemma RotatedFirst(ring: seq<real>, index: nat)
    requires index < |ring|
    ensures |Rotated(ring, index)| == |ring| && Rotated(ring, index)[0] == ring[index]
  {
  }

  lemma OldestReplaced(w: seq<real>, x: real)
    requires |w| > 0
    ensures Sum(w[1..] + [x]) == Sum(w) - w[0] + x
  {
    hide Sum;
    assert w == [w[0]] + w[1..];
    SumAppend([w[0]], w[1..]);
    SumOne(w[0]);
    SumSnoc(w[1..], x);
  }

  lemma NextIndex(i: nat, n: nat)
    requires i < n
    ensures (i + 1) % n == if i + 1 == n then 0 else i + 1
  {
  }

  class MovingAverage {
    const windowSize: nat
    const buffer: array<real>
    var index: nat
    var count: nat
    var sum: real
    ghost var history: seq<real>

    ghost predicate Valid()
      reads this, buffer
    {
      && buffer.Length == windowSize > 0 && index < windowSize
      && Rotated(buffer[..], index) == Padded(history, windowSize)
      && count == Min(|history|, windowSize)
      && sum == Sum(Padded(history, windowSize))
    }

    constructor (windowSize: nat)
      requires windowSize > 0
      ensures Valid() && fresh(buffer) && history == [] && this.windowSize == windowSize
    {
      this.windowSize := windowSize;
      buffer := new real[windowSize](_ => 0.0);
      index, count, sum, history := 0, 0, 0.0, [];
      new;
      SumZeros(windowSize);
      assert buffer[..] == Zeros(windowSize);
      assert Rotated(buffer[..], 0) == Zeros(windowSize) == Padded([], windowSize);
    }

    method AddValue(x: real)
      requires Valid()
      modifies this, buffer
      ensures Valid() && history == old(history) + [x]
    {
      hide Rotated, Padded, Sum;
      PaddedShifts(history, windowSize, x);
      OldestReplaced(Padded(history, windowSize), x);
      OverwriteRotates(buffer[..], index, x);
      NextIndex(index, windowSize);
      RotatedFirst(buffer[..], index);
      ghost var ring := buffer[..];
      sum := sum - buffer[index];
      buffer[index] := x;
      assert buffer[..] == ring[index := x];
      sum := sum + x;
      index := (index + 1) % windowSize;
      count := if count + 1 < windowSize then count + 1 else windowSize;
      history := history + [x];
    }

    /** None stands for the source's NaN. */
    method GetAverage() returns (r: Option<real>)
      requires Valid()
      ensures r == MeanOfLast(history, windowSize)
    {
      SumPadded(history, windowSize);
      if count == 0 {
        return None;
      }
      return Some(sum / count as real);
    }
  }

  /** The mean of the last min(n, size) values. */
  function MeanOfLast(history: seq<real>, size: nat): Option<real> {
    var n := Min(|history|, size);
    if n == 0 then None else Some(Over(Sum(Last(history, size)), n as real))
  }

  // ---------------------------------------------------------------- frequency tracker

  /** The intervals that `record_recv_time` records: none while the previous time is not above the source's 1e-5. */
  function Intervals(prev: real, times: seq<real>): seq<real>
    decreases |times|
  {
    if |times| == 0 then []
    else (if prev > 0.00001 then [times[0] - prev] else []) + Intervals(times[0], times[1..])
  }

  function LastTime(prev: real, times: seq<real>): real {
    if |times| == 0 then prev else times[|times| - 1]
  }

  lemma {:induction false} IntervalsSnoc(prev: real, times: seq<real>, t: real)
    ensures Intervals(prev, times + [t])
         == Intervals(prev, times) + if LastTime(prev, times) > 0.00001 then [t - LastTime(prev, times)] else []
    decreases |times|
  {
    if |times| == 0 {
      assert [t][1..] == [];
      assert Intervals(t, []) == [];
    } else {
      var (all, rest) := (times + [t], times[1..]);
      var head := if prev > 0.00001 then [times[0] - prev] else [];
      assert all[0] == times[0] && all[1..] == rest + [t];
      assert Intervals(prev, all) == head + Intervals(times[0], rest + [t]);
      assert Intervals(prev, times) == head + Intervals(times[0], rest);
      hide Intervals;
      IntervalsSnoc(times[0], rest, t);
    }
  }

  function FMin(a: real, b: real): real {
    if b < a then b else a
  }

  function FMax(a: real, b: real): real {
    if b > a then b else a
  }

  datatype Band = Band(minFreq: real, maxFreq: real, window: nat, recentWindow: nat)

  function BandOf(serviceFreq: real, updateFreq: real, isPoll: bool): Band {
    var freq := FMax(FMin(serviceFreq, updateFreq), 1.0);
    var maxFreq := if isPoll then freq else FMin(freq, updateFreq);
    var minFreq :=
      if isPoll then freq
      else if serviceFreq >= 2.0 * updateFreq then updateFreq
      else if updateFreq >= 2.0 * serviceFreq then freq
      else FMin(freq, freq / 2.0);
    Band(minFreq * 0.8, maxFreq * 1.2, (10.0 * freq).Floor, freq.Floor)
  }

  /** The rate of a mean interval is in the band; None is the source's division by zero. */
  function RateInBand(b: Band, mean: real): Option<bool> {
    if mean == 0.0 then None else Some(b.minFreq <= Over(1.0, mean) <= b.maxFreq)
  }

  /** `valid` as the source evaluates it: the long window first, the recent one only if that fails. */
  function Verdict(b: Band, intervals: seq<real>): Option<bool> {
    var long := MeanOfLast(intervals, b.window);
    if long.None? then Some(false)
    else
      var inBand := RateInBand(b, long.value);
      if inBand != Some(false) then inBand
      else
        var recent := MeanOfLast(intervals, b.recentWindow);
        if recent.None? then Some(false) else RateInBand(b, recent.value)
  }

  /**
   The band in numbers: with f the lower of the two frequencies but at least one, the upper bound is a fifth above and the
   lower one a fifth below f, or a fifth below half of f when neither frequency is twice the other.
   */
  lemma BandTells(serviceFreq: real, updateFreq: real, isPoll: bool)
    ensures var b := BandOf(serviceFreq, updateFreq, isPoll);
            var least := if serviceFreq < updateFreq then serviceFreq else updateFreq;
            var f := if least < 1.0 then 1.0 else least;
            && 5.0 * b.maxFreq == 6.0 * (if isPoll || f < updateFreq then f else updateFreq)
            && 5.0 * b.minFreq == (if isPoll then 4.0 * f
                                   else if serviceFreq >= 2.0 * updateFreq then 4.0 * updateFreq
                                   else if updateFreq >= 2.0 * serviceFreq then 4.0 * f
                                   else 2.0 * f)
            && b.window as real <= 10.0 * f < b.window as real + 1.0
            && 1.0 <= b.recentWindow as real <= f < b.recentWindow as real + 1.0
  {
  }

  /** So arrivals at the lower of the two frequencies are in the band, when it is at least one a second. */
  lemma ExpectedRateIsInBand(serviceFreq: real, updateFreq: real, isPoll: bool, k: nat, span: real)
    requires k > 0 && span > 0.0 && Over(k as real, span) == (if serviceFreq < updateFreq then serviceFreq else updateFreq) >= 1.0
    ensures SpanInBand(BandOf(serviceFreq, updateFreq, isPoll), k, span)
  {
    BandTells(serviceFreq, updateFreq, isPoll);
    hide BandOf, Over;
  }

  class FrequencyTracker {
    const band: Band
    const avgDt: MovingAverage
    const recentAvgDt: MovingAverage
    var prevTime: real
    ghost var times: seq<real>

    ghost predicate Valid()
      reads this, avgDt, avgDt.buffer, recentAvgDt, recentAvgDt.buffer
    {
      && avgDt.Valid() && recentAvgDt.Valid() && avgDt != recentAvgDt && avgDt.buffer != recentAvgDt.buffer
      && avgDt.windowSize == band.window && recentAvgDt.windowSize == band.recentWindow
      && avgDt.history == recentAvgDt.history == Intervals(0.0, times)
      && prevTime == LastTime(0.0, times)
    }

    constructor (serviceFreq: real, updateFreq: real, isPoll: bool)
      ensures Valid() && times == [] && band == BandOf(serviceFreq, updateFreq, isPoll)
      ensures fresh(avgDt) && fresh(avgDt.buffer) && fresh(recentAvgDt) && fresh(recentAvgDt.buffer)
    {
      var b := BandOf(serviceFreq, updateFreq, isPoll);
      band := b;
      avgDt := new MovingAverage(b.window);
      recentAvgDt := new MovingAverage(b.recentWindow);
      prevTime := 0.0;
      times := [];
    }

    method RecordRecvTime(t: real)
      requires Valid()
      modifies this, avgDt, avgDt.buffer, recentAvgDt, recentAvgDt.buffer
      ensures Valid() && times == old(times) + [t]
    {
      hide Padded, Rotated, Sum;
      IntervalsSnoc(0.0, times, t);
      if prevTime > 0.00001 {
        var dt := t - prevTime;
        avgDt.AddValue(dt);
        recentAvgDt.AddValue(dt);
      }
      prevTime := t;
      times := times + [t];
    }

    method IsValid() returns (r: Option<bool>)
      requires Valid()
      ensures r == Verdict(band, Intervals(0.0, times))
    {
      hide Padded, Rotated, Sum;
      var average := avgDt.GetAverage();
      if average.None? {
        return Some(false);
      }
      if average.value == 0.0 {
        return None;
      }
      if band.minFreq <= 1.0 / average.value <= band.maxFreq {
        return Some(true);
      }
      var recent := recentAvgDt.GetAverage();
      if recent.None? {
        return Some(false);
      }
      return RateInBand(band, recent.value);
    }
  }

  /** Arrival times after the source's threshold, strictly increasing. */
  ghost predicate Arrivals(times: seq<real>) {
    && (forall i :: 0 <= i < |times| ==> times[i] > 0.00001)
    && (forall i, j :: 0 <= i < j < |times| ==> times[i] < times[j])
  }

  lemma {:induction false} IntervalsOfArrivals(times: seq<real>, prev: real)
    requires Arrivals(times) && prev > 0.00001
    ensures |Intervals(prev, times)| == |times|
    ensures forall i :: 0 <= i < |times| ==> Intervals(prev, times)[i] == times[i] - (if i == 0 then prev else times[i - 1])
    decreases |times|
  {
    if |times| > 0 {
      IntervalsOfArrivals(times[1..], times[0]);
    }
  }

  lemma FirstIsNotRecorded(times: seq<real>)
    requires Arrivals(times)
    ensures |Intervals(0.0, times)| == if |times| == 0 then 0 else |times| - 1
    ensures forall i :: 0 <= i < |times| - 1 ==> Intervals(0.0, times)[i] == times[i + 1] - times[i]
  {
    if |times| > 0 {
      IntervalsOfArrivals(times[1..], times[0]);
    }
  }

  /** The last `k` intervals add up to the time they span. */
  lemma {:induction false} IntervalsTelescope(times: seq<real>, gaps: seq<real>, k: nat)
    requires k <= |gaps| == |times| - 1 && forall i :: 0 <= i < |gaps| ==> gaps[i] == times[i + 1] - times[i]
    ensures Sum(gaps[|gaps| - k..]) == times[|times| - 1] - times[|times| - 1 - k]
    decreases k
  {
    if k > 0 {
      var n := |gaps| - k;
      IntervalsTelescope(times, gaps, k - 1);
      assert gaps[n..] == [gaps[n]] + gaps[n + 1..];
      SumAppend([gaps[n]], gaps[n + 1..]);
      SumOne(gaps[n]);
    }
  }

  /** The mean interval over a window is the time from the k-th previous arrival to the last, over k. */
  lemma MeanIsSpan(times: seq<real>, size: nat)
    requires Arrivals(times) && |times| > 1 && size > 0
    ensures var k := Min(|times| - 1, size);
            && k > 0 && k <= |times| - 1
            && MeanOfLast(Intervals(0.0, times), size) == Some(Over(times[|times| - 1] - times[|times| - 1 - k], k as real))
            && times[|times| - 1] - times[|times| - 1 - k] > 0.0
  {
    hide Intervals, Sum, Over;
    FirstIsNotRecorded(times);
    var gaps := Intervals(0.0, times);
    var k := Min(|times| - 1, size);
    assert times[|times| - 1 - k] < times[|times| - 1];
    hide Arrivals;
    IntervalsTelescope(times, gaps, k);
    LastIsTail(gaps, size);
    MeanDef(gaps, size, k, times[|times| - 1] - times[|times| - 1 - k]);
  }

  lemma LastIsTail(gaps: seq<real>, size: nat)
    ensures Last(gaps, size) == gaps[|gaps| - Min(|gaps|, size)..]
  {
  }

  lemma MeanDef(gaps: seq<real>, size: nat, k: nat, span: real)
    requires k == Min(|gaps|, size) && k > 0 && Sum(Last(gaps, size)) == span
    ensures MeanOfLast(gaps, size) == Some(Over(span, k as real))
  {
    hide Sum, Over;
  }

  /** `k` arrivals within `span` are in the band. */
  predicate SpanInBand(b: Band, k: nat, span: real)
    requires k > 0 && span > 0.0
  {
    b.minFreq <= Over(k as real, span) <= b.maxFreq
  }

  lemma RateOfMean(b: Band, k: nat, span: real)
    requires k > 0 && span > 0.0
    ensures RateInBand(b, Over(span, k as real)) == Some(SpanInBand(b, k, span))
  {
    hide Over;
    var (m, f) := (Over(span, k as real), Over(k as real, span));
    OverTimes(span, k as real);
    OverTimes(k as real, span);
    Reciprocal(m, f, k as real, span);
    OverTimes(1.0, m);
    SameQuotient(Over(1.0, m), f, m);
  }

  lemma SameQuotient(p: real, q: real, m: real)
    requires m > 0.0 && p * m == 1.0 && m * q == 1.0
    ensures p == q
  {
    assert p == p * (m * q) == (p * m) * q == q;
  }

  lemma Reciprocal(m: real, f: real, k: real, span: real)
    requires k > 0.0 && span > 0.0 && m * k == span && f * span == k
    ensures m > 0.0 && m * f == 1.0
  {
    if m <= 0.0 {
      ProductNotPositive(m, k);
    }
    assert (m * f) * span == m * (f * span) == m * k;
    assert (m * f - 1.0) * span == 0.0;
  }

  /**
   For strictly increasing arrivals `valid` never fails to divide, and it holds exactly when there are two arrivals and
   the rate over the long or over the recent window is in the band.
   */
  lemma ValidIffRateInBand(b: Band, times: seq<real>)
    requires Arrivals(times) && b.window > 0 && b.recentWindow > 0
    ensures Verdict(b, Intervals(0.0, times)).Some?
    ensures |times| <= 1 ==> Verdict(b, Intervals(0.0, times)) == Some(false)
    ensures |times| > 1 ==>
      var n := |times| - 1;
      var (k, r) := (Min(n, b.window), Min(n, b.recentWindow));
      && times[n] - times[n - k] > 0.0 && times[n] - times[n - r] > 0.0
      && Verdict(b, Intervals(0.0, times))
         == Some(|| b.minFreq <= Over(k as real, times[n] - times[n - k]) <= b.maxFreq
                 || b.minFreq <= Over(r as real, times[n] - times[n - r]) <= b.maxFreq)
  {
    hide Intervals, MeanOfLast, RateInBand, SpanInBand, Arrivals, Over, Verdict;
    if |times| > 1 {
      var n := |times| - 1;
      MeanIsSpan(times, b.window);
      MeanIsSpan(times, b.recentWindow);
      VerdictOf(b, Intervals(0.0, times), Min(n, b.window), times[n] - times[n - Min(n, b.window)],
                Min(n, b.recentWindow), times[n] - times[n - Min(n, b.recentWindow)]);
      SpanInBandIs(b, Min(n, b.window), times[n] - times[n - Min(n, b.window)]);
      SpanInBandIs(b, Min(n, b.recentWindow), times[n] - times[n - Min(n, b.recentWindow)]);
    } else {
      FirstIsNotRecorded(times);
      NothingRecorded(b, Intervals(0.0, times));
    }
  }

  lemma SpanInBandIs(b: Band, k: nat, span: real)
    requires k > 0 && span > 0.0
    ensures SpanInBand(b, k, span) <==> b.minFreq <= Over(k as real, span) <= b.maxFreq
  {
    hide Over;
  }

  lemma NothingRecorded(b: Band, intervals: seq<real>)
    requires |intervals| == 0
    ensures Verdict(b, intervals) == Some(false)
  {
  }

  lemma VerdictOf(b: Band, intervals: seq<real>, k: nat, long: real, r: nat, recent: real)
    requires k > 0 && r > 0 && long > 0.0 && recent > 0.0
    requires MeanOfLast(intervals, b.window) == Some(Over(long, k as real))
    requires MeanOfLast(intervals, b.recentWindow) == Some(Over(recent, r as real))
    ensures Verdict(b, intervals) == Some(SpanInBand(b, k, long) || SpanInBand(b, r, recent))
  {
    hide MeanOfLast, RateInBand, SpanInBand, Over;
    RateOfMean(b, k, long);
    RateOfMean(b, r, recent);
  }

  // ---------------------------------------------------------------- running mean and variance

  datatype Stat = Stat(m: real, s: real, n: int)

  /** `push_data` with at most `cap` tracked, unlimited when negative. */
  function Pushed(t: Stat, x: real, cap: int): Stat {
    var n := if cap < 0 || t.n < cap then t.n + 1 else t.n;
    if n == 0 then t.(m := x, n := n)
    else
      var m := t.m + (x - t.m) / n as real;
      Stat(m, t.s + Mul(x - t.m, x - m), n)
  }

  function PushedAll(t: Stat, xs: seq<real>, cap: int): Stat {
    if |xs| == 0 then t else Pushed(PushedAll(t, xs[..|xs| - 1], cap), xs[|xs| - 1], cap)
  }

  class RunningStat {
    const maxTrackable: int
    var m: real
    var s: real
    var mLast: real
    var sLast: real
    var n: int

    function Value(): Stat
      reads this
    {
      Stat(m, s, n)
    }

    /** The last values mirror the current ones between calls, except that a cap of zero never touches `s`. */
    ghost predicate Valid()
      reads this
    {
      mLast == m && n >= 0 && (sLast == s || (maxTrackable == 0 && n == 0))
    }

    constructor (priors: Option<Stat>, maxTrackable: int)
      requires priors.Some? ==> priors.value.n >= 0
      ensures Valid() && this.maxTrackable == maxTrackable
      ensures Value() == if priors.Some? then priors.value else Stat(0.0, 0.0, 0)
    {
      this.maxTrackable := maxTrackable;
      var start := if priors.Some? then priors.value else Stat(0.0, 0.0, 0);
      m, s, n := start.m, start.s, start.n;
      mLast, sLast := start.m, start.s;
    }

    method PushData(x: real)
      requires Valid()
      modifies this
      ensures Valid() && Value() == Pushed(old(Value()), x, maxTrackable)
    {
      if maxTrackable < 0 || n < maxTrackable {
        n := n + 1;
      }
      if n == 0 {
        mLast := x;
        m := mLast;
        sLast := 0.0;
      } else {
        m := mLast + (x - mLast) / n as real;
        s := sLast + Mul(x - mLast, x - m);
        mLast := m;
        sLast := s;
      }
    }
  }

  function SumSquares(xs: seq<real>): real {
    if |xs| == 0 then 0.0 else SumSquares(xs[..|xs| - 1]) + xs[|xs| - 1] * xs[|xs| - 1]
  }

  /** n M: the sum of what the statistic stands for. */
  function First(t: Stat): real {
    t.n as real * t.m
  }

  /** S + n M^2: the sum of its squares. */
  function Second(t: Stat): real {
    t.s + t.n as real * t.m * t.m
  }

  /** One step of Welford's recurrence, with d the change of the mean. */
  lemma WelfordPolynomial(m: real, s: real, n: real, d: real)
    ensures (n + 1.0) * (m + d) == n * m + (m + d * (n + 1.0))
    ensures (s + (d * (n + 1.0)) * (d * (n + 1.0) - d)) + (n + 1.0) * (m + d) * (m + d)
         == s + n * m * m + (m + d * (n + 1.0)) * (m + d * (n + 1.0))
  {
  }

  lemma WelfordStep(m: real, s: real, n: real, x: real, d: real, m1: real, s1: real)
    requires x == m + d * (n + 1.0) && m1 == m + d && s1 == s + (x - m) * (x - m1)
    ensures (n + 1.0) * m1 == n * m + x
    ensures s1 + (n + 1.0) * m1 * m1 == s + n * m * m + x * x
  {
    assert (x - m) * (x - m1) == (d * (n + 1.0)) * (d * (n + 1.0) - d);
    WelfordPolynomial(m, s, n, d);
  }

  lemma PushMoments(t: Stat, x: real)
    requires t.n >= 0
    ensures var r := Pushed(t, x, -1); r.n == t.n + 1 && First(r) == First(t) + x && Second(r) == Second(t) + x * x
  {
    var r := Pushed(t, x, -1);
    var n := t.n as real;
    var d := (x - t.m) / (n + 1.0);
    assert r.m == t.m + d && r.s == t.s + (x - t.m) * (x - r.m);
    assert d * (n + 1.0) == x - t.m;
    hide Pushed;
    WelfordStep(t.m, t.s, n, x, d, r.m, r.s);
  }

  /**
   With unlimited tracking, from any prior statistic: n M and S + n M^2 are the prior's values plus the sum and the sum
   of squares of all that was pushed.
   */
  lemma {:induction false} WelfordIsBatch(t: Stat, xs: seq<real>)
    requires t.n >= 0
    ensures var r := PushedAll(t, xs, -1);
            r.n == t.n + |xs| && First(r) == First(t) + Sum(xs) && Second(r) == Second(t) + SumSquares(xs)
  {
    hide Pushed, First, Second;
    if |xs| > 0 {
      WelfordIsBatch(t, xs[..|xs| - 1]);
      PushMoments(PushedAll(t, xs[..|xs| - 1], -1), xs[|xs| - 1]);
    }
  }

  /** The squared deviations of the data from `m`. */
  function Deviations(xs: seq<real>, m: real): real {
    if |xs| == 0 then 0.0 else Deviations(xs[..|xs| - 1], m) + (xs[|xs| - 1] - m) * (xs[|xs| - 1] - m)
  }

  lemma {:induction false} DeviationsExpand(xs: seq<real>, m: real)
    ensures Deviations(xs, m) == SumSquares(xs) - 2.0 * m * Sum(xs) + |xs| as real * m * m
  {
    if |xs| > 0 {
      DeviationsExpand(xs[..|xs| - 1], m);
    }
  }

  /** Without a prior, M is the mean of the data and S the sum of their squared deviations from it. */
  lemma FromScratchIsBatch(xs: seq<real>)
    requires |xs| > 0
    ensures var r := PushedAll(Stat(0.0, 0.0, 0), xs, -1);
            r.n == |xs| && r.m == Over(Sum(xs), |xs| as real) && r.s == Deviations(xs, r.m)
  {
    hide PushedAll, Sum, SumSquares, Deviations, Over;
    WelfordIsBatch(Stat(0.0, 0.0, 0), xs);
    var r := PushedAll(Stat(0.0, 0.0, 0), xs, -1);
    DeviationsExpand(xs, r.m);
    OverTimes(Sum(xs), |xs| as real);
    Centered(|xs| as real, r.m, r.s, Sum(xs), SumSquares(xs), Deviations(xs, r.m), Over(Sum(xs), |xs| as real));
  }

  lemma Centered(n: real, m: real, s: real, sum: real, squares: real, deviations: real, mean: real)
    requires n > 0.0 && n * m == sum && s + n * m * m == squares && mean * n == sum
    requires deviations == squares - 2.0 * m * sum + n * m * m
    ensures m == mean && deviations == s
  {
    assert (m - mean) * n == 0.0;
    assert m * sum == n * m * m;
  }

  ghost predicate InHull(lo: real, hi: real, m: real) {
    lo <= m <= hi
  }

  lemma PushStays(t: Stat, x: real, cap: int, lo: real, hi: real)
    requires 0 <= t.n && (cap >= 0 ==> t.n <= cap) && lo <= x <= hi && (t.n > 0 ==> InHull(lo, hi, t.m))
    ensures var r := Pushed(t, x, cap);
            && 0 <= r.n && (cap >= 0 ==> r.n <= cap) && InHull(lo, hi, r.m) && r.s >= t.s
  {
    hide Mul;
    var r := Pushed(t, x, cap);
    if r.n > 0 {
      if t.n > 0 {
        Convex(t.m, x, r.n as real, r.m);
      } else {
        assert r.n == 1 && r.m == x;
      }
      SameSign(x - t.m, x - r.m);
    }
  }

  lemma Convex(m: real, x: real, n: real, m1: real)
    requires n >= 1.0 && m1 == m + (x - m) / n
    ensures m <= m1 <= x || x <= m1 <= m
  {
    var d := (x - m) / n;
    assert d * n == x - m;
    if x >= m {
      Shares(x - m, d, n);
    } else {
      Shares(m - x, -d, n);
    }
  }

  lemma Shares(gap: real, d: real, n: real)
    requires n >= 1.0 && d * n == gap && gap >= 0.0
    ensures 0.0 <= d <= gap
  {
    if d < 0.0 {
      ProductNotPositive(d, n);
    } else {
      ProductNotNegative(d, n - 1.0);
      assert d * n == d + d * (n - 1.0);
    }
  }

  lemma SameSign(a: real, b: real)
    requires (a >= 0.0 && b >= 0.0) || (a <= 0.0 && b <= 0.0)
    ensures Mul(a, b) >= 0.0
  {
    if a >= 0.0 && b >= 0.0 {
      ProductNotNegative(a, b);
    } else {
      ProductNotNegative(-a, -b);
      assert a * b == (-a) * (-b);
    }
  }

  /**
   With a cap the count never exceeds it (given a prior within it), the mean stays in the hull of the prior mean and
   the data, and S never decreases.
   */
  lemma {:induction false} CappedStaysInHull(t: Stat, xs: seq<real>, cap: int, lo: real, hi: real)
    requires 0 <= t.n && (cap >= 0 ==> t.n <= cap) && (t.n > 0 ==> InHull(lo, hi, t.m))
    requires forall i :: 0 <= i < |xs| ==> lo <= xs[i] <= hi
    ensures var r := PushedAll(t, xs, cap);
            && 0 <= r.n && (cap >= 0 ==> r.n <= cap) && (t.n > 0 || |xs| > 0 ==> InHull(lo, hi, r.m)) && r.s >= t.s
  {
    if |xs| > 0 {
      CappedStaysInHull(t, xs[..|xs| - 1], cap, lo, hi);
      hide Pushed;
      PushStays(PushedAll(t, xs[..|xs| - 1], cap), xs[|xs| - 1], cap, lo, hi);
    }
  }

  /** At the cap the mean moves a cap-th of the way to the new value. */
  lemma CappedStep(t: Stat, x: real, cap: int)
    requires 0 < cap == t.n
    ensures var r := Pushed(t, x, cap);
            && r.n == cap && cap as real * r.m == (cap - 1) as real * t.m + x && r.s == t.s + (x - t.m) * (x - r.m)
  {
    hide Over;
    var r := Pushed(t, x, cap);
    Moved(cap as real, t.m, x, (x - t.m) / cap as real);
  }

  lemma Moved(n: real, m: real, x: real, d: real)
    requires n > 0.0 && d == (x - m) / n
    ensures n * (m + d) == (n - 1.0) * m + x
  {
    assert d * n == x - m;
  }

  // ---------------------------------------------------------------- filtered statistic

  function Variance(t: Stat): real {
    if t.n >= 2 then t.s / (t.n as real - 1.0) else 0.0
  }

  /** Without a prior the variance is the sample variance: n - 1 times it is the sum of the squared deviations. */
  lemma VarianceIsSample(xs: seq<real>)
    requires |xs| >= 2
    ensures var r := PushedAll(Stat(0.0, 0.0, 0), xs, -1);
            (|xs| - 1) as real * Variance(r) == Deviations(xs, Over(Sum(xs), |xs| as real))
  {
    FromScratchIsBatch(xs);
    hide PushedAll, Sum, Deviations, Over;
    var r := PushedAll(Stat(0.0, 0.0, 0), xs, -1);
    Undivided(r.s, r.n as real - 1.0);
  }

  lemma Undivided(s: real, n: real)
    requires n > 0.0
    ensures n * (s / n) == s
  {
  }

  /** What is assumed of the square root: it keeps the order of numbers that are not negative. */
  ghost predicate KeepsOrder(sqrt: real -> real) {
    forall a, b :: a >= 0.0 && b >= 0.0 ==> (sqrt(a) <= sqrt(b) <==> a <= b)
  }

  class RunningStatFilter {
    const rawStat: RunningStat
    const filteredStat: RunningStat

    ghost predicate Valid()
      reads this, rawStat, filteredStat
    {
      rawStat != filteredStat && rawStat.Valid() && filteredStat.Valid() && rawStat.maxTrackable == -1 && rawStat.s >= 0.0
    }

    constructor (rawPriors: Option<Stat>, filteredPriors: Option<Stat>, maxTrackable: int)
      requires rawPriors.Some? ==> rawPriors.value.n >= 0 && rawPriors.value.s >= 0.0
      requires filteredPriors.Some? ==> filteredPriors.value.n >= 0
      ensures Valid() && fresh(rawStat) && fresh(filteredStat) && filteredStat.maxTrackable == maxTrackable
      ensures rawStat.Value() == (if rawPriors.Some? then rawPriors.value else Stat(0.0, 0.0, 0))
      ensures filteredStat.Value() == if filteredPriors.Some? then filteredPriors.value else Stat(0.0, 0.0, 0)
    {
      rawStat := new RunningStat(rawPriors, -1);
      filteredStat := new RunningStat(filteredPriors, maxTrackable);
    }

    /** The filtered statistic takes exactly the data that do not raise the raw variance. */
    method PushAndUpdate(x: real, sqrt: real -> real)
      requires Valid() && KeepsOrder(sqrt)
      modifies rawStat, filteredStat
      ensures Valid() && rawStat.Value() == Pushed(old(rawStat.Value()), x, -1)
      ensures filteredStat.Value() ==
              if Variance(rawStat.Value()) <= Variance(old(rawStat.Value()))
              then Pushed(old(filteredStat.Value()), x, filteredStat.maxTrackable) else old(filteredStat.Value())
    {
      hide Variance, Pushed;
      ghost var before := rawStat.Value();
      var stdLast := sqrt(Variance(rawStat.Value()));
      VarianceIsNatural(before);
      PushKeepsSpread(before, x);
      rawStat.PushData(x);
      VarianceIsNatural(rawStat.Value());
      var deltaStd := sqrt(Variance(rawStat.Value())) - stdLast;
      if deltaStd <= 0.0 {
        filteredStat.PushData(x);
      }
    }
  }

  lemma VarianceIsNatural(t: Stat)
    requires t.s >= 0.0
    ensures Variance(t) >= 0.0
  {
  }

  lemma PushKeepsSpread(t: Stat, x: real)
    requires t.n >= 0
    ensures Pushed(t, x, -1).s >= t.s
  {
    PushStays(t, x, -1, if t.m < x then t.m else x, if t.m < x then x else t.m);
  }
}
