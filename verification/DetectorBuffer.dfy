/** The detector object: a circular buffer of samples and a history of detections. */
module DetectorBuffer {
  import opened Wire
  import opened Detector

  datatype LagPeak = LagPeak(lag: nat, correlation: real)

  ghost predicate CacheOk(w: seq<real>, cache: map<nat, Option<real>>)
    requires w != []
  {
    forall l: nat | l in cache :: cache[l] == Correlation(w, l)
  }

  /** Arithmetic of the 64-bit type of indices and sizes. */
  const WORD: nat := 0x1_0000_0000_0000_0000

  function Sub64(a: nat, b: nat): nat { (a - b) % WORD }
  function Add64(a: nat, b: nat): nat { (a + b) % WORD }
  function Mul64(a: nat, b: nat): nat { (a * b) % WORD }

  function Rotate(v: seq<real>, latest: nat): (w: seq<real>)
    requires latest < |v|
    ensures |w| == |v|
  {
    v[latest + 1..] + v[..latest + 1]
  }

  lemma RotateSlides(v: seq<real>, latest: nat, x: real)
    requires latest < |v|
    ensures var next := (latest + 1) % |v|;
      Rotate(v[next := Abs(x)], next) == Slide(Rotate(v, latest), x)
  {
    var next := (latest + 1) % |v|;
    assert next == if latest + 1 == |v| then 0 else latest + 1;
  }

  class ReconfigurationDetector {
    const values: array<real>
    var latestIndex: nat
    var underThreshold: nat
    var collectedEnough: bool
    var ticksSincePeak: nat
    var past: seq<DetectionResult>
    var latest: Option<Reconfiguration>

    ghost predicate Valid()
      reads this
    {
      values.Length == SIZE && latestIndex < SIZE && PeriodsPlausible(past) && |past| <= 21
    }

    /** The samples in the order in which they arrived. */
    ghost function Window(): (w: seq<real>)
      requires values.Length == SIZE && latestIndex < SIZE
      reads `latestIndex, values
      ensures |w| == SIZE
    {
      Rotate(values[..], latestIndex)
    }

    ghost function Recall(): Memory
      reads this
    {
      Memory(past, latest)
    }

    constructor ()
      ensures Valid() && fresh(values) && Window() == Empty() && Recall() == Memory([], None)
      ensures latestIndex == 0 && underThreshold == 0 && !collectedEnough && ticksSincePeak == 9600
    {
      values := new real[SIZE](_ => 0.0);
      latestIndex, underThreshold, collectedEnough, ticksSincePeak := 0, 0, false, 9600;
      past, latest := [], None;
    }

    /** The window forgets its oldest sample and gains the size of the new one. */
    method UpdateDelayTrend(trend: real)
      requires Valid()
      modifies this, values
      ensures Valid() && Window() == Slide(old(Window()), trend) && Recall() == old(Recall())
      ensures latestIndex == (old(latestIndex) + 1) % SIZE
      ensures underThreshold == if trend < -0.02 then old(underThreshold) + 1 else 0
      ensures ticksSincePeak == if trend >= 0.015 then 0 else old(ticksSincePeak) + 1
      ensures collectedEnough == (old(collectedEnough) || latestIndex >= 40 * 60)
    {
      hide Rotate, Slide, Abs, PeriodsPlausible;
      ghost var was := values[..];
      RotateSlides(was, latestIndex, trend);
      latestIndex := latestIndex + 1;
      latestIndex := latestIndex % values.Length;
      values[latestIndex] := Abs(trend);
      assert values[..] == was[latestIndex := Abs(trend)];
      ticksSincePeak := ticksSincePeak + 1;
      if trend < -0.02 {
        underThreshold := underThreshold + 1;
      } else {
        if trend >= 0.015 {
          ticksSincePeak := 0;
        }
        underThreshold := 0;
      }
      if !collectedEnough && latestIndex >= 40 * 60 {
        collectedEnough := true;
      }
    }

    lemma InOrder(i: nat, k: nat)
      requires Valid() && i < SIZE && k == (latestIndex + 1 + i) % SIZE
      ensures Window()[i] == values[k]
    {}

    method MeanOf() returns (mean: real)
      requires Valid()
      ensures mean == Mean(Window())
    {
      var sum := 0.0;
      for i := 0 to values.Length
        invariant sum == Sum(values[..i])
      {
        assert values[..i + 1][..i] == values[..i];
        sum := sum + values[i];
      }
      mean := sum / values.Length as real;
      ghost var k := latestIndex + 1;
      assert values[..] == values[..k] + values[k..] && Window() == values[k..] + values[..k];
      SumConcat(values[..k], values[k..]);
      SumConcat(values[k..], values[..k]);
      assert values[..values.Length] == values[..];
    }

    method VarianceOf(mean: real) returns (variance: real)
      requires Valid() && mean == Mean(Window())
      ensures variance == Variance(Window())
    {
      variance := 0.0;
      for i := 0 to values.Length
        invariant variance == Spread(values[..i], mean)
      {
        assert values[..i + 1][..i] == values[..i];
        var centered := values[i] - mean;
        variance := variance + centered * centered;
      }
      variance := variance / values.Length as real;
      ghost var k := latestIndex + 1;
      assert values[..] == values[..k] + values[k..];
      SpreadConcat(values[..k], values[k..], mean);
      SpreadConcat(values[k..], values[..k], mean);
      assert values[..values.Length] == values[..];
    }

    method Correlate(lag: nat, mean: real, variance: real) returns (r: Option<real>)
      requires Valid() && mean == Mean(Window()) && variance == Variance(Window())
      ensures r == Correlation(Window(), lag)
    {
      hide Mean, Variance, Window, Quotient;
      if lag >= values.Length {
        return Some(0.0);
      }
      var correlation := 0.0;
      for i := 0 to values.Length - lag
        invariant correlation == Overlap(Window(), mean, lag, i)
      {
        var idx1 := (latestIndex + 1 + i) % values.Length;
        var idx2 := (latestIndex + 1 + i + lag) % values.Length;
        InOrder(i, idx1);
        InOrder(i + lag, idx2);
        var val1 := values[idx1] - mean;
        var val2 := values[idx2] - mean;
        correlation := correlation + val1 * val2;
      }
      r := Quotient(correlation, values.Length - lag, variance);
    }

    method GetCorrelation(lag: nat, mean: real, variance: real, cache: map<nat, Option<real>>)
      returns (r: Option<real>, cache': map<nat, Option<real>>)
      requires Valid() && mean == Mean(Window()) && variance == Variance(Window()) && CacheOk(Window(), cache)
      ensures r == Correlation(Window(), lag) && CacheOk(Window(), cache')
    {
      hide Correlation, Mean, Variance, Window;
      if lag in cache {
        return cache[lag], cache;
      }
      r := Correlate(lag, mean, variance);
      cache' := cache[lag := r];
    }

    /** The significant lags, in ascending order. */
    method FindPeaks(mean: real, variance: real)
      returns (peaks: seq<LagPeak>, cache: map<nat, Option<real>>)
      requires Valid() && mean == Mean(Window()) && variance == Variance(Window())
      ensures CacheOk(Window(), cache) && PeaksUpTo(Window(), peaks, LAST_LAG + 1)
    {
      hide Correlation, Mean, Variance, Window, PeaksUpTo;
      peaks, cache := [], map[];
      NoPeaks(Window());
      for lag := FIRST_LAG to LAST_LAG + 1
        invariant CacheOk(Window(), cache) && PeaksUpTo(Window(), peaks, lag)
      {
        var correlation;
        correlation, cache := GetCorrelation(lag, mean, variance, cache);
        PeakAdded(Window(), peaks, lag);
        if Above(correlation, 0.02) {
          peaks := peaks + [LagPeak(lag, correlation.value)];
        }
      }
    }

    /** The harmonics of the strongest period that are in range. */
    method FindHarmonics(period: real, mean: real, variance: real, cache0: map<nat, Option<real>>)
      returns (harmonics: seq<Harmonic>)
      requires Valid() && mean == Mean(Window()) && variance == Variance(Window()) && CacheOk(Window(), cache0)
      requires variance != 0.0
      ensures HarmonicsUpTo(Window(), period, harmonics, |RATIOS|)
    {
      hide Correlation, Mean, Variance, Window, HarmonicsUpTo;
      harmonics := [];
      var cache := cache0;
      NoHarmonics(Window(), period);
      for k := 0 to |RATIOS|
        invariant CacheOk(Window(), cache) && HarmonicsUpTo(Window(), period, harmonics, k)
      {
        var p := period * RATIOS[k];
        if InRange(p) {
          var correlation;
          correlation, cache := GetCorrelation(LagOf(p), mean, variance, cache);
          CorrelationIsNumber(Window(), LagOf(p));
          HarmonicAdded(Window(), period, harmonics, k, correlation.value);
          harmonics := harmonics + [Harmonic(p, correlation.value, RATIOS[k])];
        } else {
          HarmonicSkipped(Window(), period, harmonics, k);
        }
      }
    }

    /** Adds up the samples at an offset back from the newest, once a turn; indices are computed with
        wrap-around. */
    method FoldAt(length: nat, turns: nat, i: nat) returns (val: real)
      requires Valid() && i < length && turns * length <= SIZE
      ensures val == Folded(Window(), length, i, turns)
    {
      hide Window, Add64, Sub64, Mul64, Folded;
      val := 0.0;
      FoldedStart(Window(), length, i);
      for j := 0 to turns
        invariant j * length <= SIZE && val == Folded(Window(), length, i, j)
      {
        Unwrapped(latestIndex, i, j, length, turns);
        var k := Add64(Sub64(Sub64(latestIndex, i), Mul64(j, length)), values.Length) % values.Length;
        FoldedIndex(i, j, length, turns);
        FoldedNext(Window(), length, i, j);
        val := val + values[k];
      }
    }

    method FoldPeak(length: nat, turns: nat) returns (value: real, at: nat)
      requires Valid() && turns * length <= SIZE
      ensures (value, at) == Peak(Window(), length, turns, length)
    {
      hide Window, Folded;
      value, at := 0.0, 0;
      for i := 0 to length
        invariant (value, at) == Peak(Window(), length, turns, i)
      {
        var val := FoldAt(length, turns, i);
        if val > value {
          value, at := val, i;
        }
      }
    }

    method RecentAverageOf() returns (average: real)
      ensures average == RecentAverage(past)
    {
      hide Visit;
      if past == [] {
        return 0.0;
      }
      var sum, count, adjusted := 0.0, 0, 0;
      var i := |past|;
      while i > 0
        invariant 0 <= i <= |past|
        invariant VisitBack(past[i..]) == Going(sum, count, adjusted)
      {
        i := i - 1;
        var d := past[i];
        VisitNext(past, i);
        assert past[0..] == past;
        if d.found {
          if count > 0 && d.period - sum / count as real > 1.0 {
            VisitEnds(past, i);
            break;
          }
          if d.adjusted && adjusted + 1 >= 5 {
            VisitEnds(past, i);
            return 0.0;
          }
          sum, count := sum + d.period, count + 1;
          adjusted := if d.adjusted then adjusted + 1 else 0;
        }
      }
      average := if count > 0 then sum / count as real else 0.0;
    }

    /** Looks at the buffer once. What it finds there, and what it makes of it, is described by Detects
        and Pass. */
    method UpdateDetection(now: int) returns (ghost found: Option<real>)
      requires Valid()
      modifies this`past, this`latest
      ensures Valid()
      ensures ticksSincePeak > 40 * 60 * 2 || Detects(Window(), found)
      ensures found.Some? ==> InRange(found.value)
      ensures Recall() == Pass(old(Recall()), Window(), ticksSincePeak, now, found)
    {
      hide Window, Variance, Mean, Correlation, PeaksUpTo, HarmonicsUpTo, Best, Strongest, Detects, RecentAverage,
        NoPeriod, Predict, CacheOk, Significant;
      found := None;
      if |past| > 20 {
        past := past[|past| - 20..];
      }
      if ticksSincePeak > 40 * 60 * 2 {
        past := past + [Nothing];
        return;
      }
      var mean := MeanOf();
      var variance := VarianceOf(mean);
      var peaks, cache := FindPeaks(mean, variance);
      if |peaks| == 0 {
        NothingDetected(Window());
        WithoutPeriod(now);
        return;
      }
      var strongest := StrongestPeak(Window(), peaks);
      StrongestIsNumber(Window(), strongest.lag);
      var harmonics := FindHarmonics(PeriodOf(strongest.lag), mean, variance, cache);
      var best := SelectBest(Window(), strongest, harmonics);
      BestDetected(Window(), strongest.lag, best);
      found := Some(best);
      WithPeriod(best, now);
    }

    /** The branch without a significant correlation. */
    method WithoutPeriod(now: int)
      requires Valid() && |past| <= 20
      modifies this`past, this`latest
      ensures Valid() && Recall() == NoPeriod(old(past), old(latest), now)
    {
      if |past| >= 3 {
        if !past[|past| - 3].found && !past[|past| - 2].found && !past[|past| - 1].found {
          past := [];
        } else if past[|past| - 3].found && past[|past| - 2].found && past[|past| - 1].found {
          past := past + [Nothing];
          var average := RecentAverageOf();
          if latest.Some? && latest.value.expected < now {
            latest := Some(Reconfiguration(average, latest.value.expected + (average * 1000.0).Floor));
          }
          return;
        }
      }
      past := past + [Nothing];
    }

    /** The branch with a best period. */
    method WithPeriod(best: real, now: int)
      requires Valid() && |past| <= 20 && InRange(best)
      modifies this`past, this`latest
      ensures Valid() && Recall() == After(old(past), Window(), best, now)
    {
      hide Window, RecentAverage, Predict;
      var average := RecentAverageOf();
      var divider := 0;
      if average != 0.0 {
        for d := 1 to 6
          invariant divider == 0 && DividerFrom(average, best, 1) == DividerFrom(average, best, d)
        {
          if Divides(average, best, d) {
            divider := d;
            break;
          }
        }
      }
      if divider == 0 {
        past := past + [DetectionResult(true, best, false)];
        latest := None;
        return;
      }
      DividedPlausible(best, divider);
      past := past + [DetectionResult(true, best / divider as real, divider != 1)];
      var returning := RecentAverageOf();
      if returning == 0.0 {
        latest := None;
        return;
      }
      AveragePlausible(past);
      var next := PredictNext(returning, now);
      latest := next;
    }

    method PredictNext(average: real, now: int) returns (r: Option<Reconfiguration>)
      requires Valid() && Plausible(average)
      ensures r == Predict(Window(), average, now)
    {
      hide Window, Peak;
      var length := Round(average * 40.0);
      Fits(length);
      var turns := values.Length / length;
      var value, at := FoldPeak(length, turns);
      if value < 0.04 {
        return None;
      }
      r := Some(Reconfiguration(average, now + 1000 * ((length - at) / 40)));
    }

    lemma FoldedIndex(i: nat, j: nat, length: nat, turns: nat)
      requires Valid() && i < length && j < turns && turns * length <= SIZE
      ensures (j + 1) * length <= SIZE && i + j * length < SIZE
      ensures Window()[SIZE - 1 - i - j * length] == values[(latestIndex - i - j * length + SIZE) % SIZE]
    {
      Within(i, j, length, turns);
      var back := i + j * length;
      assert Window()[SIZE - 1 - back] == values[(latestIndex - back + SIZE) % SIZE];
    }
  }

  lemma FoldedStart(w: seq<real>, length: nat, i: nat)
    requires i < length
    ensures 0 * length == 0 && Folded(w, length, i, 0) == 0.0
  {}

  lemma FoldedNext(w: seq<real>, length: nat, i: nat, j: nat)
    requires i < length && j * length + length <= |w|
    ensures (j + 1) * length == j * length + length && 0 <= |w| - 1 - i - j * length < |w|
    ensures Folded(w, length, i, j + 1) == Folded(w, length, i, j) + w[|w| - 1 - i - j * length]
  {}

  lemma Fits(length: nat)
    requires length > 0
    ensures (SIZE / length) * length <= SIZE
  {}

  lemma Within(i: nat, j: nat, length: nat, turns: nat)
    requires i < length && j < turns && turns * length <= SIZE
    ensures j * length + length <= turns * length && i + j * length < SIZE
    ensures (j + 1) * length == j * length + length
  {
    assert (turns - 1 - j) * length >= 0;
    assert (turns - 1 - j) * length == turns * length - length - j * length;
  }

  /** The intermediate results may wrap around, the index does not. */
  lemma Unwrapped(latestIndex: nat, i: nat, j: nat, length: nat, turns: nat)
    requires latestIndex < SIZE && i < length && j < turns && turns * length <= SIZE
    ensures i + j * length < SIZE
    ensures Add64(Sub64(Sub64(latestIndex, i), Mul64(j, length)), SIZE) == latestIndex - i - j * length + SIZE
  {
    Within(i, j, length, turns);
    WrapAround(latestIndex, i, j * length);
  }

  lemma WrapAround(a: nat, i: nat, m: nat)
    requires a < SIZE && i + m < SIZE
    ensures Add64(Sub64(Sub64(a, i), m % WORD), SIZE) == a - i - m + SIZE
  {
    assert m % WORD == m;
    var s := Sub64(a, i);
    assert s == if a >= i then a - i else a - i + WORD;
    var t := Sub64(s, m);
    assert t == if s >= m then s - m else s - m + WORD;
  }

  lemma {:induction false} SumConcat(a: seq<real>, b: seq<real>)
    ensures Sum(a + b) == Sum(a) + Sum(b)
    decreases |b|
  {
    if b == [] {
      assert a + b == a;
    } else {
      assert (a + b)[..|a + b| - 1] == a + b[..|b| - 1];
      SumConcat(a, b[..|b| - 1]);
    }
  }

  lemma {:induction false} SpreadConcat(a: seq<real>, b: seq<real>, m: real)
    ensures Spread(a + b, m) == Spread(a, m) + Spread(b, m)
    decreases |b|
  {
    if b == [] {
      assert a + b == a;
    } else {
      assert (a + b)[..|a + b| - 1] == a + b[..|b| - 1];
      SpreadConcat(a, b[..|b| - 1], m);
    }
  }

  // Peaks.

  ghost predicate PeaksUpTo(w: seq<real>, peaks: seq<LagPeak>, bound: nat)
    requires w != []
  {
    && (forall j :: 0 <= j < |peaks| ==> peaks[j].lag < bound && Significant(w, peaks[j].lag)
                                         && Correlation(w, peaks[j].lag) == Some(peaks[j].correlation))
    && (forall i, j :: 0 <= i < j < |peaks| ==> peaks[i].lag < peaks[j].lag)
    && (forall l: nat :: l < bound && Significant(w, l) ==> LagIn(peaks, l))
  }

  ghost predicate LagIn(peaks: seq<LagPeak>, l: nat) { exists j :: 0 <= j < |peaks| && peaks[j].lag == l }

  lemma NoPeaks(w: seq<real>)
    requires w != []
    ensures PeaksUpTo(w, [], FIRST_LAG)
  {}

  lemma PeakAdded(w: seq<real>, peaks: seq<LagPeak>, lag: nat)
    requires w != [] && FIRST_LAG <= lag <= LAST_LAG && PeaksUpTo(w, peaks, lag)
    ensures var c := Correlation(w, lag);
      PeaksUpTo(w, if Above(c, 0.02) then peaks + [LagPeak(lag, c.value)] else peaks, lag + 1)
  {
    hide Correlation;
    var c := Correlation(w, lag);
    if Above(c, 0.02) {
      var peaks' := peaks + [LagPeak(lag, c.value)];
      forall l: nat | l < lag + 1 && Significant(w, l) ensures LagIn(peaks', l) {
        if l == lag {
          assert peaks'[|peaks|].lag == l;
        } else {
          var j :| 0 <= j < |peaks| && peaks[j].lag == l;
          assert peaks'[j].lag == l;
        }
      }
    }
  }

  method StrongestPeak(ghost w: seq<real>, peaks: seq<LagPeak>) returns (strongest: LagPeak)
    requires w != [] && PeaksUpTo(w, peaks, LAST_LAG + 1) && peaks != []
    ensures Strongest(w, strongest.lag) && Correlation(w, strongest.lag) == Some(strongest.correlation)
  {
    hide Correlation;
    var at := 0;
    for i := 1 to |peaks|
      invariant 0 <= at < |peaks|
      invariant forall j :: 0 <= j < i ==> peaks[j].correlation <= peaks[at].correlation
      invariant forall j :: 0 <= j < at ==> peaks[j].correlation < peaks[at].correlation
    {
      if Abs(peaks[at].correlation) < Abs(peaks[i].correlation) {
        at := i;
      }
    }
    strongest := peaks[at];
    forall l: nat | Significant(w, l)
      ensures Correlation(w, l).value <= strongest.correlation
      ensures l < strongest.lag ==> Correlation(w, l).value < strongest.correlation
    {
      assert LagIn(peaks, l);
    }
  }

  // Harmonics.

  ghost predicate HarmonicsUpTo(w: seq<real>, period: real, hs: seq<Harmonic>, k: nat)
    requires w != [] && k <= |RATIOS|
  {
    && (forall j :: 0 <= j < |hs| ==> IsHarmonic(w, period, hs[j]))
    && (forall i :: 0 <= i < k && InRange(period * RATIOS[i]) ==> RatioIn(hs, RATIOS[i]))
  }

  ghost predicate RatioIn(hs: seq<Harmonic>, r: real) { exists j :: 0 <= j < |hs| && hs[j].ratio == r }

  lemma NoHarmonics(w: seq<real>, period: real)
    requires w != []
    ensures HarmonicsUpTo(w, period, [], 0)
  {}

  lemma HarmonicAdded(w: seq<real>, period: real, hs: seq<Harmonic>, k: nat, c: real)
    requires w != [] && k < |RATIOS| && HarmonicsUpTo(w, period, hs, k) && InRange(period * RATIOS[k])
    requires Correlation(w, LagOf(period * RATIOS[k])) == Some(c)
    ensures HarmonicsUpTo(w, period, hs + [Harmonic(period * RATIOS[k], c, RATIOS[k])], k + 1)
  {
    HarmonicHere(w, period, k, c);
    hide Correlation, IsHarmonic, InRange;
    var hs' := hs + [Harmonic(period * RATIOS[k], c, RATIOS[k])];
    assert hs'[|hs|].ratio == RATIOS[k];
    forall i | 0 <= i < k && InRange(period * RATIOS[i]) ensures RatioIn(hs', RATIOS[i]) {
      var j :| 0 <= j < |hs| && hs[j].ratio == RATIOS[i];
      assert hs'[j].ratio == RATIOS[i];
    }
  }

  lemma HarmonicHere(w: seq<real>, period: real, k: nat, c: real)
    requires w != [] && k < |RATIOS| && InRange(period * RATIOS[k])
    requires Correlation(w, LagOf(period * RATIOS[k])) == Some(c)
    ensures IsHarmonic(w, period, Harmonic(period * RATIOS[k], c, RATIOS[k]))
  {}

  lemma HarmonicSkipped(w: seq<real>, period: real, hs: seq<Harmonic>, k: nat)
    requires w != [] && k < |RATIOS| && HarmonicsUpTo(w, period, hs, k) && !InRange(period * RATIOS[k])
    ensures HarmonicsUpTo(w, period, hs, k + 1)
  {
    hide IsHarmonic, InRange;
  }

  lemma CorrelationIsNumber(w: seq<real>, lag: nat)
    requires w != [] && Variance(w) != 0.0
    ensures Correlation(w, lag).Some?
  {}

  lemma VisitNext(ds: seq<DetectionResult>, i: nat)
    requires i < |ds| && VisitBack(ds[i + 1..]).Going?
    ensures var t := VisitBack(ds[i + 1..]);
      var d := ds[i];
      VisitBack(ds[i..]) ==
        if !d.found then t
        else if t.count > 0 && d.period - t.sum / t.count as real > 1.0 then Stopped(t.sum, t.count)
        else if d.adjusted && t.adjusted + 1 >= 5 then Reset
        else Going(t.sum + d.period, t.count + 1, if d.adjusted then t.adjusted + 1 else 0)
  {
    assert ds[i..][1..] == ds[i + 1..];
  }

  lemma {:induction false} VisitEnds(ds: seq<DetectionResult>, i: nat)
    requires i <= |ds| && !VisitBack(ds[i..]).Going?
    ensures VisitBack(ds) == VisitBack(ds[i..])
    decreases i
  {
    if i == 0 {
      assert ds[0..] == ds;
    } else {
      assert ds[i - 1..][1..] == ds[i..];
      VisitEnds(ds, i - 1);
    }
  }

  lemma NothingDetected(w: seq<real>)
    requires w != [] && PeaksUpTo(w, [], LAST_LAG + 1)
    ensures Detects(w, None)
  {
    hide Correlation;
    forall lag: nat ensures !Significant(w, lag) {
      assert !LagIn([], lag);
      assert lag < LAST_LAG + 1 || lag > LAST_LAG;
    }
  }

  lemma StrongestIsNumber(w: seq<real>, lag: nat)
    requires |w| == SIZE && Strongest(w, lag)
    ensures Variance(w) != 0.0 && FIRST_LAG <= lag <= LAST_LAG
  {}

  lemma BestDetected(w: seq<real>, lag: nat, best: real)
    requires w != [] && Strongest(w, lag) && Best(w, lag, best)
    ensures Detects(w, Some(best))
  {
    hide Strongest, Best;
  }

  lemma HarmonicListed(w: seq<real>, period: real, hs: seq<Harmonic>, g: Harmonic)
    requires w != [] && HarmonicsUpTo(w, period, hs, |RATIOS|) && IsHarmonic(w, period, g)
    ensures g in hs
  {
    hide Correlation, LagOf, InRange;
    var i :| 0 <= i < |RATIOS| && RATIOS[i] == g.ratio;
    assert RatioIn(hs, RATIOS[i]);
    var j :| 0 <= j < |hs| && hs[j].ratio == g.ratio;
    assert IsHarmonic(w, period, hs[j]);
  }

  lemma ShorterIfBelowOne(w: seq<real>, period: real, hs: seq<Harmonic>, j: nat)
    requires w != [] && period > 0.0 && HarmonicsUpTo(w, period, hs, |RATIOS|) && j < |hs| && hs[j].ratio < 1.0
    ensures hs[j].period < period
  {
    hide Correlation, LagOf;
    assert IsHarmonic(w, period, hs[j]);
    var r := hs[j].ratio;
    assert (1.0 - r) * period > 0.0;
  }

  lemma LeastIsBest(w: seq<real>, lag: nat, hs: seq<Harmonic>, at: nat)
    requires w != [] && HarmonicsUpTo(w, PeriodOf(lag), hs, |RATIOS|) && at < |hs| && Clear(hs[at])
    requires forall j :: 0 <= j < |hs| && Clear(hs[j]) ==> hs[at].period <= hs[j].period
    ensures Best(w, lag, hs[at].period) && InRange(hs[at].period)
  {
    hide Correlation, LagOf, Clear, Candidate;
    var p := PeriodOf(lag);
    assert IsHarmonic(w, p, hs[at]);
    forall g | IsHarmonic(w, p, g) && Clear(g) ensures hs[at].period <= g.period {
      HarmonicListed(w, p, hs, g);
    }
  }

  lemma MostIsBest(w: seq<real>, strongest: LagPeak, hs: seq<Harmonic>, best: real, c: real)
    requires w != [] && FIRST_LAG <= strongest.lag <= LAST_LAG
    requires Correlation(w, strongest.lag) == Some(strongest.correlation)
    requires HarmonicsUpTo(w, PeriodOf(strongest.lag), hs, |RATIOS|)
    requires forall j :: 0 <= j < |hs| ==> !Clear(hs[j]) && Abs(hs[j].correlation) <= Abs(c)
    requires Abs(strongest.correlation) <= Abs(c)
    requires || (best == PeriodOf(strongest.lag) && c == strongest.correlation)
             || exists j :: 0 <= j < |hs| && best == hs[j].period && c == hs[j].correlation
    ensures Best(w, strongest.lag, best) && InRange(best)
  {
    hide Correlation, LagOf, Clear, IsHarmonic, HarmonicsUpTo;
    var p := PeriodOf(strongest.lag);
    forall g | IsHarmonic(w, p, g) ensures !Clear(g) && Abs(g.correlation) <= Abs(c) {
      HarmonicListed(w, p, hs, g);
    }
    if best == p && c == strongest.correlation {
      assert Candidate(w, strongest.lag, best, c);
    } else {
      var j :| 0 <= j < |hs| && best == hs[j].period && c == hs[j].correlation;
      Listed(w, p, hs, j);
      assert Candidate(w, strongest.lag, best, c);
    }
  }

  lemma Listed(w: seq<real>, period: real, hs: seq<Harmonic>, j: nat)
    requires w != [] && HarmonicsUpTo(w, period, hs, |RATIOS|) && j < |hs|
    ensures IsHarmonic(w, period, hs[j]) && InRange(hs[j].period)
  {}

  method SelectBest(ghost w: seq<real>, strongest: LagPeak, hs: seq<Harmonic>) returns (best: real)
    requires w != [] && FIRST_LAG <= strongest.lag <= LAST_LAG
    requires Correlation(w, strongest.lag) == Some(strongest.correlation)
    requires HarmonicsUpTo(w, PeriodOf(strongest.lag), hs, |RATIOS|)
    ensures Best(w, strongest.lag, best) && InRange(best)
  {
    hide Correlation, HarmonicsUpTo, Best, InRange, Abs;
    var period := PeriodOf(strongest.lag);
    var correlation;
    best, correlation := period, strongest.correlation;
    ghost var at: nat := |hs|;
    for i := 0 to |hs|
      invariant at < i || at == |hs|
      invariant at == |hs| ==>
        best == period && correlation == strongest.correlation && forall j :: 0 <= j < i ==> !Clear(hs[j])
      invariant at < i ==> best < period && Clear(hs[at]) && best == hs[at].period
                           && forall j :: 0 <= j < i && Clear(hs[j]) ==> best <= hs[j].period
    {
      if hs[i].ratio < 1.0 && Abs(hs[i].correlation) > 0.15 {
        ShorterIfBelowOne(w, period, hs, i);
        if hs[i].period < best {
          best, correlation, at := hs[i].period, hs[i].correlation, i;
        }
      }
    }
    if at < |hs| {
      LeastIsBest(w, strongest.lag, hs, at);
    }
    if best == period {
      for i := 0 to |hs|
        invariant Abs(strongest.correlation) <= Abs(correlation)
        invariant forall j :: 0 <= j < i ==> Abs(hs[j].correlation) <= Abs(correlation)
        invariant || (best == period && correlation == strongest.correlation)
                  || exists j :: 0 <= j < i && best == hs[j].period && correlation == hs[j].correlation
      {
        if Abs(hs[i].correlation) > Abs(correlation) {
          best, correlation := hs[i].period, hs[i].correlation;
        }
      }
      MostIsBest(w, strongest, hs, best, correlation);
    }
  }
}
