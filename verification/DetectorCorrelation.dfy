/** What the autocorrelation measures: it is 1 at the period of a periodic window, and does not depend
    on the level or the unit of the samples. */
module DetectorCorrelation {
  import opened Wire
  import opened Detector
  import opened DetectorTheorems

  // Another level.

  function Raised(w: seq<real>, c: real): (v: seq<real>)
    ensures |v| == |w|
  {
    seq(|w|, i requires 0 <= i < |w| => w[i] + c)
  }

  lemma {:induction false} SumRaised(w: seq<real>, c: real)
    ensures Sum(Raised(w, c)) == Sum(w) + |w| as real * c
  {
    if w != [] {
      var init := w[..|w| - 1];
      SumRaised(init, c);
      assert Raised(w, c)[..|w| - 1] == Raised(init, c);
      assert |w| as real * c == |init| as real * c + c;
    }
  }

  lemma MeanRaised(w: seq<real>, c: real)
    requires w != []
    ensures Mean(Raised(w, c)) == Mean(w) + c
  {
    SumRaised(w, c);
    hide Sum;
    Share(Sum(w), |w| as real, c);
  }

  lemma Share(s: real, n: real, c: real)
    requires n > 0.0
    ensures (s + n * c) / n == s / n + c
  {
    var q := s / n;
    assert q * n == s;
    assert (q + c) * n == s + n * c;
    Divided((s + n * c) / n, q + c, n);
  }

  lemma Divided(a: real, b: real, n: real)
    requires n != 0.0 && a * n == b * n
    ensures a == b
  {
    var d := a - b;
    assert d * n == 0.0;
    if d > 0.0 {
      assert if n > 0.0 then d * n > 0.0 else d * -n > 0.0;
    } else if d < 0.0 {
      assert if n > 0.0 then -d * n > 0.0 else -d * -n > 0.0;
    }
  }

  lemma {:induction false} SpreadRaised(w: seq<real>, c: real, m: real)
    ensures Spread(Raised(w, c), m + c) == Spread(w, m)
  {
    hide Square;
    if w != [] {
      var init := w[..|w| - 1];
      SpreadRaised(init, c, m);
      assert Raised(w, c)[..|w| - 1] == Raised(init, c);
      assert (w[|w| - 1] + c) - (m + c) == w[|w| - 1] - m;
    }
  }

  lemma {:induction false} OverlapRaised(w: seq<real>, c: real, m: real, lag: nat, k: nat)
    requires k + lag <= |w|
    ensures Overlap(Raised(w, c), m + c, lag, k) == Overlap(w, m, lag, k)
  {
    if k > 0 {
      OverlapRaised(w, c, m, lag, k - 1);
      assert (w[k - 1] + c) - (m + c) == w[k - 1] - m;
      assert (w[k - 1 + lag] + c) - (m + c) == w[k - 1 + lag] - m;
    }
  }

  /** The level of the samples does not matter. */
  lemma LevelIsFree(w: seq<real>, c: real, lag: nat)
    requires w != []
    ensures Correlation(Raised(w, c), lag) == Correlation(w, lag)
  {
    hide Mean, Spread, Overlap;
    MeanRaised(w, c);
    SpreadRaised(w, c, Mean(w));
    if lag < |w| {
      OverlapRaised(w, c, Mean(w), lag, |w| - lag);
    }
  }

  // Another unit.

  function Scaled(w: seq<real>, f: real): (v: seq<real>)
    ensures |v| == |w|
  {
    seq(|w|, i requires 0 <= i < |w| => Times(f, w[i]))
  }

  lemma ScaledLast(w: seq<real>, f: real)
    requires w != []
    ensures Scaled(w, f)[..|w| - 1] == Scaled(w[..|w| - 1], f) && Scaled(w, f)[|w| - 1] == Times(f, w[|w| - 1])
  {
    hide Times;
    var init := w[..|w| - 1];
    forall i | 0 <= i < |init| ensures Scaled(w, f)[i] == Scaled(init, f)[i] {
      assert init[i] == w[i];
    }
  }

  lemma TimesSum(q: real, a: real, b: real)
    ensures Times(q, 0.0) == 0.0 && Times(q, a) + Times(q, b) == Times(q, a + b)
  {}

  lemma TimesShare(q: real, s: real, n: real)
    requires n != 0.0
    ensures Times(q, s) / n == Times(q, s / n)
  {
    var r := s / n;
    assert r * n == s;
    Reordered(n, q, r);
    QuotientIs(q * s, n, q * r);
  }

  lemma Reordered(r: real, q: real, d: real)
    ensures r * (q * d) == q * (r * d)
  {}

  lemma QuotientIs(sum: real, d: real, r: real)
    requires d != 0.0 && d * r == sum
    ensures sum / d == r
  {
    Divided(sum / d, r, d);
  }

  lemma ProductScaled(f: real, x: real, y: real, m: real)
    ensures Times(Times(f, x) - Times(f, m), Times(f, y) - Times(f, m)) == Times(Square(f), Times(x - m, y - m))
  {
    var a, b := x - m, y - m;
    assert f * x - f * m == f * a && f * y - f * m == f * b;
    assert (f * a) * (f * b) == (f * f) * (a * b);
  }

  lemma {:induction false} SumScaled(w: seq<real>, f: real)
    ensures Sum(Scaled(w, f)) == Times(f, Sum(w))
  {
    hide Times;
    TimesSum(f, 0.0, 0.0);
    if w != [] {
      SumScaled(w[..|w| - 1], f);
      ScaledLast(w, f);
      hide Scaled;
      TimesSum(f, Sum(w[..|w| - 1]), w[|w| - 1]);
    }
  }

  lemma MeanScaled(w: seq<real>, f: real)
    requires w != []
    ensures Mean(Scaled(w, f)) == Times(f, Mean(w))
  {
    hide Sum, Times;
    SumScaled(w, f);
    TimesShare(f, Sum(w), |w| as real);
  }

  lemma {:induction false} SpreadScaled(w: seq<real>, f: real, m: real)
    ensures Spread(Scaled(w, f), Times(f, m)) == Times(Square(f), Spread(w, m))
  {
    hide Times;
    TimesSum(Square(f), 0.0, 0.0);
    if w != [] {
      var init, x := w[..|w| - 1], w[|w| - 1];
      SpreadScaled(init, f, m);
      ScaledLast(w, f);
      ProductScaled(f, x, x, m);
      TimesSum(Square(f), Spread(init, m), Square(x - m));
      hide Scaled;
    }
  }

  lemma OverlapNext(w: seq<real>, m: real, lag: nat, k: nat)
    requires 0 < k && k + lag <= |w|
    ensures Overlap(w, m, lag, k) == Overlap(w, m, lag, k - 1) + Times(w[k - 1] - m, w[k - 1 + lag] - m)
    ensures Overlap(w, m, lag, 0) == 0.0
  {}

  lemma {:induction false} OverlapScaled(w: seq<real>, f: real, m: real, lag: nat, k: nat)
    requires k + lag <= |w|
    ensures Overlap(Scaled(w, f), Times(f, m), lag, k) == Times(Square(f), Overlap(w, m, lag, k))
  {
    hide Times, Square;
    TimesSum(Square(f), 0.0, 0.0);
    if k > 0 {
      OverlapScaled(w, f, m, lag, k - 1);
      OverlapNext(w, m, lag, k);
      OverlapNext(Scaled(w, f), Times(f, m), lag, k);
      hide Overlap;
      var x, y := w[k - 1], w[k - 1 + lag];
      ProductScaled(f, x, y, m);
      TimesSum(Square(f), Overlap(w, m, lag, k - 1), Times(x - m, y - m));
    }
  }

  lemma QuotientScaled(q: real, sum: real, n: nat, variance: real)
    requires q > 0.0 && n > 0
    ensures Quotient(Times(q, sum), n, Times(q, variance)) == Quotient(sum, n, variance)
  {
    if variance == 0.0 {
      assert Times(q, variance) == 0.0;
    } else {
      hide Quotient;
      var c := n as real;
      NonZero(q, variance);
      NonZero(c, variance);
      var r := sum / (c * variance);
      assert (c * variance) * r == sum;
      QuotientOf(sum, n, variance, r);
      Reordered(c, q, variance);
      assert (q * (c * variance)) * r == q * ((c * variance) * r);
      assert c * Times(q, variance) == q * (c * variance);
      QuotientOf(Times(q, sum), n, Times(q, variance), r);
    }
  }

  lemma QuotientOf(sum: real, n: nat, variance: real, r: real)
    requires n > 0 && variance != 0.0 && (n as real * variance) * r == sum
    ensures Quotient(sum, n, variance) == Some(r)
  {
    var c, q := n as real, Quotient(sum, n, variance);
    NonZero(c, variance);
    var d := c * variance;
    assert q.Some? && q.value == sum / d;
    QuotientIs(sum, d, r);
  }

  lemma NonZero(a: real, b: real)
    requires a != 0.0 && b != 0.0
    ensures a * b != 0.0
  {
    if a * b == 0.0 {
      Divided(a, 0.0, b);
    }
  }

  /** The unit of the samples does not matter. */
  lemma UnitIsFree(w: seq<real>, f: real, lag: nat)
    requires w != [] && f != 0.0
    ensures Correlation(Scaled(w, f), lag) == Correlation(w, lag)
  {
    hide Mean, Spread, Overlap, Quotient, Times, Square;
    MeanScaled(w, f);
    SpreadScaled(w, f, Mean(w));
    TimesShare(Square(f), Spread(w, Mean(w)), |w| as real);
    if lag < |w| {
      OverlapScaled(w, f, Mean(w), lag, |w| - lag);
      SquareIsZero(f);
      QuotientScaled(Square(f), Overlap(w, Mean(w), lag, |w| - lag), |w| - lag, Variance(w));
    }
  }

  // A periodic window.

  ghost predicate Repeats(w: seq<real>, lag: nat) {
    lag > 0 && forall i :: 0 <= i < |w| - lag ==> w[i] == w[i + lag]
  }

  lemma {:induction false} OverlapIsSpread(w: seq<real>, m: real, lag: nat, k: nat)
    requires Repeats(w, lag) && k + lag <= |w|
    ensures Overlap(w, m, lag, k) == Spread(w[..k], m)
  {
    if k > 0 {
      OverlapIsSpread(w, m, lag, k - 1);
      assert w[..k][..k - 1] == w[..k - 1];
      assert w[k - 1] == w[k - 1 + lag];
    }
  }

  lemma {:induction false} SpreadConcat(a: seq<real>, b: seq<real>, m: real)
    ensures Spread(a + b, m) == Spread(a, m) + Spread(b, m)
    decreases |b|
  {
    hide Square;
    if b == [] {
      assert a + b == a;
    } else {
      SpreadConcat(a, b[..|b| - 1], m);
      assert (a + b)[..|a + b| - 1] == a + b[..|b| - 1];
    }
  }

  /** Periods from the start are alike. */
  lemma {:induction false} TurnsAlike(w: seq<real>, lag: nat, turns: nat, at: nat)
    requires Repeats(w, lag) && at == turns * lag && at + lag <= |w|
    ensures w[at..at + lag] == w[..lag]
    decreases turns
  {
    if turns > 0 {
      var before := at - lag;
      assert before == (turns - 1) * lag;
      TurnsAlike(w, lag, turns - 1, before);
      SameShifted(w, lag, before);
    }
  }

  lemma SameShifted(w: seq<real>, lag: nat, at: nat)
    requires Repeats(w, lag) && at + lag + lag <= |w|
    ensures w[at + lag..at + lag + lag] == w[at..at + lag]
  {
    var here, next := w[at..at + lag], w[at + lag..at + lag + lag];
    forall i | 0 <= i < lag ensures next[i] == here[i] {
      assert w[at + i] == w[at + i + lag];
    }
  }

  lemma {:induction false} SpreadOfTurns(w: seq<real>, m: real, lag: nat, turns: nat, at: nat)
    requires Repeats(w, lag) && at == turns * lag && at <= |w| && lag <= |w|
    ensures Spread(w[..at], m) == Times(turns as real, Spread(w[..lag], m))
    decreases turns
  {
    hide Times;
    OneMore(0.0, Spread(w[..lag], m));
    if turns > 0 {
      var before := at - lag;
      assert before == (turns - 1) * lag;
      SpreadOfTurns(w, m, lag, turns - 1, before);
      TurnsAlike(w, lag, turns - 1, before);
      hide Spread, Repeats;
      SpreadNext(w, m, before, at);
      OneMore((turns - 1) as real, Spread(w[..lag], m));
      assert turns as real == (turns - 1) as real + 1.0;
    }
  }

  lemma SpreadNext(w: seq<real>, m: real, before: nat, at: nat)
    requires before <= at <= |w|
    ensures Spread(w[..at], m) == Spread(w[..before], m) + Spread(w[before..at], m)
  {
    assert w[..at] == w[..before] + w[before..at];
    SpreadConcat(w[..before], w[before..at], m);
  }

  lemma OneMore(t: real, b: real)
    ensures Times(0.0, b) == 0.0 && Times(t, b) + b == Times(t + 1.0, b)
  {}

  /** A window of several equal periods correlates fully at their length, unless it is constant. */
  lemma PeriodCorrelates(w: seq<real>, lag: nat, turns: nat)
    requires turns > 1 && |w| == turns * lag && Repeats(w, lag)
    requires exists i :: 0 <= i < |w| && w[i] != Mean(w)
    ensures Correlation(w, lag) == Some(1.0)
  {
    hide Spread, Overlap, Mean, Repeats, Times;
    var m, n := Mean(w), |w| - lag;
    TurnsBefore(turns, lag);
    OverlapIsSpread(w, m, lag, n);
    SpreadOfTurns(w, m, lag, turns - 1, n);
    SpreadOfTurns(w, m, lag, turns, |w|);
    assert w[..|w|] == w;
    NotAllMean(w);
    PeriodQuotient(Spread(w, m), Overlap(w, m, lag, n), Spread(w[..lag], m), |w|, n, turns, lag);
  }

  lemma NotAllMean(w: seq<real>)
    requires exists i :: 0 <= i < |w| && w[i] != Mean(w)
    ensures Spread(w, Mean(w)) != 0.0
  {
    SpreadIsZero(w, Mean(w));
    hide Spread, Mean;
  }

  lemma TurnsBefore(turns: nat, lag: nat)
    requires turns > 1 && lag > 0
    ensures turns * lag - lag == (turns - 1) * lag > 0
  {
    assert (turns - 1) * lag >= lag;
  }

  lemma PeriodQuotient(spread: real, overlap: real, b: real, size: nat, n: nat, turns: nat, lag: nat)
    requires turns > 1 && lag > 0 && size == turns * lag && n == (turns - 1) * lag && size > 0 && n > 0
    requires spread == Times(turns as real, b) && overlap == Times((turns - 1) as real, b) && spread != 0.0
    ensures Quotient(overlap, n, spread / size as real) == Some(1.0)
  {
    var t, l, u := turns as real, lag as real, b / lag as real;
    RealProduct(turns, lag);
    RealProduct(turns - 1, lag);
    assert l * u == b;
    assert (t * l) * u == t * (l * u) && ((t - 1.0) * l) * u == (t - 1.0) * (l * u);
    QuotientIs(spread, size as real, u);
    assert u != 0.0;
    QuotientOf(overlap, n, u, 1.0);
  }

  lemma {:induction false} RealProduct(a: nat, b: nat)
    ensures (a * b) as real == a as real * b as real
  {
    if a > 0 {
      RealProduct(a - 1, b);
      assert a * b == (a - 1) * b + b;
      assert a as real == (a - 1) as real + 1.0;
    }
  }
}
