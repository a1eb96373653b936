/** Windows that are quiet but for two samples: what the detector finds in them. */
module DetectorPulses {
  import opened Wire
  import opened Detector
  import opened DetectorTheorems

  function Pulses(d: nat): (w: seq<real>)
    ensures |w| == SIZE
  {
    seq(SIZE, i => if i == 0 || i == d then 1.0 else 0.0)
  }

  /** The mean of such a window. */
  const M: real := 1.0 / 4800.0

  function One(b: bool): real { if b then 1.0 else 0.0 }

  lemma {:induction false} SumPulses(d: nat, n: nat)
    requires 0 < d < SIZE && n <= SIZE
    ensures Sum(Pulses(d)[..n]) == One(n > 0) + One(n > d)
  {
    if n > 0 {
      SumPulses(d, n - 1);
      assert Pulses(d)[..n][..n - 1] == Pulses(d)[..n - 1];
    }
  }

  lemma {:induction false} SpreadPulses(d: nat, n: nat)
    requires 0 < d < SIZE && n <= SIZE
    ensures Spread(Pulses(d)[..n], M) == n as real * (M * M) + (One(n > 0) + One(n > d)) * (1.0 - 2.0 * M)
  {
    if n > 0 {
      SpreadPulses(d, n - 1);
      assert Pulses(d)[..n][..n - 1] == Pulses(d)[..n - 1];
      assert Square(1.0 - M) == 1.0 - 2.0 * M + M * M && Square(0.0 - M) == M * M;
      assert n as real == (n - 1) as real + 1.0;
    }
  }

  lemma MeanAndVariance(d: nat)
    requires 0 < d < SIZE
    ensures Mean(Pulses(d)) == M && Variance(Pulses(d)) == M * (1.0 - M)
  {
    hide Sum, Spread;
    assert Pulses(d)[..SIZE] == Pulses(d);
    SumPulses(d, SIZE);
    SpreadPulses(d, SIZE);
    hide Pulses;
  }

  lemma {:induction false} OverlapPulses(d: nat, lag: nat, k: nat)
    requires 0 < d < SIZE && 0 < lag && k + lag <= SIZE
    ensures Overlap(Pulses(d), M, lag, k) == k as real * (M * M) + One(k > 0 && lag == d)
      - M * (One(k > 0) + One(k > d) + One(lag <= d && k > d - lag))
    decreases k
  {
    if k > 0 {
      OverlapPulses(d, lag, k - 1);
      Product(Pulses(d)[k - 1], Pulses(d)[k - 1 + lag]);
      assert k as real == (k - 1) as real + 1.0;
    }
  }

  lemma Product(x: real, y: real)
    requires (x == 0.0 || x == 1.0) && (y == 0.0 || y == 1.0)
    ensures (x - M) * (y - M) == M * M - M * (x + y) + One(x == 1.0 && y == 1.0)
  {}

  /** Only the distance of the pulses correlates. */
  lemma CorrelationPulses(d: nat, lag: nat)
    requires FIRST_LAG <= d <= LAST_LAG && FIRST_LAG <= lag <= LAST_LAG
    ensures var c := Correlation(Pulses(d), lag);
      c.Some? && if lag == d then 0.4 <= c.value <= 1.0 else -0.02 <= c.value <= 0.02
  {
    hide Mean, Variance, Overlap, Pulses;
    MeanAndVariance(d);
    var n := SIZE - lag;
    OverlapPulses(d, lag, n);
    Weighed(Overlap(Pulses(d), M, lag, n), n as real, lag == d);
  }

  lemma Weighed(sum: real, n: real, same: bool)
    requires 6000.0 <= n <= 9200.0
    requires n * (M * M) - 3.0 * M <= sum - One(same) <= n * (M * M)
    ensures var c := sum / (n * (M * (1.0 - M)));
      if same then 0.4 <= c <= 1.0 else -0.02 <= c <= 0.02
  {
    var v := n * (M * (1.0 - M));
    assert v == n * 4799.0 / 23040000.0 && v > 0.0;
    if same {
      QuotientWithin(sum, v, 0.4, 1.0);
    } else {
      QuotientWithin(sum, v, -0.02, 0.02);
    }
  }

  lemma HarmonicPulses(d: nat, h: Harmonic)
    requires FIRST_LAG <= d <= LAST_LAG && IsHarmonic(Pulses(d), PeriodOf(d), h)
    ensures Abs(h.correlation) <= 0.02
  {
    hide Correlation, Pulses;
    assert h.ratio == 0.125 || h.ratio == 0.25 || h.ratio == 0.5 || h.ratio == 2.0 || h.ratio == 3.0;
    assert LagOf(h.period) != d;
    CorrelationPulses(d, LagOf(h.period));
  }

  /** Two pulses at a distance the detector looks at are found with that distance as the period. */
  lemma PulsesDetected(d: nat)
    requires FIRST_LAG <= d <= LAST_LAG
    ensures Detects(Pulses(d), Some(PeriodOf(d)))
  {
    var w := Pulses(d);
    CorrelationPulses(d, d);
    forall lag: nat ensures Significant(w, lag) <==> lag == d {
      if FIRST_LAG <= lag <= LAST_LAG {
        CorrelationPulses(d, lag);
      }
    }
    hide Correlation, Pulses, IsHarmonic, Significant;
    forall h | IsHarmonic(w, PeriodOf(d), h) ensures Abs(h.correlation) <= 0.02 {
      HarmonicPulses(d, h);
    }
    assert Strongest(w, d);
    assert Candidate(w, d, PeriodOf(d), Correlation(w, d).value);
    assert Best(w, d, PeriodOf(d));
  }

// A weaker pulse half-way.

  /** Two pulses 20 s apart and a weaker one between them. */
  function Echo(): (w: seq<real>)
    ensures |w| == SIZE
  {
    seq(SIZE, i => if i == 0 || i == 800 then 1.0 else if i == 400 then 0.4 else 0.0)
  }

  /** Its mean. */
  const E: real := 1.0 / 4000.0

  function EchoSum(n: nat): real { One(n > 0) + 0.4 * One(n > 400) + One(n > 800) }

  lemma {:induction false} SumEcho(n: nat)
    requires n <= SIZE
    ensures Sum(Echo()[..n]) == EchoSum(n)
  {
    if n > 0 {
      SumEcho(n - 1);
      assert Echo()[..n][..n - 1] == Echo()[..n - 1];
    }
  }

  lemma {:induction false} SpreadEcho(n: nat)
    requires n <= SIZE
    ensures Spread(Echo()[..n], E)
      == n as real * (E * E) + One(n > 0) + 0.16 * One(n > 400) + One(n > 800) - 2.0 * E * EchoSum(n)
  {
    if n > 0 {
      SpreadEcho(n - 1);
      assert Echo()[..n][..n - 1] == Echo()[..n - 1];
      assert Square(1.0 - E) == 1.0 - 2.0 * E + E * E && Square(0.0 - E) == E * E;
      assert Square(0.4 - E) == 0.16 - 0.8 * E + E * E;
      assert n as real == (n - 1) as real + 1.0;
    }
  }

  /** The variance, times the size. */
  const V: real := 2.16 - 2.4 * E

  lemma EchoMean()
    ensures Mean(Echo()) == E && Variance(Echo()) == V / 9600.0
  {
    hide Sum, Spread;
    assert Echo()[..SIZE] == Echo();
    SumEcho(SIZE);
    SpreadEcho(SIZE);
    hide Echo;
  }

  /** The products of pulses at a lag. */
  function Hits(lag: nat, k: nat): real {
    if lag == 400 then 0.4 * One(k > 0) + 0.4 * One(k > 400) else if lag == 800 then One(k > 0) else 0.0
  }

  lemma {:induction false} OverlapEcho(lag: nat, k: nat)
    requires 400 <= lag && k + lag <= SIZE
    ensures Overlap(Echo(), E, lag, k)
      == k as real * (E * E) + Hits(lag, k) - E * (EchoSum(k) + EchoSum(k + lag) - EchoSum(lag))
    decreases k
  {
    hide Echo, EchoSum, Hits, Times, One;
    if k == 0 {
      NothingHit(lag);
    } else {
      OverlapEcho(lag, k - 1);
      EchoSumNext(k - 1);
      EchoSumNext(k - 1 + lag);
      HitsNext(lag, k - 1);
      OverlapStep(k - 1, lag);
    }
  }

  lemma NothingHit(lag: nat)
    ensures Hits(lag, 0) == 0.0 && EchoSum(0) == 0.0
  {}

  lemma OverlapStep(k: nat, lag: nat)
    requires k + lag < SIZE
    ensures var x, y := Echo()[k], Echo()[k + lag];
      Overlap(Echo(), E, lag, k + 1) == Overlap(Echo(), E, lag, k) + E * E - E * (x + y) + Times(x, y)
    ensures (k + 1) as real == k as real + 1.0
  {
    EchoSumNext(k);
    EchoSumNext(k + lag);
    hide Echo, EchoSum, Times;
    EchoProduct(Echo()[k], Echo()[k + lag]);
  }

  lemma EchoSumNext(n: nat)
    requires n < SIZE
    ensures EchoSum(n + 1) == EchoSum(n) + Echo()[n]
    ensures Echo()[n] == 0.0 || Echo()[n] == 0.4 || Echo()[n] == 1.0
  {}

  lemma HitsNext(lag: nat, k: nat)
    requires 400 <= lag && k + lag < SIZE
    ensures Hits(lag, k + 1) == Hits(lag, k) + Times(Echo()[k], Echo()[k + lag])
  {}

  lemma EchoProduct(x: real, y: real)
    requires (x == 0.0 || x == 0.4 || x == 1.0) && (y == 0.0 || y == 0.4 || y == 1.0)
    ensures (x - E) * (y - E) == E * E - E * (x + y) + Times(x, y)
  {}

  lemma CorrelationEcho(lag: nat)
    requires FIRST_LAG <= lag <= LAST_LAG
    ensures var c := Correlation(Echo(), lag);
      c.Some? && if lag == 800 then 0.45 <= c.value <= 0.55
                 else if lag == 400 then 0.3 <= c.value <= 0.44 else -0.02 <= c.value <= 0.02
  {
    hide Mean, Variance, Overlap, Echo;
    EchoMean();
    var n := SIZE - lag;
    OverlapEcho(lag, n);
    var v := V / 9600.0;
    if lag == 800 {
      QuotientWithin(Overlap(Echo(), E, lag, n), n as real * v, 0.45, 0.55);
    } else if lag == 400 {
      QuotientWithin(Overlap(Echo(), E, lag, n), n as real * v, 0.3, 0.44);
    } else {
      QuotientWithin(Overlap(Echo(), E, lag, n), n as real * v, -0.02, 0.02);
    }
  }

  /** 20 s correlate most, but 10 s clearly enough to be preferred. */
  lemma EchoDetected()
    ensures Strongest(Echo(), 800) && Detects(Echo(), Some(10.0))
  {
    var w := Echo();
    CorrelationEcho(800);
    CorrelationEcho(400);
    forall lag: nat ensures Significant(w, lag) <==> lag == 800 || lag == 400 {
      if FIRST_LAG <= lag <= LAST_LAG {
        CorrelationEcho(lag);
      }
    }
    hide Correlation, Echo, Significant;
    assert Strongest(w, 800);
    var h := Harmonic(10.0, Correlation(w, 400).value, 0.5);
    assert 0.5 in RATIOS by { assert RATIOS[2] == 0.5; }
    assert LagOf(10.0) == 400 && PeriodOf(800) == 20.0;
    assert IsHarmonic(w, 20.0, h) && Clear(h);
    forall g | IsHarmonic(w, 20.0, g) && Clear(g) ensures 10.0 <= g.period {}
    assert Best(w, 800, 10.0);
  }

  // What is found.

  /** The period found correlates clearly, in one sense or the other; or else at least as much as any
      lag that is looked at, and as the harmonics of the lag that correlates most. */
  lemma PeriodStandsOut(w: seq<real>, p: real) returns (lag: nat)
    requires w != [] && Detects(w, Some(p))
    ensures InRange(p) && Correlation(w, LagOf(p)).Some? && LagOf(p) as real <= p * 40.0 < LagOf(p) as real + 1.0
    ensures Strongest(w, lag) && (forall l: nat :: FIRST_LAG <= l <= LAST_LAG && Correlation(w, l).Some? ==>
                                    Correlation(w, l).value <= Correlation(w, lag).value)
    ensures var c := Abs(Correlation(w, LagOf(p)).value);
      c > 0.15 || (
        && c >= Correlation(w, lag).value > 0.02
        && forall g :: IsHarmonic(w, PeriodOf(lag), g) ==> -c <= g.correlation <= c)
  {
    hide Correlation;
    lag :| Strongest(w, lag) && Best(w, lag, p);
    assert LagOf(PeriodOf(lag)) == lag;
    forall l: nat | FIRST_LAG <= l <= LAST_LAG && Correlation(w, l).Some?
      ensures Correlation(w, l).value <= Correlation(w, lag).value
    {
      if Correlation(w, l).value > 0.02 {
        assert Significant(w, l);
      }
    }
  }

  /** Nothing is found exactly if no lag that is looked at correlates by more than 0.02. */
  lemma NothingStandsOut(w: seq<real>)
    requires w != []
    ensures Detects(w, None) <==>
      forall lag: nat :: 400 <= lag <= 3600 && Correlation(w, lag).Some? ==> Correlation(w, lag).value <= 0.02
  {
    hide Correlation;
    if lag: nat :| 400 <= lag <= 3600 && Correlation(w, lag).Some? && Correlation(w, lag).value > 0.02 {
      assert Significant(w, lag);
    }
  }

  /** A pass that finds 15 s and one that finds 50 s leave a history that averages 32.5 s, where the
      comment says 50 s. */
  lemma AveragesFarBelow(ticks: nat, now: int, later: int)
    requires ticks <= 4800
    ensures Detects(Pulses(600), Some(15.0)) && Detects(Pulses(2000), Some(50.0))
    ensures var first := Pass(Memory([], None), Pulses(600), ticks, now, Some(15.0));
      && PeriodsPlausible(first.past)
      && var ds := Pass(first, Pulses(2000), ticks, later, Some(50.0)).past;
         ds == [DetectionResult(true, 15.0, false), DetectionResult(true, 50.0, false)]
         && RecentAverage(ds) == 32.5 && AverageOf(BackAsStated(ds)) == 50.0
  {
    hide Detects, Pulses, Pass;
    PulsesDetected(600);
    PulsesDetected(2000);
    TwoPasses(Pulses(600), Pulses(2000), ticks, now, later);
  }
}
