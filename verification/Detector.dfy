/** What the reconfiguration detector computes, on the plain chronological window of delay trends. */
module Detector {
  import opened Wire

  /** Four minutes at 40 samples a second. */
  const SIZE: nat := 9600
  const FIRST_LAG: nat := 400
  const LAST_LAG: nat := 3600

  function Abs(x: real): real { if x < 0.0 then -x else x }

  function Sum(s: seq<real>): real {
    if s == [] then 0.0 else Sum(s[..|s| - 1]) + s[|s| - 1]
  }

  // The window.

  function Empty(): seq<real> { seq(SIZE, _ => 0.0) }

  function Slide(w: seq<real>, x: real): seq<real>
    requires w != []
  {
    w[1..] + [Abs(x)]
  }

  // Autocorrelation.

  function Mean(w: seq<real>): real
    requires w != []
  {
    Sum(w) / |w| as real
  }

  function Times(x: real, y: real): real { x * y }
  function Square(x: real): real { Times(x, x) }

  function Spread(w: seq<real>, m: real): real {
    if w == [] then 0.0
    else Spread(w[..|w| - 1], m) + Square(w[|w| - 1] - m)
  }

  function Variance(w: seq<real>): real
    requires w != []
  {
    Spread(w, Mean(w)) / |w| as real
  }

  function Overlap(w: seq<real>, m: real, lag: nat, k: nat): real
    requires k + lag <= |w|
  {
    if k == 0 then 0.0 else Overlap(w, m, lag, k - 1) + (w[k - 1] - m) * (w[k - 1 + lag] - m)
  }

  function Quotient(sum: real, n: nat, variance: real): Option<real>
    requires n > 0
  {
    if variance == 0.0 then None else Some(sum / (n as real * variance))
  }

  /** None: not a number. */
  function Correlation(w: seq<real>, lag: nat): Option<real>
    requires w != []
  {
    if lag >= |w| then Some(0.0)
    else Quotient(Overlap(w, Mean(w), lag, |w| - lag), |w| - lag, Variance(w))
  }

  predicate Above(c: Option<real>, x: real) { c.Some? && c.value > x }

  predicate Significant(w: seq<real>, lag: nat)
    requires w != []
  {
    FIRST_LAG <= lag <= LAST_LAG && Above(Correlation(w, lag), 0.02)
  }

  /** The significant lag of greatest correlation, and the least of these. */
  ghost predicate Strongest(w: seq<real>, lag: nat)
    requires w != []
  {
    && Significant(w, lag)
    && (forall l: nat :: Significant(w, l) ==>
          Correlation(w, l).value <= Correlation(w, lag).value
          && (l < lag ==> Correlation(w, l).value < Correlation(w, lag).value))
  }

  // The period.

  datatype Harmonic = Harmonic(period: real, correlation: real, ratio: real)

  const RATIOS: seq<real> := [0.125, 0.25, 0.5, 2.0, 3.0]

  function PeriodOf(lag: nat): real { lag as real / 40.0 }

  predicate InRange(p: real) { 10.0 <= p <= 90.0 }

  function LagOf(p: real): (lag: nat)
    requires InRange(p)
    ensures FIRST_LAG <= lag <= LAST_LAG
  {
    (p * 40.0).Floor
  }

  /** h is the harmonic of the period at one of the ratios. */
  ghost predicate IsHarmonic(w: seq<real>, period: real, h: Harmonic)
    requires w != []
  {
    && h.ratio in RATIOS && h.period == period * h.ratio && InRange(h.period)
    && Correlation(w, LagOf(h.period)) == Some(h.correlation)
  }

  predicate Clear(h: Harmonic) { h.ratio < 1.0 && Abs(h.correlation) > 0.15 }

  /** The least clear subharmonic if there is one, and otherwise whichever of the strongest period
      and its harmonics correlates most, for better or worse. */
  ghost predicate Best(w: seq<real>, lag: nat, best: real)
    requires w != []
  {
    var p := PeriodOf(lag);
    if exists h :: IsHarmonic(w, p, h) && Clear(h) then
      exists h :: IsHarmonic(w, p, h) && Clear(h) && best == h.period
                  && forall g :: IsHarmonic(w, p, g) && Clear(g) ==> best <= g.period
    else
      exists c :: Candidate(w, lag, best, c)
                  && (Correlation(w, lag).Some? ==> Abs(Correlation(w, lag).value) <= Abs(c))
                  && forall g :: IsHarmonic(w, p, g) ==> Abs(g.correlation) <= Abs(c)
  }

  ghost predicate Candidate(w: seq<real>, lag: nat, best: real, c: real)
    requires w != []
  {
    || (best == PeriodOf(lag) && Correlation(w, lag) == Some(c))
    || exists h :: IsHarmonic(w, PeriodOf(lag), h) && best == h.period && c == h.correlation
  }

  /** The period found in the window, if any. */
  ghost predicate Detects(w: seq<real>, found: Option<real>)
    requires w != []
  {
    match found
    case None => forall lag: nat :: !Significant(w, lag)
    case Some(best) => exists lag :: Strongest(w, lag) && Best(w, lag, best)
  }

  // The history of detections.

  datatype DetectionResult = DetectionResult(found: bool, period: real, adjusted: bool)

  const Nothing := DetectionResult(false, 0.0, false)

  datatype Tally = Going(sum: real, count: nat, adjusted: nat) | Stopped(sum: real, count: nat) | Reset

  function Visit(t: Tally, d: DetectionResult): Tally {
    match t
    case Going(sum, count, adjusted) =>
      if !d.found then t
      else if count > 0 && d.period - sum / count as real > 1.0 then Stopped(sum, count)
      else if d.adjusted && adjusted + 1 >= 5 then Reset
      else Going(sum + d.period, count + 1, if d.adjusted then adjusted + 1 else 0)
    case _ => t
  }

  /** The detections are visited from the newest to the oldest. */
  function VisitBack(ds: seq<DetectionResult>): Tally {
    if ds == [] then Going(0.0, 0, 0) else Visit(VisitBack(ds[1..]), ds[0])
  }

  function AverageOf(t: Tally): real {
    if !t.Reset? && t.count > 0 then t.sum / t.count as real else 0.0
  }

  function RecentAverage(ds: seq<DetectionResult>): real { AverageOf(VisitBack(ds)) }

  predicate Divides(avg: real, best: real, d: nat) { 1 <= d <= 5 && Abs(avg - best / d as real) < 1.0 }

  function DividerFrom(avg: real, best: real, d: nat): (r: Option<nat>)
    decreases 6 - d
    ensures r.Some? ==> Divides(avg, best, r.value) && forall e :: d <= e < r.value ==> !Divides(avg, best, e)
    ensures r.None? ==> forall e :: d <= e ==> !Divides(avg, best, e)
  {
    if d > 5 then None
    else if Divides(avg, best, d) then Some(d)
    else DividerFrom(avg, best, d + 1)
  }

  /** The least of 1 to 5 by which the period divides into the average of the past detections. */
  function Divider(avg: real, best: real): Option<nat> {
    if avg == 0.0 then None else DividerFrom(avg, best, 1)
  }

  // Folding.

  /** The samples i, i + length, i + 2 * length, ... before the newest, added up over `turns` turns. */
  function Folded(w: seq<real>, length: nat, i: nat, turns: nat): real
    requires i < length && turns * length <= |w|
  {
    if turns == 0 then 0.0
    else
      assert (turns - 1) * length + length == turns * length;
      Folded(w, length, i, turns - 1) + w[|w| - 1 - i - (turns - 1) * length]
  }

  /** The greatest folded value at an offset below k, if positive, with its least offset. */
  function Peak(w: seq<real>, length: nat, turns: nat, k: nat): (real, nat)
    requires k <= length && turns * length <= |w|
  {
    if k == 0 then (0.0, 0)
    else
      var (value, at) := Peak(w, length, turns, k - 1);
      var here := Folded(w, length, k - 1, turns);
      if here > value then (here, k - 1) else (value, at)
  }

  /** Rounds a value that is not negative, halves up. */
  function Round(x: real): int { (x + 0.5).Floor }

  // One detection pass.

  /** expected: the time of the next peak, in milliseconds. */
  datatype Reconfiguration = Reconfiguration(period: real, expected: int)

  datatype Memory = Memory(past: seq<DetectionResult>, latest: Option<Reconfiguration>)

  predicate Plausible(p: real) { 2.0 <= p <= 90.0 }

  predicate PeriodsPlausible(past: seq<DetectionResult>) {
    forall i :: 0 <= i < |past| && past[i].found ==> Plausible(past[i].period)
  }

  function Trim(past: seq<DetectionResult>): seq<DetectionResult> {
    if |past| > 20 then past[|past| - 20..] else past
  }

  predicate LastThree(past: seq<DetectionResult>, found: bool) {
    |past| >= 3 && forall i :: |past| - 3 <= i < |past| ==> past[i].found == found
  }

  /** Without a significant correlation. */
  function NoPeriod(past: seq<DetectionResult>, latest: Option<Reconfiguration>, now: int): Memory {
    if LastThree(past, false) then Memory([Nothing], latest)
    else if LastThree(past, true) then
      var avg := RecentAverage(past + [Nothing]);
      Memory(past + [Nothing],
             if latest.Some? && latest.value.expected < now
             then Some(Reconfiguration(avg, latest.value.expected + (avg * 1000.0).Floor)) else latest)
    else Memory(past + [Nothing], latest)
  }

  /** The next peak when the average period is avg. */
  function Predict(w: seq<real>, avg: real, now: int): Option<Reconfiguration>
    requires Plausible(avg) && |w| == SIZE
  {
    var length := Round(avg * 40.0);
    var turns := SIZE / length;
    var (value, at) := Peak(w, length, turns, length);
    if value < 0.04 then None else Some(Reconfiguration(avg, now + 1000 * ((length - at) / 40)))
  }

  lemma {:induction false} TallyWithin(ds: seq<DetectionResult>)
    requires PeriodsPlausible(ds)
    ensures var t := VisitBack(ds); !t.Reset? ==> 2.0 * t.count as real <= t.sum <= 90.0 * t.count as real
    ensures VisitBack(ds).Stopped? ==> VisitBack(ds).count > 0
  {
    if ds != [] {
      TallyWithin(ds[1..]);
    }
  }

  lemma QuotientWithin(sum: real, count: real, low: real, high: real)
    requires count > 0.0 && low * count <= sum <= high * count
    ensures low <= sum / count <= high
  {
    var q := sum / count;
    assert q * count == sum;
    NotNegative(q - low, count);
    NotNegative(high - q, count);
  }

  lemma NotNegative(a: real, c: real)
    requires c > 0.0 && a * c >= 0.0
    ensures a >= 0.0
  {}

  /** An average of plausible periods is plausible, unless it is zero: because nothing was detected,
      or because five adjusted detections in a row reset it. */
  lemma AveragePlausible(ds: seq<DetectionResult>)
    requires PeriodsPlausible(ds)
    ensures var t := VisitBack(ds);
      if t.Reset? || t.count == 0 then RecentAverage(ds) == 0.0 else Plausible(RecentAverage(ds))
  {
    TallyWithin(ds);
    var t := VisitBack(ds);
    if !t.Reset? && t.count > 0 {
      QuotientWithin(t.sum, t.count as real, 2.0, 90.0);
    }
  }

  /** With a best period. */
  function After(past: seq<DetectionResult>, w: seq<real>, best: real, now: int): Memory
    requires |w| == SIZE && PeriodsPlausible(past) && InRange(best)
  {
    match Divider(RecentAverage(past), best)
    case None => Memory(past + [DetectionResult(true, best, false)], None)
    case Some(d) =>
      var next := past + [DetectionResult(true, best / d as real, d != 1)];
      assert PeriodsPlausible(next) by { DividedPlausible(best, d); }
      AveragePlausible(next);
      Memory(next, if RecentAverage(next) == 0.0 then None else Predict(w, RecentAverage(next), now))
  }

  /** ticks: the samples since the last peak. */
  function Pass(m: Memory, w: seq<real>, ticks: nat, now: int, found: Option<real>): Memory
    requires |w| == SIZE && PeriodsPlausible(m.past) && (found.Some? ==> InRange(found.value))
  {
    var past := Trim(m.past);
    if ticks > 40 * 60 * 2 then Memory(past + [Nothing], m.latest)
    else if found.None? then NoPeriod(past, m.latest, now)
    else After(past, w, found.value, now)
  }

  lemma DividedPlausible(best: real, d: nat)
    requires InRange(best) && 1 <= d <= 5
    ensures Plausible(best / d as real)
  {
    assert 2.0 * d as real <= 10.0;
    QuotientWithin(best, d as real, 2.0, 90.0);
  }
}
