/** What one detection pass leaves in the history, and when it predicts. */
module DetectorPasses {
  import opened Wire
  import opened Detector
  import opened DetectorTheorems
  import opened DetectorBuffer

  /** At most the 20 newest detections are kept. */
  lemma TrimIsNewest(past: seq<DetectionResult>)
    ensures |Trim(past)| == if |past| < 20 then |past| else 20
    ensures Trim(past) == past[|past| - |Trim(past)|..]
  {}

  /** The period and its 1/d are within a second of the average. */
  predicate Similar(avg: real, best: real, d: nat) { 1 <= d <= 5 && -1.0 < avg - best / d as real < 1.0 }

  /** What a period that is found is stored as. */
  ghost predicate StoredAs(avg: real, best: real, r: DetectionResult) {
    r.found &&
    if avg != 0.0 && exists d :: Similar(avg, best, d) then
      && -1.0 < avg - r.period < 1.0
      && exists d: nat :: Similar(avg, best, d) && (forall e: nat :: e < d ==> !Similar(avg, best, e))
                          && r.period * d as real == best && (r.adjusted <==> d != 1)
    else r.period == best && !r.adjusted
  }

  /** A period found is stored divided by the least divisor that brings it within a second of the recent
      average, and as it is, without a prediction, if none does. */
  lemma FoundIsStored(m: Memory, w: seq<real>, ticks: nat, now: int, best: real)
    requires |w| == SIZE && PeriodsPlausible(m.past) && InRange(best) && ticks <= 4800
    ensures var avg, m' := RecentAverage(Trim(m.past)), Pass(m, w, ticks, now, Some(best));
      && |m'.past| == |Trim(m.past)| + 1 && m'.past[..|Trim(m.past)|] == Trim(m.past)
      && StoredAs(avg, best, m'.past[|Trim(m.past)|])
      && (avg == 0.0 || (forall d: nat :: !Similar(avg, best, d)) ==> m'.latest.None?)
      && (m'.latest.Some? ==> m'.latest.value.period == RecentAverage(m'.past) != 0.0)
      && (avg != 0.0 && (exists d :: Similar(avg, best, d)) && RecentAverage(m'.past) != 0.0 ==>
            Plausible(RecentAverage(m'.past)) && m'.latest == Predict(w, RecentAverage(m'.past), now))
  {
    hide RecentAverage, VisitBack, Peak;
    var past := Trim(m.past);
    var avg := RecentAverage(past);
    forall d: nat ensures Similar(avg, best, d) <==> Divides(avg, best, d) {}
    var r := Pass(m, w, ticks, now, Some(best)).past[|past|];
    match Divider(avg, best) {
      case None =>
        assert avg == 0.0 || forall d: nat :: !Similar(avg, best, d) by {
          forall d: nat ensures avg == 0.0 || !Similar(avg, best, d) {
            assert d >= 1 && avg != 0.0 ==> !Divides(avg, best, d);
          }
        }
      case Some(d) =>
        assert Similar(avg, best, d) && r == DetectionResult(true, best / d as real, d != 1);
        assert (best / d as real) * d as real == best;
        DividedPlausible(best, d);
        AveragePlausible(past + [r]);
        forall e: nat | e < d ensures !Similar(avg, best, e) {
          assert e >= 1 ==> !Divides(avg, best, e);
        }
    }
  }

  /** Without a significant correlation: after three misses in a row only this one is remembered; a
      prediction that has passed is put off by the recent average if the last three passes had found a
      period, and left alone otherwise. */
  lemma NothingFound(m: Memory, w: seq<real>, ticks: nat, now: int)
    requires |w| == SIZE && PeriodsPlausible(m.past) && ticks <= 4800
    ensures var past, m' := Trim(m.past), Pass(m, w, ticks, now, None);
      var n := |past|;
      var misses := n >= 3 && !past[n - 1].found && !past[n - 2].found && !past[n - 3].found;
      var hits := n >= 3 && past[n - 1].found && past[n - 2].found && past[n - 3].found;
      && m'.past == (if misses then [] else past) + [DetectionResult(false, 0.0, false)]
      && if hits && m.latest.Some? && m.latest.value.expected < now then
           && m'.latest.Some? && m'.latest.value.period == RecentAverage(past)
           && var later := (m'.latest.value.expected - m.latest.value.expected) as real;
              later <= RecentAverage(past) * 1000.0 < later + 1.0
         else m'.latest == m.latest
  {
    hide RecentAverage;
    var past := Trim(m.past);
    AverageWithNothing(past);
    assert LastThree(past, true) ==> past[|past| - 1].found;
    assert LastThree(past, false) ==> !past[|past| - 1].found;
    assert [] + [Nothing] == [Nothing];
  }

  /** After two minutes without a peak nothing is looked for. */
  lemma NothingLookedFor(m: Memory, w: seq<real>, ticks: nat, now: int, found: Option<real>)
    requires |w| == SIZE && PeriodsPlausible(m.past) && ticks > 4800 && (found.Some? ==> InRange(found.value))
    ensures Pass(m, w, ticks, now, found) == Memory(Trim(m.past) + [DetectionResult(false, 0.0, false)], m.latest)
  {}

  /** A next peak is predicted exactly if some offset folds to at least 0.04. */
  lemma PredictedIff(w: seq<real>, avg: real, now: int)
    requires |w| == SIZE && Plausible(avg)
    ensures var length := Round(avg * 40.0);
      && length > 0 && (SIZE / length) * length <= SIZE
      && (Predict(w, avg, now).Some? <==> exists i :: 0 <= i < length && Folded(w, length, i, SIZE / length) >= 0.04)
  {
    NextPeakAhead(w, avg, now);
    var length := Round(avg * 40.0);
    Fits(length);
    PeakIsGreatest(w, length, SIZE / length, length);
    hide Peak, Folded;
  }
}
