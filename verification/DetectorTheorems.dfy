/** What holds of the detector over whole histories. */
module DetectorTheorems {
  import opened Wire
  import opened Detector
  import opened DetectorBuffer

  // Runs.

  datatype Event = Trend(x: real) | Detection(now: int, found: Option<real>)

  datatype Snapshot = Snapshot(window: seq<real>, index: nat, under: nat, collected: bool, ticks: nat, memory: Memory)

  function Initial(): Snapshot { Snapshot(Empty(), 0, 0, false, 9600, Memory([], None)) }

  ghost predicate Sound(s: Snapshot) { |s.window| == SIZE && PeriodsPlausible(s.memory.past) }

  /** A detection pass runs once enough data is there, and finds what is in the window. */
  ghost predicate Possible(s: Snapshot, e: Event)
    requires Sound(s)
  {
    e.Detection? ==>
      && s.collected && (e.found.Some? ==> InRange(e.found.value))
      && (s.ticks > 4800 || Detects(s.window, e.found))
  }

  ghost function Next(s: Snapshot, e: Event): Snapshot
    requires Sound(s) && Possible(s, e)
  {
    match e
    case Trend(x) =>
      var index := (s.index + 1) % SIZE;
      Snapshot(Slide(s.window, x), index, if x < -0.02 then s.under + 1 else 0,
               s.collected || index >= 2400, if x >= 0.015 then 0 else s.ticks + 1, s.memory)
    case Detection(now, found) => s.(memory := Pass(s.memory, s.window, s.ticks, now, found))
  }

  /** The states of a run are ss, its events es. */
  ghost predicate Runs(ss: seq<Snapshot>, es: seq<Event>) {
    && |ss| == |es| + 1 && ss[0] == Initial()
    && forall i :: 0 <= i < |es| ==> Sound(ss[i]) && Possible(ss[i], es[i]) && ss[i + 1] == Next(ss[i], es[i])
  }

  // The history of detections.

  /** A prediction is kept only while the detections it came from still average to it. */
  ghost predicate Keeps(m: Memory) {
    && PeriodsPlausible(m.past) && |m.past| <= 21
    && (m.latest.Some? ==> Plausible(m.latest.value.period))
    && (m.latest.Some? && m.past != [] && m.past[|m.past| - 1].found ==> RecentAverage(m.past) != 0.0)
  }

  lemma {:induction false} ResetStays(ds: seq<DetectionResult>, j: nat)
    requires j <= |ds| && VisitBack(ds[j..]).Reset?
    ensures VisitBack(ds).Reset?
    decreases j
  {
    if j == 0 {
      assert ds[0..] == ds;
    } else {
      assert ds[j - 1..][1..] == ds[j..];
      ResetStays(ds, j - 1);
    }
  }

  predicate SomeFound(ds: seq<DetectionResult>) { exists i :: 0 <= i < |ds| && ds[i].found }

  lemma SomeFoundStep(ds: seq<DetectionResult>)
    requires ds != []
    ensures SomeFound(ds) <==> ds[0].found || SomeFound(ds[1..])
  {
    if i :| 0 <= i < |ds| && ds[i].found {
      assert i > 0 ==> ds[1..][i - 1].found;
    }
    if i :| 0 <= i < |ds[1..]| && ds[1..][i].found {
      assert ds[i + 1].found;
    }
  }

  lemma {:induction false} CountIffFound(ds: seq<DetectionResult>)
    ensures !VisitBack(ds).Reset? ==> (VisitBack(ds).count > 0 <==> SomeFound(ds))
    ensures VisitBack(ds).Stopped? ==> VisitBack(ds).count > 0
  {
    if ds != [] {
      CountIffFound(ds[1..]);
      SomeFoundStep(ds);
      hide SomeFound;
    }
  }

  lemma {:induction false} NothingAdded(ds: seq<DetectionResult>)
    ensures VisitBack(ds + [Nothing]) == VisitBack(ds)
  {
    if ds == [] {
      assert (ds + [Nothing])[1..] == [];
    } else {
      assert (ds + [Nothing])[1..] == ds[1..] + [Nothing];
      NothingAdded(ds[1..]);
    }
  }

  /** Forgetting old detections makes a nonzero average zero only if it forgets all that were found. */
  lemma TrimKeepsAverage(ds: seq<DetectionResult>)
    requires PeriodsPlausible(ds) && RecentAverage(ds) != 0.0
    ensures RecentAverage(Trim(ds)) != 0.0 <==> SomeFound(Trim(ds))
  {
    var t := Trim(ds);
    AveragePlausible(ds);
    AveragePlausible(t);
    CountIffFound(t);
    assert ds[0..] == ds;
    if VisitBack(t).Reset? {
      ResetStays(ds, if |ds| > 20 then |ds| - 20 else 0);
    }
  }

  lemma WithoutPeriodKeeps(m: Memory, now: int)
    requires Keeps(m)
    ensures Keeps(NoPeriod(Trim(m.past), m.latest, now))
  {
    hide RecentAverage;
    var past := Trim(m.past);
    if LastThree(past, true) {
      if m.latest.Some? {
        assert m.past[|m.past| - 1] == past[|past| - 1];
        TrimKeepsAverage(m.past);
      }
      AverageWithNothing(past);
      AveragePlausible(past + [Nothing]);
    }
  }

  lemma AverageWithNothing(past: seq<DetectionResult>)
    ensures RecentAverage(past + [Nothing]) == RecentAverage(past)
  {
    NothingAdded(past);
  }

  lemma WithPeriodKeeps(m: Memory, w: seq<real>, best: real, now: int)
    requires Keeps(m) && |w| == SIZE && InRange(best)
    ensures Keeps(After(Trim(m.past), w, best, now))
  {
    hide RecentAverage, Peak;
    var past := Trim(m.past);
    match Divider(RecentAverage(past), best) {
      case None =>
      case Some(d) =>
        DividedPlausible(best, d);
        var next := past + [DetectionResult(true, best / d as real, d != 1)];
        AveragePlausible(next);
        assert After(past, w, best, now).past == next;
    }
  }

  lemma PassKeeps(m: Memory, w: seq<real>, ticks: nat, now: int, found: Option<real>)
    requires Keeps(m) && |w| == SIZE && (found.Some? ==> InRange(found.value))
    ensures Keeps(Pass(m, w, ticks, now, found))
  {
    if ticks > 4800 {
      hide RecentAverage;
    } else if found.None? {
      hide Keeps, NoPeriod;
      WithoutPeriodKeeps(m, now);
    } else {
      hide Keeps, After;
      WithPeriodKeeps(m, w, found.value, now);
    }
  }

  /** In every reachable state: every detected period is between 2 and 90 seconds, at most 21 are
      remembered, their average is 0 or between 2 and 90 seconds, and so is the period of any
      prediction, which is never the zero of a reset average. */
  lemma {:induction false} HistoryPlausible(ss: seq<Snapshot>, es: seq<Event>, i: nat)
    requires Runs(ss, es) && i <= |es|
    ensures var m := ss[i].memory;
      && Keeps(m)
      && (RecentAverage(m.past) != 0.0 ==> Plausible(RecentAverage(m.past)))
  {
    KeptThroughout(ss, es, i);
    AveragePlausible(ss[i].memory.past);
  }

  lemma {:induction false} KeptThroughout(ss: seq<Snapshot>, es: seq<Event>, i: nat)
    requires Runs(ss, es) && i <= |es|
    ensures Keeps(ss[i].memory)
  {
    if i > 0 {
      KeptThroughout(ss, es, i - 1);
      hide Keeps, Detects, Slide;
      var s, e := ss[i - 1], es[i - 1];
      assert ss[(i - 1) + 1] == Next(s, e);
      if e.Detection? {
        PassKeeps(s.memory, s.window, s.ticks, e.now, e.found);
      }
    }
  }

  // Samples.

  /** The trends among the events. */
  function Trends(es: seq<Event>): seq<real> {
    if es == [] then []
    else Trends(es[..|es| - 1]) + if es[|es| - 1].Trend? then [es[|es| - 1].x] else []
  }

  /** The last 9600 sizes, after zeros. */
  function LastSizes(xs: seq<real>): seq<real> {
    seq(SIZE, i requires 0 <= i < SIZE => if |xs| + i >= SIZE then Abs(xs[|xs| + i - SIZE]) else 0.0)
  }

  lemma SlideLast(xs: seq<real>, x: real)
    ensures Slide(LastSizes(xs), x) == LastSizes(xs + [x])
  {}

  /** Samples since the last one at 0.015 or above; with none, counted from 9600. */
  function SincePeak(xs: seq<real>): nat {
    if xs == [] then 9600
    else if xs[|xs| - 1] >= 0.015 then 0
    else SincePeak(xs[..|xs| - 1]) + 1
  }

  ghost predicate Remembers(s: Snapshot, xs: seq<real>) {
    && s.window == LastSizes(xs) && s.index == |xs| % SIZE
    && (s.collected <==> |xs| >= 2400) && s.ticks == SincePeak(xs)
  }

  lemma TrendRemembered(s: Snapshot, xs: seq<real>, x: real)
    requires Sound(s) && Remembers(s, xs)
    ensures Remembers(Next(s, Trend(x)), xs + [x])
  {
    SlideLast(xs, x);
    hide LastSizes, Slide;
    assert (xs + [x])[..|xs|] == xs;
    assert (|xs| + 1) % SIZE == (s.index + 1) % SIZE;
  }

  lemma TrendsPush(es: seq<Event>, i: nat)
    requires i < |es|
    ensures Trends(es[..i + 1]) == if es[i].Trend? then Trends(es[..i]) + [es[i].x] else Trends(es[..i])
  {
    assert es[..i + 1][..i] == es[..i];
  }

  /** The window and the counters are what the history of samples says: in particular a detection
      pass runs only from the 2400th sample on. */
  lemma {:induction false} WindowIsHistory(ss: seq<Snapshot>, es: seq<Event>, i: nat)
    requires Runs(ss, es) && i <= |es|
    ensures var s, xs := ss[i], Trends(es[..i]);
      && s.window == LastSizes(xs) && s.index == |xs| % SIZE
      && (s.collected <==> |xs| >= 2400) && s.ticks == SincePeak(xs)
  {
    if i == 0 {
      assert Empty() == LastSizes([]);
    } else {
      WindowIsHistory(ss, es, i - 1);
      hide LastSizes, Slide, Pass, Detects, Trends, SincePeak;
      var s, e, xs := ss[i - 1], es[i - 1], Trends(es[..i - 1]);
      assert ss[(i - 1) + 1] == Next(s, e);
      TrendsPush(es, i - 1);
      if e.Trend? {
        TrendRemembered(s, xs, e.x);
      }
    }
  }

  lemma {:induction false} SpreadIsZero(w: seq<real>, m: real)
    ensures Spread(w, m) >= 0.0
    ensures Spread(w, m) == 0.0 <==> forall i :: 0 <= i < |w| ==> w[i] == m
  {
    hide Square;
    if w != [] {
      var init := w[..|w| - 1];
      SpreadIsZero(init, m);
      SquareIsZero(w[|w| - 1] - m);
      forall i | 0 <= i < |init| ensures init[i] == w[i] {}
      assert (forall i :: 0 <= i < |w| ==> w[i] == m)
        <==> (forall i :: 0 <= i < |init| ==> init[i] == m) && w[|w| - 1] == m;
    }
  }

  lemma SquareIsZero(x: real)
    ensures Square(x) >= 0.0
    ensures x != 0.0 ==> Square(x) > 0.0
    ensures x == 0.0 ==> Square(x) == 0.0
  {
    hide Square;
    if x < 0.0 {
      SquareOfPositive(-x);
      SquareOfNegated(x);
    } else if x > 0.0 {
      SquareOfPositive(x);
    } else {
      SquareOfZero();
    }
  }

  lemma SquareOfZero()
    ensures Square(0.0) == 0.0
  {}

  lemma SquareOfPositive(x: real)
    requires x > 0.0
    ensures Square(x) > 0.0
  {
    hide Times;
    TimesPositive(x, x);
  }

  lemma TimesPositive(x: real, y: real)
    requires x > 0.0 && y > 0.0
    ensures Times(x, y) > 0.0
  {}

  lemma SquareOfNegated(x: real)
    ensures Square(-x) == Square(x)
  {}

  /** The correlation is not a number exactly on a constant window. */
  lemma NoNumberIffConstant(w: seq<real>, lag: nat)
    requires lag < |w|
    ensures Correlation(w, lag).None? <==> forall i :: 0 <= i < |w| ==> w[i] == Mean(w)
  {
    SpreadIsZero(w, Mean(w));
    var n := |w| as real;
    assert Variance(w) * n == Spread(w, Mean(w));
  }

  // Folding.

  /** Each of the length * turns most recent samples is read at some offset and turn... */
  lemma FoldingCovers(length: nat, turns: nat, back: nat) returns (i: nat, j: nat)
    requires length > 0 && back < turns * length
    ensures i < length && j < turns && i + j * length == back
  {
    i, j := back % length, back / length;
    assert i + j * length == back;
    if j >= turns {
      TimesMonotone(turns, j, length);
    }
  }

  lemma TimesMonotone(a: nat, b: nat, c: nat)
    requires a <= b
    ensures a * c <= b * c
  {}

  /** ... and at no other. */
  lemma FoldingOnce(length: nat, i: nat, j: nat, k: nat, l: nat)
    requires i < length && k < length && i + j * length == k + l * length
    ensures i == k && j == l
  {
    if j < l {
      TimesMonotone(j + 1, l, length);
      Distributes(j, length);
    } else if l < j {
      TimesMonotone(l + 1, j, length);
      Distributes(l, length);
    }
  }

  lemma Distributes(a: nat, c: nat)
    ensures (a + 1) * c == a * c + c
  {}

  function FoldTotal(w: seq<real>, length: nat, turns: nat, k: nat): real
    requires k <= length && turns * length <= |w|
  {
    if k == 0 then 0.0 else FoldTotal(w, length, turns, k - 1) + Folded(w, length, k - 1, turns)
  }

  lemma {:induction false} BlockTotal(w: seq<real>, length: nat, turns: nat, k: nat, done: nat)
    requires turns > 0 && k <= length && turns * length <= |w|
    requires done == (turns - 1) * length && done + length == turns * length
    ensures FoldTotal(w, length, turns, k)
      == FoldTotal(w, length, turns - 1, k) + Sum(w[|w| - done - k..|w| - done])
    decreases k
  {
    if k > 0 {
      hide Sum, FoldTotal;
      BlockTotal(w, length, turns, k - 1, done);
      BlockNext(w, length, turns, k, done);
    }
  }

  lemma BlockNext(w: seq<real>, length: nat, turns: nat, k: nat, done: nat)
    requires turns > 0 && 0 < k <= length && turns * length <= |w|
    requires done == (turns - 1) * length && done + length == turns * length
    ensures FoldTotal(w, length, turns, k) - FoldTotal(w, length, turns, k - 1)
      == FoldTotal(w, length, turns - 1, k) - FoldTotal(w, length, turns - 1, k - 1) + w[|w| - done - k]
    ensures Sum(w[|w| - done - k..|w| - done]) == w[|w| - done - k] + Sum(w[|w| - done - (k - 1)..|w| - done])
  {
    FoldedNext(w, length, k - 1, turns);
    SumBack(w, |w| - done, k);
    hide Sum, Folded;
  }

  lemma FoldedNext(w: seq<real>, length: nat, i: nat, turns: nat)
    requires turns > 0 && i < length && turns * length <= |w|
    ensures (turns - 1) * length + length == turns * length
    ensures Folded(w, length, i, turns) == Folded(w, length, i, turns - 1) + w[|w| - (turns - 1) * length - (i + 1)]
  {
    assert (turns - 1) * length + length == turns * length;
  }

  lemma SumBack(w: seq<real>, end: nat, k: nat)
    requires 0 < k <= end <= |w|
    ensures Sum(w[end - k..end]) == w[end - k] + Sum(w[end - (k - 1)..end])
  {
    hide Sum;
    assert w[end - k..end] == [w[end - k]] + w[end - (k - 1)..end];
    SumConcat([w[end - k]], w[end - (k - 1)..end]);
    SumOne(w[end - k]);
  }

  lemma SumOne(x: real)
    ensures Sum([x]) == x
  {
    assert [x][..0] == [];
  }

  /** Nothing is lost or counted twice: over all offsets the folded values add up to the sum of the
      samples folded. */
  lemma {:induction false} FoldingConserves(w: seq<real>, length: nat, turns: nat)
    requires turns * length <= |w|
    ensures FoldTotal(w, length, turns, length) == Sum(w[|w| - turns * length..])
    decreases turns
  {
    if turns == 0 {
      assert turns * length == 0;
      NothingFolded(w, length, length);
    } else {
      assert (turns - 1) * length + length == turns * length;
      BlockTotal(w, length, turns, length, (turns - 1) * length);
      hide FoldTotal, Folded, Sum;
      FoldingConserves(w, length, turns - 1);
      LastTurn(w, |w| - turns * length, |w| - (turns - 1) * length);
    }
  }

  lemma LastTurn(w: seq<real>, begin: nat, middle: nat)
    requires begin <= middle <= |w|
    ensures Sum(w[begin..]) == Sum(w[begin..middle]) + Sum(w[middle..])
  {
    assert w[begin..] == w[begin..middle] + w[middle..];
    SumConcat(w[begin..middle], w[middle..]);
  }

  lemma {:induction false} NothingFolded(w: seq<real>, length: nat, k: nat)
    requires k <= length
    ensures 0 * length == 0 && FoldTotal(w, length, 0, k) == 0.0
  {
    if k > 0 {
      NothingFolded(w, length, k - 1);
    }
  }

  /** The peak is the greatest folded value, at its least offset; or zero if none is positive. */
  lemma {:induction false} PeakIsGreatest(w: seq<real>, length: nat, turns: nat, k: nat)
    requires k <= length && turns * length <= |w|
    ensures var (value, at) := Peak(w, length, turns, k);
      && value >= 0.0 && (forall i :: 0 <= i < k ==> Folded(w, length, i, turns) <= value)
      && (if value > 0.0
          then at < k && Folded(w, length, at, turns) == value &&
            forall i :: 0 <= i < at ==> Folded(w, length, i, turns) < value
          else at == 0)
  {
    if k > 0 {
      PeakIsGreatest(w, length, turns, k - 1);
      hide Folded;
    }
  }

  // Predictions.

  /** A prediction folds at least two turns of 80 to 3600 samples, and puts the next peak 1 to a
      whole period of samples ahead: at most 90 seconds. */
  lemma NextPeakAhead(w: seq<real>, avg: real, now: int)
    requires |w| == SIZE && Plausible(avg)
    ensures var length := Round(avg * 40.0);
      var at := Peak(w, length, SIZE / length, length).1;
      && 80 <= length <= 3600 && SIZE / length >= 2 && 1 <= length - at <= length
      && avg * 40.0 - 0.5 < length as real <= avg * 40.0 + 0.5
      && (Predict(w, avg, now).Some? ==>
            var p := Predict(w, avg, now).value;
            p.period == avg && now <= p.expected <= now + 90_000)
  {
    var length := Round(avg * 40.0);
    Fits(length);
    PeakIsGreatest(w, length, SIZE / length, length);
    hide Peak;
    TwoTurns(length);
  }

  lemma TwoTurns(length: nat)
    requires 80 <= length <= 3600
    ensures SIZE / length >= 2
  {}

  /** The next peak is announced in milliseconds, 25 a sample, but stored in whole seconds: the
      prediction is what was announced exactly if the samples ahead make whole seconds. */
  lemma AnnouncedIff(w: seq<real>, avg: real, now: int)
    requires |w| == SIZE && Plausible(avg) && Predict(w, avg, now).Some?
    ensures var length := Round(avg * 40.0);
      var ahead := length - Peak(w, length, SIZE / length, length).1;
      && (Predict(w, avg, now).value.expected == now + 25 * ahead <==> ahead % 40 == 0)
      && 0 <= now + 25 * ahead - Predict(w, avg, now).value.expected < 1000
  {
    NextPeakAhead(w, avg, now);
    var length := Round(avg * 40.0);
    Fits(length);
    hide Peak;
    WholeSecondsIff(length - Peak(w, length, SIZE / length, length).1);
  }

  lemma WholeSecondsIff(ahead: nat)
    ensures 1000 * (ahead / 40) == ahead * 25 <==> ahead % 40 == 0
    ensures 0 <= ahead * 25 - 1000 * (ahead / 40) < 1000
  {}

  /** A window that is quiet but for the sample before the newest. */
  function Spike(): seq<real> { seq(SIZE, i => if i == SIZE - 2 then 1.0 else 0.0) }

  lemma {:induction false} FoldedSpike(length: nat, i: nat, turns: nat)
    requires 2 <= length && i < length && turns * length <= SIZE
    ensures Folded(Spike(), length, i, turns) == if i == 1 && turns > 0 then 1.0 else 0.0
    decreases turns
  {
    if turns > 0 {
      assert (turns - 1) * length + length == turns * length;
      FoldedSpike(length, i, turns - 1);
      if turns > 1 {
        TimesMonotone(1, turns - 1, length);
      }
    }
  }

  lemma SpikePeak(length: nat, turns: nat)
    requires 2 <= length && 0 < turns && turns * length <= SIZE
    ensures Peak(Spike(), length, turns, length) == (1.0, 1)
  {
    PeakIsGreatest(Spike(), length, turns, length);
    FoldedSpike(length, 1, turns);
    var (value, at) := Peak(Spike(), length, turns, length);
    hide Peak, Folded, Spike;
    assert value >= Folded(Spike(), length, 1, turns);
    FoldedSpike(length, at, turns);
  }

  /** With an average of 15 s the peak is announced 14.975 s ahead and stored 14 s ahead. */
  lemma AnnouncedOtherwise(now: int)
    ensures Predict(Spike(), 15.0, now) == Some(Reconfiguration(15.0, now + 14_000))
    ensures 25 * (600 - Peak(Spike(), 600, 16, 600).1) == 14_975
  {
    hide Peak, Spike;
    SpikePeak(600, 16);
    assert Round(15.0 * 40.0) == 600 && SIZE / 600 == 16;
  }

  // The recent average.

  /** The periods detected, oldest first. */
  function Periods(ds: seq<DetectionResult>): seq<real> {
    if ds == [] then [] else (if ds[0].found then [ds[0].period] else []) + Periods(ds[1..])
  }

  /** How many of the oldest detections in a row were adjusted. */
  function AdjustedInARow(ds: seq<DetectionResult>): nat {
    if ds == [] then 0
    else if !ds[0].found then AdjustedInARow(ds[1..])
    else if ds[0].adjusted then AdjustedInARow(ds[1..]) + 1
    else 0
  }

  lemma SumFront(x: real, s: seq<real>)
    ensures Sum([x] + s) == x + Sum(s)
  {
    SumConcat([x], s);
    SumOne(x);
  }

  lemma GoingNext(ds: seq<DetectionResult>)
    requires ds != [] && VisitBack(ds[1..]).Going? && VisitBack(ds).Going?
    requires VisitBack(ds[1..]).sum == Sum(Periods(ds[1..])) && VisitBack(ds[1..]).count == |Periods(ds[1..])|
    requires VisitBack(ds[1..]).adjusted == AdjustedInARow(ds[1..])
    ensures var t := VisitBack(ds);
      t.sum == Sum(Periods(ds)) && t.count == |Periods(ds)| && t.adjusted == AdjustedInARow(ds)
  {
    if ds[0].found {
      SumFront(ds[0].period, Periods(ds[1..]));
    } else {
      assert Periods(ds) == Periods(ds[1..]);
    }
  }

  /** The tally covers all detections, or stops short of one more than a second above the average of
      the newer ones, or is reset by five adjusted detections in a row. */
  lemma {:induction false} TallyMeans(ds: seq<DetectionResult>) returns (k: nat)
    ensures k <= |ds|
    ensures match VisitBack(ds)
      case Going(sum, count, adjusted) =>
        k == 0 && sum == Sum(Periods(ds)) && count == |Periods(ds)| && adjusted == AdjustedInARow(ds)
      case Stopped(sum, count) =>
        && k > 0 && sum == Sum(Periods(ds[k..])) && count == |Periods(ds[k..])| > 0
        && ds[k - 1].found && ds[k - 1].period - sum / count as real > 1.0
      case Reset => k < |ds| && ds[k].found && AdjustedInARow(ds[k..]) >= 5
  {
    if ds == [] {
      k := 0;
    } else {
      var j := TallyMeans(ds[1..]);
      if VisitBack(ds).Going? {
        k := 0;
        GoingNext(ds);
      } else if VisitBack(ds[1..]).Going? {
        k := if VisitBack(ds).Stopped? then 1 else 0;
        assert ds[0..] == ds;
      } else {
        k := j + 1;
        assert ds[1..][j..] == ds[k..];
        assert VisitBack(ds) == VisitBack(ds[1..]);
        hide VisitBack, Periods, AdjustedInARow, Sum;
      }
    }
  }

  predicate Far(t: Tally, d: DetectionResult) {
    t.Going? && t.count > 0 && d.found && Abs(d.period - t.sum / t.count as real) > 1.0
  }

  predicate FarBelow(t: Tally, d: DetectionResult) {
    Far(t, d) && d.period < t.sum / t.count as real
  }

  /** The comment above the function says that the average stops at the first detection not within a
      second of the others. */
  function VisitAsStated(t: Tally, d: DetectionResult): Tally {
    if Far(t, d) then Stopped(t.sum, t.count) else Visit(t, d)
  }

  function BackAsStated(ds: seq<DetectionResult>): Tally {
    if ds == [] then Going(0.0, 0, 0) else VisitAsStated(BackAsStated(ds[1..]), ds[0])
  }

  /** Some detection is more than a second below the average of those after it, while these are still
      being averaged. */
  predicate SomeFarBelow(ds: seq<DetectionResult>) {
    exists i :: 0 <= i < |ds| && FarBelow(VisitBack(ds[i + 1..]), ds[i])
  }

  lemma SomeFarBelowStep(ds: seq<DetectionResult>)
    requires ds != []
    ensures SomeFarBelow(ds) <==> FarBelow(VisitBack(ds[1..]), ds[0]) || SomeFarBelow(ds[1..])
  {
    var rest := ds[1..];
    hide FarBelow, VisitBack;
    if SomeFarBelow(ds) {
      var i :| 0 <= i < |ds| && FarBelow(VisitBack(ds[i + 1..]), ds[i]);
      if i > 0 {
        assert rest[(i - 1) + 1..] == ds[i + 1..];
        assert FarBelow(VisitBack(rest[(i - 1) + 1..]), rest[i - 1]);
      }
    }
    if SomeFarBelow(rest) {
      var i :| 0 <= i < |rest| && FarBelow(VisitBack(rest[i + 1..]), rest[i]);
      assert ds[(i + 1) + 1..] == rest[i + 1..];
      assert FarBelow(VisitBack(ds[(i + 1) + 1..]), ds[i + 1]);
    }
  }

  /** Once the two ways part, they never agree again. */
  predicate Parted(t: Tally, stated: Tally) {
    stated.Stopped? && (t.Reset? || t.count > stated.count)
  }

  lemma {:induction false} SameOrParted(ds: seq<DetectionResult>)
    ensures if SomeFarBelow(ds) then Parted(VisitBack(ds), BackAsStated(ds)) else VisitBack(ds) == BackAsStated(ds)
  {
    if ds != [] {
      SameOrParted(ds[1..]);
      SomeFarBelowStep(ds);
      hide SomeFarBelow;
    }
  }

  /** What the function averages is what its comment says exactly if no detection is more than a second
      below the average of those after it. */
  lemma AveragesAsStatedIff(ds: seq<DetectionResult>)
    ensures VisitBack(ds) == BackAsStated(ds) <==> !SomeFarBelow(ds)
  {
    SameOrParted(ds);
  }

  lemma BackOfOne(d: DetectionResult)
    requires d.found && !d.adjusted
    ensures VisitBack([d]) == BackAsStated([d]) == Going(d.period, 1, 0) && RecentAverage([d]) == d.period
  {
    assert [d][1..] == [];
    assert VisitBack([]) == BackAsStated([]) == Going(0.0, 0, 0);
  }

  lemma BackOfTwo()
    ensures var ds := [DetectionResult(true, 15.0, false), DetectionResult(true, 50.0, false)];
      RecentAverage(ds) == 32.5 && AverageOf(BackAsStated(ds)) == 50.0
  {
    var a, b := DetectionResult(true, 15.0, false), DetectionResult(true, 50.0, false);
    BackOfOne(b);
    assert [a, b][1..] == [b];
    assert VisitBack([a, b]) == Visit(VisitBack([b]), a) && BackAsStated([a, b]) == VisitAsStated(BackAsStated([b]), a);
  }

  lemma NoDivider()
    ensures Divider(15.0, 50.0) == None
  {
    assert !Divides(15.0, 50.0, 1) && !Divides(15.0, 50.0, 2) && !Divides(15.0, 50.0, 3);
    assert !Divides(15.0, 50.0, 4) && !Divides(15.0, 50.0, 5);
  }

  /** Two passes that find 15 s and then 50 s. */
  lemma TwoPasses(v: seq<real>, w: seq<real>, ticks: nat, now: int, later: int)
    requires |v| == |w| == SIZE && ticks <= 4800
    ensures var first := Pass(Memory([], None), v, ticks, now, Some(15.0));
      && PeriodsPlausible(first.past)
      && var ds := Pass(first, w, ticks, later, Some(50.0)).past;
         ds == [DetectionResult(true, 15.0, false), DetectionResult(true, 50.0, false)]
         && RecentAverage(ds) == 32.5 && AverageOf(BackAsStated(ds)) == 50.0
  {
    var a, b := DetectionResult(true, 15.0, false), DetectionResult(true, 50.0, false);
    BackOfOne(a);
    BackOfTwo();
    NoDivider();
    assert RecentAverage([]) == 0.0;
    hide RecentAverage, BackAsStated, Predict, DividerFrom;
    var first := Pass(Memory([], None), v, ticks, now, Some(15.0));
    assert first == Memory([a], None);
    assert Pass(first, w, ticks, later, Some(50.0)).past == [a] + [b];
  }
}
