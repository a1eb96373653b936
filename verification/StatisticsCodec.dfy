/** The synthetic codec with a rate limiter and a transient budget; no noise is applied. */
module StatisticsCodec {

  const EPSILON: real := 0.0000000001
  const INITIAL_RATE: real := 100.0

  datatype Config = Config(
    fps: real,
    maxUpdateRatio: real,
    updateInterval: real,
    bigChangeRatio: real,
    transientLength: nat,
    iFrameSize: nat)
  {
    /** What the constructor asserts. */
    predicate Valid() {
      && fps > 0.0 && maxUpdateRatio > -EPSILON && updateInterval > -EPSILON && bigChangeRatio > EPSILON
      && transientLength > 1 && iFrameSize > 0
    }
  }

  datatype State = State(rate: real, wait: real, burst: nat)

  function Max(a: real, b: real): real { if a < b then b else a }
  function Abs(x: real): real { if x < 0.0 then -x else x }

  predicate Accepts(s: State, request: real) { !(request < EPSILON || s.wait > EPSILON) }

  predicate BigChange(cfg: Config, s: State, request: real)
    requires s.rate > 0.0
  {
    Abs((request - s.rate) / s.rate) > cfg.bigChangeRatio
  }

  function Upper(cfg: Config, rate: real): real { rate * (1.0 + cfg.maxUpdateRatio) }
  function Lower(cfg: Config, rate: real): real { rate * (1.0 - cfg.maxUpdateRatio) }

  /** A request that is no big change, clipped. */
  function Clip(cfg: Config, rate: real, request: real): real {
    var upper, lower := Upper(cfg, rate), Lower(cfg, rate);
    if cfg.maxUpdateRatio <= EPSILON then request
    else if request > upper then upper
    else if request < lower then Max(INITIAL_RATE, lower)
    else request
  }

  lemma ClipPositive(cfg: Config, rate: real, request: real)
    requires rate > 0.0 && request > 0.0
    ensures Clip(cfg, rate, request) > 0.0
  {
    hide Lower;
    if cfg.maxUpdateRatio > EPSILON {
      assert rate * (1.0 + cfg.maxUpdateRatio) > 0.0;
    }
  }

  function Retarget(cfg: Config, s: State, request: real): State
    requires s.rate > 0.0
  {
    if !Accepts(s, request) then s
    else if BigChange(cfg, s, request) then State(request, cfg.updateInterval, cfg.transientLength)
    else State(Clip(cfg, s.rate, request), cfg.updateInterval, s.burst)
  }

  /** The codec takes the rate it is asked for exactly if the change is a big one, or the ratio is not
      limited, or the request is within the ratio. */
  lemma RequestTakenIff(cfg: Config, s: State, request: real)
    requires s.rate > 0.0 && Accepts(s, request)
    ensures Retarget(cfg, s, request).rate == request <==>
      || BigChange(cfg, s, request) || cfg.maxUpdateRatio <= EPSILON
      || s.rate * (1.0 - cfg.maxUpdateRatio) <= request <= s.rate * (1.0 + cfg.maxUpdateRatio)
  {}

  /** Otherwise it takes the nearest rate within the ratio, for requests of at least 100 bps. */
  lemma NearestTaken(cfg: Config, s: State, request: real, other: real)
    requires s.rate > 0.0 && Accepts(s, request) && !BigChange(cfg, s, request) && request >= INITIAL_RATE
    requires cfg.maxUpdateRatio > EPSILON
    requires s.rate * (1.0 - cfg.maxUpdateRatio) <= other <= s.rate * (1.0 + cfg.maxUpdateRatio)
    ensures Abs(Retarget(cfg, s, request).rate - request) <= Abs(other - request)
    ensures var rate := Retarget(cfg, s, request).rate;
      s.rate * (1.0 - cfg.maxUpdateRatio) <= rate <= s.rate * (1.0 + cfg.maxUpdateRatio)
  {
    BoundsOrdered(cfg, s.rate);
  }

  /** An accepted request restarts the waiting time, and a burst exactly if the rate is to change by more
      than the big ratio; a request that is too small or too early changes nothing. */
  lemma RequestEffects(cfg: Config, s: State, request: real)
    requires s.rate > 0.0 && cfg.bigChangeRatio > 0.0
    ensures var s' := Retarget(cfg, s, request);
      if request < EPSILON || s.wait > EPSILON then s' == s
      else
        && s'.wait == cfg.updateInterval
        && (if request - s.rate > cfg.bigChangeRatio * s.rate || s.rate - request > cfg.bigChangeRatio * s.rate
            then s'.rate == request && s'.burst == cfg.transientLength
            else s'.burst == s.burst)
  {
    BigChangeIs(cfg, s, request);
    hide BigChange, Clip;
  }

  lemma BigChangeIs(cfg: Config, s: State, request: real)
    requires s.rate > 0.0
    ensures BigChange(cfg, s, request) <==>
      request - s.rate > cfg.bigChangeRatio * s.rate || s.rate - request > cfg.bigChangeRatio * s.rate
  {
    var c, b := (request - s.rate) / s.rate, cfg.bigChangeRatio;
    assert c * s.rate == request - s.rate;
    Ordered(b, c, s.rate);
    Ordered(b, -c, s.rate);
  }

  lemma Ordered(a: real, b: real, f: real)
    requires f > 0.0
    ensures a < b <==> a * f < b * f
  {
    var d := b - a;
    assert d * f == b * f - a * f;
    if d > 0.0 {
      assert d * f > 0.0;
    } else {
      assert -d * f >= 0.0;
    }
  }

  /** The size of a frame in the steady phase. */
  function Steady(cfg: Config, rate: real): real
    requires cfg.Valid()
  {
    rate / (cfg.fps * 8.0)
  }

  /** The size of the next frame, before it is cut to whole bytes. */
  function FrameSize(cfg: Config, s: State): real
    requires cfg.Valid() && s.rate > 0.0
  {
    var steady := Steady(cfg, s.rate);
    SteadyPositive(cfg, s.rate);
    if s.burst == 0 then steady
    else if s.burst == cfg.transientLength then cfg.iFrameSize as real
    else
      steady
      * Max(0.2, (cfg.transientLength as real - cfg.iFrameSize as real / steady) / (cfg.transientLength - 1) as real)
  }

  lemma SteadyPositive(cfg: Config, rate: real)
    requires cfg.Valid() && rate > 0.0
    ensures Steady(cfg, rate) > 0.0
  {
    var d := cfg.fps * 8.0;
    assert (rate / d) * d == rate;
  }

  /** In the steady phase the frames of a second amount to the rate. */
  lemma SteadyRate(cfg: Config, s: State)
    requires cfg.Valid() && s.rate > 0.0 && s.burst == 0
    ensures FrameSize(cfg, s) * 8.0 * cfg.fps == s.rate
  {
    var d := cfg.fps * 8.0;
    assert (s.rate / d) * d == s.rate;
  }

  function AfterFrame(cfg: Config, s: State): State
    requires cfg.Valid()
  {
    State(s.rate, Max(0.0, s.wait - 1.0 / cfg.fps), if s.burst > 0 then s.burst - 1 else 0)
  }

  class Codec {
    const cfg: Config
    var targetRate: real
    var timeToUpdate: real
    var remainingBurstFrames: nat
    var frameBytes: int
    var frameSeconds: real

    ghost predicate Valid()
      reads this
    {
      cfg.Valid() && targetRate > 0.0
    }

    ghost function View(): State
      reads this
    {
      State(targetRate, timeToUpdate, remainingBurstFrames)
    }

    constructor (config: Config)
      requires config.Valid()
      ensures Valid() && cfg == config
      ensures View() == AfterFrame(config, State(INITIAL_RATE, 0.0, config.transientLength))
      ensures frameBytes == config.iFrameSize && frameSeconds == 1.0 / config.fps
    {
      cfg := config;
      targetRate, timeToUpdate, remainingBurstFrames := INITIAL_RATE, 0.0, config.transientLength;
      frameBytes, frameSeconds := 0, 0.0;
      new;
      NextPacketOrFrame();
    }

    method SetTargetRate(newRateBps: real) returns (rate: real)
      requires Valid()
      modifies this
      ensures Valid() && View() == Retarget(cfg, old(View()), newRateBps) && rate == targetRate
      ensures frameBytes == old(frameBytes) && frameSeconds == old(frameSeconds)
    {
      hide Upper, Lower;
      if newRateBps < EPSILON || timeToUpdate > EPSILON {
        return targetRate;
      }
      timeToUpdate := cfg.updateInterval;
      var changeFact := (newRateBps - targetRate) / targetRate;
      if Abs(changeFact) > cfg.bigChangeRatio {
        remainingBurstFrames := cfg.transientLength;
        targetRate := newRateBps;
        return targetRate;
      }
      ClipPositive(cfg, targetRate, newRateBps);
      var newRate := newRateBps;
      if cfg.maxUpdateRatio > EPSILON {
        var upperBound := Upper(cfg, targetRate);
        var lowerBound := Lower(cfg, targetRate);
        if newRate > upperBound {
          newRate := upperBound;
        } else if newRate < lowerBound {
          newRate := Max(INITIAL_RATE, lowerBound);
        }
      }
      targetRate := newRate;
      return targetRate;
    }

    method NextPacketOrFrame()
      requires Valid()
      modifies this
      ensures Valid() && View() == AfterFrame(cfg, old(View()))
      ensures frameBytes == FrameSize(cfg, old(View())).Floor && frameSeconds == 1.0 / cfg.fps
    {
      SteadyPositive(cfg, targetRate);
      var bytes := targetRate / (cfg.fps * 8.0);
      if remainingBurstFrames > 0 {
        if remainingBurstFrames == cfg.transientLength {
          bytes := cfg.iFrameSize as real;
        } else {
          var iFrameRatio := cfg.iFrameSize as real / bytes;
          var newRatio := cfg.transientLength as real - iFrameRatio;
          newRatio := newRatio / (cfg.transientLength - 1) as real;
          newRatio := Max(0.2, newRatio);
          bytes := bytes * newRatio;
        }
        remainingBurstFrames := remainingBurstFrames - 1;
      }
      frameBytes := bytes.Floor;
      frameSeconds := 1.0 / cfg.fps;
      timeToUpdate := Max(0.0, timeToUpdate - frameSeconds);
    }
  }

  // The ratio limit of one update.

  /** The documentation limits an update that is no big change to the configured ratio. The code
      keeps to that exactly unless the request is below the lower bound while 100 bps is above the
      upper one: a request to lower the rate can then raise it. */
  lemma RatioLimitIff(cfg: Config, rate: real, request: real)
    requires rate > 0.0 && EPSILON < cfg.maxUpdateRatio && request > 0.0
    ensures var next := Clip(cfg, rate, request);
      Lower(cfg, rate) <= next <= Upper(cfg, rate) <==> !(request < Lower(cfg, rate) && INITIAL_RATE > Upper(cfg, rate))
  {
    hide Upper, Lower;
    BoundsOrdered(cfg, rate);
  }

  lemma BoundsOrdered(cfg: Config, rate: real)
    requires rate > 0.0 && cfg.maxUpdateRatio > 0.0
    ensures Lower(cfg, rate) < rate < Upper(cfg, rate)
  {
    var p := cfg.maxUpdateRatio;
    assert rate * p > 0.0;
    assert rate * (1.0 + p) == rate + rate * p && rate * (1.0 - p) == rate - rate * p;
  }

  lemma LoweringRaises()
    ensures var cfg := Config(25.0, 0.4, 0.1, 0.9, 10, 4270);
      !BigChange(cfg, State(60.0, 0.0, 0), 10.0) && Retarget(cfg, State(60.0, 0.0, 0), 10.0).rate == 100.0
  {}

  // Runs.

  datatype Event = Request(rate: real) | Frame

  function Step(cfg: Config, s: State, e: Event): (s': State)
    requires cfg.Valid() && s.rate > 0.0
    ensures s'.rate > 0.0
  {
    match e
    case Request(r) => (if Accepts(s, r) then ClipPositive(cfg, s.rate, r); Retarget(cfg, s, r) else s)
    case Frame => AfterFrame(cfg, s)
  }

  function Run(cfg: Config, s: State, es: seq<Event>): (s': State)
    requires cfg.Valid() && s.rate > 0.0
    ensures s'.rate > 0.0
    decreases |es|
  {
    if es == [] then s else Step(cfg, Run(cfg, s, es[..|es| - 1]), es[|es| - 1])
  }

  predicate Updates(s: State, e: Event) { e.Request? && Accepts(s, e.rate) }

  /** How many requests were accepted. */
  function Updated(cfg: Config, s: State, es: seq<Event>): nat
    requires cfg.Valid() && s.rate > 0.0
    decreases |es|
  {
    if es == [] then 0
    else Updated(cfg, s, es[..|es| - 1]) + if Updates(Run(cfg, s, es[..|es| - 1]), es[|es| - 1]) then 1 else 0
  }

  /** The time taken by the frames. */
  function Elapsed(cfg: Config, es: seq<Event>): real
    requires cfg.Valid()
  {
    if es == [] then 0.0
    else Elapsed(cfg, es[..|es| - 1]) + if es[|es| - 1].Frame? then 1.0 / cfg.fps else 0.0
  }

  function Pow(x: real, k: nat): real { if k == 0 then 1.0 else Pow(x, k - 1) * x }

  /** Every accepted request is at least 100 bps and no big change. */
  ghost predicate Gentle(cfg: Config, s: State, es: seq<Event>)
    requires cfg.Valid() && s.rate > 0.0
  {
    forall i :: 0 <= i < |es| && Updates(Run(cfg, s, es[..i]), es[i]) ==>
      es[i].rate >= INITIAL_RATE && !BigChange(cfg, Run(cfg, s, es[..i]), es[i].rate)
  }

  lemma ScaledBy(a: real, b: real, f: real)
    requires a <= b && f >= 0.0
    ensures a * f <= b * f
  {
    assert (b - a) * f >= 0.0;
    assert (b - a) * f == b * f - a * f;
  }

  function Bound(rate: real, factor: real, k: nat): real { rate * Pow(factor, k) }

  lemma BoundStart(rate: real, factor: real)
    ensures Bound(rate, factor, 0) == rate
  {}

  lemma BoundNext(cfg: Config, rate: real, k: nat)
    ensures Bound(rate, 1.0 - cfg.maxUpdateRatio, k + 1) == Lower(cfg, Bound(rate, 1.0 - cfg.maxUpdateRatio, k))
    ensures Bound(rate, 1.0 + cfg.maxUpdateRatio, k + 1) == Upper(cfg, Bound(rate, 1.0 + cfg.maxUpdateRatio, k))
  {
    Regroup(rate, Pow(1.0 - cfg.maxUpdateRatio, k), 1.0 - cfg.maxUpdateRatio);
    Regroup(rate, Pow(1.0 + cfg.maxUpdateRatio, k), 1.0 + cfg.maxUpdateRatio);
  }

  lemma Regroup(a: real, b: real, c: real)
    ensures a * (b * c) == (a * b) * c
  {}

  lemma ClipWithin(cfg: Config, rate: real, request: real)
    requires rate > 0.0 && EPSILON < cfg.maxUpdateRatio && request >= INITIAL_RATE
    ensures Lower(cfg, rate) <= Clip(cfg, rate, request) <= Upper(cfg, rate)
  {
    hide Upper, Lower;
    BoundsOrdered(cfg, rate);
  }

  lemma BoundsMonotone(cfg: Config, a: real, b: real)
    requires a <= b && 0.0 < cfg.maxUpdateRatio < 1.0
    ensures Lower(cfg, a) <= Lower(cfg, b) && Upper(cfg, a) <= Upper(cfg, b)
  {
    hide Lower, Upper;
    LowerMonotone(cfg, a, b);
    UpperMonotone(cfg, a, b);
  }

  lemma LowerMonotone(cfg: Config, a: real, b: real)
    requires a <= b && cfg.maxUpdateRatio <= 1.0
    ensures Lower(cfg, a) <= Lower(cfg, b)
  {
    ScaledBy(a, b, 1.0 - cfg.maxUpdateRatio);
  }

  lemma UpperMonotone(cfg: Config, a: real, b: real)
    requires a <= b && 0.0 <= cfg.maxUpdateRatio
    ensures Upper(cfg, a) <= Upper(cfg, b)
  {
    ScaledBy(a, b, 1.0 + cfg.maxUpdateRatio);
  }

  /** An accepted request of at least 100 bps that is no big change moves the rate by the ratio at most. */
  lemma StepWithin(cfg: Config, s: State, e: Event, low: real, high: real)
    requires cfg.Valid() && s.rate > 0.0 && EPSILON < cfg.maxUpdateRatio < 1.0 && low <= s.rate <= high
    requires Updates(s, e) ==> e.rate >= INITIAL_RATE && !BigChange(cfg, s, e.rate)
    ensures var next := Step(cfg, s, e).rate;
      if Updates(s, e) then Lower(cfg, low) <= next <= Upper(cfg, high) else next == s.rate
  {
    hide Clip, BigChange, Lower, Upper;
    if Updates(s, e) {
      ClipWithin(cfg, s.rate, e.rate);
      BoundsMonotone(cfg, low, s.rate);
      BoundsMonotone(cfg, s.rate, high);
    }
  }

  /** After k accepted updates the rate is between r(1 - p)^k and r(1 + p)^k. */
  lemma {:induction false} RateEnvelope(cfg: Config, s: State, es: seq<Event>)
    requires cfg.Valid() && s.rate > 0.0 && EPSILON < cfg.maxUpdateRatio < 1.0 && Gentle(cfg, s, es)
    ensures var k, p := Updated(cfg, s, es), cfg.maxUpdateRatio;
      Bound(s.rate, 1.0 - p, k) <= Run(cfg, s, es).rate <= Bound(s.rate, 1.0 + p, k)
    decreases |es|
  {
    hide Bound, Step, Gentle, BigChange, Updates, Lower, Upper;
    var p := cfg.maxUpdateRatio;
    if es == [] {
      BoundStart(s.rate, 1.0 - p);
      BoundStart(s.rate, 1.0 + p);
    } else {
      var init, e := es[..|es| - 1], es[|es| - 1];
      GentleBefore(cfg, s, es);
      RateEnvelope(cfg, s, init);
      var k := Updated(cfg, s, init);
      StepWithin(cfg, Run(cfg, s, init), e, Bound(s.rate, 1.0 - p, k), Bound(s.rate, 1.0 + p, k));
      BoundNext(cfg, s.rate, k);
    }
  }

  lemma GentleBefore(cfg: Config, s: State, es: seq<Event>)
    requires cfg.Valid() && s.rate > 0.0 && es != [] && Gentle(cfg, s, es)
    ensures Gentle(cfg, s, es[..|es| - 1])
    ensures Updates(Run(cfg, s, es[..|es| - 1]), es[|es| - 1]) ==>
      es[|es| - 1].rate >= INITIAL_RATE && !BigChange(cfg, Run(cfg, s, es[..|es| - 1]), es[|es| - 1].rate)
  {
    hide Run, BigChange;
    var init := es[..|es| - 1];
    forall i | 0 <= i < |init| ensures init[..i] == es[..i] && init[i] == es[i] {}
  }

  lemma {:induction false} WaitCovers(cfg: Config, s: State, es: seq<Event>)
    requires cfg.Valid() && s.rate > 0.0
    ensures Elapsed(cfg, es) >= 0.0
    ensures var k := Updated(cfg, s, es);
      k > 0 ==>
        && Run(cfg, s, es).wait <= Max(0.0, cfg.updateInterval)
        && Elapsed(cfg, es) >= Waits(cfg, k - 1) + cfg.updateInterval - Run(cfg, s, es).wait
    decreases |es|
  {
    hide Waits;
    WaitsZero(cfg);
    if es != [] {
      var init, e := es[..|es| - 1], es[|es| - 1];
      WaitCovers(cfg, s, init);
      FrameTime(cfg);
      var k := Updated(cfg, s, init);
      if Updates(Run(cfg, s, init), e) && k > 0 {
        WaitsNext(cfg, k - 1);
      }
    }
  }

  function Waits(cfg: Config, k: nat): real { k as real * (cfg.updateInterval - EPSILON) }

  lemma WaitsZero(cfg: Config)
    ensures Waits(cfg, 0) == 0.0
  {}

  lemma WaitsNext(cfg: Config, k: nat)
    ensures Waits(cfg, k + 1) == Waits(cfg, k) + cfg.updateInterval - EPSILON
  {
    assert (k + 1) as real == k as real + 1.0;
  }

  lemma FrameTime(cfg: Config)
    requires cfg.Valid()
    ensures 1.0 / cfg.fps > 0.0
  {
    assert (1.0 / cfg.fps) * cfg.fps == 1.0;
  }

  /** k accepted updates take at least (k - 1) update intervals of frames. */
  lemma UpdatesSpaced(cfg: Config, s: State, es: seq<Event>)
    requires cfg.Valid() && s.rate > 0.0 && Updated(cfg, s, es) > 0
    ensures Elapsed(cfg, es) >= Waits(cfg, Updated(cfg, s, es) - 1)
  {
    var k := Updated(cfg, s, es);
    hide Waits, Run, Updated, Elapsed;
    WaitCovers(cfg, s, es);
    if cfg.updateInterval < 0.0 {
      WaitsNegative(cfg, k - 1);
    }
  }

  lemma WaitsNegative(cfg: Config, k: nat)
    requires cfg.updateInterval < 0.0
    ensures Waits(cfg, k) <= 0.0
  {}

  lemma UpdatesWithin(cfg: Config, s: State, es: seq<Event>, n: nat)
    requires cfg.Valid() && s.rate > 0.0 && Elapsed(cfg, es) < Waits(cfg, n)
    ensures Updated(cfg, s, es) <= n
  {
    hide Run, Updated, Elapsed, Waits;
    var k := Updated(cfg, s, es);
    WaitCovers(cfg, s, es);
    WaitsOrdered(cfg, 0, n);
    WaitsZero(cfg);
    if k > n {
      UpdatesSpaced(cfg, s, es);
      WaitsOrdered(cfg, n, k - 1);
    }
  }

  lemma {:induction false} WaitsOrdered(cfg: Config, n: nat, m: nat)
    requires n <= m
    ensures if cfg.updateInterval >= EPSILON then Waits(cfg, n) <= Waits(cfg, m) else Waits(cfg, m) <= Waits(cfg, n)
    decreases m
  {
    hide Waits;
    if n < m {
      WaitsOrdered(cfg, n, m - 1);
      WaitsNext(cfg, m - 1);
    }
  }

  /** Whatever gentle requests are made, in less than n update intervals of frames the rate stays
      between r(1 - p)^n and r(1 + p)^n. */
  lemma RateOverTime(cfg: Config, s: State, es: seq<Event>, n: nat)
    requires cfg.Valid() && s.rate > 0.0 && EPSILON < cfg.maxUpdateRatio < 1.0 && Gentle(cfg, s, es)
    requires Elapsed(cfg, es) < Waits(cfg, n)
    ensures var p := cfg.maxUpdateRatio;
      Bound(s.rate, 1.0 - p, n) <= Run(cfg, s, es).rate <= Bound(s.rate, 1.0 + p, n)
  {
    hide Gentle, Elapsed, Waits, Updated, Run, Bound;
    UpdatesWithin(cfg, s, es, n);
    RateEnvelope(cfg, s, es);
    BoundSpreads(s.rate, cfg.maxUpdateRatio, Updated(cfg, s, es), n);
  }

  lemma {:induction false} BoundSpreads(rate: real, p: real, k: nat, n: nat)
    requires rate > 0.0 && 0.0 < p < 1.0 && k <= n
    ensures Bound(rate, 1.0 - p, n) <= Bound(rate, 1.0 - p, k)
    ensures Bound(rate, 1.0 + p, n) >= Bound(rate, 1.0 + p, k)
    decreases n
  {
    hide Bound;
    if k < n {
      BoundSpreads(rate, p, k, n - 1);
      BoundGrows(rate, 1.0 - p, n - 1);
      BoundGrows(rate, 1.0 + p, n - 1);
    }
  }

  lemma {:induction false} PowPositive(x: real, k: nat)
    requires x > 0.0
    ensures Pow(x, k) > 0.0
  {
    if k > 0 {
      PowPositive(x, k - 1);
      hide Pow;
      assert Pow(x, k - 1) * x > 0.0;
    }
  }

  lemma BoundGrows(rate: real, x: real, k: nat)
    requires rate > 0.0 && x > 0.0
    ensures x >= 1.0 ==> Bound(rate, x, k + 1) >= Bound(rate, x, k)
    ensures x <= 1.0 ==> Bound(rate, x, k + 1) <= Bound(rate, x, k)
  {
    PowPositive(x, k);
    Regroup(rate, Pow(x, k), x);
    var b := rate * Pow(x, k);
    assert b > 0.0;
    assert Bound(rate, x, k + 1) == b * x;
    hide Pow, Bound;
    if x >= 1.0 {
      ScaledBy(1.0, x, b);
    } else {
      ScaledBy(x, 1.0, b);
    }
  }

  function AfterFrames(cfg: Config, s: State, n: nat): State
    requires cfg.Valid()
  {
    if n == 0 then s else AfterFrame(cfg, AfterFrames(cfg, s, n - 1))
  }

  function TimeOf(cfg: Config, n: nat): real
    requires cfg.Valid()
  {
    n as real * (1.0 / cfg.fps)
  }

  lemma TimeNext(cfg: Config, n: nat)
    requires cfg.Valid()
    ensures TimeOf(cfg, 0) == 0.0 && TimeOf(cfg, n + 1) == TimeOf(cfg, n) + 1.0 / cfg.fps
  {
    assert (n + 1) as real == n as real + 1.0;
  }

  lemma {:induction false} WaitRunsDown(cfg: Config, s: State, n: nat)
    requires cfg.Valid() && n > 0
    ensures AfterFrames(cfg, s, n).wait == Max(0.0, s.wait - TimeOf(cfg, n)) && AfterFrames(cfg, s, n).rate == s.rate
  {
    hide TimeOf;
    TimeNext(cfg, n - 1);
    FrameTime(cfg);
    if n > 1 {
      WaitRunsDown(cfg, s, n - 1);
    } else {
      assert AfterFrames(cfg, s, 0) == s;
    }
  }

  /** After an accepted update and some frames, the next request is accepted exactly if the frames
      have taken the update interval. */
  lemma OpensAgainIff(cfg: Config, s: State, request: real, n: nat, next: real)
    requires cfg.Valid() && s.rate > 0.0 && Accepts(s, request) && n > 0
    ensures Accepts(AfterFrames(cfg, Retarget(cfg, s, request), n), next)
      <==> next >= EPSILON && TimeOf(cfg, n) >= cfg.updateInterval - EPSILON
  {
    hide TimeOf, Clip, BigChange;
    WaitRunsDown(cfg, Retarget(cfg, s, request), n);
  }

  // The transient budget.

  /** The sizes of n frames in a row at an unchanged rate, before they are cut, added up. */
  function SizeOf(cfg: Config, s: State, n: nat): real
    requires cfg.Valid() && s.rate > 0.0
    decreases n
  {
    if n == 0 then 0.0 else FrameSize(cfg, s) + SizeOf(cfg, AfterFrame(cfg, s), n - 1)
  }

  /** The bytes of these frames. */
  function BytesOf(cfg: Config, s: State, n: nat): int
    requires cfg.Valid() && s.rate > 0.0
    decreases n
  {
    if n == 0 then 0 else FrameSize(cfg, s).Floor + BytesOf(cfg, AfterFrame(cfg, s), n - 1)
  }

  /** A frame of a transient phase after the first. */
  function Reduced(cfg: Config, rate: real): real
    requires cfg.Valid() && rate > 0.0
  {
    FrameSize(cfg, State(rate, 0.0, 1))
  }

  lemma {:induction false} RestOfTransient(cfg: Config, s: State, n: nat)
    requires cfg.Valid() && s.rate > 0.0 && n == s.burst < cfg.transientLength
    ensures SizeOf(cfg, s, n) == Repeated(n, Reduced(cfg, s.rate))
    ensures SizeOf(cfg, s, n) - n as real <= BytesOf(cfg, s, n) as real <= SizeOf(cfg, s, n)
    decreases n
  {
    hide FrameSize, Reduced, Repeated;
    if n > 0 {
      RestOfTransient(cfg, AfterFrame(cfg, s), n - 1);
      SameReduced(cfg, s);
      RepeatedNext(n - 1, Reduced(cfg, s.rate));
    } else {
      RepeatedNone(Reduced(cfg, s.rate));
    }
  }

  function Repeated(n: nat, x: real): real { n as real * x }

  lemma RepeatedNone(x: real)
    ensures Repeated(0, x) == 0.0
  {}

  lemma RepeatedNext(n: nat, x: real)
    ensures Repeated(n + 1, x) == Repeated(n, x) + x
  {
    assert (n + 1) as real == n as real + 1.0;
  }

  lemma SameReduced(cfg: Config, s: State)
    requires cfg.Valid() && s.rate > 0.0 && 0 < s.burst < cfg.transientLength
    ensures FrameSize(cfg, s) == Reduced(cfg, s.rate)
  {}

  lemma ReducedTotal(length: real, first: real, steady: real)
    requires length > 1.0 && steady > 0.0
    ensures (length - 1.0) * (steady * Max(0.2, (length - first / steady) / (length - 1.0)))
      == Max(0.2 * (length - 1.0) * steady, length * steady - first)
  {
    var ratio := (length - first / steady) / (length - 1.0);
    Spent(length, first, steady, ratio);
    var c := (length - 1.0) * steady;
    assert c > 0.0;
    assert forall r: real {:trigger steady * r} :: (length - 1.0) * (steady * r) == c * r;
    if ratio <= 0.2 {
      ScaledBy(ratio, 0.2, c);
    } else {
      ScaledBy(0.2, ratio, c);
    }
  }

  lemma Spent(length: real, first: real, steady: real, ratio: real)
    requires length > 1.0 && steady > 0.0 && ratio == (length - first / steady) / (length - 1.0)
    ensures (length - 1.0) * steady * ratio == length * steady - first
  {
    assert ratio * (length - 1.0) == length - first / steady;
    assert (first / steady) * steady == first;
    assert (length - first / steady) * steady == length * steady - first;
  }

  /** A transient phase at one rate amounts to its length in steady frames, unless the first frame is
      so big that the others reach their least size; cutting to bytes loses less than a byte a frame. */
  lemma TransientBudget(cfg: Config, s: State)
    requires cfg.Valid() && s.rate > 0.0 && s.burst == cfg.transientLength
    ensures var n, steady := cfg.transientLength, Steady(cfg, s.rate);
      && SizeOf(cfg, s, n) == Max(Repeated(n, steady), cfg.iFrameSize as real + 0.2 * Repeated(n - 1, steady))
      && SizeOf(cfg, s, n) - n as real < BytesOf(cfg, s, n) as real <= SizeOf(cfg, s, n)
  {
    var n := cfg.transientLength;
    var rest := AfterFrame(cfg, s);
    SteadyPositive(cfg, s.rate);
    hide FrameSize, Reduced, Repeated, Steady;
    RestOfTransient(cfg, rest, n - 1);
    ReducedIs(cfg, s.rate);
    FirstIs(cfg, s);
  }

  lemma FirstIs(cfg: Config, s: State)
    requires cfg.Valid() && s.rate > 0.0 && s.burst == cfg.transientLength
    ensures FrameSize(cfg, s) == cfg.iFrameSize as real
  {}

  lemma ReducedIs(cfg: Config, rate: real)
    requires cfg.Valid() && rate > 0.0
    ensures var n, first, steady := cfg.transientLength, cfg.iFrameSize as real, Steady(cfg, rate);
      first + Repeated(n - 1, Reduced(cfg, rate)) == Max(Repeated(n, steady), first + 0.2 * Repeated(n - 1, steady))
  {
    SteadyPositive(cfg, rate);
    ReducedTotal(cfg.transientLength as real, cfg.iFrameSize as real, Steady(cfg, rate));
  }
}
