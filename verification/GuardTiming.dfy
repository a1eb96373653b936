/** Timing of the guard over whole runs. */
module GuardTiming {
  import opened Guard

  /** What the state remembers of the marks so far: their phase and the completion times. */
  ghost predicate Remembers(cfg: Config, s: State, p: Phase, done: seq<int>) {
    && (match s.state
        case Normal => p == Quiet(s.cooldownUntil)
        case DetectedFeedbackGap =>
          && p.Waiting? && p.due == s.cooldownUntil && s.feedbackTime.At?
          && s.awaitingUntil == At(p.td + cfg.gapConfirmTimer)
          && p.td <= s.feedbackTime.ms < p.td + cfg.gapConfirmTimer
        case ConfirmedGap =>
          && p.Engaged? && s.feedbackTime.At? && s.maxConfirmedUntil == At(p.tc + cfg.maxGapPause)
          && p.tc <= s.feedbackTime.ms < p.tc + cfg.maxGapPause)
    && (cfg.enabled || s.state.Normal?)
    && Spaced(done, cfg.minGapCooldown)
    && (done != [] ==>
          var due := done[|done| - 1] + cfg.minGapCooldown;
          && s.feedbackTime.At?
          && ((s.state.Normal? && s.cooldownUntil == At(due)) || s.feedbackTime.ms >= due))
  }

  function Note(done: seq<int>, m: Mark): seq<int> { if m.Complete? then done + [m.t] else done }

  function AdvanceAll(cfg: Config, p: Phase, ms: seq<Mark>): Phase
    decreases |ms|
  {
    if ms == [] then p else AdvanceAll(cfg, Advance(cfg, p, ms[0]), ms[1..])
  }

  function NoteAll(done: seq<int>, ms: seq<Mark>): seq<int>
    decreases |ms|
  {
    if ms == [] then done else NoteAll(Note(done, ms[0]), ms[1..])
  }

  lemma {:induction false} MarksConcat(cfg: Config, ms: seq<Mark>, add: seq<Mark>)
    ensures PhaseOf(cfg, ms + add) == AdvanceAll(cfg, PhaseOf(cfg, ms), add)
    ensures Completions(ms + add) == NoteAll(Completions(ms), add)
    decreases |add|
  {
    if add == [] {
      assert ms + add == ms;
    } else {
      assert (ms + [add[0]])[..|ms|] == ms;
      assert ms + add == (ms + [add[0]]) + add[1..];
      assert Completions(ms + [add[0]]) == Note(Completions(ms), add[0]);
      MarksConcat(cfg, ms + [add[0]], add[1..]);
    }
  }

  /** Configurations for which the pauses are not empty. */
  predicate Sensible(cfg: Config) { cfg.gapConfirmTimer > 0 && cfg.maxGapPause > 0 }

  lemma One(cfg: Config, p: Phase, done: seq<int>, m: Mark)
    ensures AdvanceAll(cfg, p, [m]) == Advance(cfg, p, m) && NoteAll(done, [m]) == Note(done, m)
  {}

  lemma Two(cfg: Config, p: Phase, done: seq<int>, m: Mark, n: Mark)
    ensures AdvanceAll(cfg, p, [m, n]) == Advance(cfg, Advance(cfg, p, m), n)
    ensures NoteAll(done, [m, n]) == Note(Note(done, m), n)
  {
    assert [m, n][1..] == [n];
    One(cfg, Advance(cfg, p, m), Note(done, m), n);
  }

  lemma FeedbackKeeps(cfg: Config, s: State, p: Phase, done: seq<int>, since: int, now: int)
    requires Sensible(cfg) && Remembers(cfg, s, p, done) && (s.feedbackTime.At? ==> s.feedbackTime.ms <= now)
    ensures var add := Marks(cfg, s, Feedback(since, now));
      Remembers(cfg, Step(cfg, s, Feedback(since, now)), AdvanceAll(cfg, p, add), NoteAll(done, add))
  {
    hide AdvanceAll, NoteAll, Spaced;
    var add := Marks(cfg, s, Feedback(since, now));
    if add == [] {
      Zero(cfg, p, done);
    } else {
      One(cfg, p, done, add[0]);
      assert add == [add[0]];
    }
  }

  lemma Zero(cfg: Config, p: Phase, done: seq<int>)
    ensures AdvanceAll(cfg, p, []) == p && NoteAll(done, []) == done
  {}

  lemma SampleKeeps(cfg: Config, s: State, p: Phase, done: seq<int>, d: real)
    requires Sensible(cfg) && Remembers(cfg, s, p, done)
    ensures var add := Marks(cfg, s, Sample(d));
      Remembers(cfg, Step(cfg, s, Sample(d)), AdvanceAll(cfg, p, add), NoteAll(done, add))
  {
    hide AdvanceAll, NoteAll;
    var t := Now(s);
    if !cfg.enabled || s.state.Normal? || (s.state.DetectedFeedbackGap? && d < cfg.gapDelayThreshold) {
      assert Marks(cfg, s, Sample(d)) == [];
      Zero(cfg, p, done);
    } else if s.state.DetectedFeedbackGap? {
      assert Marks(cfg, s, Sample(d)) == [Confirm(t), Swallow(t)];
      Two(cfg, p, done, Confirm(t), Swallow(t));
    } else if d >= 0.0 {
      assert Marks(cfg, s, Sample(d)) == [Swallow(t)];
      One(cfg, p, done, Swallow(t));
    } else {
      assert Marks(cfg, s, Sample(d)) == [Swallow(t), Complete(t)];
      Two(cfg, p, done, Swallow(t), Complete(t));
    }
  }

  lemma {:induction false} LastFeedback(cfg: Config, es: seq<Event>, now: int)
    requires Ordered(es) && forall i :: 0 <= i < |es| && es[i].Feedback? ==> es[i].now <= now
    ensures var s := Run(cfg, Idle, es); s.feedbackTime.At? ==> s.feedbackTime.ms <= now
  {
    if es != [] {
      LastFeedback(cfg, es[..|es| - 1], now);
    }
  }

  lemma EventKeeps(cfg: Config, s: State, p: Phase, done: seq<int>, e: Event)
    requires Sensible(cfg) && Remembers(cfg, s, p, done)
    requires e.Feedback? && s.feedbackTime.At? ==> s.feedbackTime.ms <= e.now
    ensures var add := Marks(cfg, s, e);
      Remembers(cfg, Step(cfg, s, e), AdvanceAll(cfg, p, add), NoteAll(done, add))
  {
    hide AdvanceAll, NoteAll;
    match e {
      case Feedback(since, now) => FeedbackKeeps(cfg, s, p, done, since, now);
      case Sample(d) => SampleKeeps(cfg, s, p, done, d);
      case Poll => Zero(cfg, p, done);
    }
  }

  lemma {:induction false} RunRemembers(cfg: Config, es: seq<Event>)
    requires Sensible(cfg) && Ordered(es)
    ensures Remembers(cfg, Run(cfg, Idle, es), PhaseOf(cfg, AllMarks(cfg, es)), Completions(AllMarks(cfg, es)))
  {
    if es != [] {
      hide Remembers, Marks, Step, PhaseOf, Completions, AdvanceAll, NoteAll;
      var init, e := es[..|es| - 1], es[|es| - 1];
      RunRemembers(cfg, init);
      var s, ms := Run(cfg, Idle, init), AllMarks(cfg, init);
      MarksConcat(cfg, ms, Marks(cfg, s, e));
      if e.Feedback? {
        LastFeedback(cfg, init, e.now);
      }
      EventKeeps(cfg, s, PhaseOf(cfg, ms), Completions(ms), e);
    }
  }

  /** In every run a gap detected at td is confirmed only at some tc in [td, td + confirm timer),
      samples are swallowed only at feedback times in [tc, tc + pause), an episode runs out only
      from tc + pause on, a gap is detected only when the cooldown left by the last episode is over,
      and no other order of marks occurs. */
  lemma EpisodesTimed(cfg: Config, es: seq<Event>, n: nat)
    requires Sensible(cfg) && Ordered(es) && n <= |AllMarks(cfg, es)|
    ensures !PhaseOf(cfg, AllMarks(cfg, es)[..n]).Broken?
  {
    RunRemembers(cfg, es);
    var ms := AllMarks(cfg, es);
    if PhaseOf(cfg, ms[..n]).Broken? {
      BrokenStays(cfg, ms, n);
    }
  }

  lemma {:induction false} BrokenStays(cfg: Config, ms: seq<Mark>, n: nat)
    requires n <= |ms| && PhaseOf(cfg, ms[..n]).Broken?
    ensures PhaseOf(cfg, ms).Broken?
    decreases |ms|
  {
    if n == |ms| {
      assert ms[..n] == ms;
    } else {
      assert ms[..|ms| - 1][..n] == ms[..n];
      BrokenStays(cfg, ms[..|ms| - 1], n);
    }
  }

  lemma {:induction false} SpanOf(ts: seq<int>, d: int, i: nat, j: nat)
    requires Spaced(ts, d) && i <= j < |ts|
    ensures ts[j] - ts[i] >= (j - i) * d
    decreases j
  {
    if i < j {
      SpanOf(ts, d, i, j - 1);
      assert (j - i) * d == (j - 1 - i) * d + d;
      assert ts[(j - 1) + 1] >= ts[j - 1] + d;
    }
  }

  /** Episodes ended by a negative delay keep the cooldown between them, so n of them span at least
      (n - 1) cooldowns, whatever other episodes run out in between. */
  lemma CompletionsApart(cfg: Config, es: seq<Event>, i: nat, j: nat)
    requires Sensible(cfg) && Ordered(es)
    requires i <= j < |Completions(AllMarks(cfg, es))|
    ensures var ts := Completions(AllMarks(cfg, es)); ts[j] - ts[i] >= (j - i) * cfg.minGapCooldown
  {
    RunRemembers(cfg, es);
    SpanOf(Completions(AllMarks(cfg, es)), cfg.minGapCooldown, i, j);
  }

  /** The end of an episode: a sample that ends it sets the cooldown, a report at which it runs out
      clears it. */
  lemma CooldownIffCompleted(cfg: Config, s: State, e: Event)
    requires cfg.enabled && s.state.ConfirmedGap? && s.feedbackTime.At? && Step(cfg, s, e).state.Normal?
    ensures var s' := Step(cfg, s, e);
      if e.Feedback? then Reached(e.now, s.maxConfirmedUntil) && s'.cooldownUntil == MinusInfinity
      else e.Sample? && e.delay < 0.0 && s'.cooldownUntil == Plus(s.feedbackTime, cfg.minGapCooldown)
  {}

  /** With an expiry in between, two gaps can be confirmed less than the cooldown apart: here 801 ms. */
  lemma ConfirmedWithinCooldown()
    ensures var es := [Feedback(72, 0), Sample(60.0), Feedback(0, 800), Feedback(72, 801), Sample(60.0)];
      Ordered(es) && AllMarks(Default, es) ==
        [Detect(0), Confirm(0), Swallow(0), Expire(800), Detect(801), Confirm(801), Swallow(801)]
  {
    var e0, e1, e2, e3, e4 := Feedback(72, 0), Sample(60.0), Feedback(0, 800), Feedback(72, 801), Sample(60.0);
    assert Run(Default, Idle, []) == Idle && AllMarks(Default, []) == [];
    hide Run, AllMarks;
    Follow([], e0, Idle, [], [Detect(0)], [e0], [Detect(0)]);
    var s1 := Step(Default, Idle, e0);
    Follow([e0], e1, s1, [Detect(0)], [Confirm(0), Swallow(0)], [e0, e1], [Detect(0), Confirm(0), Swallow(0)]);
    var s2 := Step(Default, s1, e1);
    var m2 := [Detect(0), Confirm(0), Swallow(0), Expire(800)];
    Follow([e0, e1], e2, s2, m2[..3], [Expire(800)], [e0, e1, e2], m2);
    var s3 := Step(Default, s2, e2);
    Follow([e0, e1, e2], e3, s3, m2, [Detect(801)], [e0, e1, e2, e3], m2 + [Detect(801)]);
    var s4 := Step(Default, s3, e3);
    Follow([e0, e1, e2, e3], e4, s4, m2 + [Detect(801)], [Confirm(801), Swallow(801)], [e0, e1, e2, e3, e4],
           m2 + [Detect(801), Confirm(801), Swallow(801)]);
  }

  lemma Follow(es: seq<Event>, e: Event, s: State, ms: seq<Mark>, add: seq<Mark>, es': seq<Event>, ms': seq<Mark>)
    requires Run(Default, Idle, es) == s && AllMarks(Default, es) == ms && Marks(Default, s, e) == add
    requires es' == es + [e] && ms' == ms + add
    ensures Run(Default, Idle, es') == Step(Default, s, e) && AllMarks(Default, es') == ms'
  {
    RunPush(Default, es, e);
  }

  lemma RunPush(cfg: Config, es: seq<Event>, e: Event)
    ensures Run(cfg, Idle, es + [e]) == Step(cfg, Run(cfg, Idle, es), e)
    ensures AllMarks(cfg, es + [e]) == AllMarks(cfg, es) + Marks(cfg, Run(cfg, Idle, es), e)
  {
    assert (es + [e])[..|es|] == es;
  }

  // When the cooldown is kept.

  predicate Ascending(ms: seq<Mark>) { forall i, j :: 0 <= i < j < |ms| ==> ms[i].t <= ms[j].t }

  lemma MarksTimed(cfg: Config, s: State, p: Phase, done: seq<int>, e: Event)
    requires Remembers(cfg, s, p, done)
    requires e.Feedback? && s.feedbackTime.At? ==> s.feedbackTime.ms <= e.now
    ensures var add, s' := Marks(cfg, s, e), Step(cfg, s, e);
      && (add != [] ==> s'.feedbackTime.At?)
      && (forall i :: 0 <= i < |add| ==> add[i].t == s'.feedbackTime.ms)
      && (s.feedbackTime.At? ==> s'.feedbackTime.At? && s.feedbackTime.ms <= s'.feedbackTime.ms)
  {
    hide Spaced;
  }

  predicate Until(ms: seq<Mark>, t: Timestamp) { forall i :: 0 <= i < |ms| ==> t.At? && ms[i].t <= t.ms }

  lemma AscendPush(ms: seq<Mark>, was: Timestamp, add: seq<Mark>, now: Timestamp)
    requires Ascending(ms) && Until(ms, was) && (was.At? ==> now.At? && was.ms <= now.ms)
    requires forall i :: 0 <= i < |add| ==> now.At? && add[i].t == now.ms
    ensures Ascending(ms + add) && Until(ms + add, now)
  {
    forall i | 0 <= i < |ms + add| ensures now.At? && (ms + add)[i].t <= now.ms {
      if i < |ms| {
        var m := ms[i];
        assert was.At? && m.t <= was.ms;
      } else {
        assert add[i - |ms|].t == now.ms;
      }
    }
  }

  /** The marks of a run are in order of time, and the last report is not before them. */
  lemma {:induction false} MarksAscend(cfg: Config, es: seq<Event>)
    requires Sensible(cfg) && Ordered(es)
    ensures Ascending(AllMarks(cfg, es)) && Until(AllMarks(cfg, es), Run(cfg, Idle, es).feedbackTime)
  {
    if es != [] {
      hide Remembers, Marks, Step, PhaseOf, Completions, Ascending, Until;
      var init, e := es[..|es| - 1], es[|es| - 1];
      MarksAscend(cfg, init);
      RunRemembers(cfg, init);
      if e.Feedback? {
        LastFeedback(cfg, init, e.now);
      }
      var ms, s := AllMarks(cfg, init), Run(cfg, Idle, init);
      MarksTimed(cfg, s, PhaseOf(cfg, ms), Completions(ms), e);
      AscendPush(ms, s.feedbackTime, Marks(cfg, s, e), Step(cfg, s, e).feedbackTime);
    }
  }

  /** The n-th mark is the expiry of an episode less than a cooldown after its confirmation. */
  predicate EarlyExpiry(cfg: Config, ms: seq<Mark>, n: nat)
    requires n < |ms|
  {
    var cs := Confirms(ms[..n]);
    ms[n].Expire? && cs != [] && ms[n].t < cs[|cs| - 1] + cfg.minGapCooldown
  }

  predicate SomeEarlyExpiry(cfg: Config, ms: seq<Mark>) {
    exists n :: 0 <= n < |ms| && EarlyExpiry(cfg, ms, n)
  }

  /** What the phase at time `now` says about the confirmation before. */
  predicate Past(cfg: Config, p: Phase, last: int, now: int) {
    match p
    case Quiet(due) => now >= last + cfg.minGapCooldown || (due.At? && due.ms >= last + cfg.minGapCooldown)
    case Waiting(_, td) => last + cfg.minGapCooldown <= td <= now
    case Engaged(tc) => tc == last
    case Broken => false
  }

  lemma PastNext(cfg: Config, p: Phase, cs: seq<int>, now: int, m: Mark)
    requires Spaced(cs, cfg.minGapCooldown) && !Advance(cfg, p, m).Broken?
    requires if cs == [] then !p.Engaged? else Past(cfg, p, cs[|cs| - 1], now) && now <= m.t
    requires m.Expire? && cs != [] ==> m.t >= cs[|cs| - 1] + cfg.minGapCooldown
    ensures var cs' := if m.Confirm? then cs + [m.t] else cs;
      && Spaced(cs', cfg.minGapCooldown)
      && (if cs' == [] then !Advance(cfg, p, m).Engaged? else Past(cfg, Advance(cfg, p, m), cs'[|cs'| - 1], m.t))
  {}

  lemma {:induction false} ConfirmsUnlessEarly(cfg: Config, ms: seq<Mark>)
    requires Ascending(ms) && !PhaseOf(cfg, ms).Broken? && !SomeEarlyExpiry(cfg, ms)
    ensures var cs := Confirms(ms);
      && Spaced(cs, cfg.minGapCooldown)
      && if cs == [] then !PhaseOf(cfg, ms).Engaged?
         else ms != [] && Past(cfg, PhaseOf(cfg, ms), cs[|cs| - 1], ms[|ms| - 1].t)
  {
    if ms != [] {
      var init, m := ms[..|ms| - 1], ms[|ms| - 1];
      assert init + [m] == ms;
      PhasePush(cfg, init, m);
      hide SomeEarlyExpiry, PhaseOf, Confirms, Past, Spaced;
      NoEarlyBefore(cfg, ms);
      ConfirmsUnlessEarly(cfg, init);
      PastNext(cfg, PhaseOf(cfg, init), Confirms(init), if init == [] then m.t else init[|init| - 1].t, m);
    }
  }

  lemma EarlyAlike(cfg: Config, a: seq<Mark>, b: seq<Mark>, n: nat)
    requires n < |a| && n < |b| && a[..n + 1] == b[..n + 1]
    ensures EarlyExpiry(cfg, a, n) == EarlyExpiry(cfg, b, n)
  {
    assert a[..n] == a[..n + 1][..n] == b[..n] && a[n] == a[..n + 1][n] == b[n];
    hide Confirms;
  }

  lemma NoEarlyBefore(cfg: Config, ms: seq<Mark>)
    requires ms != [] && !SomeEarlyExpiry(cfg, ms)
    ensures !SomeEarlyExpiry(cfg, ms[..|ms| - 1]) && !EarlyExpiry(cfg, ms, |ms| - 1)
  {
    NoEarlyLater(cfg, ms[..|ms| - 1], ms, ms[..|ms| - 1]);
  }

  lemma NoEarlyLater(cfg: Config, base: seq<Mark>, ms: seq<Mark>, ms': seq<Mark>)
    requires base <= ms && base <= ms' && !SomeEarlyExpiry(cfg, ms)
    requires forall k :: |base| <= k < |ms'| ==> !ms'[k].Expire?
    ensures !SomeEarlyExpiry(cfg, ms')
  {
    forall k | 0 <= k < |ms'| ensures !EarlyExpiry(cfg, ms', k) {
      if k < |base| {
        assert ms[..k + 1] == base[..k + 1] == ms'[..k + 1];
        EarlyAlike(cfg, ms, ms', k);
      }
    }
  }

  /** In a run without an early expiry the confirmations keep the cooldown between them. */
  lemma KeptUnlessEarly(cfg: Config, es: seq<Event>)
    requires Sensible(cfg) && Ordered(es) && !SomeEarlyExpiry(cfg, AllMarks(cfg, es))
    ensures Spaced(Confirms(AllMarks(cfg, es)), cfg.minGapCooldown)
  {
    hide AllMarks, Confirms, Spaced, PhaseOf, SomeEarlyExpiry;
    var ms := AllMarks(cfg, es);
    MarksAscend(cfg, es);
    EpisodesTimed(cfg, es, |ms|);
    assert ms[..|ms|] == ms;
    ConfirmsUnlessEarly(cfg, ms);
  }

  /** As long as no episode runs out early, any two confirmed gaps keep the cooldown between them. */
  lemma ConfirmsApart(cfg: Config, es: seq<Event>, i: nat, j: nat)
    requires Sensible(cfg) && Ordered(es) && !SomeEarlyExpiry(cfg, AllMarks(cfg, es))
    requires i <= j < |Confirms(AllMarks(cfg, es))|
    ensures var ts := Confirms(AllMarks(cfg, es)); ts[j] - ts[i] >= (j - i) * cfg.minGapCooldown
  {
    KeptUnlessEarly(cfg, es);
    SpanOf(Confirms(AllMarks(cfg, es)), cfg.minGapCooldown, i, j);
  }

  /** A run goes on without another episode running out. */
  ghost predicate Continues(cfg: Config, es: seq<Event>, more: seq<Event>) {
    && Ordered(es + more)
    && forall k :: |AllMarks(cfg, es)| <= k < |AllMarks(cfg, es + more)| ==> !AllMarks(cfg, es + more)[k].Expire?
  }

  lemma {:induction false} MarksExtend(cfg: Config, es: seq<Event>, more: seq<Event>)
    ensures AllMarks(cfg, es) <= AllMarks(cfg, es + more)
    decreases |more|
  {
    hide AllMarks, Run, Marks;
    if more == [] {
      assert es + more == es;
    } else {
      var init, last := more[..|more| - 1], more[|more| - 1];
      MarksExtend(cfg, es, init);
      assert es + more == (es + init) + [last];
      RunPush(cfg, es + init, last);
    }
  }

  lemma MarksLast(cfg: Config, es: seq<Event>)
    requires AllMarks(cfg, es) != []
    ensures es != []
    ensures var init := es[..|es| - 1];
      AllMarks(cfg, es) == AllMarks(cfg, init) + Marks(cfg, Run(cfg, Idle, init), es[|es| - 1])
  {
    hide Marks;
  }

  lemma SplitMarks(ms: seq<Mark>, add: seq<Mark>, k: nat)
    requires k < |ms + add|
    ensures k < |ms| ==> (ms + add)[k] == ms[k] && (ms + add)[..k + 1] == ms[..k + 1]
    ensures k == |ms + add| - 1 ==> (ms + add)[..k + 1] == ms + add
    ensures k >= |ms| ==> (ms + add)[k] == add[k - |ms|]
  {}

  /** The report at which the k-th mark, an expiry, was made. */
  lemma {:induction false} ExpiryReport(cfg: Config, es: seq<Event>, k: nat) returns (n: nat)
    requires k < |AllMarks(cfg, es)| && AllMarks(cfg, es)[k].Expire?
    ensures 0 < n <= |es| && AllMarks(cfg, es[..n]) == AllMarks(cfg, es)[..k + 1]
    ensures es[n - 1].Feedback? && es[n - 1].now == AllMarks(cfg, es)[k].t && cfg.enabled
  {
    hide Marks, Run, AllMarks;
    MarksLast(cfg, es);
    var init, e := es[..|es| - 1], es[|es| - 1];
    var ms, add := AllMarks(cfg, init), Marks(cfg, Run(cfg, Idle, init), e);
    SplitMarks(ms, add, k);
    if k < |ms| {
      n := ExpiryReport(cfg, init, k);
      assert init[..n] == es[..n];
    } else {
      LoneExpiry(cfg, Run(cfg, Idle, init), e, k - |ms|);
      n := |es|;
      assert es[..n] == es;
    }
  }

  lemma LoneExpiry(cfg: Config, s: State, e: Event, i: nat)
    requires i < |Marks(cfg, s, e)| && Marks(cfg, s, e)[i].Expire?
    ensures i == 0 && |Marks(cfg, s, e)| == 1 && e.Feedback? && e.now == Marks(cfg, s, e)[0].t && cfg.enabled
  {}

  lemma NextMarks(cfg: Config, es: seq<Event>, e: Event, add: seq<Mark>)
    requires Sensible(cfg) && Ordered(es) && cfg.enabled
    requires Expected(cfg, PhaseOf(cfg, AllMarks(cfg, es)), LastReport(es), e) == add
    ensures AllMarks(cfg, es + [e]) == AllMarks(cfg, es) + add
  {
    hide Marks, Run, PhaseOf, LastReport, AllMarks, Expected;
    MarksExact(cfg, es, e);
    RunPush(cfg, es, e);
  }

  lemma PhasePush(cfg: Config, ms: seq<Mark>, m: Mark)
    ensures PhaseOf(cfg, ms + [m]) == Advance(cfg, PhaseOf(cfg, ms), m)
    ensures Confirms(ms + [m]) == if m.Confirm? then Confirms(ms) + [m.t] else Confirms(ms)
  {
    assert (ms + [m])[..|ms|] == ms;
  }

  lemma ReportPush(es: seq<Event>, e: Event)
    requires e.Feedback?
    ensures LastReport(es + [e]) == e.now
  {}

  lemma LateDetects(cfg: Config, last: int, t: int)
    ensures Expected(cfg, Quiet(MinusInfinity), last, Feedback(cfg.feedbackGapTrigger, t)) == [Detect(t)]
  {}

  lemma DelayedConfirms(cfg: Config, t: int)
    ensures var p := Advance(cfg, Quiet(MinusInfinity), Detect(t));
      Expected(cfg, p, t, Sample(cfg.gapDelayThreshold)) == [Confirm(t), Swallow(t)]
  {}

  /** After an expiry a late report and a delayed sample confirm the next gap at once. */
  lemma Reconfirm(cfg: Config, es: seq<Event>, t: int) returns (more: seq<Event>)
    requires Sensible(cfg) && Ordered(es) && cfg.enabled && es != [] && es[|es| - 1].Feedback? && es[|es| - 1].now == t
    requires PhaseOf(cfg, AllMarks(cfg, es)) == Quiet(MinusInfinity)
    ensures Ordered(es + more)
    ensures AllMarks(cfg, es + more) == AllMarks(cfg, es) + [Detect(t)] + [Confirm(t), Swallow(t)]
  {
    LateDetects(cfg, LastReport(es), t);
    DelayedConfirms(cfg, t);
    hide AllMarks, PhaseOf, LastReport, Expected, Advance;
    var late, delayed := Feedback(cfg.feedbackGapTrigger, t), Sample(cfg.gapDelayThreshold);
    more := [late] + [delayed];
    NextMarks(cfg, es, late, [Detect(t)]);
    ReportPush(es, late);
    PhasePush(cfg, AllMarks(cfg, es), Detect(t));
    NextMarks(cfg, es + [late], delayed, [Confirm(t), Swallow(t)]);
    assert es + more == (es + [late]) + [delayed];
  }

  lemma ConfirmsOfThree(cfg: Config, ms: seq<Mark>, t: int)
    ensures Confirms(ms + [Detect(t)] + [Confirm(t), Swallow(t)]) == Confirms(ms) + [t]
  {
    PhasePush(cfg, ms, Detect(t));
    PhasePush(cfg, ms + [Detect(t)], Confirm(t));
    PhasePush(cfg, ms + [Detect(t)] + [Confirm(t)], Swallow(t));
    assert ms + [Detect(t)] + [Confirm(t), Swallow(t)] == ms + [Detect(t)] + [Confirm(t)] + [Swallow(t)];
  }

  lemma QuietAfterExpiry(cfg: Config, ms: seq<Mark>, k: nat)
    requires k < |ms| && ms[k].Expire? && !PhaseOf(cfg, ms[..k + 1]).Broken?
    ensures PhaseOf(cfg, ms[..k + 1]) == Quiet(MinusInfinity) && Confirms(ms[..k + 1]) == Confirms(ms[..k])
  {
    PhasePush(cfg, ms[..k], ms[k]);
    assert ms[..k] + [ms[k]] == ms[..k + 1];
  }

  lemma TooSoon(cs: seq<int>, t: int, d: int)
    requires cs != [] && t < cs[|cs| - 1] + d
    ensures !Spaced(cs + [t], d)
  {
    var ts := cs + [t];
    assert ts[|cs| - 1 + 1] < ts[|cs| - 1] + d;
  }

  lemma BreaksCooldown(cfg: Config, es: seq<Event>, k: nat) returns (n: nat, more: seq<Event>)
    requires Sensible(cfg) && Ordered(es) && k < |AllMarks(cfg, es)| && EarlyExpiry(cfg, AllMarks(cfg, es), k)
    ensures n <= |es| && Continues(cfg, es[..n], more)
    ensures !Spaced(Confirms(AllMarks(cfg, es[..n] + more)), cfg.minGapCooldown)
  {
    hide AllMarks, PhaseOf, Confirms, Spaced;
    var ms := AllMarks(cfg, es);
    n := ExpiryReport(cfg, es, k);
    var t := ms[k].t;
    EpisodesTimed(cfg, es, k + 1);
    QuietAfterExpiry(cfg, ms, k);
    more := Reconfirm(cfg, es[..n], t);
    ConfirmsOfThree(cfg, ms[..k + 1], t);
    TooSoon(Confirms(ms[..k]), t, cfg.minGapCooldown);
  }

  /** The header comment calls the cooldown the minimum interval between triggers. However a run goes
      on from any of its points without another expiry, the confirmations keep the cooldown between
      them: exactly if no episode of the run runs out less than a cooldown after its confirmation. */
  lemma CooldownKeptIff(cfg: Config, es: seq<Event>)
    requires Sensible(cfg) && Ordered(es)
    ensures (forall n, more :: 0 <= n <= |es| && Continues(cfg, es[..n], more) ==>
               Spaced(Confirms(AllMarks(cfg, es[..n] + more)), cfg.minGapCooldown))
      <==> !SomeEarlyExpiry(cfg, AllMarks(cfg, es))
  {
    hide AllMarks, Confirms, Spaced, PhaseOf, EarlyExpiry;
    if SomeEarlyExpiry(cfg, AllMarks(cfg, es)) {
      var k :| 0 <= k < |AllMarks(cfg, es)| && EarlyExpiry(cfg, AllMarks(cfg, es), k);
      var n, more := BreaksCooldown(cfg, es, k);
    } else {
      forall n, more | 0 <= n <= |es| && Continues(cfg, es[..n], more)
        ensures Spaced(Confirms(AllMarks(cfg, es[..n] + more)), cfg.minGapCooldown)
      {
        var run := es[..n] + more;
        MarksExtend(cfg, es[..n], es[n..]);
        assert es[..n] + es[n..] == es;
        MarksExtend(cfg, es[..n], more);
        NoEarlyLater(cfg, AllMarks(cfg, es[..n]), AllMarks(cfg, es), AllMarks(cfg, run));
        KeptUnlessEarly(cfg, run);
      }
    }
  }

  // Reprobes.

  /** The i-th event ended an episode. */
  predicate EndsEpisode(cfg: Config, es: seq<Event>, i: nat)
    requires i < |es|
  {
    var ms := Marks(cfg, Run(cfg, Idle, es[..i]), es[i]);
    exists j :: 0 <= j < |ms| && (ms[j].Complete? || ms[j].Expire?)
  }

  predicate Unpolled(es: seq<Event>, i: nat) { forall j :: i < j < |es| ==> !es[j].Poll? }

  lemma ReprobeStep(cfg: Config, s: State, e: Event)
    ensures var ms := Marks(cfg, s, e);
      Step(cfg, s, e).reprobe <==>
        (s.reprobe && !e.Poll?) || exists j :: 0 <= j < |ms| && (ms[j].Complete? || ms[j].Expire?)
  {
    var ms := Marks(cfg, s, e);
    if Step(cfg, s, e).reprobe && !(s.reprobe && !e.Poll?) {
      assert ms[|ms| - 1].Complete? || ms[|ms| - 1].Expire?;
    }
  }

  /** A poll reports exactly whether an episode has ended since the last poll. */
  lemma {:induction false} ReprobeIffEnded(cfg: Config, es: seq<Event>)
    ensures Run(cfg, Idle, es).reprobe <==>
      exists i :: 0 <= i < |es| && EndsEpisode(cfg, es, i) && Unpolled(es, i)
  {
    if es != [] {
      var init, last := es[..|es| - 1], |es| - 1;
      hide Run, EndsEpisode, Unpolled;
      ReprobeIffEnded(cfg, init);
      ReprobeLast(cfg, es);
      forall i: nat | i < last
        ensures EndsEpisode(cfg, es, i) == EndsEpisode(cfg, init, i)
        ensures Unpolled(es, i) <==> Unpolled(init, i) && !es[last].Poll?
      {
        EarlierEnd(cfg, es, i);
      }
    }
  }

  lemma ReprobeLast(cfg: Config, es: seq<Event>)
    requires es != []
    ensures var last := |es| - 1;
      && Unpolled(es, last)
      && (Run(cfg, Idle, es).reprobe <==>
            (Run(cfg, Idle, es[..last]).reprobe && !es[last].Poll?) || EndsEpisode(cfg, es, last))
  {
    ReprobeStep(cfg, Run(cfg, Idle, es[..|es| - 1]), es[|es| - 1]);
    hide Marks, Step;
  }

  lemma EarlierEnd(cfg: Config, es: seq<Event>, i: nat)
    requires i < |es| - 1
    ensures EndsEpisode(cfg, es, i) == EndsEpisode(cfg, es[..|es| - 1], i)
    ensures Unpolled(es, i) <==> Unpolled(es[..|es| - 1], i) && !es[|es| - 1].Poll?
  {
    assert es[..|es| - 1][..i] == es[..i];
    hide Marks, Run;
  }

  // Nothing is missed.

  /** The time of the last feedback report; 0 before the first. */
  function LastReport(es: seq<Event>): int {
    if es == [] then 0
    else if es[|es| - 1].Feedback? then es[|es| - 1].now
    else LastReport(es[..|es| - 1])
  }

  /** What an event does to the episode, given only the marks so far and the last report's time. */
  function Expected(cfg: Config, p: Phase, last: int, e: Event): seq<Mark> {
    match (p, e)
    case (Quiet(due), Feedback(since, now)) =>
      if since >= cfg.feedbackGapTrigger && Reached(now, due) then [Detect(now)] else []
    case (Waiting(_, td), Feedback(_, now)) => if now >= td + cfg.gapConfirmTimer then [Unconfirmed(now)] else []
    case (Engaged(tc), Feedback(_, now)) => if now >= tc + cfg.maxGapPause then [Expire(now)] else []
    case (Waiting(_, _), Sample(d)) => if d >= cfg.gapDelayThreshold then [Confirm(last), Swallow(last)] else []
    case (Engaged(_), Sample(d)) => if d < 0.0 then [Swallow(last), Complete(last)] else [Swallow(last)]
    case _ => []
  }

  lemma {:induction false} ReportTime(cfg: Config, es: seq<Event>)
    ensures Now(Run(cfg, Idle, es)) == LastReport(es)
  {
    if es != [] {
      ReportTime(cfg, es[..|es| - 1]);
    }
  }

  lemma MarksByPhase(cfg: Config, s: State, p: Phase, done: seq<int>, e: Event)
    requires cfg.enabled && Remembers(cfg, s, p, done)
    ensures Marks(cfg, s, e) == Expected(cfg, p, Now(s), e)
  {
    hide Spaced;
  }

  /** The guard misses nothing: in every run the marks of the next event are exactly those that the
      marks so far call for. A gap is detected whenever a report is late and the cooldown is over,
      confirmed at the first sample delayed enough, swallows every sample until it ends, and ends at
      the first negative delay or, failing that, at the first report after the pause. */
  lemma MarksExact(cfg: Config, es: seq<Event>, e: Event)
    requires Sensible(cfg) && cfg.enabled && Ordered(es)
    ensures Marks(cfg, Run(cfg, Idle, es), e) == Expected(cfg, PhaseOf(cfg, AllMarks(cfg, es)), LastReport(es), e)
  {
    RunRemembers(cfg, es);
    ReportTime(cfg, es);
    hide Remembers, Marks, Expected, Run, AllMarks, PhaseOf, Completions;
    MarksByPhase(cfg, Run(cfg, Idle, es), PhaseOf(cfg, AllMarks(cfg, es)), Completions(AllMarks(cfg, es)), e);
  }
}
