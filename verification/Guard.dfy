/** The reconfiguration guard: a timed three-state machine over feedback reports and delay samples. */
module Guard {

  datatype Timestamp = MinusInfinity | At(ms: int)

  function Plus(t: Timestamp, d: int): Timestamp {
    if t.At? then At(t.ms + d) else t
  }

  predicate Reached(now: int, t: Timestamp) { t.At? ==> now >= t.ms }

  datatype GuardState = Normal | DetectedFeedbackGap | ConfirmedGap

  /** Times in milliseconds. */
  datatype Config = Config(
    enabled: bool,
    feedbackGapTrigger: int,
    gapConfirmTimer: int,
    maxGapPause: int,
    gapDelayThreshold: real,
    minGapCooldown: int)

  const Default := Config(true, 72, 800, 800, 60.0, 10_000)

  datatype State = State(
    state: GuardState,
    reprobe: bool,
    cooldownUntil: Timestamp,
    awaitingUntil: Timestamp,
    maxConfirmedUntil: Timestamp,
    feedbackTime: Timestamp)

  const Idle := State(Normal, false, MinusInfinity, MinusInfinity, MinusInfinity, MinusInfinity)

  /** What OnFeedback prints about the state it finds. */
  function Label(cfg: Config, s: State): string {
    if !cfg.enabled then "disabled"
    else match s.state
      case Normal => "normal"
      case DetectedFeedbackGap => "detected_feedback_gap"
      case ConfirmedGap => "confirmed_gap"
  }

  function AfterFeedback(cfg: Config, s: State, since: int, now: int): State {
    if !cfg.enabled then s
    else if s.state.DetectedFeedbackGap? && Reached(now, s.awaitingUntil) then s.(state := Normal)
    else if s.state.ConfirmedGap? && Reached(now, s.maxConfirmedUntil) then
      s.(state := Normal, cooldownUntil := MinusInfinity, reprobe := true)
    else if !s.state.Normal? then s
    else if since >= cfg.feedbackGapTrigger && Reached(now, s.cooldownUntil) then
      s.(state := DetectedFeedbackGap, awaitingUntil := At(now + cfg.gapConfirmTimer))
    else s
  }

  /** The new state, and whether the sample is to be ignored. */
  function AfterSample(cfg: Config, s: State, delay: real): (State, bool) {
    if !cfg.enabled || s.state.Normal? then (s, false)
    else if s.state.ConfirmedGap? then
      (if delay < 0.0 then
         s.(state := Normal, cooldownUntil := Plus(s.feedbackTime, cfg.minGapCooldown), reprobe := true)
       else s, true)
    else if delay >= cfg.gapDelayThreshold then
      (s.(state := ConfirmedGap, maxConfirmedUntil := Plus(s.feedbackTime, cfg.maxGapPause)), true)
    else (s, false)
  }

  class StarlinkReconfigurationGuard {
    const cfg: Config
    var state: GuardState
    var reprobeNextInterval: bool
    var cooldownUntil: Timestamp
    var awaitingConfirmationUntil: Timestamp
    var maxConfirmedStateUntil: Timestamp
    var currentFeedbackTime: Timestamp

    ghost function View(): State
      reads this
    {
      State(state, reprobeNextInterval, cooldownUntil, awaitingConfirmationUntil, maxConfirmedStateUntil,
        currentFeedbackTime)
    }

    constructor (config: Config)
      ensures cfg == config && View() == Idle
    {
      cfg := config;
      state, reprobeNextInterval := Normal, false;
      cooldownUntil, awaitingConfirmationUntil := MinusInfinity, MinusInfinity;
      maxConfirmedStateUntil, currentFeedbackTime := MinusInfinity, MinusInfinity;
    }

    method OnFeedback(sinceLastFeedback: int, now: int) returns (line: string)
      modifies this
      ensures line == Label(cfg, old(View()))
      ensures View() == AfterFeedback(cfg, old(View()), sinceLastFeedback, now)
    {
      if cfg.enabled {
        match state
        case Normal => line := "normal";
        case DetectedFeedbackGap => line := "detected_feedback_gap";
        case ConfirmedGap => line := "confirmed_gap";
      } else {
        line := "disabled";
      }
      if !cfg.enabled {
        return;
      }
      if state.DetectedFeedbackGap? && Reached(now, awaitingConfirmationUntil) {
        state := Normal;
        return;
      }
      if state.ConfirmedGap? && Reached(now, maxConfirmedStateUntil) {
        state := Normal;
        cooldownUntil := MinusInfinity;
        reprobeNextInterval := true;
        return;
      }
      if !state.Normal? {
        return;
      }
      if sinceLastFeedback >= cfg.feedbackGapTrigger {
        if !Reached(now, cooldownUntil) {
          return;
        }
        state := DetectedFeedbackGap;
        awaitingConfirmationUntil := At(now + cfg.gapConfirmTimer);
      }
    }

    method UpdateCurrentFeedbackTime(now: int)
      modifies this
      ensures View() == old(View()).(feedbackTime := At(now))
    {
      currentFeedbackTime := At(now);
    }

    method IgnoreSampleWithDelay(recvDelta: real, sendDelta: real) returns (ignore: bool)
      modifies this
      ensures (View(), ignore) == AfterSample(cfg, old(View()), recvDelta - sendDelta)
    {
      if !cfg.enabled {
        return false;
      }
      if state.Normal? {
        return false;
      }
      var delayIncrease := recvDelta - sendDelta;
      if state.ConfirmedGap? {
        if delayIncrease < 0.0 {
          state := Normal;
          cooldownUntil := Plus(currentFeedbackTime, cfg.minGapCooldown);
          reprobeNextInterval := true;
        }
        return true;
      }
      if delayIncrease >= cfg.gapDelayThreshold {
        maxConfirmedStateUntil := Plus(currentFeedbackTime, cfg.maxGapPause);
        state := ConfirmedGap;
      }
      return state.ConfirmedGap?;
    }

    method JustFinishedReconfig() returns (finished: bool)
      modifies this
      ensures finished == old(reprobeNextInterval) && View() == old(View()).(reprobe := false)
    {
      finished := reprobeNextInterval;
      if reprobeNextInterval {
        reprobeNextInterval := false;
      }
    }
  }

  // Runs.

  /** A feedback report (OnFeedback, then UpdateCurrentFeedbackTime), a delay sample, or a poll of
      JustFinishedReconfig. */
  datatype Event = Feedback(since: int, now: int) | Sample(delay: real) | Poll

  function Step(cfg: Config, s: State, e: Event): State {
    match e
    case Feedback(since, now) => AfterFeedback(cfg, s, since, now).(feedbackTime := At(now))
    case Sample(d) => AfterSample(cfg, s, d).0
    case Poll => s.(reprobe := false)
  }

  /** What happens to the gap episode in a step; Swallow, Confirm and Complete carry the feedback
      time current at the sample. */
  datatype Mark =
    | Detect(t: int)
    | Unconfirmed(t: int)
    | Confirm(t: int)
    | Swallow(t: int)
    | Complete(t: int)
    | Expire(t: int)

  function Now(s: State): int { if s.feedbackTime.At? then s.feedbackTime.ms else 0 }

  function Marks(cfg: Config, s: State, e: Event): seq<Mark> {
    match e
    case Poll => []
    case Feedback(since, now) =>
      var s' := AfterFeedback(cfg, s, since, now);
      if s.state.Normal? && s'.state.DetectedFeedbackGap? then [Detect(now)]
      else if s.state.DetectedFeedbackGap? && s'.state.Normal? then [Unconfirmed(now)]
      else if s.state.ConfirmedGap? && s'.state.Normal? then [Expire(now)]
      else []
    case Sample(d) =>
      var (s', ignore) := AfterSample(cfg, s, d);
      (if s.state.DetectedFeedbackGap? && s'.state.ConfirmedGap? then [Confirm(Now(s))] else [])
      + (if ignore then [Swallow(Now(s))] else [])
      + (if s.state.ConfirmedGap? && s'.state.Normal? then [Complete(Now(s))] else [])
  }

  function Run(cfg: Config, s: State, es: seq<Event>): State {
    if es == [] then s else Step(cfg, Run(cfg, s, es[..|es| - 1]), es[|es| - 1])
  }

  function AllMarks(cfg: Config, es: seq<Event>): seq<Mark> {
    if es == [] then []
    else AllMarks(cfg, es[..|es| - 1]) + Marks(cfg, Run(cfg, Idle, es[..|es| - 1]), es[|es| - 1])
  }

  /** Feedback times do not go back. */
  predicate Ordered(es: seq<Event>) {
    forall i, j :: 0 <= i < j < |es| && es[i].Feedback? && es[j].Feedback? ==> es[i].now <= es[j].now
  }

  // The timing discipline, stated on marks alone.

  /** due: no gap may be detected before it. */
  datatype Phase = Quiet(due: Timestamp) | Waiting(due: Timestamp, td: int) | Engaged(tc: int) | Broken

  function Advance(cfg: Config, p: Phase, m: Mark): Phase {
    match (p, m)
    case (Quiet(due), Detect(t)) => if Reached(t, due) then Waiting(due, t) else Broken
    case (Waiting(due, td), Unconfirmed(t)) => if t >= td + cfg.gapConfirmTimer then Quiet(due) else Broken
    case (Waiting(_, td), Confirm(t)) => if td <= t < td + cfg.gapConfirmTimer then Engaged(t) else Broken
    case (Engaged(tc), Swallow(t)) => if tc <= t < tc + cfg.maxGapPause then p else Broken
    case (Engaged(tc), Complete(t)) =>
      if tc <= t < tc + cfg.maxGapPause then Quiet(At(t + cfg.minGapCooldown)) else Broken
    case (Engaged(tc), Expire(t)) => if t >= tc + cfg.maxGapPause then Quiet(MinusInfinity) else Broken
    case _ => Broken
  }

  function PhaseOf(cfg: Config, ms: seq<Mark>): Phase {
    if ms == [] then Quiet(MinusInfinity) else Advance(cfg, PhaseOf(cfg, ms[..|ms| - 1]), ms[|ms| - 1])
  }

  function Completions(ms: seq<Mark>): seq<int> {
    if ms == [] then []
    else Completions(ms[..|ms| - 1]) + if ms[|ms| - 1].Complete? then [ms[|ms| - 1].t] else []
  }

  function Confirms(ms: seq<Mark>): seq<int> {
    if ms == [] then []
    else Confirms(ms[..|ms| - 1]) + if ms[|ms| - 1].Confirm? then [ms[|ms| - 1].t] else []
  }

  predicate Spaced(ts: seq<int>, d: int) {
    forall i :: 0 <= i < |ts| - 1 ==> ts[i + 1] >= ts[i] + d
  }
}
