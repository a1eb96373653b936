/** The lines the guard prints, and the collector that recovers gap episodes from them. */
module GuardTrace {
  import opened Wire
  import opened Guard
  import T = GuardTiming

  const CONFIRMED := "confirmed_gap"

  // The collector.

  /** A line of the tester's output; ok: its payload could be parsed. */
  datatype Line =
    | Gcc(ok: bool)
    | GuardLine(ok: bool, state: string)
    | Probe(ok: bool)
    | Other

  datatype Stamped = Stamped(line: Line, time: int)

  ghost predicate HasStats(sender: bool, lines: seq<Stamped>) {
    sender && exists j :: 0 <= j < |lines| && lines[j].line == Gcc(true)
  }

  /** A malformed probe line ends the reading. */
  ghost predicate Ended(lines: seq<Stamped>) {
    exists j :: 0 <= j < |lines| && lines[j].line == Probe(false)
  }

  predicate IsGuard(line: Line) { line.GuardLine? && line.ok }

  /** The guard lines the collector looks at: it is the sender, and has had GCC statistics before. */
  ghost function Accepted(sender: bool, lines: seq<Stamped>): seq<Stamped>
    decreases |lines|
  {
    if lines == [] then []
    else
      var init, last := lines[..|lines| - 1], lines[|lines| - 1];
      Accepted(sender, init)
      + if IsGuard(last.line) && HasStats(sender, init) && !Ended(init) then [last] else []
  }

  /** Other lines, malformed statistics and malformed guard lines, and probes that can be read. */
  predicate Skipped(line: Line) {
    line == Other || line == Gcc(false) || (line.GuardLine? && !line.ok) || line == Probe(true)
  }

  lemma SkippedChangesNothing(sender: bool, a: seq<Stamped>, l: Stamped, b: seq<Stamped>)
    requires Skipped(l.line)
    ensures HasStats(sender, (a + [l]) + b) <==> HasStats(sender, a + b)
    ensures Ended((a + [l]) + b) <==> Ended(a + b)
  {
    var long, short := (a + [l]) + b, a + b;
    forall j | 0 <= j < |short| ensures short[j] == long[if j < |a| then j else j + 1] {}
    forall j | 0 <= j < |long| ensures j == |a| || long[j] == short[if j < |a| then j else j - 1] {}
  }

  /** Such a line has no effect wherever it comes. */
  lemma {:induction false} SkippedAnywhere(sender: bool, a: seq<Stamped>, l: Stamped, b: seq<Stamped>)
    requires Skipped(l.line)
    ensures Accepted(sender, (a + [l]) + b) == Accepted(sender, a + b)
    decreases |b|
  {
    if b == [] {
      assert (a + [l]) + b == a + [l] && a + b == a;
      assert (a + [l])[..|a|] == a;
    } else {
      var init, last := b[..|b| - 1], b[|b| - 1];
      SkippedAnywhere(sender, a, l, init);
      SkippedChangesNothing(sender, a, l, init);
      AcceptedNext(sender, (a + [l]) + init, last);
      AcceptedNext(sender, a + init, last);
      assert (a + [l]) + b == ((a + [l]) + init) + [last] && a + b == (a + init) + [last];
      hide Accepted, HasStats, Ended;
    }
  }

  lemma AcceptedNext(sender: bool, lines: seq<Stamped>, last: Stamped)
    ensures Accepted(sender, lines + [last])
      == Accepted(sender, lines) + if IsGuard(last.line) && HasStats(sender, lines) && !Ended(lines) then [last] else []
  {
    assert (lines + [last])[..|lines|] == lines;
  }

  predicate Edge(states: seq<string>, k: nat) {
    0 < k < |states| && states[k] == CONFIRMED && states[k - 1] != CONFIRMED
  }

  function States(lines: seq<Stamped>): seq<string> {
    seq(|lines|, i requires 0 <= i < |lines| => if lines[i].line.GuardLine? then lines[i].line.state else "")
  }

  function Edges(states: seq<string>): seq<nat> {
    if states == [] then []
    else
      var k := |states| - 1;
      Edges(states[..k]) + if Edge(states, k) then [k] else []
  }

  /** The times of the lines at the edges. */
  function Triggers(lines: seq<Stamped>): seq<int> {
    if lines == [] then []
    else
      var k := |lines| - 1;
      Triggers(lines[..k]) + if Edge(States(lines), k) then [lines[k].time] else []
  }

  lemma {:induction false} EdgesExact(states: seq<string>)
    ensures forall k: nat :: k in Edges(states) <==> Edge(states, k)
    ensures forall i, j :: 0 <= i < j < |Edges(states)| ==> Edges(states)[i] < Edges(states)[j]
  {
    if states != [] {
      var init := states[..|states| - 1];
      EdgesExact(init);
      forall k: nat ensures k in Edges(states) <==> Edge(states, k) {
        assert k in Edges(init) <==> Edge(init, k);
      }
      forall i | 0 <= i < |Edges(init)| ensures Edges(init)[i] < |states| - 1 {
        assert Edges(init)[i] in Edges(init);
      }
    }
  }

  lemma {:induction false} TriggersAtEdges(lines: seq<Stamped>)
    ensures |Triggers(lines)| == |Edges(States(lines))|
    ensures forall j :: 0 <= j < |Triggers(lines)| ==>
      Edges(States(lines))[j] < |lines| && Triggers(lines)[j] == lines[Edges(States(lines))[j]].time
  {
    if lines != [] {
      TriggersAtEdges(lines[..|lines| - 1]);
      assert States(lines)[..|lines| - 1] == States(lines[..|lines| - 1]);
    }
  }

  class Collector {
    const isSender: bool
    var guardTriggers: seq<int>

    constructor (sender: bool)
      ensures isSender == sender && guardTriggers == []
    {
      isSender, guardTriggers := sender, [];
    }

    /** Reads the tester's output; a trigger is recorded, with its time, exactly at each accepted
        confirmed line whose accepted predecessor is not confirmed. */
    method Read(lines: seq<Stamped>)
      modifies this
      ensures guardTriggers == old(guardTriggers) + Triggers(Accepted(isSender, lines))
    {
      var latestGCCStats := false;
      var guardState: Option<string> := None;
      ghost var acc: seq<Stamped> := [];
      NothingRead(isSender, lines);
      hide Accepted, HasStats, Ended, Triggers, Last;
      var i := 0;
      while i < |lines|
        invariant 0 <= i <= |lines|
        invariant latestGCCStats == HasStats(isSender, lines[..i])
        invariant !Ended(lines[..i])
        invariant acc == Accepted(isSender, lines[..i])
        invariant guardState == Last(acc)
        invariant guardTriggers == old(guardTriggers) + Triggers(acc)
      {
        var line := lines[i];
        Push(isSender, lines, i);
        if line.line.Gcc? {
          if isSender && line.line.ok {
            latestGCCStats := true;
          }
        } else if IsGuard(line.line) {
          if latestGCCStats {
            TriggersPush(acc, line);
            acc := acc + [line];
            if guardState.Some? && guardState.value != line.line.state && line.line.state == CONFIRMED {
              guardTriggers := guardTriggers + [line.time];
            }
            guardState := Some(line.line.state);
          }
        } else if line.line == Probe(false) {
          EndedStays(isSender, lines, i + 1);
          return;
        }
        i := i + 1;
      }
      assert lines[..|lines|] == lines;
    }
  }

  function Last(acc: seq<Stamped>): Option<string> {
    if acc == [] then None else Some(States(acc)[|acc| - 1])
  }

  lemma TriggersPush(acc: seq<Stamped>, line: Stamped)
    requires IsGuard(line.line)
    ensures Last(acc + [line]) == Some(line.line.state)
    ensures Triggers(acc + [line])
      == if Last(acc).Some? && Last(acc).value != line.line.state && line.line.state == CONFIRMED
         then Triggers(acc) + [line.time] else Triggers(acc)
  {
    assert (acc + [line])[..|acc|] == acc;
    assert acc != [] ==> States(acc + [line])[|acc| - 1] == States(acc)[|acc| - 1];
  }

  lemma Push(sender: bool, lines: seq<Stamped>, i: nat)
    requires i < |lines|
    ensures Accepted(sender, lines[..i + 1])
      == if IsGuard(lines[i].line) && HasStats(sender, lines[..i]) && !Ended(lines[..i])
         then Accepted(sender, lines[..i]) + [lines[i]] else Accepted(sender, lines[..i])
    ensures HasStats(sender, lines[..i + 1]) <==> HasStats(sender, lines[..i]) || (sender && lines[i].line == Gcc(true))
    ensures Ended(lines[..i + 1]) <==> Ended(lines[..i]) || lines[i].line == Probe(false)
  {
    var next := lines[..i + 1];
    assert next[..i] == lines[..i] && next[i] == lines[i];
    forall j | 0 <= j < i ensures next[j] == lines[..i][j] {}
  }

  lemma NothingRead(sender: bool, lines: seq<Stamped>)
    ensures !HasStats(sender, lines[..0]) && !Ended(lines[..0])
    ensures Accepted(sender, lines[..0]) == [] && Triggers([]) == [] && Last([]) == None
  {}

  lemma {:induction false} EndedStays(sender: bool, lines: seq<Stamped>, i: nat)
    requires i <= |lines| && Ended(lines[..i])
    ensures Accepted(sender, lines) == Accepted(sender, lines[..i])
    ensures Ended(lines)
    decreases |lines|
  {
    if i == |lines| {
      assert lines[..i] == lines;
    } else {
      var init := lines[..|lines| - 1];
      assert init[..i] == lines[..i] && lines[..|lines|] == lines;
      EndedStays(sender, init, i);
      Push(sender, lines, |lines| - 1);
    }
  }

  // The guard's output.

  /** One line for each feedback report. */
  function Printed(cfg: Config, es: seq<Event>): seq<string> {
    if es == [] then []
    else
      var init := es[..|es| - 1];
      Printed(cfg, init) + if es[|es| - 1].Feedback? then [Label(cfg, Run(cfg, Idle, init))] else []
  }

  predicate ConfirmsGap(cfg: Config, s: State, e: Event) {
    s.state.DetectedFeedbackGap? && Step(cfg, s, e).state.ConfirmedGap?
  }

  /** For each confirmed episode, the number of lines printed before its confirmation. */
  function ConfirmedAt(cfg: Config, es: seq<Event>): seq<nat> {
    if es == [] then []
    else
      var init := es[..|es| - 1];
      ConfirmedAt(cfg, init)
      + if ConfirmsGap(cfg, Run(cfg, Idle, init), es[|es| - 1]) then [|Printed(cfg, init)|] else []
  }

  predicate Increasing(at: seq<nat>) { forall i, j :: 0 <= i < j < |at| ==> at[i] < at[j] }

  predicate Follows(ls: seq<string>, i: nat)
    requires i <= |ls|
  {
    i == 0 || ls[i - 1] != CONFIRMED
  }

  /** Lines, confirmations and state of a run belong together. */
  ghost predicate InStep(cfg: Config, g: GuardState, ls: seq<string>, at: seq<nat>) {
    && Increasing(at)
    && (forall i :: 0 <= i < |at| ==> at[i] <= |ls|)
    && (forall i: nat :: i < |ls| && ls[i] == CONFIRMED ==> (Follows(ls, i) <==> i in at))
    && (g.DetectedFeedbackGap? ==> |ls| !in at && Follows(ls, |ls|))
    && (|ls| in at ==> Follows(ls, |ls|))
    && (g.ConfirmedGap? && Follows(ls, |ls|) ==> |ls| in at)
    && (cfg.enabled || g.Normal?)
  }

  lemma LabelConfirmed(cfg: Config, s: State)
    ensures Label(cfg, s) == CONFIRMED <==> cfg.enabled && s.state.ConfirmedGap?
  {
    assert |"normal"| == 6 && |"detected_feedback_gap"| == 21 && |"disabled"| == 8 && |CONFIRMED| == 13;
  }

  /** The word for what the marks so far say. */
  function Word(cfg: Config, p: Phase): string {
    if !cfg.enabled then "disabled"
    else match p
      case Quiet(_) => "normal"
      case Waiting(_, _) => "detected_feedback_gap"
      case Engaged(_) => "confirmed_gap"
      case Broken => ""
  }

  /** Each report prints what the episodes so far call for: whether a gap is detected, confirmed or
      neither. Nothing else prints. */
  lemma LabelsExact(cfg: Config, es: seq<Event>, e: Event)
    requires T.Sensible(cfg) && Ordered(es)
    ensures Printed(cfg, es + [e])
      == Printed(cfg, es) + if e.Feedback? then [Word(cfg, PhaseOf(cfg, AllMarks(cfg, es)))] else []
  {
    hide Run, AllMarks, PhaseOf, Completions, T.Remembers, Label, Word;
    T.RunRemembers(cfg, es);
    assert (es + [e])[..|es|] == es;
    LabelIsWord(cfg, Run(cfg, Idle, es), PhaseOf(cfg, AllMarks(cfg, es)), Completions(AllMarks(cfg, es)));
  }

  lemma LabelIsWord(cfg: Config, s: State, p: Phase, done: seq<int>)
    requires T.Remembers(cfg, s, p, done)
    ensures Label(cfg, s) == Word(cfg, p)
  {
    hide Spaced;
  }

  lemma LineKeeps(cfg: Config, s: State, ls: seq<string>, at: seq<nat>, e: Event)
    requires InStep(cfg, s.state, ls, at) && e.Feedback?
    ensures InStep(cfg, Step(cfg, s, e).state, ls + [Label(cfg, s)], at)
  {
    hide Label;
    LabelConfirmed(cfg, s);
    var ls' := ls + [Label(cfg, s)];
    forall i: nat | i < |ls'| && ls'[i] == CONFIRMED ensures Follows(ls', i) <==> i in at {
      if i < |ls| {
        assert ls'[i] == ls[i];
        assert Follows(ls', i) == Follows(ls, i);
      } else {
        assert Follows(ls', i) == Follows(ls, |ls|);
      }
    }
  }

  lemma QuietKeeps(cfg: Config, s: State, ls: seq<string>, at: seq<nat>, e: Event)
    requires InStep(cfg, s.state, ls, at) && !e.Feedback?
    ensures InStep(cfg, Step(cfg, s, e).state, ls, at + if ConfirmsGap(cfg, s, e) then [|ls|] else [])
  {
    var at' := at + if ConfirmsGap(cfg, s, e) then [|ls|] else [];
    if ConfirmsGap(cfg, s, e) {
      forall i | 0 <= i < |at| ensures at[i] < |ls| { assert at[i] in at; }
      assert at'[|at|] == |ls|;
      forall i: nat | i < |ls| ensures i in at' <==> i in at {}
    } else {
      assert at' == at;
    }
  }

  lemma {:induction false} RunInStep(cfg: Config, es: seq<Event>)
    ensures InStep(cfg, Run(cfg, Idle, es).state, Printed(cfg, es), ConfirmedAt(cfg, es))
  {
    if es != [] {
      hide InStep, Label, Step;
      var init, e := es[..|es| - 1], es[|es| - 1];
      RunInStep(cfg, init);
      var s := Run(cfg, Idle, init);
      if e.Feedback? {
        NoConfirm(cfg, s, e);
        LineKeeps(cfg, s, Printed(cfg, init), ConfirmedAt(cfg, init), e);
        assert ConfirmedAt(cfg, es) == ConfirmedAt(cfg, init);
      } else {
        QuietKeeps(cfg, s, Printed(cfg, init), ConfirmedAt(cfg, init), e);
        assert Printed(cfg, es) == Printed(cfg, init);
      }
    }
  }

  lemma NoConfirm(cfg: Config, s: State, e: Event)
    requires e.Feedback?
    ensures !ConfirmsGap(cfg, s, e)
  {}

  /** A block of confirmed lines starts exactly where an episode was confirmed since the line before;
      inside the block no other episode is confirmed. So blocks and the episodes still confirmed at
      the next report correspond one to one. */
  lemma BlocksAreEpisodes(cfg: Config, es: seq<Event>, i: nat)
    requires i < |Printed(cfg, es)| && Printed(cfg, es)[i] == CONFIRMED
    ensures Follows(Printed(cfg, es), i) <==> i in ConfirmedAt(cfg, es)
    ensures Increasing(ConfirmedAt(cfg, es))
  {
    RunInStep(cfg, es);
  }

  // From the guard to the triggers.

  function GuardLines(lines: seq<Stamped>): seq<Stamped> {
    if lines == [] then []
    else
      var last := lines[|lines| - 1];
      GuardLines(lines[..|lines| - 1]) + if IsGuard(last.line) then [last] else []
  }

  /** The first GCC statistics of the sender are at position m; without any, m is the end. */
  ghost predicate FirstStats(sender: bool, lines: seq<Stamped>, m: nat) {
    && m <= |lines| && !HasStats(sender, lines[..m])
    && (m < |lines| ==> HasStats(sender, lines[..m + 1]))
  }

  lemma {:induction false} NoneAccepted(sender: bool, lines: seq<Stamped>)
    requires !HasStats(sender, lines)
    ensures Accepted(sender, lines) == []
  {
    if lines != [] {
      assert lines[..|lines|] == lines;
      Push(sender, lines, |lines| - 1);
      NoneAccepted(sender, lines[..|lines| - 1]);
    }
  }

  lemma {:induction false} FindStats(sender: bool, lines: seq<Stamped>) returns (m: nat)
    ensures FirstStats(sender, lines, m)
  {
    assert lines[..|lines|] == lines;
    if !HasStats(sender, lines) {
      m := |lines|;
    } else {
      var init := lines[..|lines| - 1];
      m := FindStats(sender, init);
      assert init[..m] == lines[..m];
      assert m < |init| ==> init[..m + 1] == lines[..m + 1];
    }
  }

  lemma GuardLinesNext(lines: seq<Stamped>)
    requires lines != []
    ensures var last := lines[|lines| - 1];
      GuardLines(lines) == GuardLines(lines[..|lines| - 1]) + if IsGuard(last.line) then [last] else []
    ensures forall m :: 0 <= m < |lines| ==> lines[..|lines| - 1][..m] == lines[..m]
  {}

  /** The accepted lines are those from some line on, and all of these unless the reading has ended. */
  predicate Stretch(all: seq<Stamped>, acc: seq<Stamped>, first: nat, ended: bool) {
    && first + |acc| <= |all| && acc == all[first..first + |acc|]
    && (!ended ==> first + |acc| == |all|)
  }

  lemma StretchNext(all: seq<Stamped>, acc: seq<Stamped>, first: nat, ended: bool, next: seq<Stamped>, ended': bool)
    requires Stretch(all, acc, first, ended) && (ended ==> ended')
    ensures Stretch(all + next, if ended then acc else acc + next, first, ended')
  {
    assert ended ==> acc == (all + next)[first..first + |acc|];
    assert !ended ==> acc + next == (all + next)[first..first + |acc| + |next|];
  }

  lemma StretchPush(sender: bool, lines: seq<Stamped>, m: nat)
    requires FirstStats(sender, lines, m) && m < |lines|
    requires var init := lines[..|lines| - 1];
      Stretch(GuardLines(init), Accepted(sender, init), |GuardLines(lines[..m])|, Ended(init))
    ensures Stretch(GuardLines(lines), Accepted(sender, lines), |GuardLines(lines[..m])|, Ended(lines))
  {
    hide HasStats, Ended, Accepted, GuardLines, Stretch, FirstStats;
    GuardLinesNext(lines);
    var init, last := lines[..|lines| - 1], lines[|lines| - 1];
    StatsBefore(sender, lines, m);
    Push(sender, lines, |lines| - 1);
    assert lines[..|lines|] == lines;
    var next := if IsGuard(last.line) then [last] else [];
    StretchNext(GuardLines(init), Accepted(sender, init), |GuardLines(lines[..m])|, Ended(init), next, Ended(lines));
    assert Accepted(sender, init) + [] == Accepted(sender, init);
  }

  /** The accepted lines are an unbroken stretch of the guard lines: those after the first statistics
      and before the first malformed probe. */
  lemma {:induction false} AcceptedStretch(sender: bool, lines: seq<Stamped>, m: nat)
    requires FirstStats(sender, lines, m)
    ensures Stretch(GuardLines(lines), Accepted(sender, lines), |GuardLines(lines[..m])|, Ended(lines))
    decreases |lines|
  {
    hide Ended, Accepted, GuardLines, HasStats;
    assert lines[..|lines|] == lines;
    if m == |lines| {
      NoneAccepted(sender, lines);
    } else {
      StatsBefore(sender, lines, m);
      AcceptedStretch(sender, lines[..|lines| - 1], m);
      StretchPush(sender, lines, m);
    }
  }

  lemma StatsBefore(sender: bool, lines: seq<Stamped>, m: nat)
    requires FirstStats(sender, lines, m) && m < |lines|
    ensures var init := lines[..|lines| - 1];
      && FirstStats(sender, init, m) && init[..m] == lines[..m] && (HasStats(sender, init) <==> m < |init|)
    ensures m == |lines| - 1 ==> lines[m].line == Gcc(true)
  {
    var init := lines[..|lines| - 1];
    assert init[..m] == lines[..m];
    Push(sender, lines, m);
    if m < |init| {
      assert init[..m + 1] == lines[..m + 1];
      assert init[m].line == Gcc(true);
    } else {
      assert init[..m] == init;
    }
  }

  /** The triggers are the confirmed episodes that are still confirmed at the next report, of all
      those whose block starts after the first accepted line: no other line is recorded, and none of
      these is missed. */
  lemma TriggersAreEpisodes(cfg: Config, es: seq<Event>, sender: bool, lines: seq<Stamped>)
    returns (first: nat, m: nat)
    requires States(GuardLines(lines)) == Printed(cfg, es)
    ensures FirstStats(sender, lines, m) && first == |GuardLines(lines[..m])|
    ensures first + |Accepted(sender, lines)| <= |Printed(cfg, es)|
    ensures Accepted(sender, lines) == GuardLines(lines)[first..first + |Accepted(sender, lines)|]
    ensures forall k: nat :: k in Edges(States(Accepted(sender, lines))) <==>
      && 0 < k < |Accepted(sender, lines)|
      && Printed(cfg, es)[first + k] == CONFIRMED
      && first + k in ConfirmedAt(cfg, es)
    ensures Increasing(ConfirmedAt(cfg, es))
  {
    hide Accepted, GuardLines, Printed, ConfirmedAt, Edges, States, Increasing;
    m := FindStats(sender, lines);
    first := |GuardLines(lines[..m])|;
    AcceptedStretch(sender, lines, m);
    var acc := Accepted(sender, lines);
    ConfirmationsIncrease(cfg, es);
    EdgeInStretch(GuardLines(lines), first, acc, 0);
    EdgesExact(States(acc));
    forall k: nat
      ensures k in Edges(States(acc)) <==>
        0 < k < |acc| && Printed(cfg, es)[first + k] == CONFIRMED && first + k in ConfirmedAt(cfg, es)
    {
      EdgeInStretch(GuardLines(lines), first, acc, k);
      if 0 < k < |acc| && Printed(cfg, es)[first + k] == CONFIRMED {
        BlocksAreEpisodes(cfg, es, first + k);
      }
    }
  }

  lemma EdgeInStretch(all: seq<Stamped>, first: nat, acc: seq<Stamped>, k: nat)
    requires first + |acc| <= |all| && acc == all[first..first + |acc|]
    ensures |States(all)| == |all| && |States(acc)| == |acc|
    ensures Edge(States(acc), k) <==>
      0 < k < |acc| && States(all)[first + k] == CONFIRMED && Follows(States(all), first + k)
  {}

  lemma ConfirmationsIncrease(cfg: Config, es: seq<Event>)
    ensures Increasing(ConfirmedAt(cfg, es))
  {
    RunInStep(cfg, es);
  }
}
