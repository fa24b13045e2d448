/**
  The boot maintenance lane: steps in order, each under the smaller of its own budget and what is left of the total,
  every one recorded; then the maintenance-done mark and, last, the deferred Builder. Durations are integers of one
  fixed unit.
*/
module BootSchedule {
  import opened Wrappers

  const LISTEN: string := "listen"
  const MAINTENANCE_DONE: string := "maintenance-done"
  const BUILDER: string := "builder-started"
  const STANDALONE: string := "builder-standalone"

  datatype Lane = Serving | Builder

  datatype Outcome = Ok | Failed | BudgetExceeded | Shutdown

  datatype Phase = Phase(name: string, budget: int, startedAt: int, took: nat, outcome: Outcome, beside: seq<Lane>)

  // A step, with how it behaves on this occasion: how long it takes, whether it errs, and how long the lane itself
  // takes
  // between reading the clock for it and starting it.
  datatype Step = Step(name: string, budget: int, takes: nat, errs: bool, gap: nat)

  // The timeline, the clock it reads, and the steps that really ran.
  datatype Timeline = Timeline(clock: int, phases: seq<Phase>, marks: map<string, int>, order: seq<string>,
      ran: seq<string>)

  // ----------------------------------------------------------------------------- marks and phases

  function Marked(t: Timeline, name: string): Timeline {
    if name in t.marks then t else t.(marks := t.marks[name := t.clock], order := t.order + [name])
  }

  function Beside(t: Timeline): seq<Lane> {
    (if LISTEN in t.marks then [Serving] else []) + (if BUILDER in t.marks then [Builder] else [])
  }

  predicate Down(shutdownAt: Option<int>, clock: int) {
    shutdownAt.Some? && shutdownAt.value <= clock
  }

  function Classified(errs: bool, budget: int, took: nat, down: bool): Outcome {
    if !errs then Ok
    else if down then Shutdown
    else if budget < 0 || (budget > 0 && budget <= took) then BudgetExceeded
    else Failed
  }

  /** One step under a budget; a negative budget records it without running it. */
  function Performed(t: Timeline, step: Step, budget: int, shutdownAt: Option<int>): Timeline {
    var took := if budget < 0 then 0 else step.takes;
    var clock := t.clock + took;
    var outcome := Classified(budget < 0 || step.errs, budget, took, Down(shutdownAt, clock));
    t.(clock := clock,
       phases := t.phases + [Phase(step.name, budget, t.clock, took, outcome, Beside(t))],
       ran := if budget < 0 then t.ran else t.ran + [step.name])
  }

  /** What the lane hands a step: nothing, the remainder, or the step's own budget. */
  function Handed(total: int, elapsed: int, own: int): int {
    if total <= 0 then own
    else if total - elapsed <= 0 then -1
    else if own <= 0 || own > total - elapsed then total - elapsed
    else own
  }

  function LaneStep(t: Timeline, laneStart: int, total: int, step: Step, shutdownAt: Option<int>): Timeline {
    Performed(t.(clock := t.clock + step.gap), step, Handed(total, t.clock - laneStart, step.budget), shutdownAt)
  }

  /** The lane over the first steps; it stops for good at the first step it would start after shutdown. */
  function LaneRun(t: Timeline, laneStart: int, total: int, steps: seq<Step>, shutdownAt: Option<int>): Timeline
    decreases |steps|
  {
    if steps == [] || Down(shutdownAt, t.clock) then t
    else LaneRun(LaneStep(t, laneStart, total, steps[0], shutdownAt), laneStart, total, steps[1..], shutdownAt)
  }

  datatype Boot = Boot(timeline: Timeline, builderStarted: bool)

  /** The whole schedule: the lane, the mark that ends it, and the Builder if one was deferred. */
  function Booted(t: Timeline, total: int, steps: seq<Step>, deferred: bool, shutdownAt: Option<int>): Boot {
    var lane := LaneRun(t, t.clock, total, steps, shutdownAt);
    if |lane.phases| - |t.phases| < |steps| then Boot(lane, false)
    else
      var marked := Marked(lane, MAINTENANCE_DONE);
      if !deferred then Boot(Marked(marked, STANDALONE), false)
      else if Down(shutdownAt, lane.clock) then Boot(marked, false)
      else Boot(Marked(marked, BUILDER), true)
  }

  // ----------------------------------------------------------------------------- the timeline and the schedule

  class BootTimeline {
    var clock: int
    var phases: seq<Phase>
    var marks: map<string, int>
    var order: seq<string>
    ghost var ran: seq<string>

    ghost function Value(): Timeline
      reads this
    {
      Timeline(clock, phases, marks, order, ran)
    }

    constructor (start: int)
      ensures Value() == Timeline(start, [], map[], [], [])
    {
      clock := start;
      phases, marks, order, ran := [], map[], [], [];
    }

    method Mark(name: string)
      modifies this
      ensures Value() == Marked(old(Value()), name)
    {
      if name in marks {
        return;
      }
      marks := marks[name := clock];
      order := order + [name];
    }

    method ConcurrentLanes() returns (lanes: seq<Lane>)
      ensures lanes == Beside(Value())
    {
      lanes := [];
      if LISTEN in marks {
        lanes := lanes + [Serving];
      }
      if BUILDER in marks {
        lanes := lanes + [Builder];
      }
    }

    method RunStep(step: Step, budget: int, shutdownAt: Option<int>)
      modifies this
      ensures Value() == Performed(old(Value()), step, budget, shutdownAt)
    {
      var concurrent := ConcurrentLanes();
      var started := clock;
      var errs := true;
      if budget >= 0 {
        clock := clock + step.takes;
        errs := step.errs;
        ran := ran + [step.name];
      }
      var took := clock - started;
      var outcome := Ok;
      if errs {
        if Down(shutdownAt, clock) {
          outcome := Shutdown;
        } else if budget < 0 || (budget > 0 && took >= budget) {
          outcome := BudgetExceeded;
        } else {
          outcome := Failed;
        }
      }
      phases := phases + [Phase(step.name, budget, started, took, outcome, concurrent)];
    }
  }

  class BootSchedule {
    const timeline: BootTimeline
    const total: int
    var builderDeferred: bool
    var builderStarts: nat
    var done: bool

    constructor (tl: BootTimeline, budget: int)
      ensures timeline == tl && total == budget && !builderDeferred && builderStarts == 0 && !done
    {
      timeline, total := tl, budget;
      builderDeferred, builderStarts, done := false, 0, false;
    }

    method DeferBuilder()
      modifies this`builderDeferred
      ensures builderDeferred
    {
      builderDeferred := true;
    }

    /** Closing `done` twice is an error, so a schedule runs once. */
    method Run(steps: seq<Step>, shutdownAt: Option<int>)
      requires !done
      modifies this`builderStarts, this`done, timeline
      ensures done
      ensures var boot := Booted(old(timeline.Value()), total, steps, builderDeferred, shutdownAt);
              timeline.Value() == boot.timeline && builderStarts == old(builderStarts) + if boot.builderStarted then 1
                else 0
    {
      done := true;
      var finished := RunLane(steps, shutdownAt);
      if !finished {
        return;
      }
      timeline.Mark(MAINTENANCE_DONE);
      if !builderDeferred {
        timeline.Mark(STANDALONE);
      } else if Down(shutdownAt, timeline.clock) {
        return;
      } else {
        timeline.Mark(BUILDER);
        builderStarts := builderStarts + 1;
      }
    }

    method RunLane(steps: seq<Step>, shutdownAt: Option<int>) returns (finished: bool)
      modifies timeline
      ensures timeline.Value() == LaneRun(old(timeline.Value()), old(timeline.clock), total, steps, shutdownAt)
      ensures finished <==> |timeline.phases| - |old(timeline.phases)| == |steps|
      ensures !finished ==> |timeline.phases| - |old(timeline.phases)| < |steps|
    {
      hide Performed;
      ghost var lane := LaneRun(timeline.Value(), timeline.clock, total, steps, shutdownAt);
      var laneStart := timeline.clock;
      assert steps[0..] == steps;
      for i := 0 to |steps|
        invariant lane == LaneRun(timeline.Value(), laneStart, total, steps[i..], shutdownAt)
        invariant |timeline.phases| == |old(timeline.phases)| + i
      {
        var remaining := total - (timeline.clock - laneStart);
        var budget := steps[i].budget;
        if total > 0 {
          if remaining <= 0 {
            budget := -1;
          } else if budget <= 0 || budget > remaining {
            budget := remaining;
          }
        }
        assert budget == Handed(total, timeline.clock - laneStart, steps[i].budget);
        if Down(shutdownAt, timeline.clock) {
          return false;
        }
        ghost var before := timeline.Value();
        timeline.clock := timeline.clock + steps[i].gap;
        PerformedOne(timeline.Value(), steps[i], budget, shutdownAt);
        timeline.RunStep(steps[i], budget, shutdownAt);
        assert timeline.Value() == LaneStep(before, laneStart, total, steps[i], shutdownAt);
        assert steps[i..][1..] == steps[i + 1..];
      }
      return true;
    }
  }

  lemma PerformedOne(t: Timeline, step: Step, budget: int, shutdownAt: Option<int>)
    ensures |Performed(t, step, budget, shutdownAt).phases| == |t.phases| + 1
  {
  }

  // ----------------------------------------------------------------------------- laws of the lane

  lemma {:induction false} LaneRecords(t: Timeline, laneStart: int, total: int, steps: seq<Step>,
      shutdownAt: Option<int>)
    ensures var lane := LaneRun(t, laneStart, total, steps, shutdownAt);
            && t.phases <= lane.phases && |lane.phases| <= |t.phases| + |steps|
            && (forall i | |t.phases| <= i < |lane.phases| :: lane.phases[i].name == steps[i - |t.phases|].name)
            && lane.marks == t.marks && lane.order == t.order && t.clock <= lane.clock
    decreases |steps|
  {
    hide Classified, Beside, Handed;
    if steps != [] && !Down(shutdownAt, t.clock) {
      LaneRecords(LaneStep(t, laneStart, total, steps[0], shutdownAt), laneStart, total, steps[1..], shutdownAt);
    }
  }

  function Gaps(steps: seq<Step>): nat {
    if steps == [] then 0 else steps[0].gap + Gaps(steps[1..])
  }

  /** A step that ran under a deadline returned by it. */
  predicate Obeyed(p: Phase) {
    p.budget > 0 ==> p.took <= p.budget
  }

  predicate Obedient(before: Timeline, after: Timeline) {
    forall i | |before.phases| <= i < |after.phases| :: Obeyed(after.phases[i])
  }

  lemma {:induction false} LaneEndsBy(t: Timeline, laneStart: int, total: int, steps: seq<Step>,
      shutdownAt: Option<int>)
    requires total > 0
    requires Obedient(t, LaneRun(t, laneStart, total, steps, shutdownAt))
    ensures var end := if t.clock <= laneStart + total then laneStart + total else t.clock;
            LaneRun(t, laneStart, total, steps, shutdownAt).clock <= end + Gaps(steps)
    decreases |steps|
  {
    if steps != [] && !Down(shutdownAt, t.clock) {
      var next := LaneStep(t, laneStart, total, steps[0], shutdownAt);
      LaneRecords(next, laneStart, total, steps[1..], shutdownAt);
      assert LaneRun(next, laneStart, total, steps[1..], shutdownAt).phases[|t.phases|] == next.phases[|t.phases|];
      assert Obeyed(next.phases[|t.phases|]);
      LaneEndsBy(next, laneStart, total, steps[1..], shutdownAt);
    }
  }

  /**
    With a positive total and steps that heed their deadlines, the lane holds the Builder up for the total at most,
    beside what the lane itself takes between steps.
  */
  lemma LaneEndsWithinTotal(t: Timeline, total: int, steps: seq<Step>, deferred: bool, shutdownAt: Option<int>)
    requires total > 0
    requires Obedient(t, LaneRun(t, t.clock, total, steps, shutdownAt))
    ensures Booted(t, total, steps, deferred, shutdownAt).timeline.clock <= t.clock + total + Gaps(steps)
  {
    LaneEndsBy(t, t.clock, total, steps, shutdownAt);
  }

  /** What is recorded of a step that the lane reached: its budget, its time, and why it ended as it did. */
  predicate Faithful(p: Phase, step: Step, laneStart: int, total: int, shutdownAt: Option<int>) {
    && p.name == step.name
    && (total > 0 ==> (p.budget < 0 <==> laneStart + total <= p.startedAt - step.gap))
    && (total > 0 && p.budget >= 0 ==>
      var left := laneStart + total - (p.startedAt - step.gap);
      0 < p.budget && p.budget == if 0 < step.budget < left then step.budget else left)
    && (total <= 0 ==> p.budget == step.budget)
    && p.took == (if p.budget < 0 then 0 else step.takes)
    && var erred, down := p.budget < 0 || step.errs, Down(shutdownAt, p.startedAt + p.took);
       && (p.outcome.Ok? <==> !erred)
       && (p.outcome.Shutdown? <==> erred && down)
       && (p.outcome.BudgetExceeded? <==> erred && !down && (p.budget < 0 || 0 < p.budget <= p.took))
       && (p.outcome.Failed? <==> erred && !down && (p.budget == 0 || p.took < p.budget))
  }

  /** A record names the lanes that were live when its step began. */
  lemma BesideIsWhatIsLive(t: Timeline)
    ensures Serving in Beside(t) <==> "listen" in t.marks
    ensures Builder in Beside(t) <==> "builder-started" in t.marks
  {
  }

  function RanNames(phases: seq<Phase>): seq<string> {
    if phases == [] then []
    else RanNames(phases[..|phases| - 1]) + if phases[|phases| - 1].budget < 0 then [] else [phases[|phases| - 1].name]
  }

  /** The timeline's list of steps that ran is the list of records that were not skipped. */
  predicate RanAsRecorded(t: Timeline) {
    t.ran == RanNames(t.phases)
  }

  lemma LaneStepIsFaithful(t: Timeline, laneStart: int, total: int, step: Step, shutdownAt: Option<int>)
    requires RanAsRecorded(t)
    ensures var next := LaneStep(t, laneStart, total, step, shutdownAt);
            && next.phases == t.phases + [next.phases[|t.phases|]]
              && Faithful(next.phases[|t.phases|], step, laneStart, total, shutdownAt)
            && next.phases[|t.phases|].beside == Beside(t)
            && RanAsRecorded(next)
  {
    var next := LaneStep(t, laneStart, total, step, shutdownAt);
    assert next.phases[..|t.phases|] == t.phases;
  }

  /**
    Every step the lane reached is recorded once, in order, run exactly when its record says so, and skipped exactly
    when the total was spent; without a shutdown the lane reaches them all, and none of them ran beside a Builder that
    the lane had not found running.
  */
  lemma {:induction false} EveryStepIsRecordedOnce(t: Timeline, laneStart: int, total: int, steps: seq<Step>,
      shutdownAt: Option<int>)
    requires RanAsRecorded(t)
    ensures var lane := LaneRun(t, laneStart, total, steps, shutdownAt);
            && t.phases <= lane.phases && |lane.phases| - |t.phases| <= |steps|
            && (forall i | |t.phases| <= i < |lane.phases| ::
                 Faithful(lane.phases[i], steps[i - |t.phases|], laneStart, total, shutdownAt)
                   && lane.phases[i].beside == Beside(t))
            && (shutdownAt.None? ==> |lane.phases| == |t.phases| + |steps|)
            && RanAsRecorded(lane)
    decreases |steps|
  {
    hide Faithful, LaneStep, RanAsRecorded;
    if steps != [] && !Down(shutdownAt, t.clock) {
      LaneStepIsFaithful(t, laneStart, total, steps[0], shutdownAt);
      var next := LaneStep(t, laneStart, total, steps[0], shutdownAt);
      assert Beside(next) == Beside(t) by { LaneStepKeepsMarks(t, laneStart, total, steps[0], shutdownAt); }
      EveryStepIsRecordedOnce(next, laneStart, total, steps[1..], shutdownAt);
    }
  }

  lemma LaneStepKeepsMarks(t: Timeline, laneStart: int, total: int, step: Step, shutdownAt: Option<int>)
    ensures LaneStep(t, laneStart, total, step, shutdownAt).marks == t.marks
  {
  }

  // ----------------------------------------------------------------------------- marks over whole runs

  datatype Op = Mark(name: string) | Perform(step: Step, budget: int, shutdownAt: Option<int>) | Wait(time: nat)

  function Applied(t: Timeline, op: Op): Timeline {
    match op
    case Mark(name) => Marked(t, name)
    case Perform(step, budget, shutdownAt) => Performed(t, step, budget, shutdownAt)
    case Wait(time) => t.(clock := t.clock + time)
  }

  function AppliedAll(t: Timeline, ops: seq<Op>): Timeline {
    if ops == [] then t else Applied(AppliedAll(t, ops[..|ops| - 1]), ops[|ops| - 1])
  }

  /** The order lists each mark once, as they happened, and time never runs backwards along it. */
  predicate InOrder(t: Timeline) {
    && (forall i, j | 0 <= i < j < |t.order| :: t.order[i] != t.order[j])
    && (forall name <- t.order :: name in t.marks && t.marks[name] <= t.clock)
    && (forall name <- t.marks :: name in t.order)
    && (forall i, j | 0 <= i < j < |t.order| ::
      t.order[i] in t.marks && t.order[j] in t.marks && t.marks[t.order[i]] <= t.marks[t.order[j]])
  }

  lemma MarkKeepsOrder(t: Timeline, name: string)
    requires InOrder(t)
    ensures InOrder(Marked(t, name))
  {
    if name !in t.marks {
      var u := Marked(t, name);
      assert u.order == t.order + [name];
      assert forall n <- t.order :: n in u.order;
      forall i, j | 0 <= i < j < |u.order|
        ensures u.order[i] != u.order[j]
        ensures u.order[i] in u.marks && u.order[j] in u.marks && u.marks[u.order[i]] <= u.marks[u.order[j]]
      {
        assert u.order[i] == t.order[i] && t.order[i] in t.order;
        if j < |t.order| {
          assert u.order[j] == t.order[j] && t.order[j] in t.order;
        }
      }
    }
  }

  /** One of the operations sets the mark, when the clock stands at that instant. */
  ghost predicate SetDuring(t: Timeline, ops: seq<Op>, name: string, at: int) {
    exists k: nat :: k < |ops| && ops[k] == Mark(name) && AppliedAll(t, ops[..k]).clock == at
  }

  lemma SetDuringMore(t: Timeline, ops: seq<Op>, name: string, at: int)
    requires ops != [] && SetDuring(t, ops[..|ops| - 1], name, at)
    ensures SetDuring(t, ops, name, at)
  {
    var init := ops[..|ops| - 1];
    var k: nat :| k < |init| && init[k] == Mark(name) && AppliedAll(t, init[..k]).clock == at;
    assert init[..k] == ops[..k] && ops[k] == init[k];
  }

  /** A mark is an event: it is set once, at the time it happens, and nothing later moves it or gets in front of it. */
  lemma {:induction false} MarksAreSetOnceInOrder(t: Timeline, ops: seq<Op>)
    requires InOrder(t)
    ensures var u := AppliedAll(t, ops);
            && InOrder(u) && t.order <= u.order && t.clock <= u.clock
            && (forall name <- t.marks :: name in u.marks && u.marks[name] == t.marks[name])
            && (forall name <- u.marks :: name in t.marks || SetDuring(t, ops, name, u.marks[name]))
  {
    hide Performed, Marked, SetDuring;
    if ops == [] {
    } else {
      MarksAreSetOnceInOrder(t, ops[..|ops| - 1]);
      var u, op := AppliedAll(t, ops[..|ops| - 1]), ops[|ops| - 1];
      if op.Mark? {
        MarkKeepsOrder(u, op.name);
      }
      OpExtends(u, op);
      MarksWereSet(t, ops);
    }
  }

  lemma {:induction false} MarksWereSet(t: Timeline, ops: seq<Op>)
    ensures forall name <- AppliedAll(t, ops).marks ::
      name in t.marks || SetDuring(t, ops, name, AppliedAll(t, ops).marks[name])
  {
    hide Performed, Marked, SetDuring;
    if ops == [] {
    } else {
      var init, op := ops[..|ops| - 1], ops[|ops| - 1];
      MarksWereSet(t, init);
      var u := AppliedAll(t, init);
      OpExtends(u, op);
      forall name <- Applied(u, op).marks
        ensures name in t.marks || SetDuring(t, ops, name, Applied(u, op).marks[name])
      {
        if name in u.marks {
          if name !in t.marks {
            SetDuringMore(t, ops, name, u.marks[name]);
          }
        } else {
          SetNow(t, ops, name);
        }
      }
    }
  }

  lemma SetNow(t: Timeline, ops: seq<Op>, name: string)
    requires ops != [] && ops[|ops| - 1] == Mark(name)
    ensures SetDuring(t, ops, name, AppliedAll(t, ops[..|ops| - 1]).clock)
  {
    hide AppliedAll;
    assert ops[|ops| - 1] == Mark(name);
  }

  lemma OpExtends(t: Timeline, op: Op)
    ensures t.order <= Applied(t, op).order && t.clock <= Applied(t, op).clock
    ensures forall name <- t.marks :: name in Applied(t, op).marks && Applied(t, op).marks[name] == t.marks[name]
    ensures !op.Mark? ==> Applied(t, op).marks == t.marks && Applied(t, op).order == t.order
    ensures forall name <- Applied(t, op).marks ::
      name in t.marks || (op == Mark(name) && Applied(t, op).marks[name] == t.clock)
  {
  }

  /**
    The Builder starts exactly when one was deferred, the lane reached every step and no shutdown intervened; then it
    starts after the mark that ends maintenance.
  */
  lemma BuilderStartsLast(t: Timeline, total: int, steps: seq<Step>, deferred: bool, shutdownAt: Option<int>)
    requires RanAsRecorded(t) && InOrder(t) && BUILDER !in t.marks
    ensures var boot := Booted(t, total, steps, deferred, shutdownAt);
            var lane := LaneRun(t, t.clock, total, steps, shutdownAt);
            && (boot.builderStarted <==>
              && deferred && |lane.phases| == |t.phases| + |steps|
              && !Down(shutdownAt, lane.clock))
            && (shutdownAt.None? ==> boot.builderStarted == deferred)
            && (|lane.phases| == |t.phases| + |steps| ==> MAINTENANCE_DONE in boot.timeline.marks)
            && (boot.builderStarted <==> BUILDER in boot.timeline.marks)
            && (!deferred && shutdownAt.None? ==> STANDALONE in boot.timeline.marks)
            && (STANDALONE in boot.timeline.marks ==> STANDALONE in t.marks || !deferred)
            && (boot.builderStarted ==>
                 && MAINTENANCE_DONE in boot.timeline.marks
                   && boot.timeline.marks[MAINTENANCE_DONE] <= boot.timeline.marks[BUILDER]
                 && boot.timeline.order != [] && boot.timeline.order[|boot.timeline.order| - 1] == BUILDER)
            && forall i | |t.phases| <= i < |boot.timeline.phases| :: Builder !in boot.timeline.phases[i].beside
  {
    hide Faithful, RanAsRecorded, LaneRun;
    EveryStepIsRecordedOnce(t, t.clock, total, steps, shutdownAt);
    LaneRecords(t, t.clock, total, steps, shutdownAt);
  }
}
