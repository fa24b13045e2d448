/**
  From every reachable state the worker, left alone with a store that answers, settles all that is queued or staged.
*/
module ActivityProgress {
  import opened Wrappers
  import opened ActivityStore
  import opened ActivityProtocol
  import opened ActivityConservation
  import opened ActivityRefinement

  /** A stretch of a run, with the steps it took. */
  ghost predicate Leads(cfg: Config, run: seq<State>, steps: seq<Step>) {
    && |run| == |steps| + 1
    && forall i | 0 <= i < |steps| :: Listed(run[i]) && run[i + 1] == Apply(cfg, run[i], steps[i])
  }

  /** The worker's own steps, its store calls succeeding. */
  predicate IsWorkerStep(step: Step) {
    step.Take? || step.Tick? || step.SeeStop? || step.DrainIsEmpty? || step.CheckDay? || step.CheckMonth?
      || step.EndChecks?
    || step.Pick? || step.EndPicks? || step.WriteOk? || step.RememberRows? || step.Settle?
  }

  predicate AllWorkers(steps: seq<Step>) {
    forall i | 0 <= i < |steps| :: IsWorkerStep(steps[i])
  }

  function Last(run: seq<State>): State
    requires run != []
  {
    run[|run| - 1]
  }

  /** What a flush still has to pick is mentioned by its batch. */
  ghost predicate TodoIsMentioned(s: State) {
    Listed(s) && (s.worker.Flushing? && s.worker.stage.Picking? ==>
      forall id <- s.worker.stage.todo :: Mention(Buckets(s), id).Some?)
  }

  // ----------------------------------------------------------------------------- an invariant of picking

  lemma ChecksEndedMentions(s: State)
    requires Listed(s)
    ensures TodoIsMentioned(s) ==> TodoIsMentioned(ChecksEnded(s))
  {
    var t := ChecksEnded(s);
    if t != s {
      assert Buckets(t) == Buckets(s);
      forall id <- t.worker.stage.todo ensures Mention(Buckets(t), id).Some? {
        var b :| b in Buckets(s) && b.id == id;
        var i :| 0 <= i < |Buckets(s)| && Buckets(s)[i] == b;
        MentionAt(Buckets(s), i);
      }
    }
  }

  lemma EnteredMentions(s: State, o: Observation)
    requires TodoIsMentioned(s)
    ensures TodoIsMentioned(Entered(s, o))
  {
    if Entered(s, o) != s {
      ObservationsOfMore(s.admitted, o, s.batch);
      assert Buckets(Entered(s, o)) == Buckets(s);
    }
  }

  /** Unless the flush stage or the admitted observations change, nothing does. */
  lemma FrameMentions(s: State, t: State)
    requires TodoIsMentioned(s) && Listed(t) && PickingGoesOn(s, t)
    ensures TodoIsMentioned(t)
  {
    if t.worker.Flushing? && t.worker.stage.Picking? {
      assert Buckets(s) == Buckets(t);
    }
  }

  predicate PickingGoesOn(s: State, t: State) {
    t.worker.Flushing? && t.worker.stage.Picking? ==>
      && t.batch == s.batch && t.admitted == s.admitted && s.worker.Flushing? && s.worker.stage.Picking?
      && t.worker.stage.todo <= s.worker.stage.todo
  }

  lemma PickingGoesOnForWorker(cfg: Config, s: State, step: Step)
    requires Listed(s) && !step.EndChecks? && (IsWorkerStep(step) || step.WriteFails?)
    ensures PickingGoesOn(s, Apply(cfg, s, step))
  {
    hide Buckets, RecordEach, RememberedAll, Mention, NeedsWrite, InGate;
  }

  lemma PickingGoesOnForOthers(cfg: Config, s: State, step: Step)
    requires Listed(s) && !step.Enter? && !IsWorkerStep(step) && !step.WriteFails?
    ensures PickingGoesOn(s, Apply(cfg, s, step))
  {
    hide Buckets, RecordEach, RememberedAll, Mention, NeedsWrite, InGate;
  }

  lemma StepKeepsMentions(cfg: Config, existing: Store, s: State, step: Step)
    requires Inv(cfg, existing, s) && TodoIsMentioned(s)
    ensures TodoIsMentioned(Apply(cfg, s, step))
  {
    hide Apply, Inv, TodoIsMentioned;
    ListedFrom(s);
    StepKeeps(cfg, existing, s, step);
    InvIsListed(cfg, existing, Apply(cfg, s, step));
    if step.EndChecks? {
      EndChecksIs(cfg, s);
      ChecksEndedMentions(s);
    } else if step.Enter? {
      EnterIs(cfg, s, step.o);
      EnteredMentions(s, step.o);
    } else {
      if IsWorkerStep(step) || step.WriteFails? {
        PickingGoesOnForWorker(cfg, s, step);
      } else {
        PickingGoesOnForOthers(cfg, s, step);
      }
      FrameMentions(s, Apply(cfg, s, step));
    }
  }

  lemma EndChecksIs(cfg: Config, s: State)
    requires Listed(s)
    ensures Apply(cfg, s, EndChecks) == ChecksEnded(s)
  {
  }

  lemma EnterIs(cfg: Config, s: State, o: Observation)
    requires Listed(s)
    ensures Apply(cfg, s, Enter(o)) == Entered(s, o)
  {
  }

  lemma {:induction false} TraceKeepsMentions(cfg: Config, existing: Store, run: seq<State>, steps: seq<Step>, i: nat)
    requires IsTrace(cfg, existing, run, steps) && i < |run|
    ensures TodoIsMentioned(run[i])
  {
    hide Apply, Inv, TodoIsMentioned;
    if i == 0 {
      NothingToPick(existing);
    } else {
      TraceKeepsMentions(cfg, existing, run, steps, i - 1);
      TraceKeeps(cfg, existing, run, steps, i - 1);
      assert run[i] == Apply(cfg, run[i - 1], steps[i - 1]);
      StepKeepsMentions(cfg, existing, run[i - 1], steps[i - 1]);
    }
  }

  lemma NothingToPick(existing: Store)
    ensures TodoIsMentioned(Init(existing))
  {
  }

  // ----------------------------------------------------------------------------- one flush

  function StageRank(stage: Stage): nat {
    match stage
    case Checking(_, _, _) => 5
    case Picking(_, _, _) => 4
    case Writing(_, _) => 3
    case Remembering(_) => 2
    case Settling => 1
  }

  /** How much is left of the stage the flush is in. */
  function WithinStage(s: State): nat
    requires s.worker.Flushing?
  {
    match s.worker.stage
    case Checking(i, dayClear, _) =>
      if i < |s.batch| then 2 * (|s.batch| - i) + (if dayClear then 0 else 1) else 0
    case Picking(todo, _, _) => |todo|
    case _ => 0
  }

  /** The next step of a flush. */
  ghost function NextOfFlush(s: State): (step: Step)
    requires s.worker.Flushing?
    ensures IsWorkerStep(step)
  {
    match s.worker.stage
    case Checking(i, dayClear, _) => if i >= |s.batch| then EndChecks else if dayClear then CheckMonth else CheckDay
    case Picking(todo, _, _) => if todo == {} then EndPicks else Pick(var id :| id in todo; id)
    case Writing(_, _) => WriteOk
    case Remembering(_) => RememberRows
    case Settling => Settle
  }

  /** The flush has come nearer to its end. */
  predicate Nearer(s: State, t: State)
    requires s.worker.Flushing?
  {
    && t.queue == s.queue && t.stopped == s.stopped
    && if s.worker.stage.Settling? then t.worker == AfterFlush(s.worker.next) && t.batch == []
       else
         && t.worker.Flushing? && t.worker.next == s.worker.next && t.batch == s.batch
         && (StageRank(t.worker.stage) < StageRank(s.worker.stage)
             || (StageRank(t.worker.stage) == StageRank(s.worker.stage) && WithinStage(t) < WithinStage(s)))
  }

  lemma CheckingMoves(cfg: Config, s: State)
    requires Listed(s) && s.worker.Flushing? && s.worker.stage.Checking?
    ensures Nearer(s, Apply(cfg, s, NextOfFlush(s)))
  {
    hide Buckets, NeedsWrite;
  }

  lemma PickMoves(cfg: Config, s: State, id: Identity)
    requires TodoIsMentioned(s) && s.worker.Flushing? && s.worker.stage.Picking? && id in s.worker.stage.todo
    ensures Nearer(s, Apply(cfg, s, Pick(id)))
  {
    hide Buckets, NeedsWrite, Mention;
    var todo := s.worker.stage.todo;
    assert todo == (todo - {id}) + {id};
  }

  lemma EndingMoves(cfg: Config, s: State)
    requires Listed(s) && s.worker.Flushing? && !s.worker.stage.Checking?
    requires s.worker.stage.Picking? ==> s.worker.stage.todo == {}
    ensures Nearer(s, Apply(cfg, s, NextOfFlush(s)))
  {
    hide Buckets, RecordEach, RememberedAll;
  }

  lemma FlushMoves(cfg: Config, s: State)
    requires TodoIsMentioned(s) && s.worker.Flushing?
    ensures Nearer(s, Apply(cfg, s, NextOfFlush(s)))
  {
    hide Apply, Nearer, TodoIsMentioned;
    ListedFrom(s);
    if s.worker.stage.Checking? {
      CheckingMoves(cfg, s);
    } else if s.worker.stage.Picking? && s.worker.stage.todo != {} {
      PickMoves(cfg, s, NextOfFlush(s).id);
    } else {
      EndingMoves(cfg, s);
    }
  }

  lemma LeadsOn(cfg: Config, s: State, step: Step, run: seq<State>, steps: seq<Step>)
    requires Listed(s) && Leads(cfg, run, steps) && run[0] == Apply(cfg, s, step) && IsWorkerStep(step)
      && AllWorkers(steps)
    ensures Leads(cfg, [s] + run, [step] + steps) && AllWorkers([step] + steps) && Last([s] + run) == Last(run)
  {
    hide Apply;
  }

  lemma LeadsJoin(cfg: Config, a: seq<State>, p: seq<Step>, b: seq<State>, q: seq<Step>)
    requires Leads(cfg, a, p) && Leads(cfg, b, q) && Last(a) == b[0] && AllWorkers(p) && AllWorkers(q)
    ensures Leads(cfg, a + b[1..], p + q) && AllWorkers(p + q) && Last(a + b[1..]) == Last(b) && (a + b[1..])[0] == a[0]
  {
    hide Apply;
    var run, steps := a + b[1..], p + q;
    forall i | 0 <= i < |steps| ensures Listed(run[i]) && run[i + 1] == Apply(cfg, run[i], steps[i]) {
      if i < |p| {
        assert run[i] == a[i] && run[i + 1] == a[i + 1] && steps[i] == p[i];
      } else {
        assert run[i] == b[i - |p|] && run[i + 1] == b[i - |p| + 1] && steps[i] == q[i - |p|];
      }
    }
  }

  /** A flush that is left alone ends: its batch is settled and the queue is as it was. */
  lemma {:induction false} FlushCompletes(cfg: Config, existing: Store, s: State) returns (run: seq<State>,
      steps: seq<Step>)
    requires Inv(cfg, existing, s) && TodoIsMentioned(s) && s.worker.Flushing?
    ensures Leads(cfg, run, steps) && AllWorkers(steps) && run[0] == s
    ensures var t := Last(run);
      && Inv(cfg, existing, t) && TodoIsMentioned(t)
      && t.worker == AfterFlush(s.worker.next) && t.batch == [] && t.queue == s.queue && t.stopped == s.stopped
    decreases StageRank(s.worker.stage), WithinStage(s)
  {
    hide Inv, TodoIsMentioned, Apply, NextOfFlush;
    ListedFrom(s);
    var step := NextOfFlush(s);
    FlushMoves(cfg, s);
    StepKeeps(cfg, existing, s, step) by { InvIsListed(cfg, existing, s); }
    StepKeepsMentions(cfg, existing, s, step);
    var t := Apply(cfg, s, step);
    if s.worker.stage.Settling? {
      run, steps := [t], [];
    } else {
      run, steps := FlushCompletes(cfg, existing, t);
    }
    LeadsOn(cfg, s, step, run, steps);
    run, steps := [s] + run, [step] + steps;
  }

  lemma ListedFrom(s: State)
    requires TodoIsMentioned(s)
    ensures Listed(s)
  {
  }

  lemma InvIsListed(cfg: Config, existing: Store, s: State)
    requires Inv(cfg, existing, s)
    ensures Listed(s)
  {
  }

  // ----------------------------------------------------------------------------- the whole worker

  predicate Idle(s: State) {
    s.queue == [] && s.batch == [] && if s.stopped then s.worker.Done? else s.worker.Running?
  }

  /** The step a worker that is not flushing takes next. */
  function NextOfWorker(s: State): (step: Step)
    ensures IsWorkerStep(step)
  {
    if s.worker.Running? && s.stopped then SeeStop
    else if s.queue != [] then Take
    else if s.worker.Draining? then DrainIsEmpty
    else Tick
  }

  /** How far a worker that is not flushing is from its rest. */
  function Distance(s: State): nat {
    3 * |s.queue| + (if s.batch == [] then 0 else 1) + (if s.worker.Running? && s.stopped then 2 else 0)
      + (if s.worker.Draining? then 1 else 0)
  }

  /** Where a flush leaves the worker. */
  function Flushed(s: State): State {
    if s.worker.Flushing? then s.(worker := AfterFlush(s.worker.next), batch := []) else s
  }

  lemma WorkerMoves(cfg: Config, s: State)
    requires Listed(s) && !s.worker.Flushing? && !s.worker.Done? && !Idle(s) && (s.worker.Draining? ==> s.stopped)
    ensures var t := Apply(cfg, s, NextOfWorker(s)); t.stopped == s.stopped && Distance(Flushed(t)) < Distance(s)
  {
    hide Buckets, RecordEach;
  }

  lemma GateFacts(cfg: Config, existing: Store, s: State)
    requires Inv(cfg, existing, s)
    ensures s.worker.Done? ==> s.queue == [] && s.batch == [] && s.stopped
    ensures s.worker.Draining? ==> s.stopped
  {
    hide PlacesInv, CountsInv, StageInv, MemoryInv, Accounted;
  }

  /** The worker's next step and, if that begins a flush, the flush. */
  lemma WorkerGoesOn(cfg: Config, existing: Store, s: State) returns (run: seq<State>, steps: seq<Step>)
    requires Inv(cfg, existing, s) && TodoIsMentioned(s) && !s.worker.Flushing? && !Idle(s)
    ensures Leads(cfg, run, steps) && AllWorkers(steps) && run[0] == s
    ensures var t := Last(run);
      && Inv(cfg, existing, t) && TodoIsMentioned(t) && !t.worker.Flushing? && t.stopped == s.stopped
      && Distance(t) < Distance(s)
  {
    hide Inv, TodoIsMentioned, Apply, NextOfWorker;
    ListedFrom(s);
    GateFacts(cfg, existing, s);
    var step := NextOfWorker(s);
    WorkerMoves(cfg, s);
    StepKeeps(cfg, existing, s, step);
    StepKeepsMentions(cfg, existing, s, step);
    var t := Apply(cfg, s, step);
    if t.worker.Flushing? {
      run, steps := FlushCompletes(cfg, existing, t);
    } else {
      run, steps := [t], [];
    }
    LeadsOn(cfg, s, step, run, steps);
    run, steps := [s] + run, [step] + steps;
  }

  lemma {:induction false} WorkerComesToRest(cfg: Config, existing: Store, s: State)
    returns (run: seq<State>, steps: seq<Step>)
    requires Inv(cfg, existing, s) && TodoIsMentioned(s) && !s.worker.Flushing?
    ensures Leads(cfg, run, steps) && AllWorkers(steps) && run[0] == s
    ensures Inv(cfg, existing, Last(run)) && Idle(Last(run)) && Last(run).stopped == s.stopped
    decreases Distance(s)
  {
    hide Inv, TodoIsMentioned, Apply, Leads, Idle, AllWorkers, Last;
    if Idle(s) {
      run, steps := [s], [];
      AloneLeads(cfg, s);
    } else {
      var a, p := WorkerGoesOn(cfg, existing, s);
      LeadsIsLong(cfg, a, p);
      var b, q := WorkerComesToRest(cfg, existing, Last(a));
      LeadsIsLong(cfg, b, q);
      LeadsJoin(cfg, a, p, b, q);
      run, steps := a + b[1..], p + q;
    }
  }

  lemma AloneLeads(cfg: Config, s: State)
    ensures Leads(cfg, [s], []) && AllWorkers([]) && Last([s]) == s
  {
  }

  lemma LeadsIsLong(cfg: Config, run: seq<State>, steps: seq<Step>)
    requires Leads(cfg, run, steps)
    ensures |run| == |steps| + 1
  {
  }

  /**
    From every point of every run the worker's own steps, the store answering, lead to a state in which nothing is
    queued or staged, every observation outside the gate is stored or was counted as dropped, and the worker is waiting,
    or done if the stop was signaled. So a shutdown whose handlers have left comes to its end.
  */
  lemma WorkerSettlesEverything(cfg: Config, existing: Store, trace: seq<State>, taken: seq<Step>, i: nat)
    returns (run: seq<State>, steps: seq<Step>)
    requires IsTrace(cfg, existing, trace, taken) && i < |trace|
    ensures Leads(cfg, run, steps) && AllWorkers(steps) && run[0] == trace[i]
    ensures var t := Last(run);
      && Idle(t) && t.stopped == trace[i].stopped && Listed(t)
      && forall h: nat | h < |t.admitted| && !InGate(t.handlers[h]) ::
        h in t.lost || CoversObservation(t.store, t.admitted[h])
  {
    hide Inv, TodoIsMentioned, IsTrace, Leads, AllWorkers, Last, Idle;
    var s := trace[i];
    TraceKeeps(cfg, existing, trace, taken, i);
    TraceKeepsMentions(cfg, existing, trace, taken, i);
    if s.worker.Flushing? {
      var a, p := FlushCompletes(cfg, existing, s);
      LeadsIsLong(cfg, a, p);
      var b, q := WorkerComesToRest(cfg, existing, Last(a));
      LeadsIsLong(cfg, b, q);
      LeadsJoin(cfg, a, p, b, q);
      run, steps := a + b[1..], p + q;
    } else {
      run, steps := WorkerComesToRest(cfg, existing, s);
      LeadsIsLong(cfg, run, steps);
    }
    RestIsAccounted(cfg, existing, Last(run));
  }

  lemma RestIsAccounted(cfg: Config, existing: Store, s: State)
    requires Inv(cfg, existing, s) && Idle(s)
    ensures Listed(s)
    ensures forall h: nat | h < |s.admitted| && !InGate(s.handlers[h]) ::
      h in s.lost || CoversObservation(s.store, s.admitted[h])
  {
    hide CountsInv, StageInv, MemoryInv, GateInv, Covers;
    forall h: nat | h < |s.admitted| && !InGate(s.handlers[h])
      ensures h in s.lost || CoversObservation(s.store, s.admitted[h])
    {
      assert Accounted(s, h);
    }
  }
}
