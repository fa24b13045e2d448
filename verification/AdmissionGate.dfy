/**
  The package cache-miss gate: four slots, visitors of many requests, one allowance per request.

  The system is a sequence of steps; a step that is not enabled leaves the state alone. Timers fire no later than their
  deadline, so time does not pass the deadline of a visitor who is still waiting.
*/
module AdmissionGate {
  import opened Wrappers
  import opened AdmissionClock

  const SLOTS: nat := 4
  const REFRESH_WAIT: int := 250       // ticks a read with no clock stands at the gate
  const SHIPPED_ALLOWANCE: int := 3000 // ticks one interactive request may stand there in all

  function Allowance(configured: int): (b: int)
    ensures b > 0
  {
    if configured > 0 then configured else SHIPPED_ALLOWANCE
  }

  datatype Phase =
    | Waiting(deadline: int, wait: nat)  // the wait's position in its request's history
    | Holding
    | Refused
    | Left
    | Served

  // `request` is absent for a read with no clock: only interactive requests have an allowance.
  datatype Visitor = Visitor(request: Option<nat>, phase: Phase)

  // `owners[k]` is the visitor whose wait `waits[k]` is.
  datatype Request = Request(clock: Clock, waits: seq<Wait>, owners: seq<nat>)

  datatype Gate = Gate(now: int, requests: seq<Request>, visitors: seq<Visitor>)

  datatype Step =
    | Pass(until: int)
    | NewRequest
    | AskWithoutClock
    | Ask(r: nat)
    | Admit(i: nat)
    | CancelWait(i: nat)
    | TimeOut(i: nat)
    | Finish(i: nat)

  function Init(now: int): Gate {
    Gate(now, [], [])
  }

  function Held(visitors: seq<Visitor>): nat {
    if visitors == [] then 0
    else Held(visitors[..|visitors| - 1]) + (if visitors[|visitors| - 1].phase.Holding? then 1 else 0)
  }

  /** The visitor's wait is over, one way or another. */
  function StopWaiting(g: Gate, i: nat, phase: Phase): Gate
    requires i < |g.visitors| && g.visitors[i].phase.Waiting?
  {
    var v := g.visitors[i];
    var h := g.(visitors := g.visitors[i := v.(phase := phase)]);
    if v.request.None? || v.request.value >= |g.requests| then h else
    var r := v.request.value;
    var q := g.requests[r];
    var k := v.phase.wait;
    var waits := if k < |q.waits| then q.waits[k := Wait(q.waits[k].start, Some(g.now))] else q.waits;
    h.(requests := g.requests[r := q.(clock := Ended(q.clock, g.now), waits := waits)])
  }

  /** A visitor of the request joins the waiters. */
  function StartWaiting(g: Gate, r: nat, deadline: int): Gate
    requires r < |g.requests|
  {
    var q := g.requests[r];
    g.(visitors := g.visitors + [Visitor(Some(r), Waiting(deadline, |q.waits|))],
       requests := g.requests[r :=
         Request(Begun(q.clock, g.now), q.waits + [Wait(g.now, None)], q.owners + [|g.visitors|])])
  }

  function Apply(allowance: int, g: Gate, step: Step): Gate {
    match step
    case Pass(until) =>
      if g.now <= until && forall v <- g.visitors :: v.phase.Waiting? ==> until <= v.phase.deadline
      then g.(now := until) else g
    case NewRequest => g.(requests := g.requests + [Request(Clock(0, 0, 0), [], [])])
    case AskWithoutClock => g.(visitors := g.visitors + [Visitor(None, Waiting(g.now + REFRESH_WAIT, 0))])
    case Ask(r) =>
      if r >= |g.requests| then g else
      var q := g.requests[r];
      var wait := allowance - SpentAt(q.clock, g.now);
      if wait <= 0 then g.(visitors := g.visitors + [Visitor(Some(r), Refused)])
      else StartWaiting(g, r, g.now + wait)
    case Admit(i) =>
      if i < |g.visitors| && g.visitors[i].phase.Waiting? && Held(g.visitors) < SLOTS
      then StopWaiting(g, i, Holding) else g
    case CancelWait(i) =>
      if i < |g.visitors| && g.visitors[i].phase.Waiting? then StopWaiting(g, i, Left) else g
    case TimeOut(i) =>
      if i < |g.visitors| && g.visitors[i].phase.Waiting? && g.now >= g.visitors[i].phase.deadline
      then StopWaiting(g, i, Refused) else g
    case Finish(i) =>
      if i < |g.visitors| && g.visitors[i].phase.Holding?
      then g.(visitors := g.visitors[i := g.visitors[i].(phase := Served)]) else g
  }

  function Exec(allowance: int, g: Gate, steps: seq<Step>): Gate
    decreases |steps|
  {
    if steps == [] then g else Exec(allowance, Apply(allowance, g, steps[0]), steps[1..])
  }

  // ----------------------------------------------------------------- invariant

  /** Every waiting visitor of a request shares one deadline, and the request's charge stays within its allowance. */
  ghost predicate RequestInv(allowance: int, g: Gate, r: nat)
    requires r < |g.requests|
  {
    var q := g.requests[r];
    && Tracks(q.clock, q.waits, g.now)
    && |q.owners| == |q.waits|
    && SpentAt(q.clock, g.now) <= allowance
    && (forall k: nat | k < |q.waits| :: OwnerInv(g, r, k))
  }

  predicate OwnerInv(g: Gate, r: nat, k: nat)
    requires r < |g.requests| && k < |g.requests[r].waits| == |g.requests[r].owners|
  {
    var i := g.requests[r].owners[k];
    && i < |g.visitors|
    && g.visitors[i].request == Some(r)
    && (g.requests[r].waits[k].end.None? <==> g.visitors[i].phase.Waiting? && g.visitors[i].phase.wait == k)
  }

  predicate VisitorInv(allowance: int, g: Gate, i: nat)
    requires i < |g.visitors|
  {
    var v := g.visitors[i];
    && (v.phase.Waiting? ==> g.now <= v.phase.deadline)
    && (v.phase.Waiting? && v.request.Some? ==>
          && v.request.value < |g.requests|
          && var q := g.requests[v.request.value];
             && v.phase.wait < |q.owners| == |q.waits|
             && q.owners[v.phase.wait] == i
             && v.phase.deadline == q.clock.since + allowance - q.clock.spent)
  }

  ghost predicate Inv(allowance: int, g: Gate) {
    && Held(g.visitors) <= SLOTS
    && (forall r: nat | r < |g.requests| :: RequestInv(allowance, g, r))
    && (forall i: nat | i < |g.visitors| :: VisitorInv(allowance, g, i))
  }

  lemma {:induction false} HeldUpdate(visitors: seq<Visitor>, i: nat, v: Visitor)
    requires i < |visitors|
    ensures Held(visitors[i := v])
         == Held(visitors) - (if visitors[i].phase.Holding? then 1 else 0) + (if v.phase.Holding? then 1 else 0)
  {
    var last := |visitors| - 1;
    if i == last {
      assert visitors[i := v][..last] == visitors[..last];
    } else {
      assert visitors[i := v][..last] == visitors[..last][i := v];
      HeldUpdate(visitors[..last], i, v);
    }
  }

  lemma HeldAppend(visitors: seq<Visitor>, v: Visitor)
    ensures Held(visitors + [v]) == Held(visitors) + (if v.phase.Holding? then 1 else 0)
  {
    assert (visitors + [v])[..|visitors|] == visitors;
  }

  lemma PassKeeps(allowance: int, g: Gate, until: int)
    requires Inv(allowance, g)
    ensures Inv(allowance, Apply(allowance, g, Pass(until)))
  {
    var h := Apply(allowance, g, Pass(until));
    if h != g {
      forall r: nat | r < |h.requests| ensures RequestInv(allowance, h, r) {
        var q := g.requests[r];
        assert RequestInv(allowance, g, r);
        TimePassesTracks(q.clock, q.waits, g.now, until);
        if q.clock.waiters > 0 {
          var k := OpenWait(q.waits);
          assert OwnerInv(g, r, k);
          assert VisitorInv(allowance, g, q.owners[k]);
        }
        forall k: nat | k < |q.waits| ensures OwnerInv(h, r, k) {
          assert OwnerInv(g, r, k);
        }
      }
      forall i: nat | i < |h.visitors| ensures VisitorInv(allowance, h, i) {
        assert VisitorInv(allowance, g, i);
      }
    }
  }

  lemma {:induction false} OpenWait(waits: seq<Wait>) returns (k: nat)
    requires OpenWaits(waits) > 0
    ensures k < |waits| && waits[k].end.None?
  {
    var last := |waits| - 1;
    if waits[last].end.None? {
      k := last;
    } else {
      k := OpenWait(waits[..last]);
    }
  }

  lemma NewVisitorKeeps(allowance: int, g: Gate, v: Visitor)
    requires Inv(allowance, g)
    requires v.phase.Waiting? ==> v.request.None? && g.now <= v.phase.deadline
    requires !v.phase.Holding?
    ensures Inv(allowance, g.(visitors := g.visitors + [v]))
  {
    var h := g.(visitors := g.visitors + [v]);
    HeldAppend(g.visitors, v);
    forall r: nat | r < |h.requests| ensures RequestInv(allowance, h, r) {
      assert RequestInv(allowance, g, r);
      forall k: nat | k < |h.requests[r].waits| ensures OwnerInv(h, r, k) {
        assert OwnerInv(g, r, k);
      }
    }
    forall i: nat | i < |h.visitors| ensures VisitorInv(allowance, h, i) {
      if i < |g.visitors| {
        assert VisitorInv(allowance, g, i);
      }
    }
  }

  lemma StartWaitingKeepsRequest(allowance: int, g: Gate, r: nat, deadline: int, p: nat)
    requires Inv(allowance, g) && r < |g.requests| && p < |g.requests|
    ensures RequestInv(allowance, StartWaiting(g, r, deadline), p)
  {
    hide Tracks;
    var h := StartWaiting(g, r, deadline);
    assert RequestInv(allowance, g, p);
    if p == r {
      BeginTracks(g.requests[r].clock, g.requests[r].waits, g.now, g.now);
    }
    forall k: nat | k < |h.requests[p].waits| ensures OwnerInv(h, p, k) {
      if p != r || k < |g.requests[r].waits| {
        assert OwnerInv(g, p, k);
      }
    }
  }

  lemma StartWaitingKeepsVisitor(allowance: int, g: Gate, r: nat, i: nat)
    requires Inv(allowance, g) && r < |g.requests| && i <= |g.visitors|
      && SpentAt(g.requests[r].clock, g.now) < allowance
    ensures var h := StartWaiting(g, r, g.now + allowance - SpentAt(g.requests[r].clock, g.now)); VisitorInv(allowance,
      h, i)
  {
    assert RequestInv(allowance, g, r);
    assert 0 <= g.requests[r].clock.waiters;
    hide Tracks, Held;
    if i < |g.visitors| {
      assert VisitorInv(allowance, g, i);
      if g.visitors[i].phase.Waiting? && g.visitors[i].request == Some(r) {
        WaiterMeansOpen(allowance, g, i);
      }
    }
  }

  lemma StartWaitingKeeps(allowance: int, g: Gate, r: nat)
    requires Inv(allowance, g) && r < |g.requests| && SpentAt(g.requests[r].clock, g.now) < allowance
    ensures Inv(allowance, StartWaiting(g, r, g.now + allowance - SpentAt(g.requests[r].clock, g.now)))
  {
    hide RequestInv, VisitorInv;
    var deadline := g.now + allowance - SpentAt(g.requests[r].clock, g.now);
    var h := StartWaiting(g, r, deadline);
    HeldAppend(g.visitors, h.visitors[|g.visitors|]);
    forall p: nat | p < |h.requests| ensures RequestInv(allowance, h, p) {
      StartWaitingKeepsRequest(allowance, g, r, deadline, p);
    }
    forall i: nat | i < |h.visitors| ensures VisitorInv(allowance, h, i) {
      StartWaitingKeepsVisitor(allowance, g, r, i);
    }
  }

  lemma AskKeeps(allowance: int, g: Gate, r: nat)
    requires Inv(allowance, g)
    ensures Inv(allowance, Apply(allowance, g, Ask(r)))
  {
    hide Inv, StartWaiting, StopWaiting;
    if r < |g.requests| {
      if allowance - SpentAt(g.requests[r].clock, g.now) <= 0 {
        NewVisitorKeeps(allowance, g, Visitor(Some(r), Refused));
      } else {
        StartWaitingKeeps(allowance, g, r);
        assert g.now + (allowance - SpentAt(g.requests[r].clock, g.now))
          == g.now + allowance - SpentAt(g.requests[r].clock, g.now);
      }
    }
  }

  /** A waiting visitor is one of its request's open waits. */
  lemma WaiterMeansOpen(allowance: int, g: Gate, i: nat)
    requires Inv(allowance, g) && i < |g.visitors| && g.visitors[i].phase.Waiting? && g.visitors[i].request.Some?
    ensures g.visitors[i].request.value < |g.requests|
    ensures var q := g.requests[g.visitors[i].request.value];
      q.clock.waiters > 0 && g.visitors[i].phase.wait < |q.waits| && q.waits[g.visitors[i].phase.wait].end.None?
  {
    assert VisitorInv(allowance, g, i);
    var r, k := g.visitors[i].request.value, g.visitors[i].phase.wait;
    assert RequestInv(allowance, g, r);
    assert OwnerInv(g, r, k);
    if OpenWaits(g.requests[r].waits) == 0 {
      NoOpenWaits(g.requests[r].waits);
    }
  }

  lemma StopWaitingKeepsRequest(allowance: int, g: Gate, i: nat, phase: Phase, p: nat)
    requires Inv(allowance, g) && i < |g.visitors| && g.visitors[i].phase.Waiting? && !phase.Waiting?
    requires p < |g.requests|
    ensures RequestInv(allowance, StopWaiting(g, i, phase), p)
  {
    var h := StopWaiting(g, i, phase);
    var v := g.visitors[i];
    assert VisitorInv(allowance, g, i);
    assert RequestInv(allowance, g, p);
    if v.request == Some(p) {
      WaiterMeansOpen(allowance, g, i);
      EndTracks(g.requests[p].clock, g.requests[p].waits, g.now, v.phase.wait, g.now);
    }
    forall k: nat | k < |h.requests[p].waits| ensures OwnerInv(h, p, k) {
      assert OwnerInv(g, p, k);
    }
  }

  lemma StopWaitingKeeps(allowance: int, g: Gate, i: nat, phase: Phase)
    requires Inv(allowance, g) && i < |g.visitors| && g.visitors[i].phase.Waiting? && !phase.Waiting?
    requires phase.Holding? ==> Held(g.visitors) < SLOTS
    ensures Inv(allowance, StopWaiting(g, i, phase))
  {
    var h := StopWaiting(g, i, phase);
    var v := g.visitors[i];
    HeldUpdate(g.visitors, i, v.(phase := phase));
    forall p: nat | p < |h.requests| ensures RequestInv(allowance, h, p) {
      StopWaitingKeepsRequest(allowance, g, i, phase, p);
    }
    forall j: nat | j < |h.visitors| ensures VisitorInv(allowance, h, j) {
      assert VisitorInv(allowance, g, j);
      if j != i && v.request.Some? && g.visitors[j].phase.Waiting? && g.visitors[j].request == v.request {
        TwoWaiters(allowance, g, i, j);
      }
    }
  }

  /** If another visitor of the same request still waits, one departure does not close the episode. */
  lemma TwoWaiters(allowance: int, g: Gate, i: nat, j: nat)
    requires Inv(allowance, g) && i < |g.visitors| && j < |g.visitors| && i != j
    requires g.visitors[i].phase.Waiting? && g.visitors[j].phase.Waiting?
    requires g.visitors[i].request == g.visitors[j].request && g.visitors[i].request.Some?
    ensures g.visitors[i].request.value < |g.requests|
    ensures g.requests[g.visitors[i].request.value].clock.waiters > 1
  {
    WaiterMeansOpen(allowance, g, i);
    WaiterMeansOpen(allowance, g, j);
    assert VisitorInv(allowance, g, i) && VisitorInv(allowance, g, j);
    var q := g.requests[g.visitors[i].request.value];
    assert RequestInv(allowance, g, g.visitors[i].request.value);
    var ki, kj := g.visitors[i].phase.wait, g.visitors[j].phase.wait;
    var closed := Wait(q.waits[ki].start, Some(g.now));
    OpenWaitsUpdate(q.waits, ki, closed);
    assert q.waits[ki := closed][kj].end.None?;
    if OpenWaits(q.waits[ki := closed]) == 0 {
      NoOpenWaits(q.waits[ki := closed]);
    }
  }

  lemma FinishKeeps(allowance: int, g: Gate, i: nat)
    requires Inv(allowance, g)
    ensures Inv(allowance, Apply(allowance, g, Finish(i)))
  {
    var h := Apply(allowance, g, Finish(i));
    if h != g {
      HeldUpdate(g.visitors, i, h.visitors[i]);
      forall p: nat | p < |h.requests| ensures RequestInv(allowance, h, p) {
        assert RequestInv(allowance, g, p);
        forall k: nat | k < |h.requests[p].waits| ensures OwnerInv(h, p, k) {
          assert OwnerInv(g, p, k);
        }
      }
      forall j: nat | j < |h.visitors| ensures VisitorInv(allowance, h, j) {
        assert VisitorInv(allowance, g, j);
      }
    }
  }

  lemma NewRequestKeeps(allowance: int, g: Gate)
    requires Inv(allowance, g) && allowance > 0
    ensures Inv(allowance, Apply(allowance, g, NewRequest))
  {
    var h := Apply(allowance, g, NewRequest);
    forall p: nat | p < |h.requests| ensures RequestInv(allowance, h, p) {
      if p < |g.requests| {
        assert RequestInv(allowance, g, p);
        forall k: nat | k < |h.requests[p].waits| ensures OwnerInv(h, p, k) {
          assert OwnerInv(g, p, k);
        }
      }
    }
    forall j: nat | j < |h.visitors| ensures VisitorInv(allowance, h, j) {
      assert VisitorInv(allowance, g, j);
    }
  }

  lemma StepKeeps(allowance: int, g: Gate, step: Step)
    requires Inv(allowance, g) && allowance > 0
    ensures Inv(allowance, Apply(allowance, g, step))
  {
    if Apply(allowance, g, step) != g {
      match step
      case Pass(until) => PassKeeps(allowance, g, until);
      case NewRequest => NewRequestKeeps(allowance, g);
      case AskWithoutClock => NewVisitorKeeps(allowance, g, Visitor(None, Waiting(g.now + REFRESH_WAIT, 0)));
      case Ask(r) => AskKeeps(allowance, g, r);
      case Admit(i) => StopWaitingKeeps(allowance, g, i, Holding);
      case CancelWait(i) => StopWaitingKeeps(allowance, g, i, Left);
      case TimeOut(i) => StopWaitingKeeps(allowance, g, i, Refused);
      case Finish(i) => FinishKeeps(allowance, g, i);
    }
  }

  lemma {:induction false} ExecKeeps(allowance: int, g: Gate, steps: seq<Step>)
    requires Inv(allowance, g) && allowance > 0
    ensures Inv(allowance, Exec(allowance, g, steps))
    decreases |steps|
  {
    if steps == [] {
    } else {
      StepKeeps(allowance, g, steps[0]);
      ExecKeeps(allowance, Apply(allowance, g, steps[0]), steps[1..]);
    }
  }

  // ------------------------------------------------------------------ theorems

  /**
    In every run the time a request has stood at the gate, as a union of intervals, is what its clock says and never
    exceeds its allowance.
  */
  lemma GateTimeStaysWithinAllowance(configured: int, now: int, steps: seq<Step>, r: nat)
    requires r < |Exec(Allowance(configured), Init(now), steps).requests|
    ensures var g := Exec(Allowance(configured), Init(now), steps);
      && |Covered(g.requests[r].waits, g.now)| == SpentAt(g.requests[r].clock, g.now)
      && |Covered(g.requests[r].waits, g.now)| <= if configured > 0 then configured else 3000
  {
    var allowance := Allowance(configured);
    ExecKeeps(allowance, Init(now), steps);
    var g := Exec(allowance, Init(now), steps);
    assert RequestInv(allowance, g, r);
    SpentIsTheUnion(g.requests[r].clock, g.requests[r].waits, g.now, g.now);
  }

  lemma AtMostFourSlots(configured: int, now: int, steps: seq<Step>)
    ensures Held(Exec(Allowance(configured), Init(now), steps).visitors) <= 4
  {
    ExecKeeps(Allowance(configured), Init(now), steps);
  }

  /** A request is turned away without waiting exactly when its whole allowance has been stood at the gate. */
  lemma RefusedAtOnceIffAllowanceIsSpent(configured: int, now: int, steps: seq<Step>, r: nat)
    requires r < |Exec(Allowance(configured), Init(now), steps).requests|
    ensures var g := Exec(Allowance(configured), Init(now), steps);
      var h := Apply(Allowance(configured), g, Ask(r));
      |h.visitors| == |g.visitors| + 1 &&
      (h.visitors[|g.visitors|].phase.Refused? <==> |Covered(g.requests[r].waits, g.now)| == Allowance(configured))
  {
    GateTimeStaysWithinAllowance(configured, now, steps, r);
  }

  /** All concurrent waiters of one request share one deadline. */
  lemma ConcurrentWaitersShareOneDeadline(configured: int, now: int, steps: seq<Step>, i: nat, j: nat)
    requires var g := Exec(Allowance(configured), Init(now), steps);
      && i < |g.visitors| && j < |g.visitors|
      && g.visitors[i].phase.Waiting? && g.visitors[j].phase.Waiting?
      && g.visitors[i].request.Some? && g.visitors[i].request == g.visitors[j].request
    ensures var g := Exec(Allowance(configured), Init(now), steps);
      g.visitors[i].phase.deadline == g.visitors[j].phase.deadline
  {
    var allowance := Allowance(configured);
    ExecKeeps(allowance, Init(now), steps);
    var g := Exec(allowance, Init(now), steps);
    assert VisitorInv(allowance, g, i) && VisitorInv(allowance, g, j);
  }

  /**
    Every begin has exactly one end: a wait is open just while its visitor waits, and once closed it stays as it was.
  */
  lemma EveryBeginHasOneEnd(configured: int, now: int, steps: seq<Step>, step: Step, r: nat, k: nat)
    requires var g := Exec(Allowance(configured), Init(now), steps); r < |g.requests| && k < |g.requests[r].waits|
    ensures var g := Exec(Allowance(configured), Init(now), steps);
      var h := Apply(Allowance(configured), g, step);
      && k < |g.requests[r].owners| && g.requests[r].owners[k] < |g.visitors|
      && (var p := g.visitors[g.requests[r].owners[k]].phase;
          g.requests[r].waits[k].end.None? <==> p.Waiting? && p.wait == k)
      && r < |h.requests| && k < |h.requests[r].waits|
      && (g.requests[r].waits[k].end.Some? ==> h.requests[r].waits[k] == g.requests[r].waits[k])
  {
    ExecKeeps(Allowance(configured), Init(now), steps);
    hide Exec, Apply, Inv;
    ClosedWaitStays(Allowance(configured), Exec(Allowance(configured), Init(now), steps), step, r, k);
  }

  lemma ClosedWaitStays(allowance: int, g: Gate, step: Step, r: nat, k: nat)
    requires Inv(allowance, g) && r < |g.requests| && k < |g.requests[r].waits|
    ensures var h := Apply(allowance, g, step);
      && k < |g.requests[r].owners| && g.requests[r].owners[k] < |g.visitors|
      && (var p := g.visitors[g.requests[r].owners[k]].phase;
          g.requests[r].waits[k].end.None? <==> p.Waiting? && p.wait == k)
      && r < |h.requests| && k < |h.requests[r].waits|
      && (g.requests[r].waits[k].end.Some? ==> h.requests[r].waits[k] == g.requests[r].waits[k])
  {
    hide Tracks, Held, SpentAt, VisitorInv;
    assert RequestInv(allowance, g, r);
    assert OwnerInv(g, r, k);
    hide Inv, RequestInv, OwnerInv;
    if (step.Admit? || step.CancelWait? || step.TimeOut?) && step.i < |g.visitors| && g.visitors[step.i].phase.Waiting?
      && g.visitors[step.i].request.Some? {
      WaiterMeansOpen(allowance, g, step.i);
    }
  }
}
