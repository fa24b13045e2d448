/** How a visit to the gate ends: who gets a slot, who gives one back, and why anyone is refused. */
module AdmissionOutcomes {
  import opened Wrappers
  import opened AdmissionClock
  import opened AdmissionGate

  lemma Reachable(configured: int, now: int, steps: seq<Step>)
    ensures Inv(Allowance(configured), Exec(Allowance(configured), Init(now), steps))
  {
    ExecKeeps(Allowance(configured), Init(now), steps);
  }

  // ----------------------------------------------------------------------------- one step

  /**
    A waiting visitor gets a slot if and only if fewer than four are held, and then holds it; otherwise nothing changes.
  */
  lemma AdmitTakesAFreeSlot(configured: int, now: int, steps: seq<Step>, i: nat)
    requires var g := Exec(Allowance(configured), Init(now), steps); i < |g.visitors| && g.visitors[i].phase.Waiting?
    ensures var g := Exec(Allowance(configured), Init(now), steps);
      var h := Apply(Allowance(configured), g, Admit(i));
      if Held(g.visitors) < 4
      then h.visitors == g.visitors[i := g.visitors[i].(phase := Holding)] && Held(h.visitors) == Held(g.visitors) + 1
      else h == g
  {
    var g := Exec(Allowance(configured), Init(now), steps);
    hide Exec;
    HeldUpdate(g.visitors, i, g.visitors[i].(phase := Holding));
  }

  /** A holder who is done gives its slot back. */
  lemma FinishFreesOneSlot(allowance: int, g: Gate, i: nat)
    requires i < |g.visitors|
    ensures var h := Apply(allowance, g, Finish(i));
      if g.visitors[i].phase.Holding?
      then h.visitors == g.visitors[i := g.visitors[i].(phase := Served)] && Held(h.visitors) + 1 == Held(g.visitors)
      else h == g
  {
    HeldUpdate(g.visitors, i, g.visitors[i].(phase := Served));
  }

  /** A visitor whose own context ends leaves; one whose timer fires is refused, and not before its deadline. */
  lemma WaitsEndAsTheyShould(allowance: int, g: Gate, i: nat)
    requires i < |g.visitors| && g.visitors[i].phase.Waiting?
    ensures Apply(allowance, g, CancelWait(i)).visitors == g.visitors[i := g.visitors[i].(phase := Left)]
    ensures var h := Apply(allowance, g, TimeOut(i));
      if g.now >= g.visitors[i].phase.deadline
      then h.visitors == g.visitors[i := g.visitors[i].(phase := Refused)] else h == g
  {
  }

  // ----------------------------------------------------------------------------- whole runs

  function At(configured: int, now: int, steps: seq<Step>, k: nat): Gate
    requires k <= |steps|
  {
    Exec(Allowance(configured), Init(now), steps[..k])
  }

  lemma {:induction false} ExecConcat(allowance: int, g: Gate, a: seq<Step>, b: seq<Step>)
    ensures Exec(allowance, g, a + b) == Exec(allowance, Exec(allowance, g, a), b)
    decreases |a|
  {
    hide Apply;
    if a == [] {
      assert a + b == b;
    } else {
      assert (a + b)[1..] == a[1..] + b;
      ExecConcat(allowance, Apply(allowance, g, a[0]), a[1..], b);
    }
  }

  lemma ExecLast(configured: int, now: int, steps: seq<Step>)
    requires steps != []
    ensures Exec(Allowance(configured), Init(now), steps)
         == Apply(Allowance(configured), At(configured, now, steps, |steps| - 1), steps[|steps| - 1])
  {
    hide Apply, Allowance;
    var n, allowance := |steps| - 1, Allowance(configured);
    assert steps == steps[..n] + [steps[n]];
    ExecConcat(allowance, Init(now), steps[..n], [steps[n]]);
    var g := Exec(allowance, Init(now), steps[..n]);
    assert [steps[n]][1..] == [];
    assert Exec(allowance, g, [steps[n]]) == Exec(allowance, Apply(allowance, g, steps[n]), []);
  }

  /** The step refuses the visitor: on arrival, its request's allowance spent, or at its deadline. */
  predicate Refuses(allowance: int, g: Gate, step: Step, i: nat, request: Option<nat>) {
    || (i == |g.visitors| && step.Ask? && request == Some(step.r) && step.r < |g.requests|
        && allowance <= SpentAt(g.requests[step.r].clock, g.now))
    || (i < |g.visitors| && step == TimeOut(i) && g.visitors[i].request == request && g.visitors[i].phase.Waiting?
        && g.visitors[i].phase.deadline <= g.now)
  }

  lemma RefusalComesFrom(allowance: int, g: Gate, step: Step, i: nat)
    requires i < |Apply(allowance, g, step).visitors| && Apply(allowance, g, step).visitors[i].phase.Refused?
    ensures (i < |g.visitors| && g.visitors[i] == Apply(allowance, g, step).visitors[i])
      || Refuses(allowance, g, step, i, Apply(allowance, g, step).visitors[i].request)
  {
  }

  lemma {:induction false} RefusalHasAStep(configured: int, now: int, steps: seq<Step>, i: nat) returns (k: nat)
    requires var g := Exec(Allowance(configured), Init(now), steps); i < |g.visitors| && g.visitors[i].phase.Refused?
    ensures k < |steps|
    ensures Refuses(Allowance(configured), At(configured, now, steps, k), steps[k], i,
                    Exec(Allowance(configured), Init(now), steps).visitors[i].request)
  {
    hide Apply, Allowance, Refuses;
    var n := |steps| - 1;
    assert steps != [];
    ExecLast(configured, now, steps);
    var g := At(configured, now, steps, n);
    RefusalComesFrom(Allowance(configured), g, steps[n], i);
    if i < |g.visitors| && g.visitors[i] == Exec(Allowance(configured), Init(now), steps).visitors[i] {
      k := RefusalHasAStep(configured, now, steps[..n], i);
      assert steps[..n][..k] == steps[..k];
    } else {
      k := n;
    }
  }

  lemma WaitingComesFrom(allowance: int, g: Gate, step: Step, i: nat)
    requires var h := Apply(allowance, g, step);
      i < |h.visitors| && h.visitors[i].phase.Waiting? && h.visitors[i].request.None?
    ensures (i < |g.visitors| && g.visitors[i] == Apply(allowance, g, step).visitors[i])
      || (i == |g.visitors| && step.AskWithoutClock?
        && Apply(allowance, g, step).visitors[i].phase.deadline == g.now + 250)
  {
  }

  /** A read with no clock waits until 250 ticks after it asked. */
  lemma {:induction false} NoClockDeadline(configured: int, now: int, steps: seq<Step>, i: nat) returns (j: nat)
    requires var g := Exec(Allowance(configured), Init(now), steps);
      i < |g.visitors| && g.visitors[i].phase.Waiting? && g.visitors[i].request.None?
    ensures j < |steps| && steps[j].AskWithoutClock? && |At(configured, now, steps, j).visitors| == i
    ensures Exec(Allowance(configured), Init(now), steps).visitors[i].phase.deadline
         == At(configured, now, steps, j).now + 250
  {
    hide Apply, Allowance;
    var n := |steps| - 1;
    assert steps != [];
    ExecLast(configured, now, steps);
    var g := At(configured, now, steps, n);
    WaitingComesFrom(Allowance(configured), g, steps[n], i);
    if i < |g.visitors| && g.visitors[i] == Exec(Allowance(configured), Init(now), steps).visitors[i] {
      j := NoClockDeadline(configured, now, steps[..n], i);
      assert steps[..n][..j] == steps[..j];
    } else {
      j := n;
    }
  }

  lemma RefusedIsSpent(allowance: int, g: Gate, step: Step, i: nat, r: nat)
    requires Inv(allowance, g) && Refuses(allowance, g, step, i, Some(r))
    ensures r < |g.requests| && |Covered(g.requests[r].waits, g.now)| == allowance
  {
    hide Covered;
    if step.TimeOut? {
      WaiterMeansOpen(allowance, g, i);
      assert VisitorInv(allowance, g, i);
    }
    assert RequestInv(allowance, g, r);
    SpentIsTheUnion(g.requests[r].clock, g.requests[r].waits, g.now, g.now);
  }

  lemma TimedOutAtItsDeadline(allowance: int, g: Gate, i: nat)
    requires Inv(allowance, g) && Refuses(allowance, g, TimeOut(i), i, None)
    ensures g.now == g.visitors[i].phase.deadline
  {
    assert VisitorInv(allowance, g, i);
  }

  /**
    An interactive visitor is refused only at an instant at which its request has stood its whole allowance at the gate.
  */
  lemma RefusedOnlyWhenTheAllowanceIsSpent(configured: int, now: int, steps: seq<Step>, i: nat, r: nat) returns (k: nat)
    requires var g := Exec(Allowance(configured), Init(now), steps);
      i < |g.visitors| && g.visitors[i] == Visitor(Some(r), Refused)
    ensures k < |steps| && (steps[k] == Ask(r) || steps[k] == TimeOut(i))
    ensures var g := At(configured, now, steps, k);
      r < |g.requests| && |Covered(g.requests[r].waits, g.now)| == if configured > 0 then configured else 3000
  {
    hide Exec, Inv;
    k := RefusalHasAStep(configured, now, steps, i);
    Reachable(configured, now, steps[..k]);
    RefusedIsSpent(Allowance(configured), At(configured, now, steps, k), steps[k], i, r);
  }

  /** A read with no clock is refused only when its timer fires, 250 ticks after it asked. */
  lemma NoClockRefusedAfterItsWait(configured: int, now: int, steps: seq<Step>, i: nat) returns (j: nat, k: nat)
    requires var g := Exec(Allowance(configured), Init(now), steps);
      i < |g.visitors| && g.visitors[i] == Visitor(None, Refused)
    ensures j < k < |steps| && steps[j].AskWithoutClock? && steps[k] == TimeOut(i)
    ensures |At(configured, now, steps, j).visitors| == i
    ensures At(configured, now, steps, k).now == At(configured, now, steps, j).now + 250
  {
    hide Exec, Inv;
    k := RefusalHasAStep(configured, now, steps, i);
    var g := At(configured, now, steps, k);
    Reachable(configured, now, steps[..k]);
    TimedOutAtItsDeadline(Allowance(configured), g, i);
    j := NoClockDeadline(configured, now, steps[..k], i);
    assert steps[..k][..j] == steps[..j];
  }
}
