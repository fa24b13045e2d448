/** What every interleaving of the coalescing group keeps, and what that means for callers and loads. */
module SingleflightSafety {
  import opened Wrappers
  import opened Singleflight

  // ------------------------------------------------- every step keeps the invariant

  lemma ArriveKeeps(s: State, key: Key)
    requires Inv(s)
    ensures Inv(Apply(s, Arrive(key)))
  {
    var t := Apply(s, Arrive(key));
    assert t.callers[..|s.callers|] == s.callers;
    forall c: nat | c < |t.calls| ensures CallInv(t, c) {
      assert CallInv(s, c);
    }
    forall i: nat | i < |t.callers| ensures CallerInv(t, i) {
      if i < |s.callers| {
        assert CallerInv(s, i);
      }
    }
  }

  lemma SpawnKeeps(s: State, key: Key, origin: Origin)
    requires Inv(s) && key !in s.loads
    ensures Inv(Spawn(s, key, origin, 0))
  {
    var t := Spawn(s, key, origin, 0);
    forall c: nat | c < |t.calls| ensures CallInv(t, c) {
      if c < |s.calls| {
        assert CallInv(s, c);
      } else {
        forall i | 0 <= i < |s.callers| ensures !WaitsOn(s.callers[i], c) {
          assert CallerInv(s, i);
        }
        WaitersOfNobody(s.callers, c);
      }
    }
    forall i: nat | i < |t.callers| ensures CallerInv(t, i) {
      assert CallerInv(s, i);
    }
  }

  /** A caller moves without joining, leaving or touching a call. */
  lemma MoveKeeps(s: State, i: nat, caller: Caller)
    requires Inv(s) && i < |s.callers|
    requires forall c: nat :: WaitsOn(caller, c) == WaitsOn(s.callers[i], c)
    requires CallerInv(s.(callers := s.callers[i := caller]), i)
    ensures Inv(s.(callers := s.callers[i := caller]))
  {
    var t := s.(callers := s.callers[i := caller]);
    UpdateAllWaiters(s.callers, i, caller);
    forall c: nat | c < |t.calls| ensures CallInv(t, c) {
      assert CallInv(s, c);
    }
    forall j: nat | j < |t.callers| ensures CallerInv(t, j) {
      if j != i {
        assert CallerInv(s, j);
      }
    }
  }

  /** One call and the caller that joins, leaves or creates it change together. */
  lemma TransferKeeps(s: State, i: nat, caller: Caller, c: nat, call: Call)
    requires Inv(s) && AtCall(s, i, c)
    requires call == s.calls[c].call.(waiters := call.waiters, abandoned := call.abandoned, canceled := call.canceled)
    requires s.calls[c].call.abandoned ==> call.abandoned
    requires call.canceled <==> Dead(call)
    requires call.abandoned ==> call.waiters == 0
    requires call.waiters == WaitersOf(s.callers[i := caller], c)
    requires forall d: nat | d != c :: WaitsOn(caller, d) == WaitsOn(s.callers[i], d)
    requires CallerInv(WithCall(s, c, call).(callers := s.callers[i := caller]), i)
    ensures Inv(WithCall(s, c, call).(callers := s.callers[i := caller]))
  {
    hide WaitersOf;
    var t := WithCall(s, c, call).(callers := s.callers[i := caller]);
    UpdateAllWaiters(s.callers, i, caller);
    forall d: nat | d < |t.calls| ensures CallInv(t, d) {
      assert CallInv(s, d);
    }
    forall j: nat | j < |t.callers| ensures CallerInv(t, j) {
      if j != i {
        assert CallerInv(s, j);
      }
    }
  }

  lemma DepartKeeps(s: State, i: nat, c: nat, pc: CallerPc)
    requires Inv(s) && AtCall(s, i, c) && WaitsOn(s.callers[i], c)
    requires pc == Returned(Canceled) ||
             (s.calls[c].call.result.Some? && pc == Observed(c, s.calls[c].call.result.value))
    ensures Inv(Depart(s, i, c, pc))
  {
    var call := s.calls[c].call;
    var gone := s.callers[i].(pc := pc);
    assert CallerInv(s, i) && CallInv(s, c);
    WaitersOfUpdate(s.callers, i, gone, c);
    WaiterIsCounted(s.callers, i, c);
    var t := WithCall(s, c, Released(call)).(callers := s.callers[i := gone]);
    assert CallerInv(t, i) by {
      forall m | m in gone.met ensures m < |t.calls| && Dead(t.calls[m].call) && !Mapped(t, m) {
        assert m < |s.calls|;
      }
    }
    TransferKeeps(s, i, gone, c, Released(call));
    assert Depart(s, i, c, pc) == t;
  }

  lemma JoinKeeps(s: State, i: nat, c: nat)
    requires Inv(s) && AtCall(s, i, c) && s.callers[i].pc == Joining(c)
    requires !Dead(s.calls[c].call)
    ensures Inv(Apply(s, AddWaiter(i)))
  {
    var call := s.calls[c].call;
    var joined := s.callers[i].(pc := Arrived(c));
    assert CallerInv(s, i) && CallInv(s, c);
    WaitersOfUpdate(s.callers, i, joined, c);
    var t := WithCall(s, c, Joined(call)).(callers := s.callers[i := joined]);
    assert CallerInv(t, i) by {
      forall m | m in joined.met ensures m < |t.calls| && Dead(t.calls[m].call) && !Mapped(t, m) {
        assert m < |s.calls|;
      }
    }
    TransferKeeps(s, i, joined, c, Joined(call));
    assert Apply(s, AddWaiter(i)) == t;
  }

  lemma LoadOrStoreKeeps(s: State, i: nat)
    requires Inv(s) && i < |s.callers| && s.callers[i].pc.Trying?
    ensures Inv(Apply(s, LoadOrStore(i)))
  {
    hide WaitersOf;
    var caller := s.callers[i];
    assert CallerInv(s, i);
    if caller.key in s.loads {
      MoveKeeps(s, i, caller.(pc := Joining(s.loads[caller.key])));
    } else {
      var c := |s.calls|;
      var mid := Spawn(s, caller.key, FromDo, 0);
      SpawnKeeps(s, caller.key, FromDo);
      var arrived := caller.(pc := Arrived(c));
      assert CallInv(mid, c) && CallerInv(mid, i);
      WaitersOfUpdate(mid.callers, i, arrived, c);
      var t := WithCall(mid, c, NewCall(1)).(callers := mid.callers[i := arrived]);
      assert CallerInv(t, i) by {
        forall m | m in arrived.met ensures m < |t.calls| && Dead(t.calls[m].call) && !Mapped(t, m) {
          assert m < |s.calls|;
        }
      }
      TransferKeeps(mid, i, arrived, c, NewCall(1));
      assert Apply(s, LoadOrStore(i)) == t;
    }
  }

  /** Unmapping a dead call is harmless to every other call, a successor under the same key included. */
  lemma UnmapKeeps(s: State, c: nat)
    requires Inv(s) && c < |s.calls| && Dead(s.calls[c].call)
    ensures var t := s.(loads := CompareAndDelete(s.loads, s.calls[c].key, c)); Inv(t) && !Mapped(t, c)
  {
    var t := s.(loads := CompareAndDelete(s.loads, s.calls[c].key, c));
    forall d: nat | d < |t.calls| ensures CallInv(t, d) {
      assert CallInv(s, d) && CallInv(s, c);
    }
    forall i: nat | i < |t.callers| ensures CallerInv(t, i) {
      assert CallerInv(s, i);
    }
  }

  lemma EvictKeeps(s: State, i: nat)
    requires Inv(s) && i < |s.callers| && s.callers[i].pc.Evicting?
    ensures Inv(Apply(s, Evict(i)))
  {
    var caller := s.callers[i];
    var c := caller.pc.call;
    assert CallerInv(s, i);
    UnmapKeeps(s, c);
    var mid := s.(loads := CompareAndDelete(s.loads, caller.key, c));
    assert CallerInv(mid, i);
    MoveKeeps(mid, i, caller.(pc := Trying, met := caller.met + {c}));
  }

  /** A loader that has not reached its CompareAndDelete moves on; nothing anyone else sees changes. */
  lemma AdvanceKeeps(s: State, c: nat, pc: LoaderPc, backoff: set<Key>)
    requires Inv(s) && c < |s.calls| && Executing(s.calls[c]) && Executing(s.calls[c].(loader := pc))
    ensures Inv(WithLoader(s, c, pc).(backoff := backoff))
  {
    var t := WithLoader(s, c, pc).(backoff := backoff);
    forall d: nat | d < |t.calls| ensures CallInv(t, d) {
      assert CallInv(s, d);
    }
    forall i: nat | i < |t.callers| ensures CallerInv(t, i) {
      assert CallerInv(s, i);
    }
  }

  lemma RemoveKeyKeeps(s: State, c: nat)
    requires Inv(s) && c < |s.calls| && s.calls[c].loader.Removing?
    ensures Inv(Apply(s, RemoveKey(c)))
  {
    var t := Apply(s, RemoveKey(c));
    assert CallInv(s, c);
    forall d: nat | d < |t.calls| ensures CallInv(t, d) {
      assert CallInv(s, d);
    }
    forall i: nat | i < |t.callers| ensures CallerInv(t, i) {
      assert CallerInv(s, i);
    }
  }

  lemma FinishKeeps(s: State, c: nat)
    requires Inv(s) && c < |s.calls| && s.calls[c].loader.Publishing?
    ensures Inv(Apply(s, Finish(c)))
  {
    var t := Apply(s, Finish(c));
    assert CallInv(s, c);
    forall d: nat | d < |t.calls| ensures CallInv(t, d) {
      assert CallInv(s, d);
    }
    forall i: nat | i < |t.callers| ensures CallerInv(t, i) {
      assert CallerInv(s, i);
    }
  }

  lemma LoaderKeeps(s: State, step: Step)
    requires Inv(s)
    requires step.LoadReturns? || step.RecordRetry? || step.RemoveKey? || step.Finish?
    ensures Inv(Apply(s, step))
  {
    if Apply(s, step) != s {
      var e := s.calls[step.c];
      match step
      case LoadReturns(c, r) => AdvanceKeeps(s, c, if e.origin == FromStart then Recording(r)
        else Removing(r), s.backoff);
      case RecordRetry(c) => AdvanceKeeps(s, c, Removing(e.loader.r), Apply(s, step).backoff);
      case RemoveKey(c) => RemoveKeyKeeps(s, c);
      case Finish(c) => FinishKeeps(s, c);
    }
  }

  lemma CallerStepKeeps(s: State, step: Step)
    requires Inv(s)
    requires step.CancelContext? || step.CheckContext? || step.LoadOrStore? || step.AddWaiter? || step.Evict?
             || step.LookBeforeWaiting? || step.Leave? || step.TakeResult? || step.Return?
    ensures Inv(Apply(s, step))
  {
    hide WaitersOf, CallInv;
    if step.i < |s.callers| && Apply(s, step) != s {
      var i := step.i;
      var caller := s.callers[i];
      assert CallerInv(s, i);
      hide Inv;
      match step
      case CancelContext(_) => MoveKeeps(s, i, caller.(ctxDone := true));
      case CheckContext(_) => MoveKeeps(s, i, caller.(pc := if caller.ctxDone then Returned(Canceled) else Trying));
      case LoadOrStore(_) => LoadOrStoreKeeps(s, i);
      case AddWaiter(_) =>
        if Dead(s.calls[caller.pc.call].call) {
          MoveKeeps(s, i, caller.(pc := Evicting(caller.pc.call)));
        } else {
          JoinKeeps(s, i, caller.pc.call);
        }
      case Evict(_) => EvictKeeps(s, i);
      case LookBeforeWaiting(_) =>
        if caller.ctxDone {
          DepartKeeps(s, i, caller.pc.call, Returned(Canceled));
        } else {
          MoveKeeps(s, i, caller.(pc := Selecting(caller.pc.call)));
        }
      case Leave(_) => DepartKeeps(s, i, caller.pc.call, Returned(Canceled));
      case TakeResult(_) =>
        DepartKeeps(s, i, caller.pc.call, Observed(caller.pc.call, s.calls[caller.pc.call].call.result.value));
      case Return(_) =>
        MoveKeeps(s, i, caller.(pc := Returned(if caller.ctxDone then Canceled else Got(caller.pc.call, caller.pc.r))));
    }
  }

  lemma StepKeeps(s: State, step: Step)
    requires Inv(s)
    ensures Inv(Apply(s, step))
  {
    match step
    case Arrive(key) => ArriveKeeps(s, key);
    case Start(key, ready) =>
      if key !in s.loads {
        SpawnKeeps(s, key, FromStart);
      }
    case LoadReturns(_, _) => LoaderKeeps(s, step);
    case RecordRetry(_) => LoaderKeeps(s, step);
    case RemoveKey(_) => LoaderKeeps(s, step);
    case Finish(_) => LoaderKeeps(s, step);
    case _ => CallerStepKeeps(s, step);
  }

  lemma {:induction false} ExecKeeps(s: State, steps: seq<Step>)
    requires Inv(s)
    ensures Inv(Exec(s, steps))
    decreases |steps|
  {
    if steps == [] {
    } else {
      StepKeeps(s, steps[0]);
      ExecKeeps(Apply(s, steps[0]), steps[1..]);
    }
  }

  // ------------------------------------------------------- what callers can rely on

  lemma InitHolds()
    ensures Inv(Init())
  {
  }

  /** The load function is executing and nobody has given the call up. */
  predicate LiveLoad(s: State, c: nat) {
    c < |s.calls| && s.calls[c].loader.Loading? && !s.calls[c].call.abandoned
  }

  /** At most one live load per key, and it is the mapped one; a finished call is never mapped. */
  lemma OneLiveLoadPerKey(steps: seq<Step>, c: nat, d: nat)
    ensures var s := Exec(Init(), steps);
      && (LiveLoad(s, c) ==> Mapped(s, c))
      && (LiveLoad(s, c) && LiveLoad(s, d) && s.calls[c].key == s.calls[d].key ==> c == d)
      && (c < |s.calls| && s.calls[c].call.finished ==> !Mapped(s, c))
  {
    InitHolds();
    ExecKeeps(Init(), steps);
    var s := Exec(Init(), steps);
    if c < |s.calls| {
      assert CallInv(s, c);
    }
    if d < |s.calls| {
      assert CallInv(s, d);
    }
  }

  /** Whoever deletes a mapping, the call it deletes is abandoned or its own load function has returned. */
  lemma OnlyDeadCallsAreUnmapped(steps: seq<Step>, step: Step, c: nat)
    requires var s := Exec(Init(), steps); Mapped(s, c) && !Mapped(Apply(s, step), c)
    ensures var s := Exec(Init(), steps);
      s.calls[c].call.abandoned || (step == RemoveKey(c) && s.calls[c].loader.Removing?)
  {
    InitHolds();
    ExecKeeps(Init(), steps);
    var s := Exec(Init(), steps);
    hide Exec, WaitersOf, Dead;
    assert CallInv(s, c);
    if step.Evict? && step.i < |s.callers| {
      assert CallerInv(s, step.i);
    }
    if step.RemoveKey? && step.c < |s.calls| {
      assert CallInv(s, step.c);
    }
  }

  /** The waiter count is the number of callers joined now; `done` is closed exactly when the result is out. */
  lemma WaitersAreTheJoinedCallers(steps: seq<Step>, c: nat)
    requires c < |Exec(Init(), steps).calls|
    ensures var s := Exec(Init(), steps); var call := s.calls[c].call;
      && call.waiters == WaitersOf(s.callers, c)
      && call.closes == (if call.finished then 1 else 0)
      && (call.abandoned ==> call.waiters == 0)
  {
    InitHolds();
    ExecKeeps(Init(), steps);
    assert CallInv(Exec(Init(), steps), c);
  }

  /** A load that has been cancelled before it published has nobody left waiting for it. */
  lemma DepartureNeverCancelsAnAwaitedLoad(steps: seq<Step>, i: nat, c: nat)
    requires var s := Exec(Init(), steps); AtCall(s, i, c) && WaitsOn(s.callers[i], c)
    ensures var call := Exec(Init(), steps).calls[c].call; call.canceled ==> call.finished
  {
    InitHolds();
    ExecKeeps(Init(), steps);
    var s := Exec(Init(), steps);
    assert CallInv(s, c);
    WaiterIsCounted(s.callers, i, c);
  }

  /** A caller that is turned away and tries again never meets a call it was turned away from before. */
  lemma RetryMeetsAnotherCall(steps: seq<Step>, i: nat)
    requires var s := Exec(Init(), steps); i < |s.callers| && s.callers[i].pc.Joining?
    ensures var caller := Exec(Init(), steps).callers[i]; caller.pc.call !in caller.met
  {
    InitHolds();
    ExecKeeps(Init(), steps);
    assert CallerInv(Exec(Init(), steps), i);
  }

  /** A returned value is what some finished call for the caller's own key published. */
  lemma ReturnedValueWasPublished(steps: seq<Step>, i: nat, c: nat, r: Loaded)
    requires var s := Exec(Init(), steps); i < |s.callers| && s.callers[i].pc == Returned(Got(c, r))
    ensures var s := Exec(Init(), steps);
      && c < |s.calls| && s.calls[c].key == s.callers[i].key
      && s.calls[c].call.finished && s.calls[c].call.result == Some(r)
  {
    InitHolds();
    ExecKeeps(Init(), steps);
    var s := Exec(Init(), steps);
    assert CallerInv(s, i);
    assert CallInv(s, c);
  }

  // ---------------------------------------------------------------- what never changes back

  /** Allocation order is kept and nothing that has happened to a call is undone. */
  predicate Later(s: State, t: State, c: nat)
    requires c < |s.calls|
  {
    && c < |t.calls|
    && t.calls[c].key == s.calls[c].key
    && (s.calls[c].call.abandoned ==> t.calls[c].call.abandoned)
    && (s.calls[c].call.finished ==> t.calls[c].call.finished && t.calls[c].call.result == s.calls[c].call.result)
    && (!Executing(s.calls[c]) ==> !Executing(t.calls[c]))
    && (!Mapped(s, c) ==> !Mapped(t, c))
  }

  lemma CallerStepIsLater(s: State, step: Step, c: nat)
    requires c < |s.calls| && CallInv(s, c) && !step.Arrive? && !step.Start?
    requires !(step.LoadReturns? || step.RecordRetry? || step.RemoveKey? || step.Finish?)
    ensures Later(s, CallerStep(s, step), c)
  {
    hide WaitersOf;
  }

  lemma LoaderStepIsLater(s: State, step: Step, c: nat)
    requires Inv(s) && c < |s.calls|
    requires step.LoadReturns? || step.RecordRetry? || step.RemoveKey? || step.Finish?
    ensures Later(s, LoaderStep(s, step), c)
  {
    hide WaitersOf, CallerInv;
    assert CallInv(s, c);
    if step.c < |s.calls| {
      assert CallInv(s, step.c);
    }
    hide Inv;
  }

  lemma StepIsLater(s: State, step: Step, c: nat)
    requires Inv(s) && c < |s.calls|
    ensures Later(s, Apply(s, step), c)
  {
    hide CallerStep, LoaderStep, CallerInv, WaitersOf;
    assert CallInv(s, c);
    if step.LoadReturns? || step.RecordRetry? || step.RemoveKey? || step.Finish? {
      LoaderStepIsLater(s, step, c);
    } else if !step.Arrive? && !step.Start? {
      CallerStepIsLater(s, step, c);
    }
  }

  /**
    Abandonment is for ever and with it the zero waiter count; a published result is never replaced; an unmapped call
    stays unmapped.
  */
  lemma {:induction false} RunIsLater(s: State, steps: seq<Step>, c: nat)
    requires Inv(s) && c < |s.calls|
    ensures Later(s, Exec(s, steps), c)
    ensures s.calls[c].call.abandoned ==> Exec(s, steps).calls[c].call.waiters == 0
    decreases |steps|
  {
    if steps == [] {
      assert CallInv(s, c);
    } else {
      var t := Apply(s, steps[0]);
      StepIsLater(s, steps[0], c);
      StepKeeps(s, steps[0]);
      RunIsLater(t, steps[1..], c);
      assert Exec(s, steps) == Exec(t, steps[1..]);
    }
  }

  /** The step takes a joined caller whose context is done away from the call. */
  predicate Departs(s: State, step: Step, c: nat) {
    && (step.LookBeforeWaiting? || step.Leave?) && step.i < |s.callers|
    && s.callers[step.i].ctxDone && WaitsOn(s.callers[step.i], c)
    && (if step.LookBeforeWaiting? then s.callers[step.i].pc.Arrived? else s.callers[step.i].pc.Selecting?)
  }

  /**
    A live call is abandoned if and only if its only joined caller departs before it has finished, whoever began it: a
    refresh that nobody joined is never abandoned, and one that somebody joined is when the last of them goes.
  */
  lemma AbandonedExactlyByTheLastDeparture(steps: seq<Step>, step: Step, c: nat)
    requires var s := Exec(Init(), steps); c < |s.calls| && !s.calls[c].call.abandoned
    ensures var s := Exec(Init(), steps); var t := Apply(s, step);
      && c < |t.calls|
      && (t.calls[c].call.abandoned
        <==> Departs(s, step, c) && WaitersOf(s.callers, c) == 1 && !s.calls[c].call.finished)
  {
    InitHolds();
    ExecKeeps(Init(), steps);
    var s := Exec(Init(), steps);
    hide Exec, WaitersOf;
    assert CallInv(s, c);
    StepIsLater(s, step, c);
    if step.LookBeforeWaiting? || step.Leave? || step.TakeResult? {
      if step.i < |s.callers| {
        assert CallerInv(s, step.i);
      }
    }
    hide Inv;
  }

  /** A refresh has no waiters of its own: a visitor who joins it and leaves takes the refresh down. */
  lemma JoinedRefreshCanBeAbandoned(key: Key)
    ensures var s := Exec(Init(), [Start(key, false), Arrive(key), CheckContext(0), LoadOrStore(0), AddWaiter(0),
                                   LookBeforeWaiting(0), CancelContext(0), Leave(0)]);
      |s.calls| == 1 && s.calls[0].origin == FromStart && s.calls[0].loader.Loading? && s.calls[0].call.abandoned
  {
    hide Apply;
    var s1 := Apply(Init(), Start(key, false));
    var s2 := Apply(s1, Arrive(key));
    var s3 := Apply(s2, CheckContext(0));
    var s4 := Apply(s3, LoadOrStore(0));
    var s5 := Apply(s4, AddWaiter(0));
    var s6 := Apply(s5, LookBeforeWaiting(0));
    var s7 := Apply(s6, CancelContext(0));
    var s8 := Apply(s7, Leave(0));
    RefreshIsJoined(key);
    JoinedRefreshIsLeft(s5, key);
    ExecTwo(s6, CancelContext(0), Leave(0), []);
    ExecTwo(s4, AddWaiter(0), LookBeforeWaiting(0), [CancelContext(0), Leave(0)]);
    ExecTwo(s2, CheckContext(0), LoadOrStore(0), [AddWaiter(0), LookBeforeWaiting(0), CancelContext(0), Leave(0)]);
    ExecTwo(Init(), Start(key, false), Arrive(key),
      [CheckContext(0), LoadOrStore(0), AddWaiter(0), LookBeforeWaiting(0), CancelContext(0), Leave(0)]);
  }

  lemma RefreshIsJoined(key: Key)
    ensures var s := Apply(Apply(Apply(Apply(Apply(Init(), Start(key, false)), Arrive(key)), CheckContext(0)),
      LoadOrStore(0)), AddWaiter(0));
      s.calls == [Entry(key, FromStart, NewCall(1), Loading)] && s.callers == [Caller(key, false, Arrived(0), {})]
  {
    var s2 := Apply(Apply(Init(), Start(key, false)), Arrive(key));
    assert s2.calls == [Entry(key, FromStart, NewCall(0), Loading)] && s2.callers == [Caller(key, false, Entering, {})];
    var s4 := Apply(Apply(s2, CheckContext(0)), LoadOrStore(0));
    assert s4.calls == s2.calls && s4.callers == [Caller(key, false, Joining(0), {})];
  }

  lemma JoinedRefreshIsLeft(s: State, key: Key)
    requires s.calls == [Entry(key, FromStart, NewCall(1), Loading)]
      && s.callers == [Caller(key, false, Arrived(0), {})]
    ensures var t := Apply(Apply(Apply(s, LookBeforeWaiting(0)), CancelContext(0)), Leave(0));
      |t.calls| == 1 && t.calls[0].origin == FromStart && t.calls[0].loader.Loading? && t.calls[0].call.abandoned
  {
    var t := Apply(Apply(s, LookBeforeWaiting(0)), CancelContext(0));
    assert t.calls == s.calls && t.callers == [Caller(key, true, Selecting(0), {})];
  }

  lemma ExecTwo(s: State, a: Step, b: Step, rest: seq<Step>)
    ensures Exec(s, [a, b] + rest) == Exec(Apply(Apply(s, a), b), rest)
  {
    hide Apply;
    assert ([a, b] + rest)[1..] == [b] + rest && ([b] + rest)[1..] == rest;
  }
}
