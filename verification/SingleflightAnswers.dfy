/** Which value a caller gets: what the one load function of the call it joined returned, and nothing else. */
module SingleflightAnswers {
  import opened Wrappers
  import opened Singleflight
  import opened SingleflightSafety

  function At(steps: seq<Step>, k: nat): State
    requires k <= |steps|
  {
    Exec(Init(), steps[..k])
  }

  lemma ExecLast(steps: seq<Step>)
    requires steps != []
    ensures Exec(Init(), steps) == Apply(At(steps, |steps| - 1), steps[|steps| - 1])
  {
    hide Apply;
    var n := |steps| - 1;
    assert steps == steps[..n] + [steps[n]];
    ExecConcat(Init(), steps[..n], [steps[n]]);
    var s := At(steps, n);
    assert [steps[n]][1..] == [];
    assert Exec(s, [steps[n]]) == Exec(Apply(s, steps[n]), []);
  }

  // ------------------------------------------------------------------------- what a call carries

  /** What the load function returned, as the loader holds it on its way and the call keeps it at the end. */
  function Carried(e: Entry): Option<Loaded> {
    match e.loader
    case Loading => None
    case Recording(r) => Some(r)
    case Removing(r) => Some(r)
    case Publishing(r) => Some(r)
    case Stopped => e.call.result
  }

  /** The load function of the call returns at this step. */
  predicate LoadReturnsAt(steps: seq<Step>, k: nat, c: nat, r: Loaded) {
    k < |steps| && steps[k] == LoadReturns(c, r) && c < |At(steps, k).calls| && At(steps, k).calls[c].loader.Loading?
  }

  lemma StepCarries(s: State, step: Step, c: nat)
    ensures |s.calls| <= |Apply(s, step).calls|
    ensures c < |s.calls| ==>
      Carried(Apply(s, step).calls[c]) ==
        if step.LoadReturns? && step.c == c && s.calls[c].loader.Loading? then Some(step.r) else Carried(s.calls[c])
    ensures |s.calls| <= c < |Apply(s, step).calls| ==> Carried(Apply(s, step).calls[c]) == None
  {
  }

  /** A call carries a value if and only if its load function returned that value at some step of the run. */
  lemma {:induction false} CarriedWasReturned(steps: seq<Step>, c: nat, r: Loaded)
    ensures (exists k :: LoadReturnsAt(steps, k, c, r)) <==>
      c < |Exec(Init(), steps).calls| && Carried(Exec(Init(), steps).calls[c]) == Some(r)
  {
    hide Apply, Carried;
    if steps == [] {
    } else {
      var n := |steps| - 1;
      var s := At(steps, n);
      ExecLast(steps);
      StepCarries(s, steps[n], c);
      CarriedWasReturned(steps[..n], c, r);
      forall k: nat | k < n ensures LoadReturnsAt(steps, k, c, r) <==> LoadReturnsAt(steps[..n], k, c, r) {
        assert steps[..n][..k] == steps[..k];
      }
      LoadingCarriesNothing(s, c);
      if k: nat :| LoadReturnsAt(steps, k, c, r) && k != n {
        assert LoadReturnsAt(steps[..n], k, c, r);
      }
      if k: nat :| LoadReturnsAt(steps[..n], k, c, r) {
        assert LoadReturnsAt(steps, k, c, r);
      }
      if c < |s.calls| && steps[n] == LoadReturns(c, r) && s.calls[c].loader.Loading? {
        assert LoadReturnsAt(steps, n, c, r);
      }
    }
  }

  lemma LoadingCarriesNothing(s: State, c: nat)
    ensures c < |s.calls| && s.calls[c].loader.Loading? ==> Carried(s.calls[c]) == None
  {
  }

  /** A load function returns once. */
  lemma LoadReturnsOnce(steps: seq<Step>, c: nat, j: nat, q: Loaded, k: nat, r: Loaded)
    requires LoadReturnsAt(steps, j, c, q) && LoadReturnsAt(steps, k, c, r)
    ensures j == k && q == r
  {
    if j < k {
      EarlierReturnIsCarried(steps, j, k, c, q);
    } else if k < j {
      EarlierReturnIsCarried(steps, k, j, c, r);
    }
  }

  lemma EarlierReturnIsCarried(steps: seq<Step>, j: nat, k: nat, c: nat, q: Loaded)
    requires LoadReturnsAt(steps, j, c, q) && j < k <= |steps|
    ensures c < |At(steps, k).calls| && Carried(At(steps, k).calls[c]) == Some(q)
  {
    assert steps[..k][..j] == steps[..j];
    assert LoadReturnsAt(steps[..k], j, c, q);
    CarriedWasReturned(steps[..k], c, q);
  }

  /** In every run a finished call's result is what its load function returned, at the one step at which it returned. */
  lemma ResultIsWhatTheLoadReturned(steps: seq<Step>, c: nat) returns (k: nat)
    requires c < |Exec(Init(), steps).calls| && Exec(Init(), steps).calls[c].call.finished
    ensures var result := Exec(Init(), steps).calls[c].call.result;
      result.Some? && LoadReturnsAt(steps, k, c, result.value)
  {
    InitHolds();
    ExecKeeps(Init(), steps);
    var s := Exec(Init(), steps);
    assert CallInv(s, c);
    CarriedWasReturned(steps, c, s.calls[c].call.result.value);
    k :| LoadReturnsAt(steps, k, c, s.calls[c].call.result.value);
  }

  /** In every run the value a caller returns is what the load function of a call for its own key returned. */
  lemma ReturnedValueWasLoaded(steps: seq<Step>, i: nat, c: nat, r: Loaded) returns (k: nat)
    requires var s := Exec(Init(), steps); i < |s.callers| && s.callers[i].pc == Returned(Got(c, r))
    ensures LoadReturnsAt(steps, k, c, r) && At(steps, k).calls[c].key == Exec(Init(), steps).callers[i].key
  {
    ReturnedValueWasPublished(steps, i, c, r);
    k := ResultIsWhatTheLoadReturned(steps, c);
    InitHolds();
    ExecKeeps(Init(), steps[..k]);
    RunIsLater(At(steps, k), steps[k..], c);
    ExecConcat(Init(), steps[..k], steps[k..]);
    assert steps[..k] + steps[k..] == steps;
  }

  // ------------------------------------------------------------------------- cancellation and backoff

  predicate CanceledByOwnContext(s: State) {
    forall i | 0 <= i < |s.callers| :: s.callers[i].pc == Returned(Canceled) ==> s.callers[i].ctxDone
  }

  lemma StepKeepsCanceled(s: State, step: Step)
    requires CanceledByOwnContext(s)
    ensures CanceledByOwnContext(Apply(s, step))
  {
  }

  /** In every run a caller is answered with a cancellation only when its own context is done. */
  lemma {:induction false} CanceledMeansOwnContext(steps: seq<Step>)
    ensures CanceledByOwnContext(Exec(Init(), steps))
  {
    hide Apply;
    if steps == [] {
    } else {
      CanceledMeansOwnContext(steps[..|steps| - 1]);
      ExecLast(steps);
      StepKeepsCanceled(At(steps, |steps| - 1), steps[|steps| - 1]);
    }
  }

  /** What the last refresh of the key that has recorded its outcome recorded. */
  function LastRecorded(steps: seq<Step>, key: Key): Option<Loaded> {
    if steps == [] then None
    else
      var n := |steps| - 1;
      var s, step := At(steps, n), steps[n];
      if step.RecordRetry? && step.c < |s.calls| && s.calls[step.c].loader.Recording? && s.calls[step.c].key == key
      then Some(s.calls[step.c].loader.r)
      else LastRecorded(steps[..n], key)
  }

  lemma StepRecords(s: State, step: Step, key: Key)
    ensures key in Apply(s, step).backoff <==>
      if step.RecordRetry? && step.c < |s.calls| && s.calls[step.c].loader.Recording? && s.calls[step.c].key == key
      then s.calls[step.c].loader.r.Failure? else key in s.backoff
  {
  }

  /** In every run a key is held back exactly while the last refresh of it that ended had failed. */
  lemma {:induction false} HeldBackAfterAFailedRefresh(steps: seq<Step>, key: Key)
    ensures key in Exec(Init(), steps).backoff <==> LastRecorded(steps, key) == Some(Failure)
  {
    hide Apply;
    if steps == [] {
    } else {
      HeldBackAfterAFailedRefresh(steps[..|steps| - 1], key);
      ExecLast(steps);
      StepRecords(At(steps, |steps| - 1), steps[|steps| - 1], key);
    }
  }

  /** A refresh begins exactly when its key is idle and either not held back or ready to be tried again. */
  lemma RefreshBeginsExactlyWhen(s: State, key: Key, ready: bool)
    ensures var t := Apply(s, Start(key, ready));
      if key !in s.loads && (key !in s.backoff || ready)
      then |t.calls| == |s.calls| + 1 && Mapped(t, |s.calls|)
        && t.calls[|s.calls|] == Entry(key, FromStart, NewCall(0), Loading)
      else t == s
  {
  }

  // ------------------------------------------------------------------------- progress

  function StepsLeft(loader: LoaderPc): nat {
    match loader case Loading => 4 case Recording(_) => 3 case Removing(_) => 2 case Publishing(_) => 1 case Stopped =>
      0
  }

  /** The loader's next step; `r` is what its load function returns if it is still to return. */
  function NextOf(loader: LoaderPc, c: nat, r: Loaded): Step {
    match loader
    case Loading => LoadReturns(c, r)
    case Recording(_) => RecordRetry(c)
    case Removing(_) => RemoveKey(c)
    case _ => Finish(c)
  }

  predicate IsStepOf(step: Step, c: nat) {
    (step.LoadReturns? || step.RecordRetry? || step.RemoveKey? || step.Finish?) && step.c == c
  }

  lemma LoaderMoves(s: State, c: nat, r: Loaded)
    requires c < |s.calls| && !s.calls[c].loader.Stopped?
    ensures var t := Apply(s, NextOf(s.calls[c].loader, c, r));
      && t.callers == s.callers && |t.calls| == |s.calls| && StepsLeft(t.calls[c].loader) < StepsLeft(s.calls[c].loader)
      && Outcome(t.calls[c], r) == Outcome(s.calls[c], r) && !t.calls[c].loader.Loading?
  {
  }

  /**
    What the call will publish or has published: what its load function returned, or `r` if it is still to return it.
  */
  function Outcome(e: Entry, r: Loaded): Loaded {
    var carried := Carried(e);
    if carried.Some? then carried.value else r
  }

  /** A loader publishes what its load function returns and leaves its key free, by its own steps alone. */
  lemma {:induction false} LoaderFinishes(s: State, c: nat, r: Loaded) returns (steps: seq<Step>)
    requires Inv(s) && c < |s.calls|
    ensures forall step <- steps :: IsStepOf(step, c)
    ensures var t := Exec(s, steps);
      && Inv(t) && t.callers == s.callers && c < |t.calls|
      && t.calls[c].call.finished && t.calls[c].call.closes == 1 && !Mapped(t, c)
      && t.calls[c].call.result == Some(Outcome(s.calls[c], r))
    decreases StepsLeft(s.calls[c].loader)
  {
    if s.calls[c].loader.Stopped? {
      assert CallInv(s, c);
      steps := [];
    } else {
      hide Inv, Apply;
      var step := NextOf(s.calls[c].loader, c, r);
      LoaderMoves(s, c, r);
      StepKeeps(s, step);
      var rest := LoaderFinishes(Apply(s, step), c, r);
      steps := [step] + rest;
      assert steps[1..] == rest;
    }
  }

  /** A joined caller with a live context, standing at a finished call, takes its result and returns it. */
  lemma FinishedCallAnswers(s: State, i: nat, c: nat)
    requires Inv(s) && AtCall(s, i, c) && WaitsOn(s.callers[i], c) && !s.callers[i].ctxDone && s.calls[c].call.finished
    ensures var t := if s.callers[i].pc.Arrived? then Apply(s, LookBeforeWaiting(i)) else s;
      var u := Apply(Apply(t, TakeResult(i)), Return(i));
      && i < |u.callers| && s.calls[c].call.result.Some?
      && u.callers[i].pc == Returned(Got(c, s.calls[c].call.result.value))
      && Mapped(u, c) == Mapped(s, c)
  {
    hide WaitersOf;
    assert CallInv(s, c);
    assert CallerInv(s, i);
    hide Inv;
  }

  lemma {:induction false} ExecConcat(s: State, a: seq<Step>, b: seq<Step>)
    ensures Exec(s, a + b) == Exec(Exec(s, a), b)
    decreases |a|
  {
    hide Apply;
    if a == [] {
      assert a + b == b;
    } else {
      assert (a + b)[1..] == a[1..] + b;
      ExecConcat(Apply(s, a[0]), a[1..], b);
    }
  }

  /**
    From any reachable state a joined caller whose context lives comes back with what its call's load function returned,
    or with what it returns now, by finitely many steps of that loader and its own; the key is then not held by the
    call.
  */
  lemma JoinedCallerReturns(before: seq<Step>, i: nat, c: nat, r: Loaded) returns (after: seq<Step>)
    requires var s := Exec(Init(), before); AtCall(s, i, c) && WaitsOn(s.callers[i], c) && !s.callers[i].ctxDone
    ensures forall step <- after ::
      IsStepOf(step, c) || step == LookBeforeWaiting(i) || step == TakeResult(i) || step == Return(i)
    ensures var t := Exec(Init(), before + after);
      i < |t.callers| && t.callers[i].pc == Returned(Got(c, Outcome(Exec(Init(), before).calls[c], r))) && !Mapped(t, c)
  {
    InitHolds();
    ExecKeeps(Init(), before);
    hide Exec, Inv, Apply;
    var s := Exec(Init(), before);
    var load := LoaderFinishes(s, c, r);
    var t := Exec(s, load);
    FinishedCallAnswers(t, i, c);
    var look := if t.callers[i].pc.Arrived? then [LookBeforeWaiting(i)] else [];
    var mine := look + [TakeResult(i), Return(i)];
    ExecTail(t, look, TakeResult(i), Return(i));
    ExecConcat(s, load, mine);
    ExecConcat(Init(), before, load + mine);
    after := load + mine;
  }

  lemma ExecTail(s: State, look: seq<Step>, a: Step, b: Step)
    requires |look| <= 1
    ensures Exec(s, look + [a, b]) == Apply(Apply(if look == [] then s else Apply(s, look[0]), a), b)
  {
    hide Apply;
    var t := if look == [] then s else Apply(s, look[0]);
    ExecTwo(t, a, b, []);
    assert [a, b] + [] == [a, b];
    assert Exec(Apply(Apply(t, a), b), []) == Apply(Apply(t, a), b);
    if look != [] {
      assert (look + [a, b])[1..] == [a, b];
    } else {
      assert look + [a, b] == [a, b];
    }
  }

  /** An arriving caller whose key's mapped call is live joins it; otherwise it begins a call of its own. */
  lemma TryingCallerJoins(s: State, i: nat) returns (steps: seq<Step>, c: nat)
    requires Inv(s) && i < |s.callers| && s.callers[i].pc.Trying? && !s.callers[i].ctxDone
    ensures var t := Exec(s, steps);
      && Inv(t) && AtCall(t, i, c) && WaitsOn(t.callers[i], c) && !t.callers[i].ctxDone
      && (s.callers[i].key in s.loads && !Dead(s.calls[s.loads[s.callers[i].key]].call) ==>
        c == s.loads[s.callers[i].key])
    ensures forall step <- steps :: step == LoadOrStore(i) || step == AddWaiter(i) || step == Evict(i)
  {
    hide WaitersOf, CallInv, CallerInv;
    var key := s.callers[i].key;
    StepKeeps(s, LoadOrStore(i));
    var s1 := Apply(s, LoadOrStore(i));
    ExecFew(s, LoadOrStore(i), AddWaiter(i), Evict(i), LoadOrStore(i));
    if key !in s.loads {
      steps, c := [LoadOrStore(i)], |s.calls|;
    } else {
      c := s.loads[key];
      StepKeeps(s1, AddWaiter(i));
      var s2 := Apply(s1, AddWaiter(i));
      if !Dead(s.calls[c].call) {
        steps := [LoadOrStore(i), AddWaiter(i)];
      } else {
        StepKeeps(s2, Evict(i));
        var s3 := Apply(s2, Evict(i));
        assert key !in s3.loads;
        StepKeeps(s3, LoadOrStore(i));
        steps, c := [LoadOrStore(i), AddWaiter(i), Evict(i), LoadOrStore(i)], |s3.calls|;
      }
    }
  }

  lemma ExecFew(s: State, a: Step, b: Step, c: Step, d: Step)
    ensures Exec(s, [a]) == Apply(s, a) && Exec(s, [a, b]) == Apply(Apply(s, a), b)
    ensures Exec(s, [a, b, c, d]) == Apply(Apply(Apply(Apply(s, a), b), c), d)
  {
    hide Apply;
    assert [a][1..] == [] && [a, b][1..] == [b] && [b][1..] == [];
    assert Exec(Apply(s, a), [b]) == Exec(Apply(Apply(s, a), b), []);
    ExecTwo(s, a, b, [c, d]);
    assert [a, b] + [c, d] == [a, b, c, d];
    assert [c, d][1..] == [d] && [d][1..] == [];
    var t := Apply(Apply(s, a), b);
    assert Exec(Apply(t, c), [d]) == Exec(Apply(Apply(t, c), d), []);
  }

  /**
    Whatever is under way, a caller that arrives with a live context and is left alone comes back with a loaded value.
  */
  lemma ArrivingCallerReturns(before: seq<Step>, key: Key, r: Loaded) returns (after: seq<Step>)
    ensures var i, t := |Exec(Init(), before).callers|, Exec(Init(), before + after);
      i < |t.callers| && t.callers[i].key == key && t.callers[i].pc.Returned? && t.callers[i].pc.answer.Got?
  {
    InitHolds();
    ExecKeeps(Init(), before);
    var s := Exec(Init(), before);
    var i := |s.callers|;
    StepKeeps(s, Arrive(key));
    StepKeeps(Apply(s, Arrive(key)), CheckContext(i));
    ExecFew(s, Arrive(key), CheckContext(i), CheckContext(i), CheckContext(i));
    ExecConcat(Init(), before, [Arrive(key), CheckContext(i)]);
    var entered := before + [Arrive(key), CheckContext(i)];
    var join, c := TryingCallerJoins(Exec(Init(), entered), i);
    ExecConcat(Init(), entered, join);
    var rest := JoinedCallerReturns(entered + join, i, c, r);
    after := [Arrive(key), CheckContext(i)] + join + rest;
    assert before + after == entered + join + rest;
    KeyStays(Exec(Init(), entered), join + rest, i);
    ExecConcat(Init(), entered, join + rest);
    assert entered + (join + rest) == entered + join + rest;
  }

  lemma {:induction false} KeyStays(s: State, steps: seq<Step>, i: nat)
    requires i < |s.callers|
    ensures i < |Exec(s, steps).callers| && Exec(s, steps).callers[i].key == s.callers[i].key
    decreases |steps|
  {
    if steps == [] {
    } else {
      KeyStays(Apply(s, steps[0]), steps[1..], i);
    }
  }
}
