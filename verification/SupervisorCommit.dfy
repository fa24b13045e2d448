/**
  When exactly a deployment that passed every acceptance phase is recorded as a failure: the committing save is two
  steps, and an exception between them reaches a handler that finds no durable success.
*/
module SupervisorCommit {
  import opened Wrappers
  import opened Supervisor
  import opened SupervisorSafety

  const SUCCEEDED := Evidence(Committed, Success)
  const FAILED := Evidence(Committed, Failure)

  /** What a live process's memory says about the commit, whatever its mode. */
  predicate CommitOk(s: State, q: Proc) {
    && (q.mode.Failing? ==> q.mem.conclusion.Failure?)
    && (q.kind.Finalize? && q.mem.phase.Committed? ==> s.file == Some(q.mem))
    && (q.kind.Run? ==>
      && !q.scriptFailed
      && (q.mem.phase.Committed? <==> q.pc > COMMIT)
      && (q.pc > COMMIT && !q.mode.Failing? ==> q.mem == SUCCEEDED)
      && (q.pc > COMMIT + 1 ==> s.file == Some(SUCCEEDED))
      && (q.mode.Failing? && s.file.Some? ==> !s.file.value.phase.Committed?))
  }

  predicate CommitInv(s: State) {
    s.proc.Some? ==> CommitOk(s, s.proc.value)
  }

  lemma ExecuteKeepsCommit(s: State, q: Proc, complete: bool)
    requires Inv(s) && CommitInv(s) && s.proc == Some(q) && q.mode.Running?
    ensures CommitInv(Execute(s, q, complete))
  {
    hide LawfulLog, Justified, Trail, Announced, LastWritten;
  }

  lemma StepKeepsCommit(s: State, step: Step)
    requires Inv(s) && CommitInv(s)
    ensures CommitInv(Apply(s, step))
  {
    hide LawfulLog, Accepted, Restored, Recovered, Trail, Announced, LastWritten, Execute, RunOk, FinalizeOk;
    if step.Advance? && s.proc.Some? && s.proc.value.mode.Running? {
      ExecuteKeepsCommit(s, s.proc.value, step.complete);
    }
  }

  lemma {:induction false} RunKeepsCommit(steps: seq<Step>)
    ensures CommitInv(Exec(steps))
  {
    if steps == [] {
    } else {
      hide Inv, CommitInv, Apply;
      RunKeepsCommit(steps[..|steps| - 1]);
      RunKeeps(steps[..|steps| - 1]);
      StepKeepsCommit(Exec(steps[..|steps| - 1]), steps[|steps| - 1]);
    }
  }

  /**
    The process is about to record the failure of a `run` that stands between the two halves of its committing save.
  */
  predicate RecordsFailure(s: State, step: Step) {
    step.Advance? && s.proc.Some? && s.proc.value.kind.Run? && s.proc.value.mode.Failing?
      && s.proc.value.pc == COMMIT + 1
  }

  lemma ExecuteNeverRecordsFailure(s: State, q: Proc, complete: bool)
    requires Inv(s) && CommitInv(s) && s.proc == Some(q) && q.mode.Running?
    ensures Execute(s, q, complete).file == Some(FAILED) <==> s.file == Some(FAILED)
  {
    hide LawfulLog, Justified, Trail, Announced, LastWritten;
  }

  lemma FailureIsRecordedByOneStep(s: State, step: Step)
    requires Inv(s) && CommitInv(s)
    ensures Apply(s, step).file == Some(FAILED) <==> s.file == Some(FAILED) || RecordsFailure(s, step)
  {
    hide LawfulLog, Justified, Trail, Announced, LastWritten, Execute, RunOk, FinalizeOk;
    if step.Advance? && s.proc.Some? && s.proc.value.mode.Running? {
      ExecuteNeverRecordsFailure(s, s.proc.value, step.complete);
    }
  }

  // ----------------------------------------------------------------------------- where the modes come from

  predicate SameProcess(q: Proc, r: Proc) {
    q.id == r.id && q.kind == r.kind && q.pc == r.pc
  }

  lemma ModesComeFrom(s: State, step: Step)
    requires CommitInv(s) && Apply(s, step).proc.Some?
    ensures var r := Apply(s, step).proc.value;
      && (r.mode.Failing? && s.proc != Some(r) ==>
        && step.Handle? && s.proc.Some? && s.proc.value.mode.Unwinding? && SameProcess(s.proc.value, r)
        && s.file != Some(SUCCEEDED))
      && (r.mode.Unwinding? && r.kind.Run? && s.proc != Some(r) ==>
        && step.Fail? && s.proc.Some? && s.proc.value.mode.Running? && SameProcess(s.proc.value, r))
  {
  }

  function At(steps: seq<Step>, k: nat): State
    requires k <= |steps|
  {
    Exec(steps[..k])
  }

  lemma {:induction false} FailingWasHandled(steps: seq<Step>) returns (h: nat)
    requires Exec(steps).proc.Some? && Exec(steps).proc.value.mode.Failing?
    ensures h < |steps| && steps[h].Handle? && At(steps, h).proc.Some? && At(steps, h).proc.value.mode.Unwinding?
    ensures SameProcess(At(steps, h).proc.value, Exec(steps).proc.value) && At(steps, h).file != Some(SUCCEEDED)
  {
    hide Apply;
    var n := |steps| - 1;
    RunKeepsCommit(steps[..n]);
    ModesComeFrom(Exec(steps[..n]), steps[n]);
    if Exec(steps[..n]).proc == Exec(steps).proc {
      h := FailingWasHandled(steps[..n]);
      assert steps[..n][..h] == steps[..h];
    } else {
      h := n;
    }
  }

  lemma {:induction false} UnwindingWasStruck(steps: seq<Step>) returns (k: nat)
    requires Exec(steps).proc.Some? && Exec(steps).proc.value.mode.Unwinding? && Exec(steps).proc.value.kind.Run?
    ensures k < |steps| && steps[k].Fail? && At(steps, k).proc.Some? && At(steps, k).proc.value.mode.Running?
    ensures SameProcess(At(steps, k).proc.value, Exec(steps).proc.value)
  {
    hide Apply;
    var n := |steps| - 1;
    RunKeepsCommit(steps[..n]);
    ModesComeFrom(Exec(steps[..n]), steps[n]);
    if Exec(steps[..n]).proc == Exec(steps).proc {
      k := UnwindingWasStruck(steps[..n]);
      assert steps[..n][..k] == steps[..k];
    } else {
      k := n;
    }
  }

  // ----------------------------------------------------------------------------- the exact condition

  /**
    An exception at `k` strikes a `run` that has noted the commit and not saved it; no save of the same process has
    reached the file when its handler looks at `h`; and at `m` the handler's own save completes.
  */
  predicate InterruptedCommitAt(steps: seq<Step>, k: nat, h: nat, m: nat) {
    && k < h < m < |steps|
    && steps[k].Fail? && At(steps, k).proc.Some? && At(steps, k).proc.value.mode.Running?
    && At(steps, k).proc.value.kind.Run? && At(steps, k).proc.value.pc == COMMIT + 1
    && steps[h].Handle? && At(steps, h).proc.Some? && At(steps, h).proc.value.mode.Unwinding?
    && SameProcess(At(steps, h).proc.value, At(steps, k).proc.value) && At(steps, h).file != Some(SUCCEEDED)
    && steps[m].Advance? && At(steps, m).proc.Some? && At(steps, m).proc.value.mode.Failing?
    && SameProcess(At(steps, m).proc.value, At(steps, k).proc.value)
  }

  lemma {:induction false} FailureWasRecorded(steps: seq<Step>) returns (m: nat)
    requires Exec(steps).file == Some(FAILED)
    ensures m < |steps| && RecordsFailure(At(steps, m), steps[m])
  {
    hide Apply, Inv, CommitInv;
    var n := |steps| - 1;
    RunKeeps(steps[..n]);
    RunKeepsCommit(steps[..n]);
    FailureIsRecordedByOneStep(Exec(steps[..n]), steps[n]);
    if Exec(steps[..n]).file == Some(FAILED) {
      m := FailureWasRecorded(steps[..n]);
      assert steps[..n][..m] == steps[..m];
    } else {
      m := n;
    }
  }

  lemma {:induction false} RecordedFailureStays(steps: seq<Step>, m: nat)
    requires m < |steps| && RecordsFailure(At(steps, m), steps[m])
    ensures Exec(steps).file == Some(FAILED)
  {
    hide Apply, Inv, CommitInv;
    var n := |steps| - 1;
    RunKeeps(steps[..n]);
    RunKeepsCommit(steps[..n]);
    FailureIsRecordedByOneStep(Exec(steps[..n]), steps[n]);
    if m < n {
      assert steps[..n][..m] == steps[..m];
      RecordedFailureStays(steps[..n], m);
    }
  }

  /**
    In every run the record is committed with the conclusion failure if and only if a commit was interrupted like that.
  */
  lemma CommittedFailureExactlyWhenInterrupted(steps: seq<Step>)
    ensures Exec(steps).file == Some(FAILED) <==> exists k, h, m :: InterruptedCommitAt(steps, k, h, m)
  {
    hide Exec;
    if Exec(steps).file == Some(FAILED) {
      var m := FailureWasRecorded(steps);
      var h := FailingWasHandled(steps[..m]);
      assert steps[..m][..h] == steps[..h];
      var k := UnwindingWasStruck(steps[..h]);
      assert steps[..h][..k] == steps[..k];
      assert InterruptedCommitAt(steps, k, h, m);
    }
    if k, h, m :| InterruptedCommitAt(steps, k, h, m) {
      RecordedFailureStays(steps, m);
    }
  }
}
