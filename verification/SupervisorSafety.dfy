/**
  What every run of the supervisor keeps, however often its processes are interrupted, killed and finalized.
*/
module SupervisorSafety {
  import opened Wrappers
  import opened Supervisor

  /** How much of the acceptance trail a `run` that stands at `pc` has left. */
  function RunMarks(pc: nat): nat {
    if pc == 0 then 0 else if pc <= 4 then 1 else if pc == 5 then 2 else if pc <= 9 then 3 else if pc == 10 then 4
      else if pc <= 12 then 5 else if pc == 13 then 6 else if pc <= 15 then 7 else if pc == 16 then 8
      else if pc <= 20 then 9 else if pc == 21 then 10 else if pc == 22 then 11 else 12
  }

  /** How much of the restoration trail a `finalize` with no failed script has left. */
  function FinalizeMarks(pc: nat): nat {
    if pc <= 1 then 0 else if pc == 2 then 1 else if pc == 3 then 2 else if pc <= 7 then 3 else if pc == 8 then 4
      else if pc <= 10 then 5 else if pc == 11 then 6 else 7
  }

  function LastWritten(log: seq<Event>): Option<Evidence> {
    if log == [] then None
    else if log[|log| - 1].Wrote? then Some(log[|log| - 1].evidence)
    else LastWritten(log[..|log| - 1])
  }

  ghost predicate RunOk(s: State, q: Proc) {
    && q.pc <= COMMIT + 2
    && Trail(s.log, q.id) == ACCEPTANCE[..RunMarks(q.pc)]
    && (q.pc == 3 ==> q.mem.phase == Quiescing)
    && (q.pc == 8 ==> q.mem.phase == Migrating)
    && (q.pc == 19 ==> q.mem.phase == Activating)
    && (q.pc >= 4 ==> Announced(s.log, q.id, Quiescing))
    && (q.pc >= 9 ==> Announced(s.log, q.id, Migrating))
    && (q.pc >= 20 ==> Announced(s.log, q.id, Activating))
    && (q.pc <= COMMIT ==> !Terminal(q.mem.phase))
    && (q.pc > COMMIT ==> q.mem == Evidence(Committed, Success))
    && (q.pc > COMMIT + 1 ==> s.file == Some(q.mem))
    && !q.scriptFailed
  }

  ghost predicate FinalizeOk(s: State, q: Proc) {
    && q.pc <= CONCLUDE + 2
    && (q.pc == 0 && Terminal(q.mem.phase) ==> s.file == Some(q.mem))
    && (0 < q.pc <= CONCLUDE ==> !Terminal(q.mem.phase))
    && (q.pc > 3 ==> Passed(q.id, RecoveryCleanup) in s.log && Recovered(s.log, q.id))
    && (q.pc == 6 ==> q.mem.phase == RollingBack)
    && (q.pc > 6 ==> Announced(s.log, q.id, RollingBack))
    && (q.pc > 5 ==> q.mem.conclusion.Failure?)
    && (q.scriptFailed ==> q.pc >= PROXY_SCRIPT && !Terminal(q.mem.phase))
    && (!q.scriptFailed ==> Trail(s.log, q.id) == RESTORATION[..FinalizeMarks(q.pc)])
    && (q.pc > CONCLUDE && !q.scriptFailed ==> q.mem.phase.RolledBack? || q.mem.phase.RolledBackDegraded?)
    && (q.pc > CONCLUDE + 1 && !q.scriptFailed ==> s.file == Some(q.mem))
  }

  ghost predicate ProcOk(s: State, q: Proc) {
    && q.id < s.started
    && Justified(s.log, q.mem)
    && (q.mode.Failing? ==> q.mem.conclusion.Failure?)
    && (s.file.Some? && Terminal(s.file.value.phase) ==> q.mem == s.file.value)
    && (q.mode.Running? ==> if q.kind.Run? then RunOk(s, q) else FinalizeOk(s, q))
  }

  ghost predicate Inv(s: State) {
    && LawfulLog(s.log)
    && s.file == LastWritten(s.log)
    && (s.file.Some? ==> Justified(s.log, s.file.value))
    && (forall e <- s.log :: e.id < s.started)
    && (forall w <- s.log | WroteTerminal(w) :: s.file == Some(w.evidence))
    && (s.proc.Some? ==> ProcOk(s, s.proc.value))
  }

  // ----------------------------------------------------------------------------- growing logs

  lemma {:induction false} LogGrows(log: seq<Event>, e: Event)
    ensures forall id :: Trail(log + [e], id) == Trail(log, id) + if e.id == id then MarkOf(e) else []
    ensures LastWritten(log + [e]) == if e.Wrote? then Some(e.evidence) else LastWritten(log)
    ensures forall v | Justified(log, v) :: Justified(log + [e], v)
    ensures forall id | Recovered(log, id) :: Recovered(log + [e], id)
    ensures forall id, phase | Announced(log, id, phase) :: Announced(log + [e], id, phase)
    ensures e.Wrote? ==> Announced(log + [e], e.id, e.evidence.phase)
    ensures LawfulLog(log) && Lawful(log, e) ==> LawfulLog(log + [e])
  {
    var grown := log + [e];
    assert grown[..|log|] == log;
    forall id
      ensures Trail(grown, id) == Trail(log, id) + if e.id == id then MarkOf(e) else []
      ensures Accepted(log, id) ==> Accepted(grown, id)
      ensures Restored(log, id) ==> Restored(grown, id)
      ensures Recovered(log, id) ==> Recovered(grown, id)
    {
    }
    forall id, phase | Announced(log, id, phase) ensures Announced(grown, id, phase) {
      var c :| Wrote(id, Evidence(phase, c)) in log;
      assert Wrote(id, Evidence(phase, c)) in grown;
    }
    if e.Wrote? {
      assert Wrote(e.id, Evidence(e.evidence.phase, e.evidence.conclusion)) in grown;
    }
  }

  lemma {:induction false} LawfulAt(log: seq<Event>, i: nat)
    requires LawfulLog(log) && i < |log|
    ensures Lawful(log[..i], log[i])
  {
    if i < |log| - 1 {
      LawfulAt(log[..|log| - 1], i);
      assert log[..|log| - 1][..i] == log[..i];
    }
  }

  lemma {:induction false} NobodyPassed(log: seq<Event>, id: nat)
    requires forall e <- log :: e.id != id
    ensures Trail(log, id) == []
  {
    if log == [] {
    } else {
      NobodyPassed(log[..|log| - 1], id);
    }
  }

  lemma {:induction false} LastWrittenIsLogged(log: seq<Event>)
    requires LastWritten(log).Some?
    ensures exists w <- log :: w.Wrote? && w.evidence == LastWritten(log).value
  {
    if !log[|log| - 1].Wrote? {
      LastWrittenIsLogged(log[..|log| - 1]);
    }
  }

  // ----------------------------------------------------------------------------- the steps

  lemma BeginKeeps(s: State, k: Kind)
    requires Inv(s)
    ensures Inv(ApplyBegin(s, k))
  {
    var e := Began(s.started, k);
    LogGrows(s.log, e);
    NobodyPassed(s.log, s.started);
    var t := ApplyBegin(s, k);
    if t != s {
      assert Justified(s.log, t.proc.value.mem);
    }
  }

  lemma SaveKeeps(s: State, q: Proc)
    requires Inv(s) && s.proc.Some? && q.id == s.proc.value.id < s.started
    requires Justified(s.log, q.mem)
    requires s.file.Some? && Terminal(s.file.value.phase) ==> q.mem == s.file.value
    ensures Inv(Save(s, q).(proc := None))
    ensures Justified(Save(s, q).log, q.mem)
    ensures Trail(Save(s, q).log, q.id) == Trail(s.log, q.id)
    ensures forall id | Recovered(s.log, id) :: Recovered(Save(s, q).log, id)
    ensures forall id, phase | Announced(s.log, id, phase) :: Announced(Save(s, q).log, id, phase)
    ensures Announced(Save(s, q).log, q.id, q.mem.phase)
  {
    LogGrows(s.log, Wrote(q.id, q.mem));
  }

  lemma ExitKeeps(s: State, q: Proc, code: nat)
    requires Inv(s.(proc := None)) && q.id < s.started
    requires code == 0 ==>
      && s.file.Some? && Terminal(s.file.value.phase)
      && (q.kind.Run? ==> s.file.value == Evidence(Committed, Success))
    requires code != 0 ==>
      && s.log != [] && s.log[|s.log| - 1].Wrote? && s.log[|s.log| - 1].id == q.id
      && s.log[|s.log| - 1].evidence.conclusion.Failure?
    ensures Inv(Exit(s, q, code))
  {
    if code == 0 {
      LastWrittenIsLogged(s.log);
    }
    hide LawfulLog, Justified, Trail, Announced, LastWritten;
    LogGrows(s.log, Exited(q.id, q.kind, code));
  }

  /** An event other than a save, logged lawfully by the live process. */
  lemma LogKeeps(s: State, q: Proc, e: Event, next: Proc)
    requires Inv(s) && s.proc == Some(q) && e.id == q.id == next.id && !e.Wrote? && Lawful(s.log, e)
    requires next.mem == q.mem
    ensures var t := s.(proc := Some(next), log := s.log + [e]); Inv(t.(proc := None)) && Justified(t.log, next.mem)
    ensures Trail(s.log + [e], q.id) == Trail(s.log, q.id) + MarkOf(e)
    ensures forall id | Recovered(s.log, id) :: Recovered(s.log + [e], id)
    ensures forall id, phase | Announced(s.log, id, phase) :: Announced(s.log + [e], id, phase)
  {
    hide LawfulLog, Justified, Trail, Announced, LastWritten, Lawful, RunOk, FinalizeOk;
    LogGrows(s.log, e);
  }

  lemma RunNoteKeeps(s: State, q: Proc, complete: bool)
    requires Inv(s) && s.proc == Some(q) && q.mode.Running? && q.kind.Run? && RunAt(q.pc).Note?
    ensures Inv(Execute(s, q, complete))
  {
    assert q.pc == COMMIT ==> Accepted(s.log, q.id);
  }

  lemma RunWriteKeeps(s: State, q: Proc, complete: bool)
    requires Inv(s) && s.proc == Some(q) && q.mode.Running? && q.kind.Run? && RunAt(q.pc).Write?
    ensures Inv(Execute(s, q, complete))
  {
    hide LawfulLog, Justified, Trail, Announced, LastWritten;
    SaveKeeps(s, q.(pc := q.pc + 1));
    if q.pc == 3 {
      assert Wrote(q.id, Evidence(Quiescing, q.mem.conclusion)) in Execute(s, q, complete).log;
    }
  }

  lemma RunActKeeps(s: State, q: Proc, complete: bool)
    requires Inv(s) && s.proc == Some(q) && q.mode.Running? && q.kind.Run? && RunAt(q.pc).Act?
    ensures Inv(Execute(s, q, complete))
  {
    hide LawfulLog, Justified, Trail, Announced, LastWritten;
    LogKeeps(s, q, Acted(q.id, RunAt(q.pc).action), q.(pc := q.pc + 1));
  }

  lemma RunPassKeeps(s: State, q: Proc, complete: bool)
    requires Inv(s) && s.proc == Some(q) && q.mode.Running? && q.kind.Run? && RunAt(q.pc).Pass?
    ensures Inv(Execute(s, q, complete))
  {
    hide LawfulLog, Justified, Trail, Announced, LastWritten;
    LogKeeps(s, q, Passed(q.id, RunAt(q.pc).proof), q.(pc := q.pc + 1));
  }

  lemma RunReturnKeeps(s: State, q: Proc, complete: bool)
    requires Inv(s) && s.proc == Some(q) && q.mode.Running? && q.kind.Run? && RunAt(q.pc).Return?
    ensures Inv(Execute(s, q, complete))
  {
    hide LawfulLog, Justified, Trail, Announced, LastWritten;
    ExitKeeps(s, q, 0);
  }

  lemma RunExecuteKeeps(s: State, q: Proc, complete: bool)
    requires Inv(s) && s.proc == Some(q) && q.mode.Running? && q.kind.Run?
    ensures Inv(Execute(s, q, complete))
  {
    hide Inv, Execute;
    assert !RunAt(q.pc).Check? && !RunAt(q.pc).Conclude?;
    match RunAt(q.pc) {
      case Note(_, _) => RunNoteKeeps(s, q, complete);
      case Write => RunWriteKeeps(s, q, complete);
      case Act(_) => RunActKeeps(s, q, complete);
      case Pass(_) => RunPassKeeps(s, q, complete);
      case Return => RunReturnKeeps(s, q, complete);
    }
  }

  lemma FinalizeWriteKeeps(s: State, q: Proc, complete: bool)
    requires Inv(s) && s.proc == Some(q) && q.mode.Running? && q.kind.Finalize? && FinalizeAt(q.pc).Write?
    ensures Inv(Execute(s, q, complete))
  {
    hide LawfulLog, Justified, Trail, Announced, LastWritten;
    SaveKeeps(s, q.(pc := q.pc + 1));
  }

  lemma FinalizeActKeeps(s: State, q: Proc, complete: bool)
    requires Inv(s) && s.proc == Some(q) && q.mode.Running? && q.kind.Finalize? && FinalizeAt(q.pc).Act?
    ensures Inv(Execute(s, q, complete))
  {
    hide LawfulLog, Justified, Trail, Announced, LastWritten;
    LogKeeps(s, q, Acted(q.id, FinalizeAt(q.pc).action), q.(pc := q.pc + 1));
  }

  lemma FinalizePassKeeps(s: State, q: Proc, complete: bool)
    requires Inv(s) && s.proc == Some(q) && q.mode.Running? && q.kind.Finalize? && FinalizeAt(q.pc).Pass?
    ensures Inv(Execute(s, q, complete))
  {
    hide LawfulLog, Justified, Trail, Announced, LastWritten;
    LogKeeps(s, q, Passed(q.id, FinalizeAt(q.pc).proof), Execute(s, q, complete).proc.value);
  }

  lemma FinalizeConcludeKeeps(s: State, q: Proc, complete: bool)
    requires Inv(s) && s.proc == Some(q) && q.mode.Running? && q.kind.Finalize? && FinalizeAt(q.pc).Conclude?
    ensures Inv(Execute(s, q, complete))
  {
    assert !q.scriptFailed ==> Restored(s.log, q.id);
  }

  lemma FinalizeBranchKeeps(s: State, q: Proc, complete: bool)
    requires Inv(s) && s.proc == Some(q) && q.mode.Running? && q.kind.Finalize?
    requires FinalizeAt(q.pc).Check? || FinalizeAt(q.pc).Return? || FinalizeAt(q.pc).Note?
    ensures Inv(Execute(s, q, complete))
  {
    hide LawfulLog, Trail, Announced, LastWritten;
    if (FinalizeAt(q.pc).Check? && Terminal(q.mem.phase)) || (FinalizeAt(q.pc).Return? && !q.scriptFailed) {
      ExitKeeps(s, q, 0);
    }
  }

  lemma FinalizeExecuteKeeps(s: State, q: Proc, complete: bool)
    requires Inv(s) && s.proc == Some(q) && q.mode.Running? && q.kind.Finalize?
    ensures Inv(Execute(s, q, complete))
  {
    hide Inv, Execute;
    match FinalizeAt(q.pc) {
      case Write => FinalizeWriteKeeps(s, q, complete);
      case Act(_) => FinalizeActKeeps(s, q, complete);
      case Pass(_) => FinalizePassKeeps(s, q, complete);
      case Conclude => FinalizeConcludeKeeps(s, q, complete);
      case _ => FinalizeBranchKeeps(s, q, complete);
    }
  }

  lemma AdvanceKeeps(s: State, complete: bool)
    requires Inv(s)
    ensures Inv(ApplyAdvance(s, complete))
  {
    hide Execute, LawfulLog, Justified, Trail, Announced, LastWritten;
    if s.proc.Some? {
      var q := s.proc.value;
      if q.mode.Failing? {
        SaveKeeps(s, q);
        ExitKeeps(Save(s, q), q, 1);
      } else if q.mode.Running? {
        if q.kind.Run? {
          RunExecuteKeeps(s, q, complete);
        } else {
          FinalizeExecuteKeeps(s, q, complete);
        }
      }
    }
  }

  lemma ResaveKeeps(s: State)
    requires Inv(s)
    ensures Inv(ApplyResave(s))
  {
    hide LawfulLog, Justified, Trail, Announced, LastWritten;
    if s.proc.Some? && !s.proc.value.mode.Failing? {
      SaveKeeps(s, s.proc.value);
    }
  }

  lemma HandleKeeps(s: State)
    requires Inv(s)
    ensures Inv(ApplyHandle(s))
  {
    if s.proc.Some? && s.proc.value.mode.Unwinding? && s.file == Some(Evidence(Committed, Success)) {
      ExitKeeps(s, s.proc.value, 0);
    }
  }

  lemma StepKeeps(s: State, step: Step)
    requires Inv(s)
    ensures Inv(Apply(s, step))
  {
    hide ApplyBegin, ApplyAdvance, ApplyResave, ApplyHandle;
    match step
    case Begin(kind) => BeginKeeps(s, kind);
    case Advance(complete) => AdvanceKeeps(s, complete);
    case Resave => ResaveKeeps(s);
    case Fail(_) =>
    case Handle => HandleKeeps(s);
    case Kill =>
  }

  lemma {:induction false} RunKeeps(steps: seq<Step>)
    ensures Inv(Exec(steps))
  {
    if steps == [] {
    } else {
      RunKeeps(steps[..|steps| - 1]);
      StepKeeps(Exec(steps[..|steps| - 1]), steps[|steps| - 1]);
    }
  }

  // ----------------------------------------------------------------------------- safety of every run

  /** The recorded phase says only what was proved: the phase is the commit marker, and a success is always a commit. */
  lemma RecordIsEarned(steps: seq<Step>)
    requires Exec(steps).file.Some?
    ensures var s := Exec(steps); var e := s.file.value;
            && (e.phase.Committed? ==> exists id :: Accepted(s.log, id))
            && (e.phase.RolledBack? || e.phase.RolledBackDegraded? ==> exists id :: Restored(s.log, id))
            && (e.phase.RollingBack? || e.phase.RollbackFailed? ==> exists id :: Recovered(s.log, id))
            && (e.conclusion.Success? ==> e.phase.Committed?)
  {
    RunKeeps(steps);
  }

  /**
    After a terminal record no process ever acts on the host again, and every later record, the file and the memory of
    whatever process is live repeat it exactly: in particular a durable success is never rewritten as a failure. This is
    for a unit that does not begin `run` again over a terminal record; `finalize` may be begun any number of times.
  */
  lemma TerminalRecordEndsEverything(steps: seq<Step>, i: nat, j: nat)
    requires i < j < |Exec(steps).log| && WroteTerminal(Exec(steps).log[i])
    ensures !Exec(steps).log[j].Acted?
    ensures Exec(steps).log[j].Wrote? ==> Exec(steps).log[j].evidence == Exec(steps).log[i].evidence
    ensures Exec(steps).file == Some(Exec(steps).log[i].evidence)
    ensures Exec(steps).proc.Some? ==> Exec(steps).proc.value.mem == Exec(steps).log[i].evidence
  {
    RunKeeps(steps);
    var log := Exec(steps).log;
    LawfulAt(log, j);
    assert log[..j][i] == log[i];
  }

  /** A rollback script runs only after recovery cleanup returned without an error in the same process. */
  lemma RollbackFollowsCleanup(steps: seq<Step>, i: nat)
    requires i < |Exec(steps).log| && Exec(steps).log[i].Acted?
    requires Exec(steps).log[i].action.RestoreServer? || Exec(steps).log[i].action.RestoreProxy?
    ensures exists j :: 0 <= j < i && Exec(steps).log[j] == Passed(Exec(steps).log[i].id, RecoveryCleanup)
  {
    RunKeeps(steps);
    var log := Exec(steps).log;
    LawfulAt(log, i);
    var j :| 0 <= j < i && log[..i][j] == Passed(log[i].id, RecoveryCleanup);
    assert log[j] == log[..i][j];
  }

  /** Two marks of a process's trail are two events of the log, in that order. */
  lemma {:induction false} TrailHappened(log: seq<Event>, id: nat, a: nat, b: nat) returns (i: nat, j: nat)
    requires a < b < |Trail(log, id)|
    ensures i < j < |log| && log[i].id == id == log[j].id
    ensures MarkOf(log[i]) == [Trail(log, id)[a]] && MarkOf(log[j]) == [Trail(log, id)[b]]
  {
    var n := |log| - 1;
    var init := log[..n];
    if b < |Trail(init, id)| {
      i, j := TrailHappened(init, id, a, b);
    } else {
      j := n;
      i := MarkHappened(init, id, a);
    }
  }

  lemma {:induction false} MarkHappened(log: seq<Event>, id: nat, a: nat) returns (i: nat)
    requires a < |Trail(log, id)|
    ensures i < |log| && log[i].id == id && MarkOf(log[i]) == [Trail(log, id)[a]]
  {
    var init := log[..|log| - 1];
    if a < |Trail(init, id)| {
      i := MarkHappened(init, id, a);
    } else {
      i := |log| - 1;
    }
  }

  /** A rolled-back record means that one process ran the server's rollback script and then the proxy's. */
  lemma RolledBackRanBothScripts(steps: seq<Step>) returns (id: nat, i: nat, j: nat)
    requires var f := Exec(steps).file; f.Some? && (f.value.phase.RolledBack? || f.value.phase.RolledBackDegraded?)
    ensures i < j < |Exec(steps).log|
    ensures Exec(steps).log[i] == Acted(id, RestoreServer) && Exec(steps).log[j] == Acted(id, RestoreProxy)
  {
    RecordIsEarned(steps);
    var log := Exec(steps).log;
    id :| Restored(log, id);
    assert RESTORATION[3] == Did(RestoreServer) && RESTORATION[5] == Did(RestoreProxy);
    assert Trail(log, id)[..|RESTORATION|] == RESTORATION;
    i, j := TrailHappened(log, id, 3, 5);
  }

  /** A committed record means that one process stopped the old server before it started the new one and its proxy. */
  lemma CommittedSwitchedServers(steps: seq<Step>) returns (id: nat, i: nat, j: nat)
    requires var f := Exec(steps).file; f.Some? && f.value.phase.Committed?
    ensures i < j < |Exec(steps).log|
    ensures Exec(steps).log[i] == Acted(id, StopServer) && Exec(steps).log[j] == Acted(id, StartServer)
    ensures Passed(id, Quiescence) in Exec(steps).log && Acted(id, StartProxy) in Exec(steps).log
  {
    RecordIsEarned(steps);
    var log := Exec(steps).log;
    id :| Accepted(log, id);
    assert ACCEPTANCE[1] == Did(StopServer) && ACCEPTANCE[9] == Did(StartServer);
    assert ACCEPTANCE[2] == Proved(Quiescence) && ACCEPTANCE[10] == Did(StartProxy);
    assert Trail(log, id)[..|ACCEPTANCE|] == ACCEPTANCE;
    i, j := TrailHappened(log, id, 1, 9);
    var k, m := TrailHappened(log, id, 2, 10);
    assert log[k] in log && log[m] in log;
  }

  /** Before a process changes the host its intent is durable: the phase that a later reader has to act on. */
  lemma IntentPrecedesEveryChange(steps: seq<Step>, i: nat)
    requires i < |Exec(steps).log| && Exec(steps).log[i].Acted? && Intent(Exec(steps).log[i].action).Some?
    ensures exists j ::
      && 0 <= j < i && Exec(steps).log[j].Wrote? && Exec(steps).log[j].id == Exec(steps).log[i].id
      && Exec(steps).log[j].evidence.phase == Intent(Exec(steps).log[i].action).value
  {
    RunKeeps(steps);
    var log := Exec(steps).log;
    LawfulAt(log, i);
    var phase := Intent(log[i].action).value;
    var c :| Wrote(log[i].id, Evidence(phase, c)) in log[..i];
    var j :| 0 <= j < i && log[..i][j] == Wrote(log[i].id, Evidence(phase, c));
    assert log[j] == log[..i][j];
  }

  /** A nonzero exit follows at once on the same process's record of a failure. */
  lemma FailedExitIsRecorded(steps: seq<Step>, i: nat)
    requires i < |Exec(steps).log| && Exec(steps).log[i].Exited? && Exec(steps).log[i].code != 0
    ensures i > 0 && Exec(steps).log[i - 1].Wrote? && Exec(steps).log[i - 1].id == Exec(steps).log[i].id
    ensures Exec(steps).log[i - 1].evidence.conclusion.Failure?
  {
    RunKeeps(steps);
    var log := Exec(steps).log;
    LawfulAt(log, i);
    assert log[..i][i - 1] == log[i - 1];
  }

  /** The intent to stop the server is durable before the server is stopped. */
  lemma IntentPrecedesStop(steps: seq<Step>, i: nat)
    requires i < |Exec(steps).log| && Exec(steps).log[i].Acted? && Exec(steps).log[i].action.StopServer?
    ensures exists j ::
      && 0 <= j < i && Exec(steps).log[j].Wrote? && Exec(steps).log[j].id == Exec(steps).log[i].id
      && Exec(steps).log[j].evidence.phase.Quiescing?
  {
    RunKeeps(steps);
    var log := Exec(steps).log;
    LawfulAt(log, i);
    var c :| Wrote(log[i].id, Evidence(Quiescing, c)) in log[..i];
    var j :| 0 <= j < i && log[..i][j] == Wrote(log[i].id, Evidence(Quiescing, c));
    assert log[j] == log[..i][j];
  }

  /** A zero exit is never a guess: a terminal record, for `run` the durable success itself, was written before it. */
  lemma ZeroExitIsRecorded(steps: seq<Step>, i: nat)
    requires i < |Exec(steps).log| && Exec(steps).log[i].Exited? && Exec(steps).log[i].code == 0
    ensures exists j ::
      && 0 <= j < i && WroteTerminal(Exec(steps).log[j])
      && (Exec(steps).log[i].kind.Run? ==> Exec(steps).log[j].evidence == Evidence(Committed, Success))
  {
    RunKeeps(steps);
    var log := Exec(steps).log;
    LawfulAt(log, i);
    var w :| w in log[..i] && WroteTerminal(w) && (log[i].kind.Run? ==> w.evidence == Evidence(Committed, Success));
    var j :| 0 <= j < i && log[..i][j] == w;
    assert log[j] == w;
  }

  predicate Moved(e: Event) {
    e.Wrote? && !e.evidence.phase.Preflight?
  }

  predicate Forward(s: State) {
    (exists e <- s.log :: Moved(e)) ==>
      && s.file.Some? && !s.file.value.phase.Preflight?
      && (s.proc.Some? ==> !s.proc.value.mem.phase.Preflight?)
  }

  lemma StepKeepsForward(s: State, step: Step)
    requires Inv(s) && Forward(s)
    ensures Forward(Apply(s, step))
  {
    hide LawfulLog, Justified, Trail, Announced, LastWritten, Inv;
    var t := Apply(s, step);
    if e :| e in t.log && Moved(e) {
      if e !in s.log {
        assert t.file == Some(e.evidence);
      }
    }
  }

  lemma {:induction false} RunKeepsForward(steps: seq<Step>)
    ensures Forward(Exec(steps))
  {
    if steps == [] {
    } else {
      RunKeepsForward(steps[..|steps| - 1]);
      RunKeeps(steps[..|steps| - 1]);
      StepKeepsForward(Exec(steps[..|steps| - 1]), steps[|steps| - 1]);
    }
  }

  /** Once the server was stopped, nothing that reads the record can mistake it for a failed preflight. */
  lemma StoppedIsNeverPreflight(steps: seq<Step>, i: nat)
    requires i < |Exec(steps).log| && Exec(steps).log[i].Acted? && Exec(steps).log[i].action.StopServer?
    ensures Exec(steps).file.Some? && !Exec(steps).file.value.phase.Preflight?
  {
    IntentPrecedesStop(steps, i);
    RunKeepsForward(steps);
    var s := Exec(steps);
    var j :| 0 <= j < i && s.log[j].Wrote? && s.log[j].id == s.log[i].id && s.log[j].evidence.phase.Quiescing?;
    assert Moved(s.log[j]);
  }

  // ----------------------------------------------------------------------------- what undisturbed processes reach

  function Advances(complete: bool, n: nat): seq<Step> {
    if n == 0 then [] else Advances(complete, n - 1) + [Advance(complete)]
  }

  lemma ExecOne(steps: seq<Step>, step: Step)
    ensures Exec(steps + [step]) == Apply(Exec(steps), step)
  {
    assert (steps + [step])[..|steps|] == steps;
  }

  lemma RunProceedsOnce(s: State, complete: bool)
    requires Inv(s) && s.proc.Some? && s.proc.value.mode.Running? && s.proc.value.kind.Run?
      && s.proc.value.pc < COMMIT + 2
    ensures var q, t := s.proc.value, ApplyAdvance(s, complete);
            && t.proc.Some? && t.proc.value.pc == q.pc + 1 && t.proc.value.mode.Running? && t.proc.value.kind.Run?
            && (q.pc <= COMMIT && s.file.Some? ==> !Terminal(s.file.value.phase))
            && (q.pc == COMMIT ==> t.file == s.file)
  {
    hide LawfulLog, Justified, Trail, Announced, LastWritten;
  }

  lemma {:induction false} RunProceeds(steps: seq<Step>, complete: bool, n: nat)
    requires n <= COMMIT + 2
    requires var s := Exec(steps);
      && s.proc.Some? && s.proc.value.pc == 0 && s.proc.value.mode.Running?
      && s.proc.value.kind.Run?
    ensures var t := Exec(steps + Advances(complete, n));
            && t.proc.Some? && t.proc.value.pc == n && t.proc.value.mode.Running? && t.proc.value.kind.Run?
            && (n == COMMIT + 1 && t.file.Some? ==> !Terminal(t.file.value.phase))
            && Inv(t)
  {
    hide LawfulLog, Justified, Trail, Announced, LastWritten, Exec, ApplyAdvance, Inv;
    if n == 0 {
      assert steps + Advances(complete, 0) == steps;
      RunKeeps(steps);
    } else {
      RunProceeds(steps, complete, n - 1);
      var sofar := steps + Advances(complete, n - 1);
      RunProceedsOnce(Exec(sofar), complete);
      assert steps + Advances(complete, n) == sofar + [Advance(complete)];
      ExecOne(sofar, Advance(complete));
      RunKeeps(steps + Advances(complete, n));
    }
  }

  /** Left alone, a `run` ends with a durable success. */
  lemma UndisturbedRunCommits(steps: seq<Step>, complete: bool)
    requires var s := Exec(steps); s.proc.None? && (s.file.Some? ==> !Terminal(s.file.value.phase))
    ensures var t := Exec(steps + [Begin(Run)] + Advances(complete, COMMIT + 2));
      t.file == Some(Evidence(Committed, Success))
  {
    hide Exec, Inv, Advances;
    ExecOne(steps, Begin(Run));
    RunProceeds(steps + [Begin(Run)], complete, COMMIT + 2);
    PastTheCommit(Exec(steps + [Begin(Run)] + Advances(complete, COMMIT + 2)));
  }

  lemma InterruptedCommit(s: State)
    requires s.proc.Some? && s.proc.value.mode.Running? && s.proc.value.kind.Run? && s.proc.value.mem.phase.Committed?
    requires s.file.Some? ==> !Terminal(s.file.value.phase)
    ensures var t := ApplyAdvance(ApplyHandle(ApplyFail(s, false)), true);
      && t.file == Some(Evidence(Committed, Failure))
      && t.proc.None?
  {
    hide Execute;
  }

  /**
    An interruption between the two halves of the committing save leaves the phase committed with the conclusion
    failure: the conclusion is no commit marker.
  */
  lemma CommittedCanConcludeFailure() returns (steps: seq<Step>)
    ensures Exec(steps).file == Some(Evidence(Committed, Failure)) && Exec(steps).proc.None?
  {
    RunBegins();
    hide Exec, Inv, Advances, ApplyAdvance, ApplyHandle, ApplyFail;
    RunProceeds([Begin(Run)], true, COMMIT + 1);
    var noted := [Begin(Run)] + Advances(true, COMMIT + 1);
    PastTheCommit(Exec(noted));
    InterruptedCommit(Exec(noted));
    ExecOne(noted, Fail(false));
    ExecOne(noted + [Fail(false)], Handle);
    ExecOne(noted + [Fail(false)] + [Handle], Advance(true));
    steps := noted + [Fail(false)] + [Handle] + [Advance(true)];
  }

  lemma RunBegins()
    ensures var s := Exec([Begin(Run)]);
      && s.proc.Some? && s.proc.value.pc == 0 && s.proc.value.mode.Running?
      && s.proc.value.kind.Run?
  {
    assert [Begin(Run)][..0] == [];
    assert Exec([]) == INIT;
  }

  lemma PastTheCommit(s: State)
    requires Inv(s) && s.proc.Some? && s.proc.value.mode.Running? && s.proc.value.kind.Run? && s.proc.value.pc > COMMIT
    ensures s.proc.value.mem == Evidence(Committed, Success)
    ensures s.proc.value.pc > COMMIT + 1 ==> s.file == Some(s.proc.value.mem)
  {
  }

  /** What an undisturbed `finalize` of an unsettled deployment looks like at each of its steps. */
  predicate Recovering(q: Proc, complete: bool) {
    && q.mode.Running? && q.kind.Finalize? && !q.scriptFailed
    && (q.pc > 3 ==> q.cleanupComplete == complete)
    && (q.pc <= CONCLUDE ==> !Terminal(q.mem.phase))
    && (q.pc > CONCLUDE ==> q.mem.phase == if complete then RolledBack else RolledBackDegraded)
  }

  lemma FinalizeProceedsOnce(s: State, complete: bool)
    requires s.proc.Some? && Recovering(s.proc.value, complete) && s.proc.value.pc < CONCLUDE + 2
    ensures var t := ApplyAdvance(s, complete);
      && t.proc.Some? && t.proc.value.pc == s.proc.value.pc + 1
      && Recovering(t.proc.value, complete)
  {
  }

  lemma {:induction false} FinalizeProceeds(steps: seq<Step>, complete: bool, n: nat)
    requires n <= CONCLUDE + 2
    requires var s := Exec(steps); s.proc.Some? && s.proc.value.pc == 0 && Recovering(s.proc.value, complete)
    ensures var t := Exec(steps + Advances(complete, n));
            && t.proc.Some? && t.proc.value.pc == n && Recovering(t.proc.value, complete)
            && Inv(t)
  {
    hide LawfulLog, Justified, Trail, Announced, LastWritten, Exec, ApplyAdvance, Inv;
    if n == 0 {
      assert steps + Advances(complete, 0) == steps;
      RunKeeps(steps);
    } else {
      FinalizeProceeds(steps, complete, n - 1);
      var sofar := steps + Advances(complete, n - 1);
      FinalizeProceedsOnce(Exec(sofar), complete);
      assert steps + Advances(complete, n) == sofar + [Advance(complete)];
      ExecOne(sofar, Advance(complete));
      RunKeeps(steps + Advances(complete, n));
    }
  }

  /**
    However a deployment was interrupted, one undisturbed `finalize` settles it: a terminal record stays, anything else
    is rolled back, and the record says whether cleanup could be proved.
  */
  lemma UndisturbedFinalizeSettles(steps: seq<Step>, complete: bool)
    requires Exec(steps).proc.None?
    ensures var s := Exec(steps); var t := Exec(steps + [Begin(Finalize)] + Advances(complete, CONCLUDE + 2));
            t.file.Some? && t.file.value.phase ==
              if s.file.Some? && Terminal(s.file.value.phase) then s.file.value.phase
              else if complete then RolledBack
              else RolledBackDegraded
  {
    hide LawfulLog, Justified, Trail, Announced, LastWritten, Exec;
    var s := Exec(steps);
    var begun := steps + [Begin(Finalize)];
    RunKeeps(steps);
    ExecOne(steps, Begin(Finalize));
    RunKeeps(begun);
    if s.file.Some? && Terminal(s.file.value.phase) {
      FinalizeLeaves(begun, complete, CONCLUDE + 2);
    } else {
      FinalizeProceeds(begun, complete, CONCLUDE + 2);
    }
  }

  lemma {:induction false} FinalizeLeaves(steps: seq<Step>, complete: bool, n: nat)
    requires var s := Exec(steps);
      && s.proc.Some? && s.proc.value.pc == 0 && s.proc.value.mode.Running?
      && s.proc.value.kind.Finalize?
    requires Terminal(Exec(steps).proc.value.mem.phase)
    ensures var t := Exec(steps + Advances(complete, n)); t.file == Exec(steps).file && (n > 0 ==> t.proc.None?)
  {
    hide Exec;
    if n == 0 {
      assert steps + Advances(complete, 0) == steps;
    } else {
      FinalizeLeaves(steps, complete, n - 1);
      var sofar := steps + Advances(complete, n - 1);
      assert steps + Advances(complete, n) == sofar + [Advance(complete)];
      ExecOne(sofar, Advance(complete));
      assert n == 1 ==> sofar == steps;
    }
  }

  // ----------------------------------------------------------------------------- a failed rollback script

  /** The process recovers and has a failed script behind it. */
  predicate RecoveringBadly(q: Proc, pc: nat) {
    q.mode.Running? && q.kind.Finalize? && q.scriptFailed && q.pc == pc
  }

  lemma BadRecoveryProceeds(s: State, complete: bool)
    requires s.proc.Some? && PROXY_SCRIPT <= s.proc.value.pc <= CONCLUDE + 1
    requires RecoveringBadly(s.proc.value, s.proc.value.pc)
    ensures var q, t := s.proc.value, ApplyAdvance(s, complete);
      && t.proc.Some? && RecoveringBadly(t.proc.value, q.pc + 1) && t.proc.value.id == q.id
      && (q.pc == PROXY_SCRIPT ==> t.log == s.log + [Acted(q.id, RestoreProxy)])
      && s.log <= t.log
      && (q.pc == CONCLUDE ==> t.proc.value.mem == q.mem.(phase := RollbackFailed))
      && (q.pc != CONCLUDE ==> t.proc.value.mem == q.mem)
      && (q.pc == CONCLUDE + 1 ==> t.file == Some(q.mem))
  {
  }

  lemma {:induction false} BadRecoveryReaches(begun: seq<Step>, complete: bool, n: nat)
    requires n <= 5
    requires var s := Exec(begun); s.proc.Some? && RecoveringBadly(s.proc.value, PROXY_SCRIPT)
    ensures var q, t := Exec(begun).proc.value, Exec(begun + Advances(complete, n));
      && t.proc.Some? && RecoveringBadly(t.proc.value, PROXY_SCRIPT + n) && t.proc.value.id == q.id
      && t.proc.value.mem == (if n > 3 then q.mem.(phase := RollbackFailed) else q.mem)
      && (n > 0 ==> Acted(q.id, RestoreProxy) in t.log)
      && (n > 4 ==> t.file == Some(t.proc.value.mem))
  {
    hide Exec, ApplyAdvance;
    if n == 0 {
      assert begun + Advances(complete, 0) == begun;
    } else {
      BadRecoveryReaches(begun, complete, n - 1);
      var sofar := begun + Advances(complete, n - 1);
      assert begun + Advances(complete, n) == sofar + [Advance(complete)];
      ExecOne(sofar, Advance(complete));
      BadRecoveryProceeds(Exec(sofar), complete);
      assert forall e <- Exec(sofar).log :: e in ApplyAdvance(Exec(sofar), complete).log;
    }
  }

  lemma FailedFinalizeKeepsFailure(s: State)
    requires Inv(s) && s.proc.Some? && s.proc.value.mode.Running? && s.proc.value.kind.Finalize? && s.proc.value.pc > 5
    ensures s.proc.value.mem.conclusion.Failure?
  {
  }

  /**
    After a server script that failed, at whatever point of it, the proxy script is still run; left alone, the process
    then records the rollback as failed.
  */
  lemma ProxyIsRestoredAfterAFailedServerScript(steps: seq<Step>, complete: bool)
    requires var s := Exec(steps); s.proc.Some? && s.proc.value.mode.Running? && s.proc.value.kind.Finalize?
    requires SERVER_SCRIPT <= Exec(steps).proc.value.pc < PROXY_SCRIPT
    ensures var s, t := Exec(steps), Exec(steps + [Fail(true)] + Advances(complete, 5));
      && Acted(s.proc.value.id, RestoreProxy) in t.log
      && t.file == Some(Evidence(RollbackFailed, Failure))
  {
    hide Exec, Inv;
    RunKeeps(steps);
    ExecOne(steps, Fail(true));
    FailedFinalizeKeepsFailure(Exec(steps));
    BadRecoveryReaches(steps + [Fail(true)], complete, 5);
  }
}
