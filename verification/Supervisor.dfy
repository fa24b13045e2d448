/**
  The deployment supervisor: one process at a time, `run` or `finalize`, killable between any two of its steps, over an
  evidence file that outlives it. A save is two steps, the update in memory and the atomic replacement of the file, so
  an interruption can separate them; an exception saves once more on its way out.
*/
module Supervisor {
  import opened Wrappers

  datatype Phase = Preflight | Quiescing | Migrating | Activating | Committed | RollingBack | RollbackFailed
      | RolledBack | RolledBackDegraded

  datatype Conclusion = Pending | Success | Failure

  datatype Evidence = Evidence(phase: Phase, conclusion: Conclusion)

  const FRESH := Evidence(Preflight, Pending)

  predicate Terminal(p: Phase) {
    p.Committed? || p.RolledBack? || p.RolledBackDegraded?
  }

  // What the process does to the host. Proofs that only read are not listed; the repair barrier is rearmed or observed.
  datatype Action = StopServer | StartHelper | RemoveHelper | SettleBarrier | StartServer | StartProxy | StopForRollback
      | RestoreServer | RestoreProxy

  // Budgeted phases that returned without an error.
  datatype Proof = PreflightProof | Quiescence | Migration | HelperCleanup | Verification | Activation
      | RecoveryCleanup | ServerRestored | ProxyRestored

  datatype Instr =
    | Check
    | Note(phase: Phase, conclusion: Option<Conclusion>)
    | Write
    | Act(action: Action)
    | Pass(proof: Proof)
    | Conclude
    | Return

  function RunAt(pc: nat): Instr {
    match pc
    case 0 => Pass(PreflightProof)
    case 1 => Write
    case 2 => Note(Quiescing, None)
    case 3 => Write
    case 4 => Act(StopServer)
    case 5 => Pass(Quiescence)
    case 6 => Write
    case 7 => Note(Migrating, None)
    case 8 => Write
    case 9 => Act(StartHelper)
    case 10 => Pass(Migration)
    case 11 => Write
    case 12 => Act(RemoveHelper)
    case 13 => Pass(HelperCleanup)
    case 14 => Write
    case 15 => Act(SettleBarrier)
    case 16 => Pass(Verification)
    case 17 => Write
    case 18 => Note(Activating, None)
    case 19 => Write
    case 20 => Act(StartServer)
    case 21 => Act(StartProxy)
    case 22 => Pass(Activation)
    case 23 => Write
    case 24 => Note(Committed, Some(Success))
    case 25 => Write
    case _ => Return
  }

  const COMMIT := 24

  function FinalizeAt(pc: nat): Instr {
    match pc
    case 0 => Check
    case 1 => Act(StopForRollback)
    case 2 => Act(RemoveHelper)
    case 3 => Pass(RecoveryCleanup)
    case 4 => Write
    case 5 => Note(RollingBack, Some(Failure))
    case 6 => Write
    case 7 => Act(RestoreServer)
    case 8 => Pass(ServerRestored)
    case 9 => Write
    case 10 => Act(RestoreProxy)
    case 11 => Pass(ProxyRestored)
    case 12 => Write
    case 13 => Conclude
    case 14 => Write
    case _ => Return
  }

  // The two rollback scripts run inside their own exception handlers.
  const SERVER_SCRIPT := 7
  const PROXY_SCRIPT := 10
  const CONCLUDE := 13

  // What a process has done and proved, in order.
  datatype Mark = Did(action: Action) | Proved(proof: Proof)

  const ACCEPTANCE: seq<Mark> := [
    Proved(PreflightProof), Did(StopServer), Proved(Quiescence), Did(StartHelper), Proved(Migration), Did(RemoveHelper),
    Proved(HelperCleanup), Did(SettleBarrier), Proved(Verification), Did(StartServer), Did(StartProxy),
      Proved(Activation)]

  const RECOVERY: seq<Mark> := [Did(StopForRollback), Did(RemoveHelper), Proved(RecoveryCleanup)]

  const RESTORATION: seq<Mark> :=
    RECOVERY + [Did(RestoreServer), Proved(ServerRestored), Did(RestoreProxy), Proved(ProxyRestored)]

  datatype Kind = Run | Finalize

  function Program(k: Kind, pc: nat): Instr {
    if k.Run? then RunAt(pc) else FinalizeAt(pc)
  }

  // Unwinding: an exception is on its way to the handler. Failing: the handler has decided to record the failure.
  datatype Mode = Running | Unwinding | Failing

  datatype Proc = Proc(id: nat, kind: Kind, pc: nat, mode: Mode, mem: Evidence, cleanupComplete: bool,
      scriptFailed: bool)

  datatype Event =
    | Began(id: nat, kind: Kind)
    | Wrote(id: nat, evidence: Evidence)
    | Acted(id: nat, action: Action)
    | Passed(id: nat, proof: Proof)
    | Exited(id: nat, kind: Kind, code: nat)

  datatype State = State(file: Option<Evidence>, proc: Option<Proc>, started: nat, log: seq<Event>)

  // `complete` is what helper cleanup reports when it returns: proved, or degraded by unowned clients.
  // `caught`: the exception strikes inside a rollback script's own handler.
  datatype Step = Begin(kind: Kind) | Advance(complete: bool) | Resave | Fail(caught: bool) | Handle | Kill

  const INIT := State(None, None, 0, [])

  // ----------------------------------------------------------------------------- steps

  function Save(s: State, q: Proc): State {
    s.(file := Some(q.mem), proc := Some(q), log := s.log + [Wrote(q.id, q.mem)])
  }

  function Exit(s: State, q: Proc, code: nat): State {
    s.(proc := None, log := s.log + [Exited(q.id, q.kind, code)])
  }

  /**
    A process starts from the file, or fresh without one. The unit runs `run` once; a restart is allowed until the
    record is terminal.
  */
  function ApplyBegin(s: State, k: Kind): State {
    var mem := if s.file.Some? then s.file.value else FRESH;
    if s.proc.Some? || (k.Run? && Terminal(mem.phase)) then s
    else s.(proc := Some(Proc(s.started, k, 0, Running, mem, false, false)), started := s.started + 1,
      log := s.log + [Began(s.started, k)])
  }

  function Execute(s: State, q: Proc, complete: bool): State {
    var next := q.(pc := q.pc + 1);
    match Program(q.kind, q.pc)
    case Check => if Terminal(q.mem.phase) then Exit(s, q, 0) else s.(proc := Some(next))
    case Note(phase, conclusion) =>
      s.(proc := Some(next.(mem := Evidence(phase, if conclusion.Some? then conclusion.value else q.mem.conclusion))))
    case Write => Save(s, next)
    case Act(action) => s.(proc := Some(next), log := s.log + [Acted(q.id, action)])
    case Pass(proof) =>
      var done := if proof.RecoveryCleanup? then next.(cleanupComplete := complete) else next;
      s.(proc := Some(done), log := s.log + [Passed(q.id, proof)])
    case Conclude =>
      var phase := if q.scriptFailed then RollbackFailed else if q.cleanupComplete then RolledBack
        else RolledBackDegraded;
      s.(proc := Some(next.(mem := q.mem.(phase := phase))))
    case Return => if q.scriptFailed then s.(proc := Some(q.(mode := Unwinding))) else Exit(s, q, 0)
  }

  function ApplyAdvance(s: State, complete: bool): State {
    if s.proc.None? then s
    else
      var q := s.proc.value;
      if q.mode.Failing? then Exit(Save(s, q), q, 1)
      else if q.mode.Running? then Execute(s, q, complete)
      else s
  }

  /** The saves that change neither phase nor conclusion: observations along the way, and those made while unwinding. */
  function ApplyResave(s: State): State {
    if s.proc.None? || s.proc.value.mode.Failing? then s else Save(s, s.proc.value)
  }

  /** An exception or a signal. Inside a rollback script it is remembered and the next script still runs. */
  function ApplyFail(s: State, caught: bool): State {
    if s.proc.None? then s
    else
      var q := s.proc.value;
      match q.mode
      case Unwinding => s
      case Failing => s.(proc := None)
      case Running =>
        if caught && q.kind.Finalize? && SERVER_SCRIPT <= q.pc < CONCLUDE then
          s.(proc := Some(q.(pc := if q.pc < PROXY_SCRIPT then PROXY_SCRIPT else CONCLUDE, scriptFailed := true)))
        else s.(proc := Some(q.(mode := Unwinding)))
  }

  /** The handler leaves a durable success alone and records a failure otherwise. */
  function ApplyHandle(s: State): State {
    if s.proc.None? || !s.proc.value.mode.Unwinding? then s
    else
      var q := s.proc.value;
      if s.file == Some(Evidence(Committed, Success)) then Exit(s, q, 0)
      else s.(proc := Some(q.(mode := Failing, mem := q.mem.(conclusion := Failure))))
  }

  function ApplyKill(s: State): State {
    s.(proc := None)
  }

  function Apply(s: State, step: Step): State {
    match step
    case Begin(kind) => ApplyBegin(s, kind)
    case Advance(complete) => ApplyAdvance(s, complete)
    case Resave => ApplyResave(s)
    case Fail(caught) => ApplyFail(s, caught)
    case Handle => ApplyHandle(s)
    case Kill => ApplyKill(s)
  }

  function Exec(steps: seq<Step>): State {
    if steps == [] then INIT else Apply(Exec(steps[..|steps| - 1]), steps[|steps| - 1])
  }

  // ----------------------------------------------------------------------------- what a log shows

  function MarkOf(e: Event): seq<Mark> {
    if e.Acted? then [Did(e.action)] else if e.Passed? then [Proved(e.proof)] else []
  }

  /** What a process did and proved, in order. */
  function Trail(log: seq<Event>, id: nat): seq<Mark> {
    if log == [] then []
    else
      var e := log[|log| - 1];
      Trail(log[..|log| - 1], id) + if e.id == id then MarkOf(e) else []
  }

  predicate Accepted(log: seq<Event>, id: nat) {
    ACCEPTANCE <= Trail(log, id)
  }

  predicate Recovered(log: seq<Event>, id: nat) {
    RECOVERY <= Trail(log, id)
  }

  predicate Restored(log: seq<Event>, id: nat) {
    RESTORATION <= Trail(log, id)
  }

  /** What a record may be written on: the whole trail of the one process that earned it. */
  ghost predicate Justified(log: seq<Event>, e: Evidence) {
    && (e.conclusion.Success? ==> e.phase.Committed?)
    && (e.phase.Committed? ==> !e.conclusion.Pending? && exists id :: Accepted(log, id))
    && (e.phase.RolledBack? || e.phase.RolledBackDegraded? ==> e.conclusion.Failure? && exists id :: Restored(log, id))
    && (e.phase.RollingBack? || e.phase.RollbackFailed? ==> e.conclusion.Failure? && exists id :: Recovered(log, id))
  }

  /** The process has recorded the phase. */
  ghost predicate Announced(log: seq<Event>, id: nat, phase: Phase) {
    exists c :: Wrote(id, Evidence(phase, c)) in log
  }

  /** The phase that is recorded before an action that changes the host. */
  function Intent(action: Action): Option<Phase> {
    match action
    case StopServer => Some(Quiescing)
    case StartHelper => Some(Migrating)
    case StartServer => Some(Activating)
    case StartProxy => Some(Activating)
    case RestoreServer => Some(RollingBack)
    case RestoreProxy => Some(RollingBack)
    case _ => None
  }

  predicate WroteTerminal(e: Event) {
    e.Wrote? && Terminal(e.evidence.phase)
  }

  /** What holds of an event, given everything before it. */
  ghost predicate Lawful(past: seq<Event>, e: Event) {
    match e
    case Acted(id, action) =>
      && (forall w <- past :: !WroteTerminal(w))
      && (Intent(action).Some? ==> Announced(past, id, Intent(action).value))
      && (action.RestoreServer? || action.RestoreProxy? ==> Passed(id, RecoveryCleanup) in past)
    case Wrote(_, v) => Justified(past, v) && forall w <- past | WroteTerminal(w) :: v == w.evidence
    case Exited(id, kind, code) =>
      if code == 0
      then exists w <- past :: WroteTerminal(w) && (kind.Run? ==> w.evidence == Evidence(Committed, Success))
      else
        && past != [] && past[|past| - 1].Wrote? && past[|past| - 1].id == id
        && past[|past| - 1].evidence.conclusion.Failure?
    case _ => true
  }

  ghost predicate LawfulLog(log: seq<Event>) {
    log == [] || (LawfulLog(log[..|log| - 1]) && Lawful(log[..|log| - 1], log[|log| - 1]))
  }
}
