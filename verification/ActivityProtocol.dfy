/**
  The whole tracker as an interleaved step system: request handlers pass the admission gate and enqueue, one worker
  batches and flushes, owners are marked concurrently, and shutdown closes the gate, waits and drains. There is one step
  per lock region, channel operation or store call; a step that is not enabled leaves the state alone.

  `lost`, `late` and `log` are bookkeeping of the specification: the observations counted as dropped, the requests
  counted as dropped at a closed gate, and the buckets whose writes have succeeded.
*/
module ActivityProtocol {
  import opened Wrappers
  import opened ActivityStore

  datatype Config = Config(queueSize: nat, batchSize: nat, seenLimit: nat)

  datatype HandlerPc =
    | Counting   // inside the gate, about to raise `pending`
    | Sending    // about to try the queue
    | Dropping   // the queue was full; about to raise `dropped`
    | Handling   // outside the gate, still serving
    | Gone

  datatype Next = BackToRunning | BackToDraining | Finish

  datatype Stage =
    | Checking(i: nat, dayClear: bool, risk: set<nat>)
    | Picking(todo: set<Identity>, rows: seq<Bucket>, risk: set<nat>)
    | Writing(rows: seq<Bucket>, risk: set<nat>)
    | Remembering(rows: seq<Bucket>)
    | Settling

  datatype WorkerPc = Running | Draining | Flushing(stage: Stage, next: Next) | Done

  datatype State = State(
    accepting: bool, stopped: bool,
    admitted: seq<Observation>, handlers: seq<HandlerPc>, others: nat, serving: int,
    queue: seq<nat>, batch: seq<nat>, worker: WorkerPc,
    pending: int, dropped: nat,
    store: Store, memory: Memory, marks: seq<seq<Bucket>>,
    lost: set<nat>, late: nat, log: seq<Bucket>)

  datatype Step =
    | EnterLate(meaningful: bool)
    | EnterUncounted
    | LeaveUncounted
    | Enter(o: Observation)
    | CountPending(h: nat)
    | TrySend(h: nat)
    | CountDrop(h: nat)
    | Leave(h: nat)
    | CloseGate
    | SignalStop
    | Take
    | Tick
    | SeeStop
    | DrainIsEmpty
    | CheckDay
    | CheckMonth
    | EndChecks
    | Pick(id: Identity)
    | EndPicks
    | WriteOk
    | WriteFails(written: seq<Bucket>)
    | RememberRows
    | Settle
    | MarkOk(day: Identity, month: Identity)
    | MarkFails(day: Identity, month: Identity, written: seq<Bucket>)
    | MarkRemember(k: nat)

  function Init(existing: Store): State {
    State(true, false, [], [], 0, 0, [], [], Running, 0, 0, existing, Memory(Seen(0, map[]), Seen(0, map[])), [], {},
      0, [])
  }

  predicate InGate(pc: HandlerPc) {
    pc.Counting? || pc.Sending? || pc.Dropping?
  }

  function Observations(admitted: seq<Observation>, ids: seq<nat>): seq<Observation>
    requires forall i | 0 <= i < |ids| :: ids[i] < |admitted|
  {
    if ids == [] then [] else Observations(admitted, ids[..|ids| - 1]) + [admitted[ids[|ids| - 1]]]
  }

  predicate Listed(s: State) {
    && |s.handlers| == |s.admitted|
    && (forall i | 0 <= i < |s.batch| :: s.batch[i] < |s.admitted|)
    && (forall i | 0 <= i < |s.queue| :: s.queue[i] < |s.admitted|)
  }

  function Buckets(s: State): seq<Bucket>
    requires Listed(s)
  {
    BucketsOf(Observations(s.admitted, s.batch))
  }

  /**
    Rows reach the store; `logged` is what the specification says was written. A failing call may have written some of
    its rows.
  */
  function Written(s: State, rows: seq<Bucket>, logged: seq<Bucket>): State {
    s.(store := RecordEach(s.store, rows), log := s.log + logged)
  }

  // ------------------------------------------------------------------------- request handlers

  function Entered(s: State, o: Observation): State {
    if s.accepting then s.(admitted := s.admitted + [o], handlers := s.handlers + [Counting], serving := s.serving + 1)
      else s
  }

  function CountedPending(s: State, h: nat): State {
    if h < |s.handlers| && s.handlers[h].Counting?
    then s.(handlers := s.handlers[h := Sending], pending := s.pending + 1) else s
  }

  function Sent(cfg: Config, s: State, h: nat): State {
    if h >= |s.handlers| || !s.handlers[h].Sending? then s
    else if |s.queue| < cfg.queueSize then s.(handlers := s.handlers[h := Handling], queue := s.queue + [h])
    else s.(handlers := s.handlers[h := Dropping], pending := s.pending - 1)
  }

  function CountedDrop(s: State, h: nat): State {
    if h < |s.handlers| && s.handlers[h].Dropping?
    then s.(handlers := s.handlers[h := Handling], dropped := s.dropped + 1, lost := s.lost + {h}) else s
  }

  function Left(s: State, h: nat): State {
    if h < |s.handlers| && s.handlers[h].Handling?
    then s.(handlers := s.handlers[h := Gone], serving := s.serving - 1) else s
  }

  // ------------------------------------------------------------------------- gate and shutdown

  function EnteredLate(s: State, meaningful: bool): State {
    if s.accepting || !meaningful then s else s.(dropped := s.dropped + 1, late := s.late + 1)
  }

  function EnteredUncounted(s: State): State {
    if s.accepting then s.(others := s.others + 1, serving := s.serving + 1) else s
  }

  function LeftUncounted(s: State): State {
    if s.others > 0 then s.(others := s.others - 1, serving := s.serving - 1) else s
  }

  /** The write lock waits for every handler inside the gate. */
  function GateClosed(s: State): State {
    if forall pc <- s.handlers :: !InGate(pc) then s.(accepting := false) else s
  }

  function StopSignaled(s: State): State {
    if !s.accepting && s.serving == 0 then s.(stopped := true) else s
  }

  // --------------------------------------------------------------------------------- worker

  function FlushBegun(s: State, next: Next): State {
    s.(worker := Flushing(Checking(0, false, {}), next))
  }

  function Taken(cfg: Config, s: State): State {
    if !(s.worker.Running? || s.worker.Draining?) || s.queue == [] then s else
    var t := s.(batch := s.batch + [s.queue[0]], queue := s.queue[1..]);
    if |t.batch| >= cfg.batchSize then FlushBegun(t, if s.worker.Running? then BackToRunning else BackToDraining) else t
  }

  function Ticked(s: State): State {
    if s.worker.Running? && s.batch != [] then FlushBegun(s, BackToRunning) else s
  }

  function StopSeen(s: State): State {
    if s.worker.Running? && s.stopped then s.(worker := Draining) else s
  }

  function Drained(s: State): State {
    if !s.worker.Draining? || s.queue != [] then s
    else if s.batch == [] then s.(worker := Done) else FlushBegun(s, Finish)
  }

  // ------------------------------------------------------------------------------- one flush

  function WithStage(s: State, stage: Stage): State
    requires s.worker.Flushing?
  {
    s.(worker := Flushing(stage, s.worker.next))
  }

  function DayChecked(s: State): State
    requires Listed(s)
  {
    if !(s.worker.Flushing? && s.worker.stage.Checking?) then s else
    var stage := s.worker.stage;
    if stage.i >= |s.batch| || stage.dayClear then s
    else if NeedsWrite(s.memory, s.admitted[s.batch[stage.i]].day)
    then WithStage(s, Checking(stage.i + 1, false, stage.risk + {s.batch[stage.i]}))
    else WithStage(s, stage.(dayClear := true))
  }

  function MonthChecked(s: State): State
    requires Listed(s)
  {
    if !(s.worker.Flushing? && s.worker.stage.Checking?) then s else
    var stage := s.worker.stage;
    if stage.i >= |s.batch| || !stage.dayClear then s
    else if NeedsWrite(s.memory, s.admitted[s.batch[stage.i]].month)
    then WithStage(s, Checking(stage.i + 1, false, stage.risk + {s.batch[stage.i]}))
    else WithStage(s, Checking(stage.i + 1, false, stage.risk))
  }

  function ChecksEnded(s: State): State
    requires Listed(s)
  {
    if s.worker.Flushing? && s.worker.stage.Checking? && s.worker.stage.i >= |s.batch|
    then WithStage(s, Picking(set b | b in Buckets(s) :: b.id, [], s.worker.stage.risk)) else s
  }

  function Picked(s: State, id: Identity): State
    requires Listed(s)
  {
    if !(s.worker.Flushing? && s.worker.stage.Picking? && id in s.worker.stage.todo && Mention(Buckets(s), id).Some?)
      then s else
    var stage := s.worker.stage;
    var b := Bucket(id, Mention(Buckets(s), id).value);
    WithStage(s, Picking(stage.todo - {id}, if NeedsWrite(s.memory, b) then stage.rows + [b]
      else stage.rows, stage.risk))
  }

  function PicksEnded(s: State): State {
    if !(s.worker.Flushing? && s.worker.stage.Picking? && s.worker.stage.todo == {}) then s
    else WithStage(s, if s.worker.stage.rows == [] then Settling else Writing(s.worker.stage.rows, s.worker.stage.risk))
  }

  function WriteSucceeded(s: State): State
    requires Listed(s)
  {
    if !(s.worker.Flushing? && s.worker.stage.Writing?) then s
    else WithStage(Written(s, s.worker.stage.rows, Buckets(s)), Remembering(s.worker.stage.rows))
  }

  function WriteFailed(s: State, written: seq<Bucket>): State {
    if !(s.worker.Flushing? && s.worker.stage.Writing? && forall b <- written :: b in s.worker.stage.rows) then s
    else WithStage(Written(s, written, written), Settling).(
           dropped := s.dropped + |s.worker.stage.risk|, lost := s.lost + s.worker.stage.risk)
  }

  function RowsRemembered(cfg: Config, s: State): State {
    if !(s.worker.Flushing? && s.worker.stage.Remembering?) then s
    else WithStage(s, Settling).(memory := RememberedAll(s.memory, s.worker.stage.rows, cfg.seenLimit))
  }

  function Settled(s: State): State {
    if !(s.worker.Flushing? && s.worker.stage.Settling?) then s
    else s.(pending := s.pending - |s.batch|, batch := [], worker := AfterFlush(s.worker.next))
  }

  function AfterFlush(next: Next): WorkerPc {
    match next case BackToRunning => Running case BackToDraining => Draining case Finish => Done
  }

  // ---------------------------------------------------------------------------- owner marking

  function Marked(s: State, day: Identity, month: Identity): State {
    var rows := [Bucket(day, true), Bucket(month, true)];
    Written(s, rows, rows).(marks := s.marks + [rows])
  }

  function MarkFailed(s: State, day: Identity, month: Identity, written: seq<Bucket>): State {
    if forall b <- written :: b == Bucket(day, true) || b == Bucket(month, true) then Written(s, written, written)
      else s
  }

  function MarkRemembered(cfg: Config, s: State, k: nat): State {
    if k < |s.marks|
    then s.(memory := RememberedAll(s.memory, s.marks[k], cfg.seenLimit), marks := s.marks[..k] + s.marks[k + 1..])
      else s
  }

  function Apply(cfg: Config, s: State, step: Step): State
    requires Listed(s)
  {
    match step
    case EnterLate(meaningful) => EnteredLate(s, meaningful)
    case EnterUncounted => EnteredUncounted(s)
    case LeaveUncounted => LeftUncounted(s)
    case Enter(o) => Entered(s, o)
    case CountPending(h) => CountedPending(s, h)
    case TrySend(h) => Sent(cfg, s, h)
    case CountDrop(h) => CountedDrop(s, h)
    case Leave(h) => Left(s, h)
    case CloseGate => GateClosed(s)
    case SignalStop => StopSignaled(s)
    case Take => Taken(cfg, s)
    case Tick => Ticked(s)
    case SeeStop => StopSeen(s)
    case DrainIsEmpty => Drained(s)
    case CheckDay => DayChecked(s)
    case CheckMonth => MonthChecked(s)
    case EndChecks => ChecksEnded(s)
    case Pick(id) => Picked(s, id)
    case EndPicks => PicksEnded(s)
    case WriteOk => WriteSucceeded(s)
    case WriteFails(written) => WriteFailed(s, written)
    case RememberRows => RowsRemembered(cfg, s)
    case Settle => Settled(s)
    case MarkOk(day, month) => Marked(s, day, month)
    case MarkFails(day, month, written) => MarkFailed(s, day, month, written)
    case MarkRemember(k) => MarkRemembered(cfg, s, k)
  }

  // ----------------------------------------------------------------------------- invariant

  function Count(pcs: seq<HandlerPc>, sending: bool): nat {
    if pcs == [] then 0
    else Count(pcs[..|pcs| - 1], sending) + (if Counts(pcs[|pcs| - 1], sending) then 1 else 0)
  }

  predicate Counts(pc: HandlerPc, sending: bool) {
    if sending then pc.Sending? else !pc.Gone?
  }

  predicate NoDuplicates(ids: seq<nat>) {
    forall i, j | 0 <= i < j < |ids| :: ids[i] != ids[j]
  }

  /** Where observations are: each is in one place, and whatever is queued or staged has left the gate. */
  predicate PlacesInv(s: State) {
    && Listed(s)
    && NoDuplicates(s.batch + s.queue)
    && (forall i | 0 <= i < |s.batch| :: !InGate(s.handlers[s.batch[i]]))
    && (forall i | 0 <= i < |s.queue| :: !InGate(s.handlers[s.queue[i]]) && s.queue[i] !in s.lost)
    && (forall h <- s.lost :: h < |s.handlers| && !InGate(s.handlers[h]))
    && ((s.worker.Flushing? && s.worker.stage.Settling?) || forall i | 0 <= i < |s.batch| :: s.batch[i] !in s.lost)
  }

  predicate CountsInv(s: State) {
    && s.pending == |s.batch| + |s.queue| + Count(s.handlers, true)
    && s.serving == Count(s.handlers, false) + s.others
    && s.dropped == |s.lost| + s.late
  }

  predicate Accounted(s: State, h: nat)
    requires Listed(s) && h < |s.admitted|
  {
    InGate(s.handlers[h]) || h in s.queue || h in s.batch || h in s.lost || CoversObservation(s.store, s.admitted[h])
  }

  predicate GateInv(s: State) {
    && (!s.accepting ==> forall pc <- s.handlers :: !InGate(pc))
    && (s.stopped ==> !s.accepting && s.serving == 0)
    && (s.worker.Draining? || s.worker.Done? || (s.worker.Flushing? && !s.worker.next.BackToRunning?) ==> s.stopped)
    && (s.worker.Flushing? && s.worker.next.Finish? ==> s.queue == [])
    && (s.worker.Done? ==> s.queue == [] && s.batch == [])
  }

  /** Each staged observation so far either is counted as at risk or is covered already. */
  predicate RiskInv(s: State, risk: set<nat>, upTo: nat)
    requires Listed(s) && upTo <= |s.batch|
  {
    && (forall h <- risk :: h in s.batch)
    && (forall j | 0 <= j < upTo :: s.batch[j] in risk || CoversObservation(s.store, s.admitted[s.batch[j]]))
  }

  ghost predicate RowsInv(s: State, todo: set<Identity>, rows: seq<Bucket>)
    requires Listed(s)
  {
    && (forall i | 0 <= i < |rows| :: Mention(Buckets(s), rows[i].id) == Some(rows[i].owner))
    && (forall id: Identity | Mention(Buckets(s), id).Some? ::
          id in todo || Mention(rows, id).Some? || Covers(s.store, Bucket(id, Mention(Buckets(s), id).value)))
  }

  ghost predicate StageInv(s: State)
    requires Listed(s)
  {
    s.worker.Flushing? ==>
      match s.worker.stage
      case Checking(i, dayClear, risk) =>
        && i <= |s.batch| && RiskInv(s, risk, i)
        && (dayClear ==> i < |s.batch| && Covers(s.store, s.admitted[s.batch[i]].day))
      case Picking(todo, rows, risk) => RiskInv(s, risk, |s.batch|) && RowsInv(s, todo, rows)
      case Writing(rows, risk) => RiskInv(s, risk, |s.batch|) && RowsInv(s, {}, rows)
      case Remembering(rows) =>
        && (forall i | 0 <= i < |rows| :: Covers(s.store, rows[i]))
        && (forall j | 0 <= j < |s.batch| :: CoversObservation(s.store, s.admitted[s.batch[j]]))
      case Settling =>
        forall j | 0 <= j < |s.batch| :: s.batch[j] in s.lost || CoversObservation(s.store, s.admitted[s.batch[j]])
  }

  ghost predicate MemoryInv(cfg: Config, existing: Store, s: State) {
    && Sound(s.memory, s.store) && WithinLimit(s.memory, cfg.seenLimit)
    && (forall k, i | 0 <= k < |s.marks| && 0 <= i < |s.marks[k]| :: Covers(s.store, s.marks[k][i]))
    && s.store == RecordEach(existing, s.log)
  }

  ghost predicate Inv(cfg: Config, existing: Store, s: State) {
    && PlacesInv(s) && CountsInv(s) && GateInv(s) && StageInv(s) && MemoryInv(cfg, existing, s)
    && (forall h: nat | h < |s.admitted| :: Accounted(s, h))
  }

  ghost predicate Follows(cfg: Config, s: State, t: State) {
    Listed(s) && exists step: Step :: t == Apply(cfg, s, step)
  }

  /** A run from the state in which the worker starts, over whatever the table already holds. */
  ghost predicate IsRun(cfg: Config, existing: Store, run: seq<State>) {
    && |run| > 0 && run[0] == Init(existing)
    && forall i, j | 0 <= i && j == i + 1 && j < |run| :: Follows(cfg, run[i], run[j])
  }
}
