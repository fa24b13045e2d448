/** Which observations are lost: exactly those that met a full queue or that a failing write left unwritten. */
module ActivityLosses {
  import opened Wrappers
  import opened ActivityStore
  import opened ActivityProtocol
  import opened ActivityConservation
  import opened ActivityRefinement

  // ----------------------------------------------------------------------------- what a step does to one observation

  predicate SendsAtFullQueue(cfg: Config, s: State, step: Step, h: nat) {
    step == TrySend(h) && h < |s.handlers| && s.handlers[h].Sending? && cfg.queueSize <= |s.queue|
  }

  predicate CountsDrop(s: State, step: Step, h: nat) {
    step == CountDrop(h) && h < |s.handlers| && s.handlers[h].Dropping?
  }

  predicate FailsWrite(s: State, step: Step) {
    step.WriteFails? && s.worker.Flushing? && s.worker.stage.Writing? && forall b <- step.written ::
      b in s.worker.stage.rows
  }

  /** The flush looks at the observation and finds that one of its buckets needs a write. */
  predicate ChecksNeedy(s: State, step: Step, h: nat) {
    && Listed(s) && s.worker.Flushing? && s.worker.stage.Checking? && s.worker.stage.i < |s.batch|
    && s.batch[s.worker.stage.i] == h
    && if s.worker.stage.dayClear then step.CheckMonth? && NeedsWrite(s.memory, s.admitted[h].month)
       else step.CheckDay? && NeedsWrite(s.memory, s.admitted[h].day)
  }

  /**
    A sending handler's observation is enqueued if and only if the queue has room; otherwise it is about to be dropped.
  */
  lemma SendEnqueuesExactlyWithRoom(cfg: Config, s: State, h: nat)
    requires Listed(s) && h < |s.handlers| && s.handlers[h].Sending?
    ensures var t := Apply(cfg, s, TrySend(h));
      if |s.queue| < cfg.queueSize
      then t.queue == s.queue + [h] && t.handlers[h].Handling? && t.pending == s.pending
      else t.queue == s.queue && t.handlers[h].Dropping? && t.pending == s.pending - 1
  {
  }

  /** The worker's steps, the failing store call included. */
  predicate OfWorker(step: Step) {
    step.Take? || step.Tick? || step.SeeStop? || step.DrainIsEmpty? || OfFlush(step)
  }

  predicate OfHandler(step: Step) {
    step.Enter? || step.CountPending? || step.TrySend? || step.CountDrop? || step.Leave?
  }

  predicate OfFlush(step: Step) {
    step.CheckDay? || step.CheckMonth? || step.EndChecks? || step.Pick? || step.EndPicks? || step.WriteOk?
    || step.WriteFails? || step.RememberRows? || step.Settle?
  }

  predicate HasRisk(s: State) {
    s.worker.Flushing? && (s.worker.stage.Checking? || s.worker.stage.Picking? || s.worker.stage.Writing?)
  }

  function Risk(s: State): set<nat> {
    if HasRisk(s) then s.worker.stage.risk else {}
  }

  lemma LostByForWorker(cfg: Config, s: State, step: Step, h: nat)
    requires Listed(s) && OfWorker(step)
    ensures h in Apply(cfg, s, step).lost <==>
      h in s.lost || CountsDrop(s, step, h) || (FailsWrite(s, step) && h in Risk(s))
  {
    hide Buckets, RecordEach, RememberedAll, Mention, NeedsWrite, InGate;
  }

  lemma LostByForOthers(cfg: Config, s: State, step: Step, h: nat)
    requires Listed(s) && !OfWorker(step)
    ensures h in Apply(cfg, s, step).lost <==>
      h in s.lost || CountsDrop(s, step, h) || (FailsWrite(s, step) && h in Risk(s))
  {
    hide Buckets, RecordEach, RememberedAll, Mention, NeedsWrite, InGate;
  }

  lemma LostBy(cfg: Config, s: State, step: Step, h: nat)
    requires Listed(s)
    ensures h in Apply(cfg, s, step).lost <==>
      h in s.lost || CountsDrop(s, step, h) || (FailsWrite(s, step) && h in Risk(s))
  {
    hide Apply;
    if OfWorker(step) {
      LostByForWorker(cfg, s, step, h);
    } else {
      LostByForOthers(cfg, s, step, h);
    }
  }

  lemma RiskByForWorker(cfg: Config, s: State, step: Step, h: nat)
    requires Listed(s) && HasRisk(Apply(cfg, s, step)) && OfWorker(step)
    ensures h in Risk(Apply(cfg, s, step)) <==> h in Risk(s) || ChecksNeedy(s, step, h)
  {
    hide Buckets, RecordEach, RememberedAll, Mention, NeedsWrite, InGate;
  }

  lemma RiskByForOthers(cfg: Config, s: State, step: Step, h: nat)
    requires Listed(s) && HasRisk(Apply(cfg, s, step)) && !OfWorker(step)
    ensures h in Risk(Apply(cfg, s, step)) <==> h in Risk(s) || ChecksNeedy(s, step, h)
  {
    hide Buckets, RecordEach, RememberedAll, Mention, NeedsWrite, InGate;
  }

  lemma RiskBy(cfg: Config, s: State, step: Step, h: nat)
    requires Listed(s) && HasRisk(Apply(cfg, s, step))
    ensures h in Risk(Apply(cfg, s, step)) <==> h in Risk(s) || ChecksNeedy(s, step, h)
  {
    hide Apply;
    if OfWorker(step) {
      RiskByForWorker(cfg, s, step, h);
    } else {
      RiskByForOthers(cfg, s, step, h);
    }
  }

  lemma DroppingByForWorker(cfg: Config, s: State, step: Step, h: nat)
    requires Listed(s) && h < |Apply(cfg, s, step).handlers| && Apply(cfg, s, step).handlers[h].Dropping?
      && OfWorker(step)
    ensures (h < |s.handlers| && s.handlers[h].Dropping?) || SendsAtFullQueue(cfg, s, step, h)
  {
    hide Buckets, RecordEach, RememberedAll, Mention, NeedsWrite, InGate;
  }

  lemma DroppingByForOthers(cfg: Config, s: State, step: Step, h: nat)
    requires Listed(s) && h < |Apply(cfg, s, step).handlers| && Apply(cfg, s, step).handlers[h].Dropping?
      && !OfWorker(step)
    ensures (h < |s.handlers| && s.handlers[h].Dropping?) || SendsAtFullQueue(cfg, s, step, h)
  {
    hide Buckets, RecordEach, RememberedAll, Mention, NeedsWrite, InGate;
  }

  lemma DroppingBy(cfg: Config, s: State, step: Step, h: nat)
    requires Listed(s) && h < |Apply(cfg, s, step).handlers| && Apply(cfg, s, step).handlers[h].Dropping?
    ensures (h < |s.handlers| && s.handlers[h].Dropping?) || SendsAtFullQueue(cfg, s, step, h)
  {
    hide Apply;
    if OfWorker(step) {
      DroppingByForWorker(cfg, s, step, h);
    } else {
      DroppingByForOthers(cfg, s, step, h);
    }
  }

  // ----------------------------------------------------------------------------- what is at risk

  /** The observation has been found needy by its flush and is at risk while that lasts. */
  predicate KnownNeedy(s: State, h: nat) {
    && h < |s.admitted| == |s.handlers| && !InGate(s.handlers[h]) && h !in s.queue
    && (h in s.batch ==> s.worker.Flushing? && (HasRisk(s) ==> h in Risk(s)))
  }

  lemma NeedyStaysForHandlers(cfg: Config, s: State, step: Step, h: nat)
    requires PlacesInv(s) && KnownNeedy(s, h) && OfHandler(step)
    ensures KnownNeedy(Apply(cfg, s, step), h)
  {
  }

  lemma NeedyStaysForFlush(cfg: Config, s: State, step: Step, h: nat)
    requires PlacesInv(s) && KnownNeedy(s, h) && OfFlush(step)
    ensures KnownNeedy(Apply(cfg, s, step), h)
  {
    hide Buckets, RecordEach, RememberedAll, Mention, NeedsWrite, NoDuplicates, InGate;
  }

  lemma NeedyStaysForQueue(cfg: Config, s: State, step: Step, h: nat)
    requires PlacesInv(s) && KnownNeedy(s, h) && OfWorker(step) && !OfFlush(step)
    ensures KnownNeedy(Apply(cfg, s, step), h)
  {
    hide Buckets, RecordEach, RememberedAll, Mention, NeedsWrite, NoDuplicates, InGate;
  }

  lemma NeedyStaysQuietly(cfg: Config, s: State, step: Step, h: nat)
    requires PlacesInv(s) && KnownNeedy(s, h) && !OfWorker(step) && !OfHandler(step)
    ensures KnownNeedy(Apply(cfg, s, step), h)
  {
    hide Buckets, RecordEach, RememberedAll, Mention, NeedsWrite, NoDuplicates, InGate;
  }

  lemma NeedyStays(cfg: Config, s: State, step: Step, h: nat)
    requires PlacesInv(s) && KnownNeedy(s, h)
    ensures KnownNeedy(Apply(cfg, s, step), h)
  {
    hide PlacesInv, KnownNeedy, Apply;
    PlacesAreListed(s);
    if OfHandler(step) {
      NeedyStaysForHandlers(cfg, s, step, h);
    } else if OfFlush(step) {
      NeedyStaysForFlush(cfg, s, step, h);
    } else if OfWorker(step) {
      NeedyStaysForQueue(cfg, s, step, h);
    } else {
      NeedyStaysQuietly(cfg, s, step, h);
    }
  }

  lemma NeedyIsKnown(cfg: Config, s: State, step: Step, h: nat)
    requires PlacesInv(s) && ChecksNeedy(s, step, h)
    ensures KnownNeedy(Apply(cfg, s, step), h)
  {
    hide Buckets, RecordEach, RememberedAll, Mention, NeedsWrite;
    forall i | 0 <= i < |s.queue| ensures s.queue[i] != h {
      QueuedIsNotStaged(s, i);
    }
  }

  ghost predicate WasNeedy(run: seq<State>, steps: seq<Step>, k: nat, h: nat)
    requires k < |run| == |steps| + 1
  {
    exists c: nat :: c < k && ChecksNeedy(run[c], steps[c], h)
  }

  lemma {:induction false} WasNeedyIsKnown(cfg: Config, existing: Store, run: seq<State>, steps: seq<Step>, k: nat,
      h: nat)
    requires IsTrace(cfg, existing, run, steps) && k < |run| && WasNeedy(run, steps, k, h)
    ensures KnownNeedy(run[k], h)
  {
    hide Apply, ChecksNeedy, KnownNeedy, StageInv, MemoryInv, CountsInv, GateInv, Accounted, PlacesInv;
    TraceKeeps(cfg, existing, run, steps, k - 1);
    assert run[k] == Apply(cfg, run[k - 1], steps[k - 1]);
    if ChecksNeedy(run[k - 1], steps[k - 1], h) {
      NeedyIsKnown(cfg, run[k - 1], steps[k - 1], h);
    } else {
      WasNeedyIsKnown(cfg, existing, run, steps, k - 1, h);
      NeedyStays(cfg, run[k - 1], steps[k - 1], h);
    }
  }

  lemma {:induction false} RiskWasNeedy(cfg: Config, existing: Store, run: seq<State>, steps: seq<Step>, k: nat, h: nat)
    requires IsTrace(cfg, existing, run, steps) && k < |run| && h in Risk(run[k])
    ensures WasNeedy(run, steps, k, h)
  {
    hide Apply, ChecksNeedy, Inv;
    assert k > 0;
    assert run[k] == Apply(cfg, run[k - 1], steps[k - 1]);
    RiskBy(cfg, run[k - 1], steps[k - 1], h);
    if h in Risk(run[k - 1]) {
      RiskWasNeedy(cfg, existing, run, steps, k - 1, h);
    }
  }

  /** What a failing write would lose of a staged observation is decided by what its flush found. */
  lemma AtRiskExactlyIfNeedy(cfg: Config, existing: Store, run: seq<State>, steps: seq<Step>, k: nat, h: nat)
    requires IsTrace(cfg, existing, run, steps) && k < |run| && HasRisk(run[k]) && h in run[k].batch
    ensures h in Risk(run[k]) <==> WasNeedy(run, steps, k, h)
  {
    hide Apply, ChecksNeedy, HasRisk;
    if h in Risk(run[k]) {
      RiskWasNeedy(cfg, existing, run, steps, k, h);
    }
    if WasNeedy(run, steps, k, h) {
      WasNeedyIsKnown(cfg, existing, run, steps, k, h);
    }
  }

  lemma RiskIsInTheBatch(cfg: Config, existing: Store, run: seq<State>, steps: seq<Step>, k: nat, h: nat)
    requires IsTrace(cfg, existing, run, steps) && k < |run| && h in Risk(run[k])
    ensures h in run[k].batch
  {
    hide Apply, RowsInv, Covers, MemoryInv, CountsInv, GateInv, Accounted;
    TraceKeeps(cfg, existing, run, steps, k);
  }

  // ----------------------------------------------------------------------------- exactly which are lost

  /** The observation's send met a full queue and its drop is counted at `k`. */
  ghost predicate DroppedAtFullQueue(cfg: Config, run: seq<State>, steps: seq<Step>, k: nat, h: nat)
    requires k < |steps| == |run| - 1
  {
    CountsDrop(run[k], steps[k], h) && exists j: nat :: j < k && SendsAtFullQueue(cfg, run[j], steps[j], h)
  }

  /** A write fails at `k` that carries the observation's batch, and its flush had found it to need a write. */
  ghost predicate LostInFailedWrite(run: seq<State>, steps: seq<Step>, k: nat, h: nat)
    requires k < |steps| == |run| - 1
  {
    FailsWrite(run[k], steps[k]) && h in run[k].batch && WasNeedy(run, steps, k, h)
  }

  lemma {:induction false} DroppingMetAFullQueue(cfg: Config, existing: Store, run: seq<State>, steps: seq<Step>,
      k: nat, h: nat)
    requires IsTrace(cfg, existing, run, steps) && k < |run| && h < |run[k].handlers| && run[k].handlers[h].Dropping?
    ensures exists j: nat :: j < k && SendsAtFullQueue(cfg, run[j], steps[j], h)
  {
    hide Apply, SendsAtFullQueue;
    assert k > 0;
    assert run[k] == Apply(cfg, run[k - 1], steps[k - 1]);
    DroppingBy(cfg, run[k - 1], steps[k - 1], h);
    if SendsAtFullQueue(cfg, run[k - 1], steps[k - 1], h) {
    } else {
      DroppingMetAFullQueue(cfg, existing, run, steps, k - 1, h);
    }
  }

  ghost predicate LosingStep(cfg: Config, run: seq<State>, steps: seq<Step>, k: nat, h: nat)
    requires k < |steps| == |run| - 1
  {
    DroppedAtFullQueue(cfg, run, steps, k, h) || LostInFailedWrite(run, steps, k, h)
  }

  lemma LosingStepLoses(cfg: Config, existing: Store, run: seq<State>, steps: seq<Step>, k: nat, h: nat)
    requires IsTrace(cfg, existing, run, steps) && k < |steps|
    ensures LosingStep(cfg, run, steps, k, h)
       <==> CountsDrop(run[k], steps[k], h) || (FailsWrite(run[k], steps[k]) && h in Risk(run[k]))
  {
    hide Apply, SendsAtFullQueue, WasNeedy, Risk;
    if CountsDrop(run[k], steps[k], h) {
      DroppingMetAFullQueue(cfg, existing, run, steps, k, h);
    }
    if FailsWrite(run[k], steps[k]) && h in run[k].batch {
      AtRiskExactlyIfNeedy(cfg, existing, run, steps, k, h);
    }
    if FailsWrite(run[k], steps[k]) && h in Risk(run[k]) {
      RiskIsInTheBatch(cfg, existing, run, steps, k, h);
    }
  }

  /**
    In every run an observation is lost if and only if its send met a full queue and the drop was counted, or a failing
    write struck the batch that held it while one of its buckets had been found to need a write.
  */
  lemma {:induction false} LostExactlyWhen(cfg: Config, existing: Store, run: seq<State>, steps: seq<Step>, i: nat,
      h: nat)
    requires IsTrace(cfg, existing, run, steps) && i < |run|
    ensures h in run[i].lost <==> exists k: nat :: k < i && LosingStep(cfg, run, steps, k, h)
  {
    hide Apply, LosingStep, CountsDrop, FailsWrite, Risk;
    if i == 0 {
    } else {
      assert run[i] == Apply(cfg, run[i - 1], steps[i - 1]);
      LostExactlyWhen(cfg, existing, run, steps, i - 1, h);
      LostBy(cfg, run[i - 1], steps[i - 1], h);
      LosingStepLoses(cfg, existing, run, steps, i - 1, h);
    }
  }

  /** No send meets a full queue, no call fails and no owner is marked. */
  predicate Untroubled(cfg: Config, s: State, step: Step) {
    && !step.WriteFails? && !step.MarkOk? && !step.MarkFails?
    && !(step.TrySend? && step.h < |s.handlers| && s.handlers[step.h].Sending? && cfg.queueSize <= |s.queue|)
  }

  lemma {:induction false} UntroubledSendsNothing(cfg: Config, run: seq<State>, steps: seq<Step>, i: nat)
    requires i < |run| == |steps| + 1 && forall k | 0 <= k < i :: Untroubled(cfg, run[k], steps[k])
    ensures SentBuckets(run, steps, i) == []
  {
    if i == 0 {
    } else {
      UntroubledSendsNothing(cfg, run, steps, i - 1);
      assert Untroubled(cfg, run[i - 1], steps[i - 1]);
    }
  }

  /**
    A run without such a step has, when it is shut down, stored every observation that it admitted, and nothing else.
  */
  lemma UntroubledRunStoresEveryObservation(cfg: Config, existing: Store, run: seq<State>, steps: seq<Step>, i: nat)
    requires IsTrace(cfg, existing, run, steps) && i < |run| && run[i].worker.Done?
    requires forall k | 0 <= k < i :: Untroubled(cfg, run[k], steps[k])
    ensures run[i].lost == {} && run[i].store == RecordEach(existing, BucketsOf(run[i].admitted))
  {
    hide Apply, RecordEach, BucketsOf;
    UntroubledSendsNothing(cfg, run, steps, i);
    forall h: nat ensures h !in run[i].lost {
      LostExactlyWhen(cfg, existing, run, steps, i, h);
      forall k: nat | k < i ensures !LosingStep(cfg, run, steps, k, h) {
        assert Untroubled(cfg, run[k], steps[k]);
        forall j: nat | j < k ensures !SendsAtFullQueue(cfg, run[j], steps[j], h) {
          assert Untroubled(cfg, run[j], steps[j]);
        }
      }
    }
    assert run[i].lost == {};
    CleanRunStoresEveryObservation(cfg, existing, run, steps, i);
  }

  // ----------------------------------------------------------------------------- suppression

  /**
    What a successful flush has sent is known from its last step on: its rows, of one current epoch a kind and within
    the cap, need no further write, so the next batch that repeats them sends nothing.
  */
  lemma SentRowsAreSuppressed(cfg: Config, s: State, day: nat, month: nat)
    requires Listed(s) && s.worker.Flushing? && s.worker.stage.Remembering?
    requires 0 < day && 0 < month && s.memory.day.epoch <= day && s.memory.month.epoch <= month
    requires forall i | 0 <= i < |s.worker.stage.rows| ::
      s.worker.stage.rows[i].id.epoch == if s.worker.stage.rows[i].id.kind == Day then day else month
    requires |s.memory.day.owners| + |s.worker.stage.rows| <= cfg.seenLimit
    requires |s.memory.month.owners| + |s.worker.stage.rows| <= cfg.seenLimit
    ensures forall b <- s.worker.stage.rows :: !NeedsWrite(Apply(cfg, s, RememberRows).memory, b)
  {
    hide NeedsWrite, RememberedAll;
    RememberedRowsAreNotWrittenAgain(s.memory, s.worker.stage.rows, cfg.seenLimit, day, month);
  }

  // ----------------------------------------------------------------------------- bounds

  function AtLeastOne(n: nat): nat {
    if n == 0 then 1 else n
  }

  /** The queue and the batch stay within their sizes; a worker that is not flushing has room in its batch. */
  predicate Bounded(cfg: Config, s: State) {
    && |s.queue| <= cfg.queueSize && |s.batch| <= AtLeastOne(cfg.batchSize)
    && (s.worker.Running? || s.worker.Draining? ==> |s.batch| < AtLeastOne(cfg.batchSize))
  }

  lemma StepKeepsBoundsForWorker(cfg: Config, s: State, step: Step)
    requires Listed(s) && Bounded(cfg, s) && OfWorker(step)
    ensures Bounded(cfg, Apply(cfg, s, step))
  {
    hide Buckets, RecordEach, RememberedAll, Mention, NeedsWrite, InGate;
  }

  lemma StepKeepsBoundsForOthers(cfg: Config, s: State, step: Step)
    requires Listed(s) && Bounded(cfg, s) && !OfWorker(step)
    ensures Bounded(cfg, Apply(cfg, s, step))
  {
    hide Buckets, RecordEach, RememberedAll, Mention, NeedsWrite, InGate;
  }

  lemma StepKeepsBounds(cfg: Config, s: State, step: Step)
    requires Listed(s) && Bounded(cfg, s)
    ensures Bounded(cfg, Apply(cfg, s, step))
  {
    hide Apply;
    if OfWorker(step) {
      StepKeepsBoundsForWorker(cfg, s, step);
    } else {
      StepKeepsBoundsForOthers(cfg, s, step);
    }
  }

  /** In every run the queue and the staged batch are bounded by the configuration. */
  lemma {:induction false} QueueAndBatchAreBounded(cfg: Config, existing: Store, run: seq<State>, steps: seq<Step>,
      i: nat)
    requires IsTrace(cfg, existing, run, steps) && i < |run|
    ensures Bounded(cfg, run[i])
  {
    hide Apply, Bounded;
    if i == 0 {
      NothingIsBounded(cfg, existing);
    } else {
      QueueAndBatchAreBounded(cfg, existing, run, steps, i - 1);
      assert run[i] == Apply(cfg, run[i - 1], steps[i - 1]);
      StepKeepsBounds(cfg, run[i - 1], steps[i - 1]);
    }
  }

  lemma NothingIsBounded(cfg: Config, existing: Store)
    ensures Bounded(cfg, Init(existing))
  {
  }
}
