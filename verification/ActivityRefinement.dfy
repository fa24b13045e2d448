/**
  What the store holds, in every interleaving, in terms of what happened and not of how it was batched: the coalesced,
  suppressed and retried writes leave the same identities and owner bits as writing each settled observation, each owner
  mark and whatever failing calls got through, one by one.
*/
module ActivityRefinement {
  import opened Wrappers
  import opened ActivityStore
  import opened ActivityProtocol
  import opened ActivityConservation

  /** A run together with the steps it took. */
  ghost predicate IsTrace(cfg: Config, existing: Store, run: seq<State>, steps: seq<Step>) {
    && |run| == |steps| + 1 && run[0] == Init(existing)
    && forall i | 0 <= i < |steps| :: Listed(run[i]) && run[i + 1] == Apply(cfg, run[i], steps[i])
  }

  /** The observation's part is over and it was not dropped: its flush has written it or found it written. */
  predicate Settled(s: State, h: nat) {
    && h < |s.admitted| == |s.handlers| && !InGate(s.handlers[h]) && h !in s.queue && h !in s.lost
    && (h in s.batch ==> s.worker.Flushing? && (s.worker.stage.Remembering? || s.worker.stage.Settling?))
  }

  /** What a step sends to the store besides settled observations: an owner mark, or the rows a failing call wrote. */
  function Sent(s: State, step: Step): seq<Bucket> {
    match step
    case MarkOk(day, month) => [Bucket(day, true), Bucket(month, true)]
    case MarkFails(day, month, written) =>
      if forall b <- written :: b == Bucket(day, true) || b == Bucket(month, true) then written else []
    case WriteFails(written) =>
      if s.worker.Flushing? && s.worker.stage.Writing? && forall b <- written ::
        b in s.worker.stage.rows then written else []
    case _ => []
  }

  /** Everything that was said up to a point of a trace: the settled observations' buckets and what the steps sent. */
  ghost predicate Said(run: seq<State>, steps: seq<Step>, i: nat, b: Bucket)
    requires i < |run| == |steps| + 1
  {
    || (exists h: nat :: Settled(run[i], h) && (b == run[i].admitted[h].day || b == run[i].admitted[h].month))
    || (exists k: nat :: k < i && b in Sent(run[k], steps[k]))
  }

  // ----------------------------------------------------------------------------- one step

  lemma SettledStaysForHandlers(cfg: Config, s: State, step: Step, h: nat)
    requires PlacesInv(s) && Settled(s, h)
    requires step.Enter? || step.CountPending? || step.TrySend? || step.CountDrop? || step.Leave?
    ensures Settled(Apply(cfg, s, step), h) && Apply(cfg, s, step).admitted[h] == s.admitted[h]
  {
  }

  lemma SettledStaysForWorker(cfg: Config, s: State, step: Step, h: nat)
    requires PlacesInv(s) && StageInv(s) && Settled(s, h)
    requires step.Take? || step.Tick? || step.SeeStop? || step.DrainIsEmpty? || step.CheckDay? || step.CheckMonth?
      || step.EndChecks?
             || step.Pick? || step.EndPicks? || step.WriteOk? || step.WriteFails? || step.RememberRows? || step.Settle?
    ensures Settled(Apply(cfg, s, step), h) && Apply(cfg, s, step).admitted[h] == s.admitted[h]
  {
    hide Buckets, RecordEach, RememberedAll, Mention, NeedsWrite, Covers, RowsInv, NoDuplicates, WriteFailed;
    if step.WriteFails? {
      SettledStaysForFailure(s, step.written, h);
    }
    hide StageInv;
  }

  lemma SettledStaysForFailure(s: State, written: seq<Bucket>, h: nat)
    requires PlacesInv(s) && StageInv(s) && Settled(s, h)
    ensures Settled(WriteFailed(s, written), h) && WriteFailed(s, written).admitted == s.admitted
  {
    hide RecordEach, Covers, RowsInv, NoDuplicates;
    if s.worker.Flushing? && s.worker.stage.Writing? {
      assert RiskInv(s, s.worker.stage.risk, |s.batch|);
    }
  }

  lemma SettledStays(cfg: Config, s: State, step: Step, h: nat)
    requires PlacesInv(s) && StageInv(s) && Settled(s, h)
    ensures Settled(Apply(cfg, s, step), h) && Apply(cfg, s, step).admitted[h] == s.admitted[h]
  {
    hide PlacesInv, StageInv, RecordEach, RememberedAll;
    PlacesAreListed(s);
    match step
    case Enter(_) => SettledStaysForHandlers(cfg, s, step, h);
    case CountPending(_) => SettledStaysForHandlers(cfg, s, step, h);
    case TrySend(_) => SettledStaysForHandlers(cfg, s, step, h);
    case CountDrop(_) => SettledStaysForHandlers(cfg, s, step, h);
    case Leave(_) => SettledStaysForHandlers(cfg, s, step, h);
    case EnterLate(_) =>
    case EnterUncounted =>
    case LeaveUncounted =>
    case CloseGate =>
    case SignalStop =>
    case MarkOk(_, _) =>
    case MarkFails(_, _, _) =>
    case MarkRemember(_) =>
    case _ => SettledStaysForWorker(cfg, s, step, h);
  }

  lemma WritingStepsLog(s: State, step: Step, cfg: Config)
    requires Listed(s) && (step.WriteOk? || step.WriteFails? || step.MarkOk? || step.MarkFails?)
    ensures Apply(cfg, s, step).log == s.log + NewlyLogged(s, step)
  {
    hide RecordEach, Mention, Observations, BucketsOf;
  }

  lemma OtherStepsLogNothing(s: State, step: Step, cfg: Config)
    requires Listed(s) && !(step.WriteOk? || step.WriteFails? || step.MarkOk? || step.MarkFails?)
    ensures Apply(cfg, s, step).log == s.log && NewlyLogged(s, step) == []
  {
    hide RecordEach, RememberedAll, Mention, NeedsWrite, Observations, BucketsOf, InGate;
  }

  /** The log grows by what the step sent, or by the buckets of a batch that is settled from then on. */
  lemma LogGrowsBy(cfg: Config, s: State, step: Step)
    requires Listed(s)
    ensures Apply(cfg, s, step).log == s.log + NewlyLogged(s, step)
  {
    hide Apply, NewlyLogged;
    if step.WriteOk? || step.WriteFails? || step.MarkOk? || step.MarkFails? {
      WritingStepsLog(s, step, cfg);
    } else {
      OtherStepsLogNothing(s, step, cfg);
    }
  }

  function NewlyLogged(s: State, step: Step): seq<Bucket>
    requires Listed(s)
  {
    if step.WriteOk? && s.worker.Flushing? && s.worker.stage.Writing? then Buckets(s) else Sent(s, step)
  }

  lemma {:induction false} BatchBucketHasAnOwner(admitted: seq<Observation>, ids: seq<nat>, b: Bucket) returns (j: nat)
    requires forall i | 0 <= i < |ids| :: ids[i] < |admitted|
    requires b in BucketsOf(Observations(admitted, ids))
    ensures j < |ids| && (b == admitted[ids[j]].day || b == admitted[ids[j]].month)
  {
    var init, last := ids[..|ids| - 1], admitted[ids[|ids| - 1]];
    assert Observations(admitted, ids)[..|Observations(admitted, ids)| - 1] == Observations(admitted, init);
    if b == last.day || b == last.month {
      j := |ids| - 1;
    } else {
      j := BatchBucketHasAnOwner(admitted, init, b);
    }
  }

  lemma WrittenBatchIsSettled(s: State, j: nat)
    requires PlacesInv(s) && s.worker.Flushing? && s.worker.stage.Writing? && j < |s.batch|
    ensures Settled(WriteSucceeded(s), s.batch[j]) && WriteSucceeded(s).admitted == s.admitted
  {
    hide RecordEach, BucketsOf, Observations;
    var all := s.batch + s.queue;
    forall i | 0 <= i < |s.queue| ensures s.queue[i] != s.batch[j] {
      assert all[j] == s.batch[j] && all[|s.batch| + i] == s.queue[i];
    }
  }

  /** A settled observation is covered by the store. */
  lemma SettledIsCovered(cfg: Config, existing: Store, s: State, h: nat)
    requires Inv(cfg, existing, s) && Settled(s, h)
    ensures CoversObservation(s.store, s.admitted[h])
  {
    hide Covers, MemoryInv, CountsInv, RowsInv, RiskInv;
    assert Accounted(s, h);
    if h in s.batch {
      var j :| 0 <= j < |s.batch| && s.batch[j] == h;
    }
  }

  // ----------------------------------------------------------------------------- whole traces

  lemma {:induction false} TraceKeeps(cfg: Config, existing: Store, run: seq<State>, steps: seq<Step>, i: nat)
    requires IsTrace(cfg, existing, run, steps) && i < |run|
    ensures Inv(cfg, existing, run[i])
  {
    hide Apply, Inv;
    if i == 0 {
      StartHolds(cfg, existing);
    } else {
      TraceKeeps(cfg, existing, run, steps, i - 1);
      StepKeeps(cfg, existing, run[i - 1], steps[i - 1]);
    }
  }

  lemma SaidStays(cfg: Config, existing: Store, run: seq<State>, steps: seq<Step>, i: nat, b: Bucket)
    requires IsTrace(cfg, existing, run, steps) && i + 1 < |run| && Said(run, steps, i, b)
    ensures Said(run, steps, i + 1, b)
  {
    hide Apply, StageInv, PlacesInv, Sent;
    TraceKeeps(cfg, existing, run, steps, i);
    if h: nat :| Settled(run[i], h) && (b == run[i].admitted[h].day || b == run[i].admitted[h].month) {
      SettledStays(cfg, run[i], steps[i], h);
      assert run[i + 1] == Apply(cfg, run[i], steps[i]);
      assert Settled(run[i + 1], h);
    } else {
      var k: nat :| k < i && b in Sent(run[k], steps[k]);
    }
  }

  /** Nothing is logged that was not said. */
  lemma {:induction false} LoggedWasSaid(cfg: Config, existing: Store, run: seq<State>, steps: seq<Step>, i: nat,
      b: Bucket)
    requires IsTrace(cfg, existing, run, steps) && i < |run| && b in run[i].log
    ensures Said(run, steps, i, b)
  {
    hide Apply, Said, Sent, Settled, StageInv, MemoryInv, CountsInv, GateInv, Accounted;
    assert i > 0;
    var s, step := run[i - 1], steps[i - 1];
    TraceKeeps(cfg, existing, run, steps, i - 1);
    LogGrowsBy(cfg, s, step);
    if b in s.log {
      LoggedWasSaid(cfg, existing, run, steps, i - 1, b);
      SaidStays(cfg, existing, run, steps, i - 1, b);
    } else {
      NewlyLoggedIsSaid(cfg, existing, run, steps, i - 1, b);
    }
  }

  lemma NewlyLoggedIsSaid(cfg: Config, existing: Store, run: seq<State>, steps: seq<Step>, k: nat, b: Bucket)
    requires IsTrace(cfg, existing, run, steps) && k < |steps| && PlacesInv(run[k])
      && b in NewlyLogged(run[k], steps[k])
    ensures Said(run, steps, k + 1, b)
  {
    hide Settled, PlacesInv, WriteSucceeded, Observations, BucketsOf, RecordEach;
    var s, step := run[k], steps[k];
    PlacesAreListed(s);
    if step.WriteOk? && s.worker.Flushing? && s.worker.stage.Writing? {
      var j := BatchBucketHasAnOwner(s.admitted, s.batch, b);
      WrittenBatchIsSettled(s, j);
      assert run[k + 1] == WriteSucceeded(s);
      assert Settled(run[k + 1], s.batch[j]);
    } else {
      assert b in Sent(s, step);
    }
  }

  lemma {:induction false} LogOnlyGrows(cfg: Config, existing: Store, run: seq<State>, steps: seq<Step>, k: nat, i: nat)
    requires IsTrace(cfg, existing, run, steps) && k <= i < |run|
    ensures run[k].log <= run[i].log
  {
    hide Apply, NewlyLogged;
    if k == i {
    } else {
      LogOnlyGrows(cfg, existing, run, steps, k, i - 1);
      LogGrowsBy(cfg, run[i - 1], steps[i - 1]);
      assert run[i].log[..|run[k].log|] == run[i - 1].log[..|run[k].log|];
    }
  }

  /** Whatever was said is in the store, with at least its owner bit. */
  lemma SaidIsCovered(cfg: Config, existing: Store, run: seq<State>, steps: seq<Step>, i: nat, b: Bucket)
    requires IsTrace(cfg, existing, run, steps) && i < |run| && Said(run, steps, i, b)
    ensures Covers(run[i].store, b)
  {
    hide Apply, Sent, StageInv, CountsInv, GateInv, Accounted, PlacesInv, Covers;
    TraceKeeps(cfg, existing, run, steps, i);
    if h: nat :| Settled(run[i], h) && (b == run[i].admitted[h].day || b == run[i].admitted[h].month) {
      SettledIsCovered(cfg, existing, run[i], h);
    } else {
      var k: nat :| k < i && b in Sent(run[k], steps[k]);
      SentIsLogged(cfg, run[k], steps[k], b);
      LogOnlyGrows(cfg, existing, run, steps, k + 1, i);
      var j :| 0 <= j < |run[k + 1].log| && run[k + 1].log[j] == b;
      assert run[i].log[j] == run[i].log[..|run[k + 1].log|][j];
      RecordedIsCovered(existing, run[i].log, j);
    }
  }

  lemma SentIsLogged(cfg: Config, s: State, step: Step, b: Bucket)
    requires Listed(s) && b in Sent(s, step)
    ensures b in Apply(cfg, s, step).log
  {
    hide Apply;
    LogGrowsBy(cfg, s, step);
  }

  /** A list that holds everything logged and nothing the store does not cover leaves the same store. */
  lemma SameStoreAsLogged(existing: Store, log: seq<Bucket>, said: seq<Bucket>)
    requires forall b <- log :: b in said
    requires forall b <- said :: Covers(RecordEach(existing, log), b)
    ensures RecordEach(existing, said) == RecordEach(existing, log)
  {
    hide RecordEach, Mention;
    forall id: Identity ensures Held(RecordEach(existing, said), id) == Held(RecordEach(existing, log), id) {
      RecordEachAt(existing, said, id);
      RecordEachAt(existing, log, id);
      if Mention(log, id).Some? {
        var i := MentionFinds(log, id);
        assert log[i] in said;
        var j :| 0 <= j < |said| && said[j] == log[i];
        MentionAt(said, j);
      }
      if Mention(said, id).Some? {
        var i := MentionFinds(said, id);
        assert Covers(RecordEach(existing, log), said[i]);
      }
    }
    SameStore(RecordEach(existing, said), RecordEach(existing, log));
  }

  /**
    At every point of every run, epoch rollovers, owner marks, failing calls and the size cap included, the store is
    what writing everything that was said individually leaves, in any order and with any repetition.
  */
  lemma CoalescedWritesRefineIndividualWrites(
    cfg: Config, existing: Store, run: seq<State>, steps: seq<Step>, i: nat, said: seq<Bucket>)
    requires IsTrace(cfg, existing, run, steps) && i < |run|
    requires forall b: Bucket :: b in said <==> Said(run, steps, i, b)
    ensures run[i].store == RecordEach(existing, said)
  {
    hide Apply, Said, Covers, StageInv, CountsInv, GateInv, Accounted, PlacesInv, RecordEach, IsTrace;
    TraceKeeps(cfg, existing, run, steps, i);
    forall b | b in run[i].log ensures b in said {
      LoggedWasSaid(cfg, existing, run, steps, i, b);
    }
    forall b | b in said ensures Covers(run[i].store, b) {
      SaidIsCovered(cfg, existing, run, steps, i, b);
    }
    SameStoreAsLogged(existing, run[i].log, said);
  }

  // ----------------------------------------------------------------------------- listing what was said

  function SettledBuckets(s: State, n: nat): seq<Bucket>
    requires n <= |s.admitted|
  {
    if n == 0 then []
    else SettledBuckets(s, n - 1) + if Settled(s, n - 1) then [s.admitted[n - 1].day, s.admitted[n - 1].month] else []
  }

  function SentBuckets(run: seq<State>, steps: seq<Step>, i: nat): seq<Bucket>
    requires i < |run| == |steps| + 1
  {
    if i == 0 then [] else SentBuckets(run, steps, i - 1) + Sent(run[i - 1], steps[i - 1])
  }

  lemma {:induction false} SettledBucketsList(s: State, n: nat, b: Bucket)
    requires n <= |s.admitted|
    ensures b in SettledBuckets(s, n)
       <==> exists h: nat :: h < n && Settled(s, h) && (b == s.admitted[h].day || b == s.admitted[h].month)
  {
    hide Settled;
    if n == 0 {
    } else {
      SettledBucketsList(s, n - 1, b);
      if Settled(s, n - 1) && (b == s.admitted[n - 1].day || b == s.admitted[n - 1].month) {
        assert b in [s.admitted[n - 1].day, s.admitted[n - 1].month];
      }
    }
  }

  lemma {:induction false} SentBucketsList(run: seq<State>, steps: seq<Step>, i: nat, b: Bucket)
    requires i < |run| == |steps| + 1
    ensures b in SentBuckets(run, steps, i) <==> exists k: nat :: k < i && b in Sent(run[k], steps[k])
  {
    hide Sent;
    if i == 0 {
    } else {
      SentBucketsList(run, steps, i - 1, b);
    }
  }

  /** What was said can be listed, so the store of every run is one list written bucket by bucket. */
  lemma StoreIsWhatWasSaid(cfg: Config, existing: Store, run: seq<State>, steps: seq<Step>, i: nat)
    requires IsTrace(cfg, existing, run, steps) && i < |run|
    ensures run[i].store == RecordEach(existing, SettledBuckets(run[i], |run[i].admitted|) + SentBuckets(run, steps, i))
  {
    var said := SettledBuckets(run[i], |run[i].admitted|) + SentBuckets(run, steps, i);
    forall b: Bucket ensures b in said <==> Said(run, steps, i, b) {
      SettledBucketsList(run[i], |run[i].admitted|, b);
      SentBucketsList(run, steps, i, b);
    }
    hide IsTrace, Said;
    CoalescedWritesRefineIndividualWrites(cfg, existing, run, steps, i, said);
  }

  lemma {:induction false} AllSettledIsTheBatch(s: State, n: nat)
    requires n <= |s.admitted| && forall h: nat | h < n :: Settled(s, h)
    ensures SettledBuckets(s, n) == BucketsOf(s.admitted[..n])
  {
    hide Settled;
    if n == 0 {
    } else {
      AllSettledIsTheBatch(s, n - 1);
      assert s.admitted[..n][..n - 1] == s.admitted[..n - 1];
    }
  }

  /**
    A run that has shut down having dropped nothing, with no owner mark and no failing call, has stored exactly what
    writing every admitted observation by itself would have.
  */
  lemma CleanRunStoresEveryObservation(cfg: Config, existing: Store, run: seq<State>, steps: seq<Step>, i: nat)
    requires IsTrace(cfg, existing, run, steps) && i < |run| && run[i].worker.Done? && run[i].lost == {}
    requires SentBuckets(run, steps, i) == []
    ensures run[i].store == RecordEach(existing, BucketsOf(run[i].admitted))
  {
    hide IsTrace, Inv, RecordEach, BucketsOf, Settled, SentBuckets;
    var s := run[i];
    TraceKeeps(cfg, existing, run, steps, i);
    StoreIsWhatWasSaid(cfg, existing, run, steps, i);
    DoneSettlesAll(cfg, existing, s);
    AllSettledIsTheBatch(s, |s.admitted|);
    assert s.admitted[..|s.admitted|] == s.admitted;
    assert SettledBuckets(s, |s.admitted|) + [] == SettledBuckets(s, |s.admitted|);
  }

  lemma DoneSettlesAll(cfg: Config, existing: Store, s: State)
    requires Inv(cfg, existing, s) && s.worker.Done? && s.lost == {}
    ensures forall h: nat | h < |s.admitted| :: Settled(s, h)
  {
    hide MemoryInv, StageInv, Accounted;
    NobodyServing(s.handlers);
    forall h: nat | h < |s.admitted| ensures Settled(s, h) {
      assert s.handlers[h].Gone?;
    }
  }
}
