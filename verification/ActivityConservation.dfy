/** Conservation, refinement and shutdown of the activity tracker, in every interleaving. */
module ActivityConservation {
  import opened Wrappers
  import opened ActivityStore
  import opened ActivityProtocol

  // --------------------------------------------------------------------------- small facts

  lemma {:induction false} CountUpdate(pcs: seq<HandlerPc>, h: nat, pc: HandlerPc, sending: bool)
    requires h < |pcs|
    ensures Count(pcs[h := pc], sending)
         == Count(pcs, sending) - (if Counts(pcs[h], sending) then 1 else 0) + (if Counts(pc, sending) then 1 else 0)
  {
    var last := |pcs| - 1;
    if h == last {
      assert pcs[h := pc][..last] == pcs[..last];
    } else {
      assert pcs[h := pc][..last] == pcs[..last][h := pc];
      CountUpdate(pcs[..last], h, pc, sending);
    }
  }

  lemma CountAppend(pcs: seq<HandlerPc>, pc: HandlerPc, sending: bool)
    ensures Count(pcs + [pc], sending) == Count(pcs, sending) + (if Counts(pc, sending) then 1 else 0)
  {
    assert (pcs + [pc])[..|pcs|] == pcs;
  }

  lemma {:induction false} NobodyServing(pcs: seq<HandlerPc>)
    requires Count(pcs, false) == 0
    ensures forall h | 0 <= h < |pcs| :: pcs[h].Gone?
  {
    if pcs == [] {
    } else {
      NobodyServing(pcs[..|pcs| - 1]);
    }
  }

  lemma {:induction false} NobodySending(pcs: seq<HandlerPc>)
    requires forall h | 0 <= h < |pcs| :: !pcs[h].Sending?
    ensures Count(pcs, true) == 0
  {
    if pcs == [] {
    } else {
      NobodySending(pcs[..|pcs| - 1]);
    }
  }

  lemma {:induction false} RecordEachConcat(store: Store, a: seq<Bucket>, b: seq<Bucket>)
    ensures RecordEach(store, a + b) == RecordEach(RecordEach(store, a), b)
  {
    if b == [] {
      assert a + b == a;
    } else {
      assert (a + b)[..|a + b| - 1] == a + b[..|b| - 1];
      RecordEachConcat(store, a, b[..|b| - 1]);
    }
  }

  lemma {:induction false} ObservationsFacts(admitted: seq<Observation>, ids: seq<nat>)
    requires forall i | 0 <= i < |ids| :: ids[i] < |admitted|
    ensures |Observations(admitted, ids)| == |ids|
    ensures forall i | 0 <= i < |ids| :: Observations(admitted, ids)[i] == admitted[ids[i]]
  {
    if ids == [] {
    } else {
      var init := ids[..|ids| - 1];
      ObservationsFacts(admitted, init);
      assert Observations(admitted, ids) == Observations(admitted, init) + [admitted[ids[|ids| - 1]]];
      forall i | 0 <= i < |ids| ensures Observations(admitted, ids)[i] == admitted[ids[i]] {
        if i < |init| {
          assert init[i] == ids[i];
        }
      }
    }
  }

  /** New admissions do not change what is staged. */
  lemma {:induction false} ObservationsOfMore(admitted: seq<Observation>, o: Observation, ids: seq<nat>)
    requires forall i | 0 <= i < |ids| :: ids[i] < |admitted|
    ensures Observations(admitted + [o], ids) == Observations(admitted, ids)
  {
    if ids == [] {
    } else {
      ObservationsOfMore(admitted, o, ids[..|ids| - 1]);
    }
  }

  lemma BucketIsMentioned(s: State, id: Identity)
    requires Listed(s)
    ensures Mention(Buckets(s), id).Some? ==> id in set b | b in Buckets(s) :: b.id
  {
    if Mention(Buckets(s), id).Some? {
      var i := MentionFinds(Buckets(s), id);
      assert Buckets(s)[i] in Buckets(s);
    }
  }

  // -------------------------------------------------------- the store only ever covers more

  lemma StageGrows(s: State, rows: seq<Bucket>)
    requires PlacesInv(s) && StageInv(s)
    ensures StageInv(Written(s, rows, rows))
  {
    CoverageKept(s.store, rows);
    hide Covers, RecordEach, Mention, BucketsOf, Observations;
    assert Buckets(Written(s, rows, rows)) == Buckets(s);
  }

  lemma MemoryGrows(cfg: Config, existing: Store, s: State, rows: seq<Bucket>)
    requires MemoryInv(cfg, existing, s)
    ensures MemoryInv(cfg, existing, Written(s, rows, rows))
  {
    CoverageKept(s.store, rows);
    SoundLasts(s.memory, s.store, rows);
    RecordEachConcat(existing, s.log, rows);
    hide Covers, RecordEach, Sound;
  }

  lemma StoreGrows(cfg: Config, existing: Store, s: State, rows: seq<Bucket>)
    requires Inv(cfg, existing, s)
    ensures Inv(cfg, existing, Written(s, rows, rows))
  {
    StageGrows(s, rows);
    MemoryGrows(cfg, existing, s, rows);
    CoverageKept(s.store, rows);
    hide Covers, RecordEach, StageInv, MemoryInv;
    var t := Written(s, rows, rows);
    forall h: nat | h < |t.admitted| ensures Accounted(t, h) {
      assert Accounted(s, h);
    }
  }

  lemma CoverageKept(store: Store, rows: seq<Bucket>)
    ensures forall b: Bucket | Covers(store, b) :: Covers(RecordEach(store, rows), b)
  {
    forall b: Bucket | Covers(store, b) ensures Covers(RecordEach(store, rows), b) {
      CoverageLasts(store, rows, b);
    }
  }

  // ----------------------------------------------------------------------- handlers and gate

  /** The worker's progress depends on nothing a handler or the gate changes. */
  lemma StageFrame(s: State, t: State)
    requires Listed(s) && Listed(t) && StageInv(s)
    requires t.worker == s.worker && t.batch == s.batch && t.admitted == s.admitted && t.store == s.store
      && s.lost <= t.lost
    ensures StageInv(t)
  {
    if s.worker.Flushing? && (s.worker.stage.Picking? || s.worker.stage.Writing?) {
      assert Buckets(s) == Buckets(t);
    }
  }

  /** One handler moves. */
  lemma HandlerMoves(cfg: Config, existing: Store, s: State, t: State, h: nat)
    requires Inv(cfg, existing, s) && h < |s.handlers| && !s.handlers[h].Gone? && PlacesInv(t)
    requires t == s.(handlers := t.handlers, queue := t.queue, pending := t.pending, dropped := t.dropped,
      serving := t.serving, lost := t.lost)
    requires t.handlers == s.handlers[h := t.handlers[h]]
    requires InGate(t.handlers[h]) ==> InGate(s.handlers[h])
    requires t.queue == s.queue || (t.queue == s.queue + [h] && InGate(s.handlers[h]))
    requires s.lost <= t.lost
    requires InGate(t.handlers[h]) || !InGate(s.handlers[h]) || h in t.lost || h in t.queue
    requires t.pending - s.pending == |t.queue| - |s.queue| - (if Counts(s.handlers[h], true) then 1 else 0)
      + (if Counts(t.handlers[h], true) then 1 else 0)
    requires t.serving - s.serving == (if t.handlers[h].Gone? then -1 else 0)
    requires t.dropped - s.dropped == |t.lost| - |s.lost|
    ensures Inv(cfg, existing, t)
  {
    CountUpdate(s.handlers, h, t.handlers[h], true);
    CountUpdate(s.handlers, h, t.handlers[h], false);
    assert s.handlers[h] in s.handlers;
    if s.stopped {
      NobodyServing(s.handlers);
    }
    StageFrame(s, t);
    forall k: nat | k < |t.admitted| ensures Accounted(t, k) {
      assert Accounted(s, k);
    }
  }

  lemma SentPlaces(cfg: Config, s: State, h: nat)
    requires PlacesInv(s)
    ensures PlacesInv(Sent(cfg, s, h))
  {
    var t := Sent(cfg, s, h);
    if t.queue != s.queue {
      var all := s.batch + s.queue;
      assert t.batch + t.queue == all + [h];
      forall i | 0 <= i < |all| ensures all[i] != h {
        assert all[i] == if i < |s.batch| then s.batch[i] else s.queue[i - |s.batch|];
      }
    }
  }

  lemma SentKeeps(cfg: Config, existing: Store, s: State, h: nat)
    requires Inv(cfg, existing, s)
    ensures Inv(cfg, existing, Sent(cfg, s, h))
  {
    var t := Sent(cfg, s, h);
    if t != s {
      SentPlaces(cfg, s, h);
      if t.queue != s.queue {
        assert t.queue[|s.queue|] == h;
      }
      HandlerMoves(cfg, existing, s, t, h);
    }
  }

  lemma CountedPendingKeeps(cfg: Config, existing: Store, s: State, h: nat)
    requires Inv(cfg, existing, s)
    ensures Inv(cfg, existing, CountedPending(s, h))
  {
    if CountedPending(s, h) != s {
      HandlerMoves(cfg, existing, s, CountedPending(s, h), h);
    }
  }

  lemma CountedDropKeeps(cfg: Config, existing: Store, s: State, h: nat)
    requires Inv(cfg, existing, s)
    ensures Inv(cfg, existing, CountedDrop(s, h))
  {
    if CountedDrop(s, h) != s {
      HandlerMoves(cfg, existing, s, CountedDrop(s, h), h);
    }
  }

  lemma LeftKeeps(cfg: Config, existing: Store, s: State, h: nat)
    requires Inv(cfg, existing, s)
    ensures Inv(cfg, existing, Left(s, h))
  {
    if Left(s, h) != s {
      HandlerMoves(cfg, existing, s, Left(s, h), h);
    }
  }

  lemma EnterPlaces(s: State, o: Observation)
    requires PlacesInv(s)
    ensures PlacesInv(Entered(s, o))
  {
  }

  lemma EnterStage(s: State, o: Observation)
    requires PlacesInv(s) && StageInv(s)
    ensures Listed(Entered(s, o)) && StageInv(Entered(s, o))
  {
    hide Covers, Mention;
    ObservationsOfMore(s.admitted, o, s.batch);
    assert Listed(Entered(s, o)) && Buckets(Entered(s, o)) == Buckets(s);
  }

  lemma EnterKeeps(cfg: Config, existing: Store, s: State, o: Observation)
    requires Inv(cfg, existing, s)
    ensures Inv(cfg, existing, Entered(s, o))
  {
    hide PlacesInv, StageInv, Sound, Covers, RecordEach, WithinLimit, Count;
    EnterPlaces(s, o);
    EnterStage(s, o);
    var t := Entered(s, o);
    if t != s {
      assert Listed(s) by { PlacesAreListed(s); }
      CountAppend(s.handlers, Counting, true);
      CountAppend(s.handlers, Counting, false);
      forall k: nat | k < |t.admitted| ensures Accounted(t, k) {
        if k < |s.admitted| {
          assert Accounted(s, k);
        }
      }
    }
  }

  lemma PlacesAreListed(s: State)
    requires PlacesInv(s)
    ensures Listed(s)
  {
  }

  /** Requests that carry no observation, late arrivals, and shutdown's own steps. */
  lemma GateKeeps(cfg: Config, existing: Store, s: State, t: State)
    requires Inv(cfg, existing, s) && GateInv(t) && CountsInv(t)
    requires t == s.(accepting := t.accepting, stopped := t.stopped, others := t.others, serving := t.serving,
      dropped := t.dropped, late := t.late)
    ensures Inv(cfg, existing, t)
  {
    StageFrame(s, t);
    forall k: nat | k < |t.admitted| ensures Accounted(t, k) {
      assert Accounted(s, k);
    }
  }

  // -------------------------------------------------------------------------- the worker

  lemma TakePlaces(cfg: Config, s: State)
    requires PlacesInv(s)
    ensures PlacesInv(Taken(cfg, s))
    ensures forall k | k in s.queue || k in s.batch :: k in Taken(cfg, s).queue || k in Taken(cfg, s).batch
  {
    var t := Taken(cfg, s);
    if t != s {
      assert t.batch + t.queue == s.batch + s.queue;
      assert t.batch[|s.batch|] == s.queue[0] && s.queue == [s.queue[0]] + t.queue;
      assert s.queue[0] !in s.lost && !InGate(s.handlers[s.queue[0]]);
      forall i | 0 <= i < |t.batch|
        ensures t.batch[i] < |s.admitted| && !InGate(t.handlers[t.batch[i]])
          && (!s.worker.Flushing? ==> t.batch[i] !in t.lost)
      {
        assert t.batch[i] == if i < |s.batch| then s.batch[i] else s.queue[0];
      }
    }
  }

  lemma TakeKeeps(cfg: Config, existing: Store, s: State)
    requires Inv(cfg, existing, s)
    ensures Inv(cfg, existing, Taken(cfg, s))
  {
    hide PlacesInv, Sound, Covers, RecordEach, WithinLimit, Count, RowsInv;
    TakePlaces(cfg, s);
    var t := Taken(cfg, s);
    if t != s {
      PlacesAreListed(s);
      PlacesAreListed(t);
      forall k: nat | k < |t.admitted| ensures Accounted(t, k) {
        assert Accounted(s, k);
      }
    }
  }

  /** The worker starts a flush, sees the stop signal, or finishes. */
  lemma WorkerKeeps(cfg: Config, existing: Store, s: State, worker: WorkerPc)
    requires Inv(cfg, existing, s) && !s.worker.Flushing? && GateInv(s.(worker := worker))
    requires worker.Flushing? ==> worker.stage == Checking(0, false, {})
    ensures Inv(cfg, existing, s.(worker := worker))
  {
    var t := s.(worker := worker);
    forall k: nat | k < |t.admitted| ensures Accounted(t, k) {
      assert Accounted(s, k);
    }
  }

  /** Only the flush stage moves. */
  lemma StageMoves(cfg: Config, existing: Store, s: State, stage: Stage)
    requires Inv(cfg, existing, s) && s.worker.Flushing? && !s.worker.stage.Settling?
    requires StageInv(WithStage(s, stage))
    ensures Inv(cfg, existing, WithStage(s, stage))
  {
    var t := WithStage(s, stage);
    forall k: nat | k < |t.admitted| ensures Accounted(t, k) {
      assert Accounted(s, k);
    }
  }

  lemma MemoryIsSound(cfg: Config, existing: Store, s: State)
    requires MemoryInv(cfg, existing, s)
    ensures Sound(s.memory, s.store)
  {
  }

  lemma DayCheckedKeeps(cfg: Config, existing: Store, s: State)
    requires Inv(cfg, existing, s)
    ensures Inv(cfg, existing, DayChecked(s))
  {
    hide CountsInv, MemoryInv, GateInv, Accounted, Covers, NeedsWrite, RowsInv;
    if DayChecked(s) != s {
      assert Sound(s.memory, s.store) by { MemoryIsSound(cfg, existing, s); }
      var day := s.admitted[s.batch[s.worker.stage.i]].day;
      if !NeedsWrite(s.memory, day) {
        NoWriteMeansCovered(s.memory, s.store, day);
      }
      StageMoves(cfg, existing, s, DayChecked(s).worker.stage);
    }
  }

  lemma MonthCheckedKeeps(cfg: Config, existing: Store, s: State)
    requires Inv(cfg, existing, s)
    ensures Inv(cfg, existing, MonthChecked(s))
  {
    hide CountsInv, MemoryInv, GateInv, Accounted, Covers, NeedsWrite, RowsInv;
    if MonthChecked(s) != s {
      assert Sound(s.memory, s.store) by { MemoryIsSound(cfg, existing, s); }
      var month := s.admitted[s.batch[s.worker.stage.i]].month;
      if !NeedsWrite(s.memory, month) {
        NoWriteMeansCovered(s.memory, s.store, month);
      }
      StageMoves(cfg, existing, s, MonthChecked(s).worker.stage);
    }
  }

  lemma EndChecksKeeps(cfg: Config, existing: Store, s: State)
    requires Inv(cfg, existing, s)
    ensures Inv(cfg, existing, ChecksEnded(s))
  {
    var t := ChecksEnded(s);
    if t != s {
      forall id: Identity | Mention(Buckets(s), id).Some? ensures id in t.worker.stage.todo {
        BucketIsMentioned(s, id);
      }
      assert Buckets(t) == Buckets(s);
      StageMoves(cfg, existing, s, t.worker.stage);
    }
  }

  lemma PickKeeps(cfg: Config, existing: Store, s: State, id: Identity)
    requires Inv(cfg, existing, s)
    ensures Inv(cfg, existing, Picked(s, id))
  {
    var t := Picked(s, id);
    if t != s {
      assert Buckets(t) == Buckets(s);
      var b := Bucket(id, Mention(Buckets(s), id).value);
      var rows := s.worker.stage.rows;
      if NeedsWrite(s.memory, b) {
        MentionGrows(rows, b);
      } else {
        NoWriteMeansCovered(s.memory, s.store, b);
      }
      assert RowsInv(t, t.worker.stage.todo, t.worker.stage.rows);
      StageMoves(cfg, existing, s, t.worker.stage);
    }
  }

  lemma MentionGrows(rows: seq<Bucket>, b: Bucket)
    ensures forall id: Identity | Mention(rows, id).Some? || id == b.id :: Mention(rows + [b], id).Some?
  {
    assert (rows + [b])[..|rows|] == rows;
  }

  lemma EndPicksKeeps(cfg: Config, existing: Store, s: State)
    requires Inv(cfg, existing, s)
    ensures Inv(cfg, existing, PicksEnded(s))
  {
    var t := PicksEnded(s);
    if t != s {
      assert Buckets(t) == Buckets(s);
      if s.worker.stage.rows == [] {
        forall j | 0 <= j < |s.batch| ensures CoversObservation(s.store, s.admitted[s.batch[j]]) {
          StagedIsMentioned(s, j);
          assert Mention([], s.admitted[s.batch[j]].day.id).None? && Mention([], s.admitted[s.batch[j]].month.id).None?;
        }
      }
      StageMoves(cfg, existing, s, t.worker.stage);
    }
  }

  /** A staged observation's buckets are among the batch's buckets. */
  lemma StagedIsMentioned(s: State, j: nat)
    requires Listed(s) && j < |s.batch|
    ensures var o := s.admitted[s.batch[j]]; var bs := Buckets(s);
      && Mention(bs, o.day.id).Some? && (o.day.owner ==> Mention(bs, o.day.id).value)
      && Mention(bs, o.month.id).Some? && (o.month.owner ==> Mention(bs, o.month.id).value)
      && 2 * j + 1 < |bs| && bs[2 * j] == o.day && bs[2 * j + 1] == o.month
  {
    ObservationsFacts(s.admitted, s.batch);
    BucketsOfAt(Observations(s.admitted, s.batch), j);
    MentionAt(Buckets(s), 2 * j);
    MentionAt(Buckets(s), 2 * j + 1);
  }

  lemma WriteOkCovers(s: State)
    requires PlacesInv(s) && StageInv(s) && s.worker.Flushing? && s.worker.stage.Writing?
    ensures WriteSucceeded(s) == WithStage(Written(s, Buckets(s), Buckets(s)), Remembering(s.worker.stage.rows))
    ensures StageInv(WriteSucceeded(s))
  {
    hide Covers, RiskInv, Mention, BucketsOf, Observations;
    var rows, bs := s.worker.stage.rows, Buckets(s);
    SelectionWritesEverything(s.store, bs, rows) by { assert RowsInv(s, {}, rows); }
    hide RecordEach;
    forall i | 0 <= i < |rows| ensures Covers(RecordEach(s.store, rows), rows[i]) {
      RecordedIsCovered(s.store, rows, i);
    }
    forall j | 0 <= j < |s.batch| ensures CoversObservation(RecordEach(s.store, rows), s.admitted[s.batch[j]]) {
      StagedIsMentioned(s, j);
      RecordedIsCovered(s.store, bs, 2 * j);
      RecordedIsCovered(s.store, bs, 2 * j + 1);
    }
  }

  lemma WriteOkKeeps(cfg: Config, existing: Store, s: State)
    requires Inv(cfg, existing, s)
    ensures Inv(cfg, existing, WriteSucceeded(s))
  {
    hide StageInv, MemoryInv, CountsInv, GateInv, Accounted, Covers, RecordEach, BucketsOf, Observations;
    if s.worker.Flushing? && s.worker.stage.Writing? {
      WriteOkCovers(s);
      StoreGrows(cfg, existing, s, Buckets(s));
      StageMoves(cfg, existing, Written(s, Buckets(s), Buckets(s)), Remembering(s.worker.stage.rows));
    }
  }

  lemma RiskIsStaged(s: State)
    requires PlacesInv(s) && StageInv(s) && s.worker.Flushing? && s.worker.stage.Writing?
    ensures forall h <- s.worker.stage.risk ::
      h !in s.queue && h !in s.lost && h < |s.handlers| && !InGate(s.handlers[h])
  {
    hide Covers, RowsInv, NoDuplicates, InGate;
    assert RiskInv(s, s.worker.stage.risk, |s.batch|);
    forall i | 0 <= i < |s.queue| ensures s.queue[i] !in s.batch {
      QueuedIsNotStaged(s, i);
    }
  }

  lemma WriteFailsPlaces(s: State, written: seq<Bucket>)
    requires PlacesInv(s) && StageInv(s) && s.worker.Flushing? && s.worker.stage.Writing?
    ensures PlacesInv(WriteFailed(s, written)) && |s.lost + s.worker.stage.risk| == |s.lost| + |s.worker.stage.risk|
  {
    RiskIsStaged(s);
    hide StageInv, RecordEach, NoDuplicates, InGate;
    var t, risk := WriteFailed(s, written), s.worker.stage.risk;
    assert risk !! s.lost;
    if t == s {
    } else {
      forall i | 0 <= i < |t.queue| ensures !InGate(t.handlers[t.queue[i]]) && t.queue[i] !in t.lost {
        assert s.queue[i] in s.queue;
      }
      forall h | h in t.lost ensures h < |t.handlers| && !InGate(t.handlers[h]) {
        assert h in s.lost || h in risk;
      }
    }
  }

  lemma WriteFailsStage(s: State, written: seq<Bucket>)
    requires PlacesInv(s) && StageInv(s) && s.worker.Flushing? && s.worker.stage.Writing?
    requires Listed(WriteFailed(s, written)) && StageInv(Written(s, written, written))
    ensures StageInv(WriteFailed(s, written))
  {
    hide Covers, RecordEach, RowsInv, NoDuplicates, InGate;
    if WriteFailed(s, written) == s {
    } else {
      assert RiskInv(Written(s, written, written), s.worker.stage.risk, |s.batch|);
    }
  }

  lemma WriteFailsAccounts(s: State, written: seq<Bucket>, k: nat)
    requires Listed(s) && Listed(WriteFailed(s, written)) && k < |s.admitted|
    requires Accounted(Written(s, written, written), k) && Accounted(s, k)
    ensures Accounted(WriteFailed(s, written), k)
  {
    hide Covers, RecordEach;
  }

  lemma WriteFailsCounts(s: State, written: seq<Bucket>)
    requires CountsInv(s) && GateInv(s) && s.worker.Flushing? && s.worker.stage.Writing?
    requires |s.lost + s.worker.stage.risk| == |s.lost| + |s.worker.stage.risk|
    ensures CountsInv(WriteFailed(s, written)) && GateInv(WriteFailed(s, written))
  {
    hide RecordEach, Count;
  }

  lemma WriteFailsKeeps(cfg: Config, existing: Store, s: State, written: seq<Bucket>)
    requires Inv(cfg, existing, s)
    ensures Inv(cfg, existing, WriteFailed(s, written))
  {
    var t, mid := WriteFailed(s, written), Written(s, written, written);
    if t == s {
    } else {
      StoreGrows(cfg, existing, s, written);
      WriteFailsPlaces(s, written);
      WriteFailsCounts(s, written);
      assert MemoryInv(cfg, existing, t) by {
        hide Sound, Covers, RecordEach, WithinLimit, PlacesInv, StageInv, CountsInv, GateInv, Accounted;
        assert MemoryInv(cfg, existing, mid);
      }
      hide PlacesInv, StageInv, CountsInv, GateInv, MemoryInv, Accounted, WriteFailed, Written;
      PlacesAreListed(s);
      PlacesAreListed(t);
      WriteFailsStage(s, written);
      forall k: nat | k < |t.admitted| ensures Accounted(t, k) {
        WriteFailsAdmits(s, written);
        assert Accounted(mid, k) && Accounted(s, k);
        WriteFailsAccounts(s, written, k);
      }
    }
  }

  lemma WriteFailsAdmits(s: State, written: seq<Bucket>)
    ensures WriteFailed(s, written).admitted == s.admitted == Written(s, written, written).admitted
  {
  }

  lemma QueuedIsNotStaged(s: State, i: nat)
    requires PlacesInv(s) && i < |s.queue|
    ensures s.queue[i] !in s.batch
  {
    var all := s.batch + s.queue;
    forall j | 0 <= j < |s.batch| ensures s.batch[j] != s.queue[i] {
      assert all[j] == s.batch[j] && all[|s.batch| + i] == s.queue[i];
    }
  }

  lemma RememberKeeps(cfg: Config, existing: Store, s: State)
    requires Inv(cfg, existing, s)
    ensures Inv(cfg, existing, RowsRemembered(cfg, s))
  {
    var t := RowsRemembered(cfg, s);
    if t != s {
      RememberedAllIsSound(s.memory, s.store, s.worker.stage.rows, cfg.seenLimit);
      StageMoves(cfg, existing, s, Settling);
      MarksFrame(cfg, existing, WithStage(s, Settling), t);
    }
  }

  lemma SettlePlaces(s: State)
    requires PlacesInv(s)
    ensures PlacesInv(Settled(s))
  {
    var t := Settled(s);
    if t != s {
      assert t.batch + t.queue == (s.batch + s.queue)[|s.batch|..];
    }
  }

  lemma SettleKeeps(cfg: Config, existing: Store, s: State)
    requires Inv(cfg, existing, s)
    ensures Inv(cfg, existing, Settled(s))
  {
    hide PlacesInv, Sound, Covers, RecordEach, WithinLimit, Count, RowsInv, RiskInv;
    SettlePlaces(s);
    var t := Settled(s);
    if t != s {
      PlacesAreListed(s);
      PlacesAreListed(t);
      forall k: nat | k < |t.admitted| ensures Accounted(t, k) {
        assert Accounted(s, k);
      }
    }
  }

  lemma MarkedKeeps(cfg: Config, existing: Store, s: State, day: Identity, month: Identity)
    requires Inv(cfg, existing, s)
    ensures Inv(cfg, existing, Marked(s, day, month))
  {
    var rows := [Bucket(day, true), Bucket(month, true)];
    var mid := Written(s, rows, rows);
    StoreGrows(cfg, existing, s, rows);
    RecordedIsCovered(s.store, rows, 0);
    RecordedIsCovered(s.store, rows, 1);
    MarksFrame(cfg, existing, mid, mid.(marks := s.marks + [rows]));
  }

  lemma MarkRememberedKeeps(cfg: Config, existing: Store, s: State, k: nat)
    requires Inv(cfg, existing, s)
    ensures Inv(cfg, existing, MarkRemembered(cfg, s, k))
  {
    if k < |s.marks| {
      RememberedAllIsSound(s.memory, s.store, s.marks[k], cfg.seenLimit);
      MarksFrame(cfg, existing, s, MarkRemembered(cfg, s, k));
    }
  }

  lemma MarksFrame(cfg: Config, existing: Store, s: State, t: State)
    requires Inv(cfg, existing, s) && t == s.(memory := t.memory, marks := t.marks) && MemoryInv(cfg, existing, t)
    ensures Inv(cfg, existing, t)
  {
    StageFrame(s, t);
    forall k: nat | k < |t.admitted| ensures Accounted(t, k) {
      assert Accounted(s, k);
    }
  }

  lemma GateStepKeeps(cfg: Config, existing: Store, s: State, meaningful: bool)
    requires Inv(cfg, existing, s)
    ensures Inv(cfg, existing, EnteredLate(s, meaningful)) && Inv(cfg, existing, EnteredUncounted(s))
    ensures Inv(cfg, existing, LeftUncounted(s)) && Inv(cfg, existing, GateClosed(s))
      && Inv(cfg, existing, StopSignaled(s))
  {
    hide StageInv, MemoryInv, PlacesInv, Accounted;
    GateKeeps(cfg, existing, s, EnteredLate(s, meaningful));
    GateKeeps(cfg, existing, s, EnteredUncounted(s));
    GateKeeps(cfg, existing, s, LeftUncounted(s));
    GateKeeps(cfg, existing, s, GateClosed(s));
    GateKeeps(cfg, existing, s, StopSignaled(s));
  }

  lemma WorkerStepKeeps(cfg: Config, existing: Store, s: State)
    requires Inv(cfg, existing, s)
    ensures Inv(cfg, existing, Ticked(s)) && Inv(cfg, existing, StopSeen(s)) && Inv(cfg, existing, Drained(s))
  {
    hide StageInv, MemoryInv, PlacesInv, CountsInv, Accounted;
    if Ticked(s) != s {
      WorkerKeeps(cfg, existing, s, Ticked(s).worker);
    }
    if StopSeen(s) != s {
      WorkerKeeps(cfg, existing, s, Draining);
    }
    if Drained(s) != s {
      WorkerKeeps(cfg, existing, s, Drained(s).worker);
    }
  }

  lemma MarkFailedKeeps(cfg: Config, existing: Store, s: State, day: Identity, month: Identity, written: seq<Bucket>)
    requires Inv(cfg, existing, s)
    ensures Inv(cfg, existing, MarkFailed(s, day, month, written))
  {
    hide Inv;
    StoreGrows(cfg, existing, s, written);
  }

  lemma StepKeeps(cfg: Config, existing: Store, s: State, step: Step)
    requires Inv(cfg, existing, s)
    ensures Inv(cfg, existing, Apply(cfg, s, step))
  {
    hide PlacesInv, CountsInv, GateInv, StageInv, MemoryInv, Accounted;
    hide EnteredLate, EnteredUncounted, LeftUncounted, Entered, CountedPending, Sent, CountedDrop, Left, GateClosed,
      StopSignaled;
    hide Taken, Ticked, StopSeen, Drained, DayChecked, MonthChecked, ChecksEnded, Picked, PicksEnded;
    hide WriteSucceeded, WriteFailed, RowsRemembered, Settled, Marked, MarkFailed, MarkRemembered;
    match step
    case EnterLate(meaningful) => GateStepKeeps(cfg, existing, s, meaningful);
    case EnterUncounted => GateStepKeeps(cfg, existing, s, false);
    case LeaveUncounted => GateStepKeeps(cfg, existing, s, false);
    case Enter(o) => EnterKeeps(cfg, existing, s, o);
    case CountPending(h) => CountedPendingKeeps(cfg, existing, s, h);
    case TrySend(h) => SentKeeps(cfg, existing, s, h);
    case CountDrop(h) => CountedDropKeeps(cfg, existing, s, h);
    case Leave(h) => LeftKeeps(cfg, existing, s, h);
    case CloseGate => GateStepKeeps(cfg, existing, s, false);
    case SignalStop => GateStepKeeps(cfg, existing, s, false);
    case Take => TakeKeeps(cfg, existing, s);
    case Tick => WorkerStepKeeps(cfg, existing, s);
    case SeeStop => WorkerStepKeeps(cfg, existing, s);
    case DrainIsEmpty => WorkerStepKeeps(cfg, existing, s);
    case CheckDay => DayCheckedKeeps(cfg, existing, s);
    case CheckMonth => MonthCheckedKeeps(cfg, existing, s);
    case EndChecks => EndChecksKeeps(cfg, existing, s);
    case Pick(id) => PickKeeps(cfg, existing, s, id);
    case EndPicks => EndPicksKeeps(cfg, existing, s);
    case WriteOk => WriteOkKeeps(cfg, existing, s);
    case WriteFails(written) => WriteFailsKeeps(cfg, existing, s, written);
    case RememberRows => RememberKeeps(cfg, existing, s);
    case Settle => SettleKeeps(cfg, existing, s);
    case MarkOk(day, month) => MarkedKeeps(cfg, existing, s, day, month);
    case MarkFails(day, month, written) => MarkFailedKeeps(cfg, existing, s, day, month, written);
    case MarkRemember(k) => MarkRememberedKeeps(cfg, existing, s, k);
  }

  lemma NothingRecorded(store: Store)
    ensures RecordEach(store, []) == store
  {
  }

  lemma NothingRemembered(store: Store, limit: nat)
    ensures var m := Memory(Seen(0, map[]), Seen(0, map[])); Sound(m, store) && WithinLimit(m, limit)
  {
  }

  lemma StartHolds(cfg: Config, existing: Store)
    ensures Inv(cfg, existing, Init(existing))
  {
    hide Sound, RecordEach, WithinLimit, Covers, RowsInv, RiskInv;
    NothingRecorded(existing);
    NothingRemembered(existing, cfg.seenLimit);
  }

  lemma {:induction false} RunKeeps(cfg: Config, existing: Store, run: seq<State>, i: nat)
    requires IsRun(cfg, existing, run) && i < |run|
    ensures Inv(cfg, existing, run[i])
  {
    if i == 0 {
      StartHolds(cfg, existing);
    } else {
      hide Apply, Inv;
      RunKeeps(cfg, existing, run, i - 1);
      assert Follows(cfg, run[i - 1], run[i]);
      var step :| run[i] == Apply(cfg, run[i - 1], step);
      StepKeeps(cfg, existing, run[i - 1], step);
    }
  }

  // -------------------------------------------------------------------------------- theorems

  /** An observation the tracker is still answerable for: `pending` includes it. */
  predicate IsPending(s: State, h: nat)
    requires Listed(s) && h < |s.admitted|
  {
    s.handlers[h].Sending? || h in s.queue || h in s.batch
  }

  /**
    At every point of every run, every admitted observation whose handler has left the gate is pending, covered by the
    store, or counted as dropped; and the two counters are exactly those populations.
  */
  lemma EveryObservationIsAccountedFor(cfg: Config, existing: Store, run: seq<State>, i: nat, h: nat)
    requires IsRun(cfg, existing, run) && i < |run| && h < |run[i].admitted|
    ensures var s := run[i];
      && Listed(s)
      && (!InGate(s.handlers[h]) ==> IsPending(s, h) || h in s.lost || CoversObservation(s.store, s.admitted[h]))
      && s.pending == |s.batch| + |s.queue| + Count(s.handlers, true)
      && s.dropped == |s.lost| + s.late
  {
    RunKeeps(cfg, existing, run, i);
    assert Accounted(run[i], h);
  }

  lemma ClosedGateStep(cfg: Config, s: State, step: Step)
    requires Listed(s) && !s.accepting && forall pc <- s.handlers :: !InGate(pc)
    ensures var t := Apply(cfg, s, step);
      && !t.accepting && t.admitted == s.admitted
      && (t.queue == s.queue || (s.queue != [] && t.queue == s.queue[1..]))
  {
    hide Buckets, RecordEach, RememberedAll, Mention, NeedsWrite;
    if step.TrySend? && step.h < |s.handlers| {
      assert s.handlers[step.h] in s.handlers;
    }
  }

  /** Once the gate is closed nothing is admitted and nothing is enqueued: the queue only loses its head. */
  lemma NothingEntersAClosedGate(cfg: Config, existing: Store, run: seq<State>, i: nat)
    requires IsRun(cfg, existing, run) && i + 1 < |run| && !run[i].accepting
    ensures var s, t := run[i], run[i + 1];
      && !t.accepting && t.admitted == s.admitted
      && (t.queue == s.queue || (s.queue != [] && t.queue == s.queue[1..]))
  {
    hide Apply, StageInv, MemoryInv, CountsInv, Accounted;
    RunKeeps(cfg, existing, run, i);
    assert Follows(cfg, run[i], run[i + 1]);
    var step :| run[i + 1] == Apply(cfg, run[i], step);
    ClosedGateStep(cfg, run[i], step);
  }

  /**
    When `done` is closed nothing is queued, staged or pending, and every admitted observation is stored or was counted
    as dropped.
  */
  lemma ShutdownLosesNothingSilently(cfg: Config, existing: Store, run: seq<State>, i: nat)
    requires IsRun(cfg, existing, run) && i < |run| && run[i].worker.Done?
    ensures var s := run[i];
      && s.queue == [] && s.batch == [] && s.pending == 0
      && forall h: nat | h < |s.admitted| :: h in s.lost || CoversObservation(s.store, s.admitted[h])
  {
    RunKeeps(cfg, existing, run, i);
    var s := run[i];
    NobodyServing(s.handlers);
    NobodySending(s.handlers);
    forall h: nat | h < |s.admitted| ensures h in s.lost || CoversObservation(s.store, s.admitted[h]) {
      assert Accounted(s, h);
    }
  }

  /**
    At every point of every run what is remembered is stored with at least the remembered owner bit, within the size
    cap.
  */
  lemma RememberedIsStored(cfg: Config, existing: Store, run: seq<State>, i: nat)
    requires IsRun(cfg, existing, run) && i < |run|
    ensures Sound(run[i].memory, run[i].store) && WithinLimit(run[i].memory, cfg.seenLimit)
  {
    RunKeeps(cfg, existing, run, i);
  }
}
