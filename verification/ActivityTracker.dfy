/** The tracker's persistence path, as it changes its counters, its seen memory and the store in place. */
module ActivityTracker {
  import opened Wrappers
  import opened ActivityStore

  predicate AtRisk(m: Memory, o: Observation) {
    NeedsWrite(m, o.day) || NeedsWrite(m, o.month)
  }

  /** How many observations a failed write would lose. */
  function RiskCount(m: Memory, batch: seq<Observation>): nat {
    if batch == [] then 0
    else RiskCount(m, batch[..|batch| - 1]) + (if AtRisk(m, batch[|batch| - 1]) then 1 else 0)
  }

  /** A list of rows is a write selection: coalesced buckets, exactly the ones that need a write. */
  ghost predicate Selects(rows: seq<Bucket>, m: Memory, unique: map<Identity, bool>) {
    && (forall i | 0 <= i < |rows| ::
      rows[i].id in unique && rows[i].owner == unique[rows[i].id] && NeedsWrite(m, rows[i]))
    && (forall id <- unique :: NeedsWrite(m, Bucket(id, unique[id])) ==> Mention(rows, id).Some?)
  }

  /** The rows a failing store call wrote all the same: those of the identities it got to. */
  function Surviving(rows: seq<Bucket>, survivors: set<Identity>): seq<Bucket> {
    if rows == [] then []
    else
      var b := rows[|rows| - 1];
      Surviving(rows[..|rows| - 1], survivors) + if b.id in survivors then [b] else []
  }

  lemma {:induction false} SurvivingMention(rows: seq<Bucket>, survivors: set<Identity>, id: Identity)
    ensures Mention(Surviving(rows, survivors), id) == if id in survivors then Mention(rows, id) else None
  {
    if rows == [] {
    } else {
      SurvivingMention(rows[..|rows| - 1], survivors, id);
      MentionAppend(Surviving(rows[..|rows| - 1], survivors), rows[|rows| - 1], id);
      assert Surviving(rows[..|rows| - 1], survivors) + [] == Surviving(rows[..|rows| - 1], survivors);
    }
  }

  /** The batch says something of the identity that the memory does not let pass as known. */
  predicate Sent(m: Memory, batch: seq<Observation>, id: Identity) {
    Mention(BucketsOf(batch), id).Some? && NeedsWrite(m, Bucket(id, Mention(BucketsOf(batch), id).value))
  }

  /** A selection says of an identity what the batch says, if it is sent at all. */
  lemma SelectionMentions(m: Memory, batch: seq<Observation>, unique: map<Identity, bool>, rows: seq<Bucket>,
      id: Identity)
    requires forall id: Identity :: Held(unique, id) == Mention(BucketsOf(batch), id)
    requires Selects(rows, m, unique)
    ensures Mention(rows, id) == if Sent(m, batch, id) then Mention(BucketsOf(batch), id) else None
  {
    assert Held(unique, id) == Mention(BucketsOf(batch), id);
    if Mention(rows, id).Some? {
      var i := MentionFinds(rows, id);
      MentionAt(rows, i);
    }
  }

  /** What a failing write leaves: each sent bucket is merged in full or not at all. */
  lemma FailedWriteAt(store: Store, m: Memory, batch: seq<Observation>, unique: map<Identity, bool>, rows: seq<Bucket>,
                      survivors: set<Identity>, id: Identity)
    requires forall id: Identity :: Held(unique, id) == Mention(BucketsOf(batch), id)
    requires Selects(rows, m, unique)
    ensures Held(RecordEach(store, Surviving(rows, survivors)), id)
         == if id in survivors && Sent(m, batch, id) then Merge(Held(store, id), Mention(BucketsOf(batch), id))
            else Held(store, id)
  {
    RecordEachAt(store, Surviving(rows, survivors), id);
    SurvivingMention(rows, survivors, id);
    SelectionMentions(m, batch, unique, rows, id);
  }

  /** A failing write merges each sent bucket of a surviving identity in full, and nothing else. */
  ghost predicate LeftByFailure(before: Store, after: Store, m: Memory, batch: seq<Observation>,
      survivors: set<Identity>) {
    forall id: Identity ::
      Held(after, id) == if id in survivors && Sent(m, batch, id)
        then Merge(Held(before, id), Mention(BucketsOf(batch), id))
                         else Held(before, id)
  }

  method Coalesce(batch: seq<Observation>) returns (unique: map<Identity, bool>)
    ensures forall id: Identity :: Held(unique, id) == Mention(BucketsOf(batch), id)
  {
    unique := map[];
    var i := 0;
    while i < |batch|
      invariant 0 <= i <= |batch|
      invariant forall id: Identity :: Held(unique, id) == Mention(BucketsOf(batch[..i]), id)
    {
      assert batch[..i + 1][..i] == batch[..i];
      ghost var done := BucketsOf(batch[..i]);
      var before := unique;
      var day, month := batch[i].day, batch[i].month;
      unique := unique[day.id := day.owner || (day.id in unique && unique[day.id])];
      forall id: Identity ensures Held(unique, id) == Mention(done + [day], id) {
        assert Held(before, id) == Mention(done, id);
        assert (done + [day])[..|done|] == done;
      }
      var middle := unique;
      unique := unique[month.id := month.owner || (month.id in unique && unique[month.id])];
      forall id: Identity ensures Held(unique, id) == Mention(done + [day, month], id) {
        assert Held(middle, id) == Mention(done + [day], id);
        assert (done + [day, month])[..|done| + 1] == done + [day];
      }
      i := i + 1;
    }
    assert batch[..i] == batch;
  }

  lemma MentionAppend(rows: seq<Bucket>, b: Bucket, id: Identity)
    ensures Mention(rows + [b], id) == if b.id == id
      then Some(b.owner || (Mention(rows, id).Some? && Mention(rows, id).value)) else Mention(rows, id)
  {
    assert (rows + [b])[..|rows|] == rows;
  }

  /** What the memory lets through, coalesced or not, is the same question. */
  lemma RiskIsSelection(m: Memory, batch: seq<Observation>, unique: map<Identity, bool>, rows: seq<Bucket>)
    requires forall id: Identity :: Held(unique, id) == Mention(BucketsOf(batch), id)
    requires Selects(rows, m, unique)
    ensures rows == [] <==> RiskCount(m, batch) == 0
  {
    if RiskCount(m, batch) > 0 {
      var i := SomeAtRisk(m, batch);
      BucketsOfAt(batch, i);
      var b := if NeedsWrite(m, batch[i].day) then batch[i].day else batch[i].month;
      var j := if NeedsWrite(m, batch[i].day) then 2 * i else 2 * i + 1;
      MentionAt(BucketsOf(batch), j);
      assert Held(unique, b.id) == Mention(BucketsOf(batch), b.id);
      assert NeedsWrite(m, Bucket(b.id, unique[b.id]));
      var k := MentionFinds(rows, b.id);
    }
    if rows != [] {
      assert Held(unique, rows[0].id) == Mention(BucketsOf(batch), rows[0].id);
      var j := MentionFinds(BucketsOf(batch), rows[0].id);
      BucketsOfLength(batch);
      BucketsOfAt(batch, j / 2);
      assert BucketsOf(batch)[j] == batch[j / 2].day || BucketsOf(batch)[j] == batch[j / 2].month;
      MentionAt(BucketsOf(batch), j);
      assert BucketsOf(batch)[j] == rows[0];
      NoneAtRisk(m, batch, j / 2);
    }
  }

  lemma {:induction false} SomeAtRisk(m: Memory, batch: seq<Observation>) returns (i: nat)
    requires RiskCount(m, batch) > 0
    ensures i < |batch| && AtRisk(m, batch[i])
  {
    if AtRisk(m, batch[|batch| - 1]) {
      i := |batch| - 1;
    } else {
      i := SomeAtRisk(m, batch[..|batch| - 1]);
    }
  }

  lemma {:induction false} NoneAtRisk(m: Memory, batch: seq<Observation>, i: nat)
    requires i < |batch| && AtRisk(m, batch[i])
    ensures RiskCount(m, batch) > 0
  {
    if i < |batch| - 1 {
      NoneAtRisk(m, batch[..|batch| - 1], i);
    }
  }

  class Tracker {
    var seenDay: Seen
    var seenMonth: Seen
    var dropped: nat
    var storeFailures: nat
    var flushes: nat
    var pending: int
    var store: Store  // the table behind the store interface
    const seenLimit: nat

    function Mem(): Memory
      reads this
    {
      Memory(seenDay, seenMonth)
    }

    ghost predicate Valid()
      reads this
    {
      Sound(Mem(), store) && WithinLimit(Mem(), seenLimit)
    }

    constructor (limit: nat, existing: Store)
      ensures Valid() && store == existing && seenLimit == limit
      ensures pending == 0 && dropped == 0 && storeFailures == 0 && flushes == 0
    {
      seenDay, seenMonth := Seen(0, map[]), Seen(0, map[]);
      dropped, storeFailures, flushes, pending, store, seenLimit := 0, 0, 0, 0, existing, limit;
    }

    method MustWrite(b: Bucket) returns (r: bool)
      ensures r == NeedsWrite(Mem(), b)
    {
      var state := if b.id.kind == Day then seenDay else seenMonth;
      if state.epoch == 0 || b.id.epoch > state.epoch {
        return true;
      }
      if b.id.epoch < state.epoch {
        return true;
      }
      if b.id.value !in state.owners {
        return true;
      }
      return b.owner && !state.owners[b.id.value];
    }

    method Remember(rows: seq<Bucket>)
      modifies `seenDay, `seenMonth
      ensures Mem() == RememberedAll(old(Mem()), rows, seenLimit)
    {
      var i := 0;
      while i < |rows|
        invariant 0 <= i <= |rows|
        invariant Mem() == RememberedAll(old(Mem()), rows[..i], seenLimit)
      {
        assert rows[..i + 1][..i] == rows[..i];
        var b := rows[i];
        var state := if b.id.kind == Day then seenDay else seenMonth;
        if b.id.epoch >= state.epoch {
          if b.id.epoch > state.epoch {
            state := Seen(b.id.epoch, map[]);
          }
          if b.id.value in state.owners {
            state := state.(owners := state.owners[b.id.value := state.owners[b.id.value] || b.owner]);
          } else if |state.owners| < seenLimit {
            state := state.(owners := state.owners[b.id.value := b.owner]);
          }
          if b.id.kind == Day {
            seenDay := state;
          } else {
            seenMonth := state;
          }
        }
        i := i + 1;
      }
      assert rows[..i] == rows;
    }

    /** The rows the memory lets through, in whatever order the coalescing map is walked. */
    method SelectRows(unique: map<Identity, bool>) returns (rows: seq<Bucket>)
      ensures Selects(rows, Mem(), unique)
    {
      rows := [];
      var todo := unique.Keys;
      while todo != {}
        invariant todo <= unique.Keys
        invariant forall i | 0 <= i < |rows| ::
          rows[i].id in unique && rows[i].owner == unique[rows[i].id] && NeedsWrite(Mem(), rows[i])
        invariant forall id <- unique ::
          id in todo || (NeedsWrite(Mem(), Bucket(id, unique[id])) ==> Mention(rows, id).Some?)
        decreases |todo|
      {
        var id :| id in todo;
        var b := Bucket(id, unique[id]);
        var needed := MustWrite(b);
        if needed {
          forall other: Identity ensures Mention(rows, other).Some? || other == id ==>
            Mention(rows + [b], other).Some? {
            MentionAppend(rows, b, other);
          }
          rows := rows + [b];
        }
        todo := todo - {id};
      }
    }

    method CountAtRisk(batch: seq<Observation>) returns (atRisk: nat)
      ensures atRisk == RiskCount(Mem(), batch)
    {
      atRisk := 0;
      var i := 0;
      while i < |batch|
        invariant 0 <= i <= |batch|
        invariant atRisk == RiskCount(Mem(), batch[..i])
      {
        assert batch[..i + 1][..i] == batch[..i];
        var d := MustWrite(batch[i].day);
        var m := MustWrite(batch[i].month);
        if d || m {
          atRisk := atRisk + 1;
        }
        i := i + 1;
      }
      assert batch[..i] == batch;
    }

    /**
      A flush whose write succeeds leaves the store exactly as if every observation had been written on its own; one
      whose write fails may have written any of the rows it sent and counts every observation it may have lost.
    */
    method FlushBatch(batch: seq<Observation>, storeOk: bool, survivors: set<Identity>)
      requires Valid()
      modifies this
      ensures Valid()
      ensures pending == old(pending) - |batch|
      ensures storeOk ==> store == RecordEach(old(store), BucketsOf(batch))
      ensures !storeOk ==> LeftByFailure(old(store), store, old(Mem()), batch, survivors)
      ensures dropped == old(dropped) + (if storeOk then 0 else RiskCount(old(Mem()), batch))
      ensures forall i | 0 <= i < |batch| ::
        CoversObservation(store, batch[i]) || (!storeOk && AtRisk(old(Mem()), batch[i]))
      ensures flushes == old(flushes) + (if storeOk && RiskCount(old(Mem()), batch) > 0 then 1 else 0)
      ensures storeFailures == old(storeFailures) + (if !storeOk && RiskCount(old(Mem()), batch) > 0 then 1 else 0)
    {
      FlushCovers(Mem(), store, batch);
      var rows, atRisk := Prepare(batch, survivors);
      hide RecordEach, BucketsOf, Sound, Covers, LeftByFailure, RiskCount, NeedsWrite;
      pending := pending - |batch|;
      if rows == [] {
        NothingSent(store, survivors);
        return;
      }
      if !storeOk {
        storeFailures := storeFailures + 1;
        dropped := dropped + atRisk;
        PersistSome(rows, survivors);
        return;
      }
      Persist(rows);
      flushes := flushes + 1;
    }

    /** The rows to send, what sending them means for the store, and how many observations hang on it. */
    method Prepare(batch: seq<Observation>, ghost survivors: set<Identity>) returns (rows: seq<Bucket>, atRisk: nat)
      requires Valid()
      ensures atRisk == RiskCount(Mem(), batch) && (rows == [] <==> atRisk == 0)
      ensures RecordEach(store, rows) == RecordEach(store, BucketsOf(batch))
      ensures LeftByFailure(store, RecordEach(store, Surviving(rows, survivors)), Mem(), batch, survivors)
    {
      atRisk := CountAtRisk(batch);
      var unique := Coalesce(batch);
      rows := SelectRows(unique);
      SelectionIsFaithful(Mem(), store, BucketsOf(batch), unique, rows);
      RiskIsSelection(Mem(), batch, unique, rows);
      forall id: Identity
        ensures Held(RecordEach(store, Surviving(rows, survivors)), id)
             == if id in survivors && Sent(Mem(), batch, id) then Merge(Held(store, id), Mention(BucketsOf(batch), id))
                else Held(store, id)
      {
        FailedWriteAt(store, Mem(), batch, unique, rows, survivors, id);
      }
    }

    /** A failing write: some rows reach the store, none the memory. */
    method PersistSome(rows: seq<Bucket>, survivors: set<Identity>)
      requires Valid()
      modifies `store
      ensures Valid() && store == RecordEach(old(store), Surviving(rows, survivors))
      ensures forall o: Observation | CoversObservation(old(store), o) :: CoversObservation(store, o)
    {
      SoundLasts(Mem(), store, Surviving(rows, survivors));
      forall o: Observation | CoversObservation(store, o)
        ensures CoversObservation(RecordEach(store, Surviving(rows, survivors)), o)
      {
        CoverageLasts(store, Surviving(rows, survivors), o.day);
        CoverageLasts(store, Surviving(rows, survivors), o.month);
      }
      store := RecordEach(store, Surviving(rows, survivors));
    }

    /** A successful write: the rows reach the store first and the memory second. */
    method Persist(rows: seq<Bucket>)
      requires Valid()
      modifies `store, `seenDay, `seenMonth
      ensures Valid() && store == RecordEach(old(store), rows)
      ensures Mem() == RememberedAll(old(Mem()), rows, seenLimit)
    {
      SoundLasts(Mem(), store, rows);
      forall i | 0 <= i < |rows| ensures Covers(RecordEach(store, rows), rows[i]) {
        RecordedIsCovered(store, rows, i);
      }
      RememberedAllIsSound(Mem(), RecordEach(store, rows), rows, seenLimit);
      store := RecordEach(store, rows);
      Remember(rows);
    }

    /** An authenticated owner's buckets are written at once; a later observation without the bit cannot undo them. */
    method MarkOwner(day: Identity, month: Identity, storeOk: bool, survivors: set<Identity>) returns (ok: bool)
      requires Valid()
      modifies this
      ensures Valid() && ok == storeOk && pending == old(pending) && dropped == old(dropped)
      ensures var rows := [Bucket(day, true), Bucket(month, true)];
        store == RecordEach(old(store), if storeOk then rows else Surviving(rows, survivors))
      ensures storeOk ==> day in store && store[day] && month in store && store[month]
      ensures !storeOk ==> Mem() == old(Mem())
      ensures storeFailures == old(storeFailures) + (if storeOk then 0 else 1)
    {
      var rows := [Bucket(day, true), Bucket(month, true)];
      if !storeOk {
        storeFailures := storeFailures + 1;
        PersistSome(rows, survivors);
        return false;
      }
      RecordedIsCovered(store, rows, 0);
      RecordedIsCovered(store, rows, 1);
      Persist(rows);
      return true;
    }
  }

  lemma NothingSent(store: Store, survivors: set<Identity>)
    ensures Surviving([], survivors) == [] && RecordEach(store, []) == store
  {
  }

  lemma SelectionIsFaithful(m: Memory, store: Store, buckets: seq<Bucket>, unique: map<Identity, bool>,
      rows: seq<Bucket>)
    requires Sound(m, store) && Selects(rows, m, unique)
    requires forall id: Identity :: Held(unique, id) == Mention(buckets, id)
    ensures RecordEach(store, rows) == RecordEach(store, buckets)
  {
    forall i | 0 <= i < |rows| ensures Mention(buckets, rows[i].id) == Some(rows[i].owner) {
      assert Held(unique, rows[i].id) == Mention(buckets, rows[i].id);
    }
    forall id: Identity | Mention(buckets, id).Some?
      ensures Mention(rows, id).Some? || Covers(store, Bucket(id, Mention(buckets, id).value))
    {
      assert Held(unique, id) == Mention(buckets, id);
      if !NeedsWrite(m, Bucket(id, unique[id])) {
        NoWriteMeansCovered(m, store, Bucket(id, unique[id]));
      }
    }
    SelectionWritesEverything(store, buckets, rows);
  }

  lemma FlushCovers(m: Memory, store: Store, batch: seq<Observation>)
    requires Sound(m, store)
    ensures forall i | 0 <= i < |batch| :: CoversObservation(store, batch[i]) || AtRisk(m, batch[i])
    ensures forall i | 0 <= i < |batch| :: CoversObservation(RecordEach(store, BucketsOf(batch)), batch[i])
  {
    forall i | 0 <= i < |batch| ensures CoversObservation(store, batch[i]) || AtRisk(m, batch[i]) {
      if !AtRisk(m, batch[i]) {
        NoWriteMeansCovered(m, store, batch[i].day);
        NoWriteMeansCovered(m, store, batch[i].month);
      }
    }
    forall i | 0 <= i < |batch| ensures CoversObservation(RecordEach(store, BucketsOf(batch)), batch[i]) {
      BucketsOfAt(batch, i);
      RecordedIsCovered(store, BucketsOf(batch), 2 * i);
      RecordedIsCovered(store, BucketsOf(batch), 2 * i + 1);
    }
  }
}
