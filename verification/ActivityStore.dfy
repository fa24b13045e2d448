/** Activity buckets, the store they are upserted into, and the bounded memory of what the store already holds. */
module ActivityStore {
  import opened Wrappers

  datatype Kind = Day | Month

  // Epoch labels are fixed-width dates, so only their order matters; zero is the empty label.
  datatype Identity = Identity(kind: Kind, epoch: nat, value: nat)

  datatype Bucket = Bucket(id: Identity, owner: bool)

  /** One request seen from one network: its day bucket and its month bucket. */
  datatype Observation = Observation(day: Bucket, month: Bucket)

  // ----------------------------------------------------------------------------- the store

  type Store = map<Identity, bool>

  /** An upsert never takes the owner bit back. */
  function Upsert(store: Store, b: Bucket): Store {
    store[b.id := b.owner || (b.id in store && store[b.id])]
  }

  function RecordEach(store: Store, buckets: seq<Bucket>): Store {
    if buckets == [] then store else Upsert(RecordEach(store, buckets[..|buckets| - 1]), buckets[|buckets| - 1])
  }

  predicate Covers(store: Store, b: Bucket) {
    b.id in store && (b.owner ==> store[b.id])
  }

  predicate CoversObservation(store: Store, o: Observation) {
    Covers(store, o.day) && Covers(store, o.month)
  }

  /**
    What a list of buckets says about one identity: not mentioned, or mentioned with the disjunction of its owner bits.
  */
  function Mention(buckets: seq<Bucket>, id: Identity): Option<bool> {
    if buckets == [] then None
    else
      var before, b := Mention(buckets[..|buckets| - 1], id), buckets[|buckets| - 1];
      if b.id != id then before else Some(b.owner || (before.Some? && before.value))
  }

  function BucketsOf(batch: seq<Observation>): seq<Bucket> {
    if batch == [] then [] else BucketsOf(batch[..|batch| - 1]) + [batch[|batch| - 1].day, batch[|batch| - 1].month]
  }

  // ------------------------------------------------------------------------ the seen memory

  datatype Seen = Seen(epoch: nat, owners: map<nat, bool>)

  datatype Memory = Memory(day: Seen, month: Seen)

  function Of(m: Memory, kind: Kind): Seen {
    match kind case Day => m.day case Month => m.month
  }

  function With(m: Memory, kind: Kind, s: Seen): Memory {
    match kind case Day => m.(day := s) case Month => m.(month := s)
  }

  predicate NeedsWrite(m: Memory, b: Bucket) {
    var s := Of(m, b.id.kind);
    s.epoch == 0 || b.id.epoch != s.epoch || b.id.value !in s.owners || (b.owner && !s.owners[b.id.value])
  }

  /** A newer epoch starts afresh, an older one is ignored, and a full memory takes no new value. */
  function Remembered(m: Memory, b: Bucket, limit: nat): Memory {
    var s := Of(m, b.id.kind);
    if b.id.epoch < s.epoch then m else
    var s1 := if b.id.epoch > s.epoch then Seen(b.id.epoch, map[]) else s;
    var v := b.id.value;
    if v in s1.owners then With(m, b.id.kind, s1.(owners := s1.owners[v := s1.owners[v] || b.owner]))
    else if |s1.owners| < limit then With(m, b.id.kind, s1.(owners := s1.owners[v := b.owner]))
    else With(m, b.id.kind, s1)
  }

  function RememberedAll(m: Memory, buckets: seq<Bucket>, limit: nat): Memory {
    if buckets == [] then m
    else Remembered(RememberedAll(m, buckets[..|buckets| - 1], limit), buckets[|buckets| - 1], limit)
  }

  /** Everything remembered is in the store already, with at least the remembered owner bit. */
  ghost predicate Sound(m: Memory, store: Store) {
    forall k: Kind, v: nat | v in Of(m, k).owners ::
      Covers(store, Bucket(Identity(k, Of(m, k).epoch, v), Of(m, k).owners[v]))
  }

  predicate WithinLimit(m: Memory, limit: nat) {
    |m.day.owners| <= limit && |m.month.owners| <= limit
  }

  // ------------------------------------------------------------------------------- lemmas

  function Merge(held: Option<bool>, said: Option<bool>): Option<bool> {
    if said.None? then held else Some(said.value || (held.Some? && held.value))
  }

  function Held(store: Store, id: Identity): Option<bool> {
    if id in store then Some(store[id]) else None
  }

  /** Order and repetition do not matter: what is stored is what was there and everything that was said. */
  lemma {:induction false} RecordEachAt(store: Store, buckets: seq<Bucket>, id: Identity)
    ensures Held(RecordEach(store, buckets), id) == Merge(Held(store, id), Mention(buckets, id))
  {
    if buckets == [] {
    } else {
      RecordEachAt(store, buckets[..|buckets| - 1], id);
    }
  }

  lemma {:induction false} MentionAt(buckets: seq<Bucket>, i: nat)
    requires i < |buckets|
    ensures Mention(buckets, buckets[i].id).Some?
    ensures buckets[i].owner ==> Mention(buckets, buckets[i].id).value
  {
    if i < |buckets| - 1 {
      MentionAt(buckets[..|buckets| - 1], i);
    }
  }

  lemma {:induction false} MentionFinds(buckets: seq<Bucket>, id: Identity) returns (i: nat)
    requires Mention(buckets, id).Some?
    ensures i < |buckets| && buckets[i].id == id && (Mention(buckets, id).value ==> buckets[i].owner)
  {
    var last := |buckets| - 1;
    if buckets[last].id == id && (buckets[last].owner || !Mention(buckets, id).value) {
      i := last;
    } else {
      i := MentionFinds(buckets[..last], id);
    }
  }

  lemma SameStore(a: Store, b: Store)
    requires forall id: Identity :: Held(a, id) == Held(b, id)
    ensures a == b
  {
    forall id: Identity ensures id in a <==> id in b {
      assert Held(a, id) == Held(b, id);
    }
    forall id: Identity | id in a ensures a[id] == b[id] {
      assert Held(a, id) == Held(b, id);
    }
  }

  /**
    Writing a coalesced, suppressed selection leaves what writing every bucket would leave, provided whatever was left
    out is already covered and whatever is written carries the coalesced owner bit.
  */
  lemma SelectionWritesEverything(store: Store, buckets: seq<Bucket>, rows: seq<Bucket>)
    requires forall i | 0 <= i < |rows| :: Mention(buckets, rows[i].id) == Some(rows[i].owner)
    requires forall id: Identity | Mention(buckets, id).Some? ::
      Mention(rows, id).Some? || Covers(store, Bucket(id, Mention(buckets, id).value))
    ensures RecordEach(store, rows) == RecordEach(store, buckets)
  {
    forall id: Identity ensures Held(RecordEach(store, rows), id) == Held(RecordEach(store, buckets), id) {
      RecordEachAt(store, rows, id);
      RecordEachAt(store, buckets, id);
      if Mention(rows, id).Some? {
        var i := MentionFinds(rows, id);
        MentionAt(rows, i);
      }
    }
    SameStore(RecordEach(store, rows), RecordEach(store, buckets));
  }

  lemma RecordedIsCovered(store: Store, buckets: seq<Bucket>, i: nat)
    requires i < |buckets|
    ensures Covers(RecordEach(store, buckets), buckets[i])
  {
    RecordEachAt(store, buckets, buckets[i].id);
    MentionAt(buckets, i);
  }

  lemma CoverageLasts(store: Store, buckets: seq<Bucket>, b: Bucket)
    requires Covers(store, b)
    ensures Covers(RecordEach(store, buckets), b)
  {
    RecordEachAt(store, buckets, b.id);
  }

  lemma SoundLasts(m: Memory, store: Store, buckets: seq<Bucket>)
    requires Sound(m, store)
    ensures Sound(m, RecordEach(store, buckets))
  {
    forall k: Kind, v: nat | v in Of(m, k).owners
      ensures Covers(RecordEach(store, buckets), Bucket(Identity(k, Of(m, k).epoch, v), Of(m, k).owners[v]))
    {
      CoverageLasts(store, buckets, Bucket(Identity(k, Of(m, k).epoch, v), Of(m, k).owners[v]));
    }
  }

  /** Suppression is safe: what the memory says needs no write is already covered. */
  lemma NoWriteMeansCovered(m: Memory, store: Store, b: Bucket)
    requires Sound(m, store) && !NeedsWrite(m, b)
    ensures Covers(store, b)
  {
    var s := Of(m, b.id.kind);
    assert b.id.value in s.owners;
    assert Covers(store, Bucket(Identity(b.id.kind, s.epoch, b.id.value), s.owners[b.id.value]));
    assert b.id == Identity(b.id.kind, s.epoch, b.id.value);
  }

  lemma RememberedIsSound(m: Memory, store: Store, b: Bucket, limit: nat)
    requires Sound(m, store) && Covers(store, b) && WithinLimit(m, limit)
    ensures Sound(Remembered(m, b, limit), store) && WithinLimit(Remembered(m, b, limit), limit)
  {
    hide Covers;
    var n := Remembered(m, b, limit);
    forall k: Kind, v: nat | v in Of(n, k).owners
      ensures Covers(store, Bucket(Identity(k, Of(n, k).epoch, v), Of(n, k).owners[v]))
    {
      if v in Of(m, k).owners && Of(n, k).epoch == Of(m, k).epoch {
        assert Covers(store, Bucket(Identity(k, Of(m, k).epoch, v), Of(m, k).owners[v]));
      }
      if k == b.id.kind && v == b.id.value {
        assert b == Bucket(Identity(k, b.id.epoch, v), b.owner);
      }
    }
  }

  lemma {:induction false} RememberedAllIsSound(m: Memory, store: Store, buckets: seq<Bucket>, limit: nat)
    requires Sound(m, store) && WithinLimit(m, limit)
    requires forall i | 0 <= i < |buckets| :: Covers(store, buckets[i])
    ensures Sound(RememberedAll(m, buckets, limit), store) && WithinLimit(RememberedAll(m, buckets, limit), limit)
  {
    if buckets == [] {
    } else {
      RememberedAllIsSound(m, store, buckets[..|buckets| - 1], limit);
      RememberedIsSound(RememberedAll(m, buckets[..|buckets| - 1], limit), store, buckets[|buckets| - 1], limit);
    }
  }

  /** The memory has room for a bucket's value: it is there already, its epoch is new, or the cap is not reached. */
  predicate HasRoom(m: Memory, b: Bucket, limit: nat) {
    var s := Of(m, b.id.kind);
    if b.id.epoch > s.epoch then limit > 0 else b.id.value in s.owners || |s.owners| < limit
  }

  /** A remembered bucket needs no further write, unless its epoch is past or the memory is full. */
  lemma RememberedIsNotWrittenAgain(m: Memory, b: Bucket, limit: nat)
    requires b.id.epoch > 0
    ensures !NeedsWrite(Remembered(m, b, limit), b) <==> Of(m, b.id.kind).epoch <= b.id.epoch && HasRoom(m, b, limit)
  {
  }

  /** Remembering a bucket of the current epoch forgets nothing of it, and never touches the other kind. */
  lemma RememberingForgetsNothing(m: Memory, b: Bucket, limit: nat, c: Bucket)
    requires !NeedsWrite(m, c) && (c.id.kind == b.id.kind ==> b.id.epoch <= c.id.epoch)
    ensures !NeedsWrite(Remembered(m, b, limit), c)
  {
  }

  /** Rows of the current or a newer epoch, one epoch a kind, that fit below the cap are all known afterwards. */
  lemma {:induction false} RememberedRowsAreNotWrittenAgain(m: Memory, rows: seq<Bucket>, limit: nat, day: nat,
      month: nat)
    requires 0 < day && 0 < month && Of(m, Day).epoch <= day && Of(m, Month).epoch <= month
    requires forall i | 0 <= i < |rows| :: rows[i].id.epoch == if rows[i].id.kind == Day then day else month
    requires |m.day.owners| + |rows| <= limit && |m.month.owners| + |rows| <= limit
    ensures var n := RememberedAll(m, rows, limit);
      && (forall i | 0 <= i < |rows| :: !NeedsWrite(n, rows[i]))
      && |n.day.owners| <= |m.day.owners| + |rows| && |n.month.owners| <= |m.month.owners| + |rows|
      && Of(n, Day).epoch <= day && Of(n, Month).epoch <= month
  {
    if rows == [] {
    } else {
      var init, last := rows[..|rows| - 1], rows[|rows| - 1];
      RememberedRowsAreNotWrittenAgain(m, init, limit, day, month);
      var n := RememberedAll(m, init, limit);
      RememberedIsNotWrittenAgain(n, last, limit);
      forall i | 0 <= i < |init| ensures !NeedsWrite(Remembered(n, last, limit), init[i]) {
        RememberingForgetsNothing(n, last, limit, init[i]);
      }
      RememberedGrowsByOne(n, last, limit);
      hide NeedsWrite, Remembered;
      forall i | 0 <= i < |rows| ensures !NeedsWrite(RememberedAll(m, rows, limit), rows[i]) {
        assert i < |init| ==> rows[i] == init[i];
      }
    }
  }

  lemma RememberedGrowsByOne(m: Memory, b: Bucket, limit: nat)
    ensures var n := Remembered(m, b, limit);
      && |n.day.owners| <= |m.day.owners| + 1 && |n.month.owners| <= |m.month.owners| + 1
      && forall k: Kind :: Of(n, k).epoch <= Of(m, k).epoch || (k == b.id.kind && Of(n, k).epoch == b.id.epoch)
  {
  }

  lemma {:induction false} BucketsOfAt(batch: seq<Observation>, i: nat)
    requires i < |batch|
    ensures |BucketsOf(batch)| == 2 * |batch|
    ensures BucketsOf(batch)[2 * i] == batch[i].day && BucketsOf(batch)[2 * i + 1] == batch[i].month
  {
    BucketsOfLength(batch[..|batch| - 1]);
    if i < |batch| - 1 {
      BucketsOfAt(batch[..|batch| - 1], i);
    }
  }

  lemma {:induction false} BucketsOfLength(batch: seq<Observation>)
    ensures |BucketsOf(batch)| == 2 * |batch|
  {
    if batch == [] {
    } else {
      BucketsOfLength(batch[..|batch| - 1]);
    }
  }
}
