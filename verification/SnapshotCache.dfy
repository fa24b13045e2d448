/**
  The snapshot payload cache and its readers. Payload entries, load stamps, the eviction list and the map into it are
  separate tables changed in place; the specification is one bounded cache from package URLs to complete loads. Evicting
  a package URL takes its payloads and its stamp together, so what is left to a reader is a reload.
*/
module SnapshotCache {
  import opened Wrappers
  import opened BoundedCache
  import opened SnapshotRows

  const LIMITS: Limits := Limits(64 * 1024 * 1024, 1024)
  const TTL: int := 30 * 60 * 1000

  // -------------------------------------------------------------------- specification

  function ItemFor(purl: string, load: BulkLoad): Item<BulkLoad> {
    Item(purl, load, |purl| + 64 + PayloadBytes(RowsOf(load.rows, purl)))
  }

  /** Caching one load for several package URLs stores each of them in turn. */
  function PutAll(retained: seq<Item<BulkLoad>>, purls: seq<string>, load: BulkLoad): seq<Item<BulkLoad>> {
    if purls == [] then retained
    else Put(PutAll(retained, purls[..|purls| - 1], load), ItemFor(purls[|purls| - 1], load), LIMITS)
  }

  /** What one retained load has under a key that starts with its package URL. */
  function PayloadIn(x: Item<BulkLoad>, key: string): Option<Cached>
    requires Under(x.key, key)
  {
    var json := FromRows(x.value.rows, x.key, SymbolIn(x.key, key));
    if json.None? then None else Some(Cached(x.value.at, json.value, true))
  }

  /** The payload the table must hold under a composite key: that of the one load retained for its package URL. */
  function Expected(retained: seq<Item<BulkLoad>>, key: string): Option<Cached> {
    if retained == [] then None
    else if Under(retained[0].key, key) then PayloadIn(retained[0], key)
    else Expected(retained[1..], key)
  }

  function Stamp(retained: seq<Item<BulkLoad>>, purl: string): Option<int> {
    var hit := Find(retained, purl);
    if hit.Some? then Some(hit.value.value.at) else None
  }

  /** The eviction list as it is kept: package URL, its payload keys, its size. */
  function Lower(retained: seq<Item<BulkLoad>>): seq<Item<seq<string>>> {
    if retained == [] then []
    else
      [Item(retained[0].key, KeysOf(RowsOf(retained[0].value.rows, retained[0].key)), retained[0].bytes)]
      + Lower(retained[1..])
  }

  /** No retained package URL clashes with this one. */
  predicate Apart(retained: seq<Item<BulkLoad>>, purl: string) {
    forall x <- retained :: !Clash(x.key, purl)
  }

  predicate WellFormed(retained: seq<Item<BulkLoad>>) {
    forall x <- retained :: UniqueRows(x.value.rows) && Apart(retained, x.key)
  }

  /** The package URLs of a corpus are prefix-free with the separator appended. */
  predicate PurlsApart(rows: seq<Row>) {
    forall i, j | 0 <= i < |rows| && 0 <= j < |rows| :: !Clash(rows[i].purl, rows[j].purl)
  }

  function Get<V>(m: map<string, V>, k: string): Option<V> {
    if k in m then Some(m[k]) else None
  }

  datatype Corpus = Corpus(rows: seq<Row>, at: int, index: map<string, nat>)

  /** The compact index points at the row that holds each key. */
  ghost predicate Indexes(index: map<string, nat>, rows: seq<Row>) {
    && (forall i | 0 <= i < |rows| :: Key(rows[i].purl, rows[i].symbol) in index)
    && (forall k <- index :: index[k] < |rows| && Key(rows[index[k]].purl, rows[index[k]].symbol) == k)
  }

  datatype Reading = Hit(answer: Option<string>) | MustReload

  // ------------------------------------------------------------------- facts about the lowering

  lemma {:induction false} LowerFacts(retained: seq<Item<BulkLoad>>)
    ensures |Lower(retained)| == |retained| && Bytes(Lower(retained)) == Bytes(retained)
    ensures forall i | 0 <= i < |retained| ::
      Lower(retained)[i] == Item(retained[i].key, KeysOf(RowsOf(retained[i].value.rows, retained[i].key)),
        retained[i].bytes)
  {
    if retained == [] {
    } else {
      LowerFacts(retained[1..]);
    }
  }

  lemma {:induction false} LowerFind(retained: seq<Item<BulkLoad>>, purl: string)
    ensures var hit := Find(retained, purl); var low := Find(Lower(retained), purl);
      && (hit.Some? <==> low.Some?)
      && (hit.Some? ==>
        && low.value.value == KeysOf(RowsOf(hit.value.value.rows, purl))
        && low.value.bytes == hit.value.bytes)
  {
    if retained == [] {
    } else {
      LowerFind(retained[1..], purl);
    }
  }

  lemma {:induction false} LowerWithout(retained: seq<Item<BulkLoad>>, purl: string)
    ensures Lower(Without(retained, purl)) == Without(Lower(retained), purl)
  {
    if retained == [] {
    } else {
      LowerWithout(retained[1..], purl);
    }
  }

  lemma {:induction false} LowerAppend(retained: seq<Item<BulkLoad>>, x: Item<BulkLoad>)
    ensures Lower(retained + [x]) == Lower(retained) + [Item(x.key, KeysOf(RowsOf(x.value.rows, x.key)), x.bytes)]
  {
    if retained == [] {
    } else {
      assert (retained + [x])[1..] == retained[1..] + [x];
      LowerAppend(retained[1..], x);
    }
  }

  lemma {:induction false} WithoutIsWellFormed(retained: seq<Item<BulkLoad>>, purl: string)
    requires WellFormed(retained)
    ensures WellFormed(Without(retained, purl))
    ensures forall x <- Without(retained, purl) :: x in retained
  {
    forall x | x in Without(retained, purl) ensures x in retained {
      var j :| 0 <= j < |Without(retained, purl)| && Without(retained, purl)[j] == x;
      WithoutAt(retained, purl, j);
    }
  }

  /** The table's one rule, seen from a package URL: a retained one answers for every key under it. */
  lemma {:induction false} ExpectedOf(retained: seq<Item<BulkLoad>>, purl: string, key: string)
    requires Apart(retained, purl) && Under(purl, key)
    ensures var hit := Find(retained, purl); Expected(retained, key) == if hit.Some?
      then PayloadOf(hit.value.value, purl, key) else None
  {
    if retained == [] {
    } else {
      if Under(retained[0].key, key) && retained[0].key != purl {
        UnderTwoClashes(retained[0].key, purl, key);
      }
      ExpectedOf(retained[1..], purl, key);
    }
  }

  function PayloadOf(load: BulkLoad, purl: string, key: string): Option<Cached>
    requires Under(purl, key)
  {
    PayloadIn(Item(purl, load, 0), key)
  }

  lemma {:induction false} ExpectedWithout(retained: seq<Item<BulkLoad>>, purl: string, key: string)
    requires !Under(purl, key)
    ensures Expected(Without(retained, purl), key) == Expected(retained, key)
  {
    if retained == [] {
    } else {
      ExpectedWithout(retained[1..], purl, key);
    }
  }

  lemma {:induction false} ExpectedAppend(retained: seq<Item<BulkLoad>>, x: Item<BulkLoad>, key: string)
    requires !Under(x.key, key)
    ensures Expected(retained + [x], key) == Expected(retained, key)
  {
    if retained == [] {
      assert ([] + [x])[1..] == [];
    } else {
      assert (retained + [x])[1..] == retained[1..] + [x];
      ExpectedAppend(retained[1..], x, key);
    }
  }

  lemma RoomIsApart(retained: seq<Item<BulkLoad>>, size: nat, purl: string)
    requires Apart(retained, purl) && size <= LIMITS.bytes
    ensures Apart(MakeRoom(retained, size, LIMITS), purl)
  {
    MakeRoomDropsTheShortestPrefix(retained, size, LIMITS);
  }

  lemma PutIsApart(retained: seq<Item<BulkLoad>>, item: Item<BulkLoad>, purl: string)
    requires Apart(retained, purl) && !Clash(item.key, purl)
    ensures Apart(Put(retained, item, LIMITS), purl)
  {
    forall j | 0 <= j < |Without(retained, item.key)| ensures !Clash(Without(retained, item.key)[j].key, purl) {
      WithoutAt(retained, item.key, j);
    }
    if item.bytes <= LIMITS.bytes {
      RoomIsApart(Without(retained, item.key), item.bytes, purl);
    }
  }

  lemma {:induction false} PutAllIsApart(retained: seq<Item<BulkLoad>>, purls: seq<string>, load: BulkLoad,
      purl: string)
    requires Apart(retained, purl) && forall i | 0 <= i < |purls| :: !Clash(purls[i], purl)
    ensures Apart(PutAll(retained, purls, load), purl)
  {
    if purls == [] {
    } else {
      PutAllIsApart(retained, purls[..|purls| - 1], load, purl);
      PutIsApart(PutAll(retained, purls[..|purls| - 1], load), ItemFor(purls[|purls| - 1], load), purl);
    }
  }

  /** What eviction does to the payload table, key by key. */
  lemma ExpectedAfterEviction(retained: seq<Item<BulkLoad>>, purl: string, key: string)
    requires WellFormed(retained) && Distinct(retained) && Find(retained, purl).Some?
    ensures var keys := KeysOf(RowsOf(Find(retained, purl).value.value.rows, purl));
      Expected(Without(retained, purl), key) == if key in keys then None else Expected(retained, key)
  {
    FindIsMembership(retained, purl);
    var load := Find(retained, purl).value.value;
    RowsOfAreOwn(load.rows, purl);
    KeyIsListed(RowsOf(load.rows, purl), purl, key);
    if Under(purl, key) {
      WithoutIsWellFormed(retained, purl);
      ExpectedOf(retained, purl, key);
      ExpectedOf(Without(retained, purl), purl, key);
      WithoutFind(retained, purl, purl);
      GroupAnswersAlike(load.rows, purl, SymbolIn(purl, key));
    } else {
      ExpectedWithout(retained, purl, key);
    }
  }

  /** What retaining a load does to the payload table, key by key. */
  lemma ExpectedAfterRetaining(retained: seq<Item<BulkLoad>>, x: Item<BulkLoad>, key: string)
    requires Apart(retained, x.key) && UniqueRows(x.value.rows) && Find(retained, x.key).None?
    ensures var own := RowsOf(x.value.rows, x.key);
      && (key in KeysOf(own) ==>
            && Under(x.key, key)
            && FromRows(own, x.key, SymbolIn(x.key, key)).Some?
            && Expected(retained + [x], key)
              == Some(Cached(x.value.at, FromRows(own, x.key, SymbolIn(x.key, key)).value, true)))
      && (key !in KeysOf(own) ==> Expected(retained + [x], key) == Expected(retained, key))
  {
    RowsOfAreOwn(x.value.rows, x.key);
    KeyIsListed(RowsOf(x.value.rows, x.key), x.key, key);
    if Under(x.key, key) {
      assert !Clash(x.key, x.key);
      assert Apart(retained + [x], x.key);
      ExpectedOf(retained, x.key, key);
      ExpectedOf(retained + [x], x.key, key);
      FindAppend(retained, x, x.key);
      GroupAnswersAlike(x.value.rows, x.key, SymbolIn(x.key, key));
    } else {
      ExpectedAppend(retained, x, key);
    }
  }

  method BuildIndex(rows: seq<Row>) returns (index: map<string, nat>)
    requires UniqueRows(rows) && PurlsApart(rows)
    ensures Indexes(index, rows)
  {
    index := map[];
    for i := 0 to |rows|
      invariant Indexes(index, rows[..i])
    {
      var key := Key(rows[i].purl, rows[i].symbol);
      assert rows[i] in rows;
      forall k | k in index ensures k != key {
        KeyIsInjective(rows[index[k]].purl, rows[index[k]].symbol, rows[i].purl, rows[i].symbol);
      }
      index := index[key := i];
    }
    assert rows[..|rows|] == rows;
  }

  // ------------------------------------------------------------------------------ the cache

  class Cache {
    var payloads: map<string, Cached>              // "purl|symbol"
    var loaded: map<string, int>                   // purl -> stamp of its load
    var order: seq<Item<seq<string>>>
    var entries: map<string, Item<seq<string>>>
    var bytes: int
    var corpus: Option<Corpus>
    ghost var retained: seq<Item<BulkLoad>>

    ghost predicate Valid()
      reads this
    {
      && Tables()
      && (corpus.Some? ==> UniqueRows(corpus.value.rows) && Indexes(corpus.value.index, corpus.value.rows))
    }

    ghost predicate Tables()
      reads this
    {
      && Bounded(retained, LIMITS) && WellFormed(retained)
      && order == Lower(retained) && Linked(order, entries, bytes)
      && (forall k: string :: Get(payloads, k) == Expected(retained, k))
      && (forall p: string :: Get(loaded, p) == Stamp(retained, p))
    }

    /** What a reader can see: the complete loads, and the corpus once there is one. */
    ghost function State(): View
      reads this
    {
      View(retained, if corpus.Some? then Some(BulkLoad(corpus.value.rows, corpus.value.at)) else None)
    }

    constructor ()
      ensures Valid() && State() == After([])
    {
      payloads, loaded, order, entries, bytes, corpus, retained := map[], map[], [], map[], 0, None, [];
    }

    /** Payloads, stamp, list element and size go together; an unknown package URL is left alone. */
    method Evict(purl: string)
      requires Tables()
      modifies this
      ensures Tables() && corpus == old(corpus)
      ensures retained == Without(old(retained), purl)
      ensures entries == old(entries) - {purl}
    {
      hide Expected, Lower, Without, Find, KeysOf, RowsOf, WellFormed, Linked;
      LinkedKey(order, entries, bytes, purl);
      LowerFind(retained, purl);
      LowerWithout(retained, purl);
      WithoutIsWellFormed(retained, purl);
      if purl !in entries {
        FindIsMembership(retained, purl);
        NoSuchKey(retained, purl);
        return;
      }
      var element := entries[purl];
      ghost var before := payloads;
      payloads := DropKeys(payloads, element.value);
      forall k: string ensures Get(payloads, k) == Expected(Without(retained, purl), k) {
        assert Get(before, k) == Expected(retained, k);
        ExpectedAfterEviction(retained, purl, k);
      }
      forall p: string ensures Get(loaded - {purl}, p) == Stamp(Without(retained, purl), p) {
        assert Get(loaded, p) == Stamp(retained, p);
        WithoutFind(retained, purl, p);
      }
      LinkedWithout(order, entries, bytes, purl);
      WithoutShrinks(retained, purl);
      loaded := loaded - {purl};
      bytes := bytes - element.bytes;
      entries := entries - {purl};
      order := Without(order, purl);
      retained := Without(retained, purl);
    }

    method EvictFor(size: nat)
      requires Tables() && size <= LIMITS.bytes
      modifies this
      ensures Tables() && corpus == old(corpus)
      ensures retained == MakeRoom(old(retained), size, LIMITS)
      ensures entries.Keys <= old(entries.Keys)
    {
      LinkedSizes(order, entries, bytes);
      LowerFacts(retained);
      while bytes + size > LIMITS.bytes || |entries| >= LIMITS.entries
        invariant Tables() && corpus == old(corpus)
        invariant |entries| == |order| == |retained| && bytes == Bytes(retained)
        invariant entries.Keys <= old(entries.Keys)
        invariant MakeRoom(retained, size, LIMITS) == MakeRoom(old(retained), size, LIMITS)
        decreases |order|
      {
        LowerFacts(retained);
        FrontIsDropped(retained);
        Evict(order[0].key);
        LinkedSizes(order, entries, bytes);
        LowerFacts(retained);
      }
    }

    /** One package URL of a completed load: replaced as a whole, or not retained at all when it is too large. */
    method CachePurl(purl: string, group: seq<Row>, at: int, ghost rows: seq<Row>)
      requires Valid() && Apart(retained, purl) && UniqueRows(rows) && group == RowsOf(rows, purl)
      modifies this
      ensures Valid() && corpus == old(corpus)
      ensures retained == Put(old(retained), ItemFor(purl, BulkLoad(rows, at)), LIMITS)
    {
      ghost var x := ItemFor(purl, BulkLoad(rows, at));
      PutKeeps(retained, x, LIMITS);
      WithoutIsWellFormed(retained, purl);
      Evict(purl);
      var size := SizeOf(purl, group);
      if size > LIMITS.bytes {
        return;
      }
      RoomIsApart(retained, size, purl);
      EvictFor(size);
      LinkedKey(order, entries, bytes, purl);
      LowerFind(retained, purl);
      Retain(purl, group, at, size, rows);
    }

    /** The payloads, the stamp and the list element of one load appear together. */
    method Retain(purl: string, group: seq<Row>, at: int, size: nat, ghost rows: seq<Row>)
      requires Tables() && Apart(retained, purl) && UniqueRows(rows) && group == RowsOf(rows, purl)
      requires purl !in entries && Find(retained, purl).None?
      requires size == ItemFor(purl, BulkLoad(rows, at)).bytes
      requires Bounded(retained + [ItemFor(purl, BulkLoad(rows, at))], LIMITS)
      modifies this
      ensures Tables() && corpus == old(corpus)
      ensures retained == old(retained) + [ItemFor(purl, BulkLoad(rows, at))]
    {
      ghost var x := ItemFor(purl, BulkLoad(rows, at));
      hide Expected, Lower, Find, Linked, Bounded;
      RowsOfAreOwn(rows, purl);
      ghost var before := payloads;
      var keys;
      payloads, keys := WritePayloads(payloads, group, purl, at);
      forall k: string ensures Get(payloads, k) == Expected(retained + [x], k) {
        assert Get(before, k) == Expected(retained, k);
        ExpectedAfterRetaining(retained, x, k);
        KeyIsListed(group, purl, k);
      }
      forall p: string ensures Get(loaded[purl := at], p) == Stamp(retained + [x], p) {
        assert Get(loaded, p) == Stamp(retained, p);
        FindAppend(retained, x, p);
      }
      LowerAppend(retained, x);
      LinkedAppend(order, entries, bytes, Item(purl, keys, size));
      loaded := loaded[purl := at];
      order := order + [Item(purl, keys, size)];
      entries := entries[purl := Item(purl, keys, size)];
      bytes := bytes + size;
      retained := retained + [x];
    }

    /** A completed load becomes the one answer for each package URL it was asked about. */
    method CacheRows(rows: seq<Row>, purls: seq<string>, at: int)
      requires Valid() && UniqueRows(rows)
      requires PrefixFree(purls) && forall p <- purls :: Apart(retained, p)
      modifies this
      ensures Valid()
      ensures State() == old(State()).(retained := PutAll(old(retained), purls, BulkLoad(rows, at)))
    {
      hide Clash, Apart, Expected, Lower, Linked, Bounded, WellFormed, Put, Valid, RowsOf;
      var groups := GroupRows(rows);
      var i := 0;
      while i < |purls|
        invariant 0 <= i <= |purls|
        invariant Valid() && corpus == old(corpus)
        invariant retained == PutAll(old(retained), purls[..i], BulkLoad(rows, at))
      {
        assert purls[..i + 1][..i] == purls[..i];
        var purl := purls[i];
        assert purl in purls;
        PutAllIsApart(old(retained), purls[..i], BulkLoad(rows, at), purl);
        CachePurl(purl, if purl in groups then groups[purl] else [], at, rows);
        i := i + 1;
      }
      assert purls[..i] == purls;
    }

    /** The complete corpus takes over; every per-package payload and stamp is dropped with it. */
    method ReplaceCorpus(rows: seq<Row>, at: int)
      requires Valid() && UniqueRows(rows) && PurlsApart(rows)
      modifies this
      ensures Valid() && State() == View([], Some(BulkLoad(rows, at)))
    {
      var index := BuildIndex(rows);
      corpus := Some(Corpus(rows, at, index));
      payloads, loaded, order, entries, bytes, retained := map[], map[], [], map[], 0, [];
    }

    /** What a load that has completed answers without going to the store. */
    method FromLoadedPurl(purl: string, symbol: string, now: int) returns (r: Reading)
      requires Valid()
      ensures r == Answer(View(retained, None), purl, symbol, now)
    {
      var key := Key(purl, symbol);
      assert Get(loaded, purl) == Stamp(retained, purl);
      assert Get(payloads, key) == Expected(retained, key);
      UnderIsAKey(purl, symbol, key);
      if Find(retained, purl).Some? {
        FindIsMembership(retained, purl);
        ExpectedOf(retained, purl, key);
      }
      if purl !in loaded {
        return MustReload;
      }
      var loadedAt := loaded[purl];
      if now - loadedAt >= TTL {
        return MustReload;
      }
      if key in payloads {
        var entry := payloads[key];
        if entry.at >= loadedAt {
          return Hit(if entry.ok then Some(entry.json) else None);
        }
      }
      return Hit(None);
    }

    /** The reader: the corpus if there is one, else one complete load that is still fresh, else a reload. */
    method Read(purl: string, symbol: string, now: int) returns (r: Reading)
      requires Valid() && Apart(retained, purl)
      requires corpus.Some? ==> forall r <- corpus.value.rows :: !Clash(r.purl, purl)
      ensures r == Answer(State(), purl, symbol, now)
    {
      var key := Key(purl, symbol);
      if corpus.Some? {
        CorpusAnswers(corpus.value, purl, symbol);
        if key in corpus.value.index {
          return Hit(Some(corpus.value.rows[corpus.value.index[key]].json));
        }
        return Hit(None);
      }
      assert Get(payloads, key) == Expected(retained, key);
      UnderIsAKey(purl, symbol, key);
      ExpectedOf(retained, purl, key);
      if key in payloads && now - payloads[key].at < TTL {
        return Hit(if payloads[key].ok then Some(payloads[key].json) else None);
      }
      r := FromLoadedPurl(purl, symbol, now);
    }
  }

  method DropKeys(payloads: map<string, Cached>, keys: seq<string>) returns (left: map<string, Cached>)
    ensures left == payloads - set k | k in keys
  {
    left := payloads;
    var i := 0;
    while i < |keys|
      invariant 0 <= i <= |keys|
      invariant left == payloads - set k | k in keys[..i]
    {
      assert keys[..i + 1] == keys[..i] + [keys[i]];
      left := left - {keys[i]};
      i := i + 1;
    }
    assert keys[..i] == keys;
  }

  method WritePayloads(before: map<string, Cached>, group: seq<Row>, purl: string, at: int)
    returns (after: map<string, Cached>, keys: seq<string>)
    requires UniqueRows(group) && forall j | 0 <= j < |group| :: group[j].purl == purl
    ensures keys == KeysOf(group)
    ensures forall k: string :: Get(after, k) == Overlaid(before, group, purl, at, k)
  {
    after, keys := before, [];
    var i := 0;
    while i < |group|
      invariant 0 <= i <= |group|
      invariant keys == KeysOf(group[..i])
      invariant forall k: string :: Get(after, k) == Overlaid(before, group[..i], purl, at, k)
    {
      var row := group[i];
      var key := Key(row.purl, row.symbol);
      var more := after[key := Cached(at, row.json, true)];
      assert group[..i + 1][..i] == group[..i];
      forall k: string ensures Get(more, k) == Overlaid(before, group[..i + 1], purl, at, k) {
        assert Get(after, k) == Overlaid(before, group[..i], purl, at, k);
        OverlaidByOneMore(before, group, i, purl, at, k);
      }
      keys, after := keys + [key], more;
      i := i + 1;
    }
    assert group[..i] == group;
  }

  method SizeOf(purl: string, group: seq<Row>) returns (size: nat)
    ensures size == |purl| + 64 + PayloadBytes(group)
  {
    size := |purl| + 64;
    var i := 0;
    while i < |group|
      invariant 0 <= i <= |group|
      invariant size == |purl| + 64 + PayloadBytes(group[..i])
    {
      assert group[..i + 1][..i] == group[..i];
      size := size + |group[i].purl| + |group[i].symbol| + 1 + |group[i].json| + 64;
      i := i + 1;
    }
    assert group[..i] == group;
  }

  /** The payload table after the given rows of one load have been written over it. */
  function Overlaid(before: map<string, Cached>, rows: seq<Row>, purl: string, at: int, key: string): Option<Cached> {
    if Under(purl, key) && FromRows(rows, purl, SymbolIn(purl, key)).Some?
    then Some(Cached(at, FromRows(rows, purl, SymbolIn(purl, key)).value, true))
    else Get(before, key)
  }

  lemma OverlaidByOneMore(before: map<string, Cached>, group: seq<Row>, i: nat, purl: string, at: int, key: string)
    requires i < |group| && UniqueRows(group) && forall j | 0 <= j < |group| :: group[j].purl == purl
    ensures Overlaid(before, group[..i + 1], purl, at, key)
         == if key == Key(purl, group[i].symbol) then Some(Cached(at, group[i].json, true))
            else Overlaid(before, group[..i], purl, at, key)
  {
    assert group[..i + 1] == group[..i] + [group[i]];
    UnderIsAKey(purl, group[i].symbol, key);
    if Under(purl, key) {
      var symbol := SymbolIn(purl, key);
      FromRowsAppend(group[..i], group[i], purl, symbol);
      if symbol == group[i].symbol && FromRows(group[..i], purl, symbol).Some? {
        var j := FromRowsFinds(group[..i], purl, symbol);
      }
    }
  }

  lemma CorpusAnswers(c: Corpus, purl: string, symbol: string)
    requires UniqueRows(c.rows) && Indexes(c.index, c.rows) && forall r <- c.rows :: !Clash(r.purl, purl)
    ensures FromRows(c.rows, purl, symbol)
         == var key := Key(purl, symbol); if key in c.index then Some(c.rows[c.index[key]].json) else None
  {
    var key := Key(purl, symbol);
    if key in c.index {
      var i := c.index[key];
      assert c.rows[i] in c.rows;
      KeyIsInjective(c.rows[i].purl, c.rows[i].symbol, purl, symbol);
      FromRowsAt(c.rows, i);
    } else if FromRows(c.rows, purl, symbol).Some? {
      var i := FromRowsFinds(c.rows, purl, symbol);
    }
  }

  /**
    For every two package URLs that clash there are symbols at which the cache is not coherent: a load of the second
    answers for the first, and evicting the second takes away a payload of the first, whose stamp stays.
  */
  lemma ClashMixesLoads(p: string, q: string, at: int, later: int, mine: string, other: string) returns (s: string,
      t: string)
    requires Clash(p, q)
    ensures var first, second := [Row(p, s, mine)], [Row(q, t, other)];
      && Overlaid(map[], first, p, at, Key(p, s)) == Some(Cached(at, mine, true))
      && (forall table: map<string, Cached> ::
        Overlaid(table, second, q, later, Key(p, s)) == Some(Cached(later, other, true)))
      && Key(p, s) in KeysOf(second)
  {
    if p + "|" <= q + "|" {
      s, t := ClashMakesAKey(p, q);
    } else {
      t, s := ClashMakesAKey(q, p);
    }
    UnderIsAKey(p, s, Key(p, s));
    UnderIsAKey(q, t, Key(p, s));
    assert KeysOf([Row(q, t, other)])[0] == Key(q, t);
  }

  // --------------------------------------------------------------------------- whole histories

  /** What can happen to the cache: a load completes for some package URLs, or the complete corpus is replaced. */
  datatype Event = LoadDone(purls: seq<string>, load: BulkLoad) | CorpusDone(load: BulkLoad)

  datatype View = View(retained: seq<Item<BulkLoad>>, corpus: Option<BulkLoad>)

  function After(history: seq<Event>): View {
    if history == [] then View([], None)
    else
      var before := After(history[..|history| - 1]);
      match history[|history| - 1]
      case LoadDone(purls, load) => before.(retained := PutAll(before.retained, purls, load))
      case CorpusDone(load) => View([], Some(load))
  }

  function Answer(view: View, purl: string, symbol: string, now: int): Reading {
    if view.corpus.Some? then Hit(FromRows(view.corpus.value.rows, purl, symbol)) else
    var hit := Find(view.retained, purl);
    if hit.Some? && now - hit.value.value.at < TTL then Hit(FromRows(hit.value.value.rows, purl, symbol))
      else MustReload
  }

  function LatestCorpus(history: seq<Event>): Option<BulkLoad> {
    if history == [] then None
    else if history[|history| - 1].CorpusDone? then Some(history[|history| - 1].load)
    else LatestCorpus(history[..|history| - 1])
  }

  /** The most recent completed load that was made for this package URL. */
  function LatestFor(history: seq<Event>, purl: string): Option<BulkLoad> {
    if history == [] then None
    else
      var last := history[|history| - 1];
      if last.LoadDone? && purl in last.purls then Some(last.load) else LatestFor(history[..|history| - 1], purl)
  }

  lemma {:induction false} PutAllKeeps(retained: seq<Item<BulkLoad>>, purls: seq<string>, load: BulkLoad, purl: string)
    requires Bounded(retained, LIMITS)
    ensures Bounded(PutAll(retained, purls, load), LIMITS)
    ensures var hit := Find(PutAll(retained, purls, load), purl);
      hit.Some? ==> if purl in purls then hit.value.value == load else Find(retained, purl) == hit
  {
    if purls == [] {
    } else {
      var init, p := purls[..|purls| - 1], purls[|purls| - 1];
      PutAllKeeps(retained, init, load, purl);
      PutKeeps(PutAll(retained, init, load), ItemFor(p, load), LIMITS);
      assert purl in purls <==> purl in init || purl == p;
    }
  }

  /** A completed load that fits answers from then on, absence included, until it is stale or pushed out. */
  lemma LoadAnswersAtOnce(retained: seq<Item<BulkLoad>>, purl: string, load: BulkLoad, symbol: string, now: int)
    requires Bounded(retained, LIMITS) && ItemFor(purl, load).bytes <= 64 * 1024 * 1024
      && now - load.at < 30 * 60 * 1000
    ensures Answer(View(Put(retained, ItemFor(purl, load), LIMITS), None), purl, symbol, now)
         == Hit(FromRows(load.rows, purl, symbol))
  {
    PutKeeps(retained, ItemFor(purl, load), LIMITS);
  }

  lemma {:induction false} RetainedIsTheLatestLoad(history: seq<Event>, purl: string)
    ensures Bounded(After(history).retained, LIMITS)
    ensures After(history).corpus == LatestCorpus(history)
    ensures var hit := Find(After(history).retained, purl); hit.Some? ==>
      LatestFor(history, purl) == Some(hit.value.value)
  {
    if history == [] {
    } else {
      var init, last := history[..|history| - 1], history[|history| - 1];
      RetainedIsTheLatestLoad(init, purl);
      if last.LoadDone? {
        PutAllKeeps(After(init).retained, last.purls, last.load, purl);
      }
    }
  }

  /**
    After any history of loads, prefetches, evictions and corpus replacements, a cached answer is that of one complete
    load: the latest corpus, or else the latest load made for the package URL. It never mixes two loads, absence is only
    ever that load's absence, and a package URL no load was made for is reloaded, not declared absent.
  */
  lemma AnswersComeFromOneCompleteLoad(history: seq<Event>, purl: string, symbol: string, now: int)
    ensures var r := Answer(After(history), purl, symbol, now);
      && (LatestCorpus(history).Some? ==> r == Hit(FromRows(LatestCorpus(history).value.rows, purl, symbol)))
      && (LatestCorpus(history).None? && r.Hit? ==>
            && LatestFor(history, purl).Some?
            && r.answer == FromRows(LatestFor(history, purl).value.rows, purl, symbol)
            && now - LatestFor(history, purl).value.at < TTL)
  {
    RetainedIsTheLatestLoad(history, purl);
  }
}
