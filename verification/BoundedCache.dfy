/**
  What a byte- and entry-bounded cache promises, independently of how it is linked together: the order of its items from
  least to most recently used, what a lookup and a store do to that order, and what holds after any history of them.
*/
module BoundedCache {
  import opened Wrappers

  datatype Item<+V> = Item(key: string, value: V, bytes: nat)

  datatype Limits = Limits(bytes: nat, entries: nat)

  function Bytes<V>(order: seq<Item<V>>): nat {
    if order == [] then 0 else order[0].bytes + Bytes(order[1..])
  }

  function Without<V>(order: seq<Item<V>>, key: string): seq<Item<V>> {
    if order == [] then []
    else if order[0].key == key then Without(order[1..], key)
    else [order[0]] + Without(order[1..], key)
  }

  function Find<V>(order: seq<Item<V>>, key: string): Option<Item<V>> {
    if order == [] then None else if order[0].key == key then Some(order[0]) else Find(order[1..], key)
  }

  /** There is room for `size` more bytes in one more entry. */
  predicate Fits<V>(order: seq<Item<V>>, size: nat, limits: Limits) {
    Bytes(order) + size <= limits.bytes && |order| < limits.entries
  }

  function MakeRoom<V>(order: seq<Item<V>>, size: nat, limits: Limits): seq<Item<V>> {
    if order == [] || Fits(order, size, limits) then order else MakeRoom(order[1..], size, limits)
  }

  function Touch<V>(order: seq<Item<V>>, key: string): seq<Item<V>> {
    var hit := Find(order, key);
    if hit.Some? then Without(order, key) + [hit.value] else order
  }

  function Put<V>(order: seq<Item<V>>, item: Item<V>, limits: Limits): seq<Item<V>> {
    var rest := Without(order, item.key);
    if item.bytes > limits.bytes then rest else MakeRoom(rest, item.bytes, limits) + [item]
  }

  predicate Distinct<V>(order: seq<Item<V>>) {
    forall i, j | 0 <= i < j < |order| :: order[i].key != order[j].key
  }

  predicate Bounded<V>(order: seq<Item<V>>, limits: Limits) {
    Distinct(order) && Bytes(order) <= limits.bytes && |order| <= limits.entries
  }

  // ------------------------------------------------------------------- histories

  datatype Op<+V> = Load(key: string) | Store(item: Item<V>)

  function OpKey<V>(op: Op<V>): string {
    if op.Load? then op.key else op.item.key
  }

  function Apply<V>(order: seq<Item<V>>, op: Op<V>, limits: Limits): seq<Item<V>> {
    match op
    case Load(key) => Touch(order, key)
    case Store(item) => Put(order, item, limits)
  }

  function Exec<V>(ops: seq<Op<V>>, limits: Limits): seq<Item<V>> {
    if ops == [] then [] else Apply(Exec(ops[..|ops| - 1], limits), ops[|ops| - 1], limits)
  }

  function LastStored<V>(ops: seq<Op<V>>, key: string): Option<V> {
    if ops == [] then None
    else
      var op := ops[|ops| - 1];
      if op.Store? && op.item.key == key then Some(op.item.value) else LastStored(ops[..|ops| - 1], key)
  }

  /** When the key was last asked for or stored, counting operations from one; zero for never. */
  function LastUse<V>(ops: seq<Op<V>>, key: string): (n: nat)
    ensures n <= |ops|
  {
    if ops == [] then 0
    else if OpKey(ops[|ops| - 1]) == key then |ops| else LastUse(ops[..|ops| - 1], key)
  }

  // ------------------------------------------------------------------ list facts

  lemma {:induction false} FindIsMembership<V>(order: seq<Item<V>>, key: string)
    ensures Find(order, key).Some? <==> exists i :: 0 <= i < |order| && order[i].key == key
    ensures Find(order, key).Some? ==> Find(order, key).value in order && Find(order, key).value.key == key
  {
    if order == [] {
    } else {
      FindIsMembership(order[1..], key);
      if order[0].key != key && Find(order, key).Some? {
        var i :| 0 <= i < |order[1..]| && order[1..][i].key == key;
        assert order[i + 1].key == key;
      }
      if i :| 0 <= i < |order| && order[i].key == key && i > 0 {
        assert order[1..][i - 1].key == key;
      }
    }
  }

  lemma {:induction false} FindAt<V>(order: seq<Item<V>>, i: nat)
    requires i < |order| && Distinct(order)
    ensures Find(order, order[i].key) == Some(order[i])
  {
    if i == 0 {
    } else {
      assert order[1..][i - 1] == order[i];
      FindAt(order[1..], i - 1);
    }
  }

  lemma {:induction false} WithoutAt<V>(order: seq<Item<V>>, key: string, j: nat)
    requires j < |Without(order, key)|
    ensures Without(order, key)[j] in order && Without(order, key)[j].key != key
  {
    if order[0].key == key {
      WithoutAt(order[1..], key, j);
    } else if j > 0 {
      WithoutAt(order[1..], key, j - 1);
    }
  }

  lemma {:induction false} WithoutFind<V>(order: seq<Item<V>>, key: string, other: string)
    ensures Find(Without(order, key), other) == if other == key then None else Find(order, other)
  {
    if order == [] {
    } else {
      WithoutFind(order[1..], key, other);
    }
  }

  lemma {:induction false} WithoutShrinks<V>(order: seq<Item<V>>, key: string)
    requires Distinct(order)
    ensures Distinct(Without(order, key))
    ensures Bytes(Without(order, key)) + (if Find(order, key).Some? then Find(order, key).value.bytes else 0)
      == Bytes(order)
    ensures |Without(order, key)| + (if Find(order, key).Some? then 1 else 0) == |order|
  {
    if order == [] {
    } else {
      WithoutShrinks(order[1..], key);
      var rest := Without(order[1..], key);
      forall j | 0 <= j < |rest| ensures rest[j].key != order[0].key {
        WithoutAt(order[1..], key, j);
      }
      if order[0].key == key {
        NoSuchKey(order[1..], key);
      }
    }
  }

  lemma {:induction false} NoSuchKey<V>(order: seq<Item<V>>, key: string)
    requires forall i | 0 <= i < |order| :: order[i].key != key
    ensures Without(order, key) == order && Find(order, key).None?
  {
    if order == [] {
    } else {
      NoSuchKey(order[1..], key);
    }
  }

  lemma {:induction false} BytesAppend<V>(order: seq<Item<V>>, item: Item<V>)
    ensures Bytes(order + [item]) == Bytes(order) + item.bytes
  {
    if order == [] {
    } else {
      assert (order + [item])[1..] == order[1..] + [item];
      BytesAppend(order[1..], item);
    }
  }

  lemma {:induction false} FindAppend<V>(order: seq<Item<V>>, item: Item<V>, key: string)
    ensures Find(order + [item], key) == if Find(order, key).Some? then Find(order, key) else if item.key == key
      then Some(item) else None
  {
    if order == [] {
    } else {
      assert (order + [item])[1..] == order[1..] + [item];
      FindAppend(order[1..], item, key);
    }
  }

  // ---------------------------------------------------------------------- eviction

  /** Room is made by dropping the shortest run of least recently used items that is enough, and there always is one. */
  lemma {:induction false} MakeRoomDropsTheShortestPrefix<V>(order: seq<Item<V>>, size: nat, limits: Limits)
    requires size <= limits.bytes && 0 < limits.entries
    ensures var kept := MakeRoom(order, size, limits);
      && |kept| <= |order| && kept == order[|order| - |kept|..]
      && Fits(kept, size, limits)
      && forall k | 0 <= k < |order| - |kept| :: !Fits(order[k..], size, limits)
  {
    if order != [] && !Fits(order, size, limits) {
      MakeRoomDropsTheShortestPrefix(order[1..], size, limits);
      var kept := MakeRoom(order, size, limits);
      forall k | 0 <= k < |order| - |kept| ensures !Fits(order[k..], size, limits) {
        if k > 0 {
          assert order[1..][k - 1..] == order[k..];
        } else {
          assert order[0..] == order;
        }
      }
    }
  }

  lemma {:induction false} FindInSuffix<V>(order: seq<Item<V>>, k: nat, key: string)
    requires k <= |order| && Distinct(order)
    ensures Find(order[k..], key).Some? ==> Find(order[k..], key) == Find(order, key)
  {
    FindIsMembership(order[k..], key);
    if Find(order[k..], key).Some? {
      var x := Find(order[k..], key).value;
      var i :| 0 <= i < |order[k..]| && order[k..][i] == x;
      assert order[k + i] == x;
      FindAt(order, k + i);
    }
  }

  // ------------------------------------------------------------- what every history keeps

  lemma TouchKeeps<V>(order: seq<Item<V>>, key: string, limits: Limits)
    requires Bounded(order, limits)
    ensures Bounded(Touch(order, key), limits) && Bytes(Touch(order, key)) == Bytes(order)
    ensures forall k: string :: Find(Touch(order, key), k) == Find(order, k)
  {
    FindIsMembership(order, key);
    var hit := Find(order, key);
    if hit.Some? {
      var rest := Without(order, key);
      WithoutShrinks(order, key);
      forall j | 0 <= j < |rest| ensures rest[j].key != key {
        WithoutAt(order, key, j);
      }
      BytesAppend(rest, hit.value);
      forall k: string ensures Find(Touch(order, key), k) == Find(order, k) {
        FindAppend(rest, hit.value, k);
        WithoutFind(order, key, k);
      }
    }
  }

  lemma PutFind<V>(order: seq<Item<V>>, item: Item<V>, limits: Limits, k: string)
    requires Bounded(order, limits) && 0 < limits.entries && k != item.key
    ensures Find(Put(order, item, limits), k).Some? ==> Find(Put(order, item, limits), k) == Find(order, k)
  {
    hide Find, Without, MakeRoom;
    var rest := Without(order, item.key);
    WithoutFind(order, item.key, k);
    if item.bytes <= limits.bytes {
      WithoutShrinks(order, item.key);
      MakeRoomDropsTheShortestPrefix(rest, item.bytes, limits);
      var kept := MakeRoom(rest, item.bytes, limits);
      FindAppend(kept, item, k);
      FindInSuffix(rest, |rest| - |kept|, k);
    }
  }

  lemma PutKeeps<V>(order: seq<Item<V>>, item: Item<V>, limits: Limits)
    requires Bounded(order, limits) && 0 < limits.entries
    ensures Bounded(Put(order, item, limits), limits)
    ensures Find(Put(order, item, limits), item.key) == if item.bytes <= limits.bytes then Some(item) else None
    ensures forall k: string | k != item.key ::
      Find(Put(order, item, limits), k).Some? ==> Find(Put(order, item, limits), k) == Find(order, k)
  {
    hide Find, Without, MakeRoom;
    var rest := Without(order, item.key);
    WithoutShrinks(order, item.key);
    WithoutFind(order, item.key, item.key);
    if item.bytes <= limits.bytes {
      MakeRoomDropsTheShortestPrefix(rest, item.bytes, limits);
      var kept := MakeRoom(rest, item.bytes, limits);
      BytesAppend(kept, item);
      forall i | 0 <= i < |kept| ensures kept[i].key != item.key {
        WithoutAt(order, item.key, |rest| - |kept| + i);
      }
      NoSuchKey(kept, item.key);
      FindAppend(kept, item, item.key);
    }
    forall k: string | k != item.key
      ensures Find(Put(order, item, limits), k).Some? ==> Find(Put(order, item, limits), k) == Find(order, k)
    {
      PutFind(order, item, limits, k);
    }
  }

  /**
    After any history both limits hold, keys are distinct, and a lookup answers with the last stored value or not at
    all.
  */
  lemma {:induction false} LookupIsTheLastStoredValue<V>(ops: seq<Op<V>>, limits: Limits, key: string)
    requires 0 < limits.entries
    ensures Bounded(Exec(ops, limits), limits)
    ensures var hit := Find(Exec(ops, limits), key); hit.Some? ==> LastStored(ops, key) == Some(hit.value.value)
  {
    if ops == [] {
    } else {
      var before := ops[..|ops| - 1];
      LookupIsTheLastStoredValue(before, limits, key);
      match ops[|ops| - 1]
      case Load(k) => TouchKeeps(Exec(before, limits), k, limits);
      case Store(item) => PutKeeps(Exec(before, limits), item, limits);
    }
  }

  /** The order really is recency: the earlier an item stands, the longer ago its key was last used. */
  ghost predicate ByRecency<V>(order: seq<Item<V>>, ops: seq<Op<V>>) {
    forall i, j | 0 <= i < j < |order| :: LastUse(ops, order[i].key) < LastUse(ops, order[j].key)
  }

  /** Removing a key keeps the relative order of the others. */
  lemma {:induction false} WithoutKeepsRecency<V>(order: seq<Item<V>>, key: string, ops: seq<Op<V>>)
    requires ByRecency(order, ops)
    ensures ByRecency(Without(order, key), ops)
  {
    if order == [] {
    } else {
      WithoutKeepsRecency(order[1..], key, ops);
      var rest := Without(order[1..], key);
      forall j | 0 <= j < |rest| ensures LastUse(ops, order[0].key) < LastUse(ops, rest[j].key) {
        WithoutAt(order[1..], key, j);
      }
    }
  }

  lemma RecencyOfAppended<V>(order: seq<Item<V>>, item: Item<V>, before: seq<Op<V>>, op: Op<V>)
    requires ByRecency(order, before) && OpKey(op) == item.key
    requires forall i | 0 <= i < |order| :: order[i].key != item.key
    ensures ByRecency(order, before + [op]) && ByRecency(order + [item], before + [op])
  {
    var ops := before + [op];
    assert ops[..|before|] == before;
    assert forall i | 0 <= i < |order| :: LastUse(ops, order[i].key) == LastUse(before, order[i].key);
  }

  lemma {:induction false} EvictionIsLeastRecentlyUsed<V>(ops: seq<Op<V>>, limits: Limits)
    requires 0 < limits.entries
    ensures ByRecency(Exec(ops, limits), ops)
  {
    if ops == [] {
    } else {
      var before, op := ops[..|ops| - 1], ops[|ops| - 1];
      var order := Exec(before, limits);
      assert ops == before + [op];
      EvictionIsLeastRecentlyUsed(before, limits);
      var key := OpKey(op);
      var rest := Without(order, key);
      WithoutKeepsRecency(order, key, before);
      forall j | 0 <= j < |rest| ensures rest[j].key != key {
        WithoutAt(order, key, j);
      }
      FindIsMembership(order, key);
      match op
      case Load(_) =>
        var hit := Find(order, key);
        if hit.Some? {
          RecencyOfAppended(rest, hit.value, before, op);
        } else {
          assert forall i | 0 <= i < |order| :: LastUse(ops, order[i].key) == LastUse(before, order[i].key);
        }
      case Store(item) =>
        if item.bytes <= limits.bytes {
          MakeRoomDropsTheShortestPrefix(rest, item.bytes, limits);
          var kept := MakeRoom(rest, item.bytes, limits);
          forall i | 0 <= i < |kept| ensures kept[i].key != key {
            assert kept[i] in rest;
          }
          RecencyOfAppended(kept, item, before, op);
        } else {
          RecencyOfAppended(rest, item, before, op);
        }
    }
  }

  // ------------------------------------------------------ a list and a map kept in step

  /** The map from keys to list elements names exactly the list's items, and the counter is their total size. */
  ghost predicate Linked<V>(order: seq<Item<V>>, entries: map<string, Item<V>>, bytes: int) {
    && Distinct(order)
    && bytes == Bytes(order)
    && forall k: string :: Find(order, k) == if k in entries then Some(entries[k]) else None
  }

  lemma {:induction false} LinkedSizes<V>(order: seq<Item<V>>, entries: map<string, Item<V>>, bytes: int)
    requires Linked(order, entries, bytes)
    ensures |entries| == |order|
  {
    if order == [] {
      assert forall k: string :: Find(order, k).None? && k !in entries;
      assert entries == map[];
    } else {
      var key := order[0].key;
      assert Find(order, key) == Some(order[0]);
      NoSuchKey(order[1..], key);
      assert Linked(order[1..], entries - {key}, bytes - order[0].bytes) by {
        forall k: string ensures Find(order[1..], k) == if k in entries - {key} then Some((entries - {key})[k])
          else None {
          assert Find(order, k) == if k in entries then Some(entries[k]) else None;
        }
      }
      LinkedSizes(order[1..], entries - {key}, bytes - order[0].bytes);
    }
  }

  lemma LinkedWithout<V>(order: seq<Item<V>>, entries: map<string, Item<V>>, bytes: int, key: string)
    requires Linked(order, entries, bytes) && key in entries
    ensures Linked(Without(order, key), entries - {key}, bytes - entries[key].bytes)
  {
    assert Find(order, key) == Some(entries[key]);
    WithoutShrinks(order, key);
    forall k: string ensures Find(Without(order, key), k) == if k in entries - {key} then Some((entries - {key})[k])
      else None {
      WithoutFind(order, key, k);
    }
  }

  lemma LinkedTouch<V>(order: seq<Item<V>>, entries: map<string, Item<V>>, bytes: int, key: string, limits: Limits)
    requires Linked(order, entries, bytes) && Bounded(order, limits)
    ensures Linked(Touch(order, key), entries, bytes) && Bounded(Touch(order, key), limits)
    ensures key in entries ==> entries[key].key == key && Touch(order, key) == Without(order, key) + [entries[key]]
  {
    TouchKeeps(order, key, limits);
    FindIsMembership(order, key);
  }

  /** A key's element carries that key. */
  lemma LinkedKey<V>(order: seq<Item<V>>, entries: map<string, Item<V>>, bytes: int, key: string)
    requires Linked(order, entries, bytes)
    ensures key in entries ==> entries[key].key == key
    ensures key !in entries ==> Without(order, key) == order
    ensures Find(order, key) == if key in entries then Some(entries[key]) else None
  {
    FindIsMembership(order, key);
    if key !in entries {
      NoSuchKey(order, key);
    }
  }

  lemma LinkedAppend<V>(order: seq<Item<V>>, entries: map<string, Item<V>>, bytes: int, item: Item<V>)
    requires Linked(order, entries, bytes) && item.key !in entries
    ensures Linked(order + [item], entries[item.key := item], bytes + item.bytes)
  {
    BytesAppend(order, item);
    FindIsMembership(order, item.key);
    forall k: string ensures Find(order + [item], k) == if k in entries[item.key := item]
      then Some(entries[item.key := item][k]) else None {
      FindAppend(order, item, k);
    }
  }

  lemma FrontIsDropped<V>(order: seq<Item<V>>)
    requires order != [] && Distinct(order)
    ensures Without(order, order[0].key) == order[1..]
  {
    NoSuchKey(order[1..], order[0].key);
  }
}
