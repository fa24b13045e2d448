/**
  The failure-cluster page cache keeps its payloads in a map of its own, beside the recency list and the map into that
  list. It is proved to be the same cache: what a reader sees is the bounded cache's order.
*/
module FailureClusterCache {
  import opened Wrappers
  import opened BoundedCache

  const LIMITS: Limits := Limits(64 * 1024 * 1024, 1024)

  datatype Page = Page(at: int, docs: seq<string>, docCap: nat, matched: int)

  function DocBytes(docs: seq<string>): nat {
    if docs == [] then 0 else |docs[0]| + DocBytes(docs[1..])
  }

  function Size(key: string, page: Page): nat {
    256 + |key| + 16 * page.docCap + DocBytes(page.docs)
  }

  /** Untrusted document lengths saturate instead of being summed: the result is exact unless both exceed the limit. */
  method SaturatedSize(key: string, page: Page) returns (size: nat)
    ensures size == Size(key, page) || (size > LIMITS.bytes && Size(key, page) > LIMITS.bytes)
  {
    size := 256 + |key| + 16 * page.docCap;
    var i := 0;
    while i < |page.docs|
      invariant 0 <= i <= |page.docs|
      invariant size + DocBytes(page.docs[i..]) == Size(key, page)
    {
      assert page.docs[i..][1..] == page.docs[i + 1..];
      var doc := page.docs[i];
      if size > LIMITS.bytes || |doc| > LIMITS.bytes - size {
        size := LIMITS.bytes + 1;
        break;
      }
      size := size + |doc|;
      i := i + 1;
    }
  }

  // ------------------------------------------------------------ the list with its payloads

  /** The list carries keys and sizes only; a payload is found by its key. */
  function Lift(order: seq<Item<()>>, pages: map<string, Page>): seq<Item<Page>> {
    if order == [] then []
    else [Item(order[0].key, PageOf(pages, order[0].key), order[0].bytes)] + Lift(order[1..], pages)
  }

  function PageOf(pages: map<string, Page>, key: string): Page {
    if key in pages then pages[key] else Page(0, [], 0, 0)
  }

  lemma {:induction false} LiftFacts(order: seq<Item<()>>, pages: map<string, Page>)
    ensures |Lift(order, pages)| == |order| && Bytes(Lift(order, pages)) == Bytes(order)
    ensures forall i | 0 <= i < |order| ::
      Lift(order, pages)[i] == Item(order[i].key, PageOf(pages, order[i].key), order[i].bytes)
  {
    if order == [] {
    } else {
      LiftFacts(order[1..], pages);
    }
  }

  lemma {:induction false} LiftFind(order: seq<Item<()>>, pages: map<string, Page>, key: string)
    ensures Find(Lift(order, pages), key)
         == var hit := Find(order, key); if hit.Some? then Some(Item(key, PageOf(pages, key), hit.value.bytes))
           else None
  {
    if order == [] {
    } else {
      LiftFind(order[1..], pages, key);
    }
  }

  lemma {:induction false} LiftWithout(order: seq<Item<()>>, pages: map<string, Page>, key: string)
    ensures Lift(Without(order, key), pages - {key}) == Without(Lift(order, pages), key)
  {
    if order == [] {
    } else {
      LiftWithout(order[1..], pages, key);
    }
  }

  lemma {:induction false} LiftAppend(order: seq<Item<()>>, pages: map<string, Page>, key: string, page: Page,
      bytes: nat)
    requires forall i | 0 <= i < |order| :: order[i].key != key
    ensures Lift(order + [Item(key, (), bytes)], pages[key := page]) == Lift(order, pages) + [Item(key, page, bytes)]
  {
    if order == [] {
    } else {
      assert (order + [Item(key, (), bytes)])[1..] == order[1..] + [Item(key, (), bytes)];
      LiftAppend(order[1..], pages, key, page, bytes);
    }
  }

  lemma LiftTouch(order: seq<Item<()>>, pages: map<string, Page>, key: string)
    requires Find(order, key).Some?
    ensures Lift(Touch(order, key), pages) == Touch(Lift(order, pages), key)
  {
    FindIsMembership(order, key);
    LiftFind(order, pages, key);
    var rest, hit := Without(order, key), Find(order, key).value;
    forall i | 0 <= i < |rest| ensures rest[i].key != key {
      WithoutAt(order, key, i);
    }
    assert hit == Item(key, (), hit.bytes) by {
      assert hit.value == ();
    }
    LiftWithout(order, pages, key);
    LiftAppend(rest, pages - {key}, key, PageOf(pages, key), hit.bytes);
    LiftIgnoresOthers(rest + [hit], pages, (pages - {key})[key := PageOf(pages, key)]);
  }

  lemma {:induction false} LiftIgnoresOthers(order: seq<Item<()>>, pages: map<string, Page>, others: map<string, Page>)
    requires forall i | 0 <= i < |order| :: PageOf(pages, order[i].key) == PageOf(others, order[i].key)
    ensures Lift(order, pages) == Lift(order, others)
  {
    if order == [] {
    } else {
      LiftIgnoresOthers(order[1..], pages, others);
    }
  }

  // ------------------------------------------------------------------------- the cache

  class Cache {
    var pages: map<string, Page>
    var order: seq<Item<()>>
    var entries: map<string, Item<()>>
    var bytes: int

    ghost predicate Valid()
      reads this
    {
      Linked(order, entries, bytes) && Bounded(order, LIMITS) && pages.Keys == entries.Keys
    }

    /** What readers see, least recently used first. */
    ghost function Contents(): seq<Item<Page>>
      reads this
    {
      Lift(order, pages)
    }

    constructor ()
      ensures Valid() && Contents() == []
    {
      pages, order, entries, bytes := map[], [], map[], 0;
    }

    method LoadPage(key: string) returns (value: Option<Page>)
      requires Valid()
      modifies this
      ensures Valid() && Contents() == Touch(old(Contents()), key)
      ensures value == var hit := Find(old(Contents()), key); if hit.Some? then Some(hit.value.value) else None
    {
      LinkedKey(order, entries, bytes, key);
      LiftFind(order, pages, key);
      if key !in pages {
        return None;
      }
      var page := pages[key];
      if key in entries {
        LinkedTouch(order, entries, bytes, key, LIMITS);
        LiftTouch(order, pages, key);
        order := Without(order, key) + [entries[key]];
      }
      return Some(page);
    }

    /** Eviction takes the payload, the map entry, the list element and the size together. */
    method EvictPage(key: string)
      requires Valid()
      modifies this
      ensures Valid() && order == Without(old(order), key)
      ensures pages == old(pages) - {key} && entries == old(entries) - {key}
      ensures Contents() == Without(old(Contents()), key)
    {
      LinkedKey(order, entries, bytes, key);
      LiftWithout(order, pages, key);
      pages := pages - {key};
      if key !in entries {
        return;
      }
      LinkedWithout(order, entries, bytes, key);
      WithoutShrinks(order, key);
      bytes := bytes - entries[key].bytes;
      order := Without(order, key);
      entries := entries - {key};
    }

    method EvictFor(size: nat)
      requires Valid() && size <= LIMITS.bytes
      modifies this
      ensures Valid() && Contents() == MakeRoom(old(Contents()), size, LIMITS)
      ensures entries.Keys <= old(entries.Keys)
    {
      LinkedSizes(order, entries, bytes);
      while bytes + size > LIMITS.bytes || |entries| >= LIMITS.entries
        invariant Valid() && |entries| == |order| && entries.Keys <= old(entries.Keys)
        invariant MakeRoom(Contents(), size, LIMITS) == MakeRoom(old(Contents()), size, LIMITS)
        decreases |order|
      {
        LiftFacts(order, pages);
        FrontIsDropped(order);
        FrontIsDropped(Contents());
        assert Contents()[0].key == order[0].key;
        EvictPage(order[0].key);
        LinkedSizes(order, entries, bytes);
      }
      LiftFacts(order, pages);
    }

    method CachePage(key: string, page: Page)
      requires Valid()
      modifies this
      ensures Valid() && Contents() == Put(old(Contents()), Item(key, page, Size(key, page)), LIMITS)
    {
      var size := SaturatedSize(key, page);
      EvictPage(key);
      if size > LIMITS.bytes {
        return;
      }
      EvictFor(size);
      ghost var item := Item(key, (), size);
      LinkedKey(order, entries, bytes, key);
      FindIsMembership(order, key);
      LinkedAppend(order, entries, bytes, item);
      BytesAppend(order, item);
      LiftFacts(order, pages);
      LiftAppend(order, pages, key, page, size);
      RoomWasMade(old(Contents()), key, Contents(), size);
      order := order + [Item(key, (), size)];
      entries := entries[key := Item(key, (), size)];
      pages := pages[key := page];
      bytes := bytes + size;
    }
  }

  lemma RoomWasMade(before: seq<Item<Page>>, key: string, kept: seq<Item<Page>>, size: nat)
    requires size <= LIMITS.bytes && kept == MakeRoom(Without(before, key), size, LIMITS)
    ensures Fits(kept, size, LIMITS)
  {
    MakeRoomDropsTheShortestPrefix(Without(before, key), size, LIMITS);
  }
}
