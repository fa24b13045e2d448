/** The decoded-artifact cache: a recency list, a map into it and a byte counter, changed in place. */
module SampleArtifactCache {
  import opened Wrappers
  import opened BoundedCache

  const LIMITS: Limits := Limits(32 * 1024 * 1024, 512)

  datatype SourceFile = SourceFile(name: string, body: string)

  // Slices are charged for their capacity, which is at least their length.
  datatype Artifact = Artifact(at: int, files: seq<string>, fileCap: nat, source: seq<SourceFile>, sourceCap: nat)

  function FileBytes(files: seq<string>): nat {
    if files == [] then 0 else |files[0]| + FileBytes(files[1..])
  }

  function SourceBytes(source: seq<SourceFile>): nat {
    if source == [] then 0 else |source[0].name| + |source[0].body| + SourceBytes(source[1..])
  }

  function Size(id: string, a: Artifact): nat {
    256 + |id| + 16 * a.fileCap + 48 * a.sourceCap + FileBytes(a.files) + SourceBytes(a.source)
  }

  method ComputeSize(id: string, a: Artifact) returns (size: nat)
    ensures size == Size(id, a)
  {
    size := 256 + |id| + 16 * a.fileCap + 48 * a.sourceCap;
    var i := 0;
    while i < |a.files|
      invariant 0 <= i <= |a.files|
      invariant size + FileBytes(a.files[i..]) == 256 + |id| + 16 * a.fileCap + 48 * a.sourceCap + FileBytes(a.files)
    {
      assert a.files[i..][1..] == a.files[i + 1..];
      size := size + |a.files[i]|;
      i := i + 1;
    }
    i := 0;
    while i < |a.source|
      invariant 0 <= i <= |a.source|
      invariant size + SourceBytes(a.source[i..]) == Size(id, a)
    {
      assert a.source[i..][1..] == a.source[i + 1..];
      size := size + |a.source[i].name| + |a.source[i].body|;
      i := i + 1;
    }
  }

  class Cache {
    var order: seq<Item<Artifact>>          // front is least recently used
    var entries: map<string, Item<Artifact>>
    var bytes: int

    ghost predicate Valid()
      reads this
    {
      Linked(order, entries, bytes) && Bounded(order, LIMITS)
    }

    constructor ()
      ensures Valid() && order == []
    {
      order, entries, bytes := [], map[], 0;
    }

    method Load(id: string) returns (value: Option<Artifact>)
      requires Valid()
      modifies this
      ensures Valid() && order == Touch(old(order), id)
      ensures value == var hit := Find(old(order), id); if hit.Some? then Some(hit.value.value) else None
    {
      LinkedKey(order, entries, bytes, id);
      if id !in entries {
        return None;
      }
      var element := entries[id];
      LinkedTouch(order, entries, bytes, id, LIMITS);
      order := RemoveElement(order, element) + [element];
      return Some(element.value);
    }

    method Store(id: string, value: Artifact)
      requires Valid()
      modifies this
      ensures Valid() && order == Put(old(order), Item(id, value, Size(id, value)), LIMITS)
    {
      var size := ComputeSize(id, value);
      LinkedKey(order, entries, bytes, id);
      PutKeeps(order, Item(id, value, size), LIMITS);
      Remove(if id in entries then Some(entries[id]) else None);
      if size > LIMITS.bytes {
        return;
      }
      EvictFor(size);
      LinkedAppend(order, entries, bytes, Item(id, value, size));
      order := order + [Item(id, value, size)];
      entries := entries[id := Item(id, value, size)];
      bytes := bytes + size;
    }

    /** The eviction loop: it stops, and it never reaches for the front of an empty list. */
    method EvictFor(size: nat)
      requires Valid() && size <= LIMITS.bytes
      modifies this
      ensures Valid() && order == MakeRoom(old(order), size, LIMITS)
      ensures entries.Keys <= old(entries.Keys)
    {
      LinkedSizes(order, entries, bytes);
      while bytes + size > LIMITS.bytes || |entries| >= LIMITS.entries
        invariant Valid() && |entries| == |order| && entries.Keys <= old(entries.Keys)
        invariant MakeRoom(order, size, LIMITS) == MakeRoom(old(order), size, LIMITS)
        decreases |order|
      {
        FrontIsDropped(order);
        LinkedKey(order, entries, bytes, order[0].key);
        Remove(Some(order[0]));
        LinkedSizes(order, entries, bytes);
      }
    }

    /** Unlinks one element; the absent element is left alone. */
    method Remove(element: Option<Item<Artifact>>)
      requires Valid()
      requires element.Some? ==> element.value.key in entries && entries[element.value.key] == element.value
      modifies this
      ensures Valid()
      ensures order == if element.Some? then Without(old(order), element.value.key) else old(order)
      ensures entries == if element.Some? then old(entries) - {element.value.key} else old(entries)
    {
      if element.None? {
        return;
      }
      LinkedWithout(order, entries, bytes, element.value.key);
      LinkedKey(order, entries, bytes, element.value.key);
      WithoutShrinks(order, element.value.key);
      entries := entries - {element.value.key};
      order := RemoveElement(order, element.value);
      bytes := bytes - element.value.bytes;
    }
  }

  /** Unlinking by element identity: keys are distinct, so it is unlinking by key. */
  function RemoveElement(order: seq<Item<Artifact>>, element: Item<Artifact>): (r: seq<Item<Artifact>>)
    ensures Distinct(order) && Find(order, element.key) == Some(element) ==> r == Without(order, element.key)
  {
    if order == [] then []
    else if order[0] == element then
      (if Distinct(order) then FrontIsDropped(order); order[1..] else order[1..])
    else [order[0]] + RemoveElement(order[1..], element)
  }
}
