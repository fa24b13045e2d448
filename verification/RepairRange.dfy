/**
  Whether a ledger move crossed a migration that affects the builder's projections. The decision fails closed: anything
  missing or contradictory asks for the repair.
*/
module RepairRange {
  import opened Wrappers

  // One reviewed migration. A missing or non-integer count and a missing flag are `None`.
  datatype Entry = Entry(name: string, count: Option<int>, repairRequired: Option<bool>)

  // The evidence of a ledger head. `Exact` holds a version and a count and nothing else; the ids of the other two tell
  // different malformed values apart.
  datatype Ledger =
    | Malformed(id: nat)
    | Exact(version: string, count: int)
    | Odd(count: int, id: nat)

  predicate Counted(l: Ledger) {
    !l.Malformed?
  }

  // ----------------------------------------------------------------------------- the specification

  /** The entry at `i` is the only one reviewed for count `k`. */
  predicate SoleEntry(table: seq<Entry>, k: int, i: nat) {
    i < |table| && table[i].count == Some(k) && forall j | 0 <= j < |table| && j != i :: table[j].count != Some(k)
  }

  /** The ledger is exactly the head that the one entry for its count describes. */
  predicate IsHead(table: seq<Entry>, l: Ledger) {
    l.Exact? && exists i | 0 <= i < |table| :: SoleEntry(table, l.count, i) && table[i].name == l.version
  }

  /** Exactly one entry for the count, and it says outright that no repair is needed. */
  predicate ReviewedSafe(table: seq<Entry>, k: int) {
    exists i | 0 <= i < |table| :: SoleEntry(table, k, i) && table[i].repairRequired == Some(false)
  }

  /** The reviewed range starts at or below the count. */
  predicate Reached(table: seq<Entry>, n: int) {
    exists i | 0 <= i < |table| :: table[i].count.Some? && table[i].count.value <= n
  }

  predicate SkipsForward(table: seq<Entry>, before: Ledger, target: Ledger) {
    && Counted(before) && Counted(target)
    && 0 <= before.count < target.count
    && (Reached(table, before.count) ==> IsHead(table, before))
    && (forall k | before.count < k <= target.count :: ReviewedSafe(table, k))
    && IsHead(table, target)
  }

  /** The repair is skipped: the ledger did not move, or it moved forward over reviewed safe migrations only. */
  predicate Skips(table: seq<Entry>, before: Ledger, target: Ledger) {
    Counted(target) && (before == target || SkipsForward(table, before, target))
  }

  // ----------------------------------------------------------------------------- the decision

  function Reviewed(table: seq<Entry>, k: int): seq<Entry> {
    if table == [] then []
    else
      var last := table[|table| - 1];
      Reviewed(table[..|table| - 1], k) + if last.count == Some(k) then [last] else []
  }

  lemma {:induction false} ReviewedIsMembership(table: seq<Entry>, k: int)
    ensures Reviewed(table, k) == [] <==> forall i | 0 <= i < |table| :: table[i].count != Some(k)
  {
    if table == [] {
    } else {
      ReviewedIsMembership(table[..|table| - 1], k);
      assert table == table[..|table| - 1] + [table[|table| - 1]];
    }
  }

  lemma {:induction false} SoleIsReviewed(table: seq<Entry>, k: int, i: nat)
    requires SoleEntry(table, k, i)
    ensures Reviewed(table, k) == [table[i]]
  {
    var init := table[..|table| - 1];
    if i < |init| {
      assert SoleEntry(init, k, i);
      SoleIsReviewed(init, k, i);
    } else {
      ReviewedIsMembership(init, k);
    }
  }

  lemma {:induction false} OneReviewedIsSole(table: seq<Entry>, k: int) returns (i: nat)
    requires |Reviewed(table, k)| == 1
    ensures SoleEntry(table, k, i)
  {
    var init := table[..|table| - 1];
    i := |init|;
    if table[i].count == Some(k) {
      ReviewedIsMembership(init, k);
      forall j | 0 <= j < |table| && j != i
        ensures table[j].count != Some(k)
      {
        assert table[j] == init[j];
      }
    } else {
      i := OneReviewedIsSole(init, k);
      forall j | 0 <= j < |table| && j != i
        ensures table[j].count != Some(k)
      {
        assert j < |init| ==> table[j] == init[j];
      }
    }
  }

  lemma ReviewedGrows(table: seq<Entry>, n: nat, k: int)
    requires n < |table|
    ensures Reviewed(table[..n + 1], k) == Reviewed(table[..n], k) + if table[n].count == Some(k) then [table[n]]
      else []
  {
    assert table[..n + 1][..n] == table[..n];
  }

  method IndexByCount(table: seq<Entry>) returns (byCount: map<int, seq<Entry>>)
    ensures Indexes(byCount, table)
  {
    byCount := map[];
    for n := 0 to |table|
      invariant Indexes(byCount, table[..n])
    {
      var e := table[n];
      ghost var was := byCount;
      if e.count.Some? {
        var k := e.count.value;
        byCount := byCount[k := (if k in byCount then byCount[k] else []) + [e]];
      }
      IndexGrows(was, table, n, byCount);
    }
    assert table[..|table|] == table;
  }

  lemma IndexGrows(was: map<int, seq<Entry>>, table: seq<Entry>, n: nat, grown: map<int, seq<Entry>>)
    requires n < |table| && Indexes(was, table[..n])
    requires var e := table[n];
             grown == if e.count.None? then was
               else was[e.count.value := (if e.count.value in was then was[e.count.value] else []) + [e]]
    ensures Indexes(grown, table[..n + 1])
  {
    hide Reviewed;
    forall k <- grown.Keys
      ensures grown[k] == Reviewed(table[..n + 1], k) && grown[k] != []
    {
      ReviewedGrows(table, n, k);
      IndexedIsReviewed(was, table[..n], k);
    }
    forall i | 0 <= i < n + 1 && table[..n + 1][i].count.Some?
      ensures table[i].count.value in grown
    {
      assert i < n ==> table[..n][i] == table[i];
    }
  }

  predicate Indexes(byCount: map<int, seq<Entry>>, table: seq<Entry>) {
    && (forall k <- byCount.Keys :: byCount[k] == Reviewed(table, k) && byCount[k] != [])
    && (forall i | 0 <= i < |table| && table[i].count.Some? :: table[i].count.value in byCount)
  }

  lemma IndexedIsReviewed(byCount: map<int, seq<Entry>>, table: seq<Entry>, k: int)
    requires Indexes(byCount, table)
    ensures Reviewed(table, k) == if k in byCount then byCount[k] else []
  {
    ReviewedIsMembership(table, k);
  }

  /** The one entry for each count of the range, or nothing when some count has none or several. */
  method Cross(byCount: map<int, seq<Entry>>, table: seq<Entry>, from: int,
      to: int) returns (crossed: Option<seq<Entry>>)
    requires Indexes(byCount, table) && from <= to
    ensures crossed.None? ==> exists k :: from < k <= to && |Reviewed(table, k)| != 1
    ensures crossed.Some? ==> |crossed.value| == to - from && forall k | from < k <= to ::
      Reviewed(table, k) == [crossed.value[k - from - 1]]
  {
    var entries: seq<Entry> := [];
    for k := from + 1 to to + 1
      invariant |entries| == k - from - 1
      invariant forall j | from < j < k :: Reviewed(table, j) == [entries[j - from - 1]]
    {
      var reviewed := if k in byCount then byCount[k] else [];
      IndexedIsReviewed(byCount, table, k);
      if |reviewed| != 1 {
        return None;
      }
      entries := entries + [reviewed[0]];
    }
    return Some(entries);
  }

  method RequiresRepair(table: seq<Entry>, before: Ledger, target: Ledger) returns (repair: bool)
    ensures repair <==> !Skips(table, before, target)
  {
    hide ReviewedSafe, IsHead, Reviewed;
    if !Counted(target) {
      return true;
    }
    if before == target {
      return false;
    }
    if !Counted(before) {
      return true;
    }
    if before.count < 0 || before.count >= target.count {
      return true;
    }
    HeadsAreReviewed(table, before);
    HeadsAreReviewed(table, target);
    var byCount := IndexByCount(table);
    IndexedIsReviewed(byCount, table, before.count);
    IndexedIsReviewed(byCount, table, target.count);
    if byCount == map[] {
      return true;
    }
    ReachedIsAnIndexedCount(table, before.count, byCount);
    // The least reviewed count is at or below the baseline.
    if exists least <- byCount.Keys :: least <= before.count {
      var baseline := if before.count in byCount then byCount[before.count] else [];
      if |baseline| != 1 || before != Exact(baseline[0].name, before.count) {
        return true;
      }
    }
    var crossed := Cross(byCount, table, before.count, target.count);
    if crossed.None? {
      var k :| before.count < k <= target.count && |Reviewed(table, k)| != 1;
      SafeIsReviewed(table, k);
      return true;
    }
    if target != Exact(byCount[target.count][0].name, target.count) {
      return true;
    }
    repair := exists e <- crossed.value :: e.repairRequired != Some(false);
    CrossedAreSafe(table, before.count, target.count, crossed.value);
  }

  lemma CrossedAreSafe(table: seq<Entry>, from: int, to: int, crossed: seq<Entry>)
    requires from <= to && |crossed| == to - from && forall k | from < k <= to ::
      Reviewed(table, k) == [crossed[k - from - 1]]
    ensures (exists e <- crossed :: e.repairRequired != Some(false)) <==> !forall k | from < k <= to ::
      ReviewedSafe(table, k)
  {
    hide ReviewedSafe, Reviewed;
    forall k | from < k <= to
      ensures ReviewedSafe(table, k) <==> crossed[k - from - 1].repairRequired == Some(false)
    {
      SafeIsReviewed(table, k);
    }
    if e :| e in crossed && e.repairRequired != Some(false) {
      var i :| 0 <= i < |crossed| && crossed[i] == e;
      assert crossed[(from + 1 + i) - from - 1] == e;
      assert !ReviewedSafe(table, from + 1 + i);
    }
    if k :| from < k <= to && !ReviewedSafe(table, k) {
      assert crossed[k - from - 1] in crossed;
    }
  }

  lemma SafeIsReviewed(table: seq<Entry>, k: int)
    ensures ReviewedSafe(table, k) <==> |Reviewed(table, k)| == 1 && Reviewed(table, k)[0].repairRequired == Some(false)
  {
    hide Reviewed;
    if ReviewedSafe(table, k) {
      var i :| 0 <= i < |table| && SoleEntry(table, k, i) && table[i].repairRequired == Some(false);
      SoleIsReviewed(table, k, i);
    }
    if |Reviewed(table, k)| == 1 {
      var i := OneReviewedIsSole(table, k);
      SoleIsReviewed(table, k, i);
    }
  }

  lemma HeadsAreReviewed(table: seq<Entry>, l: Ledger)
    requires Counted(l)
    ensures IsHead(table, l) <==>
      && |Reviewed(table, l.count)| == 1
      && l == Exact(Reviewed(table, l.count)[0].name, l.count)
  {
    hide Reviewed;
    if IsHead(table, l) {
      var i :| 0 <= i < |table| && SoleEntry(table, l.count, i) && table[i].name == l.version;
      SoleIsReviewed(table, l.count, i);
    }
    if |Reviewed(table, l.count)| == 1 {
      var i := OneReviewedIsSole(table, l.count);
      SoleIsReviewed(table, l.count, i);
    }
  }

  lemma ReachedIsAnIndexedCount(table: seq<Entry>, n: int, byCount: map<int, seq<Entry>>)
    requires Indexes(byCount, table)
    ensures Reached(table, n) <==> exists k <- byCount.Keys :: k <= n
  {
    if i :| 0 <= i < |table| && table[i].count.Some? && table[i].count.value <= n {
      ReviewedIsMembership(table, table[i].count.value);
      assert table[i].count.value in byCount.Keys;
    }
    if k :| k in byCount.Keys && k <= n {
      ReviewedIsMembership(table, k);
    }
  }

  // ----------------------------------------------------------------------------- laws

  /** Skipping composes through any reviewed head strictly between, and decomposes there. */
  lemma SkipComposes(table: seq<Entry>, a: Ledger, b: Ledger, c: Ledger)
    requires IsHead(table, b)
    requires Counted(a) ==> a.count < b.count
    requires Counted(c) ==> b.count < c.count
    ensures Skips(table, a, c) <==> Skips(table, a, b) && Skips(table, b, c)
  {
  }

  /** Two skipped moves are one skipped move, whatever lies between them. */
  lemma SkipIsTransitive(table: seq<Entry>, a: Ledger, b: Ledger, c: Ledger)
    requires Skips(table, a, b) && Skips(table, b, c)
    ensures Skips(table, a, c)
  {
  }

  /** A skipped move that is not a standstill leaves no count unreviewed, doubly reviewed or unmarked. */
  lemma SkippedCountsAreReviewedOnce(table: seq<Entry>, a: Ledger, c: Ledger, k: int)
    requires Skips(table, a, c) && a != c
    requires a.count < k <= c.count
    ensures |Reviewed(table, k)| == 1 && Reviewed(table, k)[0].repairRequired == Some(false)
    ensures |Reviewed(table, c.count)| == 1 && c == Exact(Reviewed(table, c.count)[0].name, c.count)
  {
    SafeIsReviewed(table, k);
    SafeIsReviewed(table, c.count);
    HeadsAreReviewed(table, c);
  }

  /** Skipping never moves the ledger backwards, and two ledgers that skip to one another are the same. */
  lemma SkipIsAntisymmetric(table: seq<Entry>, a: Ledger, b: Ledger)
    requires Skips(table, a, b) && Skips(table, b, a)
    ensures a == b
  {
  }
}
