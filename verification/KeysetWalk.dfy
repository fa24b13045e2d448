/**
  The failure-ledger census: pages of one read-only snapshot, keyed by the primary key, added up until the cursor is
  exhausted. The reference is one fold over the whole table.
*/
module KeysetWalk {
  import opened Wrappers

  const PAGE_ROWS := 2000
  const SOURCE_ROWS := 10000
  const DETAIL_ROWS := 250000

  // A ledger row: its place in the key order, whether its JSON is small enough to read, and what it adds to the totals.
  datatype Row = Row(id: int, withinJsonBudget: bool, current: bool, observations: int, unbalanced: bool, modern: bool)

  datatype Result = Pass | Fail | Other

  datatype Source = Source(result: Result, observations: int)

  // What the session sees: the table in key order, the evidence rows, the number of samples, and the schema facts.
  datatype Snapshot = Snapshot(table: seq<Row>, source: seq<Source>, samples: nat, indexed: bool, modernColumns: bool)

  predicate Keyed(table: seq<Row>) {
    forall i, j | 0 <= i < j < |table| :: table[i].id < table[j].id
  }

  datatype Sums = Sums(rows: nat, currentRows: nat, observations: int, unbalanced: nat, modern: nat)

  const ZERO := Sums(0, 0, 0, 0, 0)

  function Plus(a: Sums, b: Sums): Sums {
    Sums(a.rows + b.rows, a.currentRows + b.currentRows, a.observations + b.observations, a.unbalanced + b.unbalanced,
      a.modern + b.modern)
  }

  function One(r: Row, modern: bool): Sums {
    var current := r.current && r.withinJsonBudget;
    Sums(1, if current then 1 else 0, if current then r.observations else 0, if current && r.unbalanced then 1
      else 0, if modern && r.modern then 1 else 0)
  }

  /** One fold over rows. */
  function Tally(rows: seq<Row>, modern: bool): Sums {
    if rows == [] then ZERO else Plus(Tally(rows[..|rows| - 1], modern), One(rows[|rows| - 1], modern))
  }

  predicate AllReadable(rows: seq<Row>) {
    forall r <- rows :: r.withinJsonBudget
  }

  function SumOf(source: seq<Source>, result: Result): int {
    if source == [] then 0
    else SumOf(source[..|source| - 1], result) + if source[|source| - 1].result == result
      then source[|source| - 1].observations else 0
  }

  // ----------------------------------------------------------------------------- the queries

  datatype Page = Page(sums: Sums, cursor: Option<int>, withinJsonBudget: bool)

  function After(table: seq<Row>, cursor: Option<int>): seq<Row> {
    if table == [] then []
    else if cursor.None? || table[0].id > cursor.value then [table[0]] + After(table[1..], cursor)
    else After(table[1..], cursor)
  }

  function Limited<T>(rows: seq<T>, limit: nat): seq<T> {
    if |rows| <= limit then rows else rows[..limit]
  }

  /** The rows beyond the cursor in key order, up to a page of them, and their sums. */
  function PageOf(table: seq<Row>, cursor: Option<int>, modern: bool): Page {
    var rows := Limited(After(table, cursor), PAGE_ROWS);
    Page(Tally(rows, modern), if rows == [] then None else Some(rows[|rows| - 1].id), AllReadable(rows))
  }

  // ----------------------------------------------------------------------------- the walk

  datatype Mode = Plain | Settled | Extended

  datatype Detail = Detail(pass: int, fail: int, modernAvailable: bool)

  datatype Total = Total(sums: Sums, pages: nat, maxPageRows: nat, sourceRows: nat, fail: Option<int>,
      detail: Option<Detail>)

  datatype Measured = Measured(total: Total) | Unmeasured | BudgetExceeded

  function Min(a: nat, b: nat): nat {
    if a <= b then a else b
  }

  function PagesNeeded(n: nat): nat {
    n / PAGE_ROWS + 1
  }

  /** Queries a complete walk makes: the index, the pages, and one more where the mode asks for it. */
  function QueriesNeeded(s: Snapshot, mode: Mode): nat {
    1 + PagesNeeded(|s.table|) + if mode.Extended? || (mode.Settled? && Tally(s.table, false).currentRows == 0) then 1
      else 0
  }

  predicate Measurable(s: Snapshot, mode: Mode, answered: nat) {
    && s.indexed && AllReadable(s.table)
    && QueriesNeeded(s, mode) <= answered
    && (mode.Settled? && Tally(s.table, false).currentRows == 0 ==> |s.source| <= SOURCE_ROWS)
    && (mode.Extended? ==> |s.source| <= DETAIL_ROWS && s.samples <= DETAIL_ROWS)
  }

  /** The totals of the whole table, whatever the paging. */
  function Census(s: Snapshot, mode: Mode): Total {
    var modern := mode.Extended? && s.modernColumns;
    var empty := mode.Settled? && Tally(s.table, false).currentRows == 0;
    Total(Tally(s.table, modern), PagesNeeded(|s.table|), Min(|s.table|, PAGE_ROWS), if empty then |s.source| else 0,
          if empty then Some(SumOf(s.source, Fail)) else None,
          if mode.Extended? then Some(Detail(SumOf(s.source, Pass), SumOf(s.source, Fail), modern)) else None)
  }

  lemma TallyOfNothing(modern: bool)
    ensures Tally([], modern) == ZERO
  {
  }

  lemma TallyGrows(rows: seq<Row>, last: Row, modern: bool)
    ensures Tally(rows + [last], modern) == Plus(Tally(rows, modern), One(last, modern))
  {
    assert (rows + [last])[..|rows|] == rows;
  }

  lemma {:induction false} TallyAppends(a: seq<Row>, b: seq<Row>, modern: bool)
    ensures Tally(a + b, modern) == Plus(Tally(a, modern), Tally(b, modern))
  {
    hide One, Tally;
    if b == [] {
      assert a + b == a;
      TallyOfNothing(modern);
    } else {
      var init, last := b[..|b| - 1], b[|b| - 1];
      TallyAppends(a, init, modern);
      TallyGrows(a + init, last, modern);
      TallyGrows(init, last, modern);
      assert a + b == (a + init) + [last] && b == init + [last];
    }
  }

  lemma {:induction false} TallyCountsRows(rows: seq<Row>, modern: bool)
    ensures Tally(rows, modern).rows == |rows|
    ensures Tally(rows, modern).currentRows == Tally(rows, false).currentRows
  {
    if rows == [] {
    } else {
      TallyCountsRows(rows[..|rows| - 1], modern);
    }
  }

  lemma {:induction false} AfterNothing(table: seq<Row>)
    ensures After(table, None) == table
  {
    if table == [] {
    } else {
      AfterNothing(table[1..]);
    }
  }

  lemma {:induction false} AllBeyond(table: seq<Row>, cursor: int)
    requires forall r <- table :: r.id > cursor
    ensures After(table, Some(cursor)) == table
  {
    if table == [] {
    } else {
      AllBeyond(table[1..], cursor);
    }
  }

  /** The keyset condition at a row's key selects exactly the rows behind it. */
  lemma {:induction false} AfterRow(table: seq<Row>, k: nat)
    requires Keyed(table) && k < |table|
    ensures After(table, Some(table[k].id)) == table[k + 1..]
  {
    if k == 0 {
      AllBeyond(table[1..], table[0].id);
    } else {
      AfterRow(table[1..], k - 1);
      assert table[1..][k - 1] == table[k];
      assert table[1..][k..] == table[k + 1..];
    }
  }

  /** Where the walk stands after `done` rows. */
  predicate Stands(table: seq<Row>, cursor: Option<int>, done: nat) {
    done <= |table| && if done == 0 then cursor.None? else cursor == Some(table[done - 1].id)
  }

  lemma PageIs(table: seq<Row>, cursor: Option<int>, done: nat, modern: bool)
    requires Keyed(table) && Stands(table, cursor, done)
    ensures var next := Min(done + PAGE_ROWS, |table|);
            PageOf(table, cursor, modern)
            == Page(Tally(table[done..next], modern), if next == done then None
              else Some(table[next - 1].id), AllReadable(table[done..next]))
  {
    hide After, Tally, AllReadable;
    var next := Min(done + PAGE_ROWS, |table|);
    RowsLeft(table, cursor, done);
    assert Limited(table[done..], PAGE_ROWS) == table[done..next];
  }

  lemma NextPage(table: seq<Row>, cursor: Option<int>, done: nat, modern: bool)
    requires Keyed(table) && Stands(table, cursor, done)
    ensures var next := Min(done + PAGE_ROWS, |table|);
            var page := PageOf(table, cursor, modern);
            && page.sums.rows == next - done
            && Plus(Tally(table[..done], modern), page.sums) == Tally(table[..next], modern)
            && (page.withinJsonBudget <==> AllReadable(table[done..next]))
            && (next > done ==> Stands(table, page.cursor, next) && page.cursor != cursor)
  {
    hide PageOf, Tally, AllReadable;
    var next := Min(done + PAGE_ROWS, |table|);
    PageIs(table, cursor, done, modern);
    TallyCountsRows(table[done..next], modern);
    TallyAppends(table[..done], table[done..next], modern);
    assert table[..done] + table[done..next] == table[..next];
  }

  lemma RowsLeft(table: seq<Row>, cursor: Option<int>, done: nat)
    requires Keyed(table) && Stands(table, cursor, done)
    ensures After(table, cursor) == table[done..]
  {
    if done == 0 {
      AfterNothing(table);
    } else {
      AfterRow(table, done - 1);
    }
  }

  lemma ReadableParts(table: seq<Row>, from: nat, to: nat)
    requires from <= to <= |table|
    ensures AllReadable(table[..to]) <==> AllReadable(table[..from]) && AllReadable(table[from..to])
    ensures AllReadable(table) ==> AllReadable(table[..to])
  {
    assert table[..to] == table[..from] + table[from..to];
    assert table == table[..to] + table[to..];
  }

  /** The session answers the first `answered` queries; after that its time is spent. */
  method Walk(s: Snapshot, mode: Mode, answered: nat) returns (r: Measured)
    requires Keyed(s.table)
    ensures r.Measured? <==> Measurable(s, mode, answered)
    ensures r.Measured? ==> r.total == Census(s, mode)
  {
    hide PageOf, Tally, SumOf, AllReadable, Keyed;
    if answered == 0 || !s.indexed {
      return Unmeasured;
    }
    var modern := mode.Extended? && s.modernColumns;
    var sums, pages, maxPageRows := ZERO, 0, 0;
    var cursor: Option<int> := None;
    ghost var done := 0;
    NothingYet(s.table, modern);
    while true
      invariant Stands(s.table, cursor, done) && done == pages * PAGE_ROWS
      invariant sums == Tally(s.table[..done], modern) && AllReadable(s.table[..done])
      invariant maxPageRows == Min(done, PAGE_ROWS)
      decreases |s.table| - done
    {
      if answered <= 1 + pages {
        PagesLeft(|s.table|, pages);
        return BudgetExceeded;
      }
      var page := PageOf(s.table, cursor, modern);
      NextPage(s.table, cursor, done, modern);
      ghost var next := Min(done + PAGE_ROWS, |s.table|);
      ReadableParts(s.table, done, next);
      var rows := page.sums.rows;
      if rows > PAGE_ROWS || !page.withinJsonBudget {
        return BudgetExceeded;
      }
      pages := pages + 1;
      if maxPageRows < rows {
        maxPageRows := rows;
      }
      sums := Plus(sums, page.sums);
      done := next;
      if rows < PAGE_ROWS {
        break;
      }
      if page.cursor.None? || page.cursor == cursor {
        return Unmeasured;
      }
      cursor := page.cursor;
    }
    assert s.table[..done] == s.table;
    r := Finish(s, mode, answered, modern, sums, pages, maxPageRows);
  }

  lemma NothingYet(table: seq<Row>, modern: bool)
    ensures Tally(table[..0], modern) == ZERO && AllReadable(table[..0])
  {
  }

  lemma PagesLeft(n: nat, pages: nat)
    requires pages * PAGE_ROWS <= n
    ensures pages < PagesNeeded(n)
  {
  }

  method Finish(s: Snapshot, mode: Mode, answered: nat, modern: bool, sums: Sums, pages: nat,
      maxPageRows: nat) returns (r: Measured)
    requires s.indexed && AllReadable(s.table) && modern == (mode.Extended? && s.modernColumns)
    requires sums == Tally(s.table, modern) && pages == PagesNeeded(|s.table|)
      && maxPageRows == Min(|s.table|, PAGE_ROWS)
    requires 1 + pages <= answered
    ensures r.Measured? <==> Measurable(s, mode, answered)
    ensures r.Measured? ==> r.total == Census(s, mode)
  {
    TallyCountsRows(s.table, modern);
    var total := Total(sums, pages, maxPageRows, 0, None, None);
    if mode.Settled? && sums.currentRows == 0 {
      if answered <= 1 + pages {
        return BudgetExceeded;
      }
      var source := Limited(s.source, SOURCE_ROWS + 1);
      if |source| > SOURCE_ROWS {
        return BudgetExceeded;
      }
      total := total.(sourceRows := |source|, fail := Some(SumOf(source, Fail)));
    }
    if mode.Extended? {
      if answered <= 1 + pages {
        return BudgetExceeded;
      }
      var source := Limited(s.source, DETAIL_ROWS + 1);
      if |source| > DETAIL_ROWS || Min(s.samples, DETAIL_ROWS + 1) > DETAIL_ROWS {
        return BudgetExceeded;
      }
      total := total.(detail := Some(Detail(SumOf(source, Pass), SumOf(source, Fail), modern)));
    }
    return Measured(total);
  }

  // ----------------------------------------------------------------------------- laws of the census

  function Current(rows: seq<Row>): seq<Row> {
    if rows == [] then []
    else Current(rows[..|rows| - 1]) + if rows[|rows| - 1].current then [rows[|rows| - 1]] else []
  }

  function Unbalanced(rows: seq<Row>): seq<Row> {
    if rows == [] then []
    else Unbalanced(rows[..|rows| - 1]) + if rows[|rows| - 1].unbalanced then [rows[|rows| - 1]] else []
  }

  function Modern(rows: seq<Row>): seq<Row> {
    if rows == [] then []
    else Modern(rows[..|rows| - 1]) + if rows[|rows| - 1].modern then [rows[|rows| - 1]] else []
  }

  function ObservationsOf(rows: seq<Row>): int {
    if rows == [] then 0 else ObservationsOf(rows[..|rows| - 1]) + rows[|rows| - 1].observations
  }

  lemma {:induction false} TallyIsExact(rows: seq<Row>, modern: bool)
    requires AllReadable(rows)
    ensures var t := Tally(rows, modern);
            && t.currentRows == |Current(rows)| && t.observations == ObservationsOf(Current(rows))
            && t.unbalanced == |Unbalanced(Current(rows))|
            && t.modern == if modern then |Modern(rows)| else 0
  {
    if rows == [] {
    } else {
      var init, last := rows[..|rows| - 1], rows[|rows| - 1];
      assert AllReadable(init) && last in rows;
      TallyIsExact(init, modern);
      if last.current {
        assert (Current(init) + [last])[..|Current(init)|] == Current(init);
      } else {
        assert Current(init) + [] == Current(init);
      }
    }
  }

  /** Counting is exact: every row once, and each category by the rows that are in it. */
  lemma CensusCountsEveryRowOnce(s: Snapshot, mode: Mode)
    requires AllReadable(s.table)
    ensures var t := Census(s, mode);
            && t.sums.rows == |s.table|
            && t.sums.currentRows == |Current(s.table)| && t.sums.observations == ObservationsOf(Current(s.table))
            && t.sums.unbalanced == |Unbalanced(Current(s.table))|
            && t.sums.modern == (if mode.Extended? && s.modernColumns then |Modern(s.table)| else 0)
            && t.pages * 2000 > t.sums.rows >= (t.pages - 1) * 2000
  {
    var modern := mode.Extended? && s.modernColumns;
    TallyCountsRows(s.table, modern);
    TallyIsExact(s.table, modern);
  }
}
