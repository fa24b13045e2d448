/**
  Merging the files' aggregates into the report, and what the report then says about the lines themselves.
*/
module AccessReport {
  import opened Wrappers
  import opened AccessLog

  // Per-day counters oldest day first, the counters over all days, and what the files disclose about themselves.
  datatype Metrics = Metrics(days: seq<Day>, overall: Day, oldest: Option<nat>, newest: Option<nat>, malformed: nat,
      oversize: nat, daysWithRequests: nat)

  function FirstDay(now: nat): int {
    now / DAY - (WINDOW_DAYS - 1)
  }

  function WindowAt(now: nat): Window {
    Window(FirstDay(now) * DAY, now)
  }

  // ----------------------------------------------------------------------------- the specification

  function FilesCell(files: seq<File>, day: int, slot: Slot, b: Band): nat {
    if files == [] then 0
    else FilesCell(files[..|files| - 1], day, slot, b) + FileCell(files[|files| - 1].days, day, slot, b)
  }

  function SumDays(days: seq<Day>, slot: Slot, b: Band): nat {
    if days == [] then 0 else SumDays(days[..|days| - 1], slot, b) + Cell(days[|days| - 1], slot, b)
  }

  function Busy(days: seq<Day>): nat {
    if days == [] then 0 else Busy(days[..|days| - 1]) + Bit(days[|days| - 1].total.requests > 0)
  }

  // What the files say beside their days.
  datatype Disclosure = Disclosure(oldest: Option<nat>, newest: Option<nat>, malformed: nat, oversize: nat)

  function Disclosed(files: seq<File>): Disclosure {
    if files == [] then Disclosure(None, None, 0, 0)
    else
      var d, f := Disclosed(files[..|files| - 1]), files[|files| - 1];
      Disclosure(Earlier(d.oldest, f.oldest), Later(d.newest, f.newest), d.malformed + f.malformed,
        d.oversize + f.oversize)
  }

  predicate AllShaped(days: seq<Day>) {
    forall d <- days :: Shaped(d)
  }

  ghost predicate Balanced(overall: Day, days: seq<Day>) {
    Shaped(overall) && forall slot, b :: Cell(overall, slot, b) == SumDays(days, slot, b)
  }

  ghost predicate Holds(days: seq<Day>, first: int, files: seq<File>) {
    && |days| == WINDOW_DAYS && AllShaped(days)
    && forall i, slot, b | 0 <= i < |days| :: Cell(days[i], slot, b) == FilesCell(files, first + i, slot, b)
  }

  ghost predicate IsCombination(m: Metrics, first: int, files: seq<File>) {
    && Holds(m.days, first, files) && Balanced(m.overall, m.days)
    && Disclosure(m.oldest, m.newest, m.malformed, m.oversize) == Disclosed(files)
    && m.daysWithRequests == Busy(m.days)
  }

  // ----------------------------------------------------------------------------- merging

  lemma {:induction false} SumDaysUpdate(days: seq<Day>, i: nat, d: Day, slot: Slot, b: Band)
    requires i < |days|
    ensures SumDays(days[i := d], slot, b) == SumDays(days, slot, b) - Cell(days[i], slot, b) + Cell(d, slot, b)
  {
    var n := |days| - 1;
    if i < n {
      SumDaysUpdate(days[..n], i, d, slot, b);
      assert days[i := d][..n] == days[..n][i := d];
    } else {
      assert days[i := d][..n] == days[..n];
    }
  }

  lemma MergeKeepsBalance(overall: Day, days: seq<Day>, i: nat, d: Day)
    requires i < |days| && Shaped(d) && AllShaped(days) && Balanced(overall, days)
    ensures Balanced(DayMerged(overall, d), days[i := DayMerged(days[i], d)])
  {
    hide Cell, SumDays, DayMerged;
    forall slot, b
      ensures Cell(DayMerged(overall, d), slot, b) == SumDays(days[i := DayMerged(days[i], d)], slot, b)
    {
      SumDaysUpdate(days, i, DayMerged(days[i], d), slot, b);
    }
  }

  /** The days after the dates of `done` have been merged from one more file. */
  ghost predicate Merging(days: seq<Day>, before: seq<Day>, first: int, file: File, done: set<int>) {
    && |days| == |before| && AllShaped(days)
    && forall i, slot, b | 0 <= i < |days| ::
         Cell(days[i], slot, b) == Cell(before[i], slot, b) + if first + i in done
           then FileCell(file.days, first + i, slot, b) else 0
  }

  lemma MergingOne(days: seq<Day>, before: seq<Day>, first: int, file: File, done: set<int>, date: int, i: int)
    requires Merging(days, before, first, file, done) && date !in done && date in file.days && DaysShaped(file.days)
    requires i == date - first
    ensures 0 <= i < |days| ==>
      Merging(days[i := DayMerged(days[i], file.days[date])], before, first, file, done + {date})
    ensures !(0 <= i < |days|) ==> Merging(days, before, first, file, done + {date})
  {
    hide Cell, DayMerged;
  }

  method MergeFile(before: seq<Day>, sum: Day, first: int, file: File) returns (days: seq<Day>, overall: Day)
    requires AllShaped(before) && DaysShaped(file.days) && Balanced(sum, before)
    ensures Merging(days, before, first, file, file.days.Keys) && Balanced(overall, days)
  {
    hide Merging, Balanced, DayMerged;
    days, overall := before, sum;
    var left := file.days.Keys;
    NothingMerged(before, first, file);
    BalancedIsShaped(sum, before);
    while left != {}
      invariant left <= file.days.Keys && |days| == |before| && AllShaped(days) && Shaped(overall)
      invariant Merging(days, before, first, file, file.days.Keys - left) && Balanced(overall, days)
      decreases |left|
    {
      EmptyOrInhabited(left);
      var date :| date in left;
      var i := date - first;
      MergingOne(days, before, first, file, file.days.Keys - left, date, i);
      assert file.days.Keys - left + {date} == file.days.Keys - (left - {date});
      if 0 <= i < |days| {
        MergeKeepsBalance(overall, days, i, file.days[date]);
        days, overall := days[i := DayMerged(days[i], file.days[date])], DayMerged(overall, file.days[date]);
      }
      left := left - {date};
    }
    assert file.days.Keys - left == file.days.Keys;
  }

  lemma EmptyOrInhabited(dates: set<int>)
    ensures dates == {} || exists date :: date in dates
  {
    if forall date :: date !in dates {
      assert dates == {};
    }
  }

  lemma NothingMerged(before: seq<Day>, first: int, file: File)
    requires AllShaped(before)
    ensures Merging(before, before, first, file, file.days.Keys - file.days.Keys)
  {
  }

  lemma BalancedIsShaped(overall: Day, days: seq<Day>)
    requires Balanced(overall, days)
    ensures Shaped(overall)
  {
  }

  lemma MergedFileHolds(days: seq<Day>, before: seq<Day>, first: int, files: seq<File>, file: File)
    requires Holds(before, first, files) && Merging(days, before, first, file, file.days.Keys)
    ensures Holds(days, first, files + [file])
  {
    hide Cell;
    assert (files + [file])[..|files|] == files;
  }

  lemma NothingHeld(first: int)
    ensures Holds(seq(WINDOW_DAYS, _ => EMPTY), first, []) && Balanced(EMPTY, seq(WINDOW_DAYS, _ => EMPTY))
  {
    forall slot, b
      ensures Cell(EMPTY, slot, b) == 0 == SumDays(seq(WINDOW_DAYS, _ => EMPTY), slot, b)
    {
      EmptyCell(slot, b);
      EmptySum(seq(WINDOW_DAYS, _ => EMPTY), slot, b);
    }
  }

  lemma {:induction false} EmptySum(days: seq<Day>, slot: Slot, b: Band)
    requires forall i | 0 <= i < |days| :: days[i] == EMPTY
    ensures SumDays(days, slot, b) == 0
  {
    if days == [] {
    } else {
      EmptyCell(slot, b);
      EmptySum(days[..|days| - 1], slot, b);
    }
  }

  method Combine(now: nat, files: seq<File>) returns (m: Metrics)
    requires forall f <- files :: DaysShaped(f.days)
    ensures IsCombination(m, FirstDay(now), files)
  {
    hide Holds, Balanced, Merging;
    var first := FirstDay(now);
    var days, overall := seq(WINDOW_DAYS, _ => EMPTY), EMPTY;
    NothingHeld(first);
    var told := Disclosure(None, None, 0, 0);
    for i := 0 to |files|
      invariant Holds(days, first, files[..i]) && Balanced(overall, days) && told == Disclosed(files[..i])
    {
      var file := files[i];
      assert files[..i + 1] == files[..i] + [file] && files[..i + 1][..i] == files[..i];
      told := Disclosure(Earlier(told.oldest, file.oldest), Later(told.newest, file.newest),
        told.malformed + file.malformed, told.oversize + file.oversize);
      HoldsShaped(days, first, files[..i]);
      ghost var before := days;
      days, overall := MergeFile(days, overall, first, file);
      MergedFileHolds(days, before, first, files[..i], file);
    }
    assert files[..|files|] == files;
    var busy := 0;
    for i := 0 to |days|
      invariant busy == Busy(days[..i])
    {
      assert days[..i + 1][..i] == days[..i];
      if days[i].total.requests > 0 {
        busy := busy + 1;
      }
    }
    assert days[..|days|] == days;
    m := Metrics(days, overall, told.oldest, told.newest, told.malformed, told.oversize, busy);
  }

  lemma HoldsShaped(days: seq<Day>, first: int, files: seq<File>)
    requires Holds(days, first, files)
    ensures AllShaped(days)
  {
  }

  // ----------------------------------------------------------------------------- the report and the lines

  /** All lines of all files, in order. */
  function Joined(logs: seq<seq<Line>>): seq<Line> {
    if logs == [] then [] else Joined(logs[..|logs| - 1]) + logs[|logs| - 1]
  }

  /** Every counter of the report, said of the lines: a count of those it stands for. */
  ghost predicate IsReport(m: Metrics, now: nat, lines: seq<Line>) {
    && |m.days| == WINDOW_DAYS && AllShaped(m.days)
    && (forall i, slot, b | 0 <= i < |m.days| ::
      Cell(m.days[i], slot, b) == Tally(lines, WindowAt(now), FirstDay(now) + i, slot, b))
    && Balanced(m.overall, m.days)
    && m.oldest == Oldest(lines, WindowAt(now)) && m.newest == Newest(lines, WindowAt(now))
    && m.malformed == Malformed(lines) && m.oversize == Oversized(lines)
    && m.daysWithRequests == Busy(m.days)
  }

  lemma {:induction false} CountsAppend(a: seq<Line>, c: seq<Line>, w: Window, day: int, slot: Slot, b: Band)
    ensures Tally(a + c, w, day, slot, b) == Tally(a, w, day, slot, b) + Tally(c, w, day, slot, b)
  {
    hide Hits;
    if c == [] {
      assert a + c == a;
    } else {
      CountsAppend(a, c[..|c| - 1], w, day, slot, b);
      assert (a + c)[..|a + c| - 1] == a + c[..|c| - 1];
    }
  }

  lemma {:induction false} RefusalsAppend(a: seq<Line>, c: seq<Line>)
    ensures Malformed(a + c) == Malformed(a) + Malformed(c) && Oversized(a + c) == Oversized(a) + Oversized(c)
  {
    hide ValidEntry;
    if c == [] {
      assert a + c == a;
    } else {
      RefusalsAppend(a, c[..|c| - 1]);
      assert (a + c)[..|a + c| - 1] == a + c[..|c| - 1];
    }
  }

  lemma ExtremesAssociate(a: Option<nat>, b: Option<nat>, c: Option<nat>)
    ensures Earlier(Earlier(a, b), c) == Earlier(a, Earlier(b, c)) && Later(Later(a, b), c) == Later(a, Later(b, c))
  {
  }

  lemma {:induction false} ExtremesAppend(a: seq<Line>, c: seq<Line>, w: Window)
    ensures Oldest(a + c, w) == Earlier(Oldest(a, w), Oldest(c, w))
      && Newest(a + c, w) == Later(Newest(a, w), Newest(c, w))
  {
    if c == [] {
      assert a + c == a;
    } else {
      hide When, Earlier, Later;
      var init, last := c[..|c| - 1], c[|c| - 1];
      ExtremesAppend(a, init, w);
      assert (a + c)[..|a + c| - 1] == a + init;
      ExtremesAssociate(Oldest(a, w), Oldest(init, w), When(last, w));
      ExtremesAssociate(Newest(a, w), Newest(init, w), When(last, w));
    }
  }

  lemma {:induction false} FilesCount(files: seq<File>, logs: seq<seq<Line>>, w: Window, day: int, slot: Slot, b: Band)
    requires |files| == |logs| && forall k | 0 <= k < |files| :: IsParse(files[k], logs[k], w)
    ensures FilesCell(files, day, slot, b) == Tally(Joined(logs), w, day, slot, b)
  {
    hide Tally, FileCell;
    if files != [] {
      var n := |files| - 1;
      FilesCount(files[..n], logs[..n], w, day, slot, b);
      CountsAppend(Joined(logs[..n]), logs[n], w, day, slot, b);
      assert IsParse(files[n], logs[n], w);
    } else {
      assert Tally([], w, day, slot, b) == 0 by { NothingTallied(w, day, slot, b); }
    }
  }

  lemma NothingTallied(w: Window, day: int, slot: Slot, b: Band)
    ensures Tally([], w, day, slot, b) == 0
  {
  }

  lemma {:induction false} FilesDisclose(files: seq<File>, logs: seq<seq<Line>>, w: Window)
    requires |files| == |logs| && forall k | 0 <= k < |files| :: IsParse(files[k], logs[k], w)
    ensures Disclosed(files) == Disclosure(Oldest(Joined(logs), w), Newest(Joined(logs), w), Malformed(Joined(logs)),
      Oversized(Joined(logs)))
  {
    if files == [] {
    } else {
      var n := |files| - 1;
      FilesDisclose(files[..n], logs[..n], w);
      RefusalsAppend(Joined(logs[..n]), logs[n]);
      ExtremesAppend(Joined(logs[..n]), logs[n], w);
      hide Oldest, Newest, Malformed, Oversized;
      assert IsParse(files[n], logs[n], w);
    }
  }

  /** The oldest and newest events are the least and the greatest instants of the counted lines. */
  lemma {:induction false} ExtremesAreExact(lines: seq<Line>, w: Window)
    ensures Oldest(lines, w).Some? <==> exists l <- lines :: Counted(l, w)
    ensures Newest(lines, w).Some? <==> Oldest(lines, w).Some?
    ensures Oldest(lines, w).Some? ==>
      && (exists l <- lines :: Counted(l, w) && l.when == Oldest(lines, w).value)
      && (exists l <- lines :: Counted(l, w) && l.when == Newest(lines, w).value)
      && forall l <- lines | Counted(l, w) :: Oldest(lines, w).value <= l.when <= Newest(lines, w).value
  {
    hide Counted;
    if lines == [] {
    } else {
      var init, last := lines[..|lines| - 1], lines[|lines| - 1];
      ExtremesAreExact(init, w);
      assert lines == init + [last];
      assert last in lines;
      assert forall l <- init :: l in lines;
    }
  }

  /** However the lines were split into files, the combined report counts them all. */
  lemma CombinationIsReport(m: Metrics, now: nat, files: seq<File>, logs: seq<seq<Line>>)
    requires |files| == |logs| && forall k | 0 <= k < |files| :: IsParse(files[k], logs[k], WindowAt(now))
    requires IsCombination(m, FirstDay(now), files)
    ensures IsReport(m, now, Joined(logs))
  {
    hide Balanced, Tally, Oldest, Newest, Malformed, Oversized, IsParse, Cell;
    var w := WindowAt(now);
    FilesDisclose(files, logs, w);
    forall i, slot, b | 0 <= i < |m.days|
      ensures Cell(m.days[i], slot, b) == Tally(Joined(logs), w, FirstDay(now) + i, slot, b)
    {
      FilesCount(files, logs, w, FirstDay(now) + i, slot, b);
    }
  }

  /** Counters that agree band by band are the same counters. */
  lemma SameCells(a: Day, b: Day)
    requires Shaped(a) && Shaped(b) && forall slot, k :: Cell(a, slot, k) == Cell(b, slot, k)
    ensures a == b
  {
    SameCounts(a.total, b.total) by {
      forall k ensures Get(a.total, k) == Get(b.total, k) { assert Cell(a, Total, k) == Cell(b, Total, k); }
    }
    forall i | 0 <= i < ROUTES
      ensures a.routes[i] == b.routes[i]
    {
      forall k ensures Get(a.routes[i], k)
        == Get(b.routes[i], k) { assert Cell(a, OfRoute(i), k) == Cell(b, OfRoute(i), k); }
      SameCounts(a.routes[i], b.routes[i]);
    }
    forall i | 0 <= i < GROUPS
      ensures a.groups[i] == b.groups[i]
    {
      forall k ensures Get(a.groups[i], k)
        == Get(b.groups[i], k) { assert Cell(a, OfGroup(i), k) == Cell(b, OfGroup(i), k); }
      SameCounts(a.groups[i], b.groups[i]);
    }
  }

  lemma SameCounts(a: Counts, b: Counts)
    requires forall k :: Get(a, k) == Get(b, k)
    ensures a == b
  {
    assert Get(a, Requests) == Get(b, Requests) && Get(a, GetHeadRequests) == Get(b, GetHeadRequests);
    assert Get(a, PostRequests) == Get(b, PostRequests) && Get(a, OtherMethodRequests) == Get(b, OtherMethodRequests);
    assert Get(a, S2xx) == Get(b, S2xx) && Get(a, S3xx) == Get(b, S3xx) && Get(a, S4xx) == Get(b, S4xx);
    assert Get(a, S429) == Get(b, S429) && Get(a, S5xx) == Get(b, S5xx) && Get(a, SOther) == Get(b, SOther);
  }

  /** There is one report of given lines. */
  lemma ReportIsUnique(m: Metrics, n: Metrics, now: nat, lines: seq<Line>)
    requires IsReport(m, now, lines) && IsReport(n, now, lines)
    ensures m == n
  {
    hide Tally, Oldest, Newest, Malformed, Oversized, Cell, Shaped;
    forall i | 0 <= i < WINDOW_DAYS
      ensures m.days[i] == n.days[i]
    {
      assert m.days[i] in m.days && n.days[i] in n.days;
      forall slot, b
        ensures Cell(m.days[i], slot, b) == Cell(n.days[i], slot, b)
      {
        assert Cell(m.days[i], slot, b) == Tally(lines, WindowAt(now), FirstDay(now) + i, slot, b);
      }
      SameCells(m.days[i], n.days[i]);
    }
    assert m.days == n.days;
    SameCells(m.overall, n.overall);
  }

  /** Parsing any split of the lines into files and combining equals one pass over all the lines, in every counter. */
  lemma SplittingIntoFilesIsInvisible(m: Metrics, one: Metrics, now: nat, files: seq<File>, logs: seq<seq<Line>>,
      whole: File)
    requires |files| == |logs| && forall k | 0 <= k < |files| :: IsParse(files[k], logs[k], WindowAt(now))
    requires IsCombination(m, FirstDay(now), files)
    requires IsParse(whole, Joined(logs), WindowAt(now)) && IsCombination(one, FirstDay(now), [whole])
    ensures m == one
  {
    hide IsReport, IsCombination, IsParse;
    CombinationIsReport(m, now, files, logs);
    assert [Joined(logs)][..0] == [];
    assert Joined([Joined(logs)]) == Joined(logs) by { JoinedOne(Joined(logs)); }
    CombinationIsReport(one, now, [whole], [Joined(logs)]);
    ReportIsUnique(m, one, now, Joined(logs));
  }

  lemma JoinedOne(lines: seq<Line>)
    ensures Joined([lines]) == lines
  {
    assert [lines][..0] == [];
  }
}
