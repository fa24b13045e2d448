/**
  The report adds up: in every day and over all days, the total is the sum over the routes and over the activity groups,
  in every band, and the method bands and the disjoint status bands each partition the requests.
*/
module AccessConsistency {
  import opened AccessLog
  import opened AccessReport

  function OverRoutes(d: Day, b: Band, n: nat): nat {
    if n == 0 then 0 else OverRoutes(d, b, n - 1) + Cell(d, OfRoute(n - 1), b)
  }

  function OverGroups(d: Day, b: Band, n: nat): nat {
    if n == 0 then 0 else OverGroups(d, b, n - 1) + Cell(d, OfGroup(n - 1), b)
  }

  ghost predicate SumsUp(d: Day) {
    forall b :: Cell(d, Total, b) == OverRoutes(d, b, ROUTES) == OverGroups(d, b, GROUPS)
  }

  predicate Partitioned(d: Day, slot: Slot) {
    var requests := Cell(d, slot, Requests);
    && requests == Cell(d, slot, GetHeadRequests) + Cell(d, slot, PostRequests) + Cell(d, slot, OtherMethodRequests)
    && requests == Cell(d, slot, S2xx) + Cell(d, slot, S3xx) + Cell(d, slot, S4xx) + Cell(d, slot, S5xx)
      + Cell(d, slot, SOther)
    && Cell(d, slot, S429) <= Cell(d, slot, S4xx)
  }

  ghost predicate Consistent(d: Day) {
    SumsUp(d) && forall slot :: Partitioned(d, slot)
  }

  // ----------------------------------------------------------------------------- one more request, one more day

  lemma {:induction false} RoutesAdded(d: Day, r: Route, m: Method, status: int, b: Band, n: nat)
    requires Shaped(d)
    ensures OverRoutes(DayAdded(d, r, m, status), b, n)
      == OverRoutes(d, b, n) + Bit(RouteIndex(r) < n && InBand(m, status, b))
  {
    hide Cell, DayAdded, InBand;
    if n == 0 {
    } else {
      RoutesAdded(d, r, m, status, b, n - 1);
    }
  }

  lemma {:induction false} GroupsAdded(d: Day, r: Route, m: Method, status: int, b: Band, n: nat)
    requires Shaped(d)
    ensures OverGroups(DayAdded(d, r, m, status), b, n)
      == OverGroups(d, b, n) + Bit(GroupFor(r, m) < n && InBand(m, status, b))
  {
    hide Cell, DayAdded, InBand;
    if n == 0 {
    } else {
      GroupsAdded(d, r, m, status, b, n - 1);
    }
  }

  lemma TotalHoldsAll(r: Route, m: Method)
    ensures InSlot(r, m, Total)
  {
  }

  lemma RequestKeepsConsistency(d: Day, r: Route, m: Method, status: int)
    requires Shaped(d) && Consistent(d)
    ensures Consistent(DayAdded(d, r, m, status))
  {
    hide Cell, DayAdded, InBand, InSlot, Partitioned;
    BandsPartition(m, status);
    TotalHoldsAll(r, m);
    var e := DayAdded(d, r, m, status);
    forall b
      ensures Cell(e, Total, b) == OverRoutes(e, b, ROUTES) == OverGroups(e, b, GROUPS)
    {
      RoutesAdded(d, r, m, status, b, ROUTES);
      GroupsAdded(d, r, m, status, b, GROUPS);
    }
    forall slot
      ensures Partitioned(e, slot)
    {
      RequestPartitions(d, r, m, status, slot);
    }
  }

  /** A request is in exactly one method band and one status band. */
  lemma BandsPartition(m: Method, status: int)
    ensures InBand(m, status, Requests)
    ensures 1 == Bit(InBand(m, status, GetHeadRequests)) + Bit(InBand(m, status, PostRequests))
      + Bit(InBand(m, status, OtherMethodRequests))
    ensures 1 == Bit(InBand(m, status, S2xx)) + Bit(InBand(m, status, S3xx)) + Bit(InBand(m, status, S4xx))
      + Bit(InBand(m, status, S5xx)) + Bit(InBand(m, status, SOther))
    ensures InBand(m, status, S429) ==> InBand(m, status, S4xx)
  {
  }

  lemma RequestPartitions(d: Day, r: Route, m: Method, status: int, slot: Slot)
    requires Shaped(d) && Partitioned(d, slot)
    ensures Partitioned(DayAdded(d, r, m, status), slot)
  {
    hide Cell, DayAdded, InBand, InSlot;
    BandsPartition(m, status);
  }

  lemma {:induction false} SumsMerged(a: Day, c: Day, b: Band, n: nat)
    requires Shaped(a) && Shaped(c)
    ensures OverRoutes(DayMerged(a, c), b, n) == OverRoutes(a, b, n) + OverRoutes(c, b, n)
    ensures OverGroups(DayMerged(a, c), b, n) == OverGroups(a, b, n) + OverGroups(c, b, n)
  {
    hide Cell, DayMerged;
    if n == 0 {
    } else {
      SumsMerged(a, c, b, n - 1);
    }
  }

  lemma MergeKeepsConsistency(a: Day, c: Day)
    requires Shaped(a) && Shaped(c) && Consistent(a) && Consistent(c)
    ensures Consistent(DayMerged(a, c))
  {
    hide Cell, DayMerged;
    var e := DayMerged(a, c);
    forall b
      ensures Cell(e, Total, b) == OverRoutes(e, b, ROUTES) == OverGroups(e, b, GROUPS)
    {
      SumsMerged(a, c, b, ROUTES);
      SumsMerged(a, c, b, GROUPS);
    }
    forall slot
      ensures Partitioned(e, slot)
    {
      assert Partitioned(a, slot) && Partitioned(c, slot);
    }
  }

  lemma {:induction false} EmptySums(b: Band, n: nat)
    ensures OverRoutes(EMPTY, b, n) == 0 == OverGroups(EMPTY, b, n)
  {
    if n == 0 {
    } else {
      EmptySums(b, n - 1);
      EmptyCell(OfRoute(n - 1), b);
      EmptyCell(OfGroup(n - 1), b);
    }
  }

  lemma EmptyIsConsistent()
    ensures Consistent(EMPTY)
  {
    hide Cell;
    forall slot, b
      ensures Cell(EMPTY, slot, b) == 0
    {
      EmptyCell(slot, b);
    }
    forall b
      ensures OverRoutes(EMPTY, b, ROUTES) == 0 == OverGroups(EMPTY, b, GROUPS)
    {
      EmptySums(b, ROUTES);
      EmptySums(b, GROUPS);
    }
  }

  // ----------------------------------------------------------------------------- days and totals of a report

  function DayNext(d: Day, l: Line, w: Window, day: int): (e: Day)
    requires Shaped(d)
    ensures Shaped(e)
  {
    if Counted(l, w) && l.when / DAY == day then DayAdded(d, l.route.value, l.verb, l.status) else d
  }

  /** The counters of one day, line by line. */
  function DayOf(lines: seq<Line>, w: Window, day: int): (d: Day)
    ensures Shaped(d)
  {
    if lines == [] then EMPTY else DayNext(DayOf(lines[..|lines| - 1], w, day), lines[|lines| - 1], w, day)
  }

  lemma {:induction false} DayOfCounts(lines: seq<Line>, w: Window, day: int)
    ensures Consistent(DayOf(lines, w, day))
    ensures forall slot, b :: Cell(DayOf(lines, w, day), slot, b) == Tally(lines, w, day, slot, b)
  {
    hide Cell, DayAdded, Consistent, InBand, InSlot;
    if lines == [] {
      EmptyIsConsistent();
      forall slot, b ensures Cell(EMPTY, slot, b) == 0 { EmptyCell(slot, b); }
    } else {
      var init, l := lines[..|lines| - 1], lines[|lines| - 1];
      DayOfCounts(init, w, day);
      if Counted(l, w) {
        RequestKeepsConsistency(DayOf(init, w, day), l.route.value, l.verb, l.status);
      }
    }
  }

  lemma InitIsShaped(days: seq<Day>)
    requires days != [] && AllShaped(days)
    ensures AllShaped(days[..|days| - 1]) && Shaped(days[|days| - 1])
  {
    assert forall d <- days[..|days| - 1] :: d in days;
    assert days[|days| - 1] in days;
  }

  function DaysTotal(days: seq<Day>): (d: Day)
    requires AllShaped(days)
    ensures Shaped(d)
  {
    if days == [] then EMPTY
    else
      InitIsShaped(days);
      DayMerged(DaysTotal(days[..|days| - 1]), days[|days| - 1])
  }

  lemma {:induction false} DaysTotalCounts(days: seq<Day>)
    requires AllShaped(days) && forall i | 0 <= i < |days| :: Consistent(days[i])
    ensures Consistent(DaysTotal(days))
    ensures forall slot, b :: Cell(DaysTotal(days), slot, b) == SumDays(days, slot, b)
  {
    hide Cell, DayMerged, Consistent;
    if days == [] {
      EmptyIsConsistent();
      forall slot, b ensures Cell(EMPTY, slot, b) == 0 { EmptyCell(slot, b); }
    } else {
      var init, last := days[..|days| - 1], days[|days| - 1];
      InitIsShaped(days);
      DaysTotalCounts(init);
      MergeKeepsConsistency(DaysTotal(init), last);
    }
  }

  /** Every day of a report, and its overall counters, add up. */
  lemma ReportIsConsistent(m: Metrics, now: nat, lines: seq<Line>)
    requires IsReport(m, now, lines)
    ensures forall i | 0 <= i < |m.days| :: Consistent(m.days[i])
    ensures Consistent(m.overall)
  {
    hide Cell, Consistent, Tally, SumDays;
    var w, first := WindowAt(now), FirstDay(now);
    forall i | 0 <= i < |m.days|
      ensures Consistent(m.days[i])
    {
      DayOfCounts(lines, w, first + i);
      assert m.days[i] in m.days;
      SameCells(m.days[i], DayOf(lines, w, first + i));
    }
    DaysTotalCounts(m.days);
    SameCells(m.overall, DaysTotal(m.days));
  }

  // ----------------------------------------------------------------------------- the window loses nothing

  /** The lines that a counter stands for, on whatever day. */
  function TallyAll(lines: seq<Line>, w: Window, slot: Slot, b: Band): nat {
    if lines == [] then 0
    else
      var l := lines[|lines| - 1];
      TallyAll(lines[..|lines| - 1], w, slot, b) + Bit(l.Entry? && Hits(l, w, l.when / DAY, slot, b))
  }

  function TallyDays(lines: seq<Line>, w: Window, first: int, n: nat, slot: Slot, b: Band): nat {
    if n == 0 then 0 else TallyDays(lines, w, first, n - 1, slot, b) + Tally(lines, w, first + n - 1, slot, b)
  }

  lemma {:induction false} LineFallsOnOneDay(lines: seq<Line>, l: Line, w: Window, first: int, n: nat, slot: Slot,
      b: Band)
    ensures TallyDays(lines + [l], w, first, n, slot, b)
         == TallyDays(lines, w, first, n, slot, b)
           + Bit(l.Entry? && first <= l.when / DAY < first + n && Hits(l, w, l.when / DAY, slot, b))
  {
    hide InBand, InSlot;
    if n == 0 {
    } else {
      LineFallsOnOneDay(lines, l, w, first, n - 1, slot, b);
      assert (lines + [l])[..|lines|] == lines;
    }
  }

  lemma WindowCoversItsDays(l: Line, now: nat)
    requires Counted(l, WindowAt(now))
    ensures FirstDay(now) <= l.when / DAY < FirstDay(now) + WINDOW_DAYS
  {
  }

  lemma {:induction false} NoLinesNoDays(w: Window, first: int, n: nat, slot: Slot, b: Band)
    ensures TallyDays([], w, first, n, slot, b) == 0
  {
    if n == 0 {
    } else {
      NoLinesNoDays(w, first, n - 1, slot, b);
    }
  }

  lemma {:induction false} DaysCoverTheWindow(lines: seq<Line>, now: nat, slot: Slot, b: Band)
    ensures TallyDays(lines, WindowAt(now), FirstDay(now), WINDOW_DAYS, slot, b)
      == TallyAll(lines, WindowAt(now), slot, b)
  {
    hide TallyDays, FirstDay, InBand, InSlot;
    if lines == [] {
      NoLinesNoDays(WindowAt(now), FirstDay(now), WINDOW_DAYS, slot, b);
    } else {
      var init, l := lines[..|lines| - 1], lines[|lines| - 1];
      DaysCoverTheWindow(init, now, slot, b);
      LineFallsOnOneDay(init, l, WindowAt(now), FirstDay(now), WINDOW_DAYS, slot, b);
      assert lines == init + [l];
      if Counted(l, WindowAt(now)) {
        WindowCoversItsDays(l, now);
      }
    }
  }

  lemma {:induction false} SumDaysIsTallyDays(days: seq<Day>, lines: seq<Line>, w: Window, first: int, slot: Slot,
      b: Band)
    requires forall i | 0 <= i < |days| :: Cell(days[i], slot, b) == Tally(lines, w, first + i, slot, b)
    ensures SumDays(days, slot, b) == TallyDays(lines, w, first, |days|, slot, b)
  {
    hide Cell, Tally;
    if days == [] {
    } else {
      SumDaysIsTallyDays(days[..|days| - 1], lines, w, first, slot, b);
    }
  }

  /**
    The overall counters are counts of lines too: no counted line falls outside the report's days, and none falls in
    two.
  */
  lemma OverallCountsEveryLineOnce(m: Metrics, now: nat, lines: seq<Line>, slot: Slot, b: Band)
    requires IsReport(m, now, lines)
    ensures Cell(m.overall, slot, b) == TallyAll(lines, WindowAt(now), slot, b)
  {
    hide Cell, Tally, SumDays, TallyDays, TallyAll;
    SumDaysIsTallyDays(m.days, lines, WindowAt(now), FirstDay(now), slot, b);
    DaysCoverTheWindow(lines, now, slot, b);
  }
}
