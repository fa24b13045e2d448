/**
  Aggregation of the privacy-safe access log: files are parsed line by line into per-day counters, and the files'
  aggregates are merged into a 31-day report. The reference for every counter is a count of lines.
*/
module AccessLog {
  import opened Wrappers

  const WINDOW_DAYS := 31

  // Instants are nanoseconds.
  const DAY := 86400 * 1_000_000_000

  datatype Route =
    | Search | Samples | Shards | Wanted | Adoption | Evidence | Verifications | VerificationJobs | Stats | Peers
      | Registry | Adapters | Auth

  const ROUTES := 13
  const GROUPS := 3

  function RouteIndex(r: Route): (i: nat)
    ensures i < ROUTES
  {
    match r
    case Search => 0
    case Samples => 1
    case Shards => 2
    case Wanted => 3
    case Adoption => 4
    case Evidence => 5
    case Verifications => 6
    case VerificationJobs => 7
    case Stats => 8
    case Peers => 9
    case Registry => 10
    case Adapters => 11
    case Auth => 12
  }

  datatype Method = GetHead | Post | OtherMethod

  const CONSUMPTION := 0
  const CONTRIBUTION := 1
  const COORDINATION := 2

  function GroupFor(r: Route, m: Method): (g: nat)
    ensures g < GROUPS
  {
    match r
    case Adoption | Evidence | Verifications => if m.Post? then CONTRIBUTION else COORDINATION
    case Samples => if m.Post? then CONTRIBUTION else if m.GetHead? then CONSUMPTION else COORDINATION
    case Wanted => if m.Post? then CONTRIBUTION else COORDINATION
    case Search | Shards | Registry => CONSUMPTION
    case VerificationJobs | Stats | Peers | Adapters | Auth => COORDINATION
  }

  /**
    The activity groups: posting to a submission route contributes, reading what is served consumes, the rest
    coordinates.
  */
  lemma GroupsByRouteAndMethod(r: Route, m: Method)
    ensures GroupFor(r, m) == 1 <==>
      m.Post? && (r.Adoption? || r.Evidence? || r.Verifications? || r.Samples? || r.Wanted?)
    ensures GroupFor(r, m) == 0 <==> r.Search? || r.Shards? || r.Registry? || (r.Samples? && m.GetHead?)
  {
  }

  /** Each route has a row of its own. */
  lemma RoutesHaveTheirOwnRows(r: Route, q: Route)
    ensures RouteIndex(r) == RouteIndex(q) <==> r == q
  {
  }

  // A line as the parser meets it. `Entry` is one whose JSON and timestamp can be read; a label outside the fixed route
  // constants is no route.
  datatype Line =
    | Blank
    | Oversize
    | Unreadable
    | Entry(when: nat, status: int, route: Option<Route>, verb: Method)

  datatype Window = Window(start: int, end: int)

  // ----------------------------------------------------------------------------- counters

  datatype Band = Requests | GetHeadRequests | PostRequests | OtherMethodRequests | S2xx | S3xx | S4xx | S429 | S5xx
      | SOther

  datatype Counts = Counts(
    requests: nat, getHead: nat, post: nat, otherMethod: nat, s2xx: nat, s3xx: nat, s4xx: nat, s429: nat, s5xx: nat,
      sOther: nat)

  const NONE := Counts(0, 0, 0, 0, 0, 0, 0, 0, 0, 0)

  function Get(c: Counts, b: Band): nat {
    match b
    case Requests => c.requests
    case GetHeadRequests => c.getHead
    case PostRequests => c.post
    case OtherMethodRequests => c.otherMethod
    case S2xx => c.s2xx
    case S3xx => c.s3xx
    case S4xx => c.s4xx
    case S429 => c.s429
    case S5xx => c.s5xx
    case SOther => c.sOther
  }

  /** Whether a request belongs to a band. */
  predicate InBand(m: Method, status: int, b: Band) {
    match b
    case Requests => true
    case GetHeadRequests => m.GetHead?
    case PostRequests => m.Post?
    case OtherMethodRequests => m.OtherMethod?
    case S2xx => 200 <= status <= 299
    case S3xx => 300 <= status <= 399
    case S4xx => 400 <= status <= 499
    case S429 => status == 429
    case S5xx => 500 <= status <= 599
    case SOther => status < 200 || status > 599
  }

  function Bit(p: bool): nat {
    if p then 1 else 0
  }

  function Added(c: Counts, m: Method, status: int): (r: Counts)
    ensures forall b :: Get(r, b) == Get(c, b) + Bit(InBand(m, status, b))
  {
    var c := c.(requests := c.requests + 1);
    var c := match m
      case GetHead => c.(getHead := c.getHead + 1)
      case Post => c.(post := c.post + 1)
      case OtherMethod => c.(otherMethod := c.otherMethod + 1);
    if 200 <= status <= 299 then c.(s2xx := c.s2xx + 1)
    else if 300 <= status <= 399 then c.(s3xx := c.s3xx + 1)
    else if 400 <= status <= 499 then c.(s4xx := c.s4xx + 1, s429 := c.s429 + Bit(status == 429))
    else if 500 <= status <= 599 then c.(s5xx := c.s5xx + 1)
    else c.(sOther := c.sOther + 1)
  }

  function Merged(a: Counts, b: Counts): (r: Counts)
    ensures forall k :: Get(r, k) == Get(a, k) + Get(b, k)
  {
    Counts(a.requests + b.requests, a.getHead + b.getHead, a.post + b.post, a.otherMethod + b.otherMethod,
           a.s2xx + b.s2xx, a.s3xx + b.s3xx, a.s4xx + b.s4xx, a.s429 + b.s429, a.s5xx + b.s5xx, a.sOther + b.sOther)
  }

  // One day's counters: the total, each route's and each activity group's.
  datatype Day = Day(total: Counts, routes: seq<Counts>, groups: seq<Counts>)

  datatype Slot = Total | OfRoute(route: nat) | OfGroup(group: nat)

  predicate Shaped(d: Day) {
    |d.routes| == ROUTES && |d.groups| == GROUPS
  }

  const EMPTY := Day(NONE, [NONE, NONE, NONE, NONE, NONE, NONE, NONE, NONE, NONE, NONE, NONE, NONE, NONE],
    [NONE, NONE, NONE])

  /** One counter of a day; places outside the tables count nothing. */
  function Cell(d: Day, slot: Slot, b: Band): nat {
    match slot
    case Total => Get(d.total, b)
    case OfRoute(i) => if i < |d.routes| then Get(d.routes[i], b) else 0
    case OfGroup(i) => if i < |d.groups| then Get(d.groups[i], b) else 0
  }

  predicate InSlot(r: Route, m: Method, slot: Slot) {
    match slot
    case Total => true
    case OfRoute(i) => i == RouteIndex(r)
    case OfGroup(i) => i == GroupFor(r, m)
  }

  function DayAdded(d: Day, r: Route, m: Method, status: int): (e: Day)
    requires Shaped(d)
    ensures Shaped(e)
    ensures forall slot, b :: Cell(e, slot, b) == Cell(d, slot, b) + Bit(InSlot(r, m, slot) && InBand(m, status, b))
  {
    var i, g := RouteIndex(r), GroupFor(r, m);
    Day(Added(d.total, m, status), d.routes[i := Added(d.routes[i], m, status)],
      d.groups[g := Added(d.groups[g], m, status)])
  }

  function DayMerged(a: Day, b: Day): (e: Day)
    requires Shaped(a) && Shaped(b)
    ensures Shaped(e)
    ensures forall slot, k :: Cell(e, slot, k) == Cell(a, slot, k) + Cell(b, slot, k)
  {
    Day(Merged(a.total, b.total),
        seq(ROUTES, i requires 0 <= i < ROUTES => Merged(a.routes[i], b.routes[i])),
        seq(GROUPS, i requires 0 <= i < GROUPS => Merged(a.groups[i], b.groups[i])))
  }

  // ----------------------------------------------------------------------------- the reference

  predicate ValidEntry(l: Line) {
    l.Entry? && 100 <= l.status <= 599
  }

  /** A request that the report counts: readable, inside the window, on a known route. */
  predicate Counted(l: Line, w: Window) {
    ValidEntry(l) && w.start <= l.when <= w.end && l.route.Some?
  }

  predicate Hits(l: Line, w: Window, day: int, slot: Slot, b: Band) {
    Counted(l, w) && l.when / DAY == day && InSlot(l.route.value, l.verb, slot) && InBand(l.verb, l.status, b)
  }

  function Tally(lines: seq<Line>, w: Window, day: int, slot: Slot, b: Band): nat {
    if lines == [] then 0
    else Tally(lines[..|lines| - 1], w, day, slot, b) + Bit(Hits(lines[|lines| - 1], w, day, slot, b))
  }

  function Malformed(lines: seq<Line>): nat {
    if lines == [] then 0
    else
      var l := lines[|lines| - 1];
      Malformed(lines[..|lines| - 1]) + Bit(l.Unreadable? || (l.Entry? && !ValidEntry(l)))
  }

  function Oversized(lines: seq<Line>): nat {
    if lines == [] then 0 else Oversized(lines[..|lines| - 1]) + Bit(lines[|lines| - 1].Oversize?)
  }

  function Earlier(a: Option<nat>, b: Option<nat>): Option<nat> {
    if a.None? then b else if b.None? then a else Some(if b.value < a.value then b.value else a.value)
  }

  function Later(a: Option<nat>, b: Option<nat>): Option<nat> {
    if a.None? then b else if b.None? then a else Some(if b.value > a.value then b.value else a.value)
  }

  function When(l: Line, w: Window): Option<nat> {
    if Counted(l, w) then Some(l.when) else None
  }

  function Oldest(lines: seq<Line>, w: Window): Option<nat> {
    if lines == [] then None else Earlier(Oldest(lines[..|lines| - 1], w), When(lines[|lines| - 1], w))
  }

  function Newest(lines: seq<Line>, w: Window): Option<nat> {
    if lines == [] then None else Later(Newest(lines[..|lines| - 1], w), When(lines[|lines| - 1], w))
  }

  // ----------------------------------------------------------------------------- parsing one file

  datatype File = File(days: map<int, Day>, oldest: Option<nat>, newest: Option<nat>, malformed: nat, oversize: nat)

  function FileCell(days: map<int, Day>, day: int, slot: Slot, b: Band): nat {
    if day in days then Cell(days[day], slot, b) else 0
  }

  predicate DaysShaped(days: map<int, Day>) {
    forall d <- days :: Shaped(days[d])
  }

  /** The file is the aggregate of these lines. */
  ghost predicate IsParse(f: File, lines: seq<Line>, w: Window) {
    && DaysShaped(f.days)
    && (forall day, slot, b :: FileCell(f.days, day, slot, b) == Tally(lines, w, day, slot, b))
    && (forall day <- f.days :: exists l <- lines :: Counted(l, w) && l.when / DAY == day)
    && f.oldest == Oldest(lines, w) && f.newest == Newest(lines, w)
    && f.malformed == Malformed(lines) && f.oversize == Oversized(lines)
  }

  class Aggregate {
    var days: map<int, Day>
    var oldest: Option<nat>
    var newest: Option<nat>
    var malformed: nat
    var oversize: nat

    function Value(): File
      reads this
    {
      File(days, oldest, newest, malformed, oversize)
    }

    constructor (w: Window)
      ensures IsParse(Value(), [], w)
    {
      days := map[];
      oldest, newest := None, None;
      malformed, oversize := 0, 0;
    }

    /** Counts one readable line; refuses one that is not. */
    method AddLine(line: Line, w: Window, ghost before: seq<Line>) returns (ok: bool)
      requires line.Entry? || line.Unreadable?
      requires IsParse(Value(), before, w)
      modifies this
      ensures ok <==> ValidEntry(line)
      ensures malformed == old(malformed) && IsParse(Value().(malformed := malformed + Bit(!ok)), before + [line], w)
    {
      hide IsParse;
      ghost var was := Value();
      ok := ValidEntry(line);
      if !Counted(line, w) {
        UncountedLine(was, before, line, w);
        return;
      }
      var key := line.when / DAY;
      assert DaysShaped(days) by { ParseIsShaped(was, before, w); }
      var day := if key in days then days[key] else EMPTY;
      days := days[key := DayAdded(day, line.route.value, line.verb, line.status)];
      if oldest.None? || line.when < oldest.value {
        oldest := Some(line.when);
      }
      if newest.None? || line.when > newest.value {
        newest := Some(line.when);
      }
      CountedLine(was, before, line, w);
    }
  }

  lemma ParseIsShaped(f: File, lines: seq<Line>, w: Window)
    requires IsParse(f, lines, w)
    ensures DaysShaped(f.days)
  {
  }

  lemma LineCounts(lines: seq<Line>, l: Line, w: Window)
    ensures forall day, slot, b ::
      Tally(lines + [l], w, day, slot, b) == Tally(lines, w, day, slot, b) + Bit(Hits(l, w, day, slot, b))
    ensures Malformed(lines + [l]) == Malformed(lines) + Bit(l.Unreadable? || (l.Entry? && !ValidEntry(l)))
    ensures Oversized(lines + [l]) == Oversized(lines) + Bit(l.Oversize?)
    ensures Oldest(lines + [l], w) == Earlier(Oldest(lines, w), When(l, w))
      && Newest(lines + [l], w) == Later(Newest(lines, w), When(l, w))
  {
    assert (lines + [l])[..|lines|] == lines;
  }

  lemma UncountedLine(f: File, lines: seq<Line>, l: Line, w: Window)
    requires IsParse(f, lines, w) && !Counted(l, w)
    ensures IsParse(f.(malformed := f.malformed + Bit(l.Unreadable? || (l.Entry? && !ValidEntry(l))),
      oversize := f.oversize + Bit(l.Oversize?)), lines + [l], w)
  {
    LineCounts(lines, l, w);
    hide Tally, Malformed, Oversized, Oldest, Newest, FileCell, Shaped;
    assert forall x <- lines :: x in lines + [l];
  }

  lemma CountedLine(f: File, lines: seq<Line>, l: Line, w: Window)
    requires IsParse(f, lines, w) && Counted(l, w)
    ensures var key := l.when / DAY;
            var day := DayAdded(if key in f.days then f.days[key] else EMPTY, l.route.value, l.verb, l.status);
            IsParse(f.(days := f.days[key := day], oldest := Earlier(f.oldest, Some(l.when)),
              newest := Later(f.newest, Some(l.when))), lines + [l], w)
  {
    LineCounts(lines, l, w);
    hide Tally, Malformed, Oversized, Oldest, Newest, InBand, InSlot, DayAdded;
    var key := l.when / DAY;
    var was := if key in f.days then f.days[key] else EMPTY;
    var day := DayAdded(was, l.route.value, l.verb, l.status);
    forall d, slot, b
      ensures FileCell(f.days[key := day], d, slot, b) == Tally(lines + [l], w, d, slot, b)
    {
      assert FileCell(f.days, d, slot, b) == Tally(lines, w, d, slot, b);
      assert Cell(EMPTY, slot, b) == 0 by { EmptyCell(slot, b); }
    }
    assert forall x <- lines :: x in lines + [l];
    assert l in lines + [l];
  }

  lemma EmptyCell(slot: Slot, b: Band)
    ensures Cell(EMPTY, slot, b) == 0
  {
  }

  method ParseLog(lines: seq<Line>, w: Window) returns (f: File)
    ensures IsParse(f, lines, w)
  {
    hide IsParse;
    var aggregate := new Aggregate(w);
    assert lines[..0] == [];
    for i := 0 to |lines|
      invariant IsParse(aggregate.Value(), lines[..i], w)
      invariant fresh(aggregate)
    {
      var line := lines[i];
      assert lines[..i + 1] == lines[..i] + [line];
      if line.Oversize? {
        UncountedLine(aggregate.Value(), lines[..i], line, w);
        aggregate.oversize := aggregate.oversize + 1;
      } else if line.Blank? {
        UncountedLine(aggregate.Value(), lines[..i], line, w);
      } else {
        var ok := aggregate.AddLine(line, w, lines[..i]);
        if !ok {
          aggregate.malformed := aggregate.malformed + 1;
        }
      }
    }
    assert lines[..|lines|] == lines;
    return aggregate.Value();
  }
}
