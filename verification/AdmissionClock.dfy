/**
  One request's time at the package cache-miss gate. The clock keeps three numbers; the specification is a history of
  waits, and the time charged is the number of instants at which at least one of those waits was open.

  Time is an integer number of ticks and the instants handed to the clock never decrease.
*/
module AdmissionClock {
  import opened Wrappers

  // ------------------------------------------------------------- specification

  datatype Wait = Wait(start: int, end: Option<int>)

  function Until(w: Wait, now: int): int {
    if w.end.Some? then w.end.value else now
  }

  predicate Within(t: int, a: int, b: int) {
    a <= t < b
  }

  /** The instants of one interval. */
  function Span(a: int, b: int): set<int> {
    set t | a <= t < b && Within(t, a, b)
  }

  /** The instants before `now` at which somebody stood at the gate: a union, so overlap counts once. */
  function Covered(waits: seq<Wait>, now: int): set<int> {
    if waits == [] then {}
    else Covered(waits[..|waits| - 1], now) + Span(waits[|waits| - 1].start, Until(waits[|waits| - 1], now))
  }

  function Before(s: set<int>, instant: int): set<int> {
    set t | t in s && t < instant
  }

  function OpenWaits(waits: seq<Wait>): nat {
    if waits == [] then 0
    else OpenWaits(waits[..|waits| - 1]) + (if waits[|waits| - 1].end.None? then 1 else 0)
  }

  predicate InOrder(waits: seq<Wait>, last: int) {
    forall i | 0 <= i < |waits| ::
      waits[i].start <= last && (waits[i].end.Some? ==> waits[i].start <= waits[i].end.value <= last)
  }

  // ---------------------------------------------------------------- the clock

  datatype Clock = Clock(waiters: int, since: int, spent: int)

  function Begun(c: Clock, now: int): Clock {
    Clock(c.waiters + 1, if c.waiters == 0 then now else c.since, c.spent)
  }

  function Ended(c: Clock, now: int): Clock {
    Clock(c.waiters - 1, c.since, if c.waiters == 1 then c.spent + (now - c.since) else c.spent)
  }

  function SpentAt(c: Clock, now: int): int {
    if c.waiters > 0 then c.spent + (now - c.since) else c.spent
  }

  /** What the three numbers say about the history. `last` is the latest instant the clock has been handed. */
  ghost predicate Tracks(c: Clock, waits: seq<Wait>, last: int) {
    && InOrder(waits, last)
    && c.waiters == OpenWaits(waits)
    && (c.waiters == 0 ==> c.spent == |Covered(waits, last)|)
    && (c.waiters > 0 ==>
          && c.since <= last
          && (forall i | 0 <= i < |waits| && waits[i].end.None? :: c.since <= waits[i].start)
          && Covered(waits, last) == Before(Covered(waits, last), c.since) + Span(c.since, last)
          && c.spent == |Before(Covered(waits, last), c.since)|)
  }

  /** The mutable clock; each method body runs under the clock's mutex. */
  class SharedClock {
    var waiters: int
    var since: int
    var spent: int
    ghost var waits: seq<Wait>
    ghost var last: int

    function State(): Clock
      reads this
    {
      Clock(waiters, since, spent)
    }

    ghost predicate Valid()
      reads this
    {
      Tracks(State(), waits, last)
    }

    constructor ()
      ensures Valid() && waits == []
    {
      waiters, since, spent, waits, last := 0, 0, 0, [], 0;
    }

    method Begin(now: int)
      modifies this
      ensures waits == old(waits) + [Wait(now, None)] && last == now
      ensures old(Valid()) && (old(waits) == [] || old(last) <= now) ==> Valid()
      ensures State() == Begun(old(State()), now)
    {
      ghost var before, from := State(), if waits == [] then now else last;
      if waiters == 0 {
        since := now;
      }
      waiters := waiters + 1;
      if old(Valid()) && (old(waits) == [] || old(last) <= now) {
        if waits == [] {
          EmptyTracks(before, last, now);
        }
        BeginTracks(before, waits, from, now);
      }
      waits, last := waits + [Wait(now, None)], now;
    }

    /** `i` names the wait that is over; the clock itself does not know which one it was. */
    method End(now: int, ghost i: nat)
      requires i < |waits| && waits[i].end.None?
      modifies this
      ensures waits == old(waits)[i := Wait(old(waits)[i].start, Some(now))] && last == now
      ensures old(Valid()) && old(last) <= now ==> Valid()
      ensures State() == Ended(old(State()), now)
    {
      hide Tracks;
      ghost var before := State();
      if Valid() && last <= now {
        EndTracks(before, waits, last, i, now);
      }
      waiters := waiters - 1;
      if waiters == 0 {
        spent := spent + (now - since);
      }
      waits, last := waits[i := Wait(waits[i].start, Some(now))], now;
    }

    /** The charge is the measure of the union of this request's waits so far. */
    method Spent(now: int) returns (d: int)
      ensures d == SpentAt(State(), now)
      ensures Valid() && last <= now ==> d == |Covered(waits, now)|
    {
      if Valid() && last <= now {
        SpentIsTheUnion(State(), waits, last, now);
      }
      if waiters > 0 {
        return spent + (now - since);
      }
      return spent;
    }
  }

  // -------------------------------------------------------------------- proofs

  lemma {:induction false} SpanSize(a: int, b: int)
    requires a <= b
    ensures |Span(a, b)| == b - a
    decreases b - a
  {
    if a == b {
      assert Span(a, b) == {};
    } else {
      SpanSize(a, b - 1);
      assert Span(a, b) == Span(a, b - 1) + {b - 1};
    }
  }

  lemma {:induction false} OpenWaitsUpdate(waits: seq<Wait>, i: nat, w: Wait)
    requires i < |waits|
    ensures OpenWaits(waits[i := w])
         == OpenWaits(waits) - (if waits[i].end.None? then 1 else 0) + (if w.end.None? then 1 else 0)
  {
    var last := |waits| - 1;
    if i == last {
      assert waits[i := w][..last] == waits[..last];
    } else {
      assert waits[i := w][..last] == waits[..last][i := w];
      OpenWaitsUpdate(waits[..last], i, w);
    }
  }

  lemma {:induction false} NoOpenWaits(waits: seq<Wait>)
    requires OpenWaits(waits) == 0
    ensures forall i | 0 <= i < |waits| :: waits[i].end.Some?
  {
    if waits == [] {
    } else {
      NoOpenWaits(waits[..|waits| - 1]);
    }
  }

  lemma EmptyTracks(c: Clock, last: int, now: int)
    requires Tracks(c, [], last)
    ensures Tracks(c, [], now)
  {
  }

  /** As time passes the union grows by exactly the instants at which a wait is open. */
  lemma {:induction false} CoveredGrows(waits: seq<Wait>, last: int, now: int)
    requires InOrder(waits, last) && last <= now
    ensures Covered(waits, now) == Covered(waits, last) + (if OpenWaits(waits) > 0 then Span(last, now) else {})
  {
    if waits == [] {
    } else {
      CoveredGrows(waits[..|waits| - 1], last, now);
    }
  }

  lemma {:induction false} CoveredIsPast(waits: seq<Wait>, last: int)
    requires InOrder(waits, last)
    ensures forall t | t in Covered(waits, last) :: t < last
  {
    if waits == [] {
    } else {
      CoveredIsPast(waits[..|waits| - 1], last);
    }
  }

  lemma AfterBegin(waits: seq<Wait>, now: int)
    ensures Covered(waits + [Wait(now, None)], now) == Covered(waits, now)
    ensures OpenWaits(waits + [Wait(now, None)]) == OpenWaits(waits) + 1
  {
    var more := waits + [Wait(now, None)];
    assert more[..|waits|] == waits;
    assert Span(now, now) == {};
  }

  lemma {:induction false} CoveredAfterEnd(waits: seq<Wait>, i: nat, now: int)
    requires i < |waits| && waits[i].end.None?
    ensures Covered(waits[i := Wait(waits[i].start, Some(now))], now) == Covered(waits, now)
  {
    var last := |waits| - 1;
    var less := waits[i := Wait(waits[i].start, Some(now))];
    if i == last {
      assert less[..last] == waits[..last];
    } else {
      assert less[..last] == waits[..last][i := Wait(waits[i].start, Some(now))];
      CoveredAfterEnd(waits[..last], i, now);
    }
  }

  /** The clock's reading is the size of the union, whatever mixture of overlapping and serial waits produced it. */
  lemma SpentIsTheUnion(c: Clock, waits: seq<Wait>, last: int, now: int)
    requires Tracks(c, waits, last) && last <= now
    ensures SpentAt(c, now) == |Covered(waits, now)|
  {
    hide Covered, OpenWaits;
    CoveredGrows(waits, last, now);
    if c.waiters > 0 {
      var earlier := Before(Covered(waits, last), c.since);
      assert Covered(waits, now) == earlier + Span(c.since, now);
      assert earlier !! Span(c.since, now);
      SpanSize(c.since, now);
    }
  }

  /** While somebody is waiting, the open episode is one growing interval and what came before it stays put. */
  lemma EpisodeGrows(covered: set<int>, since: int, last: int, now: int)
    requires since <= last <= now
    requires covered == Before(covered, since) + Span(since, last)
    ensures Before(covered + Span(last, now), since) == Before(covered, since)
    ensures covered + Span(last, now) == Before(covered, since) + Span(since, now)
  {
  }

  lemma EpisodeStarts(covered: set<int>, now: int)
    requires forall t | t in covered :: t < now
    ensures Before(covered, now) == covered && covered == covered + Span(now, now)
  {
  }

  lemma BeginTracks(c: Clock, waits: seq<Wait>, last: int, now: int)
    requires Tracks(c, waits, last) && last <= now
    ensures Tracks(Begun(c, now), waits + [Wait(now, None)], now)
  {
    hide Covered, OpenWaits, Before, Span;
    var more := waits + [Wait(now, None)];
    AfterBegin(waits, now);
    CoveredGrows(waits, last, now);
    assert InOrder(more, now);
    if c.waiters == 0 {
      NoOpenWaits(waits);
      CoveredIsPast(waits, last);
      EpisodeStarts(Covered(waits, last), now);
    } else {
      EpisodeGrows(Covered(waits, last), c.since, last, now);
    }
  }

  /** Time passing is not an event of the clock. */
  lemma TimePassesTracks(c: Clock, waits: seq<Wait>, last: int, now: int)
    requires Tracks(c, waits, last) && last <= now
    ensures Tracks(c, waits, now)
  {
    CoveredGrows(waits, last, now);
    if c.waiters > 0 {
      EpisodeGrows(Covered(waits, last), c.since, last, now);
    }
  }

  lemma EndTracks(c: Clock, waits: seq<Wait>, last: int, i: nat, now: int)
    requires Tracks(c, waits, last) && last <= now
    requires i < |waits| && waits[i].end.None?
    ensures Tracks(Ended(c, now), waits[i := Wait(waits[i].start, Some(now))], now)
  {
    hide Covered, OpenWaits, Before, Span;
    var less := waits[i := Wait(waits[i].start, Some(now))];
    TimePassesTracks(c, waits, last, now);
    OpenWaitsUpdate(waits, i, less[i]);
    CoveredAfterEnd(waits, i, now);
    assert InOrder(less, now);
    SpentIsTheUnion(c, waits, now, now);
  }
}
