/**
  The resource governor: each tick samples the pool, differences the counters against the previous sample, decides, and
  moves two levers, the Farm ceiling in this process and the Builder's pause flag in the database.
*/
module Governor {
  import opened Wrappers

  // One admission class: a limit and an occupancy of the moment, and counters that accumulate since boot.
  datatype ClassStats = ClassStats(
    name: string, limit: nat, inUse: nat,
    attempts: nat, busy: nat, acquired: nat, waited: nat, suppressed: nat, canceled: nat, failed: nat, timeouts: nat)

  datatype Counter = Attempts | Busy | Acquired | Waited | Suppressed | Canceled | Failed | Timeouts

  function Get(c: ClassStats, k: Counter): nat {
    match k
    case Attempts => c.attempts
    case Busy => c.busy
    case Acquired => c.acquired
    case Waited => c.waited
    case Suppressed => c.suppressed
    case Canceled => c.canceled
    case Failed => c.failed
    case Timeouts => c.timeouts
  }

  type PoolStats = seq<ClassStats>

  const INTERACTIVE: string := "interactive"
  const REFUSAL_RATE: real := 0.10
  const STEAL_PERCENT: real := 20.0

  datatype Reason = Clear | InteractivePoolPressure | HostCpuSteal

  datatype Decision = Decision(pauseBuilder: bool, pauseFarm: bool, reason: Reason)

  // ----------------------------------------------------------------------------- policy

  predicate Refusing(c: ClassStats) {
    c.name == INTERACTIVE && c.attempts != 0 && c.busy as real / c.attempts as real >= REFUSAL_RATE
  }

  predicate Pressured(window: PoolStats) {
    exists c <- window :: Refusing(c)
  }

  function Decided(window: PoolStats, steal: real): Decision {
    if Pressured(window) then Decision(true, true, InteractivePoolPressure)
    else if steal >= STEAL_PERCENT then Decision(true, false, HostCpuSteal)
    else Decision(false, false, Clear)
  }

  method Decide(window: PoolStats, steal: real) returns (d: Decision)
    ensures d == Decided(window, steal)
  {
    for i := 0 to |window|
      invariant forall c <- window[..i] :: !Refusing(c)
    {
      var c := window[i];
      if c.name != INTERACTIVE || c.attempts == 0 {
        continue;
      }
      if c.busy as real / c.attempts as real >= REFUSAL_RATE {
        assert Refusing(c) && c in window;
        return Decision(true, true, InteractivePoolPressure);
      }
    }
    assert window[..|window|] == window;
    if steal >= STEAL_PERCENT {
      return Decision(true, false, HostCpuSteal);
    }
    return Decision(false, false, Clear);
  }

  // ----------------------------------------------------------------------------- windows

  function MonotoneDelta(prev: nat, cur: nat): nat {
    if cur < prev then 0 else cur - prev
  }

  /** The last entry of a class; a class that is not there has counted nothing. */
  function Entry(stats: PoolStats, name: string): Option<ClassStats> {
    if stats == [] then None
    else if stats[|stats| - 1].name == name then Some(stats[|stats| - 1])
    else Entry(stats[..|stats| - 1], name)
  }

  function Count(stats: PoolStats, name: string, k: Counter): nat {
    var e := Entry(stats, name);
    if e.Some? then Get(e.value, k) else 0
  }

  /** Class by class, what each counter gained; limit and occupancy are the newer ones. */
  predicate IsWindow(window: PoolStats, prev: PoolStats, cur: PoolStats) {
    && |window| == |cur|
    && forall i | 0 <= i < |cur| ::
      && window[i].name == cur[i].name && window[i].limit == cur[i].limit && window[i].inUse == cur[i].inUse
      && forall k :: Get(window[i], k) == MonotoneDelta(Count(prev, cur[i].name, k), Get(cur[i], k))
  }

  function Differenced(c: ClassStats, p: Option<ClassStats>): ClassStats {
    if p.None? then c
    else
      var p := p.value;
      c.(
        attempts := MonotoneDelta(p.attempts, c.attempts),
        busy := MonotoneDelta(p.busy, c.busy),
        acquired := MonotoneDelta(p.acquired, c.acquired),
        waited := MonotoneDelta(p.waited, c.waited),
        suppressed := MonotoneDelta(p.suppressed, c.suppressed),
        canceled := MonotoneDelta(p.canceled, c.canceled),
        failed := MonotoneDelta(p.failed, c.failed),
        timeouts := MonotoneDelta(p.timeouts, c.timeouts))
  }

  function Window(prev: PoolStats, cur: PoolStats): (window: PoolStats)
    ensures IsWindow(window, prev, cur)
  {
    if cur == [] then []
    else Window(prev, cur[..|cur| - 1]) + [Differenced(cur[|cur| - 1], Entry(prev, cur[|cur| - 1].name))]
  }

  method PoolStatsWindow(prev: PoolStats, cur: PoolStats) returns (window: PoolStats)
    ensures window == Window(prev, cur)
  {
    var before: map<string, ClassStats> := map[];
    for i := 0 to |prev|
      invariant forall name :: Entry(prev[..i], name) == if name in before then Some(before[name]) else None
    {
      before := before[prev[i].name := prev[i]];
      assert prev[..i + 1][..i] == prev[..i];
    }
    assert prev[..|prev|] == prev;
    window := [];
    for i := 0 to |cur|
      invariant window == Window(prev, cur[..i])
    {
      var c := cur[i];
      window := window + [Differenced(c, if c.name in before then Some(before[c.name]) else None)];
      assert cur[..i + 1][..i] == cur[..i];
    }
    assert cur[..|cur|] == cur;
  }

  // ----------------------------------------------------------------------------- ticks

  // A control call either succeeds, or fails having taken effect, or fails without.
  datatype Reply = Done | FailedAfterEffect | Failed

  // What one tick meets: the pool's counters, the host's reading if there is one, what the database would answer, and
  // whether an earlier pause has run out meanwhile.
  datatype Input = Input(pool: PoolStats, steal: Option<real>, pause: Reply, resume: Reply, pauseLapsed: bool)

  // `paused` is the flag in the database, whoever set it; `farm` the ceiling the pool enforces.
  datatype State = State(prev: Option<PoolStats>, decision: Decision, needResume: bool, farmConns: nat, farm: nat,
      paused: bool)

  /** A governor at boot, over whatever a predecessor left in the database. */
  function Boot(farmConns: nat, leftPaused: bool): State {
    State(None, Decision(false, false, Clear), true, farmConns, farmConns, leftPaused)
  }

  function WindowAt(s: State, x: Input): PoolStats {
    if s.prev.Some? then Window(s.prev.value, x.pool) else []
  }

  function DecisionAt(s: State, x: Input): Decision {
    Decided(WindowAt(s, x), if x.steal.Some? then x.steal.value else 0.0)
  }

  function Tick(s: State, x: Input): State {
    var d := DecisionAt(s, x);
    var held := s.paused && !x.pauseLapsed;
    var farm := if d.pauseFarm then 0 else s.farmConns;
    var sampled := s.(prev := Some(x.pool), decision := d, farm := farm);
    if d.pauseBuilder then sampled.(paused := held || !x.pause.Failed?, needResume := true)
    else if s.needResume then sampled.(paused := held && x.resume.Failed?, needResume := !x.resume.Done?)
    else sampled.(paused := held)
  }

  function Run(s: State, xs: seq<Input>): State {
    if xs == [] then s else Tick(Run(s, xs[..|xs| - 1]), xs[|xs| - 1])
  }

  class Governor {
    var prev: PoolStats
    var havePrev: bool
    var decision: Decision
    var needResume: bool
    const farmConns: nat
    var farm: nat
    ghost var paused: bool

    ghost function Value(): State
      reads this
    {
      State(if havePrev then Some(prev) else None, decision, needResume, farmConns, farm, paused)
    }

    constructor (farmIngestConns: nat, ghost leftPaused: bool)
      ensures Value() == Boot(farmIngestConns, leftPaused)
    {
      prev, havePrev := [], false;
      decision := Decision(false, false, Clear);
      needResume := true;
      farmConns := farmIngestConns;
      farm := farmIngestConns;
      paused := leftPaused;
    }

    method TickOnce(x: Input) returns (d: Decision)
      modifies this
      ensures Value() == Tick(old(Value()), x) && d == decision
    {
      hide Decided, Window;
      var window := [];
      if havePrev {
        window := PoolStatsWindow(prev, x.pool);
      }
      prev, havePrev := x.pool, true;
      d := Decide(window, if x.steal.Some? then x.steal.value else 0.0);
      paused := paused && !x.pauseLapsed;
      ApplyDecision(d, x);
    }

    /** The Farm lever first; then the Builder's, whose call may fail with or without effect. */
    method ApplyDecision(d: Decision, x: Input)
      modifies this`farm, this`needResume, this`paused, this`decision
      ensures decision == d && farm == (if d.pauseFarm then 0 else farmConns)
      ensures d.pauseBuilder ==> needResume && paused == (old(paused) || !x.pause.Failed?)
      ensures !d.pauseBuilder && old(needResume) ==>
        needResume == !x.resume.Done? && paused == (old(paused) && x.resume.Failed?)
      ensures !d.pauseBuilder && !old(needResume) ==> !needResume && paused == old(paused)
    {
      farm := if d.pauseFarm then 0 else farmConns;
      if d.pauseBuilder {
        if !x.pause.Failed? {
          paused := true;
        }
        needResume := true;
      } else if needResume {
        if !x.resume.Failed? {
          paused := false;
        }
        if x.resume.Done? {
          needResume := false;
        }
      }
      if d != decision {
        decision := d;
      }
    }
  }

  // ----------------------------------------------------------------------------- laws of every run

  predicate Inv(s: State) {
    && (s.paused ==> s.needResume)
    && s.farm == (if s.decision.pauseFarm then 0 else s.farmConns)
    && (s.decision.pauseFarm <==> s.decision.reason == InteractivePoolPressure)
    && (s.decision.pauseBuilder <==> s.decision.reason != Clear)
  }

  /**
    Whoever paused the Builder, a resume is owed while it may be paused; and the Farm ceiling is its start or zero, zero
    only for interactive pressure.
  */
  lemma {:induction false} ResumeIsOwed(farmConns: nat, leftPaused: bool, xs: seq<Input>)
    ensures var s := Run(Boot(farmConns, leftPaused), xs);
            && (s.paused ==> s.needResume)
            && s.farmConns == farmConns
            && (s.farm == farmConns || (s.farm == 0 && s.decision.reason == InteractivePoolPressure))
            && Inv(s)
  {
    if xs == [] {
    } else {
      ResumeIsOwed(farmConns, leftPaused, xs[..|xs| - 1]);
    }
  }

  /** One clean tick whose resume succeeds brings both producers back, from any point of any run. */
  lemma CleanTickRestoresBoth(farmConns: nat, leftPaused: bool, xs: seq<Input>, x: Input)
    requires DecisionAt(Run(Boot(farmConns, leftPaused), xs), x).reason.Clear? && x.resume.Done?
    ensures var s := Run(Boot(farmConns, leftPaused), xs + [x]); s.farm == farmConns && !s.paused && !s.needResume
  {
    assert (xs + [x])[..|xs|] == xs;
    ResumeIsOwed(farmConns, leftPaused, xs);
  }

  /**
    The Builder is paused for interactive pressure or for a host that steals a fifth of the time, and for nothing else.
  */
  lemma BuilderIsPausedExactlyWhen(s: State, x: Input)
    ensures DecisionAt(s, x).pauseBuilder <==> Pressured(WindowAt(s, x)) || (x.steal.Some? && x.steal.value >= 20.0)
    ensures !DecisionAt(s, x).pauseBuilder ==> Tick(s, x).farm == s.farmConns
  {
  }

  /** A pause or a resume that the database confirms is in force, and a tick with nothing to undo makes neither. */
  lemma ConfirmedCallsTakeEffect(s: State, x: Input)
    ensures DecisionAt(s, x).pauseBuilder && x.pause.Done? ==> Tick(s, x).paused && Tick(s, x).needResume
    ensures !DecisionAt(s, x).pauseBuilder && s.needResume && x.resume.Done? ==>
      !Tick(s, x).paused && !Tick(s, x).needResume
    ensures !DecisionAt(s, x).pauseBuilder && s.needResume && !x.resume.Done? ==> Tick(s, x).needResume
    ensures !DecisionAt(s, x).pauseBuilder && !s.needResume ==> Tick(s, x).paused == (s.paused && !x.pauseLapsed)
  {
  }

  /**
    A tick sheds Farm exactly when, since the previous sample, some interactive class refused a tenth of its attempts.
  */
  lemma FarmIsShedForInteractivePressureOnly(s: State, x: Input)
    requires Inv(s) && s.farmConns > 0
    ensures Tick(s, x).farm == 0 <==>
            s.prev.Some? && exists i | 0 <= i < |x.pool| ::
              && x.pool[i].name == INTERACTIVE
              && var attempts := MonotoneDelta(Count(s.prev.value, INTERACTIVE, Attempts), x.pool[i].attempts);
                 var busy := MonotoneDelta(Count(s.prev.value, INTERACTIVE, Busy), x.pool[i].busy);
                 attempts != 0 && 10 * busy >= attempts
  {
    var window := WindowAt(s, x);
    assert Tick(s, x).farm == 0 <==> Pressured(window);
    if s.prev.Some? {
      forall i | 0 <= i < |x.pool|
        ensures window[i].attempts == MonotoneDelta(Count(s.prev.value, x.pool[i].name, Attempts), x.pool[i].attempts)
        ensures window[i].busy == MonotoneDelta(Count(s.prev.value, x.pool[i].name, Busy), x.pool[i].busy)
        ensures Refusing(window[i]) <==>
          && window[i].name == INTERACTIVE && window[i].attempts != 0
          && 10 * window[i].busy >= window[i].attempts
      {
        assert Get(window[i], Attempts) == window[i].attempts && Get(window[i], Busy) == window[i].busy;
        if window[i].attempts != 0 {
          RatioIsCrossMultiplied(window[i].busy, window[i].attempts);
        }
      }
    }
  }

  lemma RatioIsCrossMultiplied(busy: nat, attempts: nat)
    requires attempts != 0
    ensures busy as real / attempts as real >= REFUSAL_RATE <==> 10 * busy >= attempts
  {
    var ratio := busy as real / attempts as real;
    assert ratio * attempts as real == busy as real;
  }

  // ----------------------------------------------------------------------------- telescoping

  /** What one counter of one class shows in a window is its change between the two samples, never below zero. */
  lemma {:induction false} WindowCounts(prev: PoolStats, cur: PoolStats, name: string, k: Counter)
    ensures Count(Window(prev, cur), name, k) == MonotoneDelta(Count(prev, name, k), Count(cur, name, k))
  {
    if cur == [] {
    } else {
      var init, last := cur[..|cur| - 1], cur[|cur| - 1];
      var window := Window(prev, cur);
      assert window[..|window| - 1] == Window(prev, init);
      if last.name != name {
        WindowCounts(prev, init, name, k);
      }
    }
  }

  lemma {:induction false} RunRemembersTheLastSample(s: State, xs: seq<Input>)
    ensures Run(s, xs).prev == if xs == [] then s.prev else Some(xs[|xs| - 1].pool)
  {
  }

  /** What a run of ticks saw of one counter, window by window. */
  function Seen(s: State, xs: seq<Input>, name: string, k: Counter): nat {
    if xs == [] then 0
    else
      var init, last := xs[..|xs| - 1], xs[|xs| - 1];
      Seen(s, init, name, k) + Count(WindowAt(Run(s, init), last), name, k)
  }

  function Sample(xs: seq<Input>, i: nat, name: string, k: Counter): nat
    requires i < |xs|
  {
    Count(xs[i].pool, name, k)
  }

  /** How far the counter fell in all, as a reopened pool makes it. */
  function Fell(xs: seq<Input>, name: string, k: Counter): nat {
    if |xs| < 2 then 0
    else Fell(xs[..|xs| - 1], name, k) + MonotoneDelta(Sample(xs, |xs| - 1, name, k), Sample(xs, |xs| - 2, name, k))
  }

  predicate Monotone(xs: seq<Input>, name: string, k: Counter) {
    forall i | 0 < i < |xs| :: Sample(xs, i - 1, name, k) <= Sample(xs, i, name, k)
  }

  lemma {:induction false} FellIsZeroIffMonotone(xs: seq<Input>, name: string, k: Counter)
    ensures Fell(xs, name, k) == 0 <==> Monotone(xs, name, k)
  {
    hide Count;
    if |xs| > 1 {
      var init := xs[..|xs| - 1];
      FellIsZeroIffMonotone(init, name, k);
      assert forall i | 0 <= i < |init| :: Sample(init, i, name, k) == Sample(xs, i, name, k);
    }
  }

  lemma {:induction false} GainsAreConserved(s: State, xs: seq<Input>, name: string, k: Counter)
    requires s.prev.None? && xs != []
    ensures Seen(s, xs, name, k) == Sample(xs, |xs| - 1, name, k) - Sample(xs, 0, name, k) + Fell(xs, name, k)
  {
    var init, last := xs[..|xs| - 1], xs[|xs| - 1];
    RunRemembersTheLastSample(s, init);
    hide Count, Window, Run;
    if init == [] {
      assert Count([], name, k) == 0 by { NothingCounted(name, k); }
      assert Seen(s, [], name, k) == 0;
    } else {
      GainsAreConserved(s, init, name, k);
      WindowCounts(init[|init| - 1].pool, last.pool, name, k);
    }
  }

  lemma NothingCounted(name: string, k: Counter)
    ensures Count([], name, k) == 0
  {
  }

  /**
    In any run from boot, each event counted after the first sample falls in exactly one window if and only if its
    counter never moved backwards.
  */
  lemma WindowsTelescope(farmConns: nat, leftPaused: bool, xs: seq<Input>, name: string, k: Counter)
    requires xs != []
    ensures Seen(Boot(farmConns, leftPaused), xs, name, k) == Sample(xs, |xs| - 1, name, k) - Sample(xs, 0, name, k)
      <==> Monotone(xs, name, k)
  {
    GainsAreConserved(Boot(farmConns, leftPaused), xs, name, k);
    FellIsZeroIffMonotone(xs, name, k);
  }
}
