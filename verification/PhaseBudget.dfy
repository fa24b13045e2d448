/**
  Nested wall-clock budgets. The host keeps one mutable deadline that each phase narrows and restores; the specification
  has no such variable, only the deadlines of the phases that are open around an action.
*/
module PhaseBudget {
  import opened Wrappers

  type Duration = x: real | 0.0 <= x witness 0.0

  // What the supervisor does inside its budgets, with the time each part takes on this occasion.
  datatype Action =
    | Work(takes: Duration)
    | Raise
    | Command(limit: Duration, spawn: Duration, lasts: Duration, reap: Duration, good: bool)
    | Then(first: Action, second: Action)
    | Phase(name: string, seconds: Duration, lead: Duration, body: Action)
    | Attempt(body: Action)

  // A killed process group is waited for this long at most.
  const REAP: real := 5.0

  /** A command that ran, with the deadlines then open and the end its timeout allowed. */
  datatype Ran = Ran(open: seq<real>, limit: real, startedAt: real, allowedEnd: real, endedAt: real, spawn: real)

  /** A phase's timing record, with the deadlines open inside it, its own last. */
  datatype Timing = Timing(name: string, open: seq<real>, startedAt: real, seconds: real, closedAt: real, pass: bool)

  /** What the evidence keeps of it. */
  datatype Entry = Entry(budgetSeconds: real, elapsedSeconds: real, pass: bool)

  function EntryOf(t: Timing): Entry {
    Entry(t.seconds, t.closedAt - t.startedAt, t.pass)
  }

  datatype Outcome = Outcome(clock: real, ok: bool, commands: seq<Ran>, timings: seq<Timing>)

  function Min(a: real, b: real): real {
    if a <= b then a else b
  }

  function Nearest(open: seq<real>): Option<real> {
    if open == [] then None
    else
      var outer := Nearest(open[..|open| - 1]);
      Some(if outer.Some? then Min(outer.value, open[|open| - 1]) else open[|open| - 1])
  }

  /** How long a command may take now; none when a deadline has passed. */
  function Allowance(open: seq<real>, clock: real, limit: Duration): Option<real> {
    var nearest := Nearest(open);
    if nearest.None? then Some(limit)
    else if Min(limit, nearest.value - clock) <= 0.0 then None
    else Some(Min(limit, nearest.value - clock))
  }

  function Expired(open: seq<real>, clock: real): bool {
    exists d <- open :: d <= clock
  }

  // ----------------------------------------------------------------------------- the specification

  /** What an action does when the given deadlines are open around it. */
  function Perform(a: Action, open: seq<real>, clock: real): Outcome
    decreases a, 0
  {
    match a
    case Work(takes) => Outcome(clock + takes, true, [], [])
    case Raise => Outcome(clock, false, [], [])
    case Command(limit, spawn, lasts, reap, good) =>
      var allowance := Allowance(open, clock, limit);
      if allowance.None? then Outcome(clock, false, [], [])
      else
        var inTime := lasts <= allowance.value;
        var end := clock + spawn + if inTime then lasts else allowance.value + Min(reap, REAP);
        Outcome(end, inTime && good, [Ran(open, limit, clock, clock + allowance.value, end, spawn)], [])
    case Then(first, second) =>
      var one := Perform(first, open, clock);
      if !one.ok then one
      else
        var two := Perform(second, open, one.clock);
        Outcome(two.clock, two.ok, one.commands + two.commands, one.timings + two.timings)
    case Attempt(body) => Perform(body, open, clock).(ok := true)
    case Phase(name, seconds, lead, body) =>
      var started := clock - lead;
      var inside := open + [started + seconds];
      var o := Guarded(body, inside, clock);
      o.(timings := Closed(o, name, inside, started, seconds))
  }

  /** A phase's body between its two looks at the clock. */
  function Guarded(body: Action, inside: seq<real>, clock: real): Outcome
    decreases body, 1
  {
    if Expired(inside, clock) then Outcome(clock, false, [], [])
    else
      var o := Perform(body, inside, clock);
      o.(ok := o.ok && !Expired(inside, o.clock))
  }

  /** The timing records as the evidence keeps them: the latest of each name. */
  function Filed(file: map<string, Entry>, timings: seq<Timing>): map<string, Entry>
    decreases |timings|
  {
    if timings == [] then file else Filed(file[timings[0].name := EntryOf(timings[0])], timings[1..])
  }

  lemma {:induction false} FiledAppends(file: map<string, Entry>, a: seq<Timing>, b: seq<Timing>)
    ensures Filed(file, a + b) == Filed(Filed(file, a), b)
    decreases |a|
  {
    if a == [] {
      assert a + b == b;
    } else {
      assert (a + b)[1..] == a[1..] + b;
      FiledAppends(file[a[0].name := EntryOf(a[0])], a[1..], b);
    }
  }

  lemma {:induction false} NearestIsLeast(open: seq<real>)
    ensures Nearest(open).None? <==> open == []
    ensures Nearest(open).Some? ==> Nearest(open).value in open && forall d <- open :: Nearest(open).value <= d
  {
    if open == [] {
    } else {
      NearestIsLeast(open[..|open| - 1]);
      assert open == open[..|open| - 1] + [open[|open| - 1]];
    }
  }

  lemma NearestGrows(open: seq<real>, d: real)
    ensures var outer := Nearest(open); Nearest(open + [d]) == Some(if outer.Some? then Min(outer.value, d) else d)
  {
    assert (open + [d])[..|open|] == open;
  }

  lemma ExpiredIsNearest(open: seq<real>, clock: real)
    requires open != []
    ensures Expired(open, clock) <==> Nearest(open).value <= clock
  {
    NearestIsLeast(open);
  }

  function Closed(o: Outcome, name: string, inside: seq<real>, started: real, seconds: real): seq<Timing> {
    o.timings + [Timing(name, inside, started, seconds, o.clock, o.ok)]
  }

  lemma FiledOne(file: map<string, Entry>, o: Outcome, name: string, inside: seq<real>, started: real, seconds: real)
    ensures Filed(file, Closed(o, name, inside, started, seconds))
      == Filed(file, o.timings)[name := Entry(seconds, o.clock - started, o.ok)]
  {
    var last := Timing(name, inside, started, seconds, o.clock, o.ok);
    FiledAppends(file, o.timings, [last]);
    assert [last][1..] == [];
  }

  lemma PhaseIs(name: string, seconds: Duration, lead: Duration, body: Action, open: seq<real>, clock: real)
    ensures var started := clock - lead; var inside := open + [started + seconds];
            var o := Guarded(body, inside, clock);
            Perform(Phase(name, seconds, lead, body), open, clock)
              == o.(timings := Closed(o, name, inside, started, seconds))
  {
  }

  // ----------------------------------------------------------------------------- the host

  class Host {
    var clock: real
    var operationDeadline: Option<real>
    var phaseTimings: map<string, Entry>
    ghost var open: seq<real>
    ghost var ran: seq<Ran>

    ghost predicate Valid()
      reads this
    {
      operationDeadline == Nearest(open)
    }

    constructor (now: real)
      ensures Valid() && clock == now && operationDeadline.None? && open == [] && ran == [] && phaseTimings == map[]
    {
      clock := now;
      operationDeadline := None;
      phaseTimings := map[];
      open, ran := [], [];
    }

    /** Runs an action; afterwards the deadline is the one there was before, whether it returned or raised. */
    method Run(a: Action) returns (ok: bool)
      requires Valid()
      modifies this
      ensures Valid() && open == old(open) && operationDeadline == old(operationDeadline)
      ensures var o := Perform(a, open, old(clock));
              && clock == o.clock && ok == o.ok && ran == old(ran) + o.commands
              && phaseTimings == Filed(old(phaseTimings), o.timings)
      decreases a, 1
    {
      match a
      case Work(takes) =>
        clock := clock + takes;
        ok := true;
      case Raise => ok := false;
      case Command(limit, spawn, lasts, reap, good) => ok := RunCommand(limit, spawn, lasts, reap, good);
      case Then(first, second) =>
        ok := Run(first);
        if ok {
          ok := Run(second);
          FiledAppends(old(phaseTimings), Perform(first, open, old(clock)).timings,
            Perform(second, open, Perform(first, open, old(clock)).clock).timings);
        }
      case Attempt(body) =>
        ok := Run(body);
        ok := true;
      case Phase(name, seconds, lead, body) => ok := ExecutePhase(name, seconds, lead, body);
    }

    method RunCommand(limit: Duration, spawn: Duration, lasts: Duration, reap: Duration, good: bool) returns (ok: bool)
      requires Valid()
      modifies this`clock, this`ran
      ensures var o := Perform(Command(limit, spawn, lasts, reap, good), open, old(clock));
              clock == o.clock && ok == o.ok && ran == old(ran) + o.commands
    {
      var seconds: real := limit;
      if operationDeadline.Some? {
        seconds := Min(seconds, operationDeadline.value - clock);
        if seconds <= 0.0 {
          return false;
        }
      }
      var begun := clock;
      if lasts <= seconds {
        clock := clock + spawn + lasts;
        ok := good;
      } else {
        clock := clock + spawn + (seconds + Min(reap, REAP));
        ok := false;
      }
      ran := ran + [Ran(open, limit, begun, begun + seconds, clock, spawn)];
    }

    method RunGuarded(body: Action) returns (ok: bool)
      requires Valid() && operationDeadline.Some?
      modifies this
      ensures Valid() && open == old(open) && operationDeadline == old(operationDeadline)
      ensures var o := Guarded(body, open, old(clock));
              && clock == o.clock && ok == o.ok && ran == old(ran) + o.commands
              && phaseTimings == Filed(old(phaseTimings), o.timings)
      decreases body, 2
    {
      ExpiredIsNearest(open, clock);
      if clock >= operationDeadline.value {
        return false;
      }
      ok := Run(body);
      ExpiredIsNearest(open, clock);
      ok := ok && clock < operationDeadline.value;
    }

    /** Narrows the deadline, runs the body, and puts the previous deadline back on every way out. */
    method ExecutePhase(name: string, seconds: Duration, lead: Duration, body: Action) returns (ok: bool)
      requires Valid()
      modifies this
      ensures Valid() && open == old(open) && operationDeadline == old(operationDeadline)
      ensures var o := Perform(Phase(name, seconds, lead, body), open, old(clock));
              && clock == o.clock && ok == o.ok && ran == old(ran) + o.commands
              && phaseTimings == Filed(old(phaseTimings), o.timings)
      decreases body, 3
    {
      hide Nearest, Filed, Guarded, Perform;
      var started := clock - lead;
      var deadline := started + seconds;
      PhaseIs(name, seconds, lead, body, open, clock);
      FiledOne(phaseTimings, Guarded(body, open + [deadline], clock), name, open + [deadline], started, seconds);
      NearestGrows(open, deadline);
      var previous := operationDeadline;
      ghost var outer := open;
      operationDeadline := Some(if previous.Some? then Min(previous.value, deadline) else deadline);
      open := open + [deadline];
      ok := RunGuarded(body);
      phaseTimings := phaseTimings[name := Entry(seconds, clock - started, ok)];
      operationDeadline := previous;
      open := outer;
    }
  }

  // ----------------------------------------------------------------------------- laws of every nesting

  /** What each command owes to every phase around it. */
  predicate Contained(c: Ran) {
    && (forall d <- c.open :: c.startedAt < d && c.allowedEnd <= d)
    && c.allowedEnd <= c.startedAt + c.limit && (c.allowedEnd == c.startedAt + c.limit || c.allowedEnd in c.open)
    && c.endedAt <= c.allowedEnd + c.spawn + REAP
  }

  /** A phase is marked pass only if it, and every phase around it, still had time when it closed. */
  predicate InTime(t: Timing) {
    && t.open != [] && t.open[|t.open| - 1] == t.startedAt + t.seconds
    && (t.pass ==> forall d <- t.open :: t.closedAt < d)
  }

  predicate WithinBudgets(o: Outcome, open: seq<real>, clock: real) {
    && clock <= o.clock
    && (forall c <- o.commands :: open <= c.open && Contained(c) && clock <= c.startedAt)
    && (forall t <- o.timings :: open <= t.open && InTime(t))
  }

  /**
    For any nesting of phases, commands, retries and exceptions: every command starts before, and is allowed to run no
    longer than, every deadline open around it, and a pass was reached before all of them.
  */
  lemma {:induction false} BudgetsNest(a: Action, open: seq<real>, clock: real)
    ensures WithinBudgets(Perform(a, open, clock), open, clock)
    decreases a
  {
    match a
    case Work(_) =>
    case Raise =>
    case Command(limit, spawn, lasts, reap, good) => CommandNests(limit, spawn, lasts, reap, good, open, clock);
    case Then(first, second) =>
      BudgetsNest(first, open, clock);
      BudgetsNest(second, open, Perform(first, open, clock).clock);
    case Attempt(body) => BudgetsNest(body, open, clock);
    case Phase(name, seconds, lead, body) =>
      var inside := open + [clock - lead + seconds];
      BudgetsNest(body, inside, clock);
      assert inside[..|open|] == open;
      PhaseNests(name, seconds, lead, body, open, clock);
  }

  lemma CommandNests(limit: Duration, spawn: Duration, lasts: Duration, reap: Duration, good: bool, open: seq<real>,
      clock: real)
    ensures WithinBudgets(Perform(Command(limit, spawn, lasts, reap, good), open, clock), open, clock)
  {
    NearestIsLeast(open);
  }

  /** A command with a limit is refused if and only if a deadline around it has passed; otherwise it runs, once. */
  lemma CommandRunsUnlessExpired(
    limit: Duration, spawn: Duration, lasts: Duration, reap: Duration, good: bool, open: seq<real>, clock: real)
    requires limit > 0.0
    ensures var o := Perform(Command(limit, spawn, lasts, reap, good), open, clock);
            if Expired(open, clock) then !o.ok && o.commands == [] && o.clock == clock
            else
              && |o.commands| == 1 && o.commands[0].startedAt == clock && o.clock == o.commands[0].endedAt
              && (o.ok <==> good && clock + lasts <= o.commands[0].allowedEnd)
  {
    NearestIsLeast(open);
  }

  /**
    A phase passes if and only if no deadline had passed when it began, its body succeeded, and none has when it ends.
  */
  lemma PhasePassesExactlyWhen(
    name: string, seconds: Duration, lead: Duration, body: Action, open: seq<real>, clock: real)
    ensures var inside := open + [clock - lead + seconds];
            var o, b := Perform(Phase(name, seconds, lead, body), open, clock), Perform(body, inside, clock);
            && (o.ok <==> (forall d <- inside :: clock < d) && b.ok && forall d <- inside :: b.clock < d)
            && |o.timings| > 0 && o.timings[|o.timings| - 1].pass == o.ok
            && ((forall d <- inside :: clock < d) ==> o.commands == b.commands && o.clock == b.clock)
  {
    PhaseIs(name, seconds, lead, body, open, clock);
  }

  lemma PhaseNests(name: string, seconds: Duration, lead: Duration, body: Action, open: seq<real>, clock: real)
    requires var inside := open + [clock - lead + seconds]; WithinBudgets(Perform(body, inside, clock), inside, clock)
    ensures WithinBudgets(Perform(Phase(name, seconds, lead, body), open, clock), open, clock)
  {
    hide Perform, Contained;
    var inside := open + [clock - lead + seconds];
    PhaseIs(name, seconds, lead, body, open, clock);
    var o := Guarded(body, inside, clock);
    forall c | c in o.commands
      ensures open <= c.open
    {
      OuterPrefix(open, clock - lead + seconds, c.open);
    }
    forall t | t in o.timings
      ensures open <= t.open
    {
      OuterPrefix(open, clock - lead + seconds, t.open);
    }
  }

  lemma OuterPrefix(open: seq<real>, d: real, deeper: seq<real>)
    requires open + [d] <= deeper
    ensures open <= deeper
  {
    assert deeper[..|open|] == (open + [d])[..|open|];
  }

  lemma PassIsInTime(name: string, seconds: Duration, lead: Duration, body: Action, open: seq<real>, clock: real)
    requires Perform(Phase(name, seconds, lead, body), open, clock).ok
    ensures Perform(Phase(name, seconds, lead, body), open, clock).clock < clock - lead + seconds
  {
    assert clock - lead + seconds in open + [clock - lead + seconds];
  }

  // ----------------------------------------------------------------------------- recovery

  const RECOVERY_CLEANUP: real := 240.0
  const HELPER_CLEANUP: real := 90.0
  const ROLLBACK_SERVER: real := 90.0
  const ROLLBACK_CADDY: real := 45.0

  /** A rollback script in its own phase, with its own exception handler. */
  function Script(name: string, seconds: Duration, spawn: Duration, lasts: Duration, reap: Duration,
      good: bool): Action {
    Attempt(Phase(name, seconds, 0.0, Command(seconds, spawn, lasts, reap, good)))
  }

  /** The budgeted part of finalization around whatever cleanup does; `save` is the time the durable record takes. */
  function Recovery(stop: Action, helper: Action, save: Duration, server: Action, caddy: Action): Action {
    Then(Phase("recoveryCleanup", RECOVERY_CLEANUP, 0.0,
      Then(stop, Phase("helperCleanup", HELPER_CLEANUP, 0.0, helper))),
         Then(Work(save), Then(server, caddy)))
  }

  lemma ScriptGetsItsWholeBudget(name: string, seconds: Duration, spawn: Duration, lasts: Duration, reap: Duration,
      good: bool, clock: real)
    requires seconds > 0.0
    ensures var o := Perform(Script(name, seconds, spawn, lasts, reap, good), [], clock);
            && o.ok
            && |o.commands| == 1 && o.commands[0].startedAt == clock && o.commands[0].allowedEnd == clock + seconds
              && o.commands[0].endedAt == o.clock
            && |o.timings| == 1 && o.timings[0].open == [clock + seconds]
            && o.clock <= clock + spawn + seconds + REAP
  {
    var inside := [] + [clock - 0.0 + seconds];
    var command := Command(seconds, spawn, lasts, reap, good);
    var phase := Phase(name, seconds, 0.0, command);
    assert inside == [clock + seconds];
    NearestGrows([], clock + seconds);
    assert Allowance(inside, clock, seconds) == Some(seconds);
    var o := Perform(command, inside, clock);
    assert !Expired(inside, clock);
    assert Guarded(command, inside, clock).commands == o.commands;
    assert Perform(phase, [], clock).commands == o.commands;
    assert Script(name, seconds, spawn, lasts, reap, good) == Attempt(phase);
  }

  /**
    Cleanup and the rollback scripts are sequential reserves. A cleanup that does not pass, by exception or by timeout,
    blocks both scripts; after one that passes, however much of its time it used, each script is allowed its full
    seconds from its own start, and recovery as a whole stays inside the sum.
  */
  lemma CleanupCannotReduceTheReserves(
    stop: Action, helper: Action, save: Duration,
    spawn1: Duration, lasts1: Duration, reap1: Duration, good1: bool,
    spawn2: Duration, lasts2: Duration, reap2: Duration, good2: bool, clock: real)
    ensures var server := Script("rollback-server.sh", ROLLBACK_SERVER, spawn1, lasts1, reap1, good1);
            var caddy := Script("rollback-caddy.sh", ROLLBACK_CADDY, spawn2, lasts2, reap2, good2);
            var cleanup := Perform(Phase("recoveryCleanup", RECOVERY_CLEANUP, 0.0,
              Then(stop, Phase("helperCleanup", HELPER_CLEANUP, 0.0, helper))), [], clock);
            var o := Perform(Recovery(stop, helper, save, server, caddy), [], clock);
            && (!cleanup.ok ==> o == cleanup)
            && (cleanup.ok ==>
              && o.ok && |o.commands| == |cleanup.commands| + 2 && cleanup.commands <= o.commands
              && var s, c := o.commands[|o.commands| - 2], o.commands[|o.commands| - 1];
                && s.startedAt == cleanup.clock + save && s.allowedEnd == s.startedAt + 90.0
                && c.startedAt == s.endedAt && c.allowedEnd == c.startedAt + 45.0
                && o.clock < clock + 240.0 + save + (spawn1 + 90.0 + 5.0) + (spawn2 + 45.0 + 5.0))
  {
    hide Perform, Script;
    var server := Script("rollback-server.sh", ROLLBACK_SERVER, spawn1, lasts1, reap1, good1);
    var caddy := Script("rollback-caddy.sh", ROLLBACK_CADDY, spawn2, lasts2, reap2, good2);
    var body := Then(stop, Phase("helperCleanup", HELPER_CLEANUP, 0.0, helper));
    var cleanup := Perform(Phase("recoveryCleanup", RECOVERY_CLEANUP, 0.0, body), [], clock);
    RecoveryIs(stop, helper, save, server, caddy, clock);
    if cleanup.ok {
      PassIsInTime("recoveryCleanup", RECOVERY_CLEANUP, 0.0, body, [], clock);
      var at := cleanup.clock + save;
      ScriptGetsItsWholeBudget("rollback-server.sh", ROLLBACK_SERVER, spawn1, lasts1, reap1, good1, at);
      ScriptGetsItsWholeBudget("rollback-caddy.sh", ROLLBACK_CADDY, spawn2, lasts2, reap2, good2,
        Perform(server, [], at).clock);
    }
  }

  lemma RecoveryIs(stop: Action, helper: Action, save: Duration, server: Action, caddy: Action, clock: real)
    ensures var cleanup := Perform(Phase("recoveryCleanup", RECOVERY_CLEANUP, 0.0,
      Then(stop, Phase("helperCleanup", HELPER_CLEANUP, 0.0, helper))), [], clock);
            var one := Perform(server, [], cleanup.clock + save);
            var two := Perform(caddy, [], one.clock);
            var o := Perform(Recovery(stop, helper, save, server, caddy), [], clock);
            && (!cleanup.ok ==> o == cleanup)
            && (cleanup.ok && one.ok ==>
              o.clock == two.clock && o.ok == two.ok && o.commands == cleanup.commands + (one.commands + two.commands))
  {
    hide Guarded, Closed;
    var cleanup := Perform(Phase("recoveryCleanup", RECOVERY_CLEANUP, 0.0,
      Then(stop, Phase("helperCleanup", HELPER_CLEANUP, 0.0, helper))), [], clock);
    if cleanup.ok {
      ThenIs(Work(save), Then(server, caddy), cleanup.clock);
      ThenIs(server, caddy, cleanup.clock + save);
    }
    ThenIs(Phase("recoveryCleanup", RECOVERY_CLEANUP, 0.0,
      Then(stop, Phase("helperCleanup", HELPER_CLEANUP, 0.0, helper))), Then(Work(save), Then(server, caddy)), clock);
  }

  lemma ThenIs(first: Action, second: Action, clock: real)
    ensures var one := Perform(first, [], clock);
            var two := Perform(second, [], one.clock);
            Perform(Then(first, second), [], clock)
            == if one.ok then Outcome(two.clock, two.ok, one.commands + two.commands, one.timings + two.timings)
              else one
  {
  }
}
