/**
  Request coalescing: one detached loader per key, and callers that join it, leave it and are cancelled.

  The lock regions of one call are pure functions on `Call`; `SharedCall` is the mutable object whose methods are proved
  to perform exactly those functions. The group is an interleaved step system with one step per lock region or atomic
  map operation. A step that is not enabled leaves the state alone, so every sequence of steps is a run, and what is
  proved of `Exec(Init(), steps)` holds in every interleaving.
*/
module Singleflight {
  import opened Wrappers

  type Key = string
  type Payload = int  // the loaded value; it is only ever copied

  datatype Loaded = Value(value: Payload) | Failure  // a loader panic is a Failure too

  // ------------------------------------------------------------------ one call

  datatype Call = Call(waiters: int, finished: bool, abandoned: bool, canceled: bool, closes: nat,
      result: Option<Loaded>)

  function NewCall(waiters: int): Call {
    Call(waiters, false, false, false, 0, None)
  }

  predicate Dead(c: Call) {
    c.abandoned || c.finished
  }

  function Joined(c: Call): Call {
    c.(waiters := c.waiters + 1)
  }

  function Released(c: Call): Call {
    var left := c.(waiters := c.waiters - 1);
    if left.waiters == 0 && !left.finished then left.(abandoned := true, canceled := true) else left
  }

  function Published(c: Call, r: Loaded): Call {
    c.(result := Some(r), finished := true, canceled := true, closes := c.closes + 1)
  }

  /** The mutable call object; every method body runs under the call's mutex. */
  class SharedCall {
    var waiters: int
    var finished: bool
    var abandoned: bool
    var canceled: bool
    var closes: nat
    var result: Option<Loaded>

    function State(): Call
      reads this
    {
      Call(waiters, finished, abandoned, canceled, closes, result)
    }

    constructor (initialWaiters: int)
      ensures State() == NewCall(initialWaiters)
    {
      waiters, finished, abandoned, canceled, closes, result := initialWaiters, false, false, false, 0, None;
    }

    method AddWaiter() returns (ok: bool)
      modifies this
      ensures ok <==> !Dead(old(State()))
      ensures State() == if ok then Joined(old(State())) else old(State())
    {
      if abandoned || finished {
        return false;
      }
      waiters := waiters + 1;
      return true;
    }

    method ReleaseWaiter()
      modifies this
      ensures State() == Released(old(State()))
    {
      waiters := waiters - 1;
      if waiters == 0 && !finished {
        abandoned := true;
        canceled := true;
      }
    }

    /** Closing `done` twice would panic, so finishing demands that it is still open. */
    method Finish(r: Loaded)
      requires closes == 0
      modifies this
      ensures State() == Published(old(State()), r)
      ensures closes == 1
    {
      result := Some(r);
      finished := true;
      canceled := true;
      closes := closes + 1;
    }
  }

  // ----------------------------------------------------------------- the group

  datatype Origin = FromDo | FromStart

  datatype LoaderPc =
    | Loading              // the load function is executing
    | Recording(r: Loaded) // a refresh records its outcome in the retry table
    | Removing(r: Loaded)  // about to CompareAndDelete its own key
    | Publishing(r: Loaded)
    | Stopped

  datatype Entry = Entry(key: Key, origin: Origin, call: Call, loader: LoaderPc)

  datatype Answer = Canceled | Got(call: nat, r: Loaded)

  datatype CallerPc =
    | Entering
    | Trying
    | Joining(call: nat)
    | Evicting(call: nat)
    | Arrived(call: nat)    // joined; about to look at its own context
    | Selecting(call: nat)
    | Observed(call: nat, r: Loaded)
    | Returned(answer: Answer)

  // `met` remembers the dead calls this caller has already been turned away from.
  datatype Caller = Caller(key: Key, ctxDone: bool, pc: CallerPc, met: set<nat>)

  datatype State = State(calls: seq<Entry>, loads: map<Key, nat>, callers: seq<Caller>, backoff: set<Key>)

  datatype Step =
    | Arrive(key: Key)
    | CancelContext(i: nat)
    | CheckContext(i: nat)
    | LoadOrStore(i: nat)
    | AddWaiter(i: nat)
    | Evict(i: nat)
    | LookBeforeWaiting(i: nat)
    | Leave(i: nat)
    | TakeResult(i: nat)
    | Return(i: nat)
    | Start(key: Key, retryReady: bool)
    | LoadReturns(c: nat, r: Loaded)
    | RecordRetry(c: nat)
    | RemoveKey(c: nat)
    | Finish(c: nat)

  function Init(): State {
    State([], map[], [], {})
  }

  function CompareAndDelete(loads: map<Key, nat>, key: Key, c: nat): map<Key, nat> {
    if key in loads && loads[key] == c then loads - {key} else loads
  }

  function WithPc(s: State, i: nat, pc: CallerPc): State
    requires i < |s.callers|
  {
    s.(callers := s.callers[i := s.callers[i].(pc := pc)])
  }

  function WithCall(s: State, c: nat, call: Call): State
    requires c < |s.calls|
  {
    s.(calls := s.calls[c := s.calls[c].(call := call)])
  }

  function WithLoader(s: State, c: nat, pc: LoaderPc): State
    requires c < |s.calls|
  {
    s.(calls := s.calls[c := s.calls[c].(loader := pc)])
  }

  /** `LoadOrStore` finds the key idle: the new call is mapped and its loader starts. */
  function Spawn(s: State, key: Key, origin: Origin, waiters: int): State {
    s.(calls := s.calls + [Entry(key, origin, NewCall(waiters), Loading)], loads := s.loads[key := |s.calls|])
  }

  predicate AtCall(s: State, i: nat, c: nat) {
    i < |s.callers| && c < |s.calls|
  }

  function CallerStep(s: State, step: Step): State
    requires step.CancelContext? || step.CheckContext? || step.LoadOrStore? || step.AddWaiter? || step.Evict?
             || step.LookBeforeWaiting? || step.Leave? || step.TakeResult? || step.Return?
  {
    if step.i >= |s.callers| then s else
    var i := step.i;
    var caller := s.callers[i];
    match step
    case CancelContext(_) => s.(callers := s.callers[i := caller.(ctxDone := true)])
    case CheckContext(_) =>
      if !caller.pc.Entering? then s
      else WithPc(s, i, if caller.ctxDone then Returned(Canceled) else Trying)
    case LoadOrStore(_) =>
      if !caller.pc.Trying? then s
      else if caller.key in s.loads then WithPc(s, i, Joining(s.loads[caller.key]))
      else WithPc(Spawn(s, caller.key, FromDo, 1), i, Arrived(|s.calls|))
    case AddWaiter(_) =>
      if !(caller.pc.Joining? && caller.pc.call < |s.calls|) then s else
      var c := caller.pc.call;
      if Dead(s.calls[c].call) then WithPc(s, i, Evicting(c))
      else WithPc(WithCall(s, c, Joined(s.calls[c].call)), i, Arrived(c))
    case Evict(_) =>
      if !caller.pc.Evicting? then s else
      s.(loads := CompareAndDelete(s.loads, caller.key, caller.pc.call),
         callers := s.callers[i := caller.(pc := Trying, met := caller.met + {caller.pc.call})])
    case LookBeforeWaiting(_) =>
      if !(caller.pc.Arrived? && caller.pc.call < |s.calls|) then s
      else if caller.ctxDone then Depart(s, i, caller.pc.call, Returned(Canceled))
      else WithPc(s, i, Selecting(caller.pc.call))
    case Leave(_) =>
      if caller.pc.Selecting? && caller.pc.call < |s.calls| && caller.ctxDone
      then Depart(s, i, caller.pc.call, Returned(Canceled)) else s
    case TakeResult(_) =>
      if caller.pc.Selecting? && caller.pc.call < |s.calls| && s.calls[caller.pc.call].call.closes > 0
         && s.calls[caller.pc.call].call.result.Some?
      then Depart(s, i, caller.pc.call, Observed(caller.pc.call, s.calls[caller.pc.call].call.result.value)) else s
    case Return(_) =>
      if !caller.pc.Observed? then s
      else WithPc(s, i, Returned(if caller.ctxDone then Canceled else Got(caller.pc.call, caller.pc.r)))
  }

  function Depart(s: State, i: nat, c: nat, pc: CallerPc): State
    requires AtCall(s, i, c)
  {
    WithPc(WithCall(s, c, Released(s.calls[c].call)), i, pc)
  }

  function LoaderStep(s: State, step: Step): State
    requires step.LoadReturns? || step.RecordRetry? || step.RemoveKey? || step.Finish?
  {
    if step.c >= |s.calls| then s else
    var c := step.c;
    var e := s.calls[c];
    match step
    case LoadReturns(_, r) =>
      if !e.loader.Loading? then s
      else WithLoader(s, c, if e.origin == FromStart then Recording(r) else Removing(r))
    case RecordRetry(_) =>
      if !e.loader.Recording? then s
      else WithLoader(s, c, Removing(e.loader.r)).(backoff := if e.loader.r.Failure? then s.backoff + {e.key}
        else s.backoff - {e.key})
    case RemoveKey(_) =>
      if !e.loader.Removing? then s
      else WithLoader(s, c, Publishing(e.loader.r)).(loads := CompareAndDelete(s.loads, e.key, c))
    case Finish(_) =>
      if !e.loader.Publishing? then s
      else WithLoader(WithCall(s, c, Published(e.call, e.loader.r)), c, Stopped)
  }

  function Apply(s: State, step: Step): State {
    match step
    case Arrive(key) => s.(callers := s.callers + [Caller(key, false, Entering, {})])
    case Start(key, retryReady) =>
      if (key in s.backoff && !retryReady) || key in s.loads then s else Spawn(s, key, FromStart, 0)
    case LoadReturns(_, _) => LoaderStep(s, step)
    case RecordRetry(_) => LoaderStep(s, step)
    case RemoveKey(_) => LoaderStep(s, step)
    case Finish(_) => LoaderStep(s, step)
    case _ => CallerStep(s, step)
  }

  function Exec(s: State, steps: seq<Step>): State
    decreases |steps|
  {
    if steps == [] then s else Exec(Apply(s, steps[0]), steps[1..])
  }

  // ----------------------------------------------------------------- invariant

  /** The call this caller counts in, if it is currently joined to one. */
  predicate WaitsOn(caller: Caller, c: nat) {
    (caller.pc.Arrived? || caller.pc.Selecting?) && caller.pc.call == c
  }

  function WaitersOf(callers: seq<Caller>, c: nat): nat {
    if callers == [] then 0
    else WaitersOf(callers[..|callers| - 1], c) + (if WaitsOn(callers[|callers| - 1], c) then 1 else 0)
  }

  predicate Mapped(s: State, c: nat) {
    c < |s.calls| && s.calls[c].key in s.loads && s.loads[s.calls[c].key] == c
  }

  predicate Executing(e: Entry) {
    e.loader.Loading? || e.loader.Recording? || e.loader.Removing?
  }

  predicate CallInv(s: State, c: nat)
    requires c < |s.calls|
  {
    var e := s.calls[c];
    && (e.call.abandoned ==> e.call.waiters == 0)
    && (e.call.finished <==> e.loader.Stopped?)
    && (e.call.finished <==> e.call.result.Some?)
    && e.call.closes == (if e.call.finished then 1 else 0)
    && (e.call.canceled <==> Dead(e.call))
    && (Executing(e) && !e.call.abandoned ==> Mapped(s, c))
    && (!Executing(e) ==> !Mapped(s, c))
    && e.call.waiters == WaitersOf(s.callers, c)
  }

  predicate CallerInv(s: State, i: nat)
    requires i < |s.callers|
  {
    var caller := s.callers[i];
    && (forall m <- caller.met :: m < |s.calls| && Dead(s.calls[m].call) && !Mapped(s, m))
    && match caller.pc
       case Joining(c) => c < |s.calls| && s.calls[c].key == caller.key && c !in caller.met
       case Evicting(c) => c < |s.calls| && s.calls[c].key == caller.key && c !in caller.met && Dead(s.calls[c].call)
       case Arrived(c) => c < |s.calls| && s.calls[c].key == caller.key
       case Selecting(c) => c < |s.calls| && s.calls[c].key == caller.key
       case Observed(c, r) => c < |s.calls| && s.calls[c].key == caller.key && s.calls[c].call.result == Some(r)
       case Returned(Got(c, r)) => c < |s.calls| && s.calls[c].key == caller.key && s.calls[c].call.result == Some(r)
       case _ => true
  }

  predicate MapInv(s: State) {
    forall k <- s.loads :: s.loads[k] < |s.calls| && s.calls[s.loads[k]].key == k
  }

  ghost predicate Inv(s: State) {
    && MapInv(s)
    && (forall c: nat | c < |s.calls| :: CallInv(s, c))
    && (forall i: nat | i < |s.callers| :: CallerInv(s, i))
  }

  lemma {:induction false} WaitersOfUpdate(callers: seq<Caller>, i: nat, caller: Caller, c: nat)
    requires i < |callers|
    ensures WaitersOf(callers[i := caller], c)
         == WaitersOf(callers, c) - (if WaitsOn(callers[i], c) then 1 else 0) + (if WaitsOn(caller, c) then 1 else 0)
  {
    var last := |callers| - 1;
    if i == last {
      assert callers[i := caller][..last] == callers[..last];
    } else {
      assert callers[i := caller][..last] == callers[..last][i := caller];
      WaitersOfUpdate(callers[..last], i, caller, c);
    }
  }

  lemma {:induction false} WaitersOfNobody(callers: seq<Caller>, c: nat)
    requires forall i | 0 <= i < |callers| :: !WaitsOn(callers[i], c)
    ensures WaitersOf(callers, c) == 0
  {
    if callers == [] {
    } else {
      WaitersOfNobody(callers[..|callers| - 1], c);
    }
  }

  lemma {:induction false} WaiterIsCounted(callers: seq<Caller>, i: nat, c: nat)
    requires i < |callers| && WaitsOn(callers[i], c)
    ensures WaitersOf(callers, c) > 0
  {
    if i < |callers| - 1 {
      WaiterIsCounted(callers[..|callers| - 1], i, c);
    }
  }

  lemma UpdateAllWaiters(callers: seq<Caller>, i: nat, caller: Caller)
    requires i < |callers|
    ensures forall c: nat :: (
        WaitersOf(callers[i := caller], c)
        == WaitersOf(callers, c) - (if WaitsOn(callers[i], c) then 1 else 0) + (if WaitsOn(caller, c) then 1 else 0))
  {
    forall c: nat {
      WaitersOfUpdate(callers, i, caller, c);
    }
  }
}
