/**
  What survives any history of attempts, kills, power losses and other deployments.
*/
module LockReleaseSafety {
  import opened Wrappers
  import opened LockRelease

  /** The owner's directory has exactly one of its two names. */
  predicate Sound(r: Root) {
    (r.lock == Some(OWNER)) != r.archived
  }

  predicate Ordered(r: Root, cs: seq<Change>) {
    cs == [] || (Ordered(r, cs[..|cs| - 1]) && Allowed(cs[|cs| - 1], ChangedAll(r, cs[..|cs| - 1])))
  }

  predicate FileOk(f: File) {
    f.synced <= f.length <= FullLength(f.body)
  }

  /** The request asks for the lock to be released, not only for its state to be verified. */
  predicate Releases(a: Attempt) {
    a.request.release
  }

  /** The request may issue a receipt: its prepared artifact is of its own run. */
  predicate Issues(q: Request) {
    q.preparedRun == q.run
  }

  /** The receipt an attempt is about to rely on. */
  predicate Relies(s: State, a: Attempt) {
    && Releases(a)
    && s.file.Some? && Readable(s.file.value) && a.receipt == Some(s.file.value.body)
    && s.file.value.body.binding == a.request.binding && s.file.value.body.prepared == a.request.prepared
  }

  predicate Writes(s: State, a: Attempt) {
    && Releases(a) && Issues(a.request)
    && s.file.Some? && s.file.value.body == Issue(a.request) && Visible(s).lock == Some(OWNER) && a.place.Owned?
  }

  predicate AttemptOk(s: State, a: Attempt) {
    match a.at
    case Look => true
    case Probe => true
    case Create => Releases(a) && Issues(a.request) && s.file.None? && Visible(s).lock == Some(OWNER) && a.place.Owned?
    case Write => Writes(s, a)
    case Flush => Writes(s, a) && s.file.value.length == FullLength(s.file.value.body)
    case SyncFile => Relies(s, a)
    case SyncEntry => Relies(s, a) && s.file.value.synced == s.file.value.length
    case Recheck => Relies(s, a) && Complete(s.file.value)
    case Move => Relies(s, a) && Complete(s.file.value) && a.place.Owned?
    case SyncRoot => Relies(s, a) && Complete(s.file.value) && Visible(s).archived
  }

  predicate Inv(s: State) {
    && Sound(s.durable) && Ordered(s.durable, s.pending)
    && (s.file.Some? ==> FileOk(s.file.value))
    && (Visible(s).archived ==> s.file.Some? && Complete(s.file.value))
    && (forall r <- s.released :: ReleaseOk(s, r))
    && (s.attempt.Some? ==> AttemptOk(s, s.attempt.value))
  }

  /** What a returned receipt is worth from then on. */
  predicate ReleaseOk(s: State, r: Release) {
    && r.request.release && s.durable.archived
    && s.file.Some? && s.file.value.body == r.receipt && Complete(s.file.value)
    && r.receipt.binding == r.request.binding && r.receipt.prepared == r.request.prepared
  }

  // ----------------------------------------------------------------------------- the root

  lemma {:induction false} ChangesKeepSound(r: Root, cs: seq<Change>)
    requires Sound(r) && Ordered(r, cs)
    ensures Sound(ChangedAll(r, cs))
    ensures r.archived ==> ChangedAll(r, cs).archived
  {
    if cs == [] {
    } else {
      ChangesKeepSound(r, cs[..|cs| - 1]);
    }
  }

  lemma OneMoreChange(r: Root, cs: seq<Change>, c: Change)
    requires Ordered(r, cs) && Allowed(c, ChangedAll(r, cs))
    ensures Ordered(r, cs + [c]) && ChangedAll(r, cs + [c]) == Changed(ChangedAll(r, cs), c)
  {
    assert (cs + [c])[..|cs|] == cs;
  }

  /** The first pending change reaches the disk: what processes see stays the same. */
  lemma {:induction false} OneChangeLess(r: Root, cs: seq<Change>)
    requires cs != [] && Sound(r) && Ordered(r, cs)
    ensures Sound(Changed(r, cs[0])) && Ordered(Changed(r, cs[0]), cs[1..])
    ensures ChangedAll(Changed(r, cs[0]), cs[1..]) == ChangedAll(r, cs)
  {
    var init := cs[..|cs| - 1];
    if |cs| > 1 {
      OneChangeLess(r, init);
      assert cs[1..][..|cs| - 2] == init[1..];
    } else {
      assert cs[1..] == [] && init == [];
    }
  }

  // ----------------------------------------------------------------------------- the steps

  lemma SettleKeeps(s: State, bytes: nat, entry: bool, change: bool)
    requires Inv(s)
    ensures Inv(Writeback(s, bytes, entry, change))
    ensures Visible(Writeback(s, bytes, entry, change)) == Visible(s)
  {
    var t := Writeback(s, bytes, entry, change);
    if change && s.pending != [] {
      OneChangeLess(s.durable, s.pending);
    }
    assert Visible(t) == Visible(s);
  }

  lemma LoseKeeps(s: State)
    requires Inv(s)
    ensures Inv(PowerLoss(s))
  {
    ChangesKeepSound(s.durable, s.pending);
  }

  lemma ProbingKeeps(s: State, a: Attempt)
    requires Inv(s) && s.attempt == Some(a)
    ensures a.at.Look? ==> Inv(AtLook(s, a))
    ensures a.at.Probe? ==> Inv(AtProbe(s, a))
    ensures a.at.Create? ==> Inv(AtCreate(s, a))
    ensures a.at.Recheck? ==> Inv(AtRecheck(s, a))
  {
    hide ChangedAll, Ordered;
    ChangesKeepSound(s.durable, s.pending);
  }

  lemma WritingKeeps(s: State, a: Attempt, upTo: nat)
    requires Inv(s) && s.attempt == Some(a)
    ensures a.at.Write? ==> Inv(AtWrite(s, a, upTo))
    ensures a.at.Flush? ==> Inv(AtFlush(s, a))
  {
    hide ChangedAll, Ordered;
    ChangesKeepSound(s.durable, s.pending);
  }

  lemma SyncingKeeps(s: State, a: Attempt)
    requires Inv(s) && s.attempt == Some(a)
    ensures a.at.SyncFile? ==> Inv(AtSyncFile(s, a))
    ensures a.at.SyncEntry? ==> Inv(AtSyncEntry(s, a))
  {
    hide ChangedAll, Ordered;
  }

  /** The archive has appeared; `t` is the state after the rename. */
  lemma MoveKeeps(s: State, a: Attempt, t: State)
    requires Inv(s) && s.attempt == Some(a) && a.at.Move?
    requires t == s.(pending := t.pending, attempt := Some(a.(at := SyncRoot)))
    requires Ordered(t.durable, t.pending) && Visible(t) == Root(None, true)
    ensures Inv(t)
  {
    hide ChangedAll, Ordered;
  }

  lemma SyncRootKeeps(s: State, a: Attempt)
    requires Inv(s) && s.attempt == Some(a) && a.at.SyncRoot?
    ensures Inv(AtSyncRoot(s, a))
  {
    ChangesKeepSound(s.durable, s.pending);
    Settled(Visible(s));
    hide ChangedAll, Ordered;
    forall r <- AtSyncRoot(s, a).released
      ensures ReleaseOk(AtSyncRoot(s, a), r)
    {
      assert r in s.released ==> ReleaseOk(s, r);
    }
  }

  lemma Settled(r: Root)
    ensures ChangedAll(r, []) == r && Ordered(r, [])
  {
  }

  lemma RefusalKeeps(s: State)
    requires Inv(s)
    ensures Inv(Refuse(s)) && Ordered(s.durable, s.pending)
  {
  }

  lemma AdvanceKeeps(s: State, upTo: nat)
    requires Inv(s)
    ensures Inv(Advance(s, upTo))
  {
    hide Inv, AtLook, AtProbe, AtCreate, AtRecheck, AtWrite, AtFlush, AtSyncFile, AtSyncEntry, AtSyncRoot, ChangedAll,
      Ordered;
    if s.attempt.Some? {
      ProbingKeeps(s, s.attempt.value);
      WritingKeeps(s, s.attempt.value, upTo);
      SyncingKeeps(s, s.attempt.value);
      if s.attempt.value.at.Move? {
        RefusalKeeps(s);
        if Allowed(Rename, Visible(s)) {
          OneMoreChange(s.durable, s.pending, Rename);
          MoveKeeps(s, s.attempt.value, AtMove(s, s.attempt.value));
        }
      } else if s.attempt.value.at.SyncRoot? {
        SyncRootKeeps(s, s.attempt.value);
      }
    }
  }

  lemma StepKeeps(s: State, step: Step)
    requires Inv(s)
    ensures Inv(Apply(s, step))
  {
    hide Advance, PowerLoss, Writeback, ChangedAll, Ordered;
    match step
    case Begin(_) =>
    case Go(upTo) => AdvanceKeeps(s, upTo);
    case Stop =>
    case Lose => LoseKeeps(s);
    case Settle(bytes, entry, change) => SettleKeeps(s, bytes, entry, change);
    case Other(c) =>
      if Allowed(c, Visible(s)) {
        OneMoreChange(s.durable, s.pending, c);
      }
  }

  lemma {:induction false} ExecKeeps(s: State, steps: seq<Step>)
    requires Inv(s)
    ensures Inv(Exec(s, steps))
  {
    if steps == [] {
    } else {
      ExecKeeps(s, steps[..|steps| - 1]);
      StepKeeps(Exec(s, steps[..|steps| - 1]), steps[|steps| - 1]);
    }
  }

  // ----------------------------------------------------------------------------- theorems

  /**
    Neither what processes see nor what a power loss would leave ever holds this owner's lock beside its archive, or
    neither.
  */
  lemma NeverBothNames(steps: seq<Step>)
    ensures var s := Exec(INIT, steps); Sound(s.durable) && Sound(Visible(s))
  {
    ExecKeeps(INIT, steps);
    var s := Exec(INIT, steps);
    ChangesKeepSound(s.durable, s.pending);
  }

  /** A receipt, and how much of it is safe. */
  predicate Holds(s: State, body: Receipt, bytes: nat) {
    s.file.Some? && s.file.value.body == body && s.file.value.entrySynced && bytes <= s.file.value.synced
      && FileOk(s.file.value)
  }

  lemma StepKeepsReceipt(s: State, step: Step, body: Receipt, bytes: nat)
    requires Holds(s, body, bytes)
    ensures Holds(Apply(s, step), body, bytes)
  {
    hide Owner, Visible;
  }

  /** A receipt whose entry reached the disk is never replaced, removed or shortened below what was synced. */
  lemma {:induction false} DurableReceiptIsForever(s: State, steps: seq<Step>, body: Receipt, bytes: nat)
    requires Holds(s, body, bytes)
    ensures Holds(Exec(s, steps), body, bytes)
  {
    hide Apply, Holds;
    if steps == [] {
    } else {
      DurableReceiptIsForever(s, steps[..|steps| - 1], body, bytes);
      StepKeepsReceipt(Exec(s, steps[..|steps| - 1]), steps[|steps| - 1], body, bytes);
    }
  }

  lemma StepKeepsWithPower(s: State, step: Step)
    requires s.file.Some? && !step.Lose?
    ensures Apply(s, step).file.Some? && Apply(s, step).file.value.body == s.file.value.body
    ensures s.file.value.length <= Apply(s, step).file.value.length
  {
    hide Owner, Visible;
  }

  /**
    Before that, over any continuation in which the power does not fail, a receipt is never removed, replaced or
    shortened.
  */
  lemma {:induction false} OnlyPowerLossRemoves(s: State, steps: seq<Step>)
    requires s.file.Some? && Lose !in steps
    ensures var t := Exec(s, steps);
            t.file.Some? && t.file.value.body == s.file.value.body && s.file.value.length <= t.file.value.length
  {
    hide Apply;
    if steps == [] {
    } else {
      OnlyPowerLossRemoves(s, steps[..|steps| - 1]);
      StepKeepsWithPower(Exec(s, steps[..|steps| - 1]), steps[|steps| - 1]);
    }
  }

  // ----------------------------------------------------------------------------- verifying only, and issuing

  /**
    The owner proof succeeds exactly when the one visible directory is this owner's, under the lock's name or, nobody
    else holding the lock, under the archive's, and what receipt there is can be read and is bound to the request; an
    archive has to have one.
  */
  lemma OwnershipProvedExactlyWhen(steps: seq<Step>, binding: nat)
    ensures var s := Exec(INIT, steps); var root, o := Visible(s), Owner(s, binding);
      && (o.Proved? <==>
        && (root.lock == Some(OWNER) || root.lock == None)
        && (s.file.Some? ==> Readable(s.file.value) && s.file.value.body.binding == binding))
      && (o.Proved? ==> (o.place.Owned? <==> !root.archived))
      && (o.Proved? ==> o.receipt == if s.file.Some? then Some(s.file.value.body) else None)
  {
    InitHolds();
    ExecKeeps(INIT, steps);
    var s := Exec(INIT, steps);
    ChangesKeepSound(s.durable, s.pending);
    hide Exec, ChangedAll, Ordered;
  }

  /** A step of an attempt, its end, or the beginning of one whose request only verifies. */
  predicate OnlyVerifies(step: Step) {
    step.Go? || step.Stop? || (step.Begin? && !step.request.release)
  }

  lemma VerifyingStep(s: State, step: Step)
    requires Inv(s) && OnlyVerifies(step) && (s.attempt.Some? ==> !s.attempt.value.request.release)
    ensures var t := Apply(s, step);
      && t.file == s.file && t.durable == s.durable && t.pending == s.pending && t.released == s.released
      && (t.attempt.Some? ==> !t.attempt.value.request.release)
  {
    hide ChangedAll, Ordered, Owner;
  }

  /**
    A request that does not ask for the release leaves the lock, the archive, the receipt and the releases as they are.
  */
  lemma {:induction false} VerifyOnlyChangesNothing(s: State, steps: seq<Step>)
    requires Inv(s) && (s.attempt.Some? ==> !s.attempt.value.request.release) && forall step <- steps ::
      OnlyVerifies(step)
    ensures var t := Exec(s, steps);
      && t.file == s.file && t.durable == s.durable && t.pending == s.pending && t.released == s.released
      && (t.attempt.Some? ==> !t.attempt.value.request.release)
  {
    hide Apply, Inv;
    if steps == [] {
    } else {
      var init := steps[..|steps| - 1];
      VerifyOnlyChangesNothing(s, init);
      ExecKeeps(s, init);
      assert steps[|steps| - 1] in steps;
      VerifyingStep(Exec(s, init), steps[|steps| - 1]);
    }
  }

  /** Left alone, it is told exactly what the owner proof says, and refused exactly when that refuses. */
  lemma VerifyOnlyIsToldTheOwnership(s: State, q: Request, upTo: nat)
    requires Inv(s) && s.attempt.None? && !q.release
    ensures var o := Owner(s, q.binding);
      Exec(s, [Begin(q), Go(upTo), Go(upTo)]) ==
        if o.Refused? then s else s.(verified := s.verified + [Verified(q, o.place, o.receipt)])
  {
    hide ChangedAll, Ordered;
    var begun := Apply(s, Begin(q));
    assert Owner(begun, q.binding) == Owner(s, q.binding);
    var looked := Apply(begun, Go(upTo));
    assert Owner(looked, q.binding) == Owner(s, q.binding);
    ExecThree(s, Begin(q), Go(upTo), Go(upTo));
  }

  lemma ExecThree(s: State, a: Step, b: Step, c: Step)
    ensures Exec(s, [a, b, c]) == Apply(Apply(Apply(s, a), b), c)
  {
    hide Apply;
    assert [a, b, c][..2] == [a, b] && [a, b][..1] == [a] && [a][..0] == [];
    assert Exec(s, [a]) == Apply(Exec(s, []), a);
    assert Exec(s, [a, b]) == Apply(Exec(s, [a]), b);
  }

  lemma ReceiptAppearsByIssue(s: State, step: Step)
    requires Inv(s) && s.file.None? && Apply(s, step).file.Some?
    ensures step.Go? && s.attempt.Some? && s.attempt.value.at.Create?
    ensures var q := s.attempt.value.request; q.release && Issues(q) && Apply(s, step).file.value.body == Issue(q)
  {
    hide ChangedAll, Ordered, Owner;
  }

  lemma StepKeepsBody(s: State, step: Step)
    requires s.file.Some? && Apply(s, step).file.Some?
    ensures Apply(s, step).file.value.body == s.file.value.body
  {
    hide ChangedAll, Owner;
  }

  /** A receipt, wherever one is found, was issued by a release request whose prepared artifact is of its own run. */
  lemma {:induction false} ReceiptWasIssued(steps: seq<Step>) returns (k: nat, q: Request)
    requires Exec(INIT, steps).file.Some?
    ensures k < |steps| && steps[k].Go?
    ensures var s := Exec(INIT, steps[..k]); s.file.None? && s.attempt.Some? && s.attempt.value.request == q
    ensures q.release && Issues(q) && Exec(INIT, steps).file.value.body == Issue(q)
  {
    hide Apply, Inv;
    var n := |steps| - 1;
    assert steps != [];
    var s := Exec(INIT, steps[..n]);
    InitHolds();
    ExecKeeps(INIT, steps[..n]);
    if s.file.Some? {
      k, q := ReceiptWasIssued(steps[..n]);
      assert steps[..n][..k] == steps[..k];
      StepKeepsBody(s, steps[n]);
    } else {
      ReceiptAppearsByIssue(s, steps[n]);
      k, q := n, s.attempt.value.request;
    }
  }

  // ----------------------------------------------------------------------------- who archived

  /** The attempt whose rename this step is; the receipt it archives is complete and its request's own. */
  predicate Archives(s: State, step: Step, q: Request) {
    && step.Go? && s.attempt.Some? && s.attempt.value.at.Move? && s.attempt.value.request == q && q.release
    && !Visible(s).archived && Visible(Apply(s, step)).archived
    && s.file.Some? && Complete(s.file.value) && s.file.value.body.binding == q.binding
      && s.file.value.body.prepared == q.prepared
  }

  lemma OtherChangesDoNotArchive(s: State, c: Change)
    requires Inv(s) && !Visible(s).archived && !c.Rename? && Allowed(c, Visible(s))
    ensures !ChangedAll(s.durable, s.pending + [c]).archived
  {
    OneMoreChange(s.durable, s.pending, c);
  }

  /** Only a rename makes the archive appear, and it archives what its attempt relies on. */
  lemma ArchiveAppearsByRename(s: State, step: Step)
    requires Inv(s) && !Visible(s).archived && Visible(Apply(s, step)).archived
    ensures s.attempt.Some? && Archives(s, step, s.attempt.value.request)
  {
    hide ChangedAll, Ordered, Owner;
    match step
    case Begin(_) =>
    case Go(_) =>
    case Stop =>
    case Lose =>
      ChangesKeepSound(s.durable, s.pending);
      Settled(s.durable);
    case Settle(bytes, entry, change) => SettleKeeps(s, bytes, entry, change);
    case Other(c) =>
      if s.attempt.None? && !c.Rename? && Allowed(c, Visible(s)) {
        OtherChangesDoNotArchive(s, c);
      }
  }

  /**
    Wherever the archive is visible, after whatever kills, power losses and retries, some earlier step renamed the lock
    for an attempt whose request the surviving receipt is bound to.
  */
  lemma {:induction false} ArchiveIsBoundToItsRenamer(steps: seq<Step>) returns (k: nat, q: Request)
    requires Visible(Exec(INIT, steps)).archived
    ensures k < |steps| && Archives(Exec(INIT, steps[..k]), steps[k], q)
    ensures var s := Exec(INIT, steps);
            s.file.Some? && Complete(s.file.value) && s.file.value.body.binding == q.binding
              && s.file.value.body.prepared == q.prepared
  {
    hide Apply, Archives, Inv;
    var n := |steps| - 1;
    Settled(INIT.durable);
    assert steps != [];
    var s := Exec(INIT, steps[..n]);
    InitHolds();
    ExecKeeps(INIT, steps[..n]);
    if Visible(s).archived {
      k, q := ArchiveIsBoundToItsRenamer(steps[..n]);
      assert steps[..n][..k] == steps[..k];
      ArchivedHolds(s);
      StepKeepsReceipt(s, steps[n], s.file.value.body, s.file.value.synced);
    } else {
      ArchiveAppearsByRename(s, steps[n]);
      k, q := n, s.attempt.value.request;
      RenamedReceipt(s, steps[n], q);
      StepKeepsReceipt(s, steps[n], s.file.value.body, s.file.value.synced);
    }
  }

  /**
    An archive on disk holds a receipt that every power loss leaves readable, bound to the request of an attempt that
    renamed the lock.
  */
  lemma DurableArchiveHoldsItsReceipt(steps: seq<Step>) returns (k: nat, q: Request)
    requires Exec(INIT, steps).durable.archived
    ensures k < |steps| && Archives(Exec(INIT, steps[..k]), steps[k], q)
    ensures var after := PowerLoss(Exec(INIT, steps));
            && Visible(after).archived && after.file.Some? && Readable(after.file.value)
            && after.file.value.body.binding == q.binding && after.file.value.body.prepared == q.prepared
  {
    InitHolds();
    ExecKeeps(INIT, steps);
    var s := Exec(INIT, steps);
    ChangesKeepSound(s.durable, s.pending);
    Settled(s.durable);
    hide Exec, Archives, ChangedAll, Ordered;
    k, q := ArchiveIsBoundToItsRenamer(steps);
  }

  lemma InitHolds()
    ensures Inv(INIT)
  {
    Settled(INIT.durable);
  }

  lemma ArchivedHolds(s: State)
    requires Inv(s) && Visible(s).archived
    ensures s.file.Some? && Complete(s.file.value) && Holds(s, s.file.value.body, s.file.value.synced)
  {
    hide ChangedAll, Ordered;
  }

  lemma RenamedReceipt(s: State, step: Step, q: Request)
    requires Inv(s) && Archives(s, step, q)
    ensures s.file.Some? && Complete(s.file.value) && Holds(s, s.file.value.body, s.file.value.synced)
    ensures s.file.value.body.binding == q.binding && s.file.value.body.prepared == q.prepared
  {
    hide ChangedAll, Ordered;
  }

  /**
    Every successful release, in whatever order crashes and retries happened, was asked for and returned one and the
    same receipt, bound to its own request; from then on the archive is on disk with that receipt.
  */
  lemma ReleasesAgree(steps: seq<Step>, a: Release, b: Release)
    requires a in Exec(INIT, steps).released && b in Exec(INIT, steps).released
    ensures a.receipt == b.receipt && a.receipt.binding == a.request.binding && a.receipt.prepared == a.request.prepared
    ensures a.request.release
    ensures var s := Exec(INIT, steps);
      && s.durable.archived && s.file.Some? && s.file.value.body == a.receipt
      && Complete(s.file.value)
  {
    ExecKeeps(INIT, steps);
    var s := Exec(INIT, steps);
    assert ReleaseOk(s, a) && ReleaseOk(s, b);
  }

  /** A receipt too short to read, with nobody at work on it. */
  predicate Torn(s: State) {
    s.file.Some? && FileOk(s.file.value) && !Readable(s.file.value) && (s.attempt.None? || s.attempt.value.at.Look?)
  }

  lemma StepKeepsTorn(s: State, step: Step)
    requires Torn(s) && (step.Lose? ==> s.file.value.entrySynced)
    ensures var t := Apply(s, step);
            && Torn(t) && t.file.value.body == s.file.value.body && t.released == s.released
            && (s.file.value.entrySynced ==> t.file.value.entrySynced)
  {
    hide Visible;
  }

  /**
    A torn receipt makes every later attempt refuse at its first look: for ever once its entry is on disk, and until the
    power fails otherwise.
  */
  lemma {:induction false} TornReceiptRefusesEveryone(s: State, steps: seq<Step>)
    requires Torn(s) && (s.file.value.entrySynced || Lose !in steps)
    ensures var t := Exec(s, steps);
            && Torn(t) && t.file.value.body == s.file.value.body && t.released == s.released
            && (s.file.value.entrySynced ==> t.file.value.entrySynced)
            && forall binding :: Owner(t, binding).Refused?
  {
    hide Apply, Visible;
    if steps == [] {
    } else {
      TornReceiptRefusesEveryone(s, steps[..|steps| - 1]);
      StepKeepsTorn(Exec(s, steps[..|steps| - 1]), steps[|steps| - 1]);
    }
  }

  // ----------------------------------------------------------------------------- recovery

  function Goes(upTo: nat, n: nat): seq<Step> {
    if n == 0 then [] else Goes(upTo, n - 1) + [Go(upTo)]
  }

  function Advanced(s: State, upTo: nat, n: nat): State {
    if n == 0 then s else Advance(Advanced(s, upTo, n - 1), upTo)
  }

  lemma {:induction false} GoesAdvance(s: State, q: Request, upTo: nat, n: nat)
    requires s.attempt.None?
    ensures Exec(s, [Begin(q)] + Goes(upTo, n)) == Advanced(Apply(s, Begin(q)), upTo, n)
  {
    var steps := [Begin(q)] + Goes(upTo, n);
    if n == 0 {
      assert steps == [Begin(q)];
      assert steps[..0] == [];
      assert Exec(s, []) == s;
    } else {
      GoesAdvance(s, q, upTo, n - 1);
      assert steps[..|steps| - 1] == [Begin(q)] + Goes(upTo, n - 1);
    }
  }

  /** From a receipt that the attempt relies on, the remaining steps release. */
  lemma SyncedReleases(s: State, a: Attempt, upTo: nat)
    requires Inv(s) && s.attempt == Some(a) && a.at.SyncFile?
      && Owner(s, a.request.binding) == Proved(a.place, a.receipt)
    ensures var t := Advanced(s, upTo, if a.place.Owned? then 5 else 4);
            t.attempt.None? && t.durable.archived && t.released == s.released + [Release(a.request, a.receipt.value)]
  {
    hide ChangedAll, Ordered;
    var s1 := AtSyncFile(s, a);
    assert s1 == Advanced(s, upTo, 1);
    var s2 := AtSyncEntry(s1, s1.attempt.value);
    assert s2 == Advanced(s, upTo, 2);
    assert Visible(s2) == Visible(s);
    var s3 := AtRecheck(s2, s2.attempt.value);
    assert s3 == Advanced(s, upTo, 3);
    assert Visible(s3) == Visible(s);
    if a.place.Owned? {
      OneMoreChange(s3.durable, s3.pending, Rename);
      var s4 := AtMove(s3, s3.attempt.value);
      assert s4 == Advanced(s, upTo, 4);
      assert Visible(s4).archived;
      assert Advanced(s, upTo, 5) == AtSyncRoot(s4, s4.attempt.value);
    } else {
      assert Advanced(s, upTo, 4) == AtSyncRoot(s3, s3.attempt.value);
    }
  }

  lemma {:induction false} AdvancedSplits(s: State, upTo: nat, m: nat, n: nat)
    ensures Advanced(Advanced(s, upTo, m), upTo, n) == Advanced(s, upTo, m + n)
    decreases n
  {
    hide Advance;
    if n == 0 {
    } else {
      AdvancedSplits(s, upTo, m, n - 1);
    }
  }

  /** Issuing a new receipt leads to one the attempt relies on. */
  lemma CreationSyncs(s: State, a: Attempt)
    requires Inv(s) && s.attempt == Some(a) && a.at.Create? && a.receipt.None?
    ensures var t := Advanced(s, FullLength(Issue(a.request)), 3);
            && t.attempt == Some(a.(at := SyncFile, receipt := Some(Issue(a.request))))
            && t.released == s.released && Inv(t)
              && Owner(t, a.request.binding) == Proved(a.place, Some(Issue(a.request)))
  {
    hide ChangedAll, Ordered;
    var upTo := FullLength(Issue(a.request));
    ChangesKeepSound(s.durable, s.pending);
    var s1 := AtCreate(s, a);
    assert s1 == Advanced(s, upTo, 1);
    var s2 := AtWrite(s1, s1.attempt.value, upTo);
    assert s2 == Advanced(s, upTo, 2);
    var s3 := AtFlush(s2, s2.attempt.value);
    assert s3 == Advanced(s, upTo, 3);
    assert Visible(s3) == Visible(s);
    ProbingKeeps(s, a);
    WritingKeeps(s1, s1.attempt.value, upTo);
    WritingKeeps(s2, s2.attempt.value, upTo);
  }

  lemma ProbesPass(s: State, q: Request, upTo: nat)
    requires Inv(s) && s.attempt.None? && q.release && Owner(s, q.binding).Proved?
    requires var r := Owner(s, q.binding).receipt; if r.Some? then r.value.prepared == q.prepared
      else q.preparedRun == q.run
    ensures var o := Owner(s, q.binding);
            var t := Advanced(Apply(s, Begin(q)), upTo, 2);
            t == s.(attempt := Some(Attempt(q, if o.receipt.Some? then SyncFile else Create, o.place, o.receipt)))
              && Inv(t) && Owner(t, q.binding) == o
  {
    hide ChangedAll, Ordered;
    var o := Owner(s, q.binding);
    var begun := s.(attempt := Some(Attempt(q, Look, Owned, None)));
    StepKeeps(s, Begin(q));
    ProbingKeeps(begun, begun.attempt.value);
    var looked := AtLook(begun, begun.attempt.value);
    assert Owner(begun, q.binding) == o && Owner(looked, q.binding) == o;
    assert looked == Advanced(begun, upTo, 1);
    ProbingKeeps(looked, looked.attempt.value);
    assert AtProbe(looked, looked.attempt.value) == Advanced(begun, upTo, 2);
  }

  /**
    However earlier attempts ended, an owner proof that succeeds is enough: an undisturbed release with the prepared
    artifact of the receipt, or with its own when there is none, archives the lock durably and returns that receipt.
  */
  lemma RetryCompletes(s: State, q: Request) returns (n: nat)
    requires Inv(s) && s.attempt.None? && q.release && Owner(s, q.binding).Proved?
    requires var r := Owner(s, q.binding).receipt; if r.Some? then r.value.prepared == q.prepared
      else q.preparedRun == q.run
    ensures var r := Owner(s, q.binding).receipt;
            var t := Exec(s, [Begin(q)] + Goes(FullLength(Issue(q)), n));
            && t.attempt.None? && t.durable.archived
            && t.released == s.released + [Release(q, if r.Some? then r.value else Issue(q))]
  {
    hide Apply, Advanced, Inv, Owner, Exec, Goes;
    var upTo := FullLength(Issue(q));
    var begun := Apply(s, Begin(q));
    ProbesPass(s, q, upTo);
    var probed := Advanced(begun, upTo, 2);
    if probed.attempt.value.at.SyncFile? {
      SyncedReleases(probed, probed.attempt.value, upTo);
      n := if probed.attempt.value.place.Owned? then 5 else 4;
      AdvancedSplits(begun, upTo, 2, n);
      n := 2 + n;
    } else {
      CreationSyncs(probed, probed.attempt.value);
      var synced := Advanced(probed, upTo, 3);
      SyncedReleases(synced, synced.attempt.value, upTo);
      AdvancedSplits(begun, upTo, 2, 3);
      n := if probed.attempt.value.place.Owned? then 5 else 4;
      AdvancedSplits(begun, upTo, 5, n);
      n := 5 + n;
    }
    GoesAdvance(s, q, upTo, n);
  }
}
