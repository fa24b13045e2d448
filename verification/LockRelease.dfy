/**
  Releasing the owner lock: write an exclusive receipt into the lock directory, make it durable, rename the directory to
  its archive, make the rename durable. What processes see is kept apart from what a power loss leaves: a file has the
  bytes written and the bytes synced, its directory entry may not be durable yet, and changes of the root reach the disk
  in order. Attempts exclude one another by the command flock; each may be killed between any two of its steps.
*/
module LockRelease {
  import opened Wrappers

  type Positive = n: nat | 0 < n witness 1

  // A receipt, with the length of its JSON. The file ends in one more byte, a newline, which a reader does not need.
  datatype Receipt = Receipt(binding: nat, prepared: nat, run: nat, stamp: nat, json: Positive)

  function FullLength(r: Receipt): nat {
    r.json + 1
  }

  datatype File = File(body: Receipt, length: nat, synced: nat, entrySynced: bool)

  predicate Readable(f: File) {
    f.body.json <= f.length
  }

  /** Readable after any power loss. */
  predicate Complete(f: File) {
    f.entrySynced && f.body.json <= f.synced
  }

  // Whose directory `.deploy-lock` is, and whether this owner's archive exists.
  datatype Root = Root(lock: Option<nat>, archived: bool)

  const OWNER: nat := 0

  datatype Change = Rename | Take(owner: nat) | Drop

  predicate Allowed(c: Change, r: Root) {
    match c
    case Rename => r.lock == Some(OWNER) && !r.archived
    case Take(owner) => r.lock.None? && owner != OWNER
    case Drop => r.lock.Some? && r.lock.value != OWNER
  }

  function Changed(r: Root, c: Change): Root {
    match c
    case Rename => Root(None, true)
    case Take(owner) => r.(lock := Some(owner))
    case Drop => r.(lock := None)
  }

  function ChangedAll(r: Root, cs: seq<Change>): Root {
    if cs == [] then r else Changed(ChangedAll(r, cs[..|cs| - 1]), cs[|cs| - 1])
  }

  datatype Request = Request(binding: nat, prepared: nat, preparedRun: nat, run: nat, stamp: nat, json: Positive,
      release: bool)

  datatype Where = Owned | Archived

  datatype Point = Look | Probe | Create | Write | Flush | SyncFile | SyncEntry | Recheck | Move | SyncRoot

  datatype Attempt = Attempt(request: Request, at: Point, place: Where, receipt: Option<Receipt>)

  // A release that succeeded, and the receipt it returned.
  datatype Release = Release(request: Request, receipt: Receipt)

  // What a request that only verifies is told: where the owner's directory is and what receipt it holds.
  datatype Verified = Verified(request: Request, place: Where, receipt: Option<Receipt>)

  // `durable` is the root on disk, `pending` the changes of it that are not there yet.
  datatype State = State(durable: Root, pending: seq<Change>, file: Option<File>, attempt: Option<Attempt>,
      released: seq<Release>, verified: seq<Verified>)

  function Visible(s: State): Root {
    ChangedAll(s.durable, s.pending)
  }

  const INIT := State(Root(Some(OWNER), false), [], None, None, [], [])

  // ----------------------------------------------------------------------------- reading the state

  datatype Ownership = Refused | Proved(place: Where, receipt: Option<Receipt>)

  function Owner(s: State, binding: nat): Ownership {
    var root := Visible(s);
    if root.lock.Some? && (root.archived || root.lock.value != OWNER) then Refused
    else if root.lock.None? && !root.archived then Refused
    else
      var place := if root.lock.Some? then Owned else Archived;
      match s.file
      case None => if place.Archived? then Refused else Proved(place, None)
      case Some(f) => if Readable(f) && f.body.binding == binding then Proved(place, Some(f.body)) else Refused
  }

  function Issue(q: Request): Receipt {
    Receipt(q.binding, q.prepared, q.run, q.stamp, q.json)
  }

  // ----------------------------------------------------------------------------- steps of an attempt

  function Refuse(s: State): State {
    s.(attempt := None)
  }

  function Goto(s: State, a: Attempt, at: Point): State {
    s.(attempt := Some(a.(at := at)))
  }

  function AtLook(s: State, a: Attempt): State {
    var o := Owner(s, a.request.binding);
    if o.Refused? then Refuse(s) else s.(attempt := Some(a.(at := Probe, place := o.place, receipt := o.receipt)))
  }

  /** The live probes passed; the proof is taken again and the request's mode decides. */
  function AtProbe(s: State, a: Attempt): State {
    var q := a.request;
    if Owner(s, q.binding) != Proved(a.place, a.receipt) then Refuse(s)
    else if !q.release then s.(attempt := None, verified := s.verified + [Verified(q, a.place, a.receipt)])
    else if a.receipt.Some? then if a.receipt.value.prepared == q.prepared then Goto(s, a, SyncFile) else Refuse(s)
    else if q.preparedRun == q.run then Goto(s, a, Create) else Refuse(s)
  }

  /** Exclusive creation: an existing file refuses. */
  function AtCreate(s: State, a: Attempt): State {
    if s.file.Some? || a.place.Archived? then Refuse(s)
    else Goto(s.(file := Some(File(Issue(a.request), 0, 0, false))), a, Write)
  }

  /** Some more of the bytes are written, up to all of them. */
  function AtWrite(s: State, a: Attempt, upTo: nat): State {
    if s.file.None? then Refuse(s)
    else
      var f := s.file.value;
      var length := if f.length <= upTo <= FullLength(f.body) then upTo else f.length;
      Goto(s.(file := Some(f.(length := length))), a, if length == FullLength(f.body) then Flush else Write)
  }

  /** Synced, and read back as written. */
  function AtFlush(s: State, a: Attempt): State {
    if s.file.None? || s.file.value.body != Issue(a.request) || s.file.value.length != FullLength(s.file.value.body)
      then Refuse(s)
    else s.(file := Some(s.file.value.(synced := s.file.value.length)),
      attempt := Some(a.(at := SyncFile, receipt := Some(s.file.value.body))))
  }

  function AtSyncFile(s: State, a: Attempt): State {
    if s.file.None? then Refuse(s)
      else Goto(s.(file := Some(s.file.value.(synced := s.file.value.length))), a, SyncEntry)
  }

  function AtSyncEntry(s: State, a: Attempt): State {
    if s.file.None? then Refuse(s) else Goto(s.(file := Some(s.file.value.(entrySynced := true))), a, Recheck)
  }

  function AtRecheck(s: State, a: Attempt): State {
    if Owner(s, a.request.binding) != Proved(a.place, a.receipt) then Refuse(s)
    else Goto(s, a, if a.place.Owned? then Move else SyncRoot)
  }

  function AtMove(s: State, a: Attempt): State {
    if !Allowed(Rename, Visible(s)) then Refuse(s) else Goto(s.(pending := s.pending + [Rename]), a, SyncRoot)
  }

  function AtSyncRoot(s: State, a: Attempt): State {
    if a.receipt.None? then Refuse(s)
    else s.(durable := Visible(s), pending := [], attempt := None,
      released := s.released + [Release(a.request, a.receipt.value)])
  }

  function Advance(s: State, upTo: nat): State {
    if s.attempt.None? then s
    else
      var a := s.attempt.value;
      match a.at
      case Look => AtLook(s, a)
      case Probe => AtProbe(s, a)
      case Create => AtCreate(s, a)
      case Write => AtWrite(s, a, upTo)
      case Flush => AtFlush(s, a)
      case SyncFile => AtSyncFile(s, a)
      case SyncEntry => AtSyncEntry(s, a)
      case Recheck => AtRecheck(s, a)
      case Move => AtMove(s, a)
      case SyncRoot => AtSyncRoot(s, a)
  }

  // ----------------------------------------------------------------------------- the world around it

  /** What the disk kept. */
  function PowerLoss(s: State): State {
    var file := if s.file.Some? && s.file.value.entrySynced then Some(s.file.value.(length := s.file.value.synced))
      else None;
    s.(pending := [], file := file, attempt := None)
  }

  /** The disk may catch up by itself, in any amount: bytes and entry freely, root changes in order. */
  function Writeback(s: State, bytes: nat, entry: bool, change: bool): State {
    var file := if s.file.None? then None
                else
                  var f := s.file.value;
                  Some(f.(synced := if f.synced <= bytes <= f.length then bytes
                    else f.synced, entrySynced := f.entrySynced || entry));
    if change && s.pending != []
      then s.(file := file, durable := Changed(s.durable, s.pending[0]), pending := s.pending[1..])
    else s.(file := file)
  }

  datatype Step =
    | Begin(request: Request)
    | Go(upTo: nat)
    | Stop            // a kill, a refused probe or any other exception
    | Lose            // power
    | Settle(bytes: nat, entry: bool, change: bool)
    | Other(did: Change)   // another deployment takes or drops the lock

  function Apply(s: State, step: Step): State {
    match step
    case Begin(q) => if s.attempt.Some? then s else s.(attempt := Some(Attempt(q, Look, Owned, None)))
    case Go(upTo) => Advance(s, upTo)
    case Stop => Refuse(s)
    case Lose => PowerLoss(s)
    case Settle(bytes, entry, change) => Writeback(s, bytes, entry, change)
    case Other(c) =>
      if s.attempt.Some? || c.Rename? || !Allowed(c, Visible(s)) then s else s.(pending := s.pending + [c])
  }

  function Exec(s: State, steps: seq<Step>): State {
    if steps == [] then s else Apply(Exec(s, steps[..|steps| - 1]), steps[|steps| - 1])
  }
}
