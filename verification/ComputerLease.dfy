/** The lease that serialises one owner's computer, and the calls that compete for it
    (apps/server/src/computer.ts).

    A state holds the two durable things, the lease record and the command receipts, the
    clock, and one program counter per call.  Every event performs at most one store call
    or one Docker call, so calls interleave exactly where the source awaits. */
module ComputerLease {
  import opened Runs
  import Paging

  const LEASE_DURATION: nat := 180000

  type Pid = nat
  type OpId = nat

  /** Who asked for a lease: a start or file operation, a command, or Stop itself. */
  datatype Kind = Operation | Command(id: OpId) | StopRequest

  /** The stored lease. Attempt 0 stands for the empty string. */
  datatype Lease = Lease(
    token: nat, expiresAt: nat, stopping: bool, stopInFlight: bool, stopAttempt: nat,
    stopConfirmed: bool, executorDone: bool, command: bool)

  datatype Status = Running | Interrupted | Succeeded | Failed | TimedOut

  datatype DockerResult = DockerResult(exitCode: Option<int>, timedOut: bool, interrupted: bool)

  /** The status a finished `docker exec` asks for. */
  function Verdict(r: DockerResult): Status {
    if r.interrupted then Interrupted
    else if r.timedOut || r.exitCode == Some(124) then TimedOut
    else if r.exitCode == Some(0) then Succeeded
    else Failed
  }

  /** Where a call is: the await it is suspended at, with the locals it still needs. */
  datatype Proc =
    // acquire
    | AcquireGet(kind: Kind)
    | AcquireCheck(kind: Kind, prev: Option<Lease>)
    | AcquireClaim(kind: Kind, prev: Option<Lease>, mine: Lease)
    // start and file operations, between acquire and release
    | Body(token: nat)
    // execute
    | LookUp(id: OpId)
    | Prepare(token: nat, id: OpId)
    | Insert(token: nat, id: OpId)
    | ReadActive(token: nat, id: OpId)
    | CheckActive(token: nat, id: OpId, active: Option<Lease>)
    | Refuse(token: nat, id: OpId)
    | DockerExec(token: nat, id: OpId)
    | Cleanup(token: nat, id: OpId, result: DockerResult)
    | CleanupDocker(token: nat, id: OpId, result: DockerResult, attempt: nat)
    | CleanupConfirm(token: nat, id: OpId, result: DockerResult, attempt: nat)
    | CleanupRollback(token: nat, id: OpId, result: DockerResult, attempt: nat, confirmed: bool)
    | Save(token: nat, id: OpId, result: DockerResult)
    | SaveInterrupted(token: nat, id: OpId)
    // the finally block of exclusive; `ok` tells a normal return from a thrown error
    | MarkDone(token: nat, ok: bool)
    | Release(token: nat, command: bool, ok: bool)
    | ReleaseStopped(token: nat, ok: bool)
    // stop
    | StopGet
    | StopCheck(prev: Option<Lease>)
    | StopMark(snap: Lease)
    | StopList(token: nat, attempt: nat)
    | StopCommands(token: nat, attempt: nat, todo: set<OpId>)
    | StopDocker(token: nat, attempt: nat)
    | StopConfirm(token: nat, attempt: nat)
    | StopRelease(token: nat, attempt: nat)
    | StopRollback(token: nat, attempt: nat, confirmed: bool)
    // commands: the sweep that interrupts receipts of a lapsed lease
    | SweepList
    | SweepGet(todo: set<OpId>)
    | SweepCheck(todo: set<OpId>, lease: Option<Lease>)
    | SweepCommands(todo: set<OpId>)
    | Finished(ok: bool)

  datatype State = State(
    now: nat,
    nextId: nat,                 // the next random identifier
    lease: Option<Lease>,
    receipts: map<OpId, Status>,
    stamps: map<OpId, nat>,      // when each receipt was last written
    procs: map<Pid, Proc>,
    // history, read by no step
    issued: map<nat, Pid>,       // who drew each identifier
    installed: map<nat, Kind>,   // every token that was ever in the lease
    inserter: map<OpId, Pid>,    // who saved each receipt
    execs: seq<OpId>,            // every `docker exec` started
    results: map<OpId, DockerResult>,  // how it ended
    interrupted: set<OpId>,      // the receipts a Stop, a sweep or a refusal interrupted
    overturned: set<nat>)        // the attempts whose confirmation their own rollback took back

  const START := State(0, 1, None, map[], map[], map[], map[], map[], map[], [], map[], {}, {})

  /** What the outside world decides in one step: a clock reading that was taken before the
      store call ran, the row a loop handles, how Docker ended. */
  datatype Oracle = Oracle(stamp: nat, id: OpId, result: DockerResult, ok: bool)

  /** Everything goes well. */
  const PLAINLY := Oracle(0, 0, DockerResult(Some(0), false, false), true)

  datatype Event =
    | Tick(ms: nat)
    | Begin(p: Pid, entry: Proc)
    | Go(p: Pid, o: Oracle)
    | Throw(p: Pid)              // the awaited call failed without effect
    | Lose(p: Pid, o: Oracle)    // the awaited store call took effect, and then failed

  predicate IsEntry(e: Proc) {
    (e.AcquireGet? && e.kind.Operation?) || e.LookUp? || e.StopGet? || e.SweepList?
  }

  function At(s: State, p: Pid, pc: Proc): State { s.(procs := s.procs[p := pc]) }

  /** An identifier nobody was given before. */
  function Draw(s: State, p: Pid): State { s.(nextId := s.nextId + 1, issued := s.issued[s.nextId := p]) }

  /** The state after a swap of the lease whose expectation matched. */
  function SetLease(s: State, l: Lease): State { s.(lease := Some(l)) }

  /** The state after a receipt was written: the store stamps the row. */
  function SetReceipt(s: State, id: OpId, status: Status): State {
    s.(receipts := s.receipts[id := status], stamps := s.stamps[id := s.now])
  }

  /** The running receipts among those a listing answers with. */
  function Unfinished(s: State): (r: set<OpId>)
    ensures forall id :: id in r ==> id in s.receipts && s.receipts[id] == Running
  {
    set id | id in Paging.Newest(s.stamps) && id in s.receipts && s.receipts[id] == Running
  }

  function Entered(kind: Kind, l: Lease): Proc {
    match kind
    case Operation => Body(l.token)
    case Command(id) => Prepare(l.token, id)
    case StopRequest => StopMark(l)
  }

  function NewLease(token: nat, stamp: nat, kind: Kind): Lease {
    Lease(token, stamp + LEASE_DURATION, false, false, 0, false, !kind.Command?, kind.Command?)
  }

  function Marked(l: Lease, attempt: nat, stamp: nat): Lease {
    l.(stopping := true, stopInFlight := true, stopAttempt := attempt, stopConfirmed := false,
       expiresAt := stamp + LEASE_DURATION)
  }

  predicate Lapsed(l: Option<Lease>, now: nat) { l.None? || l.value.expiresAt <= now }

  predicate Releasable(l: Lease, token: nat) {
    l.token == token && l.stopping && l.stopConfirmed && l.executorDone && !l.stopInFlight
  }

  /** What one step of a call does: the shared state after it, and where the call goes next. */
  datatype Move = Move(s: State, pc: Proc)

  /** The step left the receipts, and everything recorded about them, alone. */
  predicate KeepsReceipts(s: State, t: State) {
    t.receipts == s.receipts && t.stamps == s.stamps && t.inserter == s.inserter && t.execs == s.execs
    && t.results == s.results && t.interrupted == s.interrupted
  }

  /** The step left the lease, and everything recorded about it, alone. */
  predicate KeepsLease(s: State, t: State) {
    t.lease == s.lease && t.nextId == s.nextId && t.issued == s.issued && t.installed == s.installed
    && t.overturned == s.overturned
  }

  predicate KeepsToken(s: State, t: State) {
    t.lease == s.lease || (s.lease.Some? && t.lease.Some? && t.lease.value.token == s.lease.value.token)
  }

  predicate Untouched(s: State, t: State) { t.procs == s.procs && t.now == s.now && s.overturned <= t.overturned }

  // ------------------------------------------------------------------ acquire

  predicate InAcquire(pc: Proc) { pc.AcquireGet? || pc.AcquireCheck? || pc.AcquireClaim? }

  function AcquireStep(s: State, p: Pid, o: Oracle, pc: Proc): (m: Option<Move>)
    requires InAcquire(pc)
    ensures m.Some? ==> Untouched(s, m.value.s) && KeepsReceipts(s, m.value.s)
    ensures m.Some? ==> pc.AcquireClaim? || m.value.s.lease == s.lease
  {
    match pc
    case AcquireGet(kind) => Some(Move(s, AcquireCheck(kind, s.lease)))
    case AcquireCheck(kind, prev) =>
      if o.stamp > s.now then None
      else
        var mine := NewLease(s.nextId, o.stamp, kind);
        var s' := Draw(s, p);
        if Lapsed(prev, s.now) then Some(Move(s', AcquireClaim(kind, prev, mine)))
        else Some(Move(s', Finished(false)))
    case AcquireClaim(kind, prev, mine) =>
      var free := if prev.Some?
                  then s.lease.Some? && s.lease.value.token == prev.value.token
                       && s.lease.value.expiresAt == prev.value.expiresAt
                  else s.lease.None?;
      if free then
        Some(Move(SetLease(s, mine).(installed := s.installed[mine.token := kind]), Entered(kind, mine)))
      else Some(Move(s, Finished(false)))
  }

  // ------------------------------------------------------------------ execute

  predicate InExecute(pc: Proc) {
    pc.LookUp? || pc.Prepare? || pc.Insert? || pc.ReadActive? || pc.CheckActive? || pc.Refuse?
    || pc.DockerExec? || pc.Save? || pc.SaveInterrupted?
  }

  function ExecuteStep(s: State, p: Pid, o: Oracle, pc: Proc): (m: Option<Move>)
    requires InExecute(pc)
    ensures m.Some? ==> Untouched(s, m.value.s) && KeepsLease(s, m.value.s)
  {
    match pc
    case LookUp(id) =>
      if id in s.receipts then Some(Move(s, SweepList)) else Some(Move(s, AcquireGet(Command(id))))
    case Prepare(t, id) => Some(Move(s, Insert(t, id)))
    case Insert(t, id) =>
      if id in s.receipts then Some(Move(s, MarkDone(t, true)))
      else Some(Move(SetReceipt(s, id, Running).(inserter := s.inserter[id := p]), ReadActive(t, id)))
    case ReadActive(t, id) => Some(Move(s, CheckActive(t, id, s.lease)))
    case CheckActive(t, id, active) =>
      if Lapsed(active, s.now) || active.value.token != t || active.value.stopping
      then Some(Move(s, Refuse(t, id)))
      else Some(Move(s.(execs := s.execs + [id]), DockerExec(t, id)))
    case Refuse(t, id) =>
      Some(Move(SetReceipt(s, id, Interrupted).(interrupted := s.interrupted + {id}), MarkDone(t, true)))
    case DockerExec(t, id) =>
      var s' := s.(results := s.results[id := o.result]);
      if o.result.timedOut || o.result.interrupted then Some(Move(s', Cleanup(t, id, o.result)))
      else Some(Move(s', Save(t, id, o.result)))
    case Save(t, id, result) =>
      if id in s.receipts && s.receipts[id] == Running
      then Some(Move(SetReceipt(s, id, Verdict(result)), MarkDone(t, true)))
      else Some(Move(s, SaveInterrupted(t, id)))
    case SaveInterrupted(t, id) => Some(Move(SetReceipt(s, id, Interrupted), MarkDone(t, true)))
  }

  predicate InCleanup(pc: Proc) { pc.Cleanup? || pc.CleanupDocker? || pc.CleanupConfirm? || pc.CleanupRollback? }

  /** The timeout cleanup inside execute, which stops the sandbox under its own attempt. */
  function CleanupStep(s: State, p: Pid, o: Oracle, pc: Proc): (m: Option<Move>)
    requires InCleanup(pc)
    ensures m.Some? ==> Untouched(s, m.value.s) && KeepsReceipts(s, m.value.s) && KeepsToken(s, m.value.s)
  {
    match pc
    case Cleanup(t, id, result) =>
      if o.stamp > s.now then None
      else
        var a := s.nextId;
        var s' := Draw(s, p);
        if s.lease.Some? && s.lease.value.token == t && !s.lease.value.stopping
        then Some(Move(SetLease(s', Marked(s.lease.value, a, o.stamp)), CleanupDocker(t, id, result, a)))
        else Some(Move(s', Save(t, id, result)))
    case CleanupDocker(t, id, result, a) =>
      Some(Move(s, if o.ok then CleanupConfirm(t, id, result, a) else CleanupRollback(t, id, result, a, false)))
    case CleanupConfirm(t, id, result, a) =>
      Some(Move(Confirm(s, t, a), Save(t, id, result)))
    case CleanupRollback(t, id, result, a, confirmed) =>
      Some(Move(Rollback(s, t, a), Save(t, id, result)))
  }

  function Confirm(s: State, token: nat, attempt: nat): State {
    if s.lease.Some? && s.lease.value.token == token && s.lease.value.stopAttempt == attempt
    then SetLease(s, s.lease.value.(stopInFlight := false, stopConfirmed := true))
    else s
  }

  function Rollback(s: State, token: nat, attempt: nat): State {
    if s.lease.Some? && s.lease.value.token == token && s.lease.value.stopAttempt == attempt
    then SetLease(s, s.lease.value.(stopInFlight := false, stopConfirmed := false)).(
           overturned := s.overturned + if s.lease.value.stopConfirmed then {attempt} else {})
    else s
  }

  function ReleaseIfStopped(s: State, token: nat): State {
    if s.lease.Some? && Releasable(s.lease.value, token)
    then SetLease(s, s.lease.value.(expiresAt := 0))
    else s
  }

  // ------------------------------------------------------------------ exclusive's finally

  predicate InRelease(pc: Proc) { pc.Body? || pc.MarkDone? || pc.Release? || pc.ReleaseStopped? }

  function ReleaseStep(s: State, p: Pid, o: Oracle, pc: Proc): (m: Option<Move>)
    requires InRelease(pc)
    ensures m.Some? ==> Untouched(s, m.value.s) && KeepsReceipts(s, m.value.s) && KeepsToken(s, m.value.s)
  {
    match pc
    case Body(t) => Some(Move(s, Release(t, false, o.ok)))
    case MarkDone(t, ok) =>
      var s' := if s.lease.Some? && s.lease.value.token == t
                then SetLease(s, s.lease.value.(executorDone := true)) else s;
      Some(Move(s', Release(t, true, ok)))
    case Release(t, command, ok) =>
      var s' := if s.lease.Some? && s.lease.value.token == t && !s.lease.value.stopping
                then SetLease(s, s.lease.value.(expiresAt := 0)) else s;
      Some(Move(s', ReleaseStopped(t, ok)))
    case ReleaseStopped(t, ok) => Some(Move(ReleaseIfStopped(s, t), Finished(ok)))
  }

  // ------------------------------------------------------------------ stop

  predicate InStop(pc: Proc) {
    pc.StopGet? || pc.StopCheck? || pc.StopMark? || pc.StopList? || pc.StopCommands? || pc.StopDocker?
    || pc.StopConfirm? || pc.StopRelease? || pc.StopRollback?
  }

  function StopStep(s: State, p: Pid, o: Oracle, pc: Proc): (m: Option<Move>)
    requires InStop(pc)
    ensures m.Some? ==> Untouched(s, m.value.s) && KeepsToken(s, m.value.s)
    ensures m.Some? ==> pc.StopCommands? || KeepsReceipts(s, m.value.s)
    ensures m.Some? ==> pc.StopMark? || m.value.s.nextId == s.nextId
  {
    match pc
    case StopGet => Some(Move(s, StopCheck(s.lease)))
    case StopCheck(prev) =>
      if Lapsed(prev, s.now) then Some(Move(s, AcquireGet(StopRequest)))
      else if (!prev.value.command && !prev.value.stopping) || prev.value.stopInFlight
      then Some(Move(s, Finished(false)))
      else Some(Move(s, StopMark(prev.value)))
    case StopMark(snap) =>
      if o.stamp > s.now then None
      else
        var a := s.nextId;
        var s' := Draw(s, p);
        if s.lease.Some? && s.lease.value.token == snap.token && s.lease.value.stopping == snap.stopping
           && s.lease.value.stopAttempt == snap.stopAttempt
        then Some(Move(SetLease(s', Marked(s.lease.value, a, o.stamp)), StopList(snap.token, a)))
        else Some(Move(s', Finished(false)))
    case StopList(t, a) => Some(Move(s, StopCommands(t, a, Unfinished(s))))
    case StopCommands(t, a, todo) =>
      if todo == {} then Some(Move(s, StopDocker(t, a)))
      else if o.id !in todo then None
      else Some(Move(Interrupt(s, o.id), StopCommands(t, a, todo - {o.id})))
    case StopDocker(t, a) => Some(Move(s, if o.ok then StopConfirm(t, a) else StopRollback(t, a, false)))
    case StopConfirm(t, a) => Some(Move(Confirm(s, t, a), StopRelease(t, a)))
    case StopRelease(t, a) => Some(Move(ReleaseIfStopped(s, t), Finished(true)))
    case StopRollback(t, a, confirmed) => Some(Move(Rollback(s, t, a), Finished(false)))
  }

  /** The compare-and-swap from `running` to `interrupted` on one receipt. */
  function Interrupt(s: State, id: OpId): State {
    if id in s.receipts && s.receipts[id] == Running
    then SetReceipt(s, id, Interrupted).(interrupted := s.interrupted + {id}) else s
  }

  // ------------------------------------------------------------------ commands

  predicate InSweep(pc: Proc) { pc.SweepList? || pc.SweepGet? || pc.SweepCheck? || pc.SweepCommands? }

  function SweepStep(s: State, p: Pid, o: Oracle, pc: Proc): (m: Option<Move>)
    requires InSweep(pc)
    ensures m.Some? ==> Untouched(s, m.value.s) && KeepsLease(s, m.value.s)
    ensures m.Some? ==> pc.SweepCommands? || KeepsReceipts(s, m.value.s)
  {
    match pc
    case SweepList => Some(Move(s, SweepGet(Unfinished(s))))
    case SweepGet(todo) => Some(Move(s, SweepCheck(todo, s.lease)))
    case SweepCheck(todo, lease) =>
      Some(Move(s, if Lapsed(lease, s.now) then SweepCommands(todo) else Finished(true)))
    case SweepCommands(todo) =>
      if todo == {} then Some(Move(s, Finished(true)))
      else if o.id !in todo then None
      else Some(Move(Interrupt(s, o.id), SweepCommands(todo - {o.id})))
  }

  /** Where a thrown error takes a call; `docker exec` itself never throws. */
  function Thrown(pc: Proc): Option<Proc> {
    match pc
    case Body(t) => Some(Release(t, false, false))
    case Prepare(t, _) => Some(MarkDone(t, false))
    case Insert(t, _) => Some(MarkDone(t, false))
    case ReadActive(t, _) => Some(MarkDone(t, false))
    case Refuse(t, _) => Some(MarkDone(t, false))
    case Cleanup(t, _, _) => Some(MarkDone(t, false))
    case CleanupConfirm(t, id, r, a) => Some(CleanupRollback(t, id, r, a, false))
    case CleanupRollback(t, _, _, _, _) => Some(MarkDone(t, false))
    case Save(t, _, _) => Some(MarkDone(t, false))
    case SaveInterrupted(t, _) => Some(MarkDone(t, false))
    case StopList(t, a) => Some(StopRollback(t, a, false))
    case StopCommands(t, a, _) => Some(StopRollback(t, a, false))
    case StopConfirm(t, a) => Some(StopRollback(t, a, false))
    case StopRelease(t, a) => Some(StopRollback(t, a, true))
    case AcquireCheck(_, _) => None
    case CheckActive(_, _, _) => None
    case StopCheck(_) => None
    case SweepCheck(_, _) => None
    case DockerExec(_, _) => None
    case CleanupDocker(_, _, _, _) => None
    case StopDocker(_, _) => None
    case Finished(_) => None
    case _ => Some(Finished(false))
  }

  /** The store calls that write. */
  predicate Writes(pc: Proc) {
    || pc.AcquireClaim? || pc.Insert? || pc.Refuse? || pc.Save? || pc.SaveInterrupted?
    || pc.Cleanup? || pc.CleanupConfirm? || pc.CleanupRollback? || pc.MarkDone? || pc.Release? || pc.ReleaseStopped?
    || pc.StopMark? || pc.StopCommands? || pc.StopConfirm? || pc.StopRelease? || pc.StopRollback? || pc.SweepCommands?
  }

  /** Where an error takes a call whose write went through: to the same handler, which for a confirmation now
      finds it made. */
  function LostAfter(pc: Proc): Option<Proc> {
    if !Writes(pc) then None
    else if pc.StopConfirm? then Some(StopRollback(pc.token, pc.attempt, true))
    else if pc.CleanupConfirm? then Some(CleanupRollback(pc.token, pc.id, pc.result, pc.attempt, true))
    else Thrown(pc)
  }

  function Advance(s: State, p: Pid, o: Oracle, pc: Proc): (m: Option<Move>)
    ensures m.Some? ==> Untouched(s, m.value.s)
    ensures m.Some? && !pc.AcquireClaim? ==> KeepsToken(s, m.value.s)
    ensures m.Some? && !InExecute(pc) && !pc.StopCommands? && !pc.SweepCommands? ==> KeepsReceipts(s, m.value.s)
  {
    if InAcquire(pc) then AcquireStep(s, p, o, pc)
    else if InExecute(pc) then ExecuteStep(s, p, o, pc)
    else if InCleanup(pc) then CleanupStep(s, p, o, pc)
    else if InRelease(pc) then ReleaseStep(s, p, o, pc)
    else if InStop(pc) then StopStep(s, p, o, pc)
    else if InSweep(pc) then SweepStep(s, p, o, pc)
    else None
  }

  function Next(s: State, e: Event): Option<State> {
    match e
    case Tick(ms) => Some(s.(now := s.now + ms))
    case Begin(p, entry) => if p !in s.procs && IsEntry(entry) then Some(At(s, p, entry)) else None
    case Go(p, o) =>
      if p !in s.procs then None
      else (match Advance(s, p, o, s.procs[p])
        case None => None
        case Some(m) => Some(At(m.s, p, m.pc)))
    case Throw(p) =>
      if p in s.procs && Thrown(s.procs[p]).Some?
      then Some(At(s, p, Thrown(s.procs[p]).value))
      else None
    case Lose(p, o) =>
      if p !in s.procs || LostAfter(s.procs[p]).None? then None
      else (match Advance(s, p, o, s.procs[p])
        case None => None
        case Some(m) => Some(At(m.s, p, LostAfter(s.procs[p]).value)))
  }
}
