/** What a call of the computer service saw and did, step by step, and what it therefore had to answer
    (apps/server/src/computer.ts).  These are the contracts of ComputerService: they are said of the steps
    of a run, by their numbers, in the fields of the lease and of the receipt. */
module ComputerCourses {
  import opened Runs
  import opened ComputerLease

  /** What there is to know about one event: the await its call stood at, the clock, the next identifier, the
      lease and the receipt of its command before it, and those two after it. */
  datatype Step = Step(
    e: Event, pc: Proc, now: nat, nextId: nat, lease: Option<Lease>, receipt: Option<Status>,
    after: Option<Lease>, receiptAfter: Option<Status>)

  function StepOf(t: State, e: Event, u: State): Step {
    var pc := if !e.Tick? && e.p in t.procs then t.procs[e.p] else Finished(true);
    Step(e, pc, t.now, t.nextId, t.lease, Receipt(t, pc), u.lease, Receipt(u, pc))
  }

  /** The events of these steps. */
  function Events(t: seq<Step>): seq<Event> { seq(|t|, i requires 0 <= i < |t| => t[i].e) }

  /** The receipt of the command a call is about. */
  function Receipt(t: State, pc: Proc): Option<Status> {
    match pc
    case LookUp(id) => ReceiptOf(t, id)
    case Insert(_, id) => ReceiptOf(t, id)
    case Refuse(_, id) => ReceiptOf(t, id)
    case Save(_, id, _) => ReceiptOf(t, id)
    case SaveInterrupted(_, id) => ReceiptOf(t, id)
    case _ => None
  }

  function ReceiptOf(t: State, id: OpId): Option<Status> { if id in t.receipts then Some(t.receipts[id]) else None }

  /** The steps of an acquire, and where it failed. */
  datatype Claim = Claim(get: nat, check: nat, claim: nat, failed: bool, thrown: nat)

  /** The steps of the finally block, and where it failed. */
  datatype Parting = Parting(mark: nat, release: nat, last: nat, failed: bool, thrown: nat)

  /** The steps of the guarded part of a Stop: the listing of the receipts, Docker, the confirmation and the release. */
  datatype Shutdown = Shutdown(list: nat, docker: nat, stuck: bool, confirm: nat, release: nat)

  /** The steps of a Stop, the lease it acquired if the one it read had lapsed, and where it failed. */
  datatype Halt = Halt(
    get: nat, check: nat, claim: Claim, got: nat, lease: Option<Lease>, mark: nat, sent: nat, work: Shutdown,
    rollback: nat, confirmed: bool, early: bool, late: bool, thrown: nat)

  /** The steps of a cleanup: the attempt, Docker, and how the attempt ended. */
  datatype Cleaning = Cleaning(mark: nat, docker: nat, undone: bool, end: nat)

  /** The steps of a command under its lease, and whether a call failed. */
  datatype CommandRun = CommandRun(
    prepare: nat, insert: nat, read: nat, check: nat, refuse: nat, exec: nat, cleaning: Cleaning, save: nat, keep: nat, failed: bool)

  const NO_RUN := CommandRun(0, 0, 0, 0, 0, 0, Cleaning(0, 0, false, 0), 0, 0, false)

  /** The steps of an execution, the lease it acquired, and how the command under it ended. */
  datatype Course = Course(
    look: nat, early: bool, claim: Claim, got: nat, lease: Option<Lease>, run: CommandRun, ran: nat, ok: bool, leave: Parting)

  const IDLE := Shutdown(0, 0, false, 0, 0)

  /** After `since`, call `p` took its step from `pc` as event `k`, and left this lease. */
  ghost predicate Did(t: seq<Step>, since: nat, p: Pid, k: nat, pc: Proc, lease: Option<Lease>) {
    since <= k < |t| && t[k].e.Go? && t[k].e.p == p && t[k].pc == pc && t[k].after == lease
  }

  /** A step that left the lease alone. */
  ghost predicate Looked(t: seq<Step>, since: nat, p: Pid, k: nat, pc: Proc) {
    k < |t| && Did(t, since, p, k, pc, t[k].lease)
  }

  /** After `since`, a call that `p` awaited at `pc` failed, as event `k`. */
  ghost predicate ThrewAt(t: seq<Step>, since: nat, p: Pid, k: nat, pc: Proc) {
    since <= k < |t| && t[k].e == Throw(p) && t[k].pc == pc
  }

  /** After `since`, an awaited call of `p` failed. */
  ghost predicate Threw(t: seq<Step>, since: nat, p: Pid) { exists k :: since <= k < |t| && t[k].e == Throw(p) }

  // ------------------------------------------------------------------ acquire

  /** What an acquire saw: a lease that is still live is left alone; a lapsed one is replaced if nobody else
      replaced it meanwhile. */
  ghost predicate Acquired(t: seq<Step>, since: nat, p: Pid, kind: Kind, c: Claim, r: Option<Lease>) {
    if c.failed then r.None? && AcquireThrew(t, since, p, c.thrown)
    else Looked(t, since, p, c.get, AcquireGet(kind)) && Drafted(t, c.get + 1, p, kind, t[c.get].lease, c, r)
  }

  ghost predicate Drafted(t: seq<Step>, since: nat, p: Pid, kind: Kind, previous: Option<Lease>, c: Claim, r: Option<Lease>) {
    && Looked(t, since, p, c.check, AcquireCheck(kind, previous)) && t[c.check].e.o.stamp <= t[c.check].now
    && if previous.Some? && previous.value.expiresAt > t[c.check].now then r.None?
       else Claimed(t, c.check + 1, p, kind, previous, Draft(t[c.check].nextId, t[c.check].e.o.stamp, kind), c.claim, r)
  }

  /** A fresh lease for three minutes; only a command has an executor to wait for. */
  function Draft(token: nat, stamp: nat, kind: Kind): Lease {
    Lease(token, stamp + 180000, false, false, 0, false, !kind.Command?, kind.Command?)
  }

  ghost predicate Claimed(t: seq<Step>, since: nat, p: Pid, kind: Kind, previous: Option<Lease>, mine: Lease,
                          claim: nat, r: Option<Lease>)
  {
    claim < |t| && var l := t[claim].lease;
    var free := if previous.Some? then l.Some? && l.value.token == previous.value.token && l.value.expiresAt == previous.value.expiresAt
                else l.None?;
    && Did(t, since, p, claim, AcquireClaim(kind, previous, mine), if free then Some(mine) else l)
    && r == (if free then Some(mine) else None)
  }

  /** A call of this acquire failed. */
  ghost predicate AcquireThrew(t: seq<Step>, since: nat, p: Pid, at: nat) {
    at < |t| && InAcquire(t[at].pc) && ThrewAt(t, since, p, at, t[at].pc)
  }

  // ------------------------------------------------------------------ exclusive

  predicate HoldsIn(l: Option<Lease>, token: nat) { l.Some? && l.value.token == token }

  ghost predicate Acknowledged(t: seq<Step>, since: nat, p: Pid, token: nat, ok: bool, m: nat) {
    m < |t| &&
    Did(t, since, p, m, MarkDone(token, ok),
        if HoldsIn(t[m].lease, token) then Some(t[m].lease.value.(executorDone := true)) else t[m].lease)
  }

  /** A lease that nobody stops is given up at once. */
  ghost predicate Freed(t: seq<Step>, since: nat, p: Pid, token: nat, command: bool, ok: bool, m: nat) {
    m < |t| &&
    Did(t, since, p, m, Release(token, command, ok),
        if HoldsIn(t[m].lease, token) && !t[m].lease.value.stopping then Some(t[m].lease.value.(expiresAt := 0)) else t[m].lease)
  }

  /** A stopped one is given up when its stop is confirmed and its executor done. */
  ghost predicate FreedIfStopped(t: seq<Step>, since: nat, p: Pid, token: nat, here: Proc, m: nat) {
    m < |t| &&
    Did(t, since, p, m, here,
        if HoldsIn(t[m].lease, token) && t[m].lease.value.stopping && t[m].lease.value.stopConfirmed
           && t[m].lease.value.executorDone && !t[m].lease.value.stopInFlight
        then Some(t[m].lease.value.(expiresAt := 0)) else t[m].lease)
  }

  /** What the finally block did: all its steps, and then it ends as the operation did; or one of its calls
      failed. */
  ghost predicate Parted(t: seq<Step>, since: nat, p: Pid, token: nat, command: bool, ok: bool, v: Parting, done: bool) {
    if v.failed then !done && PartingThrew(t, since, p, v.thrown)
    else if command then Acknowledged(t, since, p, token, ok, v.mark) && GaveUp(t, v.mark + 1, p, token, true, ok, v, done)
    else GaveUp(t, since, p, token, false, ok, v, done)
  }

  ghost predicate PartingThrew(t: seq<Step>, since: nat, p: Pid, at: nat) {
    at < |t| && InRelease(t[at].pc) && ThrewAt(t, since, p, at, t[at].pc)
  }

  /** What of it concerns the two releases. */
  ghost predicate GaveUp(t: seq<Step>, since: nat, p: Pid, token: nat, command: bool, ok: bool, v: Parting, done: bool) {
    && done == ok && Freed(t, since, p, token, command, ok, v.release)
    && FreedIfStopped(t, v.release + 1, p, token, Proc.ReleaseStopped(token, ok), v.last)
  }

  // ------------------------------------------------------------------ stop

  predicate StillAs(now: Option<Lease>, l: Lease) {
    now.Some? && now.value.token == l.token && now.value.stopping == l.stopping && now.value.stopAttempt == l.stopAttempt
  }

  /** The lease under a new attempt to stop. */
  function UnderAttempt(l: Lease, attempt: nat, stamp: nat): Lease {
    l.(stopping := true, stopInFlight := true, stopAttempt := attempt, stopConfirmed := false, expiresAt := stamp + 180000)
  }

  /** What a Stop saw: a lapsed lease is acquired first; a live one is refused while another operation than a
      command holds it, or another Stop is at it. */
  ghost predicate Stopped(t: seq<Step>, since: nat, p: Pid, v: Halt, done: bool) {
    if v.early then !done && StopThrew(t, since, p, v.thrown)
    else Looked(t, since, p, v.get, StopGet) && Handled(t, p, t[v.get].lease, v, done)
  }

  ghost predicate Handled(t: seq<Step>, p: Pid, l: Option<Lease>, v: Halt, done: bool) {
    && Looked(t, v.get + 1, p, v.check, StopCheck(l))
    && if l.None? || l.value.expiresAt <= t[v.check].now then Replaced(t, v.check + 1, p, v, done)
       else if (!l.value.command && !l.value.stopping) || l.value.stopInFlight then !done
       else Halted(t, v.check + 1, p, l.value, v, done)
  }

  ghost predicate Replaced(t: seq<Step>, since: nat, p: Pid, v: Halt, done: bool) {
    && since <= v.got <= |t| && Acquired(t[..v.got], since, p, StopRequest, v.claim, v.lease)
    && if v.lease.None? then !done else Halted(t, v.got, p, v.lease.value, v, done)
  }

  /** It failed before it could put its attempt on the lease. */
  ghost predicate StopThrew(t: seq<Step>, since: nat, p: Pid, at: nat) {
    && at < |t| && var pc := t[at].pc;
    (pc.StopGet? || InAcquire(pc) || pc.StopMark?) && ThrewAt(t, since, p, at, pc)
  }

  /** The attempt goes on the lease if that is still as it was read, by the first `sent` events; then the Stop is
      completed, or undone. */
  ghost predicate Halted(t: seq<Step>, since: nat, p: Pid, l: Lease, v: Halt, done: bool) {
    && v.mark < v.sent <= |t| && Attempted(t[..v.sent], since, p, l, v.mark, StillAs(t[v.mark].lease, l))
    && if !StillAs(t[v.mark].lease, l) then !done
       else if done then Completed(t, v.sent, p, l.token, t[v.mark].nextId, v.work)
       else Undone(t, v.sent, p, l.token, t[v.mark].nextId, v.work, v.rollback, v.confirmed, v.late, v.thrown)
  }

  ghost predicate Attempted(t: seq<Step>, since: nat, p: Pid, l: Lease, mark: nat, hit: bool) {
    && mark < |t| && t[mark].e.Go? && t[mark].e.o.stamp <= t[mark].now
    && (hit ==> t[mark].lease.Some?)
    && Did(t, since, p, mark, StopMark(l),
           if hit then Some(UnderAttempt(t[mark].lease.value, t[mark].nextId, t[mark].e.o.stamp))
           else t[mark].lease)
  }

  /** Every step was taken, and went well. */
  ghost predicate Completed(t: seq<Step>, since: nat, p: Pid, token: nat, attempt: nat, w: Shutdown) {
    Looked(t, since, p, w.list, StopList(token, attempt)) && Ended(t, w.list + 1, p, token, attempt, w)
  }

  ghost predicate Ended(t: seq<Step>, since: nat, p: Pid, token: nat, attempt: nat, w: Shutdown) {
    && Looked(t, since, p, w.docker, StopDocker(token, attempt)) && t[w.docker].e.o.ok
    && AttemptEnded(t, w.docker + 1, p, token, attempt, StopConfirm(token, attempt), true, w.confirm)
    && FreedIfStopped(t, w.confirm + 1, p, token, StopRelease(token, attempt), w.release)
  }

  /** The attempt ended, one way or the other. */
  ghost predicate AttemptEnded(t: seq<Step>, since: nat, p: Pid, token: nat, attempt: nat, here: Proc, confirmed: bool, m: nat) {
    m < |t| &&
    Did(t, since, p, m, here,
        if HoldsIn(t[m].lease, token) && t[m].lease.value.stopAttempt == attempt
        then Some(t[m].lease.value.(stopInFlight := false, stopConfirmed := confirmed)) else t[m].lease)
  }

  /** Something failed: Docker could not stop the container, or a call to the store. */
  ghost predicate Blocked(t: seq<Step>, since: nat, p: Pid, token: nat, attempt: nat, w: Shutdown) {
    if w.stuck then Looked(t, since, p, w.docker, StopDocker(token, attempt)) && !t[w.docker].e.o.ok else Threw(t, since, p)
  }

  /** The attempt was taken back, unless that failed too. */
  ghost predicate Undone(t: seq<Step>, since: nat, p: Pid, token: nat, attempt: nat, w: Shutdown,
                         rollback: nat, confirmed: bool, late: bool, at: nat)
  {
    && Blocked(t, since, p, token, attempt, w)
    && if late then ThrewAt(t, since, p, at, StopRollback(token, attempt, confirmed))
       else AttemptEnded(t, since, p, token, attempt, StopRollback(token, attempt, confirmed), false, rollback)
  }

  // ------------------------------------------------------------------ execute

  /** What an execution saw: a known operation is only looked at again; any other is run under a lease, which
      is given up however the command ended. */
  ghost predicate Executed(t: seq<Step>, since: nat, p: Pid, id: OpId, v: Course, done: bool) {
    if v.early then !done && ThrewAt(t, since, p, v.look, LookUp(id))
    else
      && Looked(t, since, p, v.look, LookUp(id))
      && if t[v.look].receipt.Some? then (!done ==> Threw(t, since, p)) else Exclusive(t, v.look + 1, p, id, v, done)
  }

  /** The lease was acquired by the first `got` events. */
  ghost predicate Exclusive(t: seq<Step>, since: nat, p: Pid, id: OpId, v: Course, done: bool) {
    && since <= v.got <= |t| && Acquired(t[..v.got], since, p, Command(id), v.claim, v.lease)
    && if v.lease.None? then !done else RanAndParted(t, v.got, p, v.lease.value.token, id, v.run, v.ran, v.ok, v.leave, done)
  }

  /** The command was over by the first `ran`. */
  ghost predicate RanAndParted(t: seq<Step>, since: nat, p: Pid, token: nat, id: OpId, run: CommandRun, ran: nat, ok: bool,
                               leave: Parting, done: bool)
  {
    && since <= ran <= |t| && Worked(t[..ran], since, p, token, id, run, ok)
    && Parted(t, ran, p, token, true, ok, leave, done)
  }

  /** A receipt that is there already is left alone; otherwise it is saved as running before anything else. */
  ghost predicate Worked(t: seq<Step>, since: nat, p: Pid, token: nat, id: OpId, v: CommandRun, ok: bool) {
    if v.failed then !ok && Threw(t, since, p)
    else ok && Looked(t, since, p, v.prepare, Prepare(token, id)) && Inserted(t, v.prepare + 1, p, token, id, v)
  }

  ghost predicate Inserted(t: seq<Step>, since: nat, p: Pid, token: nat, id: OpId, v: CommandRun) {
    && Looked(t, since, p, v.insert, Insert(token, id))
    && if t[v.insert].receipt.Some? then t[v.insert].receiptAfter == t[v.insert].receipt
       else t[v.insert].receiptAfter == Some(Running) && Checked(t, v.insert + 1, p, token, id, v)
  }

  /** The command runs exactly if its lease is still there, not stopping and not expired. */
  ghost predicate Checked(t: seq<Step>, since: nat, p: Pid, token: nat, id: OpId, v: CommandRun) {
    Looked(t, since, p, v.read, ReadActive(token, id)) && Obeyed(t, p, token, id, t[v.read].lease, v)
  }

  ghost predicate Obeyed(t: seq<Step>, p: Pid, token: nat, id: OpId, active: Option<Lease>, v: CommandRun) {
    && Looked(t, v.read + 1, p, v.check, CheckActive(token, id, active))
    && if active.None? || active.value.token != token || active.value.stopping || active.value.expiresAt <= t[v.check].now
       then Refused(t, v.check + 1, p, token, id, v.refuse)
       else RanInDocker(t, v.check + 1, p, token, id, v)
  }

  ghost predicate Refused(t: seq<Step>, since: nat, p: Pid, token: nat, id: OpId, m: nat) {
    Looked(t, since, p, m, Refuse(token, id)) && t[m].receiptAfter == Some(Interrupted)
  }

  ghost predicate RanInDocker(t: seq<Step>, since: nat, p: Pid, token: nat, id: OpId, v: CommandRun) {
    && Looked(t, since, p, v.exec, DockerExec(token, id)) && t[v.exec].e.Go? && var r := t[v.exec].e.o.result;
    && (r.timedOut || r.interrupted ==> Cleaned(t, v.exec + 1, p, token, id, r, v.cleaning))
    && StatusSaved(t, v.exec + 1, p, token, id, r, v.save, v.keep)
  }

  /** A timeout or an interruption stops the sandbox under an attempt of its own, unless a Stop is at it. */
  ghost predicate Cleaned(t: seq<Step>, since: nat, p: Pid, token: nat, id: OpId, r: DockerResult, c: Cleaning) {
    c.mark < |t| && var hit := HoldsIn(t[c.mark].lease, token) && !t[c.mark].lease.value.stopping;
    && CleanupMarked(t, since, p, token, id, r, c.mark, hit)
    && (hit ==> CleanupEnded(t, c.mark + 1, p, token, id, r, t[c.mark].nextId, c))
  }

  ghost predicate CleanupMarked(t: seq<Step>, since: nat, p: Pid, token: nat, id: OpId, r: DockerResult, m: nat, hit: bool) {
    && m < |t| && t[m].e.Go? && t[m].e.o.stamp <= t[m].now && (hit ==> t[m].lease.Some?)
    && Did(t, since, p, m, Cleanup(token, id, r),
           if hit then Some(UnderAttempt(t[m].lease.value, t[m].nextId, t[m].e.o.stamp))
           else t[m].lease)
  }

  /** The attempt is confirmed if Docker stopped the container, and taken back if it did not, or if the
      confirmation failed. */
  ghost predicate CleanupEnded(t: seq<Step>, since: nat, p: Pid, token: nat, id: OpId, r: DockerResult, attempt: nat, c: Cleaning) {
    && Looked(t, since, p, c.docker, CleanupDocker(token, id, r, attempt)) && t[c.docker].e.Go?
    && (!c.undone ==> t[c.docker].e.o.ok)
    && (c.undone && t[c.docker].e.o.ok ==> Threw(t, c.docker + 1, p))
    && AttemptEnded(t, c.docker + 1, p, token, attempt,
                    if c.undone then CleanupRollback(token, id, r, attempt, false) else CleanupConfirm(token, id, r, attempt),
                    !c.undone, c.end)
  }

  /** A receipt that still runs gets the status of the result, and any other stays interrupted. */
  ghost predicate StatusSaved(t: seq<Step>, since: nat, p: Pid, token: nat, id: OpId, r: DockerResult, save: nat, keep: nat) {
    && Looked(t, since, p, save, Save(token, id, r))
    && if t[save].receipt == Some(Running)
       then t[save].receiptAfter == Some(if r.interrupted then Interrupted
                                         else if r.timedOut || r.exitCode == Some(124) then TimedOut
                                         else if r.exitCode == Some(0) then Succeeded
                                         else Failed)
       else Looked(t, save + 1, p, keep, SaveInterrupted(token, id)) && t[keep].receiptAfter == Some(Interrupted)
  }
}
