/** What every run of the computer lease protocol keeps: fencing, one Stop at a time,
    mutual exclusion, and at most one `docker exec` for each operation id. */
module ComputerSafety {
  import opened Runs
  import opened ComputerLease

  // ------------------------------------------------------------------ what a call holds

  /** The token a call took in `acquire` and has to give back in `exclusive`. */
  function Owned(pc: Proc): Option<nat> {
    match pc
    case Body(t) => Some(t)
    case Prepare(t, _) => Some(t)
    case Insert(t, _) => Some(t)
    case ReadActive(t, _) => Some(t)
    case CheckActive(t, _, _) => Some(t)
    case Refuse(t, _) => Some(t)
    case DockerExec(t, _) => Some(t)
    case Cleanup(t, _, _) => Some(t)
    case CleanupDocker(t, _, _, _) => Some(t)
    case CleanupConfirm(t, _, _, _) => Some(t)
    case CleanupRollback(t, _, _, _, _) => Some(t)
    case Save(t, _, _) => Some(t)
    case SaveInterrupted(t, _) => Some(t)
    case MarkDone(t, _) => Some(t)
    case Release(t, _, _) => Some(t)
    case _ => None
  }

  /** A start or file operation that still holds its lease. */
  predicate Operating(pc: Proc) { pc.Body? || (pc.Release? && !pc.command) }

  /** A command executor that has not yet acknowledged completion. */
  predicate Executing(pc: Proc) { Owned(pc).Some? && !pc.Body? && !pc.Release? }

  /** The token and attempt of a Stop, explicit or cleanup, between mark and confirm or rollback. */
  function Flight(pc: Proc): Option<(nat, nat)> {
    match pc
    case CleanupDocker(t, _, _, a) => Some((t, a))
    case CleanupConfirm(t, _, _, a) => Some((t, a))
    case CleanupRollback(t, _, _, a, confirmed) => if confirmed then None else Some((t, a))
    case StopList(t, a) => Some((t, a))
    case StopCommands(t, a, _) => Some((t, a))
    case StopDocker(t, a) => Some((t, a))
    case StopConfirm(t, a) => Some((t, a))
    case StopRollback(t, a, confirmed) => if confirmed then None else Some((t, a))
    case _ => None
  }

  /** The lease record a call has read and may act on later. */
  function Snapshot(pc: Proc): Option<Lease> {
    match pc
    case AcquireCheck(_, prev) => prev
    case AcquireClaim(_, prev, _) => prev
    case StopCheck(prev) => prev
    case StopMark(snap) => Some(snap)
    case _ => None
  }

  /** The receipt a call has saved and not yet decided. */
  function Writing(pc: Proc): Option<OpId> {
    match pc
    case ReadActive(_, id) => Some(id)
    case CheckActive(_, id, _) => Some(id)
    case Refuse(_, id) => Some(id)
    case DockerExec(_, id) => Some(id)
    case Cleanup(_, id, _) => Some(id)
    case CleanupDocker(_, id, _, _) => Some(id)
    case CleanupConfirm(_, id, _, _) => Some(id)
    case CleanupRollback(_, id, _, _, _) => Some(id)
    case Save(_, id, _) => Some(id)
    case SaveInterrupted(_, id) => Some(id)
    case _ => None
  }

  predicate Leaving(pc: Proc) { pc.MarkDone? || pc.Release? || pc.ReleaseStopped? || pc.Finished? }

  predicate LeftWell(pc: Proc) { Leaving(pc) && pc.ok }

  predicate BeforeExec(pc: Proc) { pc.ReadActive? || pc.CheckActive? || pc.Refuse? }

  // ------------------------------------------------------------------ the invariant

  ghost predicate LeaseInv(s: State) {
    s.lease.Some? ==>
      var l := s.lease.value;
      && l.token in s.installed
      && (l.command <==> s.installed[l.token].Command?)
      && (l.stopping ==> !s.installed[l.token].Operation?)
      && (l.stopInFlight ==> l.stopping)
      && (l.stopConfirmed ==> l.stopping && !l.stopInFlight)
      && (!l.command ==> l.executorDone)
      && (l.stopAttempt == 0 || l.stopAttempt in s.issued)
      && (l.stopConfirmed ==> l.stopAttempt !in s.overturned)
      && (l.expiresAt == 0 ==> l.executorDone && !l.stopInFlight
                               && (l.stopping ==> l.stopConfirmed || l.stopAttempt in s.overturned))
  }

  ghost predicate SnapInv(s: State, m: Lease) {
    && s.lease.Some?
    && m.token in s.installed
    && (m.command <==> s.installed[m.token].Command?)
    && (m.stopping ==> !s.installed[m.token].Operation?)
    && (m.stopAttempt == 0 || m.stopAttempt in s.issued)
    && (s.lease.value.token == m.token && s.lease.value.stopAttempt == m.stopAttempt && s.lease.value.stopInFlight
        ==> m.stopInFlight)
  }

  ghost predicate OwnerInv(s: State, p: Pid, pc: Proc) {
    Owned(pc).Some? ==>
      var t := Owned(pc).value;
      && s.lease.Some? && t in s.installed && t in s.issued && s.issued[t] == p
      && (s.installed[t].Operation? <==> Operating(pc))
      && (s.installed[t].Command? <==> !Operating(pc))
      && (Executing(pc) && s.lease.value.token == t ==> !s.lease.value.executorDone)
      && (pc.Release? && s.lease.value.token == t ==> s.lease.value.executorDone)
      && (Operating(pc) && s.lease.value.token == t ==> s.lease.value.expiresAt != 0)
  }

  ghost predicate FlightInv(s: State, p: Pid, pc: Proc) {
    Flight(pc).Some? ==>
      var (t, a) := Flight(pc).value;
      && s.lease.Some? && t in s.installed && a in s.issued && s.issued[a] == p && a != 0 && a !in s.overturned
      && (s.lease.value.token == t ==> s.lease.value.stopAttempt == a && s.lease.value.stopInFlight)
  }

  /** This attempt is over and can never be in flight again. */
  ghost predicate Ended(s: State, token: nat, attempt: nat) {
    && s.lease.Some? && token in s.installed && attempt in s.issued
    && (s.lease.value.token == token && s.lease.value.stopAttempt == attempt ==> !s.lease.value.stopInFlight)
  }

  ghost predicate ClaimInv(s: State, p: Pid, pc: Proc) {
    && (pc.AcquireClaim? ==>
          && pc.mine.token !in s.installed && pc.mine.token in s.issued && s.issued[pc.mine.token] == p
          && pc.mine.expiresAt >= LEASE_DURATION
          && pc.mine == NewLease(pc.mine.token, pc.mine.expiresAt - LEASE_DURATION, pc.kind)
          && (pc.prev.Some? ==> pc.prev.value.expiresAt <= s.now))
    && (pc.StopMark? ==> !pc.snap.stopInFlight
                         && (pc.snap.token in s.installed ==> !s.installed[pc.snap.token].Operation?))
    && (pc.StopRelease? ==> Ended(s, pc.token, pc.attempt))
    && (Overturning(pc) ==> Ended(s, pc.token, pc.attempt) && s.issued[pc.attempt] == p)
    && (pc.StopRelease? ==> s.issued[pc.attempt] == p)
  }

  /** A handler that may take back a confirmation already made. */
  predicate Overturning(pc: Proc) { (pc.StopRollback? || pc.CleanupRollback?) && pc.confirmed }

  ghost predicate ProcInv(s: State, p: Pid, pc: Proc) {
    && (Snapshot(pc).Some? ==> SnapInv(s, Snapshot(pc).value))
    && OwnerInv(s, p, pc) && FlightInv(s, p, pc) && ClaimInv(s, p, pc)
  }

  ghost predicate ProcsInv(s: State) {
    forall p :: p in s.procs ==> ProcInv(s, p, s.procs[p])
  }

  ghost predicate SameFlight(s: State, p: Pid, q: Pid)
    requires p in s.procs && q in s.procs
  {
    && Flight(s.procs[p]).Some? && Flight(s.procs[q]).Some?
    && Flight(s.procs[p]).value.0 == Flight(s.procs[q]).value.0
  }

  ghost predicate OneFlightPerToken(s: State) {
    forall p, q :: p in s.procs && q in s.procs && SameFlight(s, p, q) ==> p == q
  }

  ghost predicate IdsInv(s: State) {
    && s.nextId > 0
    && (forall x :: x in s.issued ==> 0 < x < s.nextId)
    && (forall x :: x in s.installed ==> x in s.issued)
    && (forall x :: x in s.overturned ==> x in s.issued)
  }

  ghost predicate LeaseProtocol(s: State) {
    IdsInv(s) && LeaseInv(s) && ProcsInv(s) && OneFlightPerToken(s)
  }

  // ------------------------------------------------------------------ what one call may do to the others

  /** Everything a step of `p` can do to the lease, as the other calls see it: leave it, install
      a token of its own, mark a Stop while none is in flight, end its own attempt, acknowledge
      its own command, or move the expiry. */
  ghost predicate Rely(s: State, s': State, p: Pid, pc: Proc) {
    && s.now <= s'.now && s.overturned <= s'.overturned
    && (forall x :: x in s'.overturned && x !in s.overturned ==> x in s.issued && s.issued[x] == p)
    && (forall x :: x in s.issued ==> x in s'.issued && s'.issued[x] == s.issued[x])
    && (forall x :: x in s.installed ==> x in s'.installed && s'.installed[x] == s.installed[x])
    && (forall x :: x in s'.installed && x !in s.installed ==> x in s'.issued && s'.issued[x] == p)
    && (s.lease.Some? ==> s'.lease.Some?)
    && (s'.lease != s.lease && s'.lease.value.token in s.installed ==>
          var l, l' := s.lease, s'.lease.value;
          && l.Some? && l'.token == l.value.token
          && (l'.executorDone == l.value.executorDone || Owned(pc) == Some(l'.token))
          && (l'.expiresAt == 0 && l.value.expiresAt != 0 ==> l.value.stopping || Owned(pc) == Some(l'.token))
          && ( || (l'.stopAttempt == l.value.stopAttempt && l'.stopInFlight == l.value.stopInFlight)
               || (l'.stopAttempt == l.value.stopAttempt && !l'.stopInFlight && Flight(pc) == Some((l'.token, l'.stopAttempt)))
               || (!l.value.stopInFlight && l'.stopAttempt !in s.issued && l'.stopAttempt != 0)))
  }

  lemma OtherKeeps(s: State, s': State, p: Pid, q: Pid)
    requires LeaseProtocol(s) && p in s.procs && q in s.procs && q != p && Rely(s, s', p, s.procs[p])
    ensures ProcInv(s', q, s.procs[q])
  {
    assert ProcInv(s, q, s.procs[q]) && ProcInv(s, p, s.procs[p]);
  }

  /** A step of `p` from `pc` to `pc'` that is right for `p` and gentle to the others. */
  ghost predicate GoodStep(s: State, s': State, p: Pid, pc: Proc, pc': Proc) {
    && Rely(s, s', p, pc) && IdsInv(s') && LeaseInv(s') && ProcInv(s', p, pc')
    && (Flight(pc').None? || Flight(pc') == Flight(pc)
        || (s.lease.Some? && s.lease.value.token == Flight(pc').value.0 && !s.lease.value.stopInFlight))
  }

  lemma GoodStepKeeps(s: State, m: Move, p: Pid)
    requires LeaseProtocol(s) && p in s.procs && m.s.procs == s.procs && GoodStep(s, m.s, p, s.procs[p], m.pc)
    ensures LeaseProtocol(At(m.s, p, m.pc))
  {
    var s' := At(m.s, p, m.pc);
    forall q | q in s'.procs ensures ProcInv(s', q, s'.procs[q]) {
      if q != p { OtherKeeps(s, s', p, q); }
    }
    forall q, r | q in s'.procs && r in s'.procs && SameFlight(s', q, r) ensures q == r {
      if q != p && r != p { assert SameFlight(s, q, r); }
      else if q != p { assert ProcInv(s, q, s.procs[q]); if Flight(m.pc) == Flight(s.procs[p]) { assert SameFlight(s, q, p); } }
      else if r != p { assert ProcInv(s, r, s.procs[r]); if Flight(m.pc) == Flight(s.procs[p]) { assert SameFlight(s, p, r); } }
    }
  }

  /** The part of the protocol one call needs to know. */
  ghost predicate Mine(s: State, p: Pid, pc: Proc) {
    IdsInv(s) && LeaseInv(s) && ProcInv(s, p, pc)
  }

  /** Nothing to check about this program counter beyond what it owns, flies and remembers. */
  predicate Plain(pc: Proc) {
    !pc.AcquireClaim? && !pc.StopMark? && !pc.StopRelease? && !Overturning(pc)
  }

  predicate KeepsRole(pc: Proc, pc': Proc) {
    || Owned(pc').None?
    || (Owned(pc') == Owned(pc) && Operating(pc) == Operating(pc') && Executing(pc) == Executing(pc') && pc.Release? == pc'.Release?)
  }

  // ------------------------------------------------------------------ the six effects on the lease

  lemma DrawKeeps(s: State, p: Pid, pc: Proc)
    requires Mine(s, p, pc)
    ensures Mine(Draw(s, p), p, pc) && Rely(s, Draw(s, p), p, pc)
  {
  }

  lemma QuietIsGood(s: State, t: State, p: Pid, pc: Proc, pc': Proc)
    requires Mine(s, p, pc)
    requires t.lease == s.lease && t.now == s.now && t.installed == s.installed && t.overturned == s.overturned
    requires t.nextId == s.nextId && t.issued == s.issued
    requires KeepsRole(pc, pc') && Plain(pc')
    requires Flight(pc').None? || Flight(pc') == Flight(pc)
    requires Snapshot(pc').None? || Snapshot(pc') == s.lease || Snapshot(pc') == Snapshot(pc)
    ensures GoodStep(s, t, p, pc, pc')
  {
  }

  lemma MarkIsGood(s: State, p: Pid, pc: Proc, stamp: nat, pc': Proc)
    requires Mine(s, p, pc) && s.lease.Some? && !s.lease.value.stopInFlight
    requires !s.installed[s.lease.value.token].Operation?
    requires KeepsRole(pc, pc') && Plain(pc') && Snapshot(pc').None?
    requires Flight(pc') == Some((s.lease.value.token, s.nextId))
    ensures GoodStep(s, SetLease(Draw(s, p), Marked(s.lease.value, s.nextId, stamp)), p, pc, pc')
  {
  }

  lemma EndIsGood(s: State, p: Pid, pc: Proc, confirmed: bool, pc': Proc)
    requires Mine(s, p, pc) && s.lease.Some? && s.lease.value.stopping
    requires Flight(pc) == Some((s.lease.value.token, s.lease.value.stopAttempt))
    requires KeepsRole(pc, pc') && Snapshot(pc').None? && Flight(pc').None?
    requires Plain(pc') || pc' == StopRelease(s.lease.value.token, s.lease.value.stopAttempt)
    ensures GoodStep(s, SetLease(s, s.lease.value.(stopInFlight := false, stopConfirmed := confirmed)), p, pc, pc')
  {
  }

  /** The handler of a call whose confirmation went through takes it back. */
  lemma OverturnIsGood(s: State, p: Pid, pc: Proc, pc': Proc)
    requires Mine(s, p, pc) && Overturning(pc) && s.lease.Some?
    requires s.lease.value.token == pc.token && s.lease.value.stopAttempt == pc.attempt
    requires KeepsRole(pc, pc') && Snapshot(pc').None? && Flight(pc').None? && Plain(pc')
    ensures GoodStep(s, Rollback(s, pc.token, pc.attempt), p, pc, pc')
  {
  }

  lemma ExpireIsGood(s: State, p: Pid, pc: Proc, pc': Proc)
    requires Mine(s, p, pc) && s.lease.Some?
    requires s.lease.value.executorDone && !s.lease.value.stopInFlight && (s.lease.value.stopping ==> s.lease.value.stopConfirmed)
    requires s.lease.value.stopping || Owned(pc) == Some(s.lease.value.token)
    requires Owned(pc').None? && Plain(pc') && Snapshot(pc').None? && Flight(pc').None?
    ensures GoodStep(s, SetLease(s, s.lease.value.(expiresAt := 0)), p, pc, pc')
  {
  }

  // ------------------------------------------------------------------ every step has one of them

  lemma InstallIsGood(s: State, p: Pid, kind: Kind, prev: Option<Lease>, mine: Lease)
    requires Mine(s, p, AcquireClaim(kind, prev, mine))
    ensures GoodStep(s, SetLease(s, mine).(installed := s.installed[mine.token := kind]), p,
                     AcquireClaim(kind, prev, mine), Entered(kind, mine))
  {
    var t := SetLease(s, mine).(installed := s.installed[mine.token := kind]);
    assert LeaseInv(t) && IdsInv(t);
    match kind
    case Operation => assert ProcInv(t, p, Body(mine.token));
    case Command(id) => assert ProcInv(t, p, Prepare(mine.token, id));
    case StopRequest => assert ProcInv(t, p, StopMark(mine));
  }

  lemma PrepareClaimIsGood(s: State, p: Pid, kind: Kind, prev: Option<Lease>, stamp: nat)
    requires Mine(s, p, AcquireCheck(kind, prev)) && Lapsed(prev, s.now)
    ensures GoodStep(s, Draw(s, p), p, AcquireCheck(kind, prev), AcquireClaim(kind, prev, NewLease(s.nextId, stamp, kind)))
  {
    DrawKeeps(s, p, AcquireCheck(kind, prev));
  }

  lemma DrawAndLeaveIsGood(s: State, p: Pid, pc: Proc, pc': Proc)
    requires Mine(s, p, pc) && KeepsRole(pc, pc') && Plain(pc') && Snapshot(pc').None? && Flight(pc').None?
    ensures GoodStep(s, Draw(s, p), p, pc, pc')
  {
    DrawKeeps(s, p, pc);
  }

  lemma AcquireIsGood(s: State, p: Pid, o: Oracle, pc: Proc)
    requires Mine(s, p, pc) && InAcquire(pc)
    requires AcquireStep(s, p, o, pc).Some?
    ensures var m := AcquireStep(s, p, o, pc).value; m.s.procs == s.procs && GoodStep(s, m.s, p, pc, m.pc)
  {
    var m := AcquireStep(s, p, o, pc).value;
    match pc
    case AcquireGet(kind) => QuietIsGood(s, s, p, pc, m.pc);
    case AcquireCheck(kind, prev) =>
      if Lapsed(prev, s.now) { PrepareClaimIsGood(s, p, kind, prev, o.stamp); }
      else { DrawAndLeaveIsGood(s, p, pc, m.pc); }
    case AcquireClaim(kind, prev, mine) =>
      if m.s == s { QuietIsGood(s, s, p, pc, m.pc); } else { InstallIsGood(s, p, kind, prev, mine); }
  }

  lemma ExecuteIsGood(s: State, p: Pid, o: Oracle, pc: Proc)
    requires Mine(s, p, pc)
    requires InExecute(pc)
    requires ExecuteStep(s, p, o, pc).Some?
    ensures var m := ExecuteStep(s, p, o, pc).value; m.s.procs == s.procs && GoodStep(s, m.s, p, pc, m.pc)
  {
    var m := ExecuteStep(s, p, o, pc).value;
    QuietIsGood(s, m.s, p, pc, m.pc);
  }

  /** The two compare-and-swaps that end an attempt, from whichever call made it. */
  lemma ConfirmIsGood(s: State, p: Pid, pc: Proc, t: nat, a: nat, pc': Proc)
    requires Mine(s, p, pc) && Flight(pc) == Some((t, a))
    requires KeepsRole(pc, pc') && Snapshot(pc').None? && Flight(pc').None? && (Plain(pc') || pc' == StopRelease(t, a))
    ensures GoodStep(s, Confirm(s, t, a), p, pc, pc')
  {
    if Confirm(s, t, a) != s { EndIsGood(s, p, pc, true, pc'); }
    else if Plain(pc') { QuietIsGood(s, s, p, pc, pc'); }
  }

  lemma RollbackIsGood(s: State, p: Pid, pc: Proc, t: nat, a: nat, pc': Proc)
    requires Mine(s, p, pc) && (Flight(pc) == Some((t, a)) || (Overturning(pc) && pc.token == t && pc.attempt == a))
    requires KeepsRole(pc, pc') && Snapshot(pc').None? && Flight(pc').None? && Plain(pc')
    ensures GoodStep(s, Rollback(s, t, a), p, pc, pc')
  {
    if s.lease.None? || s.lease.value.token != t || s.lease.value.stopAttempt != a {
      QuietIsGood(s, s, p, pc, pc');
    } else if Overturning(pc) {
      OverturnIsGood(s, p, pc, pc');
    } else {
      FlightRollbackIsGood(s, p, pc, pc');
    }
  }

  lemma FlightRollbackIsGood(s: State, p: Pid, pc: Proc, pc': Proc)
    requires Mine(s, p, pc) && s.lease.Some? && Flight(pc) == Some((s.lease.value.token, s.lease.value.stopAttempt))
    requires KeepsRole(pc, pc') && Snapshot(pc').None? && Flight(pc').None? && Plain(pc')
    ensures GoodStep(s, Rollback(s, s.lease.value.token, s.lease.value.stopAttempt), p, pc, pc')
  {
    EndIsGood(s, p, pc, false, pc');
    assert s.overturned + {} == s.overturned;
  }

  lemma ReleaseStoppedIsGood(s: State, p: Pid, pc: Proc, t: nat, pc': Proc)
    requires Mine(s, p, pc) && Owned(pc').None? && Plain(pc') && Snapshot(pc').None? && Flight(pc').None?
    ensures GoodStep(s, ReleaseIfStopped(s, t), p, pc, pc')
  {
    if ReleaseIfStopped(s, t) == s { QuietIsGood(s, s, p, pc, pc'); } else { ExpireIsGood(s, p, pc, pc'); }
  }

  lemma CleanupBeginIsGood(s: State, p: Pid, o: Oracle, pc: Proc)
    requires Mine(s, p, pc) && (pc.Cleanup? || pc.CleanupDocker?)
    requires CleanupStep(s, p, o, pc).Some?
    ensures var m := CleanupStep(s, p, o, pc).value; m.s.procs == s.procs && GoodStep(s, m.s, p, pc, m.pc)
  {
    var m := CleanupStep(s, p, o, pc).value;
    if pc.CleanupDocker? { QuietIsGood(s, s, p, pc, m.pc); }
    else if m.pc.CleanupDocker? { MarkIsGood(s, p, pc, o.stamp, m.pc); }
    else { DrawAndLeaveIsGood(s, p, pc, m.pc); }
  }

  lemma CleanupEndIsGood(s: State, p: Pid, o: Oracle, pc: Proc)
    requires Mine(s, p, pc) && (pc.CleanupConfirm? || pc.CleanupRollback?)
    requires CleanupStep(s, p, o, pc).Some?
    ensures var m := CleanupStep(s, p, o, pc).value; m.s.procs == s.procs && GoodStep(s, m.s, p, pc, m.pc)
  {
    var m := CleanupStep(s, p, o, pc).value;
    if pc.CleanupConfirm? { ConfirmIsGood(s, p, pc, pc.token, pc.attempt, m.pc); }
    else { RollbackIsGood(s, p, pc, pc.token, pc.attempt, m.pc); }
  }

  lemma DoneIsGood(s: State, p: Pid, t: nat, ok: bool)
    requires Mine(s, p, MarkDone(t, ok)) && s.lease.Some? && s.lease.value.token == t
    ensures GoodStep(s, SetLease(s, s.lease.value.(executorDone := true)), p, MarkDone(t, ok), Release(t, true, ok))
  {
  }

  lemma FinishIsGood(s: State, p: Pid, o: Oracle, pc: Proc)
    requires Mine(s, p, pc) && (pc.Body? || pc.MarkDone?)
    requires ReleaseStep(s, p, o, pc).Some?
    ensures var m := ReleaseStep(s, p, o, pc).value; m.s.procs == s.procs && GoodStep(s, m.s, p, pc, m.pc)
  {
    if pc.MarkDone? && s.lease.value.token == pc.token { DoneIsGood(s, p, pc.token, pc.ok); }
  }

  lemma ReleaseIsGood(s: State, p: Pid, o: Oracle, pc: Proc)
    requires Mine(s, p, pc) && (pc.Release? || pc.ReleaseStopped?)
    requires ReleaseStep(s, p, o, pc).Some?
    ensures var m := ReleaseStep(s, p, o, pc).value; m.s.procs == s.procs && GoodStep(s, m.s, p, pc, m.pc)
  {
    var m := ReleaseStep(s, p, o, pc).value;
    if pc.ReleaseStopped? { ReleaseStoppedIsGood(s, p, pc, pc.token, m.pc); }
    else if m.s == s { QuietIsGood(s, s, p, pc, m.pc); }
    else { ExpireIsGood(s, p, pc, m.pc); }
  }

  lemma StopBeginIsGood(s: State, p: Pid, o: Oracle, pc: Proc)
    requires Mine(s, p, pc) && (pc.StopGet? || pc.StopCheck?)
    requires StopStep(s, p, o, pc).Some?
    ensures var m := StopStep(s, p, o, pc).value; m.s.procs == s.procs && GoodStep(s, m.s, p, pc, m.pc)
  {
    var m := StopStep(s, p, o, pc).value;
    if !m.pc.StopMark? { QuietIsGood(s, s, p, pc, m.pc); }
  }

  lemma StopMarkIsGood(s: State, p: Pid, o: Oracle, pc: Proc)
    requires Mine(s, p, pc) && (pc.StopMark?)
    requires StopStep(s, p, o, pc).Some?
    ensures var m := StopStep(s, p, o, pc).value; m.s.procs == s.procs && GoodStep(s, m.s, p, pc, m.pc)
  {
    var m := StopStep(s, p, o, pc).value;
    if m.pc.StopList? { MarkIsGood(s, p, pc, o.stamp, m.pc); } else { DrawAndLeaveIsGood(s, p, pc, m.pc); }
  }

  lemma StopWorkIsGood(s: State, p: Pid, o: Oracle, pc: Proc)
    requires Mine(s, p, pc) && (pc.StopList? || pc.StopCommands? || pc.StopDocker?)
    requires StopStep(s, p, o, pc).Some?
    ensures var m := StopStep(s, p, o, pc).value; m.s.procs == s.procs && GoodStep(s, m.s, p, pc, m.pc)
  {
    if pc.StopCommands? { StopCommandsIsGood(s, p, o, pc); }
    else { QuietIsGood(s, StopStep(s, p, o, pc).value.s, p, pc, StopStep(s, p, o, pc).value.pc); }
  }

  lemma StopCommandsIsGood(s: State, p: Pid, o: Oracle, pc: Proc)
    requires Mine(s, p, pc) && pc.StopCommands? && StopStep(s, p, o, pc).Some?
    ensures var m := StopStep(s, p, o, pc).value; m.s.procs == s.procs && GoodStep(s, m.s, p, pc, m.pc)
  {
    var m := StopStep(s, p, o, pc).value;
    QuietIsGood(s, m.s, p, pc, m.pc);
  }

  lemma StopEndIsGood(s: State, p: Pid, o: Oracle, pc: Proc)
    requires Mine(s, p, pc) && (pc.StopConfirm? || pc.StopRelease? || pc.StopRollback?)
    requires StopStep(s, p, o, pc).Some?
    ensures var m := StopStep(s, p, o, pc).value; m.s.procs == s.procs && GoodStep(s, m.s, p, pc, m.pc)
  {
    var m := StopStep(s, p, o, pc).value;
    if pc.StopConfirm? { ConfirmIsGood(s, p, pc, pc.token, pc.attempt, m.pc); }
    else if pc.StopRollback? { RollbackIsGood(s, p, pc, pc.token, pc.attempt, m.pc); }
    else { ReleaseStoppedIsGood(s, p, pc, pc.token, m.pc); }
  }

  lemma SweepIsGood(s: State, p: Pid, o: Oracle, pc: Proc)
    requires Mine(s, p, pc) && InSweep(pc)
    requires SweepStep(s, p, o, pc).Some?
    ensures var m := SweepStep(s, p, o, pc).value; m.s.procs == s.procs && GoodStep(s, m.s, p, pc, m.pc)
  {
    var m := SweepStep(s, p, o, pc).value;
    QuietIsGood(s, m.s, p, pc, m.pc);
  }

  /** A thrown error never hands a call more than it had. */
  lemma ThrownHoldsNoMore(pc: Proc)
    requires Thrown(pc).Some? && !pc.StopRelease? && !pc.Body?
    ensures var pc' := Thrown(pc).value;
            && KeepsRole(pc, pc') && Plain(pc') && Snapshot(pc').None?
            && (Flight(pc').None? || Flight(pc') == Flight(pc))
  {
  }

  lemma ReleaseThrowIsGood(s: State, p: Pid, token: nat, attempt: nat)
    requires Mine(s, p, StopRelease(token, attempt))
    ensures GoodStep(s, s, p, StopRelease(token, attempt), StopRollback(token, attempt, true))
  {
  }

  lemma BodyThrowIsGood(s: State, p: Pid, token: nat)
    requires Mine(s, p, Body(token))
    ensures GoodStep(s, s, p, Body(token), Release(token, false, false))
  {
  }

  lemma ThrowIsGood(s: State, p: Pid, pc: Proc)
    requires Mine(s, p, pc) && Thrown(pc).Some?
    ensures GoodStep(s, s, p, pc, Thrown(pc).value)
  {
    if pc.StopRelease? {
      ReleaseThrowIsGood(s, p, pc.token, pc.attempt);
    } else if pc.Body? {
      BodyThrowIsGood(s, p, pc.token);
    } else {
      ThrownHoldsNoMore(pc);
      var pc' := Thrown(pc).value;
      QuietIsGood(s, s, p, pc, pc');
    }
  }

  lemma CallKeepsProtocol(s: State, p: Pid, o: Oracle)
    requires LeaseProtocol(s) && p in s.procs && Advance(s, p, o, s.procs[p]).Some?
    ensures var m := Advance(s, p, o, s.procs[p]).value; m.s.procs == s.procs && GoodStep(s, m.s, p, s.procs[p], m.pc)
  {
    var pc := s.procs[p];
    assert Mine(s, p, pc);
    if InAcquire(pc) { AcquireIsGood(s, p, o, pc); }
    else if pc.Cleanup? || pc.CleanupDocker? { CleanupBeginIsGood(s, p, o, pc); }
    else if pc.CleanupConfirm? || pc.CleanupRollback? { CleanupEndIsGood(s, p, o, pc); }
    else if pc.Body? || pc.MarkDone? { FinishIsGood(s, p, o, pc); }
    else if pc.Release? || pc.ReleaseStopped? { ReleaseIsGood(s, p, o, pc); }
    else if InSweep(pc) { SweepIsGood(s, p, o, pc); }
    else if pc.StopGet? || pc.StopCheck? { StopBeginIsGood(s, p, o, pc); }
    else if pc.StopMark? { StopMarkIsGood(s, p, o, pc); }
    else if pc.StopList? || pc.StopCommands? || pc.StopDocker? { StopWorkIsGood(s, p, o, pc); }
    else if pc.StopConfirm? || pc.StopRelease? || pc.StopRollback? { StopEndIsGood(s, p, o, pc); }
    else { ExecuteIsGood(s, p, o, pc); }
  }

  /** What `lost` owns, flies and remembers, `pc` does too. */
  ghost predicate HoldsNoMore(pc: Proc, lost: Proc) {
    KeepsRole(pc, lost) && Plain(lost) && Snapshot(lost).None? && (Flight(lost).None? || Flight(lost) == Flight(pc))
  }

  lemma ExecuteHoldsNoMore(s: State, p: Pid, o: Oracle, pc: Proc)
    requires InExecute(pc) && ExecuteStep(s, p, o, pc).Some? && LostAfter(pc).Some?
    ensures HoldsNoMore(ExecuteStep(s, p, o, pc).value.pc, LostAfter(pc).value)
  {
  }

  lemma CleanupHoldsNoMore(s: State, p: Pid, o: Oracle, pc: Proc)
    requires InCleanup(pc) && !pc.CleanupConfirm? && CleanupStep(s, p, o, pc).Some? && LostAfter(pc).Some?
    ensures HoldsNoMore(CleanupStep(s, p, o, pc).value.pc, LostAfter(pc).value)
  {
  }

  lemma StopHoldsNoMore(s: State, p: Pid, o: Oracle, pc: Proc)
    requires InStop(pc) && !pc.StopConfirm? && !pc.StopRelease? && StopStep(s, p, o, pc).Some? && LostAfter(pc).Some?
    ensures HoldsNoMore(StopStep(s, p, o, pc).value.pc, LostAfter(pc).value)
  {
  }

  lemma OthersHoldNoMore(s: State, p: Pid, o: Oracle, pc: Proc)
    requires !InExecute(pc) && !InCleanup(pc) && !InStop(pc) && Advance(s, p, o, pc).Some? && LostAfter(pc).Some?
    ensures HoldsNoMore(Advance(s, p, o, pc).value.pc, LostAfter(pc).value)
  {
  }

  /** An error after the write leaves the call no more than the write itself would have. */
  lemma LostHoldsNoMore(s: State, p: Pid, o: Oracle, pc: Proc)
    requires Advance(s, p, o, pc).Some? && LostAfter(pc).Some? && !pc.StopConfirm? && !pc.CleanupConfirm? && !pc.StopRelease?
    ensures HoldsNoMore(Advance(s, p, o, pc).value.pc, LostAfter(pc).value)
  {
    if InExecute(pc) { ExecuteHoldsNoMore(s, p, o, pc); }
    else if InCleanup(pc) { CleanupHoldsNoMore(s, p, o, pc); }
    else if InStop(pc) { StopHoldsNoMore(s, p, o, pc); }
    else { OthersHoldNoMore(s, p, o, pc); }
  }

  lemma LostCleanupIsGood(s: State, p: Pid, o: Oracle, pc: Proc, u: State, pc': Proc)
    requires Mine(s, p, pc) && Mine(u, p, pc') && pc.CleanupConfirm? && CleanupStep(s, p, o, pc).Some?
    requires var m := CleanupStep(s, p, o, pc).value; u == At(m.s, p, m.pc) && pc' == m.pc
    ensures GoodStep(u, u, p, pc', CleanupRollback(pc.token, pc.id, pc.result, pc.attempt, true))
  {
    CleanupLostIsGood(s, p, pc, u);
  }

  lemma LostStopIsGood(s: State, p: Pid, o: Oracle, pc: Proc, u: State, pc': Proc)
    requires Mine(s, p, pc) && Mine(u, p, pc') && (pc.StopConfirm? || pc.StopRelease?) && StopStep(s, p, o, pc).Some?
    requires var m := StopStep(s, p, o, pc).value; u == At(m.s, p, m.pc) && pc' == m.pc
    ensures GoodStep(u, u, p, pc', StopRollback(pc.token, pc.attempt, true))
  {
    if pc.StopConfirm? { ReleaseThrowIsGood(u, p, pc.token, pc.attempt); } else { ReleaseLostIsGood(s, p, pc, u); }
  }

  lemma LostConfirmIsGood(s: State, p: Pid, o: Oracle, pc: Proc, u: State, pc': Proc)
    requires Mine(s, p, pc) && Mine(u, p, pc') && (pc.StopConfirm? || pc.CleanupConfirm? || pc.StopRelease?)
    requires LostAfter(pc).Some? && Advance(s, p, o, pc).Some?
    requires var m := Advance(s, p, o, pc).value; u == At(m.s, p, m.pc) && pc' == m.pc
    ensures GoodStep(u, u, p, pc', LostAfter(pc).value)
  {
    if pc.CleanupConfirm? { LostCleanupIsGood(s, p, o, pc, u, pc'); } else { LostStopIsGood(s, p, o, pc, u, pc'); }
  }

  lemma LostQuietly(s: State, p: Pid, o: Oracle, pc: Proc, u: State)
    requires Advance(s, p, o, pc).Some? && LostAfter(pc).Some? && !pc.StopConfirm? && !pc.CleanupConfirm? && !pc.StopRelease?
    requires Mine(u, p, Advance(s, p, o, pc).value.pc)
    ensures GoodStep(u, u, p, Advance(s, p, o, pc).value.pc, LostAfter(pc).value)
  {
    LostHoldsNoMore(s, p, o, pc);
    QuietIsGood(u, u, p, Advance(s, p, o, pc).value.pc, LostAfter(pc).value);
  }

  /** After the write, the error is one more step of the call, which changes nothing. */
  lemma LostIsGood(s: State, p: Pid, o: Oracle, pc: Proc, u: State, pc': Proc)
    requires Mine(s, p, pc) && LostAfter(pc).Some? && Mine(u, p, pc')
    requires Advance(s, p, o, pc).Some? && var m := Advance(s, p, o, pc).value; u == At(m.s, p, m.pc) && pc' == m.pc
    ensures GoodStep(u, u, p, pc', LostAfter(pc).value)
  {
    if pc.StopConfirm? || pc.CleanupConfirm? || pc.StopRelease? { LostConfirmIsGood(s, p, o, pc, u, pc'); }
    else { LostQuietly(s, p, o, pc, u); }
  }

  lemma GoodStepAgain(t: State, p: Pid, pc: Proc, u: State, pc': Proc)
    requires p in t.procs && u == At(t, p, pc) && LeaseProtocol(u) && GoodStep(u, u, p, pc, pc')
    ensures LeaseProtocol(At(t, p, pc'))
  {
    GoodStepKeeps(u, Move(u, pc'), p);
    AtTwice(t, p, pc, pc');
  }

  lemma AtTwice(t: State, p: Pid, pc: Proc, pc': Proc)
    ensures At(At(t, p, pc), p, pc') == At(t, p, pc')
  {
    assert t.procs[p := pc][p := pc'] == t.procs[p := pc'];
  }

  lemma LoseKeepsProtocol(s: State, p: Pid, o: Oracle)
    requires LeaseProtocol(s) && Next(s, Lose(p, o)).Some?
    ensures LeaseProtocol(Next(s, Lose(p, o)).value)
  {
    var pc := s.procs[p];
    var m := Advance(s, p, o, pc).value;
    CallKeepsProtocol(s, p, o);
    GoodStepKeeps(s, m, p);
    assert Mine(s, p, pc);
    MineAfter(At(m.s, p, m.pc), p, m.pc);
    LostIsGood(s, p, o, pc, At(m.s, p, m.pc), m.pc);
    GoodStepAgain(m.s, p, m.pc, At(m.s, p, m.pc), LostAfter(pc).value);
  }

  lemma MineAfter(u: State, p: Pid, pc: Proc)
    requires LeaseProtocol(u) && p in u.procs && u.procs[p] == pc
    ensures Mine(u, p, pc)
  {
  }

  lemma CleanupLostIsGood(s: State, p: Pid, pc: Proc, u: State)
    requires Mine(s, p, pc) && pc.CleanupConfirm? && Mine(u, p, Save(pc.token, pc.id, pc.result))
    requires u.lease == Confirm(s, pc.token, pc.attempt).lease && u.issued == s.issued && u.installed == s.installed
    ensures GoodStep(u, u, p, Save(pc.token, pc.id, pc.result), CleanupRollback(pc.token, pc.id, pc.result, pc.attempt, true))
  {
  }

  lemma ReleaseLostIsGood(s: State, p: Pid, pc: Proc, u: State)
    requires Mine(s, p, pc) && pc.StopRelease? && Mine(u, p, Finished(true))
    requires u.lease == ReleaseIfStopped(s, pc.token).lease && u.issued == s.issued && u.installed == s.installed
    ensures GoodStep(u, u, p, Finished(true), StopRollback(pc.token, pc.attempt, true))
  {
  }

  lemma BeginKeepsProtocol(s: State, e: Event)
    requires LeaseProtocol(s) && e.Begin? && Next(s, e).Some?
    ensures LeaseProtocol(Next(s, e).value)
  {
    var t := Next(s, e).value;
    forall q | q in t.procs ensures ProcInv(t, q, t.procs[q]) { if q != e.p { assert ProcInv(s, q, s.procs[q]); } }
    forall q, r | q in t.procs && r in t.procs && SameFlight(t, q, r) ensures q == r { assert SameFlight(s, q, r); }
  }

  lemma ThrowKeepsProtocol(s: State, p: Pid)
    requires LeaseProtocol(s) && Next(s, Throw(p)).Some?
    ensures LeaseProtocol(Next(s, Throw(p)).value)
  {
    assert Mine(s, p, s.procs[p]);
    ThrowIsGood(s, p, s.procs[p]);
    GoodStepKeeps(s, Move(s, Thrown(s.procs[p]).value), p);
  }

  lemma StepKeepsProtocol(s: State, e: Event)
    requires LeaseProtocol(s) && Next(s, e).Some?
    ensures LeaseProtocol(Next(s, e).value)
  {
    match e
    case Tick(ms) =>
      var t := Next(s, e).value;
      forall q | q in t.procs ensures ProcInv(t, q, t.procs[q]) { assert ProcInv(s, q, s.procs[q]); }
    case Begin(_, _) => BeginKeepsProtocol(s, e);
    case Throw(p) => ThrowKeepsProtocol(s, p);
    case Lose(p, o) => LoseKeepsProtocol(s, p, o);
    case Go(p, o) =>
      CallKeepsProtocol(s, p, o);
      GoodStepKeeps(s, Advance(s, p, o, s.procs[p]).value, p);
  }
}
