/** Fencing, mutual exclusion and single Stop attempts, over every run of the lease protocol. */
module ComputerExclusion {
  import opened Runs
  import opened ComputerLease
  import opened ComputerSafety

  ghost predicate Reachable(s: State) {
    exists es: seq<Event> :: Exec(Next, START, es) == Some(s)
  }

  lemma ReachableIsSafe(s: State)
    requires Reachable(s)
    ensures LeaseProtocol(s)
  {
    var es :| Exec(Next, START, es) == Some(s);
    forall t: State, e: Event | LeaseProtocol(t) && Next(t, e).Some? ensures LeaseProtocol(Next(t, e).value) {
      StepKeepsProtocol(t, e);
    }
    InvariantOfRuns(Next, t => LeaseProtocol(t), START, es);
  }

  // ------------------------------------------------------------------ a released lease is quiet

  /** Once a lease is released (expiry 0), its command has acknowledged, nobody works under it, no Stop is in
      flight, and a stop that was asked for is confirmed exactly unless that very attempt's own handler took
      its confirmation back. */
  lemma ReleasedLeaseIsQuiet(s: State, p: Pid)
    requires Reachable(s) && s.lease.Some? && s.lease.value.expiresAt == 0 && p in s.procs
    ensures s.lease.value.executorDone && !s.lease.value.stopInFlight
    ensures s.lease.value.stopping ==> (s.lease.value.stopConfirmed <==> s.lease.value.stopAttempt !in s.overturned)
    ensures Owned(s.procs[p]) == Some(s.lease.value.token) ==> !Executing(s.procs[p]) && !Operating(s.procs[p])
    ensures Flight(s.procs[p]).Some? ==> Flight(s.procs[p]).value.0 != s.lease.value.token
  {
    ReachableIsSafe(s);
    assert ProcInv(s, p, s.procs[p]);
  }

  /** The call takes its next step, and learns of it or not. */
  predicate Steps(e: Event, p: Pid, o: Oracle) { e == Go(p, o) || e == Lose(p, o) }

  /** The only way a confirmation is taken back: by the handler of the attempt that made it, over that very
      confirmation. */
  lemma OnlyItsHandlerOverturns(s: State, e: Event, attempt: nat)
    requires Reachable(s) && Next(s, e).Some?
    requires attempt !in s.overturned && attempt in Next(s, e).value.overturned
    ensures (e.Go? || e.Lose?) && Overturning(s.procs[e.p]) && s.procs[e.p].attempt == attempt
    ensures s.lease.Some? && s.lease.value.stopConfirmed && s.lease.value.stopAttempt == attempt
            && s.lease.value.token == s.procs[e.p].token
  {
    ReachableIsSafe(s);
    assert ProcInv(s, e.p, s.procs[e.p]);
    OverturningMove(s, e.p, e.o, s.procs[e.p]);
  }

  lemma CleanupOverturns(s: State, p: Pid, o: Oracle, pc: Proc)
    requires InCleanup(pc) && CleanupStep(s, p, o, pc).Some? && CleanupStep(s, p, o, pc).value.s.overturned != s.overturned
    ensures pc.CleanupRollback? && CleanupStep(s, p, o, pc).value.s == Rollback(s, pc.token, pc.attempt)
  {
  }

  lemma StopOverturns(s: State, p: Pid, o: Oracle, pc: Proc)
    requires InStop(pc) && StopStep(s, p, o, pc).Some? && StopStep(s, p, o, pc).value.s.overturned != s.overturned
    ensures pc.StopRollback? && StopStep(s, p, o, pc).value.s == Rollback(s, pc.token, pc.attempt)
  {
  }

  lemma OthersOverturnNothing(s: State, p: Pid, o: Oracle, pc: Proc)
    requires !InCleanup(pc) && !InStop(pc) && Advance(s, p, o, pc).Some?
    ensures Advance(s, p, o, pc).value.s.overturned == s.overturned
  {
  }

  lemma OverturningMove(s: State, p: Pid, o: Oracle, pc: Proc)
    requires Advance(s, p, o, pc).Some? && Advance(s, p, o, pc).value.s.overturned != s.overturned
    ensures pc.CleanupRollback? || pc.StopRollback?
    ensures Advance(s, p, o, pc).value.s == Rollback(s, pc.token, pc.attempt)
  {
    if InCleanup(pc) { CleanupOverturns(s, p, o, pc); }
    else if InStop(pc) { StopOverturns(s, p, o, pc); }
    else { OthersOverturnNothing(s, p, o, pc); }
  }

  /** A call takes over a released lease only when nothing started under it can still be running. */
  lemma TakeoverFindsNobody(s: State, p: Pid, o: Oracle, e: Event, q: Pid)
    requires Reachable(s) && p in s.procs && q in s.procs && s.procs[p].AcquireClaim?
    requires s.lease.Some? && s.lease.value.expiresAt == 0 && Steps(e, p, o)
    requires Next(s, e).Some? && Next(s, e).value.lease != s.lease
    ensures Executing(s.procs[q]) || Operating(s.procs[q]) ==> Owned(s.procs[q]) != Some(s.lease.value.token)
    ensures Flight(s.procs[q]).Some? ==> Flight(s.procs[q]).value.0 != s.lease.value.token
  {
    ReleasedLeaseIsQuiet(s, q);
  }

  // ------------------------------------------------------------------ fencing

  /** The token a call works under, in `exclusive`, in `stop`, or in either's last release. */
  function Holding(pc: Proc): Option<nat> {
    if Owned(pc).Some? then Owned(pc)
    else match pc
      case ReleaseStopped(t, _) => Some(t)
      case StopMark(snap) => Some(snap.token)
      case StopList(t, _) => Some(t)
      case StopCommands(t, _, _) => Some(t)
      case StopDocker(t, _) => Some(t)
      case StopConfirm(t, _) => Some(t)
      case StopRelease(t, _) => Some(t)
      case StopRollback(t, _, _) => Some(t)
      case _ => None
  }

  lemma FencedMove(s: State, p: Pid, o: Oracle, pc: Proc)
    requires Holding(pc).Some? && s.lease.Some? && s.lease.value.token != Holding(pc).value
    ensures Advance(s, p, o, pc).Some? ==> Advance(s, p, o, pc).value.s.lease == s.lease
  {
  }

  /** A step under a token that is not the installed one leaves the lease alone. */
  lemma OldHolderIsFenced(s: State, p: Pid, o: Oracle)
    requires p in s.procs && Holding(s.procs[p]).Some? && s.lease.Some?
    requires s.lease.value.token != Holding(s.procs[p]).value
    ensures Next(s, Go(p, o)).Some? ==> Next(s, Go(p, o)).value.lease == s.lease
    ensures Next(s, Lose(p, o)).Some? ==> Next(s, Lose(p, o)).value.lease == s.lease
    ensures Next(s, Throw(p)).Some? ==> Next(s, Throw(p)).value.lease == s.lease
  {
    FencedMove(s, p, o, s.procs[p]);
  }

  ghost predicate Replaced(s: State, token: nat) {
    LeaseProtocol(s) && token in s.installed && s.lease.Some? && s.lease.value.token != token
  }

  lemma StepKeepsReplaced(s: State, e: Event, token: nat)
    requires Replaced(s, token) && Next(s, e).Some?
    ensures Replaced(Next(s, e).value, token)
  {
    StepKeepsProtocol(s, e);
    LeaseOfEvent(s, e);
    if e.Go? || e.Lose? { MoveKeepsReplaced(s, e.p, e.o, token); }
  }

  /** The lease after an event, without the rest of it. */
  lemma LeaseOfEvent(s: State, e: Event)
    requires Next(s, e).Some?
    ensures var t := Next(s, e).value;
            if e.Go? || e.Lose? then
              e.p in s.procs && Advance(s, e.p, e.o, s.procs[e.p]).Some?
              && var u := Advance(s, e.p, e.o, s.procs[e.p]).value.s; t.lease == u.lease && t.installed == u.installed
            else t.lease == s.lease && t.installed == s.installed
  {
  }

  lemma MoveKeepsReplaced(s: State, p: Pid, o: Oracle, token: nat)
    requires Replaced(s, token) && p in s.procs && Advance(s, p, o, s.procs[p]).Some?
    ensures var u := Advance(s, p, o, s.procs[p]).value.s;
            u.lease.Some? && u.lease.value.token != token && token in u.installed
  {
    CallKeepsProtocol(s, p, o);
    assert ProcInv(s, p, s.procs[p]);
  }

  /** A replaced token never comes back, so its holders stay fenced for the rest of the run. */
  lemma ReplacedTokenNeverReturns(s: State, token: nat, es: seq<Event>)
    requires Reachable(s) && token in s.installed && s.lease.Some? && s.lease.value.token != token
    requires Exec(Next, s, es).Some?
    ensures var t := Exec(Next, s, es).value; t.lease.Some? && t.lease.value.token != token
  {
    ReachableIsSafe(s);
    forall t: State, e: Event | Replaced(t, token) && Next(t, e).Some? ensures Replaced(Next(t, e).value, token) {
      StepKeepsReplaced(t, e, token);
    }
    InvariantOfRuns(Next, t => Replaced(t, token), s, es);
  }

  // ------------------------------------------------------------------ one Stop attempt at a time

  lemma OneStopInFlightIn(s: State, p: Pid, q: Pid)
    requires LeaseProtocol(s) && p in s.procs && q in s.procs && SameFlight(s, p, q)
    ensures p == q
  {
  }

  lemma OneStopInFlight(s: State, p: Pid, q: Pid)
    requires Reachable(s) && p in s.procs && q in s.procs
    requires Flight(s.procs[p]).Some? && Flight(s.procs[q]).Some?
    requires Flight(s.procs[p]).value.0 == Flight(s.procs[q]).value.0
    ensures p == q
    ensures s.lease.Some? && s.lease.value.token == Flight(s.procs[p]).value.0 ==>
              s.lease.value.stopInFlight && s.lease.value.stopAttempt == Flight(s.procs[p]).value.1
  {
    ReachableIsSafe(s);
    assert SameFlight(s, p, q);
    assert ProcInv(s, p, s.procs[p]);
  }

  /** Only the attempt in flight ends itself. */
  lemma OnlyItsAttemptEndsAStop(s: State, p: Pid, o: Oracle, e: Event)
    requires Reachable(s) && p in s.procs && Steps(e, p, o) && Next(s, e).Some?
    requires s.lease.Some? && s.lease.value.stopInFlight
    requires var l := Next(s, e).value.lease; l.Some? && l.value.token == s.lease.value.token && !l.value.stopInFlight
    ensures Flight(s.procs[p]) == Some((s.lease.value.token, s.lease.value.stopAttempt))
  {
    ReachableIsSafe(s);
    assert LeaseProtocol(s);
    CallKeepsProtocol(s, p, o);
  }

  /** A Stop or a cleanup that marks the lease finds no attempt in flight, however old its snapshot. */
  lemma StaleSnapshotNeverWins(s: State, p: Pid, o: Oracle, e: Event, q: Pid)
    requires Reachable(s) && p in s.procs && q in s.procs && Steps(e, p, o) && Next(s, e).Some?
    requires s.procs[p].StopMark? || s.procs[p].Cleanup?
    requires Next(s, e).value.lease != s.lease
    ensures !s.lease.value.stopInFlight
    ensures Flight(s.procs[q]).Some? ==> Flight(s.procs[q]).value.0 != s.lease.value.token
  {
    ReachableIsSafe(s);
    assert ProcInv(s, p, s.procs[p]) && ProcInv(s, q, s.procs[q]);
  }

  // ------------------------------------------------------------------ mutual exclusion

  predicate Expired(s: State) {
    s.lease.Some? && s.lease.value.expiresAt != 0 && s.lease.value.expiresAt <= s.now
  }

  /** The same steps, in runs where no lease reaches its expiry time. */
  function NextTimely(s: State, e: Event): Option<State> {
    match Next(s, e)
    case None => None
    case Some(t) => if Expired(t) then None else Some(t)
  }

  /** Calls whose Docker work needs the computer to itself. */
  predicate InSection(pc: Proc) {
    Operating(pc) || Executing(pc) || Flight(pc).Some?
  }

  function SectionToken(pc: Proc): nat
    requires InSection(pc)
  {
    if Owned(pc).Some? then Owned(pc).value else Flight(pc).value.0
  }

  ghost predicate SectionInv(s: State, pc: Proc) {
    InSection(pc) ==>
      && s.lease.Some? && s.lease.value.token == SectionToken(pc)
      && (Operating(pc) ==> s.lease.value.expiresAt != 0)
  }

  ghost predicate Timely(s: State) {
    && LeaseProtocol(s) && !Expired(s)
    && (forall p :: p in s.procs ==> SectionInv(s, s.procs[p]))
  }

  /** Only the holder's own release, or the release of a stopped lease, frees the lease. */
  lemma ReleaseHasACause(s: State, p: Pid, o: Oracle, pc: Proc)
    requires Advance(s, p, o, pc).Some? && !pc.AcquireClaim?
    ensures var l := Advance(s, p, o, pc).value.s.lease;
            l != s.lease && s.lease.Some? && l.Some? && l.value.expiresAt == 0 ==>
              || s.lease.value.expiresAt == 0
              || s.lease.value.stopping
              || (pc.Release? && pc.token == s.lease.value.token)
  {
  }

  /** A call that takes over a lease nobody let expire finds no one inside. */
  lemma TakeoverNeedsRelease(s: State, p: Pid, o: Oracle, q: Pid)
    requires Timely(s) && p in s.procs && q in s.procs && s.procs[p].AcquireClaim?
    requires AcquireStep(s, p, o, s.procs[p]).value.s.lease != s.lease
    ensures !InSection(s.procs[q])
  {
    assert ProcInv(s, p, s.procs[p]) && ProcInv(s, q, s.procs[q]) && SectionInv(s, s.procs[q]);
  }

  lemma OthersStayInSection(s: State, p: Pid, o: Oracle, q: Pid)
    requires Timely(s) && p in s.procs && q in s.procs && p != q && Advance(s, p, o, s.procs[p]).Some?
    ensures SectionInv(Advance(s, p, o, s.procs[p]).value.s, s.procs[q])
  {
    var pc := s.procs[p];
    assert ProcInv(s, p, pc) && ProcInv(s, q, s.procs[q]) && SectionInv(s, s.procs[q]);
    if !pc.AcquireClaim? {
      ReleaseHasACause(s, p, o, pc);
    } else if AcquireStep(s, p, o, pc).value.s.lease != s.lease {
      TakeoverNeedsRelease(s, p, o, q);
    }
  }

  /** Where a call enters its section it has just put its token into the lease or found it there. */
  lemma OwnAcquireStep(s: State, p: Pid, o: Oracle, pc: Proc)
    requires Mine(s, p, pc) && SectionInv(s, pc) && InAcquire(pc)
    requires AcquireStep(s, p, o, pc).Some?
    ensures var m := AcquireStep(s, p, o, pc).value; SectionInv(m.s, m.pc)
  {
  }

  /** What a call owns it owned before. */
  ghost predicate CarriesOver(s: State, pc: Proc, m: Move) {
    && (Owned(m.pc).Some? ==> Owned(m.pc) == Owned(pc))
    && (Operating(m.pc) ==> Operating(pc) && m.s.lease == s.lease)
    && (Executing(m.pc) ==> Executing(pc))
  }

  lemma ExecuteCarriesOver(s: State, p: Pid, o: Oracle, pc: Proc)
    requires InExecute(pc) && ExecuteStep(s, p, o, pc).Some?
    ensures CarriesOver(s, pc, ExecuteStep(s, p, o, pc).value)
  {
  }

  lemma CleanupCarriesOver(s: State, p: Pid, o: Oracle, pc: Proc)
    requires InCleanup(pc) && CleanupStep(s, p, o, pc).Some?
    ensures CarriesOver(s, pc, CleanupStep(s, p, o, pc).value)
  {
  }

  lemma ReleaseCarriesOver(s: State, p: Pid, o: Oracle, pc: Proc)
    requires InRelease(pc) && ReleaseStep(s, p, o, pc).Some?
    ensures CarriesOver(s, pc, ReleaseStep(s, p, o, pc).value)
  {
  }

  lemma StopCarriesOver(s: State, p: Pid, o: Oracle, pc: Proc)
    requires InStop(pc) && StopStep(s, p, o, pc).Some?
    ensures CarriesOver(s, pc, StopStep(s, p, o, pc).value)
  {
  }

  lemma SweepCarriesOver(s: State, p: Pid, o: Oracle, pc: Proc)
    requires InSweep(pc) && SweepStep(s, p, o, pc).Some?
    ensures CarriesOver(s, pc, SweepStep(s, p, o, pc).value)
  {
  }

  lemma SectionCarriesOver(s: State, p: Pid, o: Oracle, pc: Proc)
    requires Advance(s, p, o, pc).Some? && !InAcquire(pc)
    ensures CarriesOver(s, pc, Advance(s, p, o, pc).value)
  {
    if InExecute(pc) { ExecuteCarriesOver(s, p, o, pc); }
    else if InCleanup(pc) { CleanupCarriesOver(s, p, o, pc); }
    else if InRelease(pc) { ReleaseCarriesOver(s, p, o, pc); }
    else if InStop(pc) { StopCarriesOver(s, p, o, pc); }
    else { SweepCarriesOver(s, p, o, pc); }
  }

  lemma OwnSectionStep(s: State, p: Pid, o: Oracle, pc: Proc)
    requires Mine(s, p, pc) && SectionInv(s, pc) && Advance(s, p, o, pc).Some?
    requires var m := Advance(s, p, o, pc).value; GoodStep(s, m.s, p, pc, m.pc)
    ensures var m := Advance(s, p, o, pc).value; SectionInv(m.s, m.pc)
  {
    if InAcquire(pc) {
      OwnAcquireStep(s, p, o, pc);
    } else {
      SectionCarriesOver(s, p, o, pc);
      SectionFollows(s, p, pc, Advance(s, p, o, pc).value);
    }
  }

  lemma SectionFollows(s: State, p: Pid, pc: Proc, m: Move)
    requires Mine(s, p, pc) && SectionInv(s, pc) && GoodStep(s, m.s, p, pc, m.pc) && KeepsToken(s, m.s)
    requires Owned(m.pc).Some? ==> Owned(m.pc) == Owned(pc)
    requires (Operating(m.pc) ==> Operating(pc) && m.s.lease == s.lease) && (Executing(m.pc) ==> Executing(pc))
    ensures SectionInv(m.s, m.pc)
  {
    if Owned(m.pc).Some? { OwnedFollows(s, pc, m); } else { assert !Operating(m.pc) && !Executing(m.pc); }
  }

  lemma OwnedFollows(s: State, pc: Proc, m: Move)
    requires SectionInv(s, pc) && KeepsToken(s, m.s) && Owned(m.pc).Some? && Owned(m.pc) == Owned(pc)
    requires (Operating(m.pc) ==> Operating(pc) && m.s.lease == s.lease) && (Executing(m.pc) ==> Executing(pc))
    ensures (Operating(m.pc) || Executing(m.pc)) ==>
              m.s.lease.Some? && m.s.lease.value.token == SectionToken(m.pc)
              && (Operating(m.pc) ==> m.s.lease.value.expiresAt != 0)
  {
  }

  lemma CallKeepsSections(s: State, p: Pid, o: Oracle, q: Pid)
    requires Timely(s) && p in s.procs && q in s.procs && Advance(s, p, o, s.procs[p]).Some?
    ensures var m := Advance(s, p, o, s.procs[p]).value; SectionInv(m.s, if q == p then m.pc else s.procs[q])
  {
    if q != p {
      OthersStayInSection(s, p, o, q);
    } else {
      CallKeepsProtocol(s, p, o);
      assert SectionInv(s, s.procs[p]) && Mine(s, p, s.procs[p]);
      OwnSectionStep(s, p, o, s.procs[p]);
    }
  }

  lemma ThrowKeepsSections(s: State, p: Pid)
    requires Timely(s) && p in s.procs && Thrown(s.procs[p]).Some?
    ensures SectionInv(s, Thrown(s.procs[p]).value)
  {
    var pc := s.procs[p];
    assert SectionInv(s, pc);
    if !pc.StopRelease? && !pc.Body? { ThrownHoldsNoMore(pc); }
  }

  predicate SameSection(pc: Proc, pc': Proc) {
    || (Executing(pc') && Executing(pc) && Owned(pc') == Owned(pc))
    || (Owned(pc').None? && Flight(pc') == Flight(pc) && Owned(pc).None?)
  }

  /** An error after the write leaves the call in no section but the one it was in. */
  lemma LostSection(s: State, p: Pid, o: Oracle, pc: Proc)
    requires Advance(s, p, o, pc).Some? && LostAfter(pc).Some?
    ensures var (m, lost) := (Advance(s, p, o, pc).value, LostAfter(pc).value);
            InSection(lost) ==> SameSection(m.pc, lost)
  {
    if InExecute(pc) { LostExecuteSection(s, p, o, pc); }
    else if !InCleanup(pc) && !InRelease(pc) && !InStop(pc) { LostOtherSection(pc); }
    else if InRelease(pc) { LostReleaseSection(s, p, o, pc); }
    else if InCleanup(pc) || pc.StopConfirm? { LostCleanupSection(s, p, o, pc); }
    else { LostStopSection(s, p, o, pc); }
  }

  lemma LostExecuteSection(s: State, p: Pid, o: Oracle, pc: Proc)
    requires InExecute(pc) && ExecuteStep(s, p, o, pc).Some? && LostAfter(pc).Some?
    ensures var (m, lost) := (ExecuteStep(s, p, o, pc).value, LostAfter(pc).value);
            InSection(lost) ==> SameSection(m.pc, lost)
  {
  }

  lemma LostOtherSection(pc: Proc)
    requires !InExecute(pc) && !InCleanup(pc) && !InRelease(pc) && !InStop(pc) && LostAfter(pc).Some?
    ensures !InSection(LostAfter(pc).value)
  {
  }

  lemma LostReleaseSection(s: State, p: Pid, o: Oracle, pc: Proc)
    requires InRelease(pc) && ReleaseStep(s, p, o, pc).Some? && LostAfter(pc).Some?
    ensures var (m, lost) := (ReleaseStep(s, p, o, pc).value, LostAfter(pc).value);
            InSection(lost) ==> SameSection(m.pc, lost)
  {
  }

  lemma LostStopSection(s: State, p: Pid, o: Oracle, pc: Proc)
    requires InStop(pc) && !pc.StopConfirm? && StopStep(s, p, o, pc).Some? && LostAfter(pc).Some?
    ensures var (m, lost) := (StopStep(s, p, o, pc).value, LostAfter(pc).value);
            InSection(lost) ==> SameSection(m.pc, lost)
  {
  }

  lemma LostCleanupSection(s: State, p: Pid, o: Oracle, pc: Proc)
    requires pc.CleanupConfirm? || pc.StopConfirm? || pc.Cleanup? || pc.CleanupRollback?
    requires Advance(s, p, o, pc).Some? && LostAfter(pc).Some?
    ensures var (m, lost) := (Advance(s, p, o, pc).value, LostAfter(pc).value);
            InSection(lost) ==> SameSection(m.pc, lost)
  {
  }

  lemma LoseKeepsSections(s: State, p: Pid, o: Oracle)
    requires Timely(s) && p in s.procs && Advance(s, p, o, s.procs[p]).Some? && LostAfter(s.procs[p]).Some?
    ensures SectionInv(Advance(s, p, o, s.procs[p]).value.s, LostAfter(s.procs[p]).value)
  {
    CallKeepsSections(s, p, o, p);
    LostSection(s, p, o, s.procs[p]);
    SectionOnlyShrinks(Advance(s, p, o, s.procs[p]).value, LostAfter(s.procs[p]).value);
  }

  lemma SectionOnlyShrinks(m: Move, pc: Proc)
    requires SectionInv(m.s, m.pc)
    requires InSection(pc) ==> SameSection(m.pc, pc)
    ensures SectionInv(m.s, pc)
  {
  }

  lemma StepKeepsTimely(s: State, e: Event)
    requires Timely(s) && NextTimely(s, e).Some?
    ensures Timely(NextTimely(s, e).value)
  {
    StepKeepsProtocol(s, e);
    var t := NextTimely(s, e).value;
    match e
    case Go(p, o) =>
      CallKeepsProtocol(s, p, o);
      forall q | q in t.procs ensures SectionInv(t, t.procs[q]) { CallKeepsSections(s, p, o, q); }
    case Lose(p, o) =>
      LoseKeepsSections(s, p, o);
      CallKeepsProtocol(s, p, o);
      forall q | q in t.procs ensures SectionInv(t, t.procs[q]) { if q != p { CallKeepsSections(s, p, o, q); } }
    case Throw(p) =>
      ThrowKeepsSections(s, p);
      forall q | q in t.procs ensures SectionInv(t, t.procs[q]) { assert SectionInv(s, s.procs[q]); }
    case Begin(p, _) =>
      forall q | q in t.procs ensures SectionInv(t, t.procs[q]) { if q != p { assert SectionInv(s, s.procs[q]); } }
    case Tick(_) =>
      forall q | q in t.procs ensures SectionInv(t, t.procs[q]) { assert SectionInv(s, s.procs[q]); }
  }

  /** While no lease reaches its expiry time, two calls are inside their sections together only when
      one of them is a command and the other the Stop that is stopping that command. */
  lemma MutualExclusion(es: seq<Event>, s: State, p: Pid, q: Pid)
    requires Exec(NextTimely, START, es) == Some(s)
    requires p in s.procs && q in s.procs && p != q && InSection(s.procs[p]) && InSection(s.procs[q])
    ensures s.lease.Some? && SectionToken(s.procs[p]) == SectionToken(s.procs[q]) == s.lease.value.token
    ensures s.lease.value.command && s.lease.value.stopping && s.lease.value.stopInFlight
    ensures || (Executing(s.procs[p]) && Flight(s.procs[p]).None? && Owned(s.procs[q]).None? && Flight(s.procs[q]).Some?)
            || (Executing(s.procs[q]) && Flight(s.procs[q]).None? && Owned(s.procs[p]).None? && Flight(s.procs[p]).Some?)
  {
    forall t: State, e: Event | Timely(t) && NextTimely(t, e).Some? ensures Timely(NextTimely(t, e).value) {
      StepKeepsTimely(t, e);
    }
    InvariantOfRuns(NextTimely, t => Timely(t), START, es);
    assert Timely(s) && SectionInv(s, s.procs[p]) && SectionInv(s, s.procs[q]);
    assert ProcInv(s, p, s.procs[p]) && ProcInv(s, q, s.procs[q]);
    if Flight(s.procs[p]).Some? && Flight(s.procs[q]).Some? {
      OneStopInFlightIn(s, p, q);
      assert false;
    }
  }

  // ------------------------------------------------------------------ the one way a stop loses its confirmation

  /** One more event of a run that is being built. */
  lemma Do(es: seq<Event>, s: State, e: Event) returns (es': seq<Event>, t: State)
    requires Exec(Next, START, es) == Some(s) && Next(s, e).Some?
    ensures Exec(Next, START, es') == Some(t) && Some(t) == Next(s, e)
  {
    es' := es + [e];
    t := Next(s, e).value;
    ExecSnoc(Next, START, es, e);
  }

  /** Call 1 is a command that holds token 1 and is about to save its receipt. */
  lemma ReachCommand(o: Oracle) returns (es: seq<Event>, s: State)
    requires o.stamp == 0
    ensures Exec(Next, START, es) == Some(s) && s.now == 0 && s.nextId == 2
    ensures s.procs.Keys == {1} && s.procs[1] == Prepare(1, 7) && s.lease == Some(NewLease(1, 0, Command(7)))
    ensures s.receipts == map[]
  {
    es, s := Do([], START, Begin(1, LookUp(7)));
    es, s := Do(es, s, Go(1, o));
    es, s := Do(es, s, Go(1, o));
    es, s := Do(es, s, Go(1, o));
    es, s := Do(es, s, Go(1, o));
  }

  datatype Scene = Scene(command: Proc, stop: Proc, lease: Lease)

  ghost predicate Shows(es: seq<Event>, s: State, c: Scene) {
    Exec(Next, START, es) == Some(s) && s.procs.Keys == {1, 2}
    && s.procs[1] == c.command && s.procs[2] == c.stop && s.lease == Some(c.lease) && s.receipts == map[]
  }

  /** The Stop takes its next step, to `pc`, leaving the lease `l`. */
  lemma StopActs(es: seq<Event>, s: State, c: Scene, pc: Proc, l: Lease) returns (es': seq<Event>, t: State)
    requires Shows(es, s, c) && StopStepShows(s, c, pc, l)
    ensures Shows(es', t, Scene(c.command, pc, l)) && t.now == s.now && t.nextId == s.nextId
  {
    var m := StopStep(s, 2, PLAINLY, c.stop).value;
    StopGoes(s, c.stop);
    es', t := Do(es, s, Go(2, PLAINLY));
    assert t == At(m.s, 2, m.pc);
  }

  lemma StopGoes(s: State, pc: Proc)
    requires 2 in s.procs && s.procs[2] == pc && InStop(pc) && StopStep(s, 2, PLAINLY, pc).Some?
    ensures Next(s, Go(2, PLAINLY)) == Some(At(StopStep(s, 2, PLAINLY, pc).value.s, 2, StopStep(s, 2, PLAINLY, pc).value.pc))
  {
  }

  predicate StopStepShows(s: State, c: Scene, pc: Proc, l: Lease) {
    InStop(c.stop) && !c.stop.StopMark?
    && var m := StopStep(s, 2, PLAINLY, c.stop);
       m.Some? && m.value.pc == pc && m.value.s.lease == Some(l) && m.value.s.receipts == s.receipts
  }

  /** The command takes its next step of the finally block. */
  lemma CommandLeaves(es: seq<Event>, s: State, c: Scene, pc: Proc, l: Lease) returns (es': seq<Event>, t: State)
    requires Shows(es, s, c) && (c.command.MarkDone? || c.command.Release? || c.command.ReleaseStopped?)
    requires var m := ReleaseStep(s, 1, PLAINLY, c.command); m.Some? && m.value.pc == pc && m.value.s.lease == Some(l)
    ensures Shows(es', t, Scene(pc, c.stop, l))
  {
    es', t := Do(es, s, Go(1, PLAINLY));
  }

  /** Call 2 is a Stop of that command, and has read the lease. */
  lemma ReachStopping() returns (es: seq<Event>, s: State)
    ensures Shows(es, s, Scene(Prepare(1, 7), StopMark(NewLease(1, 0, Command(7))), NewLease(1, 0, Command(7))))
    ensures s.nextId == 2 && s.now == 0
  {
    var l := NewLease(1, 0, Command(7));
    es, s := ReachCommand(PLAINLY);
    es, s := Do(es, s, Begin(2, StopGet));
    es, s := StopActs(es, s, Scene(Prepare(1, 7), StopGet, l), StopCheck(Some(l)), l);
    es, s := StopActs(es, s, Scene(Prepare(1, 7), StopCheck(Some(l)), l), StopMark(l), l);
  }

  /** The Stop has marked the lease, and found no receipt to interrupt. */
  lemma ReachListed() returns (es: seq<Event>, s: State)
    ensures Shows(es, s, Scene(Prepare(1, 7), StopCommands(1, 2, {}), Marked(NewLease(1, 0, Command(7)), 2, 0)))
  {
    es, s := ReachStopping();
    es, s := Do(es, s, Go(2, PLAINLY));
    var l := Marked(NewLease(1, 0, Command(7)), 2, 0);
    assert Unfinished(s) == {};
    es, s := StopActs(es, s, Scene(Prepare(1, 7), StopList(1, 2), l), StopCommands(1, 2, {}), l);
  }

  /** Docker has stopped, and the Stop has confirmed it and is about to release the lease. */
  lemma ReachConfirmedStop() returns (es: seq<Event>, s: State)
    ensures Shows(es, s, Scene(Prepare(1, 7), StopRelease(1, 2), Lease(1, LEASE_DURATION, true, false, 2, true, false, true)))
  {
    es, s := ReachListed();
    var l := Marked(NewLease(1, 0, Command(7)), 2, 0);
    var c := Prepare(1, 7);
    es, s := StopActs(es, s, Scene(c, StopCommands(1, 2, {}), l), StopDocker(1, 2), l);
    es, s := StopActs(es, s, Scene(c, StopDocker(1, 2), l), StopConfirm(1, 2), l);
    es, s := StopActs(es, s, Scene(c, StopConfirm(1, 2), l), StopRelease(1, 2),
                      l.(stopInFlight := false, stopConfirmed := true));
  }

  /** Meanwhile the command gives up and releases the stopped lease itself. */
  lemma ReachReleasedLease() returns (es: seq<Event>, s: State)
    ensures Shows(es, s, Scene(Finished(false), StopRelease(1, 2), Lease(1, 0, true, false, 2, true, true, true)))
  {
    es, s := ReachConfirmedStop();
    var l := s.lease.value;
    es, s := Do(es, s, Throw(1));
    var r := StopRelease(1, 2);
    es, s := CommandLeaves(es, s, Scene(MarkDone(1, false), r, l), Release(1, true, false), l.(executorDone := true));
    es, s := CommandLeaves(es, s, Scene(Release(1, true, false), r, l.(executorDone := true)),
                           ReleaseStopped(1, false), l.(executorDone := true));
    es, s := CommandLeaves(es, s, Scene(ReleaseStopped(1, false), r, l.(executorDone := true)),
                           Finished(false), l.(executorDone := true, expiresAt := 0));
  }

  /** Such attempts exist: when the last store call of a confirmed Stop throws, its rollback can clear the
      confirmation of a lease that the finished command has meanwhile released. */
  lemma UndoneStopIsReachable()
    ensures exists s :: Reachable(s) && s.lease.Some? && s.lease.value.expiresAt == 0
                        && s.lease.value.stopping && !s.lease.value.stopConfirmed
  {
    var es, s := ReachThrownStop();
    var l := s.lease.value;
    es, s := StopActs(es, s, Scene(Finished(false), StopRollback(1, 2, true), l), Finished(false), l.(stopConfirmed := false));
    assert Reachable(s);
  }

  /** The last store call of the Stop throws. */
  lemma ReachThrownStop() returns (es: seq<Event>, s: State)
    ensures Shows(es, s, Scene(Finished(false), StopRollback(1, 2, true), Lease(1, 0, true, false, 2, true, true, true)))
  {
    es, s := ReachReleasedLease();
    es, s := Do(es, s, Throw(2));
  }
}
