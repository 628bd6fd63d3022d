/** The computer service as its source writes it (apps/server/src/computer.ts): calls that read and swap one
    lease record and the command receipts, suspended at every await while other calls run.  Each method is
    shown to take the steps of the lease protocol, so what is proved of the protocol's runs holds for it. */
module ComputerService {
  import opened Runs
  import opened ComputerLease
  import opened ComputerReceipts
  import opened ComputerSweeps
  import opened ComputerResults
  import opened ComputerCourses
  import Paging

  /** The fields a compare-and-swap names; None leaves a field out. */
  datatype Fields = Fields(
    token: Option<nat>, expiresAt: Option<nat>, stopping: Option<bool>, stopInFlight: Option<bool>,
    stopAttempt: Option<nat>, stopConfirmed: Option<bool>, executorDone: Option<bool>, command: Option<bool>)

  const NOTHING := Fields(None, None, None, None, None, None, None, None)

  predicate Matches(l: Lease, f: Fields) {
    && (f.token.Some? ==> l.token == f.token.value) && (f.expiresAt.Some? ==> l.expiresAt == f.expiresAt.value)
    && (f.stopping.Some? ==> l.stopping == f.stopping.value)
    && (f.stopInFlight.Some? ==> l.stopInFlight == f.stopInFlight.value)
    && (f.stopAttempt.Some? ==> l.stopAttempt == f.stopAttempt.value)
    && (f.stopConfirmed.Some? ==> l.stopConfirmed == f.stopConfirmed.value)
    && (f.executorDone.Some? ==> l.executorDone == f.executorDone.value)
    && (f.command.Some? ==> l.command == f.command.value)
  }

  function Or<T>(o: Option<T>, otherwise: T): T { if o.Some? then o.value else otherwise }

  function Patched(l: Lease, f: Fields): Lease {
    Lease(Or(f.token, l.token), Or(f.expiresAt, l.expiresAt), Or(f.stopping, l.stopping),
          Or(f.stopInFlight, l.stopInFlight), Or(f.stopAttempt, l.stopAttempt),
          Or(f.stopConfirmed, l.stopConfirmed), Or(f.executorDone, l.executorDone), Or(f.command, l.command))
  }

  /** A patch that names every field. */
  function Whole(l: Lease): Fields {
    Fields(Some(l.token), Some(l.expiresAt), Some(l.stopping), Some(l.stopInFlight), Some(l.stopAttempt),
           Some(l.stopConfirmed), Some(l.executorDone), Some(l.command))
  }

  predicate Of(e: Event, p: Pid) { !e.Tick? && e.p == p }

  /** The run went on, and call `p` in it only by steps of its own and by errors it was handed. */
  ghost predicate Grew(before: seq<Step>, after: seq<Step>, p: Pid) {
    && Kept(before, after)
    && forall i :: |before| <= i < |after| && Of(after[i].e, p) ==> after[i].e.Go? || after[i].e.Throw?
  }

  /** These are the states of a run, from the first on, and the steps between them. */
  ghost predicate Remembers(past: seq<State>, trace: seq<Step>) {
    && |past| == |trace| + 1 && past[0] == START
    && forall i {:trigger Next(past[i], trace[i].e)} :: 0 <= i < |trace| ==>
         Next(past[i], trace[i].e) == Some(past[i + 1]) && trace[i] == StepOf(past[i], trace[i].e, past[i + 1])
  }

  lemma RemembersOneMore(past: seq<State>, trace: seq<Step>, e: Event, t: State)
    requires Remembers(past, trace) && Next(past[|trace|], e) == Some(t)
    ensures Remembers(past + [t], trace + [StepOf(past[|trace|], e, t)])
  {
    var states, steps := past + [t], trace + [StepOf(past[|trace|], e, t)];
    forall i | 0 <= i < |steps|
      ensures Next(states[i], steps[i].e) == Some(states[i + 1]) && steps[i] == StepOf(states[i], steps[i].e, states[i + 1])
    {
      if i < |trace| { assert Next(past[i], trace[i].e) == Some(past[i + 1]); }
    }
  }

  /** What is on record so far stays there. */
  ghost predicate Kept<T>(before: seq<T>, after: seq<T>) {
    |before| <= |after| && forall i :: 0 <= i < |before| ==> after[i] == before[i]
  }

  const PLAIN := Oracle(0, 0, DockerResult(None, false, false), true)

  predicate SameRecords(a: State, b: State) {
    a.lease == b.lease && a.receipts == b.receipts && a.stamps == b.stamps && a.nextId == b.nextId && a.now == b.now
  }

  /** The records, the clock and the other calls of one owner. */
  class Computer {
    var s: State
    ghost var past: seq<State>     // the state before each event, and the last one
    ghost var trace: seq<Step>     // the steps between them

    ghost predicate Valid() reads this { Stands(s) }

    /** The run so far ended in this state. */
    ghost predicate Stands(t: State) reads this { Remembers(past, trace) && past[|trace|] == t }

    /** Event `k` is this step of `p`, in this state. */
    ghost predicate StepIs(t: seq<Step>, k: nat, before: State, p: Pid, o: Oracle) {
      && k < |t| && t[k].e == Go(p, o)
      && t[k].now == before.now && t[k].nextId == before.nextId && t[k].lease == before.lease
      && p in before.procs && t[k].receipt == Receipt(before, before.procs[p])
    }

    ghost predicate At(p: Pid, pc: Proc) reads this { Valid() && p in s.procs && s.procs[p] == pc }

    constructor ()
      ensures Valid() && s == START
    {
      s, past, trace := START, [START], [];
    }

    // ---------------------------------------------------------------- the environment

    method Other(p: Pid, ghost pc: Proc, e: Event)
      requires At(p, pc) && !Of(e, p)
      modifies this
      ensures Grew(old(trace), trace, p) && Kept(old(past), past)
      ensures At(p, pc)
    {
      if Next(s, e).Some? {
        RemembersOneMore(past, trace, e, Next(s, e).value);
        trace := trace + [StepOf(s, e, Next(s, e).value)];
        s := Next(s, e).value;
        past := past + [s];
      }
    }

    /** An await: other calls and the clock go on. */
    method Yield(p: Pid, ghost pc: Proc)
      requires At(p, pc)
      modifies this
      ensures Grew(old(trace), trace, p) && Kept(old(past), past)
      ensures At(p, pc)
    {
      var others: seq<Event> := *;
      for i := 0 to |others|
        invariant Grew(old(trace), trace, p) && Kept(old(past), past)
        invariant At(p, pc)
      {
        if !Of(others[i], p) { Other(p, pc, others[i]); }
      }
    }

    /** An await whose call fails without effect. */
    method Throws(p: Pid, ghost pc: Proc) returns (thrown: bool)
      requires At(p, pc) && Thrown(pc).Some?
      modifies this
      ensures Grew(old(trace), trace, p) && Kept(old(past), past)
      ensures if thrown then At(p, Thrown(pc).value) else At(p, pc)
      ensures thrown ==> Threw(trace, |old(trace)|, p)
    {
      ghost var at;
      thrown, at := Fails(p, pc);
    }

    method Fails(p: Pid, ghost pc: Proc) returns (thrown: bool, ghost at: nat)
      requires At(p, pc) && Thrown(pc).Some?
      modifies this
      ensures Grew(old(trace), trace, p) && Kept(old(past), past)
      ensures if thrown then At(p, Thrown(pc).value) else At(p, pc)
      ensures thrown ==> ThrewAt(trace, |old(trace)|, p, at, pc) && Threw(trace, |old(trace)|, p)
    {
      Yield(p, pc);
      thrown, at := *, |trace|;
      if thrown {
        RemembersOneMore(past, trace, Throw(p), Next(s, Throw(p)).value);
        trace := trace + [StepOf(s, Throw(p), Next(s, Throw(p)).value)];
        s := Next(s, Throw(p)).value;
        past := past + [s];
        assert trace[at].e == Throw(p);
      }
    }

    /** A clock reading, taken at some moment before the store call it is part of. */
    method Clock() returns (stamp: nat)
      ensures stamp <= s.now
    {
      stamp := *;
      if stamp > s.now { stamp := s.now; }
    }

    method RandomUUID() returns (id: nat)
      modifies this`s
      ensures id == old(s).nextId && s == old(s).(nextId := id + 1)
    {
      id := s.nextId;
      s := s.(nextId := id + 1);
    }

    // ---------------------------------------------------------------- the store

    method SwapLease(expected: Fields, patch: Fields) returns (hit: bool)
      modifies this`s
      ensures hit <==> old(s).lease.Some? && Matches(old(s).lease.value, expected)
      ensures s == if hit then old(s).(lease := Some(Patched(old(s).lease.value, patch))) else old(s)
    {
      hit := s.lease.Some? && Matches(s.lease.value, expected);
      if hit { s := s.(lease := Some(Patched(s.lease.value, patch))); }
    }

    method InsertLease(l: Lease) returns (hit: bool)
      modifies this`s
      ensures hit <==> old(s).lease.None?
      ensures s == if hit then old(s).(lease := Some(l)) else old(s)
    {
      hit := s.lease.None?;
      if hit { s := s.(lease := Some(l)); }
    }

    /** The claim: over the lease that was read, or where there is none. */
    method ReplaceLease(previous: Option<Lease>, lease: Lease) returns (claimed: bool)
      modifies this`s
      ensures var l := old(s).lease;
              claimed <==> if previous.Some? then && l.Some? && l.value.token == previous.value.token
                                                  && l.value.expiresAt == previous.value.expiresAt
                           else l.None?
      ensures s == if claimed then old(s).(lease := Some(lease)) else old(s)
    {
      if previous.Some? {
        claimed := SwapLease(
          NOTHING.(token := Some(previous.value.token), expiresAt := Some(previous.value.expiresAt)), Whole(lease));
      } else {
        claimed := InsertLease(lease);
      }
    }

    /** The lease is that of this token. */
    predicate Holds(t: State, token: nat) { HoldsIn(t.lease, token) }

    method AcknowledgeLease(token: nat)
      modifies this`s
      ensures s == if Holds(old(s), token) then old(s).(lease := Some(old(s).lease.value.(executorDone := true))) else old(s)
    {
      var hit := SwapLease(NOTHING.(token := Some(token)), NOTHING.(executorDone := Some(true)));
    }

    method FreeLease(token: nat)
      modifies this`s
      ensures s == if Holds(old(s), token) && !old(s).lease.value.stopping
                   then old(s).(lease := Some(old(s).lease.value.(expiresAt := 0))) else old(s)
    {
      var hit := SwapLease(NOTHING.(token := Some(token), stopping := Some(false)), NOTHING.(expiresAt := Some(0)));
    }

    method FreeStoppedLease(token: nat)
      modifies this`s
      ensures s == if Holds(old(s), token) && old(s).lease.value.stopping && old(s).lease.value.stopConfirmed
                      && old(s).lease.value.executorDone && !old(s).lease.value.stopInFlight
                   then old(s).(lease := Some(old(s).lease.value.(expiresAt := 0))) else old(s)
    {
      var hit := SwapLease(
        NOTHING.(token := Some(token), stopping := Some(true), stopConfirmed := Some(true), executorDone := Some(true),
                 stopInFlight := Some(false)),
        NOTHING.(expiresAt := Some(0)));
    }

    /** Puts an attempt to stop on the lease, if that is still as it was read. */
    method AttemptStop(lease: Lease) returns (hit: bool, attempt: nat, stamp: nat)
      modifies this`s
      ensures attempt == old(s).nextId && stamp <= old(s).now && hit == StillAs(old(s).lease, lease)
      ensures s == old(s).(nextId := attempt + 1,
                           lease := if hit then Some(UnderAttempt(old(s).lease.value, attempt, stamp)) else old(s).lease)
    {
      attempt := RandomUUID();
      stamp := Clock();
      hit := SwapLease(
        NOTHING.(token := Some(lease.token), stopping := Some(lease.stopping), stopAttempt := Some(lease.stopAttempt)),
        NOTHING.(stopping := Some(true), stopInFlight := Some(true), stopAttempt := Some(attempt),
                 stopConfirmed := Some(false), expiresAt := Some(stamp + LEASE_DURATION)));
    }

    /** The same for the cleanup of a command, which any Stop keeps away. */
    method AttemptCleanup(token: nat) returns (hit: bool, attempt: nat, stamp: nat)
      modifies this`s
      ensures attempt == old(s).nextId && stamp <= old(s).now && hit == (Holds(old(s), token) && !old(s).lease.value.stopping)
      ensures s == old(s).(nextId := attempt + 1,
                           lease := if hit then Some(UnderAttempt(old(s).lease.value, attempt, stamp)) else old(s).lease)
    {
      attempt := RandomUUID();
      stamp := Clock();
      hit := SwapLease(
        NOTHING.(token := Some(token), stopping := Some(false)),
        NOTHING.(stopping := Some(true), stopInFlight := Some(true), stopAttempt := Some(attempt),
                 stopConfirmed := Some(false), expiresAt := Some(stamp + LEASE_DURATION)));
    }

    /** Ends an attempt, confirmed or not. */
    method EndAttempt(token: nat, attempt: nat, confirmed: bool)
      modifies this`s
      ensures s == if Holds(old(s), token) && old(s).lease.value.stopAttempt == attempt
                   then old(s).(lease := Some(old(s).lease.value.(stopInFlight := false, stopConfirmed := confirmed)))
                   else old(s)
    {
      var hit := SwapLease(NOTHING.(token := Some(token), stopAttempt := Some(attempt)),
                           NOTHING.(stopInFlight := Some(false), stopConfirmed := Some(confirmed)));
    }

    method SwapReceipt(id: OpId, expected: Status, status: Status) returns (hit: bool)
      modifies this`s
      ensures hit <==> id in old(s).receipts && old(s).receipts[id] == expected
      ensures s == if hit then SetReceipt(old(s), id, status) else old(s)
    {
      hit := id in s.receipts && s.receipts[id] == expected;
      if hit { s := SetReceipt(s, id, status); }
    }

    method PutReceipt(id: OpId, status: Status)
      modifies this`s
      ensures s == SetReceipt(old(s), id, status)
    {
      s := SetReceipt(s, id, status);
    }

    /** The call has done to the records what its next step does, and stands at its next await. */
    method Arrive(p: Pid, o: Oracle, before: State, ghost m: Move)
      requires Stands(before) && p in before.procs
      requires Advance(before, p, o, before.procs[p]) == Some(m) && SameRecords(m.s, s)
      modifies this
      ensures Grew(old(trace), trace, p) && Kept(old(past), past) && |trace| == |old(trace)| + 1
      ensures At(p, m.pc) && SameRecords(s, old(s))
      ensures Did(trace, |old(trace)|, p, |old(trace)|, before.procs[p], s.lease) && StepIs(trace, |old(trace)|, before, p, o)
      ensures trace[|old(trace)|].receiptAfter == Receipt(s, before.procs[p])
    {
      RemembersOneMore(past, trace, Go(p, o), Next(before, Go(p, o)).value);
      trace := trace + [StepOf(before, Go(p, o), Next(before, Go(p, o)).value)];
      s := Next(before, Go(p, o)).value;
      past := past + [s];
    }

    method ArriveAcquire(p: Pid, o: Oracle, before: State, ghost here: Proc, ghost there: Proc)
      requires Stands(before) && p in before.procs && before.procs[p] == here
      requires InAcquire(here)
      requires var m := AcquireStep(before, p, o, here); m.Some? && SameRecords(m.value.s, s) && m.value.pc == there
      modifies this
      ensures Grew(old(trace), trace, p) && Kept(old(past), past) && |trace| == |old(trace)| + 1
      ensures At(p, there) && SameRecords(s, old(s))
      ensures Did(trace, |old(trace)|, p, |old(trace)|, here, s.lease) && StepIs(trace, |old(trace)|, before, p, o)
    {
      Arrive(p, o, before, AcquireStep(before, p, o, here).value);
    }

    method ArriveExecute(p: Pid, o: Oracle, before: State, ghost here: Proc, ghost there: Proc)
      requires Stands(before) && p in before.procs && before.procs[p] == here
      requires InExecute(here)
      requires var m := ExecuteStep(before, p, o, here); m.Some? && SameRecords(m.value.s, s) && m.value.pc == there
      modifies this
      ensures Grew(old(trace), trace, p) && Kept(old(past), past) && |trace| == |old(trace)| + 1
      ensures At(p, there) && SameRecords(s, old(s))
      ensures Did(trace, |old(trace)|, p, |old(trace)|, here, s.lease) && StepIs(trace, |old(trace)|, before, p, o)
      ensures trace[|old(trace)|].receiptAfter == Receipt(s, here)
    {
      Arrive(p, o, before, ExecuteStep(before, p, o, here).value);
    }

    method ArriveCleanup(p: Pid, o: Oracle, before: State, ghost here: Proc, ghost there: Proc)
      requires Stands(before) && p in before.procs && before.procs[p] == here
      requires InCleanup(here)
      requires var m := CleanupStep(before, p, o, here); m.Some? && SameRecords(m.value.s, s) && m.value.pc == there
      modifies this
      ensures Grew(old(trace), trace, p) && Kept(old(past), past) && |trace| == |old(trace)| + 1
      ensures At(p, there) && SameRecords(s, old(s))
      ensures Did(trace, |old(trace)|, p, |old(trace)|, here, s.lease) && StepIs(trace, |old(trace)|, before, p, o)
    {
      Arrive(p, o, before, CleanupStep(before, p, o, here).value);
    }

    method ArriveRelease(p: Pid, o: Oracle, before: State, ghost here: Proc, ghost there: Proc)
      requires Stands(before) && p in before.procs && before.procs[p] == here
      requires InRelease(here)
      requires var m := ReleaseStep(before, p, o, here); m.Some? && SameRecords(m.value.s, s) && m.value.pc == there
      modifies this
      ensures Grew(old(trace), trace, p) && Kept(old(past), past) && |trace| == |old(trace)| + 1
      ensures At(p, there) && SameRecords(s, old(s))
      ensures Did(trace, |old(trace)|, p, |old(trace)|, here, s.lease) && StepIs(trace, |old(trace)|, before, p, o)
    {
      Arrive(p, o, before, ReleaseStep(before, p, o, here).value);
    }

    method ArriveStop(p: Pid, o: Oracle, before: State, ghost here: Proc, ghost there: Proc)
      requires Stands(before) && p in before.procs && before.procs[p] == here
      requires InStop(here)
      requires var m := StopStep(before, p, o, here); m.Some? && SameRecords(m.value.s, s) && m.value.pc == there
      modifies this
      ensures Grew(old(trace), trace, p) && Kept(old(past), past) && |trace| == |old(trace)| + 1
      ensures At(p, there) && SameRecords(s, old(s))
      ensures Did(trace, |old(trace)|, p, |old(trace)|, here, s.lease) && StepIs(trace, |old(trace)|, before, p, o)
    {
      Arrive(p, o, before, StopStep(before, p, o, here).value);
    }

    method ArriveSweep(p: Pid, o: Oracle, before: State, ghost here: Proc, ghost there: Proc)
      requires Stands(before) && p in before.procs && before.procs[p] == here
      requires InSweep(here)
      requires var m := SweepStep(before, p, o, here); m.Some? && SameRecords(m.value.s, s) && m.value.pc == there
      modifies this
      ensures Grew(old(trace), trace, p) && Kept(old(past), past) && |trace| == |old(trace)| + 1
      ensures At(p, there) && SameRecords(s, old(s))
      ensures Did(trace, |old(trace)|, p, |old(trace)|, here, s.lease) && StepIs(trace, |old(trace)|, before, p, o)
    {
      Arrive(p, o, before, SweepStep(before, p, o, here).value);
    }

    // ---------------------------------------------------------------- acquire

    method Acquire(p: Pid, kind: Kind) returns (r: Option<Lease>, ghost c: Claim)
      requires At(p, AcquireGet(kind))
      modifies this
      ensures Grew(old(trace), trace, p)
      ensures if r.Some? then At(p, Entered(kind, r.value)) && s.lease == r else At(p, Finished(false))
      ensures Acquired(trace, |old(trace)|, p, kind, c, r)
    {
      var thrown, at := Fails(p, AcquireGet(kind));
      r, c := None, Claim(0, 0, 0, thrown, at);
      if !thrown { r, c := ReadAndClaim(p, kind, |old(trace)|); }
    }

    method ReadAndClaim(p: Pid, kind: Kind, ghost since: nat) returns (r: Option<Lease>, ghost c: Claim)
      requires At(p, AcquireGet(kind)) && since <= |trace|
      modifies this
      ensures Grew(old(trace), trace, p)
      ensures if r.Some? then At(p, Entered(kind, r.value)) && s.lease == r else At(p, Finished(false))
      ensures Acquired(trace, since, p, kind, c, r)
    {
      var previous := s.lease;
      ghost var get := |trace|;
      ArriveAcquire(p, PLAIN, s, AcquireGet(kind), AcquireCheck(kind, previous));
      r, c := DraftAndClaim(p, kind, previous, get);
    }

    method DraftAndClaim(p: Pid, kind: Kind, previous: Option<Lease>, ghost get: nat) returns (r: Option<Lease>, ghost c: Claim)
      requires At(p, AcquireCheck(kind, previous)) && get < |trace|
      modifies this
      ensures Grew(old(trace), trace, p) && c.get == get
      ensures if r.Some? then At(p, Entered(kind, r.value)) && s.lease == r else At(p, Finished(false))
      ensures if c.failed then r.None? && AcquireThrew(trace, get + 1, p, c.thrown) else Drafted(trace, get + 1, p, kind, previous, c, r)
    {
      var free, lease, check := DraftLease(p, kind, previous);
      r, c := None, Claim(get, check, 0, false, 0);
      if free {
        ghost var failed, claim, at;
        r, failed, claim, at := ClaimLease(p, kind, previous, lease);
        c := Claim(get, check, claim, failed, at);
      }
    }

    /** The lease to claim, unless the one that was read is still live. */
    method DraftLease(p: Pid, kind: Kind, previous: Option<Lease>) returns (free: bool, lease: Lease, ghost check: nat)
      requires At(p, AcquireCheck(kind, previous))
      modifies this
      ensures Grew(old(trace), trace, p)
      ensures At(p, if free then AcquireClaim(kind, previous, lease) else Finished(false))
      ensures Looked(trace, |old(trace)|, p, check, AcquireCheck(kind, previous)) && trace[check].e.o.stamp <= trace[check].now
      ensures lease == Draft(trace[check].nextId, trace[check].e.o.stamp, kind)
      ensures free <==> !(previous.Some? && previous.value.expiresAt > trace[check].now)
    {
      Yield(p, AcquireCheck(kind, previous));
      var before := s;
      check := |trace|;
      var stamp := Clock();
      var token := RandomUUID();
      lease := Lease(token, stamp + LEASE_DURATION, false, false, 0, false, !kind.Command?, kind.Command?);
      free := previous.None? || previous.value.expiresAt <= s.now;
      ArriveAcquire(p, PLAIN.(stamp := stamp), before, AcquireCheck(kind, previous),
                    if free then AcquireClaim(kind, previous, lease) else Finished(false));
    }

    method ClaimLease(p: Pid, kind: Kind, previous: Option<Lease>, lease: Lease)
      returns (r: Option<Lease>, ghost failed: bool, ghost claim: nat, ghost at: nat)
      requires At(p, AcquireClaim(kind, previous, lease))
      modifies this
      ensures Grew(old(trace), trace, p)
      ensures if r.Some? then At(p, Entered(kind, r.value)) && s.lease == r else At(p, Finished(false))
      ensures if failed then r.None? && AcquireThrew(trace, |old(trace)|, p, at)
              else Claimed(trace, |old(trace)|, p, kind, previous, lease, claim, r)
    {
      var thrown;
      thrown, at := Fails(p, AcquireClaim(kind, previous, lease));
      r, failed, claim := None, thrown, 0;
      if thrown { return; }
      var before := s;
      claim := |trace|;
      var claimed := ReplaceLease(previous, lease);
      ArriveAcquire(p, PLAIN, before, AcquireClaim(kind, previous, lease),
                    if claimed then Entered(kind, lease) else Finished(false));
      if claimed { r := Some(lease); }
    }

    // ---------------------------------------------------------------- exclusive

    /** At the end of `exclusive`. */
    method ReleaseStopped(p: Pid, token: nat, ghost ok: bool) returns (thrown: bool, ghost last: nat, ghost at: nat)
      requires At(p, Proc.ReleaseStopped(token, ok))
      modifies this
      ensures Grew(old(trace), trace, p)
      ensures At(p, Finished(!thrown && ok))
      ensures if thrown then PartingThrew(trace, |old(trace)|, p, at)
              else FreedIfStopped(trace, |old(trace)|, p, token, Proc.ReleaseStopped(token, ok), last)
    {
      thrown, at := Fails(p, Proc.ReleaseStopped(token, ok));
      last := |trace|;
      if !thrown { ReleaseStoppedNow(p, token, ok); }
    }

    method ReleaseStoppedNow(p: Pid, token: nat, ghost ok: bool)
      requires At(p, Proc.ReleaseStopped(token, ok))
      modifies this
      ensures Grew(old(trace), trace, p)
      ensures At(p, Finished(ok))
      ensures FreedIfStopped(trace, |old(trace)|, p, token, Proc.ReleaseStopped(token, ok), |old(trace)|)
    {
      var before := s;
      FreeStoppedLease(token);
      ArriveRelease(p, PLAIN, before, Proc.ReleaseStopped(token, ok), Finished(ok));
    }

    /** A command acknowledges completion before its lease can be given up. */
    method Acknowledge(p: Pid, token: nat, ghost ok: bool) returns (thrown: bool, ghost mark: nat, ghost at: nat)
      requires At(p, MarkDone(token, ok))
      modifies this
      ensures Grew(old(trace), trace, p)
      ensures At(p, if thrown then Finished(false) else Release(token, true, ok))
      ensures if thrown then PartingThrew(trace, |old(trace)|, p, at) else Acknowledged(trace, |old(trace)|, p, token, ok, mark)
    {
      thrown, at := Fails(p, MarkDone(token, ok));
      mark := |trace|;
      if !thrown { AcknowledgeNow(p, token, ok); }
    }

    method AcknowledgeNow(p: Pid, token: nat, ghost ok: bool)
      requires At(p, MarkDone(token, ok))
      modifies this
      ensures Grew(old(trace), trace, p)
      ensures At(p, Release(token, true, ok))
      ensures Acknowledged(trace, |old(trace)|, p, token, ok, |old(trace)|)
    {
      var before := s;
      AcknowledgeLease(token);
      ArriveRelease(p, PLAIN, before, MarkDone(token, ok), Release(token, true, ok));
    }

    method ReleaseLease(p: Pid, token: nat, ghost command: bool, ghost ok: bool)
      returns (thrown: bool, ghost release: nat, ghost at: nat)
      requires At(p, Release(token, command, ok))
      modifies this
      ensures Grew(old(trace), trace, p)
      ensures At(p, if thrown then Finished(false) else Proc.ReleaseStopped(token, ok))
      ensures if thrown then PartingThrew(trace, |old(trace)|, p, at) else Freed(trace, |old(trace)|, p, token, command, ok, release)
    {
      thrown, at := Fails(p, Release(token, command, ok));
      release := |trace|;
      if !thrown { ReleaseLeaseNow(p, token, command, ok); }
    }

    method ReleaseLeaseNow(p: Pid, token: nat, ghost command: bool, ghost ok: bool)
      requires At(p, Release(token, command, ok))
      modifies this
      ensures Grew(old(trace), trace, p)
      ensures At(p, Proc.ReleaseStopped(token, ok))
      ensures Freed(trace, |old(trace)|, p, token, command, ok, |old(trace)|)
    {
      var before := s;
      FreeLease(token);
      ArriveRelease(p, PLAIN, before, Release(token, command, ok), Proc.ReleaseStopped(token, ok));
    }

    /** The finally block; `ok` says whether the operation returned. */
    method Leave(p: Pid, token: nat, command: bool, ok: bool) returns (done: bool, ghost v: Parting)
      requires At(p, if command then MarkDone(token, ok) else Release(token, false, ok))
      modifies this
      ensures Grew(old(trace), trace, p)
      ensures At(p, Finished(done)) && (done ==> ok)
      ensures Parted(trace, |old(trace)|, p, token, command, ok, v, done)
    {
      if command {
        var thrown, mark, at := Acknowledge(p, token, ok);
        done, v := false, Parting(mark, 0, 0, thrown, at);
        if !thrown { done, v := GiveUp(p, token, command, ok, mark, mark + 1); }
      } else {
        done, v := GiveUp(p, token, command, ok, 0, |trace|);
      }
    }

    method GiveUp(p: Pid, token: nat, ghost command: bool, ok: bool, ghost mark: nat, ghost since: nat)
      returns (done: bool, ghost v: Parting)
      requires At(p, Release(token, command, ok)) && since <= |trace|
      modifies this
      ensures Grew(old(trace), trace, p)
      ensures At(p, Finished(done)) && v.mark == mark
      ensures if v.failed then !done && PartingThrew(trace, since, p, v.thrown) else GaveUp(trace, since, p, token, command, ok, v, done)
    {
      var thrown, release, at := ReleaseLease(p, token, command, ok);
      done, v := false, Parting(mark, release, 0, thrown, at);
      if !thrown {
        ghost var last;
        thrown, last, at := ReleaseStopped(p, token, ok);
        done, v := ok && !thrown, Parting(mark, release, last, thrown, at);
      }
    }

    /** A start or a file operation that got the lease gives it up, however Docker ended. */
    method Operate(p: Pid)
      returns (done: bool, ghost claim: Claim, ghost got: nat, ghost lease: Option<Lease>, ghost ok: bool, ghost v: Parting)
      requires At(p, AcquireGet(Operation))
      modifies this
      ensures Grew(old(trace), trace, p)
      ensures At(p, Finished(done))
      ensures |old(trace)| <= got <= |trace| && Acquired(trace[..got], |old(trace)|, p, Operation, claim, lease)
      ensures if lease.None? then !done else Parted(trace, got, p, lease.value.token, false, ok, v, done)
    {
      var mine;
      mine, claim := AcquireToOperate(p);
      ghost var t := trace;
      got, lease := |t|, mine;
      done, ok, v := OperateIfAcquired(p, mine);
      assert trace[..got] == t;
    }

    method AcquireToOperate(p: Pid) returns (lease: Option<Lease>, ghost claim: Claim)
      requires At(p, AcquireGet(Operation))
      modifies this
      ensures Grew(old(trace), trace, p)
      ensures At(p, if lease.Some? then Body(lease.value.token) else Finished(false))
      ensures Acquired(trace, |old(trace)|, p, Operation, claim, lease)
    {
      lease, claim := Acquire(p, Operation);
    }

    method OperateIfAcquired(p: Pid, lease: Option<Lease>) returns (done: bool, ghost ok: bool, ghost v: Parting)
      requires At(p, if lease.Some? then Body(lease.value.token) else Finished(false))
      modifies this
      ensures Grew(old(trace), trace, p)
      ensures At(p, Finished(done))
      ensures if lease.None? then !done else Parted(trace, |old(trace)|, p, lease.value.token, false, ok, v, done)
    {
      done, ok, v := false, false, Parting(0, 0, 0, false, 0);
      if lease.Some? { done, ok, v := OperateAndLeave(p, lease.value.token, |trace|); }
    }

    method OperateAndLeave(p: Pid, token: nat, ghost since: nat) returns (done: bool, ghost ok: bool, ghost v: Parting)
      requires At(p, Body(token)) && since <= |trace|
      modifies this
      ensures Grew(old(trace), trace, p)
      ensures At(p, Finished(done))
      ensures Parted(trace, since, p, token, false, ok, v, done)
    {
      Yield(p, Body(token));
      var worked: bool := *;
      ok := worked;
      ArriveRelease(p, PLAIN.(ok := worked), s, Body(token), Release(token, false, worked));
      done, v := Leave(p, token, false, worked);
    }

    // ---------------------------------------------------------------- stop

    /** A Stop that returns has decided every receipt its listing answered with, stopped Docker and confirmed
        it; one that does not has taken its attempt back, if it came to put it on the lease. */
    method Stop(p: Pid) returns (done: bool, ghost v: Halt)
      requires At(p, StopGet)
      modifies this
      ensures Grew(old(trace), trace, p)
      ensures At(p, Finished(done))
      ensures Stopped(trace, |old(trace)|, p, v, done)
      ensures done ==> SweptSince(v.work.list)
    {
      var thrown, at := Fails(p, StopGet);
      done, v := false, Halt(0, 0, Claim(0, 0, 0, false, 0), 0, None, 0, 0, IDLE, 0, false, thrown, false, at);
      if !thrown { done, v := ReadAndStop(p, |old(trace)|, v); }
    }

    method ReadAndStop(p: Pid, ghost since: nat, ghost v0: Halt) returns (done: bool, ghost v: Halt)
      requires At(p, StopGet) && since <= |trace|
      modifies this
      ensures Grew(old(trace), trace, p)
      ensures At(p, Finished(done))
      ensures Stopped(trace, since, p, v, done)
      ensures done ==> SweptSince(v.work.list)
    {
      var lease := s.lease;
      ghost var get := |trace|;
      ArriveStop(p, PLAIN, s, StopGet, StopCheck(lease));
      done, v := CheckAndStop(p, lease, v0.(get := get));
    }

    method CheckAndStop(p: Pid, lease: Option<Lease>, ghost v0: Halt) returns (done: bool, ghost v: Halt)
      requires At(p, StopCheck(lease)) && v0.get < |trace|
      modifies this
      ensures Grew(old(trace), trace, p)
      ensures At(p, Finished(done)) && v.get == v0.get
      ensures if v.early then !done && StopThrew(trace, v0.get + 1, p, v.thrown) else Handled(trace, p, lease, v, done)
      ensures done ==> SweptSince(v.work.list)
    {
      var lapsed, free, check := CheckStoppable(p, lease);
      done, v := false, v0.(check := check, early := false);
      if lapsed || free { done, v := StopAs(p, lease, lapsed, v); }
    }

    method StopAs(p: Pid, lease: Option<Lease>, lapsed: bool, ghost v0: Halt) returns (done: bool, ghost v: Halt)
      requires v0.check < |trace| && !v0.early && (lapsed || lease.Some?)
      requires At(p, if lapsed then AcquireGet(StopRequest) else StopMark(lease.value))
      modifies this
      ensures Grew(old(trace), trace, p)
      ensures At(p, Finished(done)) && v.get == v0.get && v.check == v0.check
      ensures if v.early then !done && StopThrew(trace, v0.check + 1, p, v.thrown)
              else if lapsed then Replaced(trace, v0.check + 1, p, v, done)
              else Halted(trace, v0.check + 1, p, lease.value, v, done)
      ensures done ==> SweptSince(v.work.list)
    {
      if lapsed { done, v := AcquireAndStop(p, v0); } else { done, v := StopLease(p, lease.value, v0.check + 1, v0); }
    }

    /** A lapsed lease has to be acquired; a live one can be stopped unless it is busy otherwise. */
    method CheckStoppable(p: Pid, lease: Option<Lease>) returns (lapsed: bool, free: bool, ghost check: nat)
      requires At(p, StopCheck(lease))
      modifies this
      ensures Grew(old(trace), trace, p)
      ensures Looked(trace, |old(trace)|, p, check, StopCheck(lease)) && check < |trace|
      ensures lapsed <==> lease.None? || lease.value.expiresAt <= trace[check].now
      ensures free <==> !lapsed && (lease.value.command || lease.value.stopping) && !lease.value.stopInFlight
      ensures At(p, if lapsed then AcquireGet(StopRequest) else if free then StopMark(lease.value) else Finished(false))
    {
      Yield(p, StopCheck(lease));
      check := |trace|;
      lapsed := lease.None? || lease.value.expiresAt <= s.now;
      free := !lapsed && (lease.value.command || lease.value.stopping) && !lease.value.stopInFlight;
      ArriveStop(p, PLAIN, s, StopCheck(lease),
                 if lapsed then AcquireGet(StopRequest) else if free then StopMark(lease.value) else Finished(false));
    }

    method AcquireAndStop(p: Pid, ghost v0: Halt) returns (done: bool, ghost v: Halt)
      requires At(p, AcquireGet(StopRequest)) && v0.check < |trace| && !v0.early
      modifies this
      ensures Grew(old(trace), trace, p)
      ensures At(p, Finished(done)) && v.get == v0.get && v.check == v0.check
      ensures if v.early then !done && StopThrew(trace, v0.check + 1, p, v.thrown) else Replaced(trace, v0.check + 1, p, v, done)
      ensures done ==> SweptSince(v.work.list)
    {
      var lease, claim := AcquireToStop(p);
      ghost var t := trace;
      done, v := StopIfAcquired(p, lease, v0.(claim := claim, got := |t|, lease := lease));
      assert trace[..|t|] == t;
    }

    method AcquireToStop(p: Pid) returns (lease: Option<Lease>, ghost claim: Claim)
      requires At(p, AcquireGet(StopRequest))
      modifies this
      ensures Grew(old(trace), trace, p)
      ensures At(p, if lease.Some? then StopMark(lease.value) else Finished(false))
      ensures Acquired(trace, |old(trace)|, p, StopRequest, claim, lease)
    {
      lease, claim := Acquire(p, StopRequest);
    }

    method StopIfAcquired(p: Pid, lease: Option<Lease>, ghost v0: Halt) returns (done: bool, ghost v: Halt)
      requires At(p, if lease.Some? then StopMark(lease.value) else Finished(false)) && !v0.early
      modifies this
      ensures Grew(old(trace), trace, p)
      ensures At(p, Finished(done))
      ensures v.get == v0.get && v.check == v0.check && v.claim == v0.claim && v.got == v0.got && v.lease == v0.lease
      ensures if v.early then !done && StopThrew(trace, |old(trace)|, p, v.thrown)
              else if lease.None? then !done else Halted(trace, |old(trace)|, p, lease.value, v, done)
      ensures done ==> SweptSince(v.work.list)
    {
      done, v := false, v0;
      if lease.Some? { done, v := StopLease(p, lease.value, |trace|, v0); }
    }

    method StopLease(p: Pid, lease: Lease, ghost since: nat, ghost v0: Halt) returns (done: bool, ghost v: Halt)
      requires At(p, StopMark(lease)) && since <= |trace|
      modifies this
      ensures Grew(old(trace), trace, p)
      ensures At(p, Finished(done))
      ensures v.get == v0.get && v.check == v0.check && v.claim == v0.claim && v.got == v0.got && v.lease == v0.lease
      ensures if v.early then !done && StopThrew(trace, since, p, v.thrown) else Halted(trace, since, p, lease, v, done)
      ensures done ==> SweptSince(v.work.list)
    {
      var thrown, stopping, attempt, mark, at := MarkStop(p, lease);
      ghost var t := trace;
      ghost var work, rollback, confirmed, late, undo;
      done, work, rollback, confirmed, late, undo := WorkIfMarked(p, lease.token, attempt, !thrown && stopping);
      v := v0.(mark := mark, sent := |t|, early := thrown, work := work, rollback := rollback, confirmed := confirmed,
               late := late, thrown := if thrown then at else undo);
      assert trace[..|t|] == t;
    }

    method WorkIfMarked(p: Pid, token: nat, attempt: nat, marked: bool)
      returns (done: bool, ghost work: Shutdown, ghost rollback: nat, ghost confirmed: bool, ghost late: bool, ghost at: nat)
      requires At(p, if marked then StopList(token, attempt) else Finished(false))
      modifies this
      ensures Grew(old(trace), trace, p)
      ensures At(p, Finished(done))
      ensures if !marked then !done
              else if done then Completed(trace, |old(trace)|, p, token, attempt, work) && SweptSince(work.list)
              else Undone(trace, |old(trace)|, p, token, attempt, work, rollback, confirmed, late, at)
    {
      done, work, rollback, confirmed, late, at := false, IDLE, 0, false, false, 0;
      if marked { done, work, rollback, confirmed, late, at := WorkOrRollBack(p, token, attempt, |trace|); }
    }

    /** Puts this attempt on the lease as it was read. */
    method MarkStop(p: Pid, lease: Lease)
      returns (thrown: bool, stopping: bool, attempt: nat, ghost mark: nat, ghost at: nat)
      requires At(p, StopMark(lease))
      modifies this
      ensures Grew(old(trace), trace, p)
      ensures At(p, if !thrown && stopping then StopList(lease.token, attempt) else Finished(false))
      ensures if thrown then StopThrew(trace, |old(trace)|, p, at)
              else && Attempted(trace, |old(trace)|, p, lease, mark, stopping) && attempt == trace[mark].nextId
                   && (stopping <==> StillAs(trace[mark].lease, lease))
    {
      stopping, attempt, mark := false, 0, 0;
      thrown, at := Fails(p, StopMark(lease));
      if !thrown {
        mark := |trace|;
        stopping, attempt := SwapStop(p, lease);
      }
    }

    method SwapStop(p: Pid, lease: Lease) returns (stopping: bool, attempt: nat)
      requires At(p, StopMark(lease))
      modifies this
      ensures Grew(old(trace), trace, p)
      ensures At(p, if stopping then StopList(lease.token, attempt) else Finished(false))
      ensures var mark := |old(trace)|;
              && Attempted(trace, mark, p, lease, mark, stopping) && attempt == trace[mark].nextId
              && (stopping <==> StillAs(trace[mark].lease, lease))
    {
      var before := s;
      var stamp;
      stopping, attempt, stamp := AttemptStop(lease);
      ArriveStop(p, PLAIN.(stamp := stamp), before, StopMark(lease),
                 if stopping then StopList(lease.token, attempt) else Finished(false));
    }

    method WorkOrRollBack(p: Pid, token: nat, attempt: nat, ghost since: nat)
      returns (done: bool, ghost work: Shutdown, ghost rollback: nat, ghost confirmed: bool, ghost late: bool, ghost at: nat)
      requires At(p, StopList(token, attempt)) && since <= |trace|
      modifies this
      ensures Grew(old(trace), trace, p)
      ensures At(p, Finished(done))
      ensures if done then Completed(trace, since, p, token, attempt, work) && SweptSince(work.list)
              else Undone(trace, since, p, token, attempt, work, rollback, confirmed, late, at)
    {
      var ended;
      done, ended, work := StopWork(p, token, attempt);
      confirmed, rollback, late, at := ended, 0, false, 0;
      if !done { late, rollback, at := RollBack(p, token, attempt, ended); }
    }

    method ListRunning(p: Pid, token: nat, attempt: nat) returns (thrown: bool, todo: set<OpId>, ghost list: nat)
      requires At(p, StopList(token, attempt))
      modifies this
      ensures Grew(old(trace), trace, p) && Kept(old(past), past)
      ensures At(p, if thrown then StopRollback(token, attempt, false) else StopCommands(token, attempt, todo))
      ensures if thrown then Threw(trace, |old(trace)|, p)
              else Looked(trace, |old(trace)|, p, list, StopList(token, attempt)) && Listed(todo, Covered(past[list]), 0)
    {
      todo, list := {}, 0;
      thrown := Throws(p, StopList(token, attempt));
      if thrown { return; }
      list := |trace|;
      todo := Unfinished(s);
      ArriveStop(p, PLAIN, s, StopList(token, attempt), StopCommands(token, attempt, todo));
    }

    method InterruptOne(p: Pid, token: nat, attempt: nat, todo: set<OpId>, id: OpId) returns (thrown: bool)
      requires At(p, StopCommands(token, attempt, todo)) && id in todo
      modifies this
      ensures Grew(old(trace), trace, p) && Kept(old(past), past)
      ensures At(p, if thrown then StopRollback(token, attempt, false) else StopCommands(token, attempt, todo - {id}))
      ensures if thrown then Threw(trace, |old(trace)|, p) else id in s.receipts ==> !s.receipts[id].Running?
    {
      thrown := Throws(p, StopCommands(token, attempt, todo));
      if !thrown { InterruptOneNow(p, token, attempt, todo, id); }
    }

    method InterruptOneNow(p: Pid, token: nat, attempt: nat, todo: set<OpId>, id: OpId)
      requires At(p, StopCommands(token, attempt, todo)) && id in todo
      modifies this
      ensures Grew(old(trace), trace, p) && Kept(old(past), past)
      ensures At(p, StopCommands(token, attempt, todo - {id})) && (id in s.receipts ==> !s.receipts[id].Running?)
    {
      var before := s;
      var hit := SwapReceipt(id, Running, Interrupted);
      ArriveStop(p, PLAIN.(id := id), before, StopCommands(token, attempt, todo), StopCommands(token, attempt, todo - {id}));
    }

    method InterruptNext(p: Pid, token: nat, attempt: nat, ghost ids: set<OpId>, todo: set<OpId>, id: OpId) returns (thrown: bool)
      requires At(p, StopCommands(token, attempt, todo)) && id in todo && todo <= ids <= s.receipts.Keys && AllDecided(ids - todo)
      modifies this
      ensures Grew(old(trace), trace, p) && Kept(old(past), past)
      ensures At(p, if thrown then StopRollback(token, attempt, false) else StopCommands(token, attempt, todo - {id}))
      ensures if thrown then Threw(trace, |old(trace)|, p) else ids <= s.receipts.Keys && AllDecided(ids - (todo - {id}))
    {
      ghost var k := |trace|;
      thrown := InterruptOne(p, token, attempt, todo, id);
      ReceiptsStay(k, ids, ids - todo);
    }

    /** Record the interruption of every running command before Docker is asked to stop. */
    method InterruptEach(p: Pid, token: nat, attempt: nat, ids: set<OpId>) returns (thrown: bool)
      requires At(p, StopCommands(token, attempt, ids)) && ids <= s.receipts.Keys
      modifies this
      ensures Grew(old(trace), trace, p) && Kept(old(past), past)
      ensures At(p, if thrown then StopRollback(token, attempt, false) else StopCommands(token, attempt, {}))
      ensures if thrown then Threw(trace, |old(trace)|, p) else AllDecided(ids)
    {
      var todo := ids;
      thrown := false;
      while todo != {}
        invariant Grew(old(trace), trace, p) && Kept(old(past), past)
        invariant At(p, StopCommands(token, attempt, todo))
        invariant !thrown && todo <= ids <= s.receipts.Keys && AllDecided(ids - todo)
      {
        var id :| id in todo;
        thrown := InterruptNext(p, token, attempt, ids, todo, id);
        if thrown { return; }
        todo := todo - {id};
      }
    }

    method InterruptCommands(p: Pid, token: nat, attempt: nat) returns (thrown: bool, ghost list: nat)
      requires At(p, StopList(token, attempt))
      modifies this
      ensures Grew(old(trace), trace, p) && Kept(old(past), past)
      ensures At(p, if thrown then StopRollback(token, attempt, false) else StopCommands(token, attempt, {}))
      ensures if thrown then Threw(trace, |old(trace)|, p)
              else Looked(trace, |old(trace)|, p, list, StopList(token, attempt)) && AllDecided(Covered(past[list]))
    {
      var todo;
      thrown, todo, list := ListRunning(p, token, attempt);
      if thrown { return; }
      ghost var k := |trace|;
      thrown := InterruptEach(p, token, attempt, todo);
      ListedStays(k, todo, Covered(past[list]), 0);
    }

    method StopContainer(p: Pid, token: nat, attempt: nat) returns (thrown: bool, ghost docker: nat)
      requires At(p, StopDocker(token, attempt))
      modifies this
      ensures Grew(old(trace), trace, p) && Kept(old(past), past)
      ensures At(p, if thrown then StopRollback(token, attempt, false) else StopConfirm(token, attempt))
      ensures Looked(trace, |old(trace)|, p, docker, StopDocker(token, attempt)) && trace[docker].e.o.ok == !thrown
    {
      Yield(p, StopDocker(token, attempt));
      docker := |trace|;
      thrown := *;
      ArriveStop(p, PLAIN.(ok := !thrown), s, StopDocker(token, attempt),
                 if thrown then StopRollback(token, attempt, false) else StopConfirm(token, attempt));
    }

    method ConfirmStop(p: Pid, token: nat, attempt: nat) returns (thrown: bool, ghost confirm: nat)
      requires At(p, StopConfirm(token, attempt))
      modifies this
      ensures Grew(old(trace), trace, p) && Kept(old(past), past)
      ensures At(p, if thrown then StopRollback(token, attempt, false) else StopRelease(token, attempt))
      ensures if thrown then Threw(trace, |old(trace)|, p)
              else AttemptEnded(trace, |old(trace)|, p, token, attempt, StopConfirm(token, attempt), true, confirm)
    {
      thrown := Throws(p, StopConfirm(token, attempt));
      confirm := |trace|;
      if !thrown { ConfirmNow(p, token, attempt); }
    }

    method ConfirmNow(p: Pid, token: nat, attempt: nat)
      requires At(p, StopConfirm(token, attempt))
      modifies this
      ensures Grew(old(trace), trace, p) && Kept(old(past), past)
      ensures At(p, StopRelease(token, attempt))
      ensures AttemptEnded(trace, |old(trace)|, p, token, attempt, StopConfirm(token, attempt), true, |old(trace)|)
    {
      var before := s;
      EndAttempt(token, attempt, true);
      ArriveStop(p, PLAIN, before, StopConfirm(token, attempt), StopRelease(token, attempt));
    }

    /** The guarded part of `stop`. */
    method StopWork(p: Pid, token: nat, attempt: nat) returns (done: bool, confirmed: bool, ghost w: Shutdown)
      requires At(p, StopList(token, attempt))
      modifies this
      ensures Grew(old(trace), trace, p)
      ensures At(p, if done then Finished(true) else StopRollback(token, attempt, confirmed))
      ensures if done then Completed(trace, |old(trace)|, p, token, attempt, w) && SweptSince(w.list)
              else Blocked(trace, |old(trace)|, p, token, attempt, w)
    {
      var thrown, list := InterruptCommands(p, token, attempt);
      done, confirmed, w := false, false, IDLE;
      if !thrown { done, confirmed, w := StopSwept(p, token, attempt, list); }
    }

    method StopSwept(p: Pid, token: nat, attempt: nat, ghost list: nat) returns (done: bool, confirmed: bool, ghost w: Shutdown)
      requires At(p, StopCommands(token, attempt, {})) && list < |trace| && AllDecided(Covered(past[list]))
      modifies this
      ensures Grew(old(trace), trace, p) && Kept(old(past), past) && w.list == list
      ensures At(p, if done then Finished(true) else StopRollback(token, attempt, confirmed))
      ensures if done then Ended(trace, list + 1, p, token, attempt, w) && SweptSince(list)
              else Blocked(trace, list + 1, p, token, attempt, w)
    {
      ghost var k := |trace|;
      ArriveStop(p, PLAIN, s, StopCommands(token, attempt, {}), StopDocker(token, attempt));
      done, confirmed, w := StopAndConfirm(p, token, attempt, list);
      ReceiptsStay(k, {}, Covered(past[list]));
    }

    method StopAndConfirm(p: Pid, token: nat, attempt: nat, ghost list: nat) returns (done: bool, confirmed: bool, ghost w: Shutdown)
      requires At(p, StopDocker(token, attempt)) && list < |trace|
      modifies this
      ensures Grew(old(trace), trace, p) && Kept(old(past), past) && w.list == list
      ensures At(p, if done then Finished(true) else StopRollback(token, attempt, confirmed))
      ensures if done then Ended(trace, list + 1, p, token, attempt, w) else Blocked(trace, list + 1, p, token, attempt, w)
    {
      var thrown, docker := StopContainer(p, token, attempt);
      ghost var confirm, release;
      done, confirmed, confirm, release := EndUnless(p, token, attempt, thrown);
      w := Shutdown(list, docker, thrown, confirm, release);
    }

    method EndUnless(p: Pid, token: nat, attempt: nat, failed: bool)
      returns (done: bool, confirmed: bool, ghost confirm: nat, ghost release: nat)
      requires At(p, if failed then StopRollback(token, attempt, false) else StopConfirm(token, attempt))
      modifies this
      ensures Grew(old(trace), trace, p) && Kept(old(past), past)
      ensures At(p, if done then Finished(true) else StopRollback(token, attempt, confirmed))
      ensures if done then !failed
                           && AttemptEnded(trace, |old(trace)|, p, token, attempt, StopConfirm(token, attempt), true, confirm)
                           && FreedIfStopped(trace, confirm + 1, p, token, StopRelease(token, attempt), release)
              else failed || Threw(trace, |old(trace)|, p)
    {
      done, confirmed, confirm, release := false, false, 0, 0;
      if !failed { done, confirmed, confirm, release := EndStop(p, token, attempt); }
    }

    method EndStop(p: Pid, token: nat, attempt: nat) returns (done: bool, confirmed: bool, ghost confirm: nat, ghost release: nat)
      requires At(p, StopConfirm(token, attempt))
      modifies this
      ensures Grew(old(trace), trace, p) && Kept(old(past), past)
      ensures At(p, if done then Finished(true) else StopRollback(token, attempt, confirmed))
      ensures if done then AttemptEnded(trace, |old(trace)|, p, token, attempt, StopConfirm(token, attempt), true, confirm)
                           && FreedIfStopped(trace, confirm + 1, p, token, StopRelease(token, attempt), release)
              else Threw(trace, |old(trace)|, p)
    {
      var thrown;
      thrown, confirm := ConfirmStop(p, token, attempt);
      done, confirmed, release := false, false, 0;
      if !thrown {
        thrown, release := ReleaseAfterStop(p, token, attempt);
        done, confirmed := !thrown, true;
      }
    }

    method ReleaseAfterStop(p: Pid, token: nat, attempt: nat) returns (thrown: bool, ghost release: nat)
      requires At(p, StopRelease(token, attempt))
      modifies this
      ensures Grew(old(trace), trace, p) && Kept(old(past), past)
      ensures At(p, if thrown then StopRollback(token, attempt, true) else Finished(true))
      ensures if thrown then Threw(trace, |old(trace)|, p)
              else FreedIfStopped(trace, |old(trace)|, p, token, StopRelease(token, attempt), release)
    {
      thrown := Throws(p, StopRelease(token, attempt));
      release := |trace|;
      if !thrown { FreeAfterStop(p, token, attempt); }
    }

    method FreeAfterStop(p: Pid, token: nat, attempt: nat)
      requires At(p, StopRelease(token, attempt))
      modifies this
      ensures Grew(old(trace), trace, p) && Kept(old(past), past)
      ensures At(p, Finished(true))
      ensures FreedIfStopped(trace, |old(trace)|, p, token, StopRelease(token, attempt), |old(trace)|)
    {
      var before := s;
      FreeStoppedLease(token);
      ArriveStop(p, PLAIN, before, StopRelease(token, attempt), Finished(true));
    }

    /** The handler of `stop`, which throws on. */
    method RollBack(p: Pid, token: nat, attempt: nat, ghost confirmed: bool) returns (ghost late: bool, ghost rollback: nat, ghost at: nat)
      requires At(p, StopRollback(token, attempt, confirmed))
      modifies this
      ensures Grew(old(trace), trace, p) && Kept(old(past), past)
      ensures At(p, Finished(false))
      ensures if late then ThrewAt(trace, |old(trace)|, p, at, StopRollback(token, attempt, confirmed))
              else AttemptEnded(trace, |old(trace)|, p, token, attempt, StopRollback(token, attempt, confirmed), false, rollback)
    {
      var thrown;
      thrown, at := Fails(p, StopRollback(token, attempt, confirmed));
      late, rollback := thrown, |trace|;
      if !thrown { RollBackNow(p, token, attempt, confirmed); }
    }

    method RollBackNow(p: Pid, token: nat, attempt: nat, ghost confirmed: bool)
      requires At(p, StopRollback(token, attempt, confirmed))
      modifies this
      ensures Grew(old(trace), trace, p) && Kept(old(past), past)
      ensures At(p, Finished(false))
      ensures AttemptEnded(trace, |old(trace)|, p, token, attempt, StopRollback(token, attempt, confirmed), false, |old(trace)|)
    {
      var before := s;
      EndAttempt(token, attempt, false);
      ArriveStop(p, PLAIN, before, StopRollback(token, attempt, confirmed), Finished(false));
    }

    // ---------------------------------------------------------------- commands

    /** A sweep lists after the first `listed` events.  On return what was decided then, and whatever else the
        listing answered with, is decided: so is everything there was at the start, if by now there are no more
        receipts than a listing answers with.  A lease, read after the start, that was still to expire is the
        one exception. */
    method Commands(p: Pid) returns (done: bool, ghost live: Option<Lease>, ghost listed: nat)
      requires At(p, SweepList)
      modifies this
      ensures Grew(old(trace), trace, p) && Kept(old(past), past)
      ensures At(p, Finished(done))
      ensures done && live.None? ==> |old(trace)| <= listed <= |trace| && SweptSince(listed)
      ensures done && live.None? && |s.receipts| <= Paging.LIST_LIMIT ==> AllDecided(old(s).receipts.Keys)
      ensures live.Some? ==> LeaseSeen(|old(trace)|, live.value) && live.value.expiresAt > old(s).now
      ensures !done ==> Threw(trace, |old(trace)|, p)
    {
      var thrown, todo;
      thrown, todo, listed := ListRunningReceipts(p);
      if thrown { return false, None, listed; }
      ClockGoesOn(|old(trace)|);
      done, live := ReadAndSweep(p, todo, Covered(past[listed]), |old(trace)|, old(s).now);
      if done && live.None? {
        if |s.receipts| <= Paging.LIST_LIMIT { AllWereCovered(|old(trace)|, listed); }
      }
    }

    /** What a sweep that lists now will leave decided: what is, and what the listing answers with. */
    ghost function Covered(t: State): set<OpId> {
      set id | id in t.receipts && (t.receipts[id] != Running || id in Paging.Newest(t.stamps))
    }

    /** Everything that a listing after the first `k` events covers is decided. */
    ghost predicate SweptSince(k: nat) reads this { k < |past| && AllDecided(Covered(past[k])) }

    /** With no more receipts than a listing answers with, the listing answered with all of them. */
    lemma AllWereCovered(start: nat, k: nat)
      requires Valid() && start <= k <= |trace| && SweptSince(k) && |s.receipts| <= Paging.LIST_LIMIT
      ensures AllDecided(past[start].receipts.Keys)
    {
      KeysStay(start, k);
      KeysStay(k, |trace|);
      RunsOn(k);
      StampsOfRuns(Events(trace)[..k]);
      CardinalityOfSubset(past[k].receipts.Keys, s.receipts.Keys);
      FewRowsAreAllNewest(past[k].stamps);
    }

    /** The run up to one of its states, and from there on. */
    lemma RunsOn(k: nat)
      requires Valid() && k <= |trace|
      ensures var es := Events(trace);
              && Exec(Next, START, es[..k]) == Some(past[k]) && Exec(Next, past[k], es[k..]) == Some(s)
              && Exec(Next, START, es) == Some(s)
    {
      var es := Events(trace);
      PastIsReached(past, trace, k);
      PastIsReached(past, trace, |trace|);
      assert es[..|trace|] == es == es[..k] + es[k..];
      ExecAppend(Next, START, es[..k], es[k..]);
    }

    lemma {:induction false} PastIsReached(states: seq<State>, steps: seq<Step>, k: nat)
      requires Remembers(states, steps) && k <= |steps|
      ensures Exec(Next, START, Events(steps)[..k]) == Some(states[k])
    {
      var es := Events(steps);
      if k > 0 {
        PastIsReached(states, steps, k - 1);
        assert es[..k] == es[..k - 1] + [es[k - 1]];
        ExecSnoc(Next, START, es[..k - 1], es[k - 1]);
        assert Next(states[k - 1], steps[k - 1].e) == Some(states[k - 1 + 1]);
      }
    }

    lemma KeysStay(k: nat, l: nat)
      requires Valid() && k <= l <= |trace|
      ensures past[k].receipts.Keys <= past[l].receipts.Keys
    {
      var es := Events(trace);
      PastIsReached(past, trace, k);
      PastIsReached(past, trace, l);
      assert es[..l] == es[..k] + es[k..l];
      ExecAppend(Next, START, es[..k], es[k..l]);
      SavedReceiptStays(es[..k], past[k], es[k..l], past[k].receipts.Keys);
    }

    /** Of the receipts in `all`, only those in `todo` may still be running. */
    ghost predicate Listed(todo: set<OpId>, all: set<OpId>, started: nat) reads this {
      todo + all <= s.receipts.Keys && AllDecided(all - todo) && started <= s.now
    }

    lemma ListedStays(k: nat, todo: set<OpId>, all: set<OpId>, started: nat)
      requires Valid() && k <= |trace| && todo + all <= past[k].receipts.Keys && started <= past[k].now
      requires forall id :: id in all - todo ==> id in past[k].receipts && !past[k].receipts[id].Running?
      ensures Listed(todo, all, started)
    {
      ReceiptsStay(k, todo + all, all - todo);
      ClockGoesOn(k);
    }

    method ListRunningReceipts(p: Pid) returns (thrown: bool, todo: set<OpId>, ghost listed: nat)
      requires At(p, SweepList)
      modifies this
      ensures Grew(old(trace), trace, p) && Kept(old(past), past)
      ensures thrown ==> At(p, Finished(false)) && Threw(trace, |old(trace)|, p)
      ensures !thrown ==> At(p, SweepGet(todo)) && |old(trace)| <= listed < |trace| && Listed(todo, Covered(past[listed]), 0)
    {
      thrown := Throws(p, SweepList);
      todo, listed := {}, |trace|;
      if !thrown { todo := ListNow(p); }
    }

    method ListNow(p: Pid) returns (todo: set<OpId>)
      requires At(p, SweepList)
      modifies this
      ensures Grew(old(trace), trace, p) && Kept(old(past), past)
      ensures At(p, SweepGet(todo)) && |old(trace)| < |trace| && Listed(todo, Covered(old(s)), 0)
    {
      todo := Unfinished(s);
      ArriveSweep(p, PLAIN, s, SweepList, SweepGet(todo));
    }

    ghost predicate AllDecided(ids: set<OpId>) reads this {
      forall id :: id in ids ==> id in s.receipts && !s.receipts[id].Running?
    }

    /** The record was this lease at some moment of the run after `since`. */
    ghost predicate LeaseSeen(since: nat, l: Lease) reads this { exists k :: since <= k < |trace| && trace[k].lease == Some(l) }

    lemma ClockGoesOn(k: nat)
      requires Valid() && k <= |trace|
      ensures past[k].now <= s.now
    {
      RunsOn(k);
      var was := past[k];
      InvariantOfRuns(Next, (u: State) => was.now <= u.now, was, Events(trace)[k..]);
    }

    method ReadAndSweep(p: Pid, todo: set<OpId>, ghost all: set<OpId>, ghost since: nat, ghost started: nat)
      returns (done: bool, ghost live: Option<Lease>)
      requires At(p, SweepGet(todo)) && Listed(todo, all, started) && since <= |trace|
      modifies this
      ensures Grew(old(trace), trace, p) && Kept(old(past), past)
      ensures At(p, Finished(done))
      ensures done && live.None? ==> AllDecided(all)
      ensures live.Some? ==> LeaseSeen(since, live.value) && live.value.expiresAt > started
      ensures !done ==> Threw(trace, |old(trace)|, p)
    {
      var thrown, lease, k := ReadLease(p, todo, all, started);
      if thrown { return false, None; }
      done, live := Sweep(p, todo, lease, all, started);
    }

    method ReadLease(p: Pid, todo: set<OpId>, ghost all: set<OpId>, ghost started: nat)
      returns (thrown: bool, lease: Option<Lease>, ghost k: nat)
      requires At(p, SweepGet(todo)) && Listed(todo, all, started)
      modifies this
      ensures Grew(old(trace), trace, p) && Kept(old(past), past)
      ensures if thrown then At(p, Finished(false)) else At(p, SweepCheck(todo, lease)) && Listed(todo, all, started)
      ensures if thrown then Threw(trace, |old(trace)|, p)
              else |old(trace)| <= k < |trace| && trace[k].lease == lease
    {
      ghost var was := |trace|;
      lease := None;
      thrown := Throws(p, SweepGet(todo));
      k := |trace|;
      if !thrown {
        ListedStays(was, todo, all, started);
        lease := NoteLease(p, todo);
      }
    }

    method NoteLease(p: Pid, todo: set<OpId>) returns (lease: Option<Lease>)
      requires At(p, SweepGet(todo))
      modifies this
      ensures Grew(old(trace), trace, p) && Kept(old(past), past) && SameRecords(s, old(s))
      ensures At(p, SweepCheck(todo, lease)) && |old(trace)| < |trace| && trace[|old(trace)|].lease == lease
    {
      lease := s.lease;
      ArriveSweep(p, PLAIN, s, SweepGet(todo), SweepCheck(todo, lease));
    }

    method Sweep(p: Pid, todo: set<OpId>, lease: Option<Lease>, ghost all: set<OpId>, ghost started: nat)
      returns (done: bool, ghost live: Option<Lease>)
      requires At(p, SweepCheck(todo, lease)) && Listed(todo, all, started)
      modifies this
      ensures Grew(old(trace), trace, p) && Kept(old(past), past)
      ensures At(p, Finished(done))
      ensures done && live.None? ==> AllDecided(all)
      ensures live.Some? ==> live == lease && live.value.expiresAt > started
      ensures !done ==> Threw(trace, |old(trace)|, p)
    {
      var lapsed;
      lapsed := CheckLapsed(p, todo, lease, all, started);
      done, live := true, lease;
      if lapsed {
        done := InterruptAll(p, todo, all);
        live := None;
      }
    }

    method CheckLapsed(p: Pid, todo: set<OpId>, lease: Option<Lease>, ghost all: set<OpId>, ghost started: nat) returns (lapsed: bool)
      requires At(p, SweepCheck(todo, lease)) && Listed(todo, all, started)
      modifies this
      ensures Grew(old(trace), trace, p) && Kept(old(past), past)
      ensures At(p, if lapsed then SweepCommands(todo) else Finished(true)) && Listed(todo, all, started)
      ensures !lapsed ==> lease.Some? && lease.value.expiresAt > started
    {
      ghost var k := |trace|;
      Yield(p, SweepCheck(todo, lease));
      ListedStays(k, todo, all, started);
      lapsed := lease.None? || lease.value.expiresAt <= s.now;
      ArriveSweep(p, PLAIN, s, SweepCheck(todo, lease), if lapsed then SweepCommands(todo) else Finished(true));
    }

    method InterruptAll(p: Pid, todo: set<OpId>, ghost all: set<OpId>) returns (done: bool)
      requires At(p, SweepCommands(todo)) && Listed(todo, all, 0)
      modifies this
      ensures Grew(old(trace), trace, p) && Kept(old(past), past)
      ensures At(p, Finished(done))
      ensures if done then AllDecided(all) else Threw(trace, |old(trace)|, p)
    {
      ghost var k := |trace|;
      done := SweepAll(p, todo);
      ListedStays(k, todo, all, 0);
    }

    /** What was saved stays saved, and what was decided stays decided. */
    lemma ReceiptsStay(k: nat, saved: set<OpId>, decided: set<OpId>)
      requires Valid() && k <= |trace| && saved <= past[k].receipts.Keys
      requires forall id :: id in decided ==> id in past[k].receipts && !past[k].receipts[id].Running?
      ensures saved <= s.receipts.Keys && AllDecided(decided)
    {
      RunsOn(k);
      SavedReceiptStays(Events(trace)[..k], past[k], Events(trace)[k..], saved);
      forall id | id in decided ensures id in s.receipts && !s.receipts[id].Running? {
        DecidedReceiptIsFinal(Events(trace)[..k], past[k], Events(trace)[k..], id);
      }
    }

    method SweepOne(p: Pid, todo: set<OpId>, id: OpId) returns (thrown: bool)
      requires At(p, SweepCommands(todo)) && id in todo
      modifies this
      ensures Grew(old(trace), trace, p) && Kept(old(past), past)
      ensures At(p, if thrown then Finished(false) else SweepCommands(todo - {id}))
      ensures if thrown then Threw(trace, |old(trace)|, p) else id in s.receipts ==> !s.receipts[id].Running?
    {
      thrown := Throws(p, SweepCommands(todo));
      if !thrown { SweepOneNow(p, todo, id); }
    }

    method SweepOneNow(p: Pid, todo: set<OpId>, id: OpId)
      requires At(p, SweepCommands(todo)) && id in todo
      modifies this
      ensures Grew(old(trace), trace, p) && Kept(old(past), past)
      ensures At(p, SweepCommands(todo - {id})) && (id in s.receipts ==> !s.receipts[id].Running?)
    {
      var before := s;
      var hit := SwapReceipt(id, Running, Interrupted);
      ArriveSweep(p, PLAIN.(id := id), before, SweepCommands(todo), SweepCommands(todo - {id}));
    }

    method SweepNext(p: Pid, ghost ids: set<OpId>, todo: set<OpId>, id: OpId) returns (thrown: bool)
      requires At(p, SweepCommands(todo)) && id in todo && todo <= ids <= s.receipts.Keys && AllDecided(ids - todo)
      modifies this
      ensures Grew(old(trace), trace, p) && Kept(old(past), past)
      ensures At(p, if thrown then Finished(false) else SweepCommands(todo - {id}))
      ensures if thrown then Threw(trace, |old(trace)|, p) else ids <= s.receipts.Keys && AllDecided(ids - (todo - {id}))
    {
      ghost var k := |trace|;
      thrown := SweepOne(p, todo, id);
      ReceiptsStay(k, ids, ids - todo);
    }

    method SweepAll(p: Pid, ids: set<OpId>) returns (done: bool)
      requires At(p, SweepCommands(ids)) && ids <= s.receipts.Keys
      modifies this
      ensures Grew(old(trace), trace, p) && Kept(old(past), past)
      ensures At(p, Finished(done))
      ensures if done then AllDecided(ids) else Threw(trace, |old(trace)|, p)
    {
      var todo := ids;
      while todo != {}
        invariant Grew(old(trace), trace, p) && Kept(old(past), past)
        invariant At(p, SweepCommands(todo))
        invariant todo <= ids <= s.receipts.Keys && AllDecided(ids - todo)
      {
        var id :| id in todo;
        var thrown := SweepNext(p, ids, todo, id);
        if thrown { return false; }
        todo := todo - {id};
      }
      ArriveSweep(p, PLAIN, s, SweepCommands(todo), Finished(true));
      done := true;
    }

    // ---------------------------------------------------------------- execute

    /** A command under its operation id.  A normal return leaves the receipt it saved decided, for good: as
        interrupted where a Stop, a sweep or a refusal interrupted it, and else by what Docker answered. */
    method Execute(p: Pid, id: OpId) returns (done: bool, ghost v: Course)
      requires At(p, LookUp(id))
      modifies this
      ensures Grew(old(trace), trace, p)
      ensures At(p, Finished(done))
      ensures done && id in s.inserter && s.inserter[id] == p ==>
                && id in s.receipts && !s.receipts[id].Running?
                && (id in s.interrupted ==> s.receipts[id].Interrupted?)
                && (id !in s.interrupted ==>
                      id in s.results &&
                      var r := s.results[id];
                      && (s.receipts[id].Interrupted? <==> r.interrupted)
                      && (s.receipts[id].TimedOut? <==> !r.interrupted && (r.timedOut || r.exitCode == Some(124)))
                      && (s.receipts[id].Succeeded? <==> !r.interrupted && !r.timedOut && r.exitCode == Some(0))
                      && (s.receipts[id].Failed? <==> !r.interrupted && !r.timedOut && r.exitCode != Some(0) && r.exitCode != Some(124)))
      ensures multiset(s.execs)[id] <= 1
      ensures Executed(trace, |old(trace)|, p, id, v, done)
    {
      done, v := ExecuteOnce(p, id);
      WhatIsOnRecord(p, id, done);
    }

    lemma WhatIsOnRecord(p: Pid, id: OpId, done: bool)
      requires At(p, Finished(done))
      ensures done && id in s.inserter && s.inserter[id] == p ==>
                && id in s.receipts && !s.receipts[id].Running?
                && (id in s.interrupted ==> s.receipts[id].Interrupted?)
                && (id !in s.interrupted ==>
                      id in s.results &&
                      var r := s.results[id];
                      && (s.receipts[id].Interrupted? <==> r.interrupted)
                      && (s.receipts[id].TimedOut? <==> !r.interrupted && (r.timedOut || r.exitCode == Some(124)))
                      && (s.receipts[id].Succeeded? <==> !r.interrupted && !r.timedOut && r.exitCode == Some(0))
                      && (s.receipts[id].Failed? <==> !r.interrupted && !r.timedOut && r.exitCode != Some(0) && r.exitCode != Some(124)))
      ensures multiset(s.execs)[id] <= 1
    {
      RunsOn(|trace|);
      ExecAtMostOncePerOperation(Events(trace), s, id);
      if done && id in s.inserter && s.inserter[id] == p {
        ReturnedReceiptIsDecided(Events(trace), s, id);
        ReceiptsTellTheResult(Events(trace), s, id);
      }
    }

    method ExecuteOnce(p: Pid, id: OpId) returns (done: bool, ghost v: Course)
      requires At(p, LookUp(id))
      modifies this
      ensures Grew(old(trace), trace, p)
      ensures At(p, Finished(done))
      ensures Executed(trace, |old(trace)|, p, id, v, done)
    {
      var thrown, known, look := Find(p, id);
      done, v := false, Course(look, thrown, Claim(0, 0, 0, false, 0), 0, None, NO_RUN, 0, false, Parting(0, 0, 0, false, 0));
      if !thrown {
        done, v := LookAgainOrExecute(p, id, known, v);
      }
    }

    method LookAgainOrExecute(p: Pid, id: OpId, known: bool, ghost v0: Course) returns (done: bool, ghost v: Course)
      requires At(p, if known then SweepList else AcquireGet(Command(id))) && v0.look + 1 == |trace|
      modifies this
      ensures Grew(old(trace), trace, p)
      ensures At(p, Finished(done)) && v.look == v0.look && v.early == v0.early
      ensures if known then (!done ==> Threw(trace, |old(trace)|, p)) else Exclusive(trace, v0.look + 1, p, id, v, done)
    {
      v := v0;
      if known { done := LookAgain(p); } else { done, v := ExecuteExclusively(p, id, v0.look + 1, v0); }
    }

    /** The receipts are swept, whatever that comes to. */
    method LookAgain(p: Pid) returns (done: bool)
      requires At(p, SweepList)
      modifies this
      ensures Grew(old(trace), trace, p)
      ensures At(p, Finished(done)) && (!done ==> Threw(trace, |old(trace)|, p))
    {
      ghost var live, listed;
      done, live, listed := Commands(p);
    }

    /** A known operation is only looked at again. */
    method Find(p: Pid, id: OpId) returns (thrown: bool, known: bool, ghost look: nat)
      requires At(p, LookUp(id))
      modifies this
      ensures Grew(old(trace), trace, p)
      ensures At(p, if thrown then Finished(false) else if known then SweepList else AcquireGet(Command(id)))
      ensures if thrown then ThrewAt(trace, |old(trace)|, p, look, LookUp(id))
              else Looked(trace, |old(trace)|, p, look, LookUp(id)) && known == trace[look].receipt.Some? && look == |trace| - 1
    {
      known := false;
      thrown, look := Fails(p, LookUp(id));
      if thrown { return; }
      known, look := id in s.receipts, |trace|;
      ArriveExecute(p, PLAIN, s, LookUp(id), if known then SweepList else AcquireGet(Command(id)));
    }

    /** `exclusive`, for a command. */
    method ExecuteExclusively(p: Pid, id: OpId, ghost since: nat, ghost v0: Course) returns (done: bool, ghost v: Course)
      requires At(p, AcquireGet(Command(id))) && since == |trace|
      modifies this
      ensures Grew(old(trace), trace, p)
      ensures At(p, Finished(done)) && v.look == v0.look && v.early == v0.early
      ensures Exclusive(trace, since, p, id, v, done)
    {
      var lease, claim := AcquireForCommand(p, id);
      ghost var t := trace;
      ghost var run, ran, ok, leave;
      done, run, ran, ok, leave := RunIfAcquired(p, id, lease);
      v := v0.(claim := claim, got := |t|, lease := lease, run := run, ran := ran, ok := ok, leave := leave);
      assert trace[..|t|] == t;
    }

    method AcquireForCommand(p: Pid, id: OpId) returns (lease: Option<Lease>, ghost claim: Claim)
      requires At(p, AcquireGet(Command(id)))
      modifies this
      ensures Grew(old(trace), trace, p)
      ensures At(p, if lease.Some? then Prepare(lease.value.token, id) else Finished(false))
      ensures Acquired(trace, |old(trace)|, p, Command(id), claim, lease)
    {
      lease, claim := Acquire(p, Command(id));
    }

    method RunIfAcquired(p: Pid, id: OpId, lease: Option<Lease>)
      returns (done: bool, ghost v: CommandRun, ghost ran: nat, ghost ok: bool, ghost leave: Parting)
      requires At(p, if lease.Some? then Prepare(lease.value.token, id) else Finished(false))
      modifies this
      ensures Grew(old(trace), trace, p)
      ensures At(p, Finished(done))
      ensures if lease.None? then !done else RanAndParted(trace, |old(trace)|, p, lease.value.token, id, v, ran, ok, leave, done)
    {
      done, v, ran, ok, leave := false, NO_RUN, 0, false, Parting(0, 0, 0, false, 0);
      if lease.Some? { done, v, ran, ok, leave := WorkAndLeave(p, lease.value.token, id); }
    }

    method WorkAndLeave(p: Pid, token: nat, id: OpId)
      returns (done: bool, ghost v: CommandRun, ghost ran: nat, ghost ok: bool, ghost leave: Parting)
      requires At(p, Prepare(token, id))
      modifies this
      ensures Grew(old(trace), trace, p)
      ensures At(p, Finished(done))
      ensures RanAndParted(trace, |old(trace)|, p, token, id, v, ran, ok, leave, done)
    {
      var worked;
      worked, v := Work(p, token, id);
      ghost var t := trace;
      ran, ok := |t|, worked;
      done, leave := Leave(p, token, true, worked);
      assert trace[..ran] == t;
    }

    /** The operation that `execute` hands to `exclusive`. */
    method Work(p: Pid, token: nat, id: OpId) returns (ok: bool, ghost v: CommandRun)
      requires At(p, Prepare(token, id))
      modifies this
      ensures Grew(old(trace), trace, p)
      ensures At(p, MarkDone(token, ok))
      ensures Worked(trace, |old(trace)|, p, token, id, v, ok)
    {
      var thrown, prepare := CheckContainer(p, token, id);
      ok, v := false, NO_RUN.(prepare := prepare, failed := thrown);
      if !thrown { ok, v := InsertAndRun(p, token, id, v); }
    }

    /** The container has to run. */
    method CheckContainer(p: Pid, token: nat, id: OpId) returns (thrown: bool, ghost prepare: nat)
      requires At(p, Prepare(token, id))
      modifies this
      ensures Grew(old(trace), trace, p)
      ensures At(p, if thrown then MarkDone(token, false) else Insert(token, id))
      ensures if thrown then Threw(trace, |old(trace)|, p) else Looked(trace, |old(trace)|, p, prepare, Prepare(token, id))
    {
      thrown := Throws(p, Prepare(token, id));
      prepare := |trace|;
      if !thrown { ArriveExecute(p, PLAIN, s, Prepare(token, id), Insert(token, id)); }
    }

    method InsertAndRun(p: Pid, token: nat, id: OpId, ghost v0: CommandRun) returns (ok: bool, ghost v: CommandRun)
      requires At(p, Insert(token, id)) && v0.prepare < |trace|
      modifies this
      ensures Grew(old(trace), trace, p)
      ensures At(p, MarkDone(token, ok)) && v.prepare == v0.prepare
      ensures if v.failed then !ok && Threw(trace, |old(trace)|, p) else ok && Inserted(trace, v0.prepare + 1, p, token, id, v)
    {
      var thrown, inserted, insert := InsertReceipt(p, token, id);
      ok, v := !thrown, v0.(insert := insert, failed := thrown);
      if inserted { ok, v := CheckAndRun(p, token, id, v); }
    }

    /** A receipt that is there already is left alone, and the command not run. */
    method InsertReceipt(p: Pid, token: nat, id: OpId) returns (thrown: bool, inserted: bool, ghost insert: nat)
      requires At(p, Insert(token, id))
      modifies this
      ensures Grew(old(trace), trace, p)
      ensures At(p, if inserted then ReadActive(token, id) else MarkDone(token, !thrown))
      ensures if thrown then !inserted && Threw(trace, |old(trace)|, p)
              else && Looked(trace, |old(trace)|, p, insert, Insert(token, id)) && (inserted <==> trace[insert].receipt.None?)
                   && trace[insert].receiptAfter == if inserted then Some(Running) else trace[insert].receipt
    {
      inserted := false;
      thrown := Throws(p, Insert(token, id));
      insert := |trace|;
      if !thrown { inserted := InsertNow(p, token, id); }
    }

    method InsertNow(p: Pid, token: nat, id: OpId) returns (inserted: bool)
      requires At(p, Insert(token, id))
      modifies this
      ensures Grew(old(trace), trace, p)
      ensures At(p, if inserted then ReadActive(token, id) else MarkDone(token, true))
      ensures var k := |old(trace)|;
              && Looked(trace, k, p, k, Insert(token, id)) && (inserted <==> trace[k].receipt.None?)
              && trace[k].receiptAfter == if inserted then Some(Running) else trace[k].receipt
    {
      var before := s;
      inserted := id !in s.receipts;
      if inserted { PutReceipt(id, Running); }
      ArriveExecute(p, PLAIN, before, Insert(token, id), if inserted then ReadActive(token, id) else MarkDone(token, true));
    }

    /** The lease is read again: a Stop since then, or the time, forbids the command. */
    method CheckAndRun(p: Pid, token: nat, id: OpId, ghost v0: CommandRun) returns (ok: bool, ghost v: CommandRun)
      requires At(p, ReadActive(token, id)) && v0.insert < |trace|
      modifies this
      ensures Grew(old(trace), trace, p)
      ensures At(p, MarkDone(token, ok)) && v.prepare == v0.prepare && v.insert == v0.insert
      ensures if v.failed then !ok && Threw(trace, |old(trace)|, p) else ok && Checked(trace, v0.insert + 1, p, token, id, v)
    {
      var thrown, active, read := ReadActiveLease(p, token, id);
      ok, v := false, v0.(read := read, failed := thrown);
      if !thrown { ok, v := RunIfActive(p, token, id, active, v); }
    }

    method ReadActiveLease(p: Pid, token: nat, id: OpId) returns (thrown: bool, active: Option<Lease>, ghost read: nat)
      requires At(p, ReadActive(token, id))
      modifies this
      ensures Grew(old(trace), trace, p)
      ensures At(p, if thrown then MarkDone(token, false) else CheckActive(token, id, active))
      ensures if thrown then Threw(trace, |old(trace)|, p)
              else Looked(trace, |old(trace)|, p, read, ReadActive(token, id)) && active == trace[read].lease
    {
      active := None;
      thrown := Throws(p, ReadActive(token, id));
      read := |trace|;
      if thrown { return; }
      active := s.lease;
      ArriveExecute(p, PLAIN, s, ReadActive(token, id), CheckActive(token, id, active));
    }

    method RunIfActive(p: Pid, token: nat, id: OpId, active: Option<Lease>, ghost v0: CommandRun) returns (ok: bool, ghost v: CommandRun)
      requires At(p, CheckActive(token, id, active)) && v0.read < |trace|
      modifies this
      ensures Grew(old(trace), trace, p)
      ensures At(p, MarkDone(token, ok)) && v.prepare == v0.prepare && v.insert == v0.insert && v.read == v0.read
      ensures if v.failed then !ok && Threw(trace, |old(trace)|, p) else ok && Obeyed(trace, p, token, id, active, v)
    {
      var refused, check := CheckStillActive(p, token, id, active);
      v := v0.(check := check);
      ok, v := RefuseOrRun(p, token, id, refused, v);
    }

    method CheckStillActive(p: Pid, token: nat, id: OpId, active: Option<Lease>) returns (refused: bool, ghost check: nat)
      requires At(p, CheckActive(token, id, active))
      modifies this
      ensures Grew(old(trace), trace, p)
      ensures At(p, if refused then Refuse(token, id) else DockerExec(token, id))
      ensures Looked(trace, |old(trace)|, p, check, CheckActive(token, id, active)) && check < |trace|
      ensures refused <==> || active.None? || active.value.token != token || active.value.stopping
                           || active.value.expiresAt <= trace[check].now
    {
      Yield(p, CheckActive(token, id, active));
      check := |trace|;
      refused := active.None? || active.value.token != token || active.value.stopping || active.value.expiresAt <= s.now;
      ArriveExecute(p, PLAIN, s, CheckActive(token, id, active), if refused then Refuse(token, id) else DockerExec(token, id));
    }

    method RefuseOrRun(p: Pid, token: nat, id: OpId, refused: bool, ghost v0: CommandRun) returns (ok: bool, ghost v: CommandRun)
      requires At(p, if refused then Refuse(token, id) else DockerExec(token, id)) && v0.check < |trace|
      modifies this
      ensures Grew(old(trace), trace, p)
      ensures At(p, MarkDone(token, ok)) && v.prepare == v0.prepare && v.insert == v0.insert && v.read == v0.read && v.check == v0.check
      ensures if v.failed then !ok && Threw(trace, |old(trace)|, p)
              else if refused then ok && Refused(trace, v0.check + 1, p, token, id, v.refuse)
              else ok && RanInDocker(trace, v0.check + 1, p, token, id, v)
    {
      if refused {
        var thrown, refuse := RefuseCommand(p, token, id);
        ok, v := !thrown, v0.(refuse := refuse, failed := thrown);
      } else {
        ok, v := RunCommand(p, token, id, v0);
      }
    }

    method RefuseCommand(p: Pid, token: nat, id: OpId) returns (thrown: bool, ghost refuse: nat)
      requires At(p, Refuse(token, id))
      modifies this
      ensures Grew(old(trace), trace, p)
      ensures At(p, MarkDone(token, !thrown))
      ensures if thrown then Threw(trace, |old(trace)|, p) else Refused(trace, |old(trace)|, p, token, id, refuse)
    {
      thrown := Throws(p, Refuse(token, id));
      refuse := |trace|;
      if !thrown { RefuseNow(p, token, id); }
    }

    method RefuseNow(p: Pid, token: nat, id: OpId)
      requires At(p, Refuse(token, id))
      modifies this
      ensures Grew(old(trace), trace, p)
      ensures At(p, MarkDone(token, true))
      ensures Refused(trace, |old(trace)|, p, token, id, |old(trace)|)
    {
      var before := s;
      PutReceipt(id, Interrupted);
      ArriveExecute(p, PLAIN, before, Refuse(token, id), MarkDone(token, true));
    }

    method RunCommand(p: Pid, token: nat, id: OpId, ghost v0: CommandRun) returns (ok: bool, ghost v: CommandRun)
      requires At(p, DockerExec(token, id)) && v0.check < |trace|
      modifies this
      ensures Grew(old(trace), trace, p)
      ensures At(p, MarkDone(token, ok)) && v.prepare == v0.prepare && v.insert == v0.insert && v.read == v0.read && v.check == v0.check
      ensures if v.failed then !ok && Threw(trace, |old(trace)|, p) else ok && RanInDocker(trace, v0.check + 1, p, token, id, v)
    {
      var result, exec := RunInDocker(p, token, id);
      v := v0.(exec := exec);
      ok, v := CleanAndSave(p, token, id, result, v);
    }

    method RunInDocker(p: Pid, token: nat, id: OpId) returns (result: DockerResult, ghost exec: nat)
      requires At(p, DockerExec(token, id))
      modifies this
      ensures Grew(old(trace), trace, p)
      ensures At(p, if result.timedOut || result.interrupted then Cleanup(token, id, result) else Save(token, id, result))
      ensures Looked(trace, |old(trace)|, p, exec, DockerExec(token, id)) && trace[exec].e.o.result == result && exec < |trace|
    {
      Yield(p, DockerExec(token, id));
      exec := |trace|;
      result := *;
      ArriveExecute(p, PLAIN.(result := result), s, DockerExec(token, id),
                    if result.timedOut || result.interrupted then Cleanup(token, id, result) else Save(token, id, result));
    }

    method CleanAndSave(p: Pid, token: nat, id: OpId, result: DockerResult, ghost v0: CommandRun) returns (ok: bool, ghost v: CommandRun)
      requires At(p, if result.timedOut || result.interrupted then Cleanup(token, id, result) else Save(token, id, result))
      requires v0.exec < |trace|
      modifies this
      ensures Grew(old(trace), trace, p)
      ensures At(p, MarkDone(token, ok))
      ensures v.prepare == v0.prepare && v.insert == v0.insert && v.read == v0.read && v.check == v0.check && v.exec == v0.exec
      ensures if v.failed then !ok && Threw(trace, |old(trace)|, p)
              else && ok && (result.timedOut || result.interrupted ==> Cleaned(trace, v0.exec + 1, p, token, id, result, v.cleaning))
                   && StatusSaved(trace, v0.exec + 1, p, token, id, result, v.save, v.keep)
    {
      var thrown, cleaning := CleanIfLost(p, token, id, result);
      ghost var save, keep;
      ok, save, keep := SaveUnless(p, token, id, result, thrown);
      v := v0.(cleaning := cleaning, save := save, keep := keep, failed := !ok);
    }

    method SaveUnless(p: Pid, token: nat, id: OpId, result: DockerResult, failed: bool)
      returns (ok: bool, ghost save: nat, ghost keep: nat)
      requires At(p, if failed then MarkDone(token, false) else Save(token, id, result))
      modifies this
      ensures Grew(old(trace), trace, p)
      ensures At(p, MarkDone(token, ok)) && (ok ==> !failed)
      ensures if ok then StatusSaved(trace, |old(trace)|, p, token, id, result, save, keep) else failed || Threw(trace, |old(trace)|, p)
    {
      ok, save, keep := false, 0, 0;
      if !failed {
        var thrown;
        thrown, save, keep := SaveResult(p, token, id, result);
        ok := !thrown;
      }
    }

    method CleanIfLost(p: Pid, token: nat, id: OpId, result: DockerResult) returns (thrown: bool, ghost c: Cleaning)
      requires At(p, if result.timedOut || result.interrupted then Cleanup(token, id, result) else Save(token, id, result))
      modifies this
      ensures Grew(old(trace), trace, p)
      ensures At(p, if thrown then MarkDone(token, false) else Save(token, id, result))
      ensures if thrown then Threw(trace, |old(trace)|, p)
              else result.timedOut || result.interrupted ==> Cleaned(trace, |old(trace)|, p, token, id, result, c)
    {
      thrown, c := false, Cleaning(0, 0, false, 0);
      if result.timedOut || result.interrupted { thrown, c := StopSandbox(p, token, id, result); }
    }

    /** A lost client cannot cancel its command, so the whole sandbox is stopped. */
    method StopSandbox(p: Pid, token: nat, id: OpId, result: DockerResult) returns (thrown: bool, ghost c: Cleaning)
      requires At(p, Cleanup(token, id, result))
      modifies this
      ensures Grew(old(trace), trace, p)
      ensures At(p, if thrown then MarkDone(token, false) else Save(token, id, result))
      ensures if thrown then Threw(trace, |old(trace)|, p) else Cleaned(trace, |old(trace)|, p, token, id, result, c)
    {
      var cleanup, attempt;
      ghost var mark;
      thrown, cleanup, attempt, mark := MarkCleanup(p, token, id, result);
      c := Cleaning(mark, 0, false, 0);
      if !thrown && cleanup { thrown, c := EndCleanup(p, token, id, result, attempt, c); }
    }

    /** Puts a cleanup stop on the lease, unless one was asked for already. */
    method MarkCleanup(p: Pid, token: nat, id: OpId, result: DockerResult)
      returns (thrown: bool, cleanup: bool, attempt: nat, ghost mark: nat)
      requires At(p, Cleanup(token, id, result))
      modifies this
      ensures Grew(old(trace), trace, p)
      ensures At(p, if thrown then MarkDone(token, false)
                    else if cleanup then CleanupDocker(token, id, result, attempt) else Save(token, id, result))
      ensures if thrown then Threw(trace, |old(trace)|, p)
              else && CleanupMarked(trace, |old(trace)|, p, token, id, result, mark, cleanup) && attempt == trace[mark].nextId
                   && (cleanup <==> HoldsIn(trace[mark].lease, token) && !trace[mark].lease.value.stopping)
    {
      cleanup, attempt := false, 0;
      thrown := Throws(p, Cleanup(token, id, result));
      mark := |trace|;
      if !thrown { cleanup, attempt := SwapCleanup(p, token, id, result); }
    }

    method SwapCleanup(p: Pid, token: nat, id: OpId, result: DockerResult) returns (cleanup: bool, attempt: nat)
      requires At(p, Cleanup(token, id, result))
      modifies this
      ensures Grew(old(trace), trace, p)
      ensures At(p, if cleanup then CleanupDocker(token, id, result, attempt) else Save(token, id, result))
      ensures var mark := |old(trace)|;
              && CleanupMarked(trace, mark, p, token, id, result, mark, cleanup) && attempt == trace[mark].nextId
              && (cleanup <==> HoldsIn(trace[mark].lease, token) && !trace[mark].lease.value.stopping)
    {
      var before := s;
      var stamp;
      cleanup, attempt, stamp := AttemptCleanup(token);
      ArriveCleanup(p, PLAIN.(stamp := stamp), before, Cleanup(token, id, result),
                    if cleanup then CleanupDocker(token, id, result, attempt) else Save(token, id, result));
    }

    method EndCleanup(p: Pid, token: nat, id: OpId, result: DockerResult, attempt: nat, ghost c0: Cleaning)
      returns (thrown: bool, ghost c: Cleaning)
      requires At(p, CleanupDocker(token, id, result, attempt)) && c0.mark < |trace|
      modifies this
      ensures Grew(old(trace), trace, p)
      ensures At(p, if thrown then MarkDone(token, false) else Save(token, id, result)) && c.mark == c0.mark
      ensures if thrown then Threw(trace, |old(trace)|, p) else CleanupEnded(trace, c0.mark + 1, p, token, id, result, attempt, c)
    {
      var stopped, docker := StopForCleanup(p, token, id, result, attempt);
      ghost var undone, end;
      thrown, undone, end := ConfirmOrUndo(p, token, id, result, attempt, stopped);
      c := Cleaning(c0.mark, docker, undone, end);
    }

    method StopForCleanup(p: Pid, token: nat, id: OpId, result: DockerResult, attempt: nat) returns (stopped: bool, ghost docker: nat)
      requires At(p, CleanupDocker(token, id, result, attempt))
      modifies this
      ensures Grew(old(trace), trace, p)
      ensures At(p, if stopped then CleanupConfirm(token, id, result, attempt) else CleanupRollback(token, id, result, attempt, false))
      ensures Looked(trace, |old(trace)|, p, docker, CleanupDocker(token, id, result, attempt)) && docker == |trace| - 1
      ensures trace[docker].e.o.ok == stopped
    {
      Yield(p, CleanupDocker(token, id, result, attempt));
      docker := |trace|;
      stopped := *;
      ArriveCleanup(p, PLAIN.(ok := stopped), s, CleanupDocker(token, id, result, attempt),
                    if stopped then CleanupConfirm(token, id, result, attempt) else CleanupRollback(token, id, result, attempt, false));
    }

    method ConfirmOrUndo(p: Pid, token: nat, id: OpId, result: DockerResult, attempt: nat, stopped: bool)
      returns (thrown: bool, ghost undone: bool, ghost end: nat)
      requires At(p, if stopped then CleanupConfirm(token, id, result, attempt) else CleanupRollback(token, id, result, attempt, false))
      modifies this
      ensures Grew(old(trace), trace, p)
      ensures At(p, if thrown then MarkDone(token, false) else Save(token, id, result))
      ensures (!undone ==> stopped) && (undone && stopped ==> Threw(trace, |old(trace)|, p))
      ensures if thrown then Threw(trace, |old(trace)|, p)
              else AttemptEnded(trace, |old(trace)|, p, token, attempt,
                                if undone then CleanupRollback(token, id, result, attempt, false)
                                else CleanupConfirm(token, id, result, attempt),
                                !undone, end)
    {
      undone := !stopped;
      if stopped {
        thrown, end := ConfirmCleanup(p, token, id, result, attempt);
        undone := thrown;
        if !thrown { return; }
      }
      thrown, end := UndoCleanup(p, token, id, result, attempt);
    }

    method ConfirmCleanup(p: Pid, token: nat, id: OpId, result: DockerResult, attempt: nat) returns (thrown: bool, ghost end: nat)
      requires At(p, CleanupConfirm(token, id, result, attempt))
      modifies this
      ensures Grew(old(trace), trace, p)
      ensures At(p, if thrown then CleanupRollback(token, id, result, attempt, false) else Save(token, id, result))
      ensures if thrown then Threw(trace, |old(trace)|, p)
              else AttemptEnded(trace, |old(trace)|, p, token, attempt, CleanupConfirm(token, id, result, attempt), true, end)
    {
      thrown := Throws(p, CleanupConfirm(token, id, result, attempt));
      end := |trace|;
      if !thrown { ConfirmCleanupNow(p, token, id, result, attempt); }
    }

    method ConfirmCleanupNow(p: Pid, token: nat, id: OpId, result: DockerResult, attempt: nat)
      requires At(p, CleanupConfirm(token, id, result, attempt))
      modifies this
      ensures Grew(old(trace), trace, p)
      ensures At(p, Save(token, id, result))
      ensures AttemptEnded(trace, |old(trace)|, p, token, attempt, CleanupConfirm(token, id, result, attempt), true, |old(trace)|)
    {
      var before := s;
      EndAttempt(token, attempt, true);
      ArriveCleanup(p, PLAIN, before, CleanupConfirm(token, id, result, attempt), Save(token, id, result));
    }

    method UndoCleanup(p: Pid, token: nat, id: OpId, result: DockerResult, attempt: nat) returns (thrown: bool, ghost end: nat)
      requires At(p, CleanupRollback(token, id, result, attempt, false))
      modifies this
      ensures Grew(old(trace), trace, p)
      ensures At(p, if thrown then MarkDone(token, false) else Save(token, id, result))
      ensures if thrown then Threw(trace, |old(trace)|, p)
              else AttemptEnded(trace, |old(trace)|, p, token, attempt, CleanupRollback(token, id, result, attempt, false), false, end)
    {
      thrown := Throws(p, CleanupRollback(token, id, result, attempt, false));
      end := |trace|;
      if !thrown { UndoCleanupNow(p, token, id, result, attempt); }
    }

    method UndoCleanupNow(p: Pid, token: nat, id: OpId, result: DockerResult, attempt: nat)
      requires At(p, CleanupRollback(token, id, result, attempt, false))
      modifies this
      ensures Grew(old(trace), trace, p)
      ensures At(p, Save(token, id, result))
      ensures AttemptEnded(trace, |old(trace)|, p, token, attempt, CleanupRollback(token, id, result, attempt, false), false, |old(trace)|)
    {
      var before := s;
      EndAttempt(token, attempt, false);
      ArriveCleanup(p, PLAIN, before, CleanupRollback(token, id, result, attempt, false), Save(token, id, result));
    }

    /** A command that was interrupted meanwhile does not report success. */
    method SaveResult(p: Pid, token: nat, id: OpId, result: DockerResult) returns (thrown: bool, ghost save: nat, ghost keep: nat)
      requires At(p, Save(token, id, result))
      modifies this
      ensures Grew(old(trace), trace, p)
      ensures At(p, MarkDone(token, !thrown))
      ensures if thrown then Threw(trace, |old(trace)|, p) else StatusSaved(trace, |old(trace)|, p, token, id, result, save, keep)
    {
      thrown := Throws(p, Save(token, id, result));
      save, keep := |trace|, 0;
      if !thrown { thrown, keep := SaveOrKeep(p, token, id, result); }
    }

    method SaveOrKeep(p: Pid, token: nat, id: OpId, result: DockerResult) returns (thrown: bool, ghost keep: nat)
      requires At(p, Save(token, id, result))
      modifies this
      ensures Grew(old(trace), trace, p)
      ensures At(p, MarkDone(token, !thrown))
      ensures if thrown then Threw(trace, |old(trace)|, p)
              else StatusSaved(trace, |old(trace)|, p, token, id, result, |old(trace)|, keep)
    {
      thrown, keep := false, 0;
      var status := if result.interrupted then Interrupted
                    else if result.timedOut || result.exitCode == Some(124) then TimedOut
                    else if result.exitCode == Some(0) then Succeeded
                    else Failed;
      var finished := SaveStatus(p, token, id, result, status);
      if !finished { thrown, keep := KeepInterrupted(p, token, id); }
    }

    method SaveStatus(p: Pid, token: nat, id: OpId, result: DockerResult, status: Status) returns (finished: bool)
      requires At(p, Save(token, id, result))
      requires status == (if result.interrupted then Interrupted
                          else if result.timedOut || result.exitCode == Some(124) then TimedOut
                          else if result.exitCode == Some(0) then Succeeded
                          else Failed)
      modifies this
      ensures Grew(old(trace), trace, p)
      ensures At(p, if finished then MarkDone(token, true) else SaveInterrupted(token, id))
      ensures var k := |old(trace)|;
              && Looked(trace, k, p, k, Save(token, id, result)) && k < |trace|
              && (finished <==> trace[k].receipt == Some(Running))
              && (finished ==> trace[k].receiptAfter == Some(status))
    {
      var before := s;
      finished := SwapReceipt(id, Running, status);
      ArriveExecute(p, PLAIN, before, Save(token, id, result),
                    if finished then MarkDone(token, true) else SaveInterrupted(token, id));
    }

    method KeepInterrupted(p: Pid, token: nat, id: OpId) returns (thrown: bool, ghost keep: nat)
      requires At(p, SaveInterrupted(token, id))
      modifies this
      ensures Grew(old(trace), trace, p)
      ensures At(p, MarkDone(token, !thrown))
      ensures if thrown then Threw(trace, |old(trace)|, p)
              else Looked(trace, |old(trace)|, p, keep, SaveInterrupted(token, id)) && trace[keep].receiptAfter == Some(Interrupted)
    {
      thrown := Throws(p, SaveInterrupted(token, id));
      keep := |trace|;
      if !thrown { KeepNow(p, token, id); }
    }

    method KeepNow(p: Pid, token: nat, id: OpId)
      requires At(p, SaveInterrupted(token, id))
      modifies this
      ensures Grew(old(trace), trace, p)
      ensures At(p, MarkDone(token, true))
      ensures Looked(trace, |old(trace)|, p, |old(trace)|, SaveInterrupted(token, id))
      ensures trace[|old(trace)|].receiptAfter == Some(Interrupted)
    {
      var before := s;
      PutReceipt(id, Interrupted);
      ArriveExecute(p, PLAIN, before, SaveInterrupted(token, id), MarkDone(token, true));
    }
  }
}
