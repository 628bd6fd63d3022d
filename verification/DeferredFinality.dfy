/** When a deferred action can still run: an exact condition over every reachable state of its record. */
module DeferredFinality {
  import opened Runs
  import opened DeferredActions
  import Paging

  ghost predicate Someone(s: State, at: Proc -> bool) { exists p :: p in s.procs && at(s.procs[p]) }

  /** A new round finds the record in its listing, or a round under way has found it. */
  ghost predicate InReach(s: State) {
    s.ahead < Paging.LIST_LIMIT || Someone(s, (pc: Proc) => pc.TickRead? || pc.TickSwap?)
  }

  /** A tick has claimed the action, a signature is about to be saved, or the record can be signed, or run. */
  ghost predicate Alive(s: State) {
    || s.record.None? || Has(s, Collecting) || (Has(s, Scheduled) && InReach(s))
    || Someone(s, (pc: Proc) => pc.TickRun?) || Someone(s, (pc: Proc) => pc.DecidePut?)
  }

  /** Some continuation without a purge runs the action once more. */
  ghost predicate CanRun(s: State) {
    exists after :: Exec(Next, s, after).Some? && var t := Exec(Next, s, after).value; t.purged == s.purged && |t.ran| > |s.ran|
  }

  // ------------------------------------------------------------------ the condition is enough

  lemma Uses(from: State, es: seq<Event>, s: State, p: Pid, pc: Proc) returns (es': seq<Event>, t: State)
    requires Exec(Next, from, es) == Some(s) && p in s.procs && s.procs[p] == pc && InUser(pc)
    ensures Exec(Next, from, es') == Some(t) && t == At(UserStep(s, p, pc).s, p, UserStep(s, p, pc).pc)
  {
    es', t := ExecThen(Next, from, es, s, Go(p, true));
  }

  lemma Ticks(from: State, es: seq<Event>, s: State, p: Pid, pc: Proc) returns (es': seq<Event>, t: State)
    requires Exec(Next, from, es) == Some(s) && p in s.procs && s.procs[p] == pc && InTick(pc)
    ensures Exec(Next, from, es') == Some(t) && t == At(TickStep(s, p, true, pc).s, p, TickStep(s, p, true, pc).pc)
  {
    es', t := ExecThen(Next, from, es, s, Go(p, true));
  }

  lemma Enters(from: State, es: seq<Event>, s: State, entry: Proc) returns (es': seq<Event>, t: State, p: Pid)
    requires Exec(Next, from, es) == Some(s) && (entry.DecideGet? || entry.CancelGet? || entry.TickDue?)
    ensures Exec(Next, from, es') == Some(t) && p !in s.procs && t == At(s, p, entry)
  {
    p := Unused(s.procs.Keys);
    es', t := ExecThen(Next, from, es, s, Begin(p, entry));
  }

  /** As many runs and purges as there were. */
  predicate NoRun(s: State, t: State) { t.ran == s.ran && t.purged == s.purged && t.config == s.config }

  lemma ClaimedRuns(from: State, es: seq<Event>, s: State, p: Pid)
    requires Exec(Next, from, es) == Some(s) && NoRun(from, s) && p in s.procs && s.procs[p].TickRun?
    ensures CanRun(from)
  {
    var es', t := Ticks(from, es, s, p, s.procs[p]);
    assert Exec(Next, from, es').Some?;
  }

  /** After the window a new round claims the action. */
  lemma ScheduledRuns(from: State, es: seq<Event>, s: State)
    requires Exec(Next, from, es) == Some(s) && NoRun(from, s) && Has(s, Scheduled) && s.record.value.executeAt.Some?
    requires s.ahead < Paging.LIST_LIMIT
    ensures CanRun(from)
  {
    var es', t := ExecThen(Next, from, es, s, Wait(s.record.value.executeAt.value));
    var p;
    es', t, p := Enters(from, es', t, TickDue);
    es', t := Ticks(from, es', t, p, TickDue);
    es', t := Ticks(from, es', t, p, TickRead(s.record.value));
    es', t := Ticks(from, es', t, p, TickSwap(s.record.value));
    ClaimedRuns(from, es', t, p);
  }

  /** A user who has not signed yet signs now. */
  lemma SignsNow(from: State, es: seq<Event>, s: State) returns (es': seq<Event>, t: State)
    requires Exec(Next, from, es) == Some(s) && NoRun(from, s) && Inv(from) && Inv(s) && (s.record.None? || Has(s, Collecting))
    ensures Exec(Next, from, es') == Some(t) && NoRun(from, t) && Open(t) && Inv(t)
    ensures (s.record.Some? ==> Has(t, Scheduled)) && t.ahead == 0
  {
    var p;
    var owner := if s.record.Some? then s.record.value.owner else 0;
    var signers := if s.record.Some? then s.record.value.signers else [];
    var used := set u | u in signers;
    var user := Unused(used);
    assert user in signers ==> user in used;
    var signed := Signed(s.config, s.now, s.record, owner, user, None);
    es', t, p := Enters(from, es, s, DecideGet(owner, user, None));
    es', t := Uses(from, es', t, p, DecideGet(owner, user, None));
    es', t := Uses(from, es', t, p, DecidePut(signed.value));
    InvAfter(from, es');
  }

  lemma OpenRuns(from: State, es: seq<Event>, s: State)
    requires Exec(Next, from, es) == Some(s) && NoRun(from, s) && Inv(from) && Inv(s)
    requires s.record.None? || Has(s, Collecting) || (Has(s, Scheduled) && s.ahead < Paging.LIST_LIMIT)
    ensures CanRun(from)
  {
    var es', t := es, s;
    if t.record.None? { es', t := SignsNow(from, es', t); }
    if Has(t, Collecting) { es', t := SignsNow(from, es', t); }
    ScheduledRuns(from, es', t);
  }

  // ------------------------------------------------------------------ the condition is needed

  ghost predicate Dead(s: State, n: nat) { Inv(s) && !Alive(s) && |s.ran| == n }

  /** The record is closed, or scheduled where no new round finds it. */
  predicate OutOfReach(s: State) {
    s.record.Some? && !Has(s, Collecting) && (Has(s, Scheduled) ==> s.ahead >= Paging.LIST_LIMIT)
  }

  /** Nothing that could still run the action. */
  predicate Idle(s: State, pc: Proc) {
    !pc.TickRun? && !pc.DecidePut? && (Has(s, Scheduled) ==> !pc.TickRead? && !pc.TickSwap?)
  }

  lemma DeadMove(s: State, p: Pid, ok: bool, pc: Proc)
    requires OutOfReach(s) && Idle(s, pc) && ProcInv(s, p, pc) && Shared(s) && Advance(s, p, ok, pc).Some?
    ensures var m := Advance(s, p, ok, pc).value;
            && OutOfReach(m.s) && m.s.ran == s.ran && (Has(m.s, Scheduled) ==> Has(s, Scheduled))
            && !m.pc.TickRun? && !m.pc.DecidePut? && !m.pc.TickRead? && !m.pc.TickSwap?
  {
  }

  lemma DeadAt(s: State, t: State, p: Pid, pc: Proc, n: nat)
    requires Dead(s, n) && Inv(t) && t.procs == s.procs[p := pc] && OutOfReach(t) && t.ran == s.ran
    requires (Has(t, Scheduled) ==> Has(s, Scheduled)) && !pc.TickRun? && !pc.DecidePut? && !pc.TickRead? && !pc.TickSwap?
    ensures Dead(t, n)
  {
    forall q | q in t.procs ensures Idle(t, t.procs[q]) { assert q == p || (q in s.procs && Idle(s, s.procs[q])); }
  }

  lemma StepKeepsDead(s: State, e: Event, n: nat)
    requires Dead(s, n) && Next(s, e).Some? && !e.Purge?
    ensures Dead(Next(s, e).value, n)
  {
    StepKeepsInv(s, e);
    var t := Next(s, e).value;
    match e
    case Go(p, ok) =>
      assert ProcInv(s, p, s.procs[p]);
      assert Idle(s, s.procs[p]);
      DeadMove(s, p, ok, s.procs[p]);
      DeadAt(s, t, p, Advance(s, p, ok, s.procs[p]).value.pc, n);
    case Lose(p) =>
      assert ProcInv(s, p, s.procs[p]);
      assert Idle(s, s.procs[p]);
      DeadMove(s, p, true, s.procs[p]);
      DeadAt(s, t, p, Failing(s.procs[p]), n);
    case Throw(p) => DeadAt(s, t, p, Failing(s.procs[p]), n);
    case Begin(p, entry) => DeadAt(s, t, p, entry, n);
    case _ =>
  }

  /** Dead until the next purge. */
  ghost predicate DeadTill(s: State, n: nat, purged: nat) { s.purged >= purged && (s.purged == purged ==> Dead(s, n)) }

  lemma StepKeepsDeadTill(s: State, e: Event, n: nat, purged: nat)
    requires DeadTill(s, n, purged) && Next(s, e).Some?
    ensures DeadTill(Next(s, e).value, n, purged)
  {
    assert Next(s, e).value.purged == s.purged + (if e.Purge? then 1 else 0);
    if s.purged == purged && !e.Purge? { StepKeepsDead(s, e, n); }
  }

  lemma DeadNeverRuns(s: State)
    requires Inv(s) && !Alive(s)
    ensures !CanRun(s)
  {
    var n := |s.ran|;
    forall t: State, e: Event | DeadTill(t, n, s.purged) && Next(t, e).Some? ensures DeadTill(Next(t, e).value, n, s.purged) {
      StepKeepsDeadTill(t, e, n, s.purged);
    }
    forall after | Exec(Next, s, after).Some? && Exec(Next, s, after).value.purged == s.purged
      ensures |Exec(Next, s, after).value.ran| == n
    {
      InvariantOfRuns(Next, t => DeadTill(t, n, s.purged), s, after);
    }
  }

  /** A round that has listed the record goes on to claim it. */
  lemma FoundRuns(s: State, p: Pid)
    requires Has(s, Scheduled) && p in s.procs && (s.procs[p].TickRead? || s.procs[p].TickSwap?)
    ensures CanRun(s)
  {
    var es, t := Ticks(s, [], s, p, s.procs[p]);
    if t.procs[p].TickSwap? { es, t := Ticks(s, es, t, p, t.procs[p]); }
    ClaimedRuns(s, es, t, p);
  }

  lemma SavingRuns(s: State, p: Pid)
    requires Inv(s) && p in s.procs && s.procs[p].DecidePut?
    ensures CanRun(s)
  {
    assert ProcInv(s, p, s.procs[p]);
    var es, t := Uses(s, [], s, p, s.procs[p]);
    InvAfter(s, es);
    OpenRuns(s, es, t);
  }

  /** In every reachable state: the action can run again before its record is purged exactly if the record is
      collecting or absent, or scheduled and in reach of a listing, or a tick has claimed it, or a signature is
      about to be saved.  So a cancel is final exactly if no tick was before it and no signature is under way. */
  lemma RunsAgainExactly(c: Config, before: seq<Event>, s: State)
    requires Exec(Next, Start(c), before) == Some(s)
    ensures CanRun(s) <==> Alive(s)
  {
    InvAfter(Start(c), before);
    if !Alive(s) {
      DeadNeverRuns(s);
    } else if Someone(s, (pc: Proc) => pc.TickRun?) {
      var p :| p in s.procs && s.procs[p].TickRun?;
      ClaimedRuns(s, [], s, p);
    } else if Someone(s, (pc: Proc) => pc.DecidePut?) {
      var p :| p in s.procs && s.procs[p].DecidePut?;
      SavingRuns(s, p);
    } else if Has(s, Scheduled) && s.ahead >= Paging.LIST_LIMIT {
      var p :| p in s.procs && (s.procs[p].TickRead? || s.procs[p].TickSwap?);
      FoundRuns(s, p);
    } else {
      OpenRuns(s, [], s);
    }
  }

  // ------------------------------------------------------------------ a record behind too many others

  /** A scheduled action that nobody cancelled never runs: as many others as a listing answers with were
      written after it. */
  lemma CrowdedActionNeverRuns(c: Config)
    requires c.dualAt.None?
    ensures exists es: seq<Event> :: Exec(Next, Start(c), es).Some?
              && var s := Exec(Next, Start(c), es).value; Has(s, Scheduled) && s.cancels == 0 && !CanRun(s)
  {
    assert [] + [7] == [7];
    var es, s := ExecThen(Next, Start(c), [], Start(c), Begin(1, DecideGet(7, 7, None)));
    es, s := Uses(Start(c), es, s, 1, DecideGet(7, 7, None));
    es, s := Uses(Start(c), es, s, 1, DecidePut(FirstSigned(c, 7)));
    es, s := ExecThen(Next, Start(c), es, s, Crowd(Paging.LIST_LIMIT));
    assert forall p :: p in s.procs ==> s.procs[p] == Finished(true);
    RunsAgainExactly(c, es, s);
  }

  // ------------------------------------------------------------------ a late signature

  function FirstSigned(c: Config, user: User): Record { Record(7, None, [user], Some(c.windowMs), Scheduled) }

  /** Two users have read, at the same time, that nobody signed yet. */
  lemma ReachTwoSigning(c: Config) returns (es: seq<Event>, s: State)
    requires c.dualAt.None?
    ensures Exec(Next, Start(c), es) == Some(s) && s.record.None? && s.cancels == 0
    ensures s.procs == map[1 := DecidePut(FirstSigned(c, 7)), 2 := DecidePut(FirstSigned(c, 8))]
  {
    assert [] + [7] == [7] && [] + [8] == [8];
    es, s := ExecThen(Next, Start(c), [], Start(c), Begin(1, DecideGet(7, 7, None)));
    es, s := Uses(Start(c), es, s, 1, DecideGet(7, 7, None));
    es, s := ExecThen(Next, Start(c), es, s, Begin(2, DecideGet(7, 8, None)));
    es, s := Uses(Start(c), es, s, 2, DecideGet(7, 8, None));
  }

  /** The first of them saves the signature and cancels; the other is still about to save. */
  lemma ReachLateSignature(c: Config) returns (es: seq<Event>, s: State)
    requires c.dualAt.None?
    ensures Exec(Next, Start(c), es) == Some(s) && Has(s, Cancelled) && s.cancels == 1 && 2 in s.procs && s.procs[2].DecidePut?
  {
    es, s := ReachTwoSigning(c);
    es, s := Uses(Start(c), es, s, 1, DecidePut(FirstSigned(c, 7)));
    es, s := ExecThen(Next, Start(c), es, s, Begin(3, CancelGet(7, 7)));
    es, s := Uses(Start(c), es, s, 3, CancelGet(7, 7));
    es, s := Uses(Start(c), es, s, 3, CancelRead);
    es, s := Uses(Start(c), es, s, 3, CancelSwap(Scheduled));
  }

  /** The last clause of `Alive` is needed: a signature read before a successful cancel and saved after it
      brings the action back, and it runs. */
  lemma LateSignatureRunsACancelledAction(c: Config)
    requires c.dualAt.None?
    ensures exists es: seq<Event> :: Exec(Next, Start(c), es).Some?
              && var s := Exec(Next, Start(c), es).value; s.cancels == 1 && Has(s, Cancelled) && CanRun(s)
  {
    var es, s := ReachLateSignature(c);
    assert Someone(s, (pc: Proc) => pc.DecidePut?);
    RunsAgainExactly(c, es, s);
    assert Exec(Next, Start(c), es).Some?;
  }
}
