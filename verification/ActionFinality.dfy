/** When a proposed action is over: when its record can never change again, and when it can never execute
    again.  Both conditions are exact over every reachable state of the approval protocol. */
module ActionFinality {
  import opened Runs
  import opened ActionApproval

  /** A retry that read a failure is about to swap; its swap looks at the status alone. */
  ghost predicate Stale(s: State) { exists p :: p in s.procs && s.procs[p] == RetrySwap(Failed) }

  /** A record with this content can still be brought back to review. */
  predicate Reopenable(a: Action, stale: bool) {
    match a.status
    case Succeeded => false
    case Expired => false
    case Cancelled => false
    case Failed => !a.uncertain || stale
    case _ => true
  }

  // ------------------------------------------------------------------ records that never change again

  /** Nothing can reopen the record, and every decide still at work would only write it once more. */
  ghost predicate Over(s: State) {
    && s.action.Some? && !Reopenable(s.action.value, Stale(s))
    && forall p :: p in s.procs && InFlight(s.procs[p]) ==> s.procs[p] == Save(s.action.value)
  }

  ghost predicate StaysOver(s: State, a: Action, n: nat) { Inv(s) && Over(s) && s.action == Some(a) && |s.executions| == n }

  /** What one step does where nothing can be reopened: the call may leave, or end what it had begun. */
  lemma OverMove(s: State, p: Pid, answer: Answer, pc: Proc)
    requires s.action.Some? && !Reopenable(s.action.value, pc == RetrySwap(Failed))
    requires InFlight(pc) ==> pc == Save(s.action.value)
    requires ProcInv(s, p, pc) && Shared(s) && Advance(s, p, answer, pc).Some?
    ensures var m := Advance(s, p, answer, pc).value;
            m.s.action == s.action && m.s.executions == s.executions && !InFlight(m.pc) && m.pc != RetrySwap(Failed)
  {
  }

  lemma StaleStays(s: State, t: State, p: Pid, pc: Proc)
    requires t.procs == s.procs[p := pc] && pc != RetrySwap(Failed)
    ensures Stale(t) ==> Stale(s)
  {
  }

  /** The call `p` moves on to `pc`, and nothing else changes that matters here. */
  lemma OverAt(s: State, t: State, p: Pid, pc: Proc)
    requires Over(s) && t.procs == s.procs[p := pc] && t.action == s.action
    requires !InFlight(pc) && pc != RetrySwap(Failed)
    ensures Over(t)
  {
    StaleStays(s, t, p, pc);
  }

  lemma OverAdvance(s: State, p: Pid, answer: Answer)
    requires Inv(s) && Over(s) && p in s.procs && Advance(s, p, answer, s.procs[p]).Some?
    ensures var m := Advance(s, p, answer, s.procs[p]).value;
            m.s.action == s.action && m.s.executions == s.executions && !InFlight(m.pc) && m.pc != RetrySwap(Failed)
  {
    assert ProcInv(s, p, s.procs[p]);
    OverMove(s, p, answer, s.procs[p]);
  }

  /** The clock, the task, recovery and a crash. */
  lemma EnvironmentKeepsOver(s: State, e: Event)
    requires Over(s) && (e.Tick? || e.Task? || e.Sweep? || e.Crash?)
    ensures var t := Next(s, e).value; Over(t) && t.action == s.action && t.executions == s.executions
  {
    var t := Next(s, e).value;
    assert t.action == s.action;
    if e.Crash? {
      assert forall p :: p in t.procs ==> t.procs[p] == Finished(false);
    } else {
      assert t.procs == s.procs;
    }
  }

  /** A call takes its step, and goes on to `pc`. */
  lemma CallKeepsOver(s: State, p: Pid, answer: Answer, pc: Proc, t: State)
    requires Inv(s) && Over(s) && p in s.procs && Advance(s, p, answer, s.procs[p]).Some?
    requires var m := Advance(s, p, answer, s.procs[p]).value;
             && (pc == m.pc || pc == Finished(false)) && t.procs == s.procs[p := pc]
             && t.action == m.s.action && t.executions == m.s.executions
    ensures Over(t) && t.action == s.action && t.executions == s.executions
  {
    OverAdvance(s, p, answer);
    OverAt(s, t, p, pc);
  }

  /** A step, but for what it does to the invariant. */
  lemma StepStaysOver(s: State, e: Event)
    requires Inv(s) && Over(s) && Next(s, e).Some?
    ensures var t := Next(s, e).value; Over(t) && t.action == s.action && t.executions == s.executions
  {
    var t := Next(s, e).value;
    match e
    case Go(p, answer) => CallKeepsOver(s, p, answer, Advance(s, p, answer, s.procs[p]).value.pc, t);
    case Lose(p, answer) => CallKeepsOver(s, p, answer, Finished(false), t);
    case Throw(p) => OverAt(s, t, p, Finished(false));
    case Begin(p, call) => OverAt(s, t, p, Entry(call));
    case _ => EnvironmentKeepsOver(s, e);
  }

  lemma StepKeepsOver(s: State, e: Event, a: Action, n: nat)
    requires StaysOver(s, a, n) && Next(s, e).Some?
    ensures StaysOver(Next(s, e).value, a, n)
  {
    StepKeepsInv(s, e);
    StepStaysOver(s, e);
  }

  /** The record never changes again, and the action never executes again. */
  ghost predicate Final(s: State) {
    forall after :: Exec(Next, s, after).Some? ==>
      Exec(Next, s, after).value.action == s.action && |Exec(Next, s, after).value.executions| == |s.executions|
  }

  lemma OverIsFinal(s: State)
    requires Inv(s) && Over(s)
    ensures Final(s)
  {
    var a, n := s.action.value, |s.executions|;
    forall t: State, e: Event | StaysOver(t, a, n) && Next(t, e).Some? ensures StaysOver(Next(t, e).value, a, n) {
      StepKeepsOver(t, e, a, n);
    }
    forall after | Exec(Next, s, after).Some?
      ensures Exec(Next, s, after).value.action == s.action && |Exec(Next, s, after).value.executions| == n
    {
      InvariantOfRuns(Next, t => StaysOver(t, a, n), s, after);
    }
  }

  // ------------------------------------------------------------------ steps of a run that is being built

  /** The run went on at one moment, without executing; the calls of `s` but `p` stand where they stood. */
  ghost predicate Meanwhile(s: State, t: State, p: Option<Pid>) {
    && t.now == s.now && t.executions == s.executions && t.disproved >= s.disproved
    && forall q :: q in s.procs && p != Some(q) ==> q in t.procs && t.procs[q] == s.procs[q]
  }

  lemma Enters(from: State, es: seq<Event>, s: State, call: Call) returns (es': seq<Event>, t: State, p: Pid)
    requires Exec(Next, from, es) == Some(s)
    ensures Exec(Next, from, es') == Some(t) && p !in s.procs && t == At(s, p, Entry(call))
  {
    p := Unused(s.procs.Keys);
    es', t := ExecThen(Next, from, es, s, Begin(p, call));
  }

  lemma Reviews(from: State, es: seq<Event>, s: State, p: Pid, pc: Proc) returns (es': seq<Event>, t: State)
    requires Exec(Next, from, es) == Some(s) && p in s.procs && s.procs[p] == pc && InReview(pc)
    ensures Exec(Next, from, es') == Some(t) && t == At(ReviewStep(s, p, pc).s, p, ReviewStep(s, p, pc).pc)
  {
    es', t := ExecThen(Next, from, es, s, Go(p, Good));
  }

  lemma Operates(from: State, es: seq<Event>, s: State, p: Pid, pc: Proc) returns (es': seq<Event>, t: State)
    requires Exec(Next, from, es) == Some(s) && p in s.procs && s.procs[p] == pc && InOperator(pc)
    ensures Exec(Next, from, es') == Some(t) && t == At(OperatorStep(s, p, pc).s, p, OperatorStep(s, p, pc).pc)
  {
    es', t := ExecThen(Next, from, es, s, Go(p, Good));
  }

  lemma Decides(from: State, es: seq<Event>, s: State, p: Pid, pc: Proc) returns (es': seq<Event>, t: State)
    requires Exec(Next, from, es) == Some(s) && p in s.procs && s.procs[p] == pc && InDecide(pc)
    ensures Exec(Next, from, es') == Some(t) && t == At(DecideStep(s, p, Good, pc).s, p, DecideStep(s, p, Good, pc).pc)
  {
    es', t := ExecThen(Next, from, es, s, Go(p, Good));
  }

  lemma Flies(from: State, es: seq<Event>, s: State, p: Pid, answer: Answer, pc: Proc) returns (es': seq<Event>, t: State)
    requires Exec(Next, from, es) == Some(s) && p in s.procs && s.procs[p] == pc && InFlight(pc)
    ensures Exec(Next, from, es') == Some(t) && t == At(FlightStep(s, p, answer, pc).s, p, FlightStep(s, p, answer, pc).pc)
  {
    es', t := ExecThen(Next, from, es, s, Go(p, answer));
  }

  /** A retry begun now brings the record back to review. */
  lemma RetriesNow(from: State, es: seq<Event>, s: State) returns (es': seq<Event>, t: State)
    requires Exec(Next, from, es) == Some(s) && (Has(s, Failed) || Has(s, Denied)) && !s.action.value.uncertain
    ensures Exec(Next, from, es') == Some(t) && Meanwhile(s, t, None)
    ensures t.action == Some(s.action.value.(status := AwaitingReview))
    ensures t.failures == s.failures && t.disproved == s.disproved
  {
    var p;
    es', t, p := Enters(from, es, s, Retry);
    es', t := Reviews(from, es', t, p, RetryGet);
    es', t := Reviews(from, es', t, p, RetrySwap(s.action.value.status));
  }

  /** A cancel begun now closes the review. */
  lemma CancelsNow(from: State, es: seq<Event>, s: State) returns (es': seq<Event>, t: State)
    requires Exec(Next, from, es) == Some(s) && Has(s, AwaitingReview)
    ensures Exec(Next, from, es') == Some(t) && Meanwhile(s, t, None)
    ensures t.action == Some(s.action.value.(status := Cancelled))
  {
    var p;
    es', t, p := Enters(from, es, s, Cancel);
    es', t := Operates(from, es', t, p, CancelGet);
    es', t := Operates(from, es', t, p, CancelSwap);
  }

  /** An operator reconciles the unknown outcome now. */
  lemma ReconcilesNow(from: State, es: seq<Event>, s: State, executed: bool) returns (es': seq<Event>, t: State)
    requires Exec(Next, from, es) == Some(s) && Has(s, OutcomeUnknown)
    ensures Exec(Next, from, es') == Some(t) && Meanwhile(s, t, None)
    ensures t.action == Some(s.action.value.(status := if executed then Succeeded else Failed, uncertain := false))
    ensures t.disproved == s.disproved + (if executed then 0 else 1) && t.failures == s.failures
  {
    var p;
    es', t, p := Enters(from, es, s, Reconcile(executed));
    es', t := Operates(from, es', t, p, ReconcileGet(executed));
    es', t := Operates(from, es', t, p, ReconcileSwap(executed));
  }

  /** Recovery finds an execution that has not recorded its outcome. */
  lemma RecoversNow(from: State, es: seq<Event>, s: State) returns (es': seq<Event>, t: State)
    requires Exec(Next, from, es) == Some(s) && Has(s, Executing)
    ensures Exec(Next, from, es') == Some(t) && t == GivenUp(s)
  {
    es', t := ExecThen(Next, from, es, s, Sweep);
  }

  /** The decide in its provider call records this outcome. */
  lemma RecordsNow(from: State, es: seq<Event>, s: State, p: Pid, answer: Answer) returns (es': seq<Event>, t: State)
    requires Exec(Next, from, es) == Some(s) && p in s.procs && s.procs[p].Running?
    ensures Exec(Next, from, es') == Some(t) && Meanwhile(s, t, Some(p))
    ensures t.action.Some? && FlightStep(s, p, answer, s.procs[p]).pc == Save(t.action.value)
  {
    es', t := Flies(from, es, s, p, answer, s.procs[p]);
    es', t := Flies(from, es', t, p, Good, t.procs[p]);
  }

  // ------------------------------------------------------------------ the condition is exact

  /** A decide still at work is enough to change the record, unless it saves what is stored already. */
  lemma FlightIsNotFinal(s: State, p: Pid)
    requires s.action.Some? && p in s.procs && InFlight(s.procs[p]) && s.procs[p] != Save(s.action.value)
    ensures !Final(s)
  {
    var es, t;
    if s.procs[p].Running? {
      es, t := RecordsNow(s, [], s, p, if s.action.value.status.Succeeded? then Bad else Good);
    } else {
      es, t := Flies(s, [], s, p, Good, s.procs[p]);
    }
    assert Exec(Next, s, es) == Some(t);
  }

  /** What can be reopened can be changed. */
  lemma ReopenableIsNotFinal(s: State)
    requires Inv(s) && s.action.Some? && Reopenable(s.action.value, Stale(s))
    ensures !Final(s)
  {
    var es, t;
    match s.action.value.status
    case AwaitingReview => es, t := CancelsNow(s, [], s);
    case Executing => es, t := RecoversNow(s, [], s);
    case OutcomeUnknown => es, t := ReconcilesNow(s, [], s, true);
    case Denied => es, t := RetriesNow(s, [], s);
    case Failed =>
      if !s.action.value.uncertain {
        es, t := RetriesNow(s, [], s);
      } else {
        var p :| p in s.procs && s.procs[p] == RetrySwap(Failed);
        es, t := Reviews(s, [], s, p, RetrySwap(Failed));
      }
    assert Exec(Next, s, es) == Some(t) && t.action != s.action;
  }

  /** In every reachable state: the record never changes again and the action never executes again exactly
      if it succeeded, expired, was cancelled, or failed uncertainly with no retry at its swap, and every
      decide still at work is about to save just what is stored. */
  lemma FinalExactly(before: seq<Event>, s: State)
    requires Exec(Next, START, before) == Some(s) && s.action.Some?
    ensures Final(s) <==> Over(s)
  {
    InvOfRuns(before);
    if Over(s) {
      OverIsFinal(s);
    } else if Reopenable(s.action.value, Stale(s)) {
      ReopenableIsNotFinal(s);
    } else {
      var p :| p in s.procs && InFlight(s.procs[p]) && s.procs[p] != Save(s.action.value);
      FlightIsNotFinal(s, p);
    }
  }

  /** An uncertain failure is brought back to review by one step of any retry that stands at its swap,
      and otherwise by none. */
  lemma DoubtIsReopenedByStaleRetriesOnly(before: seq<Event>, s: State, p: Pid, answer: Answer)
    requires Exec(Next, START, before) == Some(s) && Has(s, Failed) && s.action.value.uncertain
    requires Next(s, Go(p, answer)).Some?
    ensures Has(Next(s, Go(p, answer)).value, AwaitingReview) <==> s.procs[p] == RetrySwap(Failed)
  {
    InvOfRuns(before);
    assert ProcInv(s, p, s.procs[p]);
  }

  // ------------------------------------------------------------------ actions that never execute again

  /** The stored action can be brought back to review, or the outcome of a decide still at work can be. */
  ghost predicate CanReopen(s: State) {
    && s.action.Some?
    && (Reopenable(s.action.value, Stale(s))
        || exists p :: p in s.procs && (s.procs[p].Running? || (s.procs[p].Save? && Reopenable(s.procs[p].finished, Stale(s)))))
  }

  /** Some claim can still find the review in time: one begun now, or one whose clock reading was early. */
  ghost predicate InTime(s: State) {
    && s.action.Some?
    && (s.now < s.action.value.expiresAt
        || exists p :: p in s.procs && EarlyClaim(s.procs[p], s.action.value.expiresAt))
  }

  predicate EarlyClaim(pc: Proc, expiresAt: nat) { pc.DecideClaim? && pc.approve && pc.reading < expiresAt }

  ghost predicate SomeApproved(s: State) { exists p :: p in s.procs && s.procs[p].Approved? }

  /** Some continuation executes the action once more. */
  ghost predicate CanRunAgain(s: State) {
    exists after :: Exec(Next, s, after).Some? && |Exec(Next, s, after).value.executions| > |s.executions|
  }

  // the condition is enough

  lemma ApprovedRuns(from: State, es: seq<Event>, s: State, p: Pid)
    requires Exec(Next, from, es) == Some(s) && p in s.procs && s.procs[p].Approved? && |s.executions| >= |from.executions|
    ensures CanRunAgain(from)
  {
    var es', t := Flies(from, es, s, p, Good, s.procs[p]);
    assert Exec(Next, from, es') == Some(t);
  }

  /** An open review with an early claim, or one begun now, is approved. */
  lemma OpenReviewRuns(from: State, es: seq<Event>, s: State)
    requires Exec(Next, from, es) == Some(s) && Has(s, AwaitingReview) && |s.executions| >= |from.executions| && InTime(s)
    ensures CanRunAgain(from)
  {
    var es', t := ExecThen(Next, from, es, s, Task(true));
    var p;
    if s.now < s.action.value.expiresAt {
      es', t, p := ReviewedNow(from, es', t);
    } else {
      p :| p in s.procs && EarlyClaim(s.procs[p], s.action.value.expiresAt);
    }
    es', t := Decides(from, es', t, p, t.procs[p]);
    ApprovedRuns(from, es', t, p);
  }

  /** The user opens the review and passes every check but the claim. */
  lemma ReviewedNow(from: State, es: seq<Event>, s: State) returns (es': seq<Event>, t: State, p: Pid)
    requires Exec(Next, from, es) == Some(s) && Has(s, AwaitingReview) && s.now < s.action.value.expiresAt
    requires s.action.value.hasTask ==> s.taskLive
    ensures Exec(Next, from, es') == Some(t) && p !in s.procs && t == At(s, p, DecideClaim(true, s.action.value, s.edits, s.now))
  {
    var a, n := s.action.value, s.edits;
    es', t, p := Enters(from, es, s, Decide(a.hash, true));
    es', t := Decides(from, es', t, p, DecideGet(a.hash, true));
    if a.hasTask { es', t := Decides(from, es', t, p, DecideTask(true, a, n)); }
    es', t := Decides(from, es', t, p, DecideExpiry(true, a, n));
    es', t := Decides(from, es', t, p, DecideGate(true, a, n));
    assert t.procs == s.procs[p := DecideClaim(true, a, n, s.now)];
  }

  /** A record that can be reopened is brought back to review without delay. */
  lemma ReopensNow(from: State, es: seq<Event>, s: State) returns (es': seq<Event>, t: State)
    requires Exec(Next, from, es) == Some(s) && Inv(s) && s.action.Some? && Reopenable(s.action.value, Stale(s))
    ensures Exec(Next, from, es') == Some(t) && Has(t, AwaitingReview) && t.now == s.now && t.executions == s.executions
    ensures t.action.value.expiresAt == s.action.value.expiresAt
    ensures forall q :: q in s.procs && s.procs[q].DecideClaim? ==> q in t.procs && t.procs[q] == s.procs[q]
  {
    es', t := es, s;
    if Has(t, Executing) { es', t := RecoversNow(from, es', t); }
    if Has(t, OutcomeUnknown) { es', t := ReconcilesNow(from, es', t, false); }
    if Has(t, Failed) && t.action.value.uncertain {
      var p :| p in t.procs && t.procs[p] == RetrySwap(Failed);
      es', t := Reviews(from, es', t, p, RetrySwap(Failed));
    } else if !Has(t, AwaitingReview) {
      es', t := RetriesNow(from, es', t);
    }
  }

  /** A decide still at work records an outcome that can be reopened. */
  lemma RecordsReopenable(s: State, p: Pid) returns (es: seq<Event>, t: State)
    requires Inv(s) && s.action.Some? && p in s.procs
    requires s.procs[p].Running? || (s.procs[p].Save? && Reopenable(s.procs[p].finished, Stale(s)))
    ensures Exec(Next, s, es) == Some(t) && Meanwhile(s, t, Some(p)) && Inv(t)
    ensures t.action.Some? && t.action.value.expiresAt == s.action.value.expiresAt && Reopenable(t.action.value, Stale(t))
  {
    assert ProcInv(s, p, s.procs[p]);
    if s.procs[p].Running? {
      es, t := RecordsNow(s, [], s, p, Bad);
    } else {
      es, t := Flies(s, [], s, p, Good, s.procs[p]);
      if Stale(s) {
        var q :| q in s.procs && s.procs[q] == RetrySwap(Failed);
        assert t.procs[q] == RetrySwap(Failed);
      }
    }
    InvAfter(s, es);
  }

  lemma InvAfter(s: State, es: seq<Event>)
    requires Inv(s) && Exec(Next, s, es).Some?
    ensures Inv(Exec(Next, s, es).value)
  {
    forall t: State, e: Event | Inv(t) && Next(t, e).Some? ensures Inv(Next(t, e).value) { StepKeepsInv(t, e); }
    InvariantOfRuns(Next, t => Inv(t), s, es);
  }

  lemma ReopenedRuns(s: State)
    requires Inv(s) && CanReopen(s) && InTime(s)
    ensures CanRunAgain(s)
  {
    var es, t := [], s;
    if !Reopenable(s.action.value, Stale(s)) {
      var p :| p in s.procs && (s.procs[p].Running? || (s.procs[p].Save? && Reopenable(s.procs[p].finished, Stale(s))));
      es, t := RecordsReopenable(s, p);
    }
    es, t := ReopensNow(s, es, t);
    if s.now >= s.action.value.expiresAt {
      var p :| p in s.procs && EarlyClaim(s.procs[p], s.action.value.expiresAt);
      assert t.procs[p] == s.procs[p];
    }
    OpenReviewRuns(s, es, t);
  }

  // the condition is needed

  /** No decide has still to start its execution, and every claim from now on is too late. */
  ghost predicate Late(s: State, n: nat) {
    Inv(s) && s.action.Some? && !SomeApproved(s) && !InTime(s) && |s.executions| == n
  }

  lemma LateMove(s: State, p: Pid, answer: Answer, pc: Proc)
    requires s.action.Some? && s.action.value.expiresAt <= s.now && !EarlyClaim(pc, s.action.value.expiresAt) && !pc.Approved?
    requires ProcInv(s, p, pc) && Shared(s) && Advance(s, p, answer, pc).Some?
    ensures var m := Advance(s, p, answer, pc).value;
            && m.s.action.Some? && m.s.action.value.expiresAt == s.action.value.expiresAt && m.s.now == s.now
            && m.s.executions == s.executions && !m.pc.Approved? && !EarlyClaim(m.pc, s.action.value.expiresAt)
  {
  }

  lemma LateAt(s: State, t: State, p: Pid, pc: Proc, n: nat)
    requires Late(s, n) && Inv(t) && t.procs == s.procs[p := pc] && !pc.Approved?
    requires t.action.Some? && t.action.value.expiresAt == s.action.value.expiresAt && t.now == s.now
    requires !EarlyClaim(pc, s.action.value.expiresAt) && t.executions == s.executions
    ensures Late(t, n)
  {
  }

  lemma StepKeepsLate(s: State, e: Event, n: nat)
    requires Late(s, n) && Next(s, e).Some?
    ensures Late(Next(s, e).value, n)
  {
    StepKeepsInv(s, e);
    var t := Next(s, e).value;
    match e
    case Go(p, answer) =>
      assert ProcInv(s, p, s.procs[p]);
      LateMove(s, p, answer, s.procs[p]);
      LateAt(s, t, p, Advance(s, p, answer, s.procs[p]).value.pc, n);
    case Lose(p, answer) =>
      assert ProcInv(s, p, s.procs[p]);
      LateMove(s, p, answer, s.procs[p]);
      LateAt(s, t, p, Finished(false), n);
    case Throw(p) => LateAt(s, t, p, Finished(false), n);
    case Begin(p, call) => LateAt(s, t, p, Entry(call), n);
    case _ =>
  }

  /** No decide has still to start its execution, and nothing brings the action back to review. */
  ghost predicate Shut(s: State, n: nat) {
    Inv(s) && s.action.Some? && !SomeApproved(s) && !CanReopen(s) && |s.executions| == n
  }

  lemma ShutMove(s: State, p: Pid, answer: Answer, pc: Proc, stale: bool)
    requires s.action.Some? && !Reopenable(s.action.value, stale) && !pc.Approved? && !pc.Running?
    requires (pc.Save? ==> !Reopenable(pc.finished, stale)) && (pc == RetrySwap(Failed) ==> stale)
    requires ProcInv(s, p, pc) && Shared(s) && Advance(s, p, answer, pc).Some?
    ensures var m := Advance(s, p, answer, pc).value;
            && m.s.action.Some? && !Reopenable(m.s.action.value, stale)
            && m.s.executions == s.executions && !InFlight(m.pc) && m.pc != RetrySwap(Failed)
  {
  }

  /** `Shut`, but for the invariant. */
  ghost predicate Closed(s: State) { s.action.Some? && !SomeApproved(s) && !CanReopen(s) }

  lemma ShutAt(s: State, t: State, p: Pid, pc: Proc)
    requires Closed(s) && t.procs == s.procs[p := pc] && !InFlight(pc) && pc != RetrySwap(Failed)
    requires t.action.Some? && !Reopenable(t.action.value, Stale(s))
    ensures Closed(t)
  {
    StaleStays(s, t, p, pc);
  }

  lemma ShutAdvance(s: State, p: Pid, answer: Answer)
    requires Inv(s) && Closed(s) && p in s.procs && Advance(s, p, answer, s.procs[p]).Some?
    ensures var m := Advance(s, p, answer, s.procs[p]).value;
            && m.s.action.Some? && !Reopenable(m.s.action.value, Stale(s))
            && m.s.executions == s.executions && !InFlight(m.pc) && m.pc != RetrySwap(Failed)
  {
    assert ProcInv(s, p, s.procs[p]);
    ShutMove(s, p, answer, s.procs[p], Stale(s));
  }

  /** The clock, the task, recovery and a crash. */
  lemma EnvironmentKeepsShut(s: State, e: Event)
    requires Closed(s) && (e.Tick? || e.Task? || e.Sweep? || e.Crash?)
    ensures Closed(Next(s, e).value) && Next(s, e).value.executions == s.executions
  {
    var t := Next(s, e).value;
    assert t.action == s.action;
    if e.Crash? {
      assert forall p :: p in t.procs ==> t.procs[p] == Finished(false);
    } else {
      assert t.procs == s.procs;
    }
  }

  /** A call takes its step, and goes on to `pc`. */
  lemma CallKeepsShut(s: State, p: Pid, answer: Answer, pc: Proc, t: State)
    requires Inv(s) && Closed(s) && p in s.procs && Advance(s, p, answer, s.procs[p]).Some?
    requires var m := Advance(s, p, answer, s.procs[p]).value;
             && (pc == m.pc || pc == Finished(false)) && t.procs == s.procs[p := pc]
             && t.action == m.s.action && t.executions == m.s.executions
    ensures Closed(t) && t.executions == s.executions
  {
    ShutAdvance(s, p, answer);
    ShutAt(s, t, p, pc);
  }

  lemma StepStaysShut(s: State, e: Event)
    requires Inv(s) && Closed(s) && Next(s, e).Some?
    ensures Closed(Next(s, e).value) && Next(s, e).value.executions == s.executions
  {
    var t := Next(s, e).value;
    match e
    case Go(p, answer) => CallKeepsShut(s, p, answer, Advance(s, p, answer, s.procs[p]).value.pc, t);
    case Lose(p, answer) => CallKeepsShut(s, p, answer, Finished(false), t);
    case Throw(p) => ShutAt(s, t, p, Finished(false));
    case Begin(p, call) => ShutAt(s, t, p, Entry(call));
    case _ => EnvironmentKeepsShut(s, e);
  }

  lemma StepKeepsShut(s: State, e: Event, n: nat)
    requires Shut(s, n) && Next(s, e).Some?
    ensures Shut(Next(s, e).value, n)
  {
    StepKeepsInv(s, e);
    StepStaysShut(s, e);
  }

  lemma ClosedNeverRuns(s: State, after: seq<Event>)
    requires Inv(s) && s.action.Some? && !SomeApproved(s) && !(InTime(s) && CanReopen(s)) && Exec(Next, s, after).Some?
    ensures |Exec(Next, s, after).value.executions| == |s.executions|
  {
    var n := |s.executions|;
    if InTime(s) {
      forall t: State, e: Event | Shut(t, n) && Next(t, e).Some? ensures Shut(Next(t, e).value, n) { StepKeepsShut(t, e, n); }
      InvariantOfRuns(Next, t => Shut(t, n), s, after);
    } else {
      forall t: State, e: Event | Late(t, n) && Next(t, e).Some? ensures Late(Next(t, e).value, n) { StepKeepsLate(t, e, n); }
      InvariantOfRuns(Next, t => Late(t, n), s, after);
    }
  }

  /** In every reachable state: the action can execute again exactly if a decide has claimed it and has still
      to start, or some claim is in time and the review is open, can be opened again, or can be opened again
      once a decide still at work has recorded its outcome. */
  lemma RunsAgainExactly(before: seq<Event>, s: State)
    requires Exec(Next, START, before) == Some(s) && s.action.Some?
    ensures CanRunAgain(s) <==> SomeApproved(s) || (InTime(s) && CanReopen(s))
  {
    InvOfRuns(before);
    if SomeApproved(s) {
      var p :| p in s.procs && s.procs[p].Approved?;
      ApprovedRuns(s, [], s, p);
    } else if InTime(s) && CanReopen(s) {
      ReopenedRuns(s);
    } else {
      forall after | Exec(Next, s, after).Some? ensures |Exec(Next, s, after).value.executions| == |s.executions| {
        ClosedNeverRuns(s, after);
      }
    }
  }

  // ------------------------------------------------------------------ an unknown outcome nobody is working on

  /** The outcome stays unknown, or an operator declared the action executed. */
  ghost predicate StaysUnknown(s: State, a: Action, n: nat, disproved: nat) {
    && Inv(s) && s.disproved >= disproved
    && (s.disproved == disproved ==>
          && (forall p :: p in s.procs ==> !InFlight(s.procs[p])) && |s.executions| == n
          && (s.action == Some(a) || s.action == Some(a.(status := Succeeded))))
  }

  lemma UnknownMove(s: State, p: Pid, answer: Answer, pc: Proc)
    requires (Has(s, OutcomeUnknown) || Has(s, Succeeded)) && !s.action.value.uncertain && !InFlight(pc)
    requires ProcInv(s, p, pc) && Shared(s) && Advance(s, p, answer, pc).Some?
    ensures var m := Advance(s, p, answer, pc).value;
            && m.s.disproved >= s.disproved
            && (m.s.disproved == s.disproved ==>
                  && !InFlight(m.pc) && m.s.executions == s.executions
                  && (m.s.action == s.action || m.s.action == Some(s.action.value.(status := Succeeded))))
  {
  }

  lemma UnknownAdvance(s: State, p: Pid, answer: Answer, a: Action, n: nat)
    requires StaysUnknown(s, a, n, s.disproved) && a.status.OutcomeUnknown? && !a.uncertain
    requires p in s.procs && Advance(s, p, answer, s.procs[p]).Some?
    ensures var m := Advance(s, p, answer, s.procs[p]).value;
            m.s.disproved == s.disproved ==>
              && !InFlight(m.pc) && m.s.executions == s.executions
              && (m.s.action == s.action || (s.action.Some? && m.s.action == Some(s.action.value.(status := Succeeded))))
  {
    assert ProcInv(s, p, s.procs[p]);
    UnknownMove(s, p, answer, s.procs[p]);
  }

  lemma DisprovedGrows(s: State, e: Event)
    requires Next(s, e).Some?
    ensures Next(s, e).value.disproved >= s.disproved
  {
  }

  lemma StepKeepsUnknown(s: State, e: Event, a: Action, n: nat, disproved: nat)
    requires StaysUnknown(s, a, n, disproved) && Next(s, e).Some? && a.status.OutcomeUnknown? && !a.uncertain
    ensures StaysUnknown(Next(s, e).value, a, n, disproved)
  {
    StepKeepsInv(s, e);
    DisprovedGrows(s, e);
    var t := Next(s, e).value;
    if t.disproved == disproved {
      match e
      case Go(p, answer) =>
        UnknownAdvance(s, p, answer, a, n);
        UnknownAt(s, t, p, Advance(s, p, answer, s.procs[p]).value.pc, a, n);
      case Lose(p, answer) =>
        UnknownAdvance(s, p, answer, a, n);
        UnknownAt(s, t, p, Finished(false), a, n);
      case Throw(p) => UnknownAt(s, t, p, Finished(false), a, n);
      case Begin(p, call) => UnknownAt(s, t, p, Entry(call), a, n);
      case _ =>
    }
  }

  lemma UnknownAt(s: State, t: State, p: Pid, pc: Proc, a: Action, n: nat)
    requires StaysUnknown(s, a, n, s.disproved) && Inv(t) && t.disproved == s.disproved && a.status.OutcomeUnknown?
    requires t.procs == s.procs[p := pc] && !InFlight(pc) && t.executions == s.executions
    requires t.action == s.action || (s.action.Some? && t.action == Some(s.action.value.(status := Succeeded)))
    ensures StaysUnknown(t, a, n, s.disproved)
  {
  }

  /** An unknown outcome that no decide is still working on: as long as no operator declares it not executed,
      it never executes again, and the only change is an operator's word that it was executed. */
  lemma OnlyADisproofReopensUnknown(before: seq<Event>, s: State, after: seq<Event>)
    requires Exec(Next, START, before) == Some(s) && Has(s, OutcomeUnknown)
    requires forall p :: p in s.procs ==> !InFlight(s.procs[p])
    requires Exec(Next, s, after).Some? && Exec(Next, s, after).value.disproved == s.disproved
    ensures var t := Exec(Next, s, after).value;
            && |t.executions| == |s.executions|
            && (t.action == s.action || t.action == Some(s.action.value.(status := Succeeded)))
  {
    InvOfRuns(before);
    var a, n, d := s.action.value, |s.executions|, s.disproved;
    forall t: State, e: Event | StaysUnknown(t, a, n, d) && Next(t, e).Some? ensures StaysUnknown(Next(t, e).value, a, n, d) {
      StepKeepsUnknown(t, e, a, n, d);
    }
    InvariantOfRuns(Next, t => StaysUnknown(t, a, n, d), s, after);
  }
}
