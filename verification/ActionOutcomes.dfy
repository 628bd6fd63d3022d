/** What the record of an action says about how it ended: every status has its cause among the provider's
    answers, the operator's words, recovery, the clock and the denials. */
module ActionOutcomes {
  import opened Runs
  import opened ActionApproval

  /** The cause of a status. */
  predicate Caused(s: State, a: Action) {
    match a.status
    case Succeeded => Good in s.answers || s.affirmed > 0
    case OutcomeUnknown => Unknown in s.answers || s.abandoned > 0
    case Failed => if a.uncertain then BadAndUncertain in s.answers else Bad in s.answers || s.disproved > 0
    case Expired => a.expiresAt <= s.now
    case Denied => s.denials > 0
    case Cancelled => s.cancels > 0
    case Executing => s.approvals > 0
    case AwaitingReview => true
  }

  /** What a call is about to record has its cause already. */
  predicate Prepared(s: State, pc: Proc) {
    match pc
    case Save(finished) =>
      (finished.status.Succeeded? ==> Good in s.answers)
      && (finished.status.OutcomeUnknown? ==> Unknown in s.answers)
      && (finished.status.Failed? ==> (if finished.uncertain then BadAndUncertain else Bad) in s.answers)
    case ExpireSwap(seen) => seen.expiresAt <= s.now
    case ExpireStale(expiresAt) => expiresAt <= s.now
    case _ => true
  }

  ghost predicate Outcomes(s: State) {
    && (s.action.Some? ==> Caused(s, s.action.value))
    && forall p :: p in s.procs ==> Prepared(s, s.procs[p])
  }

  /** Causes never go away. */
  predicate Later(s: State, t: State) {
    && s.now <= t.now && s.affirmed <= t.affirmed && s.abandoned <= t.abandoned && s.disproved <= t.disproved
    && s.denials <= t.denials && s.cancels <= t.cancels && s.approvals <= t.approvals && s.answers <= t.answers
  }

  lemma PreparedStays(s: State, t: State, pc: Proc)
    requires Prepared(s, pc) && Later(s, t)
    ensures Prepared(t, pc)
  {
  }

  predicate GoodOutcome(s: State, m: Move) {
    m.s.procs == s.procs && Later(s, m.s) && Prepared(m.s, m.pc) && (m.s.action.Some? ==> Caused(m.s, m.s.action.value))
  }

  lemma ReviewPrepares(s: State, p: Pid, pc: Proc)
    requires InReview(pc) && ProcInv(s, p, pc) && Prepared(s, pc) && (s.action.Some? ==> Caused(s, s.action.value))
    ensures GoodOutcome(s, ReviewStep(s, p, pc))
  {
  }

  lemma OperatorPrepares(s: State, p: Pid, pc: Proc)
    requires InOperator(pc) && Prepared(s, pc) && (s.action.Some? ==> Caused(s, s.action.value))
    ensures GoodOutcome(s, OperatorStep(s, p, pc))
  {
  }

  lemma DecidePrepares(s: State, p: Pid, answer: Answer, pc: Proc)
    requires InDecide(pc) && Prepared(s, pc) && (s.action.Some? ==> Caused(s, s.action.value))
    ensures GoodOutcome(s, DecideStep(s, p, answer, pc))
  {
  }

  lemma FlightPrepares(s: State, p: Pid, answer: Answer, pc: Proc)
    requires InFlight(pc) && ProcInv(s, p, pc) && Prepared(s, pc) && (s.action.Some? ==> Caused(s, s.action.value))
    ensures GoodOutcome(s, FlightStep(s, p, answer, pc))
  {
    if pc.Running? { assert (s.answers + [answer])[|s.answers|] == answer; }
  }

  lemma AdvancePrepares(s: State, p: Pid, answer: Answer, pc: Proc)
    requires Advance(s, p, answer, pc).Some?
    requires ProcInv(s, p, pc) && Prepared(s, pc) && (s.action.Some? ==> Caused(s, s.action.value))
    ensures GoodOutcome(s, Advance(s, p, answer, pc).value)
  {
    if InReview(pc) { ReviewPrepares(s, p, pc); }
    else if InOperator(pc) { OperatorPrepares(s, p, pc); }
    else if InDecide(pc) { DecidePrepares(s, p, answer, pc); }
    else { FlightPrepares(s, p, answer, pc); }
  }

  /** The call `p` goes on to `pc`. */
  lemma OutcomesAt(s: State, t: State, p: Pid, pc: Proc)
    requires Outcomes(s) && Later(s, t) && t.procs == s.procs[p := pc] && Prepared(t, pc)
    requires t.action.Some? ==> Caused(t, t.action.value)
    ensures Outcomes(t)
  {
    forall q | q in t.procs ensures Prepared(t, t.procs[q]) { if q != p { PreparedStays(s, t, s.procs[q]); } }
  }

  lemma CallKeepsOutcomes(s: State, p: Pid, answer: Answer, pc: Proc, t: State)
    requires Inv(s) && Outcomes(s) && p in s.procs && Advance(s, p, answer, s.procs[p]).Some?
    requires var m := Advance(s, p, answer, s.procs[p]).value;
             && (pc == m.pc || pc == Finished(false)) && (t == At(m.s, p, pc) || (t == Fail(m.s, p) && pc == Finished(false)))
    ensures Outcomes(t)
  {
    assert ProcInv(s, p, s.procs[p]) && Prepared(s, s.procs[p]);
    AdvancePrepares(s, p, answer, s.procs[p]);
    OutcomesAt(s, t, p, pc);
  }

  /** The clock, the task, recovery and a crash. */
  lemma EnvironmentKeepsOutcomes(s: State, e: Event)
    requires Outcomes(s) && (e.Tick? || e.Task? || e.Sweep? || e.Crash?)
    ensures Outcomes(Next(s, e).value)
  {
    var t := Next(s, e).value;
    assert Later(s, t);
    forall q | q in t.procs ensures Prepared(t, t.procs[q]) { if !e.Crash? { PreparedStays(s, t, s.procs[q]); } }
  }

  lemma StepKeepsOutcomes(s: State, e: Event)
    requires Inv(s) && Outcomes(s) && Next(s, e).Some?
    ensures Outcomes(Next(s, e).value)
  {
    var t := Next(s, e).value;
    match e
    case Go(p, answer) => CallKeepsOutcomes(s, p, answer, Advance(s, p, answer, s.procs[p]).value.pc, t);
    case Lose(p, answer) => CallKeepsOutcomes(s, p, answer, Finished(false), t);
    case Throw(p) => OutcomesAt(s, t, p, Finished(false));
    case Begin(p, call) => OutcomesAt(s, t, p, Entry(call));
    case _ => EnvironmentKeepsOutcomes(s, e);
  }

  /** Over every run, with lost answers, crashes and late outcomes: a record reads succeeded only after an
      execution was answered well or an operator declared it executed, unknown only after an answer that left
      the outcome open or an execution given up on, failed only after an answer that says so, in the same
      degree of certainty, or a disproof; it reads expired only from its expiry on, and denied or cancelled
      only after that was decided. */
  lemma EveryOutcomeHasItsCause(es: seq<Event>, s: State)
    requires Exec(Next, START, es) == Some(s) && s.action.Some?
    ensures var a := s.action.value;
            && (a.status == Succeeded ==> Good in s.answers || s.affirmed > 0)
            && (a.status == OutcomeUnknown ==> Unknown in s.answers || s.abandoned > 0)
            && (a.status == Failed && a.uncertain ==> BadAndUncertain in s.answers)
            && (a.status == Failed && !a.uncertain ==> Bad in s.answers || s.disproved > 0)
            && (a.status == Expired ==> a.expiresAt <= s.now)
            && (a.status == Denied ==> s.denials > 0)
            && (a.status == Cancelled ==> s.cancels > 0)
            && (a.status == Executing ==> s.approvals > 0)
  {
    forall t: State, e: Event | Inv(t) && Outcomes(t) && Next(t, e).Some?
      ensures Inv(Next(t, e).value) && Outcomes(Next(t, e).value)
    {
      StepKeepsInv(t, e);
      StepKeepsOutcomes(t, e);
    }
    InvariantOfRuns(Next, t => Inv(t) && Outcomes(t), START, es);
  }
}
