/** One proposed action: every call that reads and writes its record, expiry and crash recovery
    (apps/server/src/actions.ts over Store.claim and Store.recoverInterruptedActions, the reconcile, cancel
    and force-cancel routes of engine/routes.ts, and the sweeps of engine/service.ts and engine/worker.ts).

    The deferred option is not configured, as in apps/server/src/app.ts.  Hashes are injective, so a
    hash is modelled by the content it was computed from. */
module ActionApproval {
  import opened Runs

  type Pid = nat

  datatype Status = AwaitingReview | Executing | Denied | Expired | Cancelled | Succeeded | Failed | OutcomeUnknown

  /** What is hashed: propose hashes the whole prepared input, edit only data and connection. */
  datatype Content = Prepared(data: nat, connection: nat, target: nat) | Edited(data: nat, connection: nat)

  /** `uncertain` says that the recorded error names an uncertain outcome. */
  datatype Action = Action(
    status: Status, data: nat, connection: nat, target: nat, hash: Content,
    expiresAt: nat, hasTask: bool, uncertain: bool)

  datatype Call =
    | Propose(action: Action)
    | Edit(newData: nat, expected: Content)
    | Retry
    | Decide(hash: Content, approve: bool)
    | Reconcile(executed: bool)       // an operator says what became of an unknown outcome
    | Cancel
    | ForceCancel                     // also the sweep of executions that take too long
    | Expire                          // the worker's and the service's sweep of old reviews

  datatype Proc =
    | ProposeGet(action: Action)
    | ProposeInsert(action: Action)
    | EditGet(newData: nat, expected: Content)
    | EditSwap(newData: nat, seen: Action)
    | RetryGet
    | RetrySwap(was: Status)
    | DecideGet(hash: Content, approve: bool)
    | DecideTask(approve: bool, seen: Action, edits: nat)
    | DecideExpiry(approve: bool, seen: Action, edits: nat)
    | ExpireSwap(seen: Action)
    | DecideGate(approve: bool, seen: Action, edits: nat)
    | DecideClaim(approve: bool, seen: Action, edits: nat, reading: nat)
    | Approved(claimed: Action, seen: Action, untouched: bool)
    | Running(claimed: Action)
    | Save(finished: Action)
    | ReconcileGet(executed: bool)
    | ReconcileSwap(executed: bool)
    | CancelGet
    | CancelSwap
    | ForceCancelGet
    | ForceCancelSwap
    | ExpireGet
    | ExpireCheck(expiresAt: nat)
    | ExpireStale(expiresAt: nat)
    | Finished(ok: bool)

  /** One started execution: what was reviewed, what ran, and whether no edit came between. */
  datatype Execution = Execution(reviewed: Action, ran: Action, untouched: bool)

  datatype State = State(
    now: nat,
    action: Option<Action>,
    taskLive: bool,               // the task is running or waiting for approval
    procs: map<Pid, Proc>,
    // history, read by no step
    pending: set<Pid>,            // the decides that claimed the action and have not started to execute
    approvals: nat, denials: nat, cancels: nat,
    lost: nat,                    // open reviews that a recorded outcome overwrote
    retries: nat,
    failures: nat,                // outcomes recorded as failed
    disproved: nat,               // unknown outcomes reconciled as not executed
    affirmed: nat,                // unknown outcomes reconciled as executed
    abandoned: nat,               // executions that recovery or an operator gave up on
    answers: seq<Answer>,         // how the provider calls ended
    edits: nat,                   // writes of other content
    executions: seq<Execution>)

  const START := State(0, None, true, map[], {}, 0, 0, 0, 0, 0, 0, 0, 0, 0, [], 0, [])

  /** What the world decides in a step: whether a gate or a provider call went well. */
  datatype Answer = Good | Bad | Unknown | BadAndUncertain

  datatype Event =
    | Tick(ms: nat)
    | Task(live: bool)
    | Begin(p: Pid, call: Call)
    | Go(p: Pid, answer: Answer)
    | Throw(p: Pid)
    | Lose(p: Pid, answer: Answer)  // the awaited store call took effect, and then failed
    | Sweep                         // recoverInterruptedActions in a live process
    | Crash                         // the process dies and recovery runs at the next start

  datatype Move = Move(s: State, pc: Proc)

  function At(s: State, p: Pid, pc: Proc): State { s.(procs := s.procs[p := pc]) }

  predicate Has(s: State, status: Status) { s.action.Some? && s.action.value.status == status }

  function Put(s: State, a: Action): State { s.(action := Some(a)) }

  /** The stored action with another status. */
  function Marked(s: State, status: Status): State
    requires s.action.Some?
  {
    Put(s, s.action.value.(status := status))
  }

  /** Nobody knows any more what became of the execution. */
  function GivenUp(s: State): State
    requires Has(s, Executing)
  {
    Marked(s, OutcomeUnknown).(abandoned := s.abandoned + 1)
  }

  predicate Open(s: State) { Has(s, AwaitingReview) || Has(s, Expired) }

  function Entry(call: Call): Proc {
    match call
    case Propose(a) => ProposeGet(a.(status := AwaitingReview, hash := Prepared(a.data, a.connection, a.target), uncertain := false))
    case Edit(d, h) => EditGet(d, h)
    case Retry => RetryGet
    case Decide(h, approve) => DecideGet(h, approve)
    case Reconcile(executed) => ReconcileGet(executed)
    case Cancel => CancelGet
    case ForceCancel => ForceCancelGet
    case Expire => ExpireGet
  }

  predicate InReview(pc: Proc) {
    pc.ProposeGet? || pc.ProposeInsert? || pc.EditGet? || pc.EditSwap? || pc.RetryGet? || pc.RetrySwap?
  }

  function ReviewStep(s: State, p: Pid, pc: Proc): (m: Move)
    requires InReview(pc)
    ensures m.s.procs == s.procs && m.s.pending == s.pending && m.s.executions == s.executions
  {
    match pc
    case ProposeGet(a) => Move(s, if s.action.Some? then Finished(true) else ProposeInsert(a))
    case ProposeInsert(a) => if s.action.Some? then Move(s, Finished(true)) else Move(Put(s, a), Finished(true))
    case EditGet(d, h) =>
      if Has(s, AwaitingReview) && s.action.value.hash == h then Move(s, EditSwap(d, s.action.value)) else Move(s, Finished(false))
    case EditSwap(d, seen) =>
      if Has(s, AwaitingReview) && s.action.value.hash == seen.hash
      then Move(Put(s, s.action.value.(data := d, hash := Edited(d, seen.connection))).(edits := s.edits + 1), Finished(true))
      else Move(s, Finished(false))
    case RetryGet =>
      if (Has(s, Failed) || Has(s, Denied)) && !s.action.value.uncertain
      then Move(s, RetrySwap(s.action.value.status)) else Move(s, Finished(false))
    case RetrySwap(was) =>
      if Has(s, was)
      then Move(Put(s, s.action.value.(status := AwaitingReview, uncertain := false)).(retries := s.retries + 1), Finished(true))
      else Move(s, Finished(false))
  }

  predicate InOperator(pc: Proc) {
    || pc.ReconcileGet? || pc.ReconcileSwap? || pc.CancelGet? || pc.CancelSwap? || pc.ForceCancelGet? || pc.ForceCancelSwap?
    || pc.ExpireGet? || pc.ExpireCheck? || pc.ExpireStale?
  }

  /** The single swaps of the routes and sweeps, each after a read of its own. */
  function OperatorStep(s: State, p: Pid, pc: Proc): (m: Move)
    requires InOperator(pc)
    ensures m.s.procs == s.procs && m.s.pending == s.pending && m.s.executions == s.executions && m.s.edits == s.edits
  {
    match pc
    case ReconcileGet(executed) => Move(s, if Has(s, OutcomeUnknown) then ReconcileSwap(executed) else Finished(false))
    case ReconcileSwap(executed) =>
      if !Has(s, OutcomeUnknown) then Move(s, Finished(false))
      else if executed
      then Move(Put(s, s.action.value.(status := Succeeded, uncertain := false)).(affirmed := s.affirmed + 1), Finished(true))
      else Move(Put(s, s.action.value.(status := Failed, uncertain := false)).(disproved := s.disproved + 1), Finished(true))
    case CancelGet => Move(s, if Has(s, AwaitingReview) then CancelSwap else Finished(false))
    case CancelSwap =>
      if Has(s, AwaitingReview) then Move(Marked(s, Cancelled).(cancels := s.cancels + 1), Finished(true))
      else Move(s, Finished(false))
    case ForceCancelGet => Move(s, if Has(s, Executing) then ForceCancelSwap else Finished(false))
    case ForceCancelSwap =>
      if Has(s, Executing) then Move(GivenUp(s), Finished(true)) else Move(s, Finished(false))
    case ExpireGet => Move(s, if Has(s, AwaitingReview) then ExpireCheck(s.action.value.expiresAt) else Finished(true))
    case ExpireCheck(expiresAt) => Move(s, if expiresAt <= s.now then ExpireStale(expiresAt) else Finished(true))
    case ExpireStale(expiresAt) =>
      if Has(s, AwaitingReview) && s.action.value.expiresAt == expiresAt then Move(Marked(s, Expired), Finished(true))
      else Move(s, Finished(true))
  }

  predicate InDecide(pc: Proc) {
    pc.DecideGet? || pc.DecideTask? || pc.DecideExpiry? || pc.ExpireSwap? || pc.DecideGate? || pc.DecideClaim?
  }

  /** Store.claim: the status, the expiry and the task are compared; the hash is not. */
  predicate Claimable(s: State, approve: bool, reading: nat) {
    Has(s, AwaitingReview) && s.action.value.expiresAt > reading
    && (!approve || !s.action.value.hasTask || s.taskLive)
  }

  function DecideStep(s: State, p: Pid, answer: Answer, pc: Proc): (m: Move)
    requires InDecide(pc)
    ensures m.s.procs == s.procs && m.s.executions == s.executions && m.s.edits == s.edits && m.s.retries == s.retries
  {
    match pc
    case DecideGet(h, approve) =>
      if s.action.None? || s.action.value.hash != h then Move(s, Finished(false))
      else if !Has(s, AwaitingReview) then Move(s, Finished(true))
      else if approve && s.action.value.hasTask then Move(s, DecideTask(approve, s.action.value, s.edits))
      else Move(s, DecideExpiry(approve, s.action.value, s.edits))
    case DecideTask(approve, seen, n) =>
      Move(s, if s.taskLive then DecideExpiry(approve, seen, n) else Finished(false))
    case DecideExpiry(approve, seen, n) =>
      Move(s, if seen.expiresAt <= s.now then ExpireSwap(seen) else DecideGate(approve, seen, n))
    case ExpireSwap(seen) =>
      if Has(s, AwaitingReview) && s.action.value.hash == seen.hash && s.action.value.expiresAt == seen.expiresAt
      then Move(Marked(s, Expired), Finished(false))
      else Move(s, Finished(true))
    case DecideGate(approve, seen, n) =>
      Move(s, if approve && !answer.Good? then Finished(false) else DecideClaim(approve, seen, n, s.now))
    case DecideClaim(approve, seen, n, reading) =>
      if !Claimable(s, approve, reading) then Move(s, Finished(true))
      else
        var claimed := s.action.value.(status := if approve then Executing else Denied);
        if approve
        then Move(Put(s, claimed).(approvals := s.approvals + 1, pending := s.pending + {p}), Approved(claimed, seen, n == s.edits))
        else Move(Put(s, claimed).(denials := s.denials + 1), Finished(true))
  }

  predicate InFlight(pc: Proc) { pc.Approved? || pc.Running? || pc.Save? }

  predicate SameContent(a: Action, b: Action) {
    a.data == b.data && a.connection == b.connection && a.target == b.target && a.hash == b.hash
  }

  /** The outcome overwrites the record, whatever it holds by then. */
  function Saved(s: State, finished: Action): State {
    Put(s, finished).(
      lost := s.lost + (if Open(s) then 1 else 0),
      failures := s.failures + (if finished.status.Failed? then 1 else 0),
      edits := s.edits + (if s.action.Some? && SameContent(s.action.value, finished) then 0 else 1))
  }

  function FlightStep(s: State, p: Pid, answer: Answer, pc: Proc): (m: Move)
    requires InFlight(pc)
    ensures m.s.procs == s.procs && m.s.approvals == s.approvals && m.s.denials == s.denials && m.s.retries == s.retries
  {
    match pc
    case Approved(claimed, seen, untouched) =>
      Move(s.(executions := s.executions + [Execution(seen, claimed, untouched)], pending := s.pending - {p}), Running(claimed))
    case Running(claimed) =>
      Move(s.(answers := s.answers + [answer]),
           Save(match answer
                case Good => claimed.(status := Succeeded)
                case Unknown => claimed.(status := OutcomeUnknown)
                case Bad => claimed.(status := Failed, uncertain := false)
                case BadAndUncertain => claimed.(status := Failed, uncertain := true)))
    case Save(finished) => Move(Saved(s, finished), Finished(true))
  }

  function Advance(s: State, p: Pid, answer: Answer, pc: Proc): (m: Option<Move>)
    ensures m.Some? ==> m.value.s.procs == s.procs
  {
    if InReview(pc) then Some(ReviewStep(s, p, pc))
    else if InOperator(pc) then Some(OperatorStep(s, p, pc))
    else if InDecide(pc) then Some(DecideStep(s, p, answer, pc))
    else if InFlight(pc) then Some(FlightStep(s, p, answer, pc))
    else None
  }

  function Recovered(s: State): State { if Has(s, Executing) then GivenUp(s) else s }

  /** The call is over, by an error. */
  function Fail(s: State, p: Pid): State { At(s, p, Finished(false)).(pending := s.pending - {p}) }

  /** A call that may fail: the checks of a clock reading and the caught provider call may not. */
  predicate Awaits(pc: Proc) { !pc.Running? && !pc.DecideExpiry? && !pc.ExpireCheck? && !pc.Finished? }

  /** The store calls that write. */
  predicate Writes(pc: Proc) {
    || pc.ProposeInsert? || pc.EditSwap? || pc.RetrySwap? || pc.ExpireSwap? || pc.DecideClaim? || pc.Save?
    || pc.ReconcileSwap? || pc.CancelSwap? || pc.ForceCancelSwap? || pc.ExpireStale?
  }

  function Next(s: State, e: Event): Option<State> {
    match e
    case Tick(ms) => Some(s.(now := s.now + ms))
    case Task(live) => Some(s.(taskLive := live))
    case Begin(p, call) => if p in s.procs then None else Some(At(s, p, Entry(call)))
    case Go(p, answer) =>
      if p !in s.procs then None
      else (match Advance(s, p, answer, s.procs[p])
        case None => None
        case Some(m) => Some(At(m.s, p, m.pc)))
    case Throw(p) => if p !in s.procs || !Awaits(s.procs[p]) then None else Some(Fail(s, p))
    case Lose(p, answer) =>
      if p !in s.procs || !Writes(s.procs[p]) then None
      else (match Advance(s, p, answer, s.procs[p])
        case None => None
        case Some(m) => Some(Fail(m.s, p)))
    case Sweep => Some(Recovered(s))
    case Crash => Some(Recovered(s).(procs := map p | p in s.procs :: Finished(false), pending := {}))
  }

  // ------------------------------------------------------------------ the invariant

  predicate Hashed(a: Action) {
    a.hash == Prepared(a.data, a.connection, a.target) || a.hash == Edited(a.data, a.connection)
  }

  /** What no write ever changes. */
  predicate Fixed(a: Action, b: Action) { a.target == b.target && a.expiresAt == b.expiresAt && a.hasTask == b.hasTask }

  predicate FixedIn(s: State, a: Action) { s.action.Some? && Fixed(a, s.action.value) && Hashed(a) }

  /** Approvals, denials, cancellations, lost reviews and the open review account for the proposal and its
      retries; and denials, recorded failures and disproved outcomes for the retries. */
  predicate Conserved(s: State) {
    if s.action.None? then s.approvals == s.denials == s.cancels == s.lost == s.retries == 0
    else
      && s.approvals + s.denials + s.cancels + s.lost + (if Open(s) then 1 else 0) == 1 + s.retries
      && s.retries + (if Has(s, Failed) || Has(s, Denied) then 1 else 0) <= s.denials + s.failures + s.disproved
  }

  /** A proposal a call has read: if nobody changed it since, it still has the stored content. */
  predicate SeenInv(s: State, seen: Action, edits: nat) {
    FixedIn(s, seen) && edits <= s.edits && (edits == s.edits ==> SameContent(seen, s.action.value))
  }

  predicate ProcInv(s: State, p: Pid, pc: Proc) {
    && (pc.Approved? <==> p in s.pending)
    && match pc
       case ProposeGet(a) => Hashed(a) && a.status.AwaitingReview? && !a.uncertain
       case ProposeInsert(a) => Hashed(a) && a.status.AwaitingReview? && !a.uncertain
       case EditSwap(_, seen) => Hashed(seen)
       case RetrySwap(was) => was.Failed? || was.Denied?
       case DecideTask(_, seen, n) => SeenInv(s, seen, n)
       case DecideExpiry(_, seen, n) => SeenInv(s, seen, n)
       case DecideGate(_, seen, n) => SeenInv(s, seen, n)
       case DecideClaim(_, seen, n, reading) => SeenInv(s, seen, n) && reading <= s.now
       case Approved(claimed, seen, untouched) =>
         FixedIn(s, claimed) && FixedIn(s, seen) && (untouched ==> SameContent(seen, claimed)) && !claimed.uncertain
       case Running(claimed) => FixedIn(s, claimed) && !claimed.uncertain
       case Save(finished) =>
         FixedIn(s, finished) && (finished.uncertain ==> finished.status.Failed?)
         && (finished.status.Succeeded? || finished.status.Failed? || finished.status.OutcomeUnknown?)
       case _ => true
  }

  predicate ExecutionInv(x: Execution) {
    Hashed(x.reviewed) && Hashed(x.ran) && x.ran.target == x.reviewed.target && (x.untouched ==> SameContent(x.reviewed, x.ran))
  }

  /** The shared part: counts balance, and only a failure is uncertain. */
  predicate Shared(s: State) {
    && Conserved(s)
    && (s.action.Some? ==> Hashed(s.action.value) && (s.action.value.uncertain ==> s.action.value.status.Failed?))
    && |s.executions| + |s.pending| <= s.approvals
    && (forall i :: 0 <= i < |s.executions| ==> ExecutionInv(s.executions[i]))
  }

  ghost predicate Inv(s: State) {
    Shared(s) && s.pending <= s.procs.Keys && (forall p :: p in s.procs ==> ProcInv(s, p, s.procs[p]))
  }

  /** What the other calls may rely on while `p` takes a step. */
  predicate Rely(s: State, t: State, p: Pid) {
    && s.now <= t.now && s.edits <= t.edits && s.pending - {p} == t.pending - {p}
    && (s.action.Some? ==> t.action.Some? && Fixed(s.action.value, t.action.value)
                           && (t.edits == s.edits ==> SameContent(s.action.value, t.action.value)))
  }

  predicate GoodStep(s: State, m: Move, p: Pid) {
    m.s.procs == s.procs && Rely(s, m.s, p) && Shared(m.s) && ProcInv(m.s, p, m.pc)
  }

  lemma OtherKeeps(s: State, t: State, p: Pid, q: Pid, qc: Proc)
    requires Rely(s, t, p) && ProcInv(s, q, qc) && q != p
    ensures ProcInv(t, q, qc)
  {
    assert q in s.pending <==> q in s.pending - {p};
    assert q in t.pending <==> q in t.pending - {p};
  }

  lemma GoodStepKeeps(s: State, m: Move, p: Pid)
    requires Inv(s) && p in s.procs && GoodStep(s, m, p)
    ensures Inv(At(m.s, p, m.pc))
  {
    var t := At(m.s, p, m.pc);
    forall q | q in t.procs ensures ProcInv(t, q, t.procs[q]) {
      if q != p { OtherKeeps(s, m.s, p, q, s.procs[q]); }
    }
    forall q | q in t.pending ensures q in t.procs { if q != p { assert q in m.s.pending - {p}; } }
  }

  lemma ReviewIsGood(s: State, p: Pid, pc: Proc)
    requires Shared(s) && ProcInv(s, p, pc) && InReview(pc)
    ensures GoodStep(s, ReviewStep(s, p, pc), p)
  {
  }

  lemma OperatorIsGood(s: State, p: Pid, pc: Proc)
    requires Shared(s) && ProcInv(s, p, pc) && InOperator(pc)
    ensures GoodStep(s, OperatorStep(s, p, pc), p)
  {
  }

  lemma DecideIsGood(s: State, p: Pid, answer: Answer, pc: Proc)
    requires Shared(s) && ProcInv(s, p, pc) && InDecide(pc)
    ensures GoodStep(s, DecideStep(s, p, answer, pc), p)
  {
  }

  lemma FlightIsGood(s: State, p: Pid, answer: Answer, pc: Proc)
    requires Shared(s) && ProcInv(s, p, pc) && InFlight(pc)
    ensures GoodStep(s, FlightStep(s, p, answer, pc), p)
  {
  }

  lemma GoKeepsInv(s: State, p: Pid, answer: Answer)
    requires Inv(s) && p in s.procs && Advance(s, p, answer, s.procs[p]).Some?
    ensures var m := Advance(s, p, answer, s.procs[p]).value; Inv(At(m.s, p, m.pc))
  {
    var pc := s.procs[p];
    assert ProcInv(s, p, pc);
    if InReview(pc) { ReviewIsGood(s, p, pc); }
    else if InOperator(pc) { OperatorIsGood(s, p, pc); }
    else if InDecide(pc) { DecideIsGood(s, p, answer, pc); }
    else { FlightIsGood(s, p, answer, pc); }
    GoodStepKeeps(s, Advance(s, p, answer, pc).value, p);
  }

  /** A call may fail anywhere: nothing waits for it. */
  lemma FailKeepsInv(s: State, p: Pid)
    requires Inv(s) && p in s.procs
    ensures Inv(Fail(s, p))
  {
    FailIsGood(s, p);
    GoodStepKeeps(s, Move(s.(pending := s.pending - {p}), Finished(false)), p);
  }

  lemma FailIsGood(s: State, p: Pid)
    requires Shared(s)
    ensures GoodStep(s, Move(s.(pending := s.pending - {p}), Finished(false)), p)
  {
    if p in s.pending { assert s.pending == s.pending - {p} + {p}; } else { assert s.pending - {p} == s.pending; }
  }

  lemma LoseKeepsInv(s: State, p: Pid, answer: Answer)
    requires Inv(s) && Next(s, Lose(p, answer)).Some?
    ensures Inv(Next(s, Lose(p, answer)).value)
  {
    var m := Advance(s, p, answer, s.procs[p]).value;
    GoKeepsInv(s, p, answer);
    FailKeepsInv(At(m.s, p, m.pc), p);
    assert At(m.s, p, m.pc).procs[p := Finished(false)] == m.s.procs[p := Finished(false)];
  }

  lemma SweepKeepsInv(s: State)
    requires Inv(s)
    ensures Inv(Recovered(s))
  {
    forall q | q in s.procs ensures ProcInv(Recovered(s), q, s.procs[q]) { assert ProcInv(s, q, s.procs[q]); }
  }

  lemma CrashKeepsInv(s: State)
    requires Inv(s)
    ensures Inv(Next(s, Crash).value)
  {
    SweepKeepsInv(s);
  }

  lemma BeginKeepsInv(s: State, p: Pid, call: Call)
    requires Inv(s) && Next(s, Begin(p, call)).Some?
    ensures Inv(Next(s, Begin(p, call)).value)
  {
    var t := Next(s, Begin(p, call)).value;
    assert p !in s.pending;
    forall q | q in t.procs ensures ProcInv(t, q, t.procs[q]) { if q in s.procs { assert ProcInv(s, q, s.procs[q]); } }
  }

  lemma StepKeepsInv(s: State, e: Event)
    requires Inv(s) && Next(s, e).Some?
    ensures Inv(Next(s, e).value)
  {
    match e
    case Go(p, answer) => GoKeepsInv(s, p, answer);
    case Lose(p, answer) => LoseKeepsInv(s, p, answer);
    case Sweep => SweepKeepsInv(s);
    case Crash => CrashKeepsInv(s);
    case Throw(p) => FailKeepsInv(s, p);
    case Begin(p, call) => BeginKeepsInv(s, p, call);
    case Tick(_) => forall q | q in s.procs ensures ProcInv(Next(s, e).value, q, s.procs[q]) { assert ProcInv(s, q, s.procs[q]); }
    case Task(_) => forall q | q in s.procs ensures ProcInv(Next(s, e).value, q, s.procs[q]) { assert ProcInv(s, q, s.procs[q]); }
  }

  lemma InvOfRuns(es: seq<Event>)
    requires Exec(Next, START, es).Some?
    ensures Inv(Exec(Next, START, es).value)
  {
    forall t: State, e: Event | Inv(t) && Next(t, e).Some? ensures Inv(Next(t, e).value) { StepKeepsInv(t, e); }
    InvariantOfRuns(Next, t => Inv(t), START, es);
  }

  // ------------------------------------------------------------------ main results

  /** Over every run, with recovery, crashes, lost answers and late outcomes at any moment: what was approved,
      denied, cancelled or overwritten, plus the open review, is the proposal plus its retries. */
  lemma ApprovalsAreConserved(es: seq<Event>, s: State)
    requires Exec(Next, START, es) == Some(s) && s.action.Some?
    ensures s.approvals + s.denials + s.cancels + s.lost + (if Open(s) then 1 else 0) == 1 + s.retries
    ensures |s.executions| <= s.approvals
  {
    InvOfRuns(es);
  }

  /** An action executes once, and once more at most for every failure its executions reported and every
      unknown outcome an operator declared not executed. */
  lemma RunsOnceButForFailures(es: seq<Event>, s: State)
    requires Exec(Next, START, es) == Some(s)
    ensures |s.executions| + s.cancels + s.lost + (if Open(s) || Has(s, Failed) || Has(s, Denied) then 1 else 0)
         <= 1 + s.failures + s.disproved
  {
    InvOfRuns(es);
  }

  predicate SameWork(a: Action, b: Action) { a.data == b.data && a.connection == b.connection && a.target == b.target }

  /** One hash is of a proposal, the other of an edit that stored the proposed data once more. */
  predicate Resaved(a: Content, b: Content) {
    (a.Prepared? <==> b.Edited?) && a.data == b.data && a.connection == b.connection
  }

  /** What ran is what was reviewed for every execution whose claim found the content as it was read.  For
      any execution it is exactly if the claimed hash, which `claim` does not compare, is the reviewed one or
      names the same data in the other form. */
  lemma WhatRanWasReviewed(es: seq<Event>, s: State, i: nat)
    requires Exec(Next, START, es) == Some(s) && i < |s.executions|
    ensures var x := s.executions[i]; x.untouched ==> SameContent(x.ran, x.reviewed)
    ensures var x := s.executions[i];
            SameWork(x.ran, x.reviewed) <==> x.ran.hash == x.reviewed.hash || Resaved(x.ran.hash, x.reviewed.hash)
  {
    InvOfRuns(es);
    assert ExecutionInv(s.executions[i]);
  }
}
