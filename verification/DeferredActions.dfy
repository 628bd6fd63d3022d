/** Deferred actions: signatures, a window to undo, and one execution
    (apps/server/src/actions-deferred.ts, over the persistent store).

    Every call goes one store call at a time.  `decide` writes back the record it read without a guard, and
    the daily purge deletes records by age, so both can bring an action back; what follows counts how often. */
module DeferredActions {
  import opened Runs
  import Paging

  type Pid = nat
  type User = nat

  datatype Config = Config(windowMs: nat, dualAt: Option<nat>)

  datatype Status = Collecting | Scheduled | Running | Executed | Cancelled | Failed

  datatype Record = Record(
    owner: User, amount: Option<nat>, signers: seq<User>, executeAt: Option<nat>, status: Status)

  datatype Proc =
    | DecideGet(owner: User, user: User, amount: Option<nat>)
    | DecidePut(signed: Record)
    | CancelGet(owner: User, user: User)
    | CancelRead
    | CancelSwap(was: Status)
    | TickDue
    | TickRead(due: Record)
    | TickSwap(due: Record)
    | TickRun(due: Record)
    | TickPut(due: Record, ok: bool)
    | Finished(ok: bool)

  datatype State = State(
    config: Config,
    now: nat,
    record: Option<Record>,
    ahead: nat,                        // deferred records written since this one, which a listing answers with first
    procs: map<Pid, Proc>,
    // history, read by no step
    pending: set<Pid>,                 // the ticks that claimed the record and have not invoked `run`
    signings: set<(nat, Record)>,      // what `decide` made of the record it read, and when
    ran: seq<(nat, Record)>,           // when and with what record `run` was invoked
    cancels: nat,
    born: nat,                         // signatures saved where there was no record
    late: nat,                         // signatures saved over a record that was no longer collecting
    purged: nat)

  function Start(c: Config): State { State(c, 0, None, 0, map[], {}, {}, [], 0, 0, 0, 0) }

  datatype Event =
    | Wait(ms: nat)
    | Begin(p: Pid, entry: Proc)
    | Go(p: Pid, ok: bool)
    | Throw(p: Pid)
    | Lose(p: Pid)                     // the awaited store call took effect, and then failed
    | Purge
    | Crowd(ahead: nat)                // other deferred records are written

  datatype Move = Move(s: State, pc: Proc)

  function At(s: State, p: Pid, pc: Proc): State { s.(procs := s.procs[p := pc]) }

  function Needed(c: Config, amount: Option<nat>): nat {
    if c.dualAt.Some? && amount.Some? && amount.value >= c.dualAt.value then 2 else 1
  }

  /** The record that `decide` saves, or None where it throws. */
  function Signed(c: Config, now: nat, record: Option<Record>, owner: User, user: User, amount: Option<nat>): Option<Record> {
    var r := if record.Some? then record.value else Record(owner, amount, [], None, Collecting);
    if r.owner != owner || r.status != Collecting || user in r.signers then None
    else
      var signers := r.signers + [user];
      if |signers| >= Needed(c, r.amount)
      then Some(r.(signers := signers, status := Scheduled, executeAt := Some(now + c.windowMs)))
      else Some(r.(signers := signers))
  }

  predicate Due(r: Record, now: nat) { r.status == Scheduled && r.executeAt.Some? && r.executeAt.value <= now }

  predicate Has(s: State, status: Status) { s.record.Some? && s.record.value.status == status }

  /** The state after the record was written: it is the newest of all. */
  function Write(s: State, r: Record): State { s.(record := Some(r), ahead := 0) }

  function SetStatus(s: State, status: Status): State
    requires s.record.Some?
  {
    Write(s, s.record.value.(status := status))
  }

  /** The signed record is saved, whatever is stored by then. */
  function Put(s: State, r: Record): State {
    Write(s, r).(
      born := s.born + (if s.record.None? then 1 else 0),
      late := s.late + (if s.record.None? || Has(s, Collecting) then 0 else 1))
  }

  predicate InTick(pc: Proc) { pc.TickDue? || pc.TickRead? || pc.TickSwap? || pc.TickRun? || pc.TickPut? }

  function TickStep(s: State, p: Pid, ok: bool, pc: Proc): (m: Move)
    requires InTick(pc)
    ensures m.s.procs == s.procs && m.s.signings == s.signings && m.s.purged == s.purged
  {
    match pc
    case TickDue =>
      Move(s, if s.record.Some? && Due(s.record.value, s.now) && s.ahead < Paging.LIST_LIMIT
              then TickRead(s.record.value) else Finished(true))
    case TickRead(due) => Move(s, if Has(s, Scheduled) then TickSwap(due) else Finished(true))
    case TickSwap(due) =>
      if Has(s, Scheduled) then Move(SetStatus(s, Running).(pending := s.pending + {p}), TickRun(due))
      else Move(s, Finished(true))
    case TickRun(due) => Move(s.(ran := s.ran + [(s.now, due)], pending := s.pending - {p}), TickPut(due, ok))
    case TickPut(due, done) => Move(SavedOutcome(s, due, done), Finished(true))
  }

  /** The outcome is saved too, whatever is stored by then. */
  function SavedOutcome(s: State, due: Record, done: bool): State {
    Write(s, due.(status := if done then Executed else Failed)).(born := s.born + (if s.record.None? then 1 else 0))
  }

  predicate InUser(pc: Proc) { pc.DecideGet? || pc.DecidePut? || pc.CancelGet? || pc.CancelRead? || pc.CancelSwap? }

  function UserStep(s: State, p: Pid, pc: Proc): (m: Move)
    requires InUser(pc)
    ensures m.s.procs == s.procs && m.s.pending == s.pending && m.s.ran == s.ran && m.s.purged == s.purged
  {
    match pc
    case DecideGet(owner, user, amount) =>
      (match Signed(s.config, s.now, s.record, owner, user, amount)
       case None => Move(s, Finished(false))
       case Some(r) => Move(s.(signings := s.signings + {(s.now, r)}), DecidePut(r)))
    case DecidePut(r) => Move(Put(s, r), Finished(true))
    case CancelGet(owner, user) =>
      Move(s, if s.record.Some? && s.record.value.owner == owner && user in s.record.value.signers
              then CancelRead else Finished(false))
    case CancelRead =>
      Move(s, if Has(s, Scheduled) || Has(s, Collecting) then CancelSwap(s.record.value.status) else Finished(false))
    case CancelSwap(was) =>
      if Has(s, was) then Move(SetStatus(s, Cancelled).(cancels := s.cancels + 1), Finished(true))
      else Move(s, Finished(false))
  }

  function Advance(s: State, p: Pid, ok: bool, pc: Proc): (m: Option<Move>)
    ensures m.Some? ==> m.value.s.procs == s.procs && m.value.s.purged == s.purged
  {
    if InUser(pc) then Some(UserStep(s, p, pc)) else if InTick(pc) then Some(TickStep(s, p, ok, pc)) else None
  }

  /** An error ends a call, but for a tick that wants to save a success: that goes on to save a failure. */
  function Failing(pc: Proc): Proc {
    if pc.TickPut? && pc.ok then TickPut(pc.due, false) else Finished(false)
  }

  /** The call `p` has nothing to run any more. */
  function Quit(s: State, p: Pid): State { s.(pending := s.pending - {p}) }

  predicate Writes(pc: Proc) { pc.DecidePut? || pc.CancelSwap? || pc.TickSwap? || pc.TickPut? }

  function Next(s: State, e: Event): Option<State> {
    match e
    case Wait(ms) => Some(s.(now := s.now + ms))
    case Begin(p, entry) =>
      if p in s.procs || !(entry.DecideGet? || entry.CancelGet? || entry.TickDue?) then None
      else Some(At(s, p, entry))
    case Go(p, ok) =>
      if p !in s.procs then None
      else (match Advance(s, p, ok, s.procs[p])
        case None => None
        case Some(m) => Some(At(m.s, p, m.pc)))
    case Throw(p) =>
      if p !in s.procs || s.procs[p].Finished? || s.procs[p].TickRun? then None
      else Some(At(s, p, Failing(s.procs[p])))
    case Lose(p) =>
      if p !in s.procs || !Writes(s.procs[p]) then None
      else (match Advance(s, p, true, s.procs[p])
        case None => None
        case Some(m) => Some(At(Quit(m.s, p), p, Failing(s.procs[p]))))
    case Purge => Some(s.(record := None, purged := s.purged + 1))
    case Crowd(ahead) => if ahead >= s.ahead then Some(s.(ahead := ahead)) else None
  }

  // ------------------------------------------------------------------ the invariant

  predicate Distinct(xs: seq<User>) { forall i, j :: 0 <= i < j < |xs| ==> xs[i] != xs[j] }

  predicate Open(s: State) { Has(s, Collecting) || Has(s, Scheduled) }

  /** Some `decide` made this record, one window before it becomes due, with enough different signers. */
  predicate Ripe(s: State, r: Record) {
    && Distinct(r.signers) && |r.signers| >= Needed(s.config, r.amount)
    && r.executeAt.Some? && r.executeAt.value >= s.config.windowMs
    && (r.executeAt.value - s.config.windowMs, r.(status := Scheduled)) in s.signings
  }

  predicate RecordInv(s: State, r: Record) {
    Distinct(r.signers) && |r.signers| >= 1 && (r.status.Scheduled? ==> Ripe(s, r))
  }

  predicate DueInv(s: State, due: Record) {
    due.status.Scheduled? && RecordInv(s, due) && due.executeAt.value <= s.now
  }

  predicate ProcInv(s: State, p: Pid, pc: Proc) {
    && (pc.TickRun? <==> p in s.pending)
    && match pc
       case DecidePut(r) => RecordInv(s, r) && (r.status.Collecting? || r.status.Scheduled?)
       case CancelSwap(was) => was.Scheduled? || was.Collecting?
       case TickRead(due) => DueInv(s, due)
       case TickSwap(due) => DueInv(s, due)
       case TickRun(due) => DueInv(s, due)
       case TickPut(due, _) => DueInv(s, due)
       case _ => true
  }

  /** Runs, claims and cancellations are paid for by a first signature or by a late one. */
  predicate Conserved(s: State) {
    && |s.ran| + |s.pending| + s.cancels + (if Open(s) then 1 else 0) <= s.born + s.late
    && s.born + (if s.record.None? then 1 else 0) <= 1 + s.purged
  }

  predicate Shared(s: State) {
    && Conserved(s)
    && (s.record.Some? ==> RecordInv(s, s.record.value))
    && (forall x :: x in s.signings ==> x.0 <= s.now)
    && (forall i :: 0 <= i < |s.ran| ==> s.ran[i].1.status.Scheduled? && Ripe(s, s.ran[i].1) && s.ran[i].1.executeAt.value <= s.ran[i].0 <= s.now)
  }

  ghost predicate Inv(s: State) {
    Shared(s) && s.pending <= s.procs.Keys && (forall p :: p in s.procs ==> ProcInv(s, p, s.procs[p]))
  }

  predicate Rely(s: State, t: State, p: Pid) {
    s.config == t.config && s.now <= t.now && s.signings <= t.signings && s.pending - {p} == t.pending - {p}
  }

  predicate GoodStep(s: State, m: Move, p: Pid) {
    m.s.procs == s.procs && Rely(s, m.s, p) && Shared(m.s) && ProcInv(m.s, p, m.pc)
  }

  lemma OtherKeeps(s: State, t: State, p: Pid, q: Pid, qc: Proc)
    requires Rely(s, t, p) && ProcInv(s, q, qc) && q != p
    ensures ProcInv(t, q, qc)
  {
    assert q in s.pending <==> q in s.pending - {p};
    assert q in t.pending <==> q in t.pending - {p};
  }

  lemma GoodStepKeeps(s: State, m: Move, p: Pid)
    requires Inv(s) && p in s.procs && GoodStep(s, m, p)
    ensures Inv(At(m.s, p, m.pc))
  {
    var t := At(m.s, p, m.pc);
    forall q | q in t.procs ensures ProcInv(t, q, t.procs[q]) {
      if q != p { OtherKeeps(s, m.s, p, q, s.procs[q]); }
    }
    forall q | q in t.pending ensures q in t.procs { if q != p { assert q in m.s.pending - {p}; } }
  }

  lemma UserIsGood(s: State, p: Pid, pc: Proc)
    requires Shared(s) && ProcInv(s, p, pc) && InUser(pc)
    ensures GoodStep(s, UserStep(s, p, pc), p)
  {
  }

  lemma TickIsGood(s: State, p: Pid, ok: bool, pc: Proc)
    requires Shared(s) && ProcInv(s, p, pc) && InTick(pc)
    ensures GoodStep(s, TickStep(s, p, ok, pc), p)
  {
  }

  lemma GoKeepsInv(s: State, p: Pid, ok: bool)
    requires Inv(s) && p in s.procs && Advance(s, p, ok, s.procs[p]).Some?
    ensures var m := Advance(s, p, ok, s.procs[p]).value; Inv(At(m.s, p, m.pc))
  {
    assert ProcInv(s, p, s.procs[p]);
    if InUser(s.procs[p]) { UserIsGood(s, p, s.procs[p]); } else { TickIsGood(s, p, ok, s.procs[p]); }
    GoodStepKeeps(s, Advance(s, p, ok, s.procs[p]).value, p);
  }

  lemma LessPending(s: State, p: Pid)
    requires Shared(s)
    ensures Shared(Quit(s, p)) && Rely(s, Quit(s, p), p)
  {
    if p in s.pending { assert s.pending == s.pending - {p} + {p}; } else { assert s.pending - {p} == s.pending; }
  }

  lemma FailingIsGood(s: State, p: Pid, pc: Proc)
    requires Shared(s) && (pc.Finished? || (pc.TickPut? && DueInv(s, pc.due)))
    ensures GoodStep(s, Move(Quit(s, p), pc), p)
  {
    LessPending(s, p);
  }

  /** A call may fail anywhere: nothing waits for it. */
  lemma FailingKeepsInv(s: State, p: Pid, pc: Proc)
    requires Inv(s) && p in s.procs && (pc.Finished? || (pc.TickPut? && DueInv(s, pc.due)))
    ensures Inv(At(Quit(s, p), p, pc))
  {
    FailingIsGood(s, p, pc);
    GoodStepKeeps(s, Move(Quit(s, p), pc), p);
  }

  lemma ThrowKeepsInv(s: State, p: Pid)
    requires Inv(s) && Next(s, Throw(p)).Some?
    ensures Inv(Next(s, Throw(p)).value)
  {
    assert ProcInv(s, p, s.procs[p]);
    FailingKeepsInv(s, p, Failing(s.procs[p]));
    assert s.pending - {p} == s.pending;
  }

  lemma LoseKeepsInv(s: State, p: Pid)
    requires Inv(s) && Next(s, Lose(p)).Some?
    ensures Inv(Next(s, Lose(p)).value)
  {
    var pc := s.procs[p];
    assert ProcInv(s, p, pc);
    GoKeepsInv(s, p, true);
    DueStays(s, p, pc);
    LoseAfter(s, Advance(s, p, true, pc).value, p, Failing(pc));
  }

  lemma DueStays(s: State, p: Pid, pc: Proc)
    requires ProcInv(s, p, pc) && Writes(pc) && Advance(s, p, true, pc).Some?
    ensures Failing(pc).TickPut? ==> DueInv(Advance(s, p, true, pc).value.s, Failing(pc).due)
  {
  }

  lemma LoseAfter(s: State, m: Move, p: Pid, pc: Proc)
    requires m.s.procs == s.procs && Inv(At(m.s, p, m.pc)) && (pc.Finished? || (pc.TickPut? && DueInv(m.s, pc.due)))
    ensures Inv(At(Quit(m.s, p), p, pc))
  {
    FailingKeepsInv(At(m.s, p, m.pc), p, pc);
    QuitAfter(m.s, p, m.pc, pc);
  }

  lemma QuitAfter(s: State, p: Pid, pc: Proc, pc': Proc)
    ensures At(Quit(At(s, p, pc), p), p, pc') == At(Quit(s, p), p, pc')
  {
    assert s.procs[p := pc][p := pc'] == s.procs[p := pc'];
  }

  lemma BeginKeepsInv(s: State, p: Pid, entry: Proc)
    requires Inv(s) && Next(s, Begin(p, entry)).Some?
    ensures Inv(Next(s, Begin(p, entry)).value)
  {
    var t := Next(s, Begin(p, entry)).value;
    forall q | q in t.procs ensures ProcInv(t, q, t.procs[q]) {
      if q in s.procs { assert ProcInv(s, q, s.procs[q]); }
    }
  }

  /** The clock, the purge and the other records. */
  lemma EnvironmentKeepsInv(s: State, e: Event)
    requires Inv(s) && (e.Wait? || e.Purge? || e.Crowd?) && Next(s, e).Some?
    ensures Inv(Next(s, e).value)
  {
    var t := Next(s, e).value;
    forall q | q in t.procs ensures ProcInv(t, q, t.procs[q]) { assert ProcInv(s, q, s.procs[q]); }
  }

  lemma StepKeepsInv(s: State, e: Event)
    requires Inv(s) && Next(s, e).Some?
    ensures Inv(Next(s, e).value)
  {
    match e
    case Go(p, ok) => GoKeepsInv(s, p, ok);
    case Throw(p) => ThrowKeepsInv(s, p);
    case Lose(p) => LoseKeepsInv(s, p);
    case Begin(p, entry) => BeginKeepsInv(s, p, entry);
    case _ => EnvironmentKeepsInv(s, e);
  }

  lemma InvAfter(s: State, es: seq<Event>)
    requires Inv(s) && Exec(Next, s, es).Some?
    ensures Inv(Exec(Next, s, es).value)
  {
    forall t: State, e: Event | Inv(t) && Next(t, e).Some? ensures Inv(Next(t, e).value) { StepKeepsInv(t, e); }
    InvariantOfRuns(Next, t => Inv(t), s, es);
  }

  lemma ConfigStays(s: State, es: seq<Event>)
    requires Exec(Next, s, es).Some?
    ensures Exec(Next, s, es).value.config == s.config
  {
    InvariantOfRuns(Next, (t: State) => t.config == s.config, s, es);
  }

  // ------------------------------------------------------------------ main results

  /** Over every run, each execution is of a record that some decide had made, signed by at least the needed
      number of different people, and starts only when the whole window has passed since then. */
  lemma RunsAreSignedAndRipe(c: Config, es: seq<Event>, s: State, i: nat)
    requires Exec(Next, Start(c), es) == Some(s) && i < |s.ran|
    ensures var (at, r) := s.ran[i];
            && Distinct(r.signers) && |r.signers| >= Needed(c, r.amount)
            && exists signedAt: nat :: (signedAt, r) in s.signings && signedAt + c.windowMs <= at <= s.now
  {
    InvAfter(Start(c), es);
    ConfigStays(Start(c), es);
    var r := s.ran[i].1;
    assert Ripe(s, r);
    assert (r.executeAt.value - c.windowMs, r.(status := Scheduled)) in s.signings;
  }

  /** An action runs once, and once more at most for each signature that was saved over a record no longer
      collecting and for each purge of its record; cancellations use up the same allowance. */
  lemma RunsOnceButForLateWrites(c: Config, es: seq<Event>, s: State)
    requires Exec(Next, Start(c), es) == Some(s)
    ensures |s.ran| + s.cancels + (if Open(s) then 1 else 0) <= 1 + s.late + s.purged
  {
    InvAfter(Start(c), es);
  }
}
